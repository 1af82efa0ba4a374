# Basket state of a mobile storefront, in Dafny

This project models the basket (shopping cart) of a small React Native
storefront. The basket provider in `components/BasketContext.tsx` holds the
basket as an ordered array of product records keyed by `id`. It changes the
basket through four pure `prev => next` updates passed to `setBasket`:
`addToBasket`, `deleteFromBasket`, `incrementQuantity` and
`decrementQuantity`. Once, at start-up, it also replaces the basket wholesale
with the snapshot restored from storage. That replacement is asynchronous and
is not modelled (see "## Left out").

The model is functional:

- `wrappers.dfy`: module `Wrappers`, the `Option` type used for the optional `quantity` field.
- `basket.dfy`: module `Basket`.
  - The `Product` record. `price` is a `real` that is carried along and never computed with.
  - `Effective`, the `quantity || 1` reading that add, increment and decrement use.
  - The four updates as functions on `seq<Product>`, each with a contract stating its effect line by line.
- `basket_laws.dfy`: module `BasketLaws`, lemmas relating the updates:
  - one line per id;
  - order of the remaining lines after a delete;
  - no-op and idempotence laws;
  - increment/decrement round trips;
  - non-negative quantities.
- `basket_session.dfy`: module `BasketSession`, a run of dispatched updates from the empty basket.
  - `Apply` and `Run` model the provider applying the updates one after another, in dispatch order, starting from `useState([])`.
  - `RunConcat` states that dispatch order.
  - It proves that every reachable basket has distinct ids and only present, non-negative quantities.

Behaviour of the code worth knowing:

- Quantity 0 reads as 1. Every read of the quantity is `quantity || 1`, so an absent quantity and a stored 0 both count as 1.
  - Decrementing from 1, from 0 or from an absent quantity stores 0.
  - Incrementing from 0 stores 2.
  - So the stored quantity can be 0, but no reachable basket holds a negative quantity.
  - The displayed quantity (`quantity || 1`) never drops below 1 under decrement (`DisplayedDecrementFloorsAtOne`).
  - Decrement has no floor and no removal, but because of `|| 1` a non-negative quantity never becomes negative.
- Delete and the quantity updates act on every matching line. Delete is a `filter` and the quantity updates are a `map`, so each affects every line carrying the id, not just the first one. This only shows on a basket with duplicate ids, which only a restored snapshot can produce.
- Increment then decrement is not always a round trip. It restores the original stored quantity only when that quantity is present and is neither 0 nor -1 (`IncrementThenDecrementRestores`).
  - From absent or 0 it yields 1.
  - From -1, which only a restored snapshot can hold, it yields 0.

## Model

| member | source | states |
|---|---|---|
| Basket.Effective | components/BasketContext.tsx:76 | the quantity read is never 0; it is the stored value when that is present and non-zero, otherwise 1; it is at least 1 for a non-negative or absent quantity |
| Basket.Find | components/BasketContext.tsx:53 | finds a line exactly when some line carries the id, and the line found is the first one carrying it |
| Basket.Bump | components/BasketContext.tsx:56 | the spread `{ ...p, quantity }` keeps id, title, price, image and category, and stores the effective quantity plus the step |
| Basket.Adjust | components/BasketContext.tsx:55-57 | the `map` keeps length and position; lines with another id are unchanged, lines with the id are bumped |
| Basket.AddToBasket | components/BasketContext.tsx:51-62 | id present: same length and order, only quantities change, matching lines get effective quantity + 1 and keep their old fields; id absent: earlier lines unchanged and one line appended with the argument's fields and quantity 1 |
| Basket.DeleteFromBasket | components/BasketContext.tsx:64-66 | no line with the id remains; every remaining line was in the basket; every line with another id is kept |
| Basket.IncrementQuantity | components/BasketContext.tsx:68-72 | same length, ids and non-quantity fields; other ids untouched; matching lines store effective quantity + 1 |
| Basket.DecrementQuantity | components/BasketContext.tsx:74-78 | same length, ids and non-quantity fields; other ids untouched; matching lines store effective quantity - 1 |
| BasketLaws.AddKeepsDistinctIds | components/BasketContext.tsx:53-59 | if ids are distinct before an add, they are distinct after it |
| BasketLaws.AddPresentIsIncrement | components/BasketContext.tsx:53-57 | adding a product whose id is present equals incrementing that id, so the argument's other fields are ignored |
| BasketLaws.AddToEmpty | components/BasketContext.tsx:59 | adding to the empty basket yields exactly the product with quantity 1 |
| BasketLaws.AddTwice | components/BasketContext.tsx:51-62 | two adds of one id from empty yield one line with quantity 2 and the first add's fields |
| BasketLaws.DeleteSingle | components/BasketContext.tsx:65 | on a single line, delete drops it exactly when it carries the id |
| BasketLaws.DeleteDistributes | components/BasketContext.tsx:65 | delete of a concatenation is the concatenation of the deletes, so relative order of the remaining lines is kept |
| BasketLaws.DeleteAbsentIsNoop | components/BasketContext.tsx:65 | deleting an absent id returns the basket unchanged |
| BasketLaws.DeleteIdempotent | components/BasketContext.tsx:65 | deleting the same id twice equals deleting it once |
| BasketLaws.DeleteExactlyOne | components/BasketContext.tsx:65 | with distinct ids, deleting the id of line k yields the lines before k followed by the lines after k |
| BasketLaws.DeleteKeepsDistinctIds | components/BasketContext.tsx:65 | delete preserves distinct ids |
| BasketLaws.DeleteKeepsNonNegative | components/BasketContext.tsx:65 | delete preserves non-negative quantities |
| BasketLaws.IncrementAbsentIsNoop | components/BasketContext.tsx:68-72 | incrementing an absent id returns the basket unchanged |
| BasketLaws.DecrementAbsentIsNoop | components/BasketContext.tsx:74-78 | decrementing an absent id returns the basket unchanged |
| BasketLaws.QuantityUpdatesKeepDistinctIds | components/BasketContext.tsx:68-78 | increment and decrement preserve distinct ids |
| BasketLaws.DecrementToZero | components/BasketContext.tsx:76 | in any basket, decrementing a matching line whose quantity is absent, 0 or 1 stores 0 and keeps its other fields (so 0 stays 0, never -1) |
| BasketLaws.IncrementFromUnset | components/BasketContext.tsx:70 | in any basket, incrementing a matching line whose quantity is absent or 0 stores 2 and keeps its other fields |
| BasketLaws.DecrementKeepsNonNegative | components/BasketContext.tsx:76 | if no quantity is negative before a decrement, none is after |
| BasketLaws.IncrementKeepsNonNegative | components/BasketContext.tsx:70 | if no quantity is negative before an increment, none is after |
| BasketLaws.DisplayedDecrementFloorsAtOne | components/BasketContext.tsx:76 | for every matching line, the effective quantity after a decrement is 1 if it was 1, else one less, negative quantities included |
| BasketLaws.IncrementThenDecrementRestores | components/BasketContext.tsx:70-76 | increment then decrement gives back the basket when every matching quantity is present and neither 0 nor -1 |
| BasketLaws.IncrementThenDecrementFromUnset | components/BasketContext.tsx:70-76 | from an absent or 0 quantity, increment then decrement stores 1 and leaves the other fields |
| BasketLaws.IncrementThenDecrementFromMinusOne | components/BasketContext.tsx:70-76 | from a stored -1, increment then decrement stores 0 |
| BasketSession.RunConcat | components/BasketContext.tsx:51-78 | running two batches of updates in turn equals running them concatenated, so updates take effect one by one in dispatch order |
| BasketSession.ApplyKeepsWellFormed | components/BasketContext.tsx:51-78 | each of the four updates keeps distinct ids and present non-negative quantities |
| BasketSession.RunKeepsWellFormed | components/BasketContext.tsx:51-78 | any sequence of updates keeps distinct ids and present non-negative quantities |
| BasketSession.ReachableIsWellFormed | components/BasketContext.tsx:24-78 | from the initial empty basket, every sequence of updates yields distinct ids and every quantity present and at least 0 |
| BasketSession.LoadedBasketMayBeIllFormed | components/BasketContext.tsx:29-31 | a restored basket with a duplicate id and quantity -1 is not well-formed; an add bumps both duplicates; a decrement stores -2 |

## Left out

- Loading and saving the basket (lines 26-49). These are asynchronous calls to a platform key-value store with JSON encoding, fire-and-forget writes and logged failures. The model starts from the empty basket. `LoadedBasketMayBeIllFormed` shows that a restored basket is not bound by the invariants.
- The React context, the provider component and the `useBasket` hook, including its error when used outside a provider (lines 21, 80-93). This is UI wiring with no basket logic.
- JavaScript number semantics: floating-point prices, `NaN || 1` and other truthiness corner cases.
  - Ids and quantities are mathematical integers.
  - `price` is a `real` that no operation computes with.
- Basket totals, the badge item count and product search and pagination. They are computed by the screens, not by the basket provider.
