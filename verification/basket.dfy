/** The basket state of the storefront: an ordered sequence of product lines
    keyed by `id`, and the four pure `prev => next` updates the basket
    provider hands to `setBasket`. */
module Basket {
  import opened Wrappers

  /** One basket line: the product record with its optional quantity.
      `price` is carried unchanged and never computed with. */
  datatype Product = Product(
    id: int,
    title: string,
    price: real,
    image: string,
    quantity: Option<int>,
    category: string)

  /** The basket, in the order lines were first added. */
  type Basket = seq<Product>

  /** The quantity every reader of a line sees, `quantity || 1`: the stored
      value when it is truthy, and 1 when it is absent or 0. */
  function Effective(q: Option<int>): (e: int)
    ensures e != 0
    ensures q == Some(e) || e == 1
    ensures q.Some? && q.value != 0 ==> q == Some(e)
    ensures q.None? || q.value >= 0 ==> e >= 1
  {
    match q
    case None => 1
    case Some(n) => if n == 0 then 1 else n
  }

  /** True when some line of `b` carries `id`. */
  predicate HasId(b: Basket, id: int) {
    exists i :: 0 <= i < |b| && b[i].id == id
  }

  /** At most one line per `id`. */
  predicate DistinctIds(b: Basket) {
    forall i, j :: 0 <= i < j < |b| ==> b[i].id != b[j].id
  }

  /** Every line's quantity is absent or at least 0. */
  predicate NonNegative(b: Basket) {
    forall i :: 0 <= i < |b| ==> b[i].quantity.None? || b[i].quantity.value >= 0
  }

  /** `q` is `p` with at most its quantity changed. */
  predicate SameExceptQuantity(p: Product, q: Product) {
    && q.id == p.id
    && q.title == p.title
    && q.price == p.price
    && q.image == p.image
    && q.category == p.category
  }

  /** `prev.find(p => p.id === id)`: the first line carrying `id`, if any. */
  function Find(b: Basket, id: int): (r: Option<Product>)
    ensures r.Some? <==> HasId(b, id)
    ensures r.Some? ==> exists i :: 0 <= i < |b| && b[i] == r.value && b[i].id == id
                                   && forall j :: 0 <= j < i ==> b[j].id != id
  {
    if |b| == 0 then None
    else if b[0].id == id then Some(b[0])
    else Find(b[1..], id)
  }

  /** `{ ...p, quantity: (p.quantity || 1) + delta }` */
  function Bump(p: Product, delta: int): (q: Product)
    ensures SameExceptQuantity(p, q)
    ensures q.quantity.Some? && q.quantity.value - delta == Effective(p.quantity)
  {
    p.(quantity := Some(Effective(p.quantity) + delta))
  }

  /** `prev.map(p => p.id === id ? Bump(p, delta) : p)`: every line carrying
      `id` is bumped, every other line is left as it is. */
  function Adjust(b: Basket, id: int, delta: int): (r: Basket)
    ensures |r| == |b|
    ensures forall i :: 0 <= i < |b| && b[i].id != id ==> r[i] == b[i]
    ensures forall i :: 0 <= i < |b| && b[i].id == id ==> r[i] == Bump(b[i], delta)
  {
    if |b| == 0 then []
    else [if b[0].id == id then Bump(b[0], delta) else b[0]] + Adjust(b[1..], id, delta)
  }

  /** Adds `product`: when a line with its id exists, that line's quantity goes
      up by one and its other fields stay as they were; otherwise the product
      is appended with quantity 1, whatever quantity the argument carried. */
  function AddToBasket(b: Basket, product: Product): (r: Basket)
    ensures HasId(b, product.id) ==>
              && |r| == |b|
              && (forall i :: 0 <= i < |b| ==> SameExceptQuantity(b[i], r[i]))
              && (forall i :: 0 <= i < |b| && b[i].id != product.id ==> r[i] == b[i])
              && (forall i :: 0 <= i < |b| && b[i].id == product.id ==>
                    r[i].quantity == Some(Effective(b[i].quantity) + 1))
    ensures !HasId(b, product.id) ==>
              && |r| == |b| + 1
              && r[..|b|] == b
              && SameExceptQuantity(product, r[|b|])
              && r[|b|].quantity == Some(1)
  {
    if Find(b, product.id).Some? then Adjust(b, product.id, 1)
    else b + [product.(quantity := Some(1))]
  }

  /** `prev.filter(p => p.id !== id)`: drops every line carrying `id`. */
  function DeleteFromBasket(b: Basket, id: int): (r: Basket)
    ensures |r| <= |b|
    ensures !HasId(r, id)
    ensures forall p :: p in r ==> p in b
    ensures forall p :: p in b && p.id != id ==> p in r
  {
    if |b| == 0 then []
    else if b[0].id == id then DeleteFromBasket(b[1..], id)
    else [b[0]] + DeleteFromBasket(b[1..], id)
  }

  /** Raises the effective quantity of every line carrying `id` by one;
      nothing else changes. */
  function IncrementQuantity(b: Basket, id: int): (r: Basket)
    ensures |r| == |b|
    ensures forall i :: 0 <= i < |b| ==> SameExceptQuantity(b[i], r[i])
    ensures forall i :: 0 <= i < |b| && b[i].id != id ==> r[i] == b[i]
    ensures forall i :: 0 <= i < |b| && b[i].id == id ==>
              r[i].quantity == Some(Effective(b[i].quantity) + 1)
  {
    Adjust(b, id, 1)
  }

  /** Lowers the effective quantity of every line carrying `id` by one, with
      no floor and no removal; nothing else changes. */
  function DecrementQuantity(b: Basket, id: int): (r: Basket)
    ensures |r| == |b|
    ensures forall i :: 0 <= i < |b| ==> SameExceptQuantity(b[i], r[i])
    ensures forall i :: 0 <= i < |b| && b[i].id != id ==> r[i] == b[i]
    ensures forall i :: 0 <= i < |b| && b[i].id == id ==>
              r[i].quantity == Some(Effective(b[i].quantity) - 1)
  {
    Adjust(b, id, -1)
  }
}
