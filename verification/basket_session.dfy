/** A basket session: the provider starts from the empty basket and applies
    the updates in the order the screens dispatch them. */
module BasketSession {
  import opened Wrappers
  import opened Basket
  import BasketLaws

  /** One dispatched basket update. */
  datatype Op =
    | Add(product: Product)
    | Delete(id: int)
    | Increment(id: int)
    | Decrement(id: int)

  /** What every basket built by the updates satisfies: one line per id, and
      every quantity present and at least 0. */
  predicate WellFormed(b: Basket) {
    && DistinctIds(b)
    && NonNegative(b)
    && forall i :: 0 <= i < |b| ==> b[i].quantity.Some?
  }

  /** The basket after one update. */
  function Apply(b: Basket, op: Op): Basket {
    match op
    case Add(p) => AddToBasket(b, p)
    case Delete(id) => DeleteFromBasket(b, id)
    case Increment(id) => IncrementQuantity(b, id)
    case Decrement(id) => DecrementQuantity(b, id)
  }

  /** The basket after the updates `ops`, applied first to last. */
  function Run(b: Basket, ops: seq<Op>): Basket
    decreases |ops|
  {
    if |ops| == 0 then b else Run(Apply(b, ops[0]), ops[1..])
  }

  /** Running `first` and then `second` is running them one after the other:
      the updates take effect one by one, in dispatch order. */
  lemma {:induction false} RunConcat(b: Basket, first: seq<Op>, second: seq<Op>)
    ensures Run(b, first + second) == Run(Run(b, first), second)
    decreases |first|
  {
    if |first| == 0 {
      assert first + second == second;
    } else {
      assert (first + second)[0] == first[0];
      assert (first + second)[1..] == first[1..] + second;
      RunConcat(Apply(b, first[0]), first[1..], second);
    }
  }

  /** Each update keeps a well-formed basket well-formed. */
  lemma ApplyKeepsWellFormed(b: Basket, op: Op)
    requires WellFormed(b)
    ensures WellFormed(Apply(b, op))
  {
    match op
    case Add(p) =>
      BasketLaws.AddKeepsDistinctIds(b, p);
    case Delete(id) =>
      BasketLaws.DeleteKeepsDistinctIds(b, id);
      var r := DeleteFromBasket(b, id);
      forall i | 0 <= i < |r| ensures r[i].quantity.Some? {
        assert r[i] in b;
      }
    case Increment(id) =>
      BasketLaws.QuantityUpdatesKeepDistinctIds(b, id);
    case Decrement(id) =>
      BasketLaws.QuantityUpdatesKeepDistinctIds(b, id);
  }

  /** Any run of updates keeps a well-formed basket well-formed. */
  lemma {:induction false} RunKeepsWellFormed(b: Basket, ops: seq<Op>)
    requires WellFormed(b)
    ensures WellFormed(Run(b, ops))
    decreases |ops|
  {
    if |ops| > 0 {
      ApplyKeepsWellFormed(b, ops[0]);
      RunKeepsWellFormed(Apply(b, ops[0]), ops[1..]);
    }
  }

  /** Starting from the empty basket, every sequence of updates yields one
      line per id and every quantity present and at least 0. */
  lemma ReachableIsWellFormed(ops: seq<Op>)
    ensures WellFormed(Run([], ops))
  {
    RunKeepsWellFormed([], ops);
  }

  /** A basket restored from storage is taken as it was saved, so it need not
      be well-formed; on such a basket one add bumps every line carrying the
      id and a decrement drives a negative quantity further down. */
  lemma LoadedBasketMayBeIllFormed(p: Product)
    requires p.quantity == Some(-1)
    ensures !WellFormed([p, p])
    ensures AddToBasket([p, p], p) == [p.(quantity := Some(0)), p.(quantity := Some(0))]
    ensures DecrementQuantity([p], p.id) == [p.(quantity := Some(-2))]
  {
  }
}
