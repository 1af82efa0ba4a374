/** Properties of the four basket updates: how `AddToBasket` keeps one line
    per id, how deletion keeps the order of what remains, what the
    `quantity || 1` reading does to increment and decrement. */
module BasketLaws {
  import opened Wrappers
  import opened Basket

  // ---------------------------------------------------------------------
  // AddToBasket
  // ---------------------------------------------------------------------

  /** Adding never creates a second line for an id. */
  lemma AddKeepsDistinctIds(b: Basket, product: Product)
    requires DistinctIds(b)
    ensures DistinctIds(AddToBasket(b, product))
  {
  }

  /** When the id is already present, adding is the same as incrementing it:
      the argument's title, price, image and category are ignored. */
  lemma AddPresentIsIncrement(b: Basket, product: Product)
    requires HasId(b, product.id)
    ensures AddToBasket(b, product) == IncrementQuantity(b, product.id)
  {
  }

  /** The first add to an empty basket yields one line with quantity 1. */
  lemma AddToEmpty(product: Product)
    ensures AddToBasket([], product) == [product.(quantity := Some(1))]
  {
  }

  /** Adding the same id twice yields one line with quantity 2 that keeps
      the fields of the first add. */
  lemma AddTwice(first: Product, second: Product)
    requires first.id == second.id
    ensures AddToBasket(AddToBasket([], first), second) == [first.(quantity := Some(2))]
  {
    var b := AddToBasket([], first);
    assert b[0].id == second.id;
    assert HasId(b, second.id);
  }

  // ---------------------------------------------------------------------
  // DeleteFromBasket
  // ---------------------------------------------------------------------

  /** Deletion works line by line: on one line it keeps or drops that line. */
  lemma DeleteSingle(p: Product, id: int)
    ensures DeleteFromBasket([p], id) == if p.id == id then [] else [p]
  {
  }

  /** Deletion distributes over concatenation, so the lines that remain keep
      their relative order. */
  lemma {:induction false} DeleteDistributes(b1: Basket, b2: Basket, id: int)
    ensures DeleteFromBasket(b1 + b2, id) == DeleteFromBasket(b1, id) + DeleteFromBasket(b2, id)
  {
    if |b1| == 0 {
      assert b1 + b2 == b2;
    } else {
      assert (b1 + b2)[1..] == b1[1..] + b2;
      DeleteDistributes(b1[1..], b2, id);
    }
  }

  /** Deleting an id that no line carries leaves the basket as it is. */
  lemma {:induction false} DeleteAbsentIsNoop(b: Basket, id: int)
    requires !HasId(b, id)
    ensures DeleteFromBasket(b, id) == b
  {
    if |b| > 0 {
      assert !HasId(b[1..], id) by {
        forall i | 0 <= i < |b[1..]| ensures b[1..][i].id != id {
          assert b[1..][i] == b[i + 1];
        }
      }
      DeleteAbsentIsNoop(b[1..], id);
    }
  }

  /** Deleting twice is deleting once. */
  lemma DeleteIdempotent(b: Basket, id: int)
    ensures DeleteFromBasket(DeleteFromBasket(b, id), id) == DeleteFromBasket(b, id)
  {
    DeleteAbsentIsNoop(DeleteFromBasket(b, id), id);
  }

  /** With one line per id, deleting removes exactly the matching line and
      leaves the lines before and after it in place. */
  lemma {:induction false} DeleteExactlyOne(b: Basket, k: int, id: int)
    requires DistinctIds(b)
    requires 0 <= k < |b| && b[k].id == id
    ensures DeleteFromBasket(b, id) == b[..k] + b[k + 1..]
  {
    var front, back := b[..k], b[k + 1..];
    assert !HasId(front, id) by {
      forall i | 0 <= i < |front| ensures front[i].id != id {
        assert front[i] == b[i];
      }
    }
    assert !HasId(back, id) by {
      forall i | 0 <= i < |back| ensures back[i].id != id {
        assert back[i] == b[k + 1 + i];
      }
    }
    assert b == (front + [b[k]]) + back;
    DeleteDistributes(front + [b[k]], back, id);
    DeleteDistributes(front, [b[k]], id);
    DeleteSingle(b[k], id);
    DeleteAbsentIsNoop(front, id);
    DeleteAbsentIsNoop(back, id);
  }

  /** Putting a line in front of a basket that has no line with its id keeps
      one line per id. */
  lemma ConsKeepsDistinctIds(p: Product, rest: Basket)
    requires DistinctIds(rest)
    requires forall q :: q in rest ==> q.id != p.id
    ensures DistinctIds([p] + rest)
  {
  }

  /** Deleting removes lines only, so it keeps one line per id. */
  lemma {:induction false} DeleteKeepsDistinctIds(b: Basket, id: int)
    requires DistinctIds(b)
    ensures DistinctIds(DeleteFromBasket(b, id))
  {
    if |b| > 0 {
      var tail := b[1..];
      assert DistinctIds(tail) by {
        forall i, j | 0 <= i < j < |tail| ensures tail[i].id != tail[j].id {
          assert tail[i] == b[i + 1] && tail[j] == b[j + 1];
        }
      }
      DeleteKeepsDistinctIds(tail, id);
      if b[0].id != id {
        var rest := DeleteFromBasket(tail, id);
        forall q | q in rest ensures q.id != b[0].id {
          var j :| 0 <= j < |tail| && tail[j] == q;
          assert tail[j] == b[j + 1];
        }
        ConsKeepsDistinctIds(b[0], rest);
      }
    }
  }

  /** Deleting keeps every remaining quantity as it was. */
  lemma DeleteKeepsNonNegative(b: Basket, id: int)
    requires NonNegative(b)
    ensures NonNegative(DeleteFromBasket(b, id))
  {
  }

  // ---------------------------------------------------------------------
  // IncrementQuantity and DecrementQuantity
  // ---------------------------------------------------------------------

  /** Incrementing an id that no line carries leaves the basket as it is. */
  lemma IncrementAbsentIsNoop(b: Basket, id: int)
    requires !HasId(b, id)
    ensures IncrementQuantity(b, id) == b
  {
  }

  /** Decrementing an id that no line carries leaves the basket as it is. */
  lemma DecrementAbsentIsNoop(b: Basket, id: int)
    requires !HasId(b, id)
    ensures DecrementQuantity(b, id) == b
  {
  }

  /** Neither quantity update touches an id, so both keep one line per id. */
  lemma QuantityUpdatesKeepDistinctIds(b: Basket, id: int)
    requires DistinctIds(b)
    ensures DistinctIds(IncrementQuantity(b, id))
    ensures DistinctIds(DecrementQuantity(b, id))
  {
  }

  /** Decrementing a line whose quantity is absent, 0 or 1 stores 0: absent
      and 0 both read as 1 before the subtraction. */
  lemma DecrementToZero(b: Basket, id: int, i: int)
    requires 0 <= i < |b| && b[i].id == id && b[i].quantity in {None, Some(0), Some(1)}
    ensures DecrementQuantity(b, id)[i] == b[i].(quantity := Some(0))
  {
  }

  /** Incrementing a line whose quantity is absent or 0 stores 2. */
  lemma IncrementFromUnset(b: Basket, id: int, i: int)
    requires 0 <= i < |b| && b[i].id == id && b[i].quantity in {None, Some(0)}
    ensures IncrementQuantity(b, id)[i] == b[i].(quantity := Some(2))
  {
  }

  /** Decrement never makes a quantity negative when none was before. */
  lemma DecrementKeepsNonNegative(b: Basket, id: int)
    requires NonNegative(b)
    ensures NonNegative(DecrementQuantity(b, id))
  {
  }

  /** Increment never makes a quantity negative when none was before. */
  lemma IncrementKeepsNonNegative(b: Basket, id: int)
    requires NonNegative(b)
    ensures NonNegative(IncrementQuantity(b, id))
  {
  }

  /** Read through `quantity || 1`, decrement floors at 1: on every matching
      line, a line showing 1 still shows 1 after a decrement, and any other
      shown count (negative ones from a restored basket included) drops by one. */
  lemma DisplayedDecrementFloorsAtOne(b: Basket, id: int, i: int)
    requires 0 <= i < |b| && b[i].id == id
    ensures Effective(DecrementQuantity(b, id)[i].quantity) ==
            if Effective(b[i].quantity) == 1 then 1 else Effective(b[i].quantity) - 1
  {
  }

  /** Increment then decrement restores the basket when every matching line
      holds a stored quantity that is neither 0 nor -1. */
  lemma IncrementThenDecrementRestores(b: Basket, id: int)
    requires forall i :: 0 <= i < |b| && b[i].id == id ==>
               b[i].quantity.Some? && b[i].quantity.value != 0 && b[i].quantity.value != -1
    ensures DecrementQuantity(IncrementQuantity(b, id), id) == b
  {
  }

  /** From an absent or 0 quantity, increment then decrement stores 1, not
      the original value. */
  lemma IncrementThenDecrementFromUnset(b: Basket, id: int, i: int)
    requires 0 <= i < |b| && b[i].id == id && b[i].quantity in {None, Some(0)}
    ensures DecrementQuantity(IncrementQuantity(b, id), id)[i] == b[i].(quantity := Some(1))
  {
  }

  /** A stored -1 (reachable only from a loaded basket) is not restored:
      increment stores 0, which the decrement reads as 1, leaving 0. */
  lemma IncrementThenDecrementFromMinusOne(b: Basket, id: int, i: int)
    requires 0 <= i < |b| && b[i].id == id && b[i].quantity == Some(-1)
    ensures DecrementQuantity(IncrementQuantity(b, id), id)[i] == b[i].(quantity := Some(0))
  {
  }
}
