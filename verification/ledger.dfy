/** The FIFO cost-basis ledger: one queue of acquisition lots per asset,
    appended to on a purchase or income and consumed from the oldest lot on
    a sale. */
module Ledger {
  import opened Common

  /** `BalanceBatch`: a not yet disposed acquisition, with its quantity, its
      total cost in rupees and its date. */
  datatype Lot = Lot(quantity: real, cost: real, date: int)

  /** The outcome of one sale against a queue: the cost basis consumed and the
      lots left afterwards, oldest first. */
  datatype Disposal = Disposal(costBasis: real, remaining: seq<Lot>)

  /** Total quantity held in a queue. */
  function QueueQuantity(q: seq<Lot>): real {
    if |q| == 0 then 0.0 else q[0].quantity + QueueQuantity(q[1..])
  }

  /** Total cost held in a queue. */
  function QueueCost(q: seq<Lot>): real {
    if |q| == 0 then 0.0 else q[0].cost + QueueCost(q[1..])
  }

  predicate NonNegativeQuantities(q: seq<Lot>) {
    forall i :: 0 <= i < |q| ==> q[i].quantity >= 0.0
  }

  /** The consumption loop of a sale: while something remains to sell and the
      queue is not empty, a head lot no larger than what remains is consumed
      whole; a larger head lot is split in proportion and the loop ends. When
      the queue runs out first, the unmatched quantity adds no cost. */
  function Consume(queue: seq<Lot>, toSell: real): (d: Disposal)
    // cost is conserved: what the sale takes plus what stays is what was held
    ensures d.costBasis + QueueCost(d.remaining) == QueueCost(queue)
    ensures |d.remaining| <= |queue|
    ensures toSell <= 0.0 ==> d == Disposal(0.0, queue)
    decreases |queue|
  {
    if toSell <= 0.0 || |queue| == 0 then
      Disposal(0.0, queue)
    else
      var lot := queue[0];
      if lot.quantity <= toSell then
        var rest := Consume(queue[1..], toSell - lot.quantity);
        Disposal(lot.cost + rest.costBasis, rest.remaining)
      else
        var ratio := toSell / lot.quantity;
        var partialCost := lot.cost * ratio;
        var split := Lot(lot.quantity - toSell, lot.cost - partialCost, lot.date);
        assert queue == [lot] + queue[1..];
        Disposal(partialCost, [split] + queue[1..])
  }

  /** Only the oldest lots are touched: the remaining queue is a suffix of
      the old one, except that its head may be the shrunk rest of a split
      lot, which keeps its date. */
  lemma {:induction false} ConsumeTouchesOnlyOldest(queue: seq<Lot>, toSell: real)
    ensures var r := Consume(queue, toSell).remaining;
            |r| > 0 ==> r[1..] == queue[|queue| - |r| + 1..]
    ensures var r := Consume(queue, toSell).remaining;
            |r| > 0 ==>
              var was := queue[|queue| - |r|];
              || r[0] == was
              || (r[0].date == was.date && 0.0 < r[0].quantity < was.quantity)
    decreases |queue|
  {
    if toSell > 0.0 && |queue| > 0 && queue[0].quantity <= toSell {
      var rest := queue[1..];
      ConsumeTouchesOnlyOldest(rest, toSell - queue[0].quantity);
      var r := Consume(rest, toSell - queue[0].quantity).remaining;
      assert Consume(queue, toSell).remaining == r;
      if |r| > 0 {
        assert rest[|rest| - |r| + 1..] == queue[|queue| - |r| + 1..];
        assert rest[|rest| - |r|] == queue[|queue| - |r|];
      }
    }
  }

  // ---------------------------------------------------------------------
  // A reference definition of FIFO cost: each lot contributes the share of
  // its cost that the sale reaches, measured by the quantity held before it.
  // ---------------------------------------------------------------------

  /** Which share of a lot a sale of `target` units takes, given that the
      older lots hold `before` units: none when the older lots already cover
      the sale, all of it when the sale reaches past it, otherwise the part
      up to `target`. */
  function Share(before: real, quantity: real, target: real): (r: real)
    ensures before >= target ==> r == 0.0
    ensures before < target && before + quantity <= target ==> r == 1.0
    ensures before < target < before + quantity ==> 0.0 < r < 1.0
  {
    if before >= target then 0.0
    else if before + quantity <= target then 1.0
    else
      FractionBounds(target - before, quantity);
      (target - before) / quantity
  }

  /** A quotient of a smaller positive by a larger one lies strictly between 0 and 1. */
  lemma FractionBounds(x: real, q: real)
    requires 0.0 < x < q
    ensures 0.0 < x / q < 1.0
  {
    var r := x / q;
    assert r * q == x;
    assert r < 1.0 by {
      if r >= 1.0 {
        assert false;
      }
    }
  }

  /** The cost a sale of `target` units takes from `queue` when older lots,
      not in `queue`, hold `before` units. */
  function FifoCostFrom(queue: seq<Lot>, before: real, target: real): real {
    if |queue| == 0 then 0.0
    else queue[0].cost * Share(before, queue[0].quantity, target)
         + FifoCostFrom(queue[1..], before + queue[0].quantity, target)
  }

  /** The FIFO cost basis of selling `target` units from `queue`. */
  function FifoCost(queue: seq<Lot>, target: real): real {
    FifoCostFrom(queue, 0.0, target)
  }

  /** Lots beyond the point the sale reaches contribute nothing. */
  lemma {:induction false} FifoCostBeyondTarget(queue: seq<Lot>, before: real, target: real)
    requires NonNegativeQuantities(queue)
    requires before >= target
    ensures FifoCostFrom(queue, before, target) == 0.0
    decreases |queue|
  {
    if |queue| > 0 {
      FifoCostBeyondTarget(queue[1..], before + queue[0].quantity, target);
    }
  }

  /** A head lot the sale reaches past is charged whole. */
  lemma ConsumeWholeHead(queue: seq<Lot>, toSell: real)
    requires |queue| > 0 && 0.0 < toSell && queue[0].quantity <= toSell
    ensures Consume(queue, toSell).costBasis
            == queue[0].cost + Consume(queue[1..], toSell - queue[0].quantity).costBasis
  {
  }

  /** A head lot the sale ends inside is charged in proportion. */
  lemma ConsumeSplitHead(queue: seq<Lot>, toSell: real)
    requires |queue| > 0 && 0.0 < toSell < queue[0].quantity
    ensures Consume(queue, toSell).costBasis == queue[0].cost * (toSell / queue[0].quantity)
  {
  }

  lemma {:induction false} ConsumeMatchesFifoCostFrom(queue: seq<Lot>, before: real, target: real)
    requires NonNegativeQuantities(queue)
    ensures Consume(queue, target - before).costBasis == FifoCostFrom(queue, before, target)
    decreases |queue|
  {
    if |queue| > 0 {
      var lot := queue[0];
      var toSell := target - before;
      var later := FifoCostFrom(queue[1..], before + lot.quantity, target);
      assert FifoCostFrom(queue, before, target) == lot.cost * Share(before, lot.quantity, target) + later;
      if toSell <= 0.0 {
        FifoCostBeyondTarget(queue, before, target);
      } else if lot.quantity <= toSell {
        ConsumeWholeHead(queue, toSell);
        ConsumeMatchesFifoCostFrom(queue[1..], before + lot.quantity, target);
        assert toSell - lot.quantity == target - (before + lot.quantity);
        assert Share(before, lot.quantity, target) == 1.0;
      } else {
        ConsumeSplitHead(queue, toSell);
        FifoCostBeyondTarget(queue[1..], before + lot.quantity, target);
        assert Share(before, lot.quantity, target) == toSell / lot.quantity;
      }
    }
  }

  /** The consumption loop computes the FIFO cost basis: for lots of
      non-negative quantity, its cost basis equals the reference definition. */
  lemma ConsumeIsFifo(queue: seq<Lot>, toSell: real)
    requires NonNegativeQuantities(queue)
    ensures Consume(queue, toSell).costBasis == FifoCost(queue, toSell)
  {
    ConsumeMatchesFifoCostFrom(queue, 0.0, toSell);
    assert toSell - 0.0 == toSell;
  }

  /** A sale the oldest lot covers is charged at that lot's unit cost, whatever
      the later lots cost; selling the whole lot charges exactly its cost. */
  lemma OldestLotCovers(queue: seq<Lot>, toSell: real)
    requires |queue| > 0 && 0.0 < toSell <= queue[0].quantity
    ensures Consume(queue, toSell).costBasis == queue[0].cost * (toSell / queue[0].quantity)
    ensures toSell == queue[0].quantity ==> Consume(queue, toSell).costBasis == queue[0].cost
  {
    if toSell == queue[0].quantity {
      assert Consume(queue[1..], 0.0).costBasis == 0.0;
    }
  }

  /** Splitting the head lot: the sale takes `cost * r / quantity`, and the lot
      keeps `quantity - r` units at `cost` minus what was taken, so its unit
      cost is unchanged. */
  lemma PartialConsumption(queue: seq<Lot>, toSell: real)
    requires |queue| > 0 && 0.0 < toSell < queue[0].quantity
    ensures var d := Consume(queue, toSell);
            && d.costBasis == queue[0].cost * toSell / queue[0].quantity
            && d.remaining == [Lot(queue[0].quantity - toSell, queue[0].cost - d.costBasis, queue[0].date)] + queue[1..]
            && d.remaining[0].cost * queue[0].quantity == queue[0].cost * d.remaining[0].quantity
  {
    var lot := queue[0];
    var d := Consume(queue, toSell);
    calc {
      d.remaining[0].cost * lot.quantity;
      (lot.cost - lot.cost * (toSell / lot.quantity)) * lot.quantity;
      lot.cost * lot.quantity - lot.cost * (toSell / lot.quantity) * lot.quantity;
      { assert (toSell / lot.quantity) * lot.quantity == toSell; }
      lot.cost * lot.quantity - lot.cost * toSell;
      lot.cost * (lot.quantity - toSell);
    }
  }

  /** The quantity a sale removes from a queue of non-negative lots is the
      smaller of the amount sold and the quantity held. */
  lemma {:induction false} ConsumeQuantity(queue: seq<Lot>, toSell: real)
    requires NonNegativeQuantities(queue) && toSell >= 0.0
    ensures QueueQuantity(queue) >= 0.0
    ensures QueueQuantity(Consume(queue, toSell).remaining) == QueueQuantity(queue) - Min(toSell, QueueQuantity(queue))
    decreases |queue|
  {
    if |queue| > 0 {
      var lot := queue[0];
      ConsumeQuantity(queue[1..], if toSell > 0.0 && lot.quantity <= toSell then toSell - lot.quantity else 0.0);
      if toSell > 0.0 && lot.quantity > toSell {
        var split := Consume(queue, toSell).remaining;
        assert split[1..] == queue[1..];
      }
    }
  }

  /** Selling more than the queue holds empties it and charges exactly the
      cost it held; the shortfall adds no cost and is not flagged. */
  lemma {:induction false} ConsumeShortfall(queue: seq<Lot>, toSell: real)
    requires NonNegativeQuantities(queue)
    requires toSell > QueueQuantity(queue)
    ensures Consume(queue, toSell).remaining == []
    ensures Consume(queue, toSell).costBasis == QueueCost(queue)
    decreases |queue|
  {
    if |queue| > 0 {
      ConsumeQuantity(queue[1..], 0.0);
      ConsumeShortfall(queue[1..], toSell - queue[0].quantity);
    }
  }

  /** Lots never acquire a negative quantity from a sale. */
  lemma ConsumeKeepsNonNegative(queue: seq<Lot>, toSell: real)
    requires NonNegativeQuantities(queue)
    ensures NonNegativeQuantities(Consume(queue, toSell).remaining)
  {
    var r := Consume(queue, toSell).remaining;
    ConsumeTouchesOnlyOldest(queue, toSell);
    if |r| > 0 {
      var k := |queue| - |r|;
      forall i | 0 <= i < |r| ensures r[i].quantity >= 0.0 {
        if i > 0 {
          assert r[i] == r[1..][i - 1] == queue[k + 1..][i - 1] == queue[k + i];
        }
      }
    }
  }
}
