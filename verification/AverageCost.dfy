/** The weighted average cost of a part, updated by receipts. Quantities are in thousandths and
    unit costs in ten-thousandths; the average is stored rounded to ten-thousandths. */
module AverageCost {
  import opened Basics
  import opened Money

  datatype Part = Part(onHand: int, avg: Option<int>, last: Option<int>)

  datatype Event = Receipt(qty: int, unitCost: int) | Issue(qty: int)

  function Known(avg: Option<int>): int { if avg.Some? then avg.value else 0 }

  /** `stock_in`: a receipt without a positive cost changes the stock but not the average. */
  function Receive(p: Part, qty: int, unitCost: int): Part {
    if unitCost <= 0 then p.(onHand := p.onHand + qty)
    else
      var total := p.onHand + qty;
      var avg := if total > 0
        then Some(RoundHalfEven(Known(p.avg) * p.onHand + unitCost * qty, total)) else p.avg;
      Part(total, avg, Some(unitCost))
  }

  /** Issues are declined beyond the stock on hand. */
  function Apply(p: Part, e: Event): Part {
    match e
    case Receipt(qty, unitCost) => Receive(p, qty, unitCost)
    case Issue(qty) => if 0 < qty <= p.onHand then p.(onHand := p.onHand - qty) else p
  }

  function Run(p: Part, es: seq<Event>): Part
    decreases |es|
  {
    if es == [] then p else Run(Apply(p, es[0]), es[1..])
  }

  class PartRecord {
    var onHand: int
    var avg: Option<int>
    var last: Option<int>

    function State(): Part
      reads this
    {
      Part(onHand, avg, last)
    }

    method StockIn(qty: int, unitCost: int)
      modifies this
      ensures State() == Receive(old(State()), qty, unitCost)
    {
      var before := onHand;
      onHand := onHand + qty;
      if unitCost > 0 {
        var oldAvg := if avg.Some? then avg.value else 0;
        if before + qty > 0 {
          avg := Some(RoundHalfEven(oldAvg * before + unitCost * qty, before + qty));
        }
        last := Some(unitCost);
      }
    }
  }

  /** A receipt adds to the stock; with a cost it records that cost as the last one and stores the
      nearest to the weighted mean, half to even, while there is stock to share it. */
  lemma ReceiptIs(p: Part, qty: int, unitCost: int)
    ensures var b := Receive(p, qty, unitCost);
      && b.onHand == p.onHand + qty
      && (unitCost <= 0 ==> b.avg == p.avg && b.last == p.last)
      && (unitCost > 0 ==> b.last == Some(unitCost))
      && (unitCost > 0 && b.onHand <= 0 ==> b.avg == p.avg)
      && (unitCost > 0 && b.onHand > 0 ==>
            b.avg.Some?
            && Nearest((if p.avg.Some? then p.avg.value else 0) * p.onHand + unitCost * qty, b.onHand, b.avg.value))
  {
    if unitCost > 0 && p.onHand + qty > 0 {
      RoundIsNearest(Known(p.avg) * p.onHand + unitCost * qty, p.onHand + qty);
    }
  }

  // ----- bounds on the average -----

  predicate Within(p: Part, lo: int, hi: int) { p.avg.Some? ==> lo <= p.avg.value <= hi }

  ghost predicate AlwaysWithin(p: Part, es: seq<Event>, lo: int, hi: int)
    decreases |es|
  {
    Within(p, lo, hi) && (es == [] || AlwaysWithin(Apply(p, es[0]), es[1..], lo, hi))
  }

  /** The test, before a receipt, that its weighted mean rounds to outside the bounds. */
  predicate Leaves(p: Part, e: Event, lo: int, hi: int) {
    e.Receipt? && e.unitCost > 0 && p.onHand + e.qty > 0 &&
    var value := Known(p.avg) * p.onHand + e.unitCost * e.qty;
    RoundsBelow(value, p.onHand + e.qty, lo) || RoundsAbove(value, p.onHand + e.qty, hi)
  }

  lemma StepWithin(p: Part, e: Event, lo: int, hi: int)
    requires Within(p, lo, hi)
    ensures Within(Apply(p, e), lo, hi) <==> !Leaves(p, e, lo, hi)
  {
    if e.Receipt? && e.unitCost > 0 && p.onHand + e.qty > 0 {
      var value := Known(p.avg) * p.onHand + e.unitCost * e.qty;
      RoundsBelowExactly(value, p.onHand + e.qty, lo);
      RoundsAboveExactly(value, p.onHand + e.qty, hi);
    }
  }

  predicate NeverLeaves(p: Part, es: seq<Event>, lo: int, hi: int)
    decreases |es|
  {
    es == [] || (!Leaves(p, es[0], lo, hi) && NeverLeaves(Apply(p, es[0]), es[1..], lo, hi))
  }

  /** Over any run at all, negative receipts and costs outside the bounds included. */
  lemma {:induction false} AverageStaysWithin(p: Part, es: seq<Event>, lo: int, hi: int)
    requires Within(p, lo, hi)
    ensures AlwaysWithin(p, es, lo, hi) <==> NeverLeaves(p, es, lo, hi)
    decreases |es|
  {
    if es != [] {
      StepWithin(p, es[0], lo, hi);
      if !Leaves(p, es[0], lo, hi) {
        AverageStaysWithin(Apply(p, es[0]), es[1..], lo, hi);
      }
    }
  }

  /** A receipt of a positive quantity whose cost, if it has one, is within the bounds. */
  predicate Proper(e: Event, lo: int, hi: int) {
    e.Receipt? ==> e.qty > 0 && (e.unitCost > 0 ==> lo <= e.unitCost <= hi)
  }

  /** A costed receipt onto stock that never had a cost: that stock counts as free, and pulls the
      mean more than half a unit below the bound. */
  predicate Diluted(p: Part, e: Event, lo: int) {
    e.Receipt? && e.unitCost > 0 && p.avg == None && p.onHand > 0
    && RoundsBelow(e.unitCost * e.qty, p.onHand + e.qty, lo)
  }

  predicate NeverDiluted(p: Part, es: seq<Event>, lo: int)
    decreases |es|
  {
    es == [] || (!Diluted(p, es[0], lo) && NeverDiluted(Apply(p, es[0]), es[1..], lo))
  }

  /** A weighted mean lies between its terms. */
  lemma MeanBetween(a: int, x: int, c: int, y: int, lo: int, hi: int)
    requires x >= 0 && y > 0 && lo <= c <= hi && (x > 0 ==> lo <= a <= hi)
    ensures lo * (x + y) <= a * x + c * y <= hi * (x + y)
  {
    assert lo * (x + y) == lo * x + lo * y && hi * (x + y) == hi * x + hi * y;
    assert lo * y <= c * y <= hi * y;
    if x > 0 {
      assert lo * x <= a * x <= hi * x;
    }
  }

  /** Among proper events only dilution takes the average out of the bounds. */
  lemma ProperLeaves(p: Part, e: Event, lo: int, hi: int)
    requires 0 <= lo && p.onHand >= 0 && Within(p, lo, hi) && Proper(e, lo, hi)
    ensures Apply(p, e).onHand >= 0
    ensures Leaves(p, e, lo, hi) <==> Diluted(p, e, lo)
  {
    if e.Receipt? && e.unitCost > 0 {
      var total := p.onHand + e.qty;
      if p.avg == None && p.onHand > 0 {
        MeanBetween(0, p.onHand, e.unitCost, e.qty, 0, hi);
      } else {
        MeanBetween(Known(p.avg), p.onHand, e.unitCost, e.qty, lo, hi);
      }
      assert (-hi) * total == -(hi * total);
    }
  }

  /** Over any mix of receipts and issues the stored average stays between the smallest and the
      largest unit cost received, rounding included, if and only if no receipt is diluted. */
  lemma {:induction false} AverageStaysBetween(p: Part, es: seq<Event>, lo: int, hi: int)
    requires 0 <= lo && p.onHand >= 0 && Within(p, lo, hi)
    requires forall i :: 0 <= i < |es| ==> Proper(es[i], lo, hi)
    ensures AlwaysWithin(p, es, lo, hi) <==> NeverDiluted(p, es, lo)
    decreases |es|
  {
    if es != [] {
      ProperLeaves(p, es[0], lo, hi);
      StepWithin(p, es[0], lo, hi);
      if !Diluted(p, es[0], lo) {
        AverageStaysBetween(Apply(p, es[0]), es[1..], lo, hi);
      }
    }
  }

  /** So it always does when every receipt has a cost and the stock at hand has one. */
  lemma {:induction false} CostedNeverDiluted(p: Part, es: seq<Event>, lo: int)
    requires p.onHand > 0 ==> p.avg.Some?
    requires forall i :: 0 <= i < |es| ==> es[i].Receipt? ==> es[i].qty > 0 && es[i].unitCost > 0
    ensures NeverDiluted(p, es, lo)
    decreases |es|
  {
    if es != [] {
      CostedNeverDiluted(Apply(p, es[0]), es[1..], lo);
    }
  }

  /** The first cost on `h` units without one is stored as it is exactly when the free units pull
      it down by less than half a ten-thousandth, or by just that from an even cost. */
  lemma FirstCostStored(h: int, last: Option<int>, qty: int, cost: int)
    requires h >= 0 && qty > 0 && cost > 0
    ensures Receive(Part(h, None, last), qty, cost).avg == Some(cost) <==>
            2 * (cost * h) < h + qty || (2 * (cost * h) == h + qty && cost % 2 == 0)
  {
    var p := Part(h, None, last);
    assert Known(p.avg) * p.onHand + cost * qty == cost * qty;
    assert Receive(p, qty, cost).avg == Some(RoundHalfEven(cost * qty, h + qty));
    assert cost * (h + qty) - cost * qty == cost * h;
    RoundsUpTo(cost * qty, h + qty, cost, cost * h);
  }

  /** A receipt without a cost, then an equal one at a cost of eight: the average is four. */
  lemma CostlessReceiptDragsAverageDown()
    ensures var es := [Receipt(1000, 0), Receipt(1000, 80000)];
      && Run(Part(0, None, None), es).avg == Some(40000)
      && !NeverDiluted(Part(0, None, None), es, 80000)
  {
    var es := [Receipt(1000, 0), Receipt(1000, 80000)];
    assert es[1..] == [Receipt(1000, 80000)];
    assert es[1..][1..] == [];
  }

  // ----- the value of the stock -----

  /** Stock on hand at its stored average. */
  function Value(p: Part): int { Known(p.avg) * p.onHand }

  /** What a run puts into the stock at cost, less what it takes out at the stored average. */
  function Booked(p: Part, es: seq<Event>): int
    decreases |es|
  {
    if es == [] then 0 else
    (match es[0]
     case Receipt(qty, cost) => if cost > 0 && p.onHand + qty > 0 then cost * qty else Known(p.avg) * qty
     case Issue(qty) => if 0 < qty <= p.onHand then -(Known(p.avg) * qty) else 0)
    + Booked(Apply(p, es[0]), es[1..])
  }

  /** The stock at hand after each receipt that recomputes the average, added up. */
  function Recomputed(p: Part, es: seq<Event>): int
    decreases |es|
  {
    if es == [] then 0 else
    (if es[0].Receipt? && es[0].unitCost > 0 && p.onHand + es[0].qty > 0 then p.onHand + es[0].qty else 0)
    + Recomputed(Apply(p, es[0]), es[1..])
  }

  lemma ReceiptValue(p: Part, qty: int, cost: int)
    requires cost > 0 && p.onHand + qty > 0
    ensures 2 * Abs(Value(Receive(p, qty, cost)) - (Value(p) + cost * qty)) <= p.onHand + qty
  {
    RoundIsNearest(Value(p) + cost * qty, p.onHand + qty);
  }

  lemma Distribute(a: int, x: int, y: int)
    ensures a * (x + y) == a * x + a * y
  {
  }

  lemma StepValue(p: Part, e: Event)
    ensures 2 * Abs(Value(Apply(p, e)) - Value(p) - Booked(p, [e])) <= Recomputed(p, [e])
  {
    assert [e][1..] == [];
    if e.Receipt? && e.unitCost > 0 && p.onHand + e.qty > 0 {
      ReceiptValue(p, e.qty, e.unitCost);
    } else {
      var delta := Apply(p, e).onHand - p.onHand;
      Distribute(Known(p.avg), p.onHand, delta);
      assert Known(p.avg) * -e.qty == -(Known(p.avg) * e.qty);
    }
  }

  /** Rounding the average never loses more value than half a ten-thousandth per unit of stock at
      each receipt, whatever the run. */
  lemma {:induction false} ValueIsWhatWasBooked(p: Part, es: seq<Event>)
    ensures 2 * Abs(Value(Run(p, es)) - Value(p) - Booked(p, es)) <= Recomputed(p, es)
    decreases |es|
  {
    if es != [] {
      assert [es[0]][1..] == [];
      StepValue(p, es[0]);
      ValueIsWhatWasBooked(Apply(p, es[0]), es[1..]);
    }
  }

  // ----- receipts only -----

  predicate CostedReceipts(es: seq<Event>) {
    forall i :: 0 <= i < |es| ==> es[i].Receipt? && es[i].qty > 0 && es[i].unitCost > 0
  }

  /** The total paid. */
  function Paid(es: seq<Event>): int
    requires CostedReceipts(es)
  {
    if es == [] then 0 else es[0].unitCost * es[0].qty + Paid(es[1..])
  }

  lemma {:induction false} PaidIsBooked(p: Part, es: seq<Event>)
    requires CostedReceipts(es) && p.onHand >= 0
    ensures Booked(p, es) == Paid(es)
    ensures Run(p, es).onHand >= p.onHand && (es != [] ==> Run(p, es).onHand > 0)
    decreases |es|
  {
    if es != [] {
      PaidIsBooked(Apply(p, es[0]), es[1..]);
    }
  }

  /** The average a receipt of `qty` for `paid` in all would give without rounding. */
  function Mean(avg: real, stock: int, qty: int, paid: int): real
    requires stock >= 0 && qty > 0
  {
    (avg * stock as real + paid as real) / (stock + qty) as real
  }

  /** `n` units at the given average are worth `value`. */
  predicate Worth(avg: real, n: int, value: int) { avg * n as real == value as real }

  lemma MeanWorth(avg: real, stock: int, qty: int, paid: int, value: int)
    requires stock >= 0 && qty > 0 && Worth(avg, stock, value)
    ensures Worth(Mean(avg, stock, qty, paid), stock + qty, value + paid)
  {
  }

  /** The average the service would store without rounding, on from `avg` and `stock`. */
  function ExactAverage(avg: real, stock: int, es: seq<Event>): real
    requires CostedReceipts(es) && stock >= 0
    decreases |es|
  {
    if es == [] then avg else
    ExactAverage(Mean(avg, stock, es[0].qty, es[0].unitCost * es[0].qty), stock + es[0].qty, es[1..])
  }

  /** With receipts only and exact arithmetic, average times stock is the total paid. */
  lemma {:induction false} AverageIsTotalPaid(avg: real, p: Part, value: int, es: seq<Event>)
    requires CostedReceipts(es) && p.onHand >= 0 && Worth(avg, p.onHand, value)
    ensures Worth(ExactAverage(avg, p.onHand, es), Run(p, es).onHand, value + Paid(es))
    decreases |es|
  {
    if es != [] {
      var qty, paid := es[0].qty, es[0].unitCost * es[0].qty;
      MeanWorth(avg, p.onHand, qty, paid, value);
      AverageIsTotalPaid(Mean(avg, p.onHand, qty, paid), Apply(p, es[0]), value + paid, es[1..]);
    }
  }

  /** From empty stock the value of the stock at its stored average is off its value at the exact
      one by at most half a ten-thousandth for each unit at hand after each receipt. */
  lemma StoredAverageNearExact(es: seq<Event>)
    requires CostedReceipts(es)
    ensures var p := Part(0, None, None); var end := Run(p, es);
      && Worth(ExactAverage(0.0, 0, es), end.onHand, Paid(es))
      && 2 * Abs(Value(end) - Paid(es)) <= Recomputed(p, es)
  {
    var p := Part(0, None, None);
    PaidIsBooked(p, es);
    ValueIsWhatWasBooked(p, es);
    assert Worth(0.0, 0, 0);
    AverageIsTotalPaid(0.0, p, 0, es);
  }
}
