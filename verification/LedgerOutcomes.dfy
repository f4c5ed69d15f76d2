/** What each poster does to the journal and to the cached costs of a work order, category by category. */
module LedgerOutcomes {
  import opened Basics
  import opened Money
  import opened CostLedger
  import opened CostLaws

  /** What a sum over the journal counts. */
  lemma PicksAre(t: Txn, s: Source, w: Id, c: Category)
    ensures OfSource(s)(t) <==> t.source == s
    ensures OfOrder(w)(t) <==> t.wo == Some(w)
    ensures OfCategory(w, c)(t) <==> t.wo == Some(w) && t.category == c
  {
  }

  /** Over every run each cost of a cached order is the sum of its own category's rows, and the count
      their number. */
  lemma CategoriesOverRuns(b: Books, ops: seq<Op>, w: Id)
    requires BooksOk(b)
    ensures var e := Run(b, ops);
      w in e.cache ==>
        && e.cache[w].material == Total(e.journal, OfCategory(w, Material))
        && e.cache[w].vendor == Total(e.journal, OfCategory(w, VendorRepair))
        && e.cache[w].consumable == Total(e.journal, OfCategory(w, Consumable))
        && e.cache[w].additional == Total(e.journal, OfCategory(w, Additional))
        && e.cache[w].count == Count(e.journal, OfOrder(w))
  {
    CacheAgreesOverRuns(b, ops);
  }

  /** The costs of an order as cached; nothing for one never posted to. */
  function Costs(b: Books, w: Id): Cache { if w in b.cache then b.cache[w] else Cache(0, 0, 0, 0, 0) }

  lemma CostsAre(b: Books, w: Id)
    requires BooksOk(b)
    ensures var x := Costs(b, w);
      && x.material == Total(b.journal, OfCategory(w, Material))
      && x.vendor == Total(b.journal, OfCategory(w, VendorRepair))
      && x.consumable == Total(b.journal, OfCategory(w, Consumable))
      && x.additional == Total(b.journal, OfCategory(w, Additional))
      && x.count == Count(b.journal, OfOrder(w))
  {
    if w !in b.cache {
      assert forall k :: 0 <= k < |b.journal| ==> b.journal[k].wo != Some(w);
      TotalNone(b.journal, OfCategory(w, Material));
      TotalNone(b.journal, OfCategory(w, VendorRepair));
      TotalNone(b.journal, OfCategory(w, Consumable));
      TotalNone(b.journal, OfCategory(w, Additional));
      TotalNone(b.journal, OfOrder(w));
    }
  }

  /** `e` is `b` with `delta` more in one category of order `w`, in one more row, or nothing at all. */
  ghost predicate Charged(b: Books, e: Books, w: Id, c: Category, delta: int) {
    && (forall v :: v != w ==> Costs(e, v) == Costs(b, v))
    && var x := Costs(b, w).(count := Costs(b, w).count + if delta == 0 then 0 else 1);
       Costs(e, w) == match c
         case Material => x.(material := x.material + delta)
         case VendorRepair => x.(vendor := x.vendor + delta)
         case Consumable => x.(consumable := x.consumable + delta)
         case Additional => x.(additional := x.additional + delta)
  }

  lemma PostCharges(b: Books, target: int, c: Category, s: Source, w: Id)
    requires BooksOk(b) && (s.kind == Adjustment ==> s.id < b.adjustments)
    ensures var o := Post(b, target, c, s, Some(w));
      o.Some? && Charged(b, o.value, w, c, target - Net(b.journal, s)) && Net(o.value.journal, s) == target
  {
    var delta := target - Net(b.journal, s);
    var e := Post(b, target, c, s, Some(w)).value;
    PostAppends(b, target, c, s, Some(w));
    if delta == 0 {
      NothingCharged(b, w, c);
    } else {
      RowPosted(b, Txn(delta, c, s, Some(w)), w);
      assert e == Refresh(b.(journal := b.journal + [Txn(delta, c, s, Some(w))]), w);
    }
  }

  lemma RowPosted(b: Books, t: Txn, w: Id)
    requires BooksOk(b) && t.wo == Some(w) && t.amount != 0
    requires t.source.kind == Adjustment ==> t.source.id < b.adjustments
    ensures var e := Refresh(b.(journal := b.journal + [t]), w);
      Charged(b, e, w, t.category, t.amount) && Net(e.journal, t.source) == Net(b.journal, t.source) + t.amount
  {
    AppendBooks(b, t, w);
    RowCharges(b, Refresh(b.(journal := b.journal + [t]), w), t, w);
    TotalPush(b.journal, t, OfSource(t.source));
  }

  lemma NothingCharged(b: Books, w: Id, c: Category)
    ensures Charged(b, b, w, c, 0)
  {
  }

  lemma RowCharges(b: Books, e: Books, t: Txn, w: Id)
    requires BooksOk(b) && BooksOk(e) && t.wo == Some(w) && t.amount != 0
    requires e.journal == b.journal + [t]
    ensures Charged(b, e, w, t.category, t.amount)
  {
    CostsAre(b, w);
    CostsAre(e, w);
    TotalPush(b.journal, t, OfCategory(w, Material));
    TotalPush(b.journal, t, OfCategory(w, VendorRepair));
    TotalPush(b.journal, t, OfCategory(w, Consumable));
    TotalPush(b.journal, t, OfCategory(w, Additional));
    TotalPush(b.journal, t, OfOrder(w));
    forall v | v != w ensures Costs(e, v) == Costs(b, v) {
      CostsAre(b, v);
      CostsAre(e, v);
      SummaryPush(b.journal, t, v);
    }
  }

  /** Issued material is charged as material: the net of the line becomes quantity times unit cost, in
      the nearest hundredth, half to even. */
  lemma MaterialPostIs(b: Books, l: Id, issuable: bool, issued: int, unitCost: int, w: Id, cost: int)
    requires BooksOk(b) && Nearest(issued * unitCost, 100000, cost)
    ensures var e, s := Step(b, PostMaterial(l, issuable, issued, unitCost, w)), Source(PartLine, l);
      if issuable && issued > 0 then Net(e.journal, s) == cost && Charged(b, e, w, Material, cost - Net(b.journal, s))
      else e == b
  {
    if issuable && issued > 0 {
      var s := Source(PartLine, l);
      CostIs(issued, unitCost, cost);
      Posted(b, PostMaterial(l, issuable, issued, unitCost, w), cost, Material, s, w);
    }
  }

  /** An operation that asks for a target posts it. */
  lemma Posted(b: Books, op: Op, target: int, c: Category, s: Source, w: Id)
    requires BooksOk(b) && !op.PostAdjustment? && s.kind != Adjustment
    requires Requested(b, op) == Some(Request(target, c, s, Some(w)))
    ensures Net(Step(b, op).journal, s) == target && Charged(b, Step(b, op), w, c, target - Net(b.journal, s))
  {
    PostCharges(b, target, c, s, w);
    assert Apply(b, op) == Post(b, target, c, s, Some(w));
  }

  lemma CostIs(qty: int, unitCost: int, cost: int)
    requires Nearest(qty * unitCost, 100000, cost)
    ensures Cost(qty, unitCost) == cost
  {
    RoundIsNearest(qty * unitCost, CENT);
    NearestIsUnique(qty * unitCost, CENT, Cost(qty, unitCost), cost);
  }

  /** A closed repair with a cost is charged as vendor repair. */
  lemma VendorPostIs(b: Books, o: Id, closed: bool, cost: Option<int>, w: Id)
    requires BooksOk(b)
    ensures var e, s := Step(b, PostVendorRepair(o, closed, cost, Some(w))), Source(RepairOrder, o);
      if closed && cost.Some? && cost.value != 0
      then Net(e.journal, s) == cost.value && Charged(b, e, w, VendorRepair, cost.value - Net(b.journal, s))
      else e == b
  {
    if closed && cost.Some? && cost.value != 0 {
      Posted(b, PostVendorRepair(o, closed, cost, Some(w)), cost.value, VendorRepair, Source(RepairOrder, o), w);
    }
  }

  /** Consumed stock is charged as consumable. */
  lemma ConsumablePostIs(b: Books, m: Id, consumable: bool, qty: int, unitCost: int, w: Id, cost: int)
    requires BooksOk(b) && Nearest(qty * unitCost, 100000, cost)
    ensures var e, s := Step(b, PostConsumable(m, consumable, qty, unitCost, Some(w))), Source(StockMove, m);
      if consumable then Net(e.journal, s) == cost && Charged(b, e, w, Consumable, cost - Net(b.journal, s)) else e == b
  {
    if consumable {
      CostIs(qty, unitCost, cost);
      Posted(b, PostConsumable(m, consumable, qty, unitCost, Some(w)), cost, Consumable, Source(StockMove, m), w);
    }
  }

  /** A manual adjustment with a reason of ten characters is charged as additional cost, in full. */
  lemma AdjustmentPostIs(b: Books, w: Id, amount: int, memo: string)
    requires BooksOk(b)
    ensures var e := Step(b, PostAdjustment(w, amount, memo));
      if amount != 0 && 10 <= |memo| then Charged(b, e, w, Additional, amount) && e.adjustments == b.adjustments + 1
      else e == b
  {
    if amount != 0 && 10 <= |memo| {
      FreshAdjustment(b, amount, w);
      assert Apply(b, PostAdjustment(w, amount, memo)) == Post(Keyed(b, PostAdjustment(w, amount, memo)),
        amount, Additional, Source(Adjustment, b.adjustments), Some(w));
    }
  }

  lemma FreshAdjustment(b: Books, amount: int, w: Id)
    requires BooksOk(b)
    ensures var keyed := b.(adjustments := b.adjustments + 1);
      var o := Post(keyed, amount, Additional, Source(Adjustment, b.adjustments), Some(w));
      o.Some? && Charged(b, o.value, w, Additional, amount) && o.value.adjustments == b.adjustments + 1
  {
    var keyed, s := b.(adjustments := b.adjustments + 1), Source(Adjustment, b.adjustments);
    assert forall k :: 0 <= k < |b.journal| ==> b.journal[k].source != s;
    TotalNone(b.journal, OfSource(s));
    KeyedOk(b);
    PostCharges(keyed, amount, Additional, s, w);
    ChargedKeyed(b, keyed, Post(keyed, amount, Additional, s, Some(w)).value, w, amount);
  }

  lemma KeyedOk(b: Books)
    requires BooksOk(b)
    ensures BooksOk(b.(adjustments := b.adjustments + 1))
  {
  }

  lemma ChargedKeyed(b: Books, keyed: Books, e: Books, w: Id, amount: int)
    requires keyed.cache == b.cache && Charged(keyed, e, w, Additional, amount)
    ensures Charged(b, e, w, Additional, amount)
  {
    assert forall v :: Costs(keyed, v) == Costs(b, v);
  }

  /** A posting that finds no order to charge is refused when it would add a row, and changes nothing. */
  lemma UntargetedPostIs(b: Books, o: Id, cost: Option<int>, m: Id, qty: int, unitCost: int)
    ensures Step(b, PostVendorRepair(o, true, cost, None)) == b
    ensures Step(b, PostConsumable(m, true, qty, unitCost, None)) == b
  {
  }
}
