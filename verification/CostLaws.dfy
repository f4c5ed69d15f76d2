/** What every run of postings keeps: the cache agrees with the journal, each source's net is its
    last target, and rounding errors do not accumulate. */
module CostLaws {
  import opened Basics
  import opened Money
  import opened CostLedger

  // ----- the cache agrees with the journal -----

  /** Every cached order is exactly summarised, and every order with a row is cached. */
  ghost predicate CacheAgrees(b: Books) {
    && (forall w :: w in b.cache ==> b.cache[w] == Summary(b.journal, w))
    && (forall k :: 0 <= k < |b.journal| && b.journal[k].wo.Some? ==> b.journal[k].wo.value in b.cache)
  }

  ghost predicate NoZeroRow(b: Books) {
    forall k :: 0 <= k < |b.journal| ==> b.journal[k].amount != 0
  }

  /** Adjustment keys are used once. */
  ghost predicate AdjustmentsFresh(b: Books) {
    forall k :: 0 <= k < |b.journal| && b.journal[k].source.kind == Adjustment ==>
      b.journal[k].source.id < b.adjustments
  }

  lemma TotalPush(journal: seq<Txn>, t: Txn, pick: Txn -> bool)
    ensures Total(journal + [t], pick) == Total(journal, pick) + if pick(t) then t.amount else 0
    ensures Count(journal + [t], pick) == Count(journal, pick) + if pick(t) then 1 else 0
  {
    assert (journal + [t])[..|journal|] == journal;
  }

  lemma {:induction false} TotalNone(journal: seq<Txn>, pick: Txn -> bool)
    requires forall k :: 0 <= k < |journal| ==> !pick(journal[k])
    ensures Total(journal, pick) == 0 && Count(journal, pick) == 0
  {
    if journal != [] {
      TotalNone(journal[..|journal| - 1], pick);
    }
  }

  /** The four cached categories add up to all rows of the order. */
  lemma {:induction false} TotalCostIsAllRows(journal: seq<Txn>, w: Id)
    ensures Summary(journal, w).TotalCost() == Total(journal, OfOrder(w))
  {
    if journal != [] {
      TotalCostIsAllRows(journal[..|journal| - 1], w);
    }
  }

  lemma SummaryPush(journal: seq<Txn>, t: Txn, w: Id)
    requires t.wo != Some(w)
    ensures Summary(journal + [t], w) == Summary(journal, w)
  {
    TotalPush(journal, t, OfCategory(w, Material));
    TotalPush(journal, t, OfCategory(w, VendorRepair));
    TotalPush(journal, t, OfCategory(w, Consumable));
    TotalPush(journal, t, OfCategory(w, Additional));
    TotalPush(journal, t, OfOrder(w));
  }

  /** Appending a row of order `w` and refreshing that order keeps the cache in agreement. */
  lemma AppendAgrees(b: Books, t: Txn, w: Id)
    requires CacheAgrees(b) && t.wo == Some(w)
    ensures CacheAgrees(Refresh(b.(journal := b.journal + [t]), w))
  {
    forall v | v in b.cache && v != w
      ensures Summary(b.journal + [t], v) == Summary(b.journal, v)
    {
      SummaryPush(b.journal, t, v);
    }
  }

  /** A posting either leaves the books alone or appends one row that is not zero. */
  lemma PostAppends(b: Books, target: int, c: Category, s: Source, wo: Option<Id>)
    requires Post(b, target, c, s, wo).Some?
    ensures var e := Post(b, target, c, s, wo).value; var delta := target - Net(b.journal, s);
      if delta == 0 then e == b
      else wo.Some? && e == Refresh(b.(journal := b.journal + [Txn(delta, c, s, wo)]), wo.value)
  {
  }

  ghost predicate BooksOk(b: Books) { CacheAgrees(b) && NoZeroRow(b) && AdjustmentsFresh(b) }

  lemma AppendBooks(b: Books, t: Txn, w: Id)
    requires BooksOk(b) && t.amount != 0 && t.wo == Some(w)
    requires t.source.kind == Adjustment ==> t.source.id < b.adjustments
    ensures var e := Refresh(b.(journal := b.journal + [t]), w);
      BooksOk(e) && b.journal <= e.journal && |e.journal| == |b.journal| + 1
  {
    AppendAgrees(b, t, w);
  }

  lemma PostBooks(b: Books, target: int, c: Category, s: Source, wo: Option<Id>)
    requires BooksOk(b) && Post(b, target, c, s, wo).Some?
    requires s.kind == Adjustment ==> s.id < b.adjustments
    ensures var e := Post(b, target, c, s, wo).value;
      BooksOk(e) && b.journal <= e.journal && |e.journal| <= |b.journal| + 1
  {
    PostAppends(b, target, c, s, wo);
    var delta := target - Net(b.journal, s);
    var e := Post(b, target, c, s, wo).value;
    if delta == 0 {
      assert e == b;
    } else {
      var t := Txn(delta, c, s, wo);
      AppendBooks(b, t, wo.value);
      assert e == Refresh(b.(journal := b.journal + [t]), wo.value);
    }
  }

  lemma StepBooks(b: Books, op: Op)
    requires BooksOk(b)
    ensures BooksOk(Step(b, op))
    ensures b.journal <= Step(b, op).journal
    ensures |Step(b, op).journal| <= |b.journal| + 1
  {
    var r := Requested(b, op);
    if r.Some? && Apply(b, op).Some? {
      PostBooks(Keyed(b, op), r.value.target, r.value.category, r.value.source, r.value.wo);
    }
  }

  /** In every state of every run the cache of a work order equals its per-category journal sums,
      its total is the sum of all its rows, its count is their number, and the journal has only
      grown, by rows that are not zero. */
  lemma {:induction false} CacheAgreesOverRuns(b: Books, ops: seq<Op>)
    requires BooksOk(b)
    ensures var e := Run(b, ops);
      && BooksOk(e)
      && b.journal <= e.journal
      && forall w :: w in e.cache ==>
           e.cache[w].TotalCost() == Total(e.journal, OfOrder(w)) && e.cache[w].count == Count(e.journal, OfOrder(w))
    decreases |ops|
  {
    if ops != [] {
      StepBooks(b, ops[0]);
      CacheAgreesOverRuns(Step(b, ops[0]), ops[1..]);
    } else {
      forall w | w in b.cache
        ensures b.cache[w].TotalCost() == Total(b.journal, OfOrder(w))
      {
        TotalCostIsAllRows(b.journal, w);
      }
    }
  }

  // ----- delta posting converges -----

  /** The net a source should have after a run: its last accepted target. */
  function LastTarget(b: Books, ops: seq<Op>, s: Source, sofar: int): int
    decreases |ops|
  {
    if ops == [] then sofar else
    var r := Requested(b, ops[0]);
    var hit := r.Some? && r.value.source == s && Apply(b, ops[0]).Some?;
    LastTarget(Step(b, ops[0]), ops[1..], s, if hit then r.value.target else sofar)
  }

  lemma PostNet(b: Books, target: int, c: Category, s: Source, wo: Option<Id>, other: Source)
    requires Post(b, target, c, s, wo).Some?
    ensures Net(Post(b, target, c, s, wo).value.journal, other) == if other == s then target else Net(b.journal, other)
  {
    PostAppends(b, target, c, s, wo);
    TotalPush(b.journal, Txn(target - Net(b.journal, s), c, s, wo), OfSource(other));
  }

  lemma StepNet(b: Books, op: Op, s: Source)
    requires BooksOk(b)
    ensures var r := Requested(b, op);
      Net(Step(b, op).journal, s) ==
        if r.Some? && r.value.source == s && Apply(b, op).Some? then r.value.target else Net(b.journal, s)
  {
    var r := Requested(b, op);
    if r.Some? && Apply(b, op).Some? {
      PostNet(Keyed(b, op), r.value.target, r.value.category, r.value.source, r.value.wo, s);
    }
  }

  /** After any interleaving of postings over any sources, the net of each source is the last
      target posted for it. */
  lemma {:induction false} DeltaPostingConverges(b: Books, ops: seq<Op>, s: Source)
    requires BooksOk(b)
    ensures Net(Run(b, ops).journal, s) == LastTarget(b, ops, s, Net(b.journal, s))
    decreases |ops|
  {
    if ops != [] {
      StepNet(b, ops[0], s);
      StepBooks(b, ops[0]);
      DeltaPostingConverges(Step(b, ops[0]), ops[1..], s);
    }
  }

  /** Posting the same thing again adds no row; the books do not change at all. */
  lemma ReplayIsIdle(b: Books, op: Op)
    requires BooksOk(b) && !op.PostAdjustment?
    ensures Step(Step(b, op), op) == Step(b, op)
  {
    var r := Requested(b, op);
    if r.Some? {
      StepNet(b, op, r.value.source);
    }
  }

  /** A manual adjustment always posts its whole amount: its source has never been posted. */
  lemma AdjustmentPostsInFull(b: Books, wo: Id, amount: int, memo: string)
    requires BooksOk(b) && amount != 0 && |memo| >= 10
    ensures Step(b, PostAdjustment(wo, amount, memo)).journal
         == b.journal + [Txn(amount, Additional, Source(Adjustment, b.adjustments), Some(wo))]
  {
    var op, s := PostAdjustment(wo, amount, memo), Source(Adjustment, b.adjustments);
    assert forall k :: 0 <= k < |b.journal| ==> b.journal[k].source != s;
    TotalNone(b.journal, OfSource(s));
    assert Requested(b, op) == Some(Request(amount, Additional, s, Some(wo)));
    assert Apply(b, op) == Post(Keyed(b, op), amount, Additional, s, Some(wo));
  }

  // ----- rounding -----

  /** The exact cost of every part line posted so far, in units of a hundred-thousandth of a
      hundredth. */
  function Exact(ops: seq<Op>, sofar: map<Id, int>): map<Id, int>
    decreases |ops|
  {
    if ops == [] then sofar else Exact(ops[1..], ExactStep(ops[0], sofar))
  }

  function ExactStep(op: Op, sofar: map<Id, int>): map<Id, int> {
    match op
    case PostMaterial(l, issuable, issued, unitCost, w) =>
      if issuable && issued > 0 then sofar[l := issued * unitCost] else sofar
    case _ => sofar
  }

  /** The lines posted are among the first `n`, and each is posted to its own order only. */
  predicate LinesAreOf(ops: seq<Op>, orderOf: Id -> Id, n: nat) {
    forall i | 0 <= i < |ops| && ops[i].PostMaterial? :: ops[i].line < n && ops[i].wo == orderOf(ops[i].line)
  }

  /** Sum over the lines below `n` of order `w` of their exact cost. */
  function ExactSum(exact: map<Id, int>, orderOf: Id -> Id, w: Id, n: nat): int {
    if n == 0 then 0 else
    ExactSum(exact, orderOf, w, n - 1) + if n - 1 in exact && orderOf(n - 1) == w then exact[n - 1] else 0
  }

  function LineCount(exact: map<Id, int>, orderOf: Id -> Id, w: Id, n: nat): nat {
    if n == 0 then 0 else
    LineCount(exact, orderOf, w, n - 1) + if n - 1 in exact && orderOf(n - 1) == w then 1 else 0
  }

  function NetSum(journal: seq<Txn>, orderOf: Id -> Id, w: Id, n: nat): int {
    if n == 0 then 0 else
    NetSum(journal, orderOf, w, n - 1) + if orderOf(n - 1) == w then Net(journal, Source(PartLine, n - 1)) else 0
  }

  /** The material rows are those of part lines, each on its own order. */
  ghost predicate MaterialRows(journal: seq<Txn>, orderOf: Id -> Id, n: nat) {
    forall k :: 0 <= k < |journal| ==>
      && (journal[k].category == Material <==> journal[k].source.kind == PartLine)
      && (journal[k].source.kind == PartLine ==>
            journal[k].source.id < n && journal[k].wo == Some(orderOf(journal[k].source.id)))
  }

  /** Each line's net is its exact cost rounded once. */
  ghost predicate Rounded(journal: seq<Txn>, exact: map<Id, int>) {
    forall l: Id :: Net(journal, Source(PartLine, l)) == if l in exact then RoundHalfEven(exact[l], CENT) else 0
  }

  lemma StepMaterialRows(b: Books, op: Op, orderOf: Id -> Id, n: nat)
    requires op.PostMaterial? ==> op.line < n && op.wo == orderOf(op.line)
    requires MaterialRows(b.journal, orderOf, n)
    ensures MaterialRows(Step(b, op).journal, orderOf, n)
  {
    StepAppends(b, op);
  }

  /** A material row exactly when it is of a part line, and then of the line and order posted. */
  predicate RowOf(t: Txn, op: Op) {
    && (t.category == Material <==> t.source.kind == PartLine)
    && (t.source.kind == PartLine ==> op.PostMaterial? && t.source.id == op.line && t.wo == Some(op.wo))
  }

  lemma StepAppends(b: Books, op: Op)
    ensures Step(b, op).journal == b.journal
      || exists t :: Step(b, op).journal == b.journal + [t] && RowOf(t, op)
  {
    var r := Requested(b, op);
    if r.Some? && Apply(b, op).Some? {
      PostAppends(Keyed(b, op), r.value.target, r.value.category, r.value.source, r.value.wo);
    }
  }

  lemma StepRounded(b: Books, op: Op, exact: map<Id, int>)
    requires BooksOk(b) && Rounded(b.journal, exact)
    ensures Rounded(Step(b, op).journal, ExactStep(op, exact))
  {
    var after := ExactStep(op, exact);
    forall l: Id
      ensures Net(Step(b, op).journal, Source(PartLine, l)) == if l in after then RoundHalfEven(after[l], CENT) else 0
    {
      StepNet(b, op, Source(PartLine, l));
      assert Net(b.journal, Source(PartLine, l)) == if l in exact then RoundHalfEven(exact[l], CENT) else 0;
    }
  }

  lemma {:induction false} RunRounded(b: Books, ops: seq<Op>, exact: map<Id, int>, orderOf: Id -> Id, n: nat)
    requires BooksOk(b) && LinesAreOf(ops, orderOf, n)
    requires MaterialRows(b.journal, orderOf, n) && Rounded(b.journal, exact)
    ensures MaterialRows(Run(b, ops).journal, orderOf, n) && Rounded(Run(b, ops).journal, Exact(ops, exact))
    decreases |ops|
  {
    if ops != [] {
      StepMaterialRows(b, ops[0], orderOf, n);
      StepRounded(b, ops[0], exact);
      StepBooks(b, ops[0]);
      RunRounded(Step(b, ops[0]), ops[1..], ExactStep(ops[0], exact), orderOf, n);
    }
  }

  /** The material total of an order is the sum of its lines' nets. */
  lemma {:induction false} MaterialIsNetSum(journal: seq<Txn>, orderOf: Id -> Id, w: Id, n: nat)
    requires MaterialRows(journal, orderOf, n)
    ensures Total(journal, OfCategory(w, Material)) == NetSum(journal, orderOf, w, n)
  {
    if journal == [] {
      NetSumEmpty(orderOf, w, n);
    } else {
      var m := |journal| - 1;
      var t := journal[m];
      MaterialIsNetSum(journal[..m], orderOf, w, n);
      NetSumPush(journal[..m], t, orderOf, w, n);
      assert journal[..m] + [t] == journal;
    }
  }

  lemma {:induction false} NetSumEmpty(orderOf: Id -> Id, w: Id, n: nat)
    ensures NetSum([], orderOf, w, n) == 0
  {
    if n > 0 {
      NetSumEmpty(orderOf, w, n - 1);
    }
  }

  lemma {:induction false} NetSumPush(journal: seq<Txn>, t: Txn, orderOf: Id -> Id, w: Id, n: nat)
    ensures NetSum(journal + [t], orderOf, w, n) == NetSum(journal, orderOf, w, n)
      + if t.source.kind == PartLine && t.source.id < n && orderOf(t.source.id) == w then t.amount else 0
  {
    if n > 0 {
      NetSumPush(journal, t, orderOf, w, n - 1);
      TotalPush(journal, t, OfSource(Source(PartLine, n - 1)));
    }
  }

  lemma {:induction false} NetSumBound(journal: seq<Txn>, exact: map<Id, int>, orderOf: Id -> Id, w: Id, n: nat)
    requires Rounded(journal, exact)
    ensures 2 * Abs(NetSum(journal, orderOf, w, n) * CENT - ExactSum(exact, orderOf, w, n))
         <= LineCount(exact, orderOf, w, n) * CENT
  {
    if n > 0 {
      NetSumBound(journal, exact, orderOf, w, n - 1);
      if n - 1 in exact {
        RoundIsNearest(exact[n - 1], CENT);
      }
      assert Net(journal, Source(PartLine, n - 1)) == if n - 1 in exact then RoundHalfEven(exact[n - 1], CENT) else 0;
    }
  }

  /** The material total of order `w` is within a half-cent per posted line of the exact sum. */
  predicate MaterialNear(journal: seq<Txn>, exact: map<Id, int>, orderOf: Id -> Id, w: Id, n: nat) {
    2 * Abs(Summary(journal, w).material * 100000 - ExactSum(exact, orderOf, w, n))
    <= LineCount(exact, orderOf, w, n) * 100000
  }

  /** However often and in whatever order lines are posted, the material total of an order with
      k posted lines is within k half-cents of the exact sum of quantity times unit cost. */
  lemma RoundingNeverAccumulates(ops: seq<Op>, orderOf: Id -> Id, w: Id, n: nat)
    requires LinesAreOf(ops, orderOf, n)
    ensures MaterialNear(Run(EMPTY, ops).journal, Exact(ops, map[]), orderOf, w, n)
  {
    EmptyRounded(orderOf, n);
    RunRounded(EMPTY, ops, map[], orderOf, n);
    MaterialBound(Run(EMPTY, ops).journal, Exact(ops, map[]), orderOf, w, n);
  }

  lemma EmptyRounded(orderOf: Id -> Id, n: nat)
    ensures BooksOk(EMPTY) && MaterialRows(EMPTY.journal, orderOf, n) && Rounded(EMPTY.journal, map[])
  {
  }

  lemma MaterialBound(journal: seq<Txn>, exact: map<Id, int>, orderOf: Id -> Id, w: Id, n: nat)
    requires MaterialRows(journal, orderOf, n) && Rounded(journal, exact)
    ensures MaterialNear(journal, exact, orderOf, w, n)
  {
    MaterialIsNetSum(journal, orderOf, w, n);
    NetSumBound(journal, exact, orderOf, w, n);
    assert Summary(journal, w).material == NetSum(journal, orderOf, w, n);
  }
}
