/** What each inventory service accepts and what it leaves behind, field by field, in terms of the
    tables alone: when it is refused, which rows it changes and to what, and that nothing else does. */
module StockOutcomes {
  import opened Basics
  import opened Records
  import opened Reservations
  import opened StockOperations
  import opened ReservationLaws
  import opened ReservationRuns
  import opened ShortageLaws
  import opened IssueLaws

  // ----- vocabulary -----

  /** Line `l` has an ACTIVE reservation. */
  ghost predicate HasReservation(db: Db, l: Id) {
    exists i :: 0 <= i < |db.rows| && db.rows[i].status == Active && db.rows[i].claim.line == Some(l)
  }

  /** Some line of the order and part is neither issued nor rejected. */
  ghost predicate HasUnfinished(db: Db, wo: Id, p: Id) {
    exists i :: 0 <= i < |db.lines| && db.lines[i].wo == wo && db.lines[i].part == p
                && db.lines[i].status != Issued && db.lines[i].status != Rejected
  }

  ghost predicate HasPendingReport(db: Db, wo: Id, p: Id) {
    exists i :: 0 <= i < |db.reports| && db.reports[i].wo == wo && db.reports[i].part == p
                && db.reports[i].status == PendingReview
  }

  /** Stock on hand that nobody has reserved. */
  function Unreserved(db: Db, p: Id): int {
    (if p in db.stock then db.stock[p] else 0) - Held(db.rows, OfPart(p))
  }

  /** Line `l` is now `line`; the other lines are as they were. */
  ghost predicate LineBecame(a: Db, b: Db, l: Id, line: Line) {
    && l < |a.lines| == |b.lines| && b.lines[l] == line
    && forall k :: 0 <= k < |a.lines| && k != l ==> b.lines[k] == a.lines[k]
  }

  ghost predicate ReportBecame(a: Db, b: Db, r: Id, report: Report) {
    && r < |a.reports| == |b.reports| && b.reports[r] == report
    && forall k :: 0 <= k < |a.reports| && k != r ==> b.reports[k] == a.reports[k]
  }

  /** The stock of a part changed by `delta`, with the movement that says so. */
  ghost predicate Moved(a: Db, b: Db, p: Id, kind: MovementKind, qty: int, delta: int) {
    var before := if p in a.stock then a.stock[p] else 0;
    && b.stock.Keys == a.stock.Keys + {p} && b.stock[p] == before + delta
    && (forall q :: q in a.stock && q != p ==> b.stock[q] == a.stock[q])
    && b.log == a.log + [Movement(p, kind, qty, before, before + delta)]
  }

  ghost predicate StockStays(a: Db, b: Db) {
    b.stock == a.stock && b.log == a.log && b.tools == a.tools && b.emergency == a.emergency
  }

  // ----- stock -----

  lemma ReceiptIs(db: Db, p: Id, qty: int)
    ensures var b := Step(db, OpReceive(p, qty));
      && Moved(db, b, p, StockIn, qty, qty)
      && b.rows == db.rows && b.lines == db.lines && b.reports == db.reports
      && b.tools == db.tools && b.emergency == db.emergency
  {
  }

  lemma ConsumptionIs(db: Db, p: Id, qty: int, permitted: bool, posts: bool)
    ensures var o := Consume(db, p, qty, permitted, posts);
      && (o.Some? <==> permitted && posts && p in db.stock && 0 < qty <= db.stock[p])
      && (o.Some? ==>
            && Moved(db, o.value, p, ConsumableUse, qty, -qty)
            && o.value.rows == db.rows && o.value.lines == db.lines && o.value.reports == db.reports
            && o.value.tools == db.tools && o.value.emergency == db.emergency)
  {
  }

  /** A unit of the tool pool is a thousand thousandths. */
  lemma ToolIssueIs(db: Db, p: Id, n: int, reusable: bool)
    ensures var o := IssueTools(db, p, n, reusable);
      && (o.Some? <==> reusable && p in db.stock && 0 < n && 1000 * n <= db.stock[p])
      && (o.Some? ==>
            && Moved(db, o.value, p, StockOut, 1000 * n, -1000 * n)
            && db.tools <= o.value.tools && |o.value.tools| == |db.tools| + n
            && (forall k :: |db.tools| <= k < |o.value.tools| ==> o.value.tools[k].part == p)
            && o.value.rows == db.rows && o.value.lines == db.lines && o.value.reports == db.reports
            && o.value.emergency == db.emergency)
  {
  }

  /** A direct issue takes what is unreserved, up to the quantity, for an order that never had a line
      of the part. */
  lemma DirectIssueIs(db: Db, wo: Id, closed: bool, p: Id, qty: int)
    ensures var o := DirectIssue(db, wo, closed, p, qty); var n := |db.lines|;
      && (o.Some? <==>
            && qty > 0 && !closed && p in db.stock && Unreserved(db, p) > 0
            && (forall i :: 0 <= i < n ==> db.lines[i].wo != wo || db.lines[i].part != p))
      && (o.Some? ==>
            var b, give := o.value, if qty <= Unreserved(db, p) then qty else Unreserved(db, p);
            && Moved(db, b, p, IssueToOrder, give, -give)
            && db.lines <= b.lines && |b.lines| == n + 1 && DirectLine(b.lines[n], wo, p, give)
            && b.rows == db.rows && b.reports == db.reports && b.tools == db.tools && b.emergency == db.emergency)
  {
  }

  predicate DirectLine(x: Line, wo: Id, p: Id, give: int) {
    && x.wo == wo && x.part == p && x.report == None && x.status == Approved
    && x.quantity == x.requested == x.approved == x.issued == give && x.allotted == x.shortage == 0
  }

  // ----- reservations -----

  /** What allocation would give line `l` now: what it still lacks, as far as that is unreserved;
      nothing when it is finished or nothing is approved. */
  function Grant(db: Db, l: Id): int
    requires l < |db.lines|
  {
    var line := db.lines[l];
    if line.status == Issued || line.status == Rejected || line.approved <= 0 || line.part !in db.stock then 0
    else Max(0, Min(line.approved - line.allotted, Unreserved(db, line.part)))
  }

  /** Line `l` of `a` was granted `give` and holds it in a new ACTIVE row. */
  ghost predicate GrantedRow(a: Db, b: Db, l: Id, give: int)
    requires l < |a.lines|
  {
    if give == 0 then b.rows == a.rows
    else b.rows == a.rows + [Reservation(Claim(a.lines[l].part, a.lines[l].wo, Some(l)), give, Active)]
  }

  lemma AllocationIs(db: Db, l: Id)
    ensures var o := AllocateOne(db, l);
      && (o == None <==> l >= |db.lines| || (Grant(db, l) > 0 && HasReservation(db, l)))
      && (o.Some? ==>
            var line, give, b := db.lines[l], Grant(db, l), o.value;
            && StockStays(db, b) && b.reports == db.reports && GrantedRow(db, b, l, give)
            && LineBecame(db, b, l, line.(
                 allotted := line.allotted + give,
                 status := if give == 0 then line.status
                           else if line.allotted + give >= line.approved then Allocated
                           else if line.status == Pending then Approved else line.status)))
  {
  }

  /** A direct reservation adds one ACTIVE row for exactly this part, order and line. */
  lemma ReservationIs(db: Db, p: Id, qty: int, wo: Id, link: Option<Id>)
    ensures var o := Reserve(db, p, qty, wo, link);
      && (o.Some? <==>
            && 0 < qty <= Unreserved(db, p)
            && (link.Some? ==> link.value < |db.lines| && !HasReservation(db, link.value)))
      && (o.Some? ==> o.value == db.(rows := db.rows + [Reservation(Claim(p, wo, link), qty, Active)]))
  {
  }

  /** A legacy reservation raises what its order holds of the part, and no other order's. */
  lemma LegacyReservationRaises(db: Db, p: Id, qty: int, wo: Id, q: Id, w: Id)
    requires Reserve(db, p, qty, wo, None).Some?
    ensures Held(Step(db, OpReserve(p, qty, wo, None)).rows, Legacy(q, w))
         == Held(db.rows, Legacy(q, w)) + if q == p && w == wo then qty else 0
  {
    SumPush(db.rows, Reservation(Claim(p, wo, None), qty, Active), Live(Legacy(q, w)));
  }

  /** Release changes ACTIVE rows of this part and order without a line, and no others. */
  lemma ReleaseTouches(db: Db, p: Id, qty: int, wo: Id, i: Id)
    requires TableOk(db) && i < |db.rows|
    ensures var b, row := Step(db, OpRelease(p, qty, wo)), db.rows[i];
      && i < |b.rows|
      && (b.rows[i] != row ==>
            row.status == Active && row.claim.part == p && row.claim.wo == wo && row.claim.line == None)
  {
    ReleaseIsAllOrNothing(db, p, qty, wo);
    if Release(db, p, qty, wo).Some? { DrawnTouches(db.rows, Legacy(p, wo), qty); }
  }

  /** A warehouse issue changes ACTIVE rows of the line, and of its order without a line. */
  lemma IssueTouches(db: Db, l: Id, qty: int, skip: bool, i: Id)
    requires TableOk(db) && WarehouseIssue(db, l, qty, skip).Some? && i < |db.rows|
    ensures var b, row, line := Step(db, OpWarehouseIssue(l, qty, skip)), db.rows[i], db.lines[l];
      && i < |b.rows|
      && (b.rows[i] != row ==>
            && row.status == Active && row.claim.part == line.part
            && (row.claim.line == Some(l) || (row.claim.line == None && row.claim.wo == line.wo)))
  {
    WarehouseIssueIsFifo(db, l, qty, skip);
  }

  /** Who holds a claim: the classes the drawdowns and the sums are about. */
  lemma ClassesAre(c: Claim, p: Id, l: Id, w: Id)
    ensures OfPart(p)(c) <==> c.part == p
    ensures OfLine(l)(c) <==> c.line == Some(l)
    ensures Linked(p, l)(c) <==> c.part == p && c.line == Some(l)
    ensures Legacy(p, w)(c) <==> c.part == p && c.wo == w && c.line == None
  {
  }

  // ----- part requests -----

  /** A new request is refused for a quantity that is not positive, on a closed order, on an emergency
      order whose stock covers it, and where a report is already pending; an unfinished line is
      returned as it is. */
  lemma RequestIs(db: Db, wo: Id, closed: bool, p: Id, qty: int)
    ensures var o := RequestPart(db, wo, closed, p, qty);
      && (HasUnfinished(db, wo, p) ==> o == if qty > 0 && !closed then Some(db) else None)
      && (!HasUnfinished(db, wo, p) ==>
            && (o.Some? <==>
                  && qty > 0 && !closed
                  && (if Uncovered(db, p, qty) > 0 then !HasPendingReport(db, wo, p) else wo !in db.emergency))
            && (o.Some? ==> NewRequest(db, o.value, wo, p, qty)))
  {
    if HasUnfinished(db, wo, p) {
      var i :| 0 <= i < |db.lines| && db.lines[i].wo == wo && db.lines[i].part == p
               && db.lines[i].status != Issued && db.lines[i].status != Rejected;
      assert db.lines[i].Open();
    }
    PendingReportIs(db, wo, p);
  }

  lemma PendingReportIs(db: Db, wo: Id, p: Id)
    ensures PendingReport(db.reports, wo, p).Some? <==> HasPendingReport(db, wo, p)
  {
    if HasPendingReport(db, wo, p) {
      var i :| 0 <= i < |db.reports| && db.reports[i].wo == wo && db.reports[i].part == p
               && db.reports[i].status == PendingReview;
      assert IsPending(db.reports[i], wo, p);
    }
  }

  /** What unreserved stock does not cover; all of it for a part without a stock record. */
  function Uncovered(db: Db, p: Id, qty: int): int {
    Max(0, qty - if p in db.stock then Unreserved(db, p) else 0)
  }

  /** One more line, pending for the whole quantity; and exactly when unreserved stock does not cover
      it one more report, linked from the line, that asks for the whole quantity too. */
  ghost predicate NewRequest(a: Db, b: Db, wo: Id, p: Id, qty: int) {
    && StockStays(a, b) && b.rows == a.rows
    && a.lines <= b.lines && |b.lines| == |a.lines| + 1 && a.reports <= b.reports
    && |b.reports| == |a.reports| + (if Uncovered(a, p, qty) > 0 then 1 else 0)
    && var x := b.lines[|a.lines|];
    && x.wo == wo && x.part == p && x.status == Pending
    && x.quantity == x.requested == qty && x.approved == x.allotted == x.issued == 0
    && x.shortage == Uncovered(a, p, qty)
    && x.report == (if Uncovered(a, p, qty) > 0 then Some(|a.reports|) else None)
    && (Uncovered(a, p, qty) > 0 ==>
          var rep := b.reports[|a.reports|];
          && rep.wo == wo && rep.part == p && rep.requested == qty && rep.issued == 0
          && rep.status == PendingReview && rep.decision == None)
  }

  /** The newest pending line of an order and part. */
  ghost predicate NewestPending(db: Db, wo: Id, p: Id, l: Id) {
    && l < |db.lines| && IsPendingLine(db.lines[l], wo, p)
    && forall k :: l < k < |db.lines| ==> !IsPendingLine(db.lines[k], wo, p)
  }

  predicate IsPendingLine(x: Line, wo: Id, p: Id) { x.wo == wo && x.part == p && x.status == Pending }

  /** The pending report of an order and part. */
  ghost predicate ReportPending(db: Db, wo: Id, p: Id, r: Id) {
    && r < |db.reports| && db.reports[r].wo == wo && db.reports[r].part == p && db.reports[r].status == PendingReview
  }

  /** Raising a shortage for the newest pending line: the pending report, or a new one where there is
      none, takes the line's quantity and issued count, and the line ends linked to a report. */
  lemma RaiseIs(db: Db, wo: Id, p: Id, l: Id)
    requires NewestPending(db, wo, p, l)
    ensures var o := RaiseShortage(db, wo, p);
      && o.Some? && StockStays(db, o.value) && o.value.rows == db.rows
      && (HasPendingReport(db, wo, p) ==>
            exists r: Id :: ReportPending(db, wo, p, r) && ReportBecame(db, o.value, r, db.reports[r].(
                 requested := db.lines[l].quantity, issued := db.lines[l].issued)) && Links(db, o.value, l, r))
      && (!HasPendingReport(db, wo, p) ==>
            && o.value.reports == db.reports
               + [Report(wo, p, db.lines[l].quantity, db.lines[l].issued, PendingReview, None)]
            && Links(db, o.value, l, |db.reports|))
  {
    var r := PendingReport(db.reports, wo, p);
    PendingReportIs(db, wo, p);
    PendingLineIsNewest(db, wo, p, l);
    if r.Some? {
      assert ReportPending(db, wo, p, r.value);
    }
  }

  lemma PendingLineIsNewest(db: Db, wo: Id, p: Id, l: Id)
    requires NewestPending(db, wo, p, l)
    ensures PendingLine(db.lines, wo, p) == Some(l)
  {
    var found := PendingLine(db.lines, wo, p);
    assert found.Some? ==> IsPendingLine(db.lines[found.value], wo, p);
  }

  /** The line keeps the report it has, or links report `r`. */
  ghost predicate Links(a: Db, b: Db, l: Id, r: Id)
    requires l < |a.lines|
  {
    LineBecame(a, b, l, a.lines[l].(report := if a.lines[l].report.Some? then a.lines[l].report else Some(r)))
  }

  /** Without a pending line the pending report loses its count, and without a report the call is
      refused. */
  lemma RaiseWithoutLine(db: Db, wo: Id, p: Id)
    requires forall k :: 0 <= k < |db.lines| ==> !IsPendingLine(db.lines[k], wo, p)
    ensures var o := RaiseShortage(db, wo, p);
      && (o.Some? <==> HasPendingReport(db, wo, p))
      && (o.Some? ==>
            && StockStays(db, o.value) && o.value.rows == db.rows && o.value.lines == db.lines
            && exists r: Id :: ReportPending(db, wo, p, r)
                           && ReportBecame(db, o.value, r, db.reports[r].(issued := 0)))
  {
    var l, r := PendingLine(db.lines, wo, p), PendingReport(db.reports, wo, p);
    assert l.Some? ==> IsPendingLine(db.lines[l.value], wo, p);
    PendingReportIs(db, wo, p);
    if r.Some? {
      assert ReportPending(db, wo, p, r.value);
    }
  }

  /** Approving a pending line grants what it can; a grant its own reservation stands in the way of is
      given up, and the approval stands. */
  lemma ApprovalIs(db: Db, l: Id, auto: bool)
    ensures var o := ApprovePart(db, l, auto);
      && (o.Some? <==>
            l < |db.lines| && (db.lines[l].status == Approved
                               || (db.lines[l].status == Pending && db.lines[l].quantity > 0)))
      && (o.Some? && db.lines[l].status == Approved ==> o.value == db)
      && (o.Some? && db.lines[l].status == Pending ==> ApprovedLine(db, o.value, l, auto))
  {
    if l < |db.lines| && db.lines[l].status == Pending && db.lines[l].quantity > 0 {
      ApprovalGrants(db, l, auto);
    }
  }

  lemma ApprovalGrants(db: Db, l: Id, auto: bool)
    requires l < |db.lines| && db.lines[l].status == Pending && db.lines[l].quantity > 0
    ensures ApprovePart(db, l, auto).Some? && ApprovedLine(db, ApprovePart(db, l, auto).value, l, auto)
  {
    var line := db.lines[l];
    var approved := if auto then line.requested else line.quantity;
    var done := PutLine(db, l, line.(
      status := Approved, approved := approved, shortage := Max(0, line.requested - approved)));
    AllocationIs(done, l);
    assert HasReservation(done, l) == HasReservation(db, l);
    assert Grant(done, l) == GrantFor(db, l, approved);
    assert ApprovePart(db, l, auto) == Some(Or(AllocateOne(done, l), done));
  }

  /** `give` is what an approval or decision for `approved` grants line `l`. */
  function GrantFor(db: Db, l: Id, approved: int): int
    requires l < |db.lines|
  {
    Grant(db.(lines := db.lines[l := db.lines[l].(approved := approved)]), l)
  }

  ghost predicate ApprovedLine(a: Db, b: Db, l: Id, auto: bool)
    requires l < |a.lines|
  {
    var line := a.lines[l];
    var approved := if auto then line.requested else line.quantity;
    var give := if HasReservation(a, l) then 0 else GrantFor(a, l, approved);
    && StockStays(a, b) && b.reports == a.reports && GrantedRow(a, b, l, give)
    && LineBecame(a, b, l, line.(
         approved := approved, allotted := line.allotted + give,
         status := if give > 0 && line.allotted + give >= approved then Allocated else Approved,
         shortage := if line.requested > approved then line.requested - approved else 0))
  }

  lemma RejectionIs(db: Db, l: Id, reason: string)
    ensures var o := RejectPart(db, l, reason);
      && (o.Some? <==> l < |db.lines| && db.lines[l].status == Pending && |reason| > 0)
      && (o.Some? ==>
            && LineBecame(db, o.value, l, db.lines[l].(status := Rejected))
            && StockStays(db, o.value) && o.value.rows == db.rows && o.value.reports == db.reports)
  {
  }

  lemma CancellationAccepts(db: Db, l: Id, reason: string)
    ensures CancelPart(db, l, reason).Some? <==>
      && l < |db.lines| && (db.lines[l].status == Approved || db.lines[l].status == Allocated)
      && db.lines[l].issued <= 0 && 15 <= |reason|
  {
  }

  lemma QuantityEditIs(db: Db, l: Id, qty: int)
    ensures var o := EditQuantity(db, l, qty);
      && (o.Some? <==> l < |db.lines| && db.lines[l].status == Pending && qty > 0)
      && (o.Some? ==>
            var requested := db.lines[l].requested;
            && LineBecame(db, o.value, l, db.lines[l].(
                 quantity := qty, shortage := if requested > qty then requested - qty else 0))
            && StockStays(db, o.value) && o.value.rows == db.rows && o.value.reports == db.reports)
  {
  }

  // ----- shortage reports -----

  /** From where a report may come to each status. */
  function Before(to: ReportStatus): set<ReportStatus> {
    match to
    case PendingReview => {}
    case Decided => {PendingReview}
    case Refused => {PendingReview}
    case InFulfillment => {Decided, Blocked}
    case Fulfilled => {InFulfillment}
    case Blocked => {Decided, InFulfillment}
    case Closed => {Decided, InFulfillment, Fulfilled, Blocked}
  }

  /** A move writes the status and nothing else of the report; only a closing one changes rows. */
  lemma MoveIs(db: Db, r: Id, to: ReportStatus)
    ensures var o := MoveReport(db, r, to);
      && (o.Some? <==> r < |db.reports| && db.reports[r].status in Before(to))
      && (o.Some? ==>
            && ReportBecame(db, o.value, r, db.reports[r].(status := to))
            && StockStays(db, o.value) && o.value.lines == db.lines
            && (to != Closed ==> o.value.rows == db.rows))
  {
  }

  lemma MarkingIs(db: Db, r: Id)
    ensures var o := MarkFulfilled(db, r);
      && (o.Some? <==>
            && r < |db.reports| && db.reports[r].status == InFulfillment
            && db.reports[r].decision.Some? && db.reports[r].decision.value.kind == Approve
            && db.reports[r].decision.value.issue <= db.reports[r].issued)
      && (o.Some? ==>
            && ReportBecame(db, o.value, r, db.reports[r].(status := Fulfilled))
            && StockStays(db, o.value) && o.value.lines == db.lines && o.value.rows == db.rows)
  {
  }

  /** The three parts of a decision are not negative and add up to the request; an approval commits
      something and a rejection everything. */
  predicate InBalance(d: Decision, requested: int) {
    && 0 <= d.issue && 0 <= d.procure && 0 <= d.reject && d.issue + d.procure + d.reject == requested
    && (d.kind == Approve ==> d.issue + d.procure > 0)
    && (d.kind == Reject ==> d.reject == requested)
  }

  lemma BalanceIs(d: Decision, requested: int)
    ensures Balanced(d, requested) <==> InBalance(d, requested)
  {
  }

  /** In every state of every run every decision balances against its report's request. */
  lemma DecisionsBalanceOverRuns(db: Db, ops: seq<Op>, r: Id)
    requires Books(db) && OnePendingReport(db)
    ensures var b := Run(db, ops);
      r < |b.reports| && b.reports[r].decision.Some? ==> InBalance(b.reports[r].decision.value, b.reports[r].requested)
  {
    DecisionBooksOverRuns(db, ops);
    if r < |Run(db, ops).reports| && Run(db, ops).reports[r].decision.Some? {
      assert ReportBooks(Run(db, ops).reports[r]);
      BalanceIs(Run(db, ops).reports[r].decision.value, Run(db, ops).reports[r].requested);
    }
  }

  /** The newest line that executes report `r`. */
  ghost predicate Executes(db: Db, r: Id, l: Id) {
    && l < |db.lines| && db.lines[l].report == Some(r)
    && forall k :: l < k < |db.lines| ==> db.lines[k].report != Some(r)
  }

  lemma LineOfIs(db: Db, r: Id, l: Id)
    requires Executes(db, r, l)
    ensures LineOf(db.lines, r) == Some(l)
  {
  }

  /** A decision is accepted on a pending, undecided report that it balances, unless it has to grant
      the report's line stock while the line already has a reservation. */
  lemma DecisionAccepted(db: Db, r: Id, d: Decision)
    ensures Decide(db, r, d).Some? <==>
      && r < |db.reports| && db.reports[r].status == PendingReview && db.reports[r].decision == None
      && InBalance(d, db.reports[r].requested)
      && !(d.kind == Approve && d.issue > 0
           && exists l: Id :: Executes(db, r, l) && GrantFor(db, l, d.issue) > 0 && HasReservation(db, l))
  {
    BalanceIs(d, if r < |db.reports| then db.reports[r].requested else 0);
    if r < |db.reports| {
      var l := LineOf(db.lines, r);
      if l.Some? {
        assert Executes(db, r, l.value);
        AllocationFor(db, r, d, l.value);
      }
      forall k: Id | Executes(db, r, k) ensures l == Some(k) { LineOfIs(db, r, k); }
    }
  }

  /** What allocating to the line of a decided report comes to. */
  lemma AllocationFor(db: Db, r: Id, d: Decision, l: Id)
    requires r < |db.reports| && l < |db.lines|
    ensures var decided := PutReport(db, r, db.reports[r].(
              decision := Some(d), status := if d.kind == Approve then Decided else Refused));
      var o := ApproveAndAllocate(decided, Some(l), d.issue);
      && (o == None <==> GrantFor(db, l, d.issue) > 0 && HasReservation(db, l))
      && (o.Some? ==> Allocates(decided, o.value, l, d.issue))
  {
    var decided := PutReport(db, r, db.reports[r].(
      decision := Some(d), status := if d.kind == Approve then Decided else Refused));
    ApprovedAndGranted(decided, l, d.issue);
    assert HasReservation(decided, l) == HasReservation(db, l);
    assert GrantFor(decided, l, d.issue) == GrantFor(db, l, d.issue);
  }

  lemma ApprovedAndGranted(db: Db, l: Id, approved: int)
    requires l < |db.lines|
    ensures var o := ApproveAndAllocate(db, Some(l), approved);
      && (o == None <==> GrantFor(db, l, approved) > 0 && HasReservation(db, l))
      && (o.Some? ==> Allocates(db, o.value, l, approved))
  {
    var raised := SetApproved(db, Some(l), approved);
    AllocationIs(raised, l);
    assert HasReservation(raised, l) == HasReservation(db, l);
  }

  /** Line `l` is approved for `approved` and granted what it can be of that. */
  ghost predicate Allocates(a: Db, b: Db, l: Id, approved: int)
    requires l < |a.lines|
  {
    var line, give := a.lines[l], GrantFor(a, l, approved);
    && StockStays(a, b) && b.reports == a.reports && GrantedRow(a, b, l, give)
    && LineBecame(a, b, l, line.(
         approved := approved, allotted := line.allotted + give,
         status := if give == 0 then line.status
                   else if line.allotted + give >= approved then Allocated
                   else if line.status == Pending then Approved else line.status))
  }

  /** An accepted decision is recorded; a rejection touches nothing else. */
  lemma DecisionRecorded(db: Db, r: Id, d: Decision)
    requires Decide(db, r, d).Some?
    ensures var b := Decide(db, r, d).value;
      && ReportBecame(db, b, r, db.reports[r].(
           decision := Some(d), status := if d.kind == Approve then Decided else Refused))
      && StockStays(db, b)
      && (d.kind == Reject || (forall k :: 0 <= k < |db.lines| ==> db.lines[k].report != Some(r)) ==>
            b.rows == db.rows && b.lines == db.lines)
  {
  }

  /** An approving decision approves the report's line for the issue quantity and reserves what it can
      of it; with nothing to issue it only approves a pending line, for nothing. A line that is still
      pending then is approved, short of what is procured. */
  lemma DecisionAllocates(db: Db, r: Id, d: Decision, l: Id)
    requires Decide(db, r, d).Some? && d.kind == Approve && Executes(db, r, l)
    ensures var b, line := Decide(db, r, d).value, db.lines[l];
      var give := if d.issue > 0 then GrantFor(db, l, d.issue) else 0;
      && GrantedRow(db, b, l, give)
      && |b.lines| == |db.lines| && b.lines[l].allotted == line.allotted + give
      && (d.issue > 0 || line.status == Pending ==> b.lines[l].approved == d.issue)
      && LineBecame(db, b, l, line.(
           approved := b.lines[l].approved, allotted := line.allotted + give,
           status := if give > 0 && line.allotted + give >= d.issue then Allocated
                     else if line.status == Pending then Approved else line.status,
           shortage := if give == 0 && line.status == Pending then d.procure else line.shortage))
      && (d.issue == 0 && line.status != Pending ==> b.lines[l] == line)
  {
    LineOfIs(db, r, l);
    AllocationFor(db, r, d, l);
  }

  lemma OneExecutes(db: Db, r: Id, l: Id)
    requires Executes(db, r, l)
    ensures forall k: Id :: Executes(db, r, k) ==> k == l
  {
    forall k: Id | Executes(db, r, k) ensures k == l {
      LineOfIs(db, r, k);
      LineOfIs(db, r, l);
    }
  }

  /** In particular a decision on a fresh line reserves min(issue, unreserved stock) for it. */
  lemma DecisionReserves(db: Db, r: Id, d: Decision, l: Id)
    requires TableOk(db) && Executes(db, r, l) && db.lines[l].status == Pending && db.lines[l].allotted == 0
    requires !HasReservation(db, l) && d.kind == Approve && d.issue > 0
    requires r < |db.reports| && db.reports[r].status == PendingReview && db.reports[r].decision == None
    requires InBalance(d, db.reports[r].requested)
    ensures var b, p := Step(db, OpDecide(r, d)), db.lines[l].part;
      var give := if p in db.stock then Max(0, Min(d.issue, Unreserved(db, p))) else 0;
      && |b.lines| == |db.lines| && b.lines[l].approved == d.issue && b.lines[l].allotted == give
      && b.lines[l].status == (if give == d.issue then Allocated else Approved)
      && Held(b.rows, OfLine(l)) == Held(db.rows, OfLine(l)) + give
      && Held(b.rows, OfPart(p)) == Held(db.rows, OfPart(p)) + give
      && b.stock == db.stock
  {
    OneExecutes(db, r, l);
    DecisionAccepted(db, r, d);
    DecisionRecorded(db, r, d);
    DecisionAllocates(db, r, d, l);
    var row := Reservation(Claim(db.lines[l].part, db.lines[l].wo, Some(l)), GrantFor(db, l, d.issue), Active);
    SumPush(db.rows, row, Live(OfLine(l)));
    SumPush(db.rows, row, Live(OfPart(db.lines[l].part)));
  }

  /** An edit is open until fulfilment starts; it records the new quantities under the old kind. */
  lemma EditRecorded(db: Db, r: Id, issue: int, procure: int, reject: int)
    ensures var o := EditDecision(db, r, issue, procure, reject);
      o.Some? ==>
        && r < |db.reports| && (db.reports[r].status == PendingReview || db.reports[r].status == Decided)
        && db.reports[r].decision.Some?
        && var d := Decision(db.reports[r].decision.value.kind, issue, procure, reject);
        && InBalance(d, db.reports[r].requested) && StockStays(db, o.value)
        && ReportBecame(db, o.value, r, db.reports[r].(decision := Some(d)))
  {
    if r < |db.reports| && db.reports[r].decision.Some? {
      BalanceIs(Decision(db.reports[r].decision.value.kind, issue, procure, reject), db.reports[r].requested);
    }
  }

  /** The edits refused for the report's own sake. */
  predicate EditOpen(db: Db, r: Id, issue: int, procure: int, reject: int) {
    && r < |db.reports| && (db.reports[r].status == PendingReview || db.reports[r].status == Decided)
    && db.reports[r].decision.Some?
    && InBalance(Decision(db.reports[r].decision.value.kind, issue, procure, reject), db.reports[r].requested)
  }

  /** Exactly the open edits are accepted, except an upward one that has to grant stock to a line with
      a reservation, and a downward one of a part without a stock record. */
  lemma EditAccepted(db: Db, r: Id, issue: int, procure: int, reject: int)
    ensures EditDecision(db, r, issue, procure, reject).Some? <==>
      && EditOpen(db, r, issue, procure, reject)
      && var was := db.reports[r].decision.value.issue;
      && !(issue > was && exists l: Id :: Executes(db, r, l) && GrantFor(db, l, issue) > 0 && HasReservation(db, l))
      && !(issue < was && db.reports[r].part !in db.stock)
  {
    if r < |db.reports| && db.reports[r].decision.Some? {
      var d := Decision(db.reports[r].decision.value.kind, issue, procure, reject);
      BalanceIs(d, db.reports[r].requested);
      var l := LineOf(db.lines, r);
      if l.Some? {
        assert Executes(db, r, l.value);
        EditAllocation(db, r, issue, d, l.value);
      }
      forall k: Id | Executes(db, r, k) ensures l == Some(k) { LineOfIs(db, r, k); }
    }
  }

  lemma EditAllocation(db: Db, r: Id, issue: int, d: Decision, l: Id)
    requires r < |db.reports| && l < |db.lines|
    ensures var edited := PutReport(db, r, db.reports[r].(decision := Some(d)));
      var o := ApproveAndAllocate(edited, Some(l), issue);
      && (o == None <==> GrantFor(db, l, issue) > 0 && HasReservation(db, l))
      && (o.Some? ==> Allocates(edited, o.value, l, issue))
  {
    var edited := PutReport(db, r, db.reports[r].(decision := Some(d)));
    ApprovedAndGranted(edited, l, issue);
    assert HasReservation(edited, l) == HasReservation(db, l);
    assert GrantFor(edited, l, issue) == GrantFor(db, l, issue);
  }

  /** Raising the issue quantity approves the line for it and reserves what it can of the rise;
      leaving it touches no line; lowering it lowers the approval alone. */
  lemma EditAllocates(db: Db, r: Id, issue: int, procure: int, reject: int, l: Id)
    requires EditDecision(db, r, issue, procure, reject).Some? && Executes(db, r, l)
    ensures var b, line := EditDecision(db, r, issue, procure, reject).value, db.lines[l];
      var was := db.reports[r].decision.value.issue;
      if issue > was then
        var give := GrantFor(db, l, issue);
        && GrantedRow(db, b, l, give)
        && LineBecame(db, b, l, line.(
             approved := issue, allotted := line.allotted + give,
             status := if give == 0 then line.status
                       else if line.allotted + give >= issue then Allocated
                       else if line.status == Pending then Approved else line.status))
      else if issue < was then LineBecame(db, b, l, line.(approved := issue))
      else b.lines == db.lines && b.rows == db.rows
  {
    LineOfIs(db, r, l);
    var d := Decision(db.reports[r].decision.value.kind, issue, procure, reject);
    EditAllocation(db, r, issue, d, l);
  }

  // ----- warehouse issue -----

  /** Who may issue what: an unfinished line, approved for something unless the check is skipped, and
      no more than is on hand. */
  lemma IssueAccepted(db: Db, l: Id, qty: int, skip: bool)
    ensures WarehouseIssue(db, l, qty, skip).Some? <==>
      && l < |db.lines| && db.lines[l].status in {Pending, Approved, Allocated}
      && (skip || db.lines[l].approved > 0) && qty > 0
      && db.lines[l].part in db.stock && qty <= db.stock[db.lines[l].part]
  {
  }

  lemma IssueIs(db: Db, l: Id, qty: int, skip: bool)
    requires WarehouseIssue(db, l, qty, skip).Some?
    ensures var b, line := WarehouseIssue(db, l, qty, skip).value, db.lines[l];
      && Moved(db, b, line.part, IssueToOrder, qty, -qty)
      && LineBecame(db, b, l, line.(issued := line.issued + qty, status := Issued))
      && b.tools == db.tools && b.emergency == db.emergency
      && (line.report.Some? && line.report.value < |db.reports| ==>
            var rep := db.reports[line.report.value];
            ReportBecame(db, b, line.report.value, rep.(
              issued := rep.issued + qty,
              status := if line.issued == 0 && (rep.status == Decided || rep.status == Blocked) then InFulfillment
                        else rep.status)))
      && (!(line.report.Some? && line.report.value < |db.reports|) ==> b.reports == db.reports)
  {
  }

  /** A step that issues more on an existing line found it approved for something. */
  ghost predicate IssuesApproved(a: Db, b: Db) {
    forall l :: 0 <= l < |a.lines| && l < |b.lines| && b.lines[l].issued > a.lines[l].issued ==> a.lines[l].approved > 0
  }

  /** A warehouse issue, with the check skipped, on a line approved for nothing. */
  predicate SkipsApproval(db: Db, op: Op) {
    match op
    case OpWarehouseIssue(l, qty, skip) =>
      && skip && l < |db.lines| && db.lines[l].status in {Pending, Approved, Allocated}
      && db.lines[l].approved <= 0 && qty > 0
      && db.lines[l].part in db.stock && qty <= db.stock[db.lines[l].part]
    case _ => false
  }

  lemma IssueOnlyApproved(db: Db, l: Id, qty: int, skip: bool)
    ensures var op := OpWarehouseIssue(l, qty, skip); IssuesApproved(db, Step(db, op)) <==> !SkipsApproval(db, op)
  {
    IssueAccepted(db, l, qty, skip);
    if WarehouseIssue(db, l, qty, skip).Some? {
      var b := WarehouseIssue(db, l, qty, skip).value;
      IssueIs(db, l, qty, skip);
      assert b.lines[l].issued > db.lines[l].issued;
    }
  }

  lemma StepIssuesApproved(db: Db, op: Op)
    requires LinesOk(db)
    ensures IssuesApproved(db, Step(db, op)) <==> !SkipsApproval(db, op)
  {
    match op
    case OpWarehouseIssue(l, qty, skip) => IssueOnlyApproved(db, l, qty, skip);
    case OpRequest(wo, closed, p, qty) => RequestIssuesNothing(db, wo, closed, p, qty);
    case OpRaise(wo, p) => RaiseIssuesNothing(db, wo, p);
    case OpDirectIssue(_, _, _, _) =>
    case OpReceive(_, _) =>
    case OpConsume(_, _, _, _) =>
    case OpIssueTools(_, _, _) =>
    case OpCancel(l, reason) =>
    case _ => StepKeepsIssues(db, op);
  }

  lemma RequestIssuesNothing(db: Db, wo: Id, closed: bool, p: Id, qty: int)
    ensures IssuesApproved(db, Or(RequestPart(db, wo, closed, p, qty), db))
  {
  }

  lemma RaiseIssuesNothing(db: Db, wo: Id, p: Id)
    ensures IssuesApproved(db, Or(RaiseShortage(db, wo, p), db))
  {
  }

  ghost predicate AlwaysIssuesApproved(db: Db, ops: seq<Op>)
    decreases |ops|
  {
    ops == [] || (IssuesApproved(db, Step(db, ops[0])) && AlwaysIssuesApproved(Step(db, ops[0]), ops[1..]))
  }

  predicate NeverSkipsApproval(db: Db, ops: seq<Op>)
    decreases |ops|
  {
    ops == [] || (!SkipsApproval(db, ops[0]) && NeverSkipsApproval(Step(db, ops[0]), ops[1..]))
  }

  /** Over every run no step issues on a line approved for nothing, if and only if no warehouse issue
      skips the check on one; so never in a run that skips no check. */
  lemma {:induction false} OnlyApprovedIsIssued(db: Db, ops: seq<Op>)
    requires LinesOk(db)
    ensures AlwaysIssuesApproved(db, ops) <==> NeverSkipsApproval(db, ops)
    ensures (forall i :: 0 <= i < |ops| && ops[i].OpWarehouseIssue? ==> !ops[i].skipApproval) ==>
      AlwaysIssuesApproved(db, ops)
    decreases |ops|
  {
    if ops != [] {
      StepIssuesApproved(db, ops[0]);
      StepIssues(db, ops[0]);
      OnlyApprovedIsIssued(Step(db, ops[0]), ops[1..]);
    }
  }
}
