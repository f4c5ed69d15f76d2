/** What every run keeps about part lines and shortage reports: their unique constraints, their
    lifecycles, and the books of a manager's decision. */
module ShortageLaws {
  import opened Basics
  import opened Records
  import opened StockOperations
  import opened ReservationLaws

  // ----- invariants -----

  /** A pending report has no decision; a decision balances against the report's request. */
  ghost predicate ReportBooks(rep: Report) {
    && (rep.status == PendingReview ==> rep.decision == None)
    && (rep.decision.Some? ==> Balanced(rep.decision.value, rep.requested))
  }

  ghost predicate Books(db: Db) {
    forall r :: 0 <= r < |db.reports| ==> ReportBooks(db.reports[r])
  }

  /** At most one PENDING report per work order and part. */
  ghost predicate OnePendingReport(db: Db) {
    forall i, j | 0 <= i < j < |db.reports|
                  && db.reports[i].status == PendingReview && db.reports[j].status == PendingReview ::
      (db.reports[i].wo, db.reports[i].part) != (db.reports[j].wo, db.reports[j].part)
  }

  /** At most one open line per work order and part. */
  ghost predicate OneOpenLine(db: Db) {
    forall i, j | 0 <= i < j < |db.lines| && db.lines[i].Open() && db.lines[j].Open() ::
      (db.lines[i].wo, db.lines[i].part) != (db.lines[j].wo, db.lines[j].part)
  }

  // ----- one step of a report and of a line -----

  ghost predicate ReportFollows(a: Report, b: Report) {
    && b.wo == a.wo && b.part == a.part
    && (b.status == a.status || b.status in NextReport(a.status))
    && (a.status != PendingReview ==> b.requested == a.requested && a.issued <= b.issued)
    && (Locked(a.status) ==> b.decision == a.decision)
    && (a.decision.Some? ==> b.decision.Some? && b.decision.value.kind == a.decision.value.kind)
  }

  ghost predicate ReportsFollow(a: Db, b: Db) {
    |a.reports| <= |b.reports| && forall r :: 0 <= r < |a.reports| ==> ReportFollows(a.reports[r], b.reports[r])
  }

  /** A line keeps its order, part, request and report; `allocated_qty` never falls; a line that
      is issued or rejected stays so. */
  ghost predicate LineFollows(a: Line, b: Line) {
    && b.wo == a.wo && b.part == a.part && b.requested == a.requested
    && (a.report.Some? ==> b.report == a.report)
    && a.allotted <= b.allotted
    && (!a.Open() ==> b.status == a.status)
  }

  ghost predicate LinesFollow(a: Db, b: Db) {
    |a.lines| <= |b.lines| && forall l :: 0 <= l < |a.lines| ==> LineFollows(a.lines[l], b.lines[l])
  }

  lemma LinesChain(a: Db, b: Db, c: Db)
    requires LinesFollow(a, b) && LinesFollow(b, c)
    ensures LinesFollow(a, c)
  {
    forall l | 0 <= l < |a.lines| ensures LineFollows(a.lines[l], c.lines[l]) {
      assert LineFollows(a.lines[l], b.lines[l]) && LineFollows(b.lines[l], c.lines[l]);
    }
  }

  // ----- reports -----

  /** Allocation leaves reports, stock, movements and tools alone. */
  lemma {:induction false} AllocationScope(db: Db, ids: seq<Id>)
    ensures var b := AllocateAll(db, ids);
      && b.reports == db.reports && b.stock == db.stock && b.log == db.log && b.tools == db.tools
      && |b.lines| == |db.lines|
      && LinesFollow(db, b)
    decreases |ids|
  {
    if ids != [] {
      var next := Or(AllocateOne(db, ids[0]), db);
      AllocationScope(next, ids[1..]);
      LinesChain(db, next, AllocateAll(db, ids));
    }
  }

  ghost predicate ReportsKept(a: Db, b: Db) {
    ReportsFollow(a, b) && Books(b) && OnePendingReport(b)
  }

  /** Every step moves each report along the transition table and keeps the books. */
  lemma StepReports(db: Db, op: Op)
    requires Books(db) && OnePendingReport(db)
    ensures ReportsKept(db, Step(db, op))
  {
    match op
    case OpReallocate(p) =>
      AllocationScope(db, Queue(db, p));
      SameReportsKept(db, Step(db, op));
    case OpRequest(w, closed, p, q) => RequestReports(db, w, closed, p, q);
    case OpRaise(w, p) => RaiseReports(db, w, p);
    case OpWarehouseIssue(l, q, skip) => IssueReports(db, l, q, skip);
    case _ =>
      if Manages(op) {
        ManagedReports(db, op);
      } else {
        OtherReports(db, op);
        SameReportsKept(db, Step(db, op));
      }
  }

  lemma ManagedReports(db: Db, op: Op)
    requires Books(db) && OnePendingReport(db) && Manages(op)
    ensures ReportsKept(db, Step(db, op))
  {
    match op
    case OpDecide(r, d) => DecideReports(db, r, d);
    case OpEditDecision(r, i, pr, rj) => EditReports(db, r, i, pr, rj);
    case OpMoveReport(r, to) => MoveReports(db, r, to);
    case OpMarkFulfilled(r) => MarkReports(db, r);
  }

  lemma SameReportsKept(a: Db, b: Db)
    requires Books(a) && OnePendingReport(a) && b.reports == a.reports
    ensures ReportsKept(a, b)
  {
  }

  lemma MarkReports(db: Db, r: Id)
    requires Books(db) && OnePendingReport(db)
    ensures ReportsKept(db, Or(MarkFulfilled(db, r), db))
  {
    SameReportsKept(db, db);
    MoveReports(db, r, Fulfilled);
  }

  lemma OtherReports(db: Db, op: Op)
    requires !op.OpReallocate? && !op.OpRequest? && !op.OpRaise? && !op.OpDecide? && !op.OpEditDecision?
    requires !op.OpMoveReport? && !op.OpMarkFulfilled? && !op.OpWarehouseIssue?
    ensures Step(db, op).reports == db.reports
  {
  }

  lemma PutReportKept(db: Db, b: Db, r: Id, report: Report)
    requires Books(db) && OnePendingReport(db) && r < |db.reports|
    requires b.reports == db.reports[r := report]
    requires ReportFollows(db.reports[r], report) && ReportBooks(report)
    requires report.status == PendingReview ==> db.reports[r].status == PendingReview
    ensures ReportsKept(db, b)
  {
  }

  lemma MoveReports(db: Db, r: Id, to: ReportStatus)
    requires Books(db) && OnePendingReport(db)
    ensures ReportsKept(db, Or(MoveReport(db, r, to), db))
  {
    if MoveReport(db, r, to).Some? {
      PutReportKept(db, MoveReport(db, r, to).value, r, db.reports[r].(status := to));
    }
  }

  lemma IssueReports(db: Db, l: Id, qty: int, skip: bool)
    requires Books(db) && OnePendingReport(db)
    ensures ReportsKept(db, Or(WarehouseIssue(db, l, qty, skip), db))
  {
    if Issuable(db, l, qty, skip) {
      var line, b := db.lines[l], Issue(db, l, qty);
      if line.report.Some? && line.report.value < |db.reports| {
        PutReportKept(db, b, line.report.value, b.reports[line.report.value]);
      }
    }
  }

  /** A new pending report where there is none yet. */
  lemma AddReportKept(db: Db, b: Db, report: Report)
    requires Books(db) && OnePendingReport(db) && b.reports == db.reports + [report]
    requires report.status == PendingReview && report.decision == None
    requires PendingReport(db.reports, report.wo, report.part) == None
    ensures ReportsKept(db, b)
  {
    forall i | 0 <= i < |db.reports| && db.reports[i].status == PendingReview
      ensures (db.reports[i].wo, db.reports[i].part) != (report.wo, report.part)
    {
      assert !IsPending(db.reports[i], report.wo, report.part);
    }
  }

  lemma RequestReports(db: Db, wo: Id, closed: bool, p: Id, qty: int)
    requires Books(db) && OnePendingReport(db)
    ensures ReportsKept(db, Or(RequestPart(db, wo, closed, p, qty), db))
  {
    var b := Or(RequestPart(db, wo, closed, p, qty), db);
    if b.reports != db.reports {
      AddReportKept(db, b, Report(wo, p, qty, 0, PendingReview, None));
    } else {
      SameReportsKept(db, b);
    }
  }

  lemma RaiseReports(db: Db, wo: Id, p: Id)
    requires Books(db) && OnePendingReport(db)
    ensures ReportsKept(db, Or(RaiseShortage(db, wo, p), db))
  {
    var b := Or(RaiseShortage(db, wo, p), db);
    var r := PendingReport(db.reports, wo, p);
    if b == db {
      SameReportsKept(db, b);
    } else if r == None {
      AddReportKept(db, b, b.reports[|db.reports|]);
    } else {
      PutReportKept(db, b, r.value, b.reports[r.value]);
    }
  }

  lemma DecideReports(db: Db, r: Id, d: Decision)
    requires Books(db) && OnePendingReport(db)
    ensures ReportsKept(db, Or(Decide(db, r, d), db))
  {
    if Decide(db, r, d).Some? {
      var b := Decide(db, r, d).value;
      PutReportKept(db, b, r, b.reports[r]);
    }
  }

  lemma EditReports(db: Db, r: Id, issue: int, procure: int, reject: int)
    requires Books(db) && OnePendingReport(db)
    ensures ReportsKept(db, Or(EditDecision(db, r, issue, procure, reject), db))
  {
    if EditDecision(db, r, issue, procure, reject).Some? {
      var b := EditDecision(db, r, issue, procure, reject).value;
      PutReportKept(db, b, r, b.reports[r]);
    }
  }

  // ----- runs -----

  /** What a later state says about a report that has left PENDING_REVIEW. */
  ghost predicate ReportLater(a: Report, b: Report) {
    && b.wo == a.wo && b.part == a.part
    && (a.status != PendingReview ==>
          b.status != PendingReview && b.requested == a.requested && a.issued <= b.issued)
    && (Locked(a.status) ==> Locked(b.status) && b.decision == a.decision)
    && (a.status == Fulfilled ==> b.status == Fulfilled || b.status == Closed)
    && (a.status == Closed || a.status == Refused ==> b.status == a.status)
  }

  /** In every state of every run the books balance and the constraint on pending reports holds;
      a locked decision is frozen for ever and a final status is final. */
  lemma {:induction false} DecisionBooksOverRuns(db: Db, ops: seq<Op>)
    requires Books(db) && OnePendingReport(db)
    ensures var b := Run(db, ops);
      && Books(b) && OnePendingReport(b)
      && |db.reports| <= |b.reports|
      && forall r :: 0 <= r < |db.reports| ==> ReportLater(db.reports[r], b.reports[r])
    decreases |ops|
  {
    if ops != [] {
      var next := Step(db, ops[0]);
      StepReports(db, ops[0]);
      DecisionBooksOverRuns(next, ops[1..]);
      forall r | 0 <= r < |db.reports| ensures ReportLater(db.reports[r], Run(db, ops).reports[r]) {
        assert ReportFollows(db.reports[r], next.reports[r]);
        assert ReportLater(next.reports[r], Run(next, ops[1..]).reports[r]);
      }
    }
  }

  /** A report marked fulfilled through `mark_shortage_fulfilled` has issued at least its approved
      quantity, then and after any further run. */
  lemma FulfilledForever(db: Db, r: Id, ops: seq<Op>)
    requires Books(db) && OnePendingReport(db)
    requires MarkFulfilled(db, r).Some?
    ensures var b := Run(Step(db, OpMarkFulfilled(r)), ops);
      && r < |b.reports|
      && (b.reports[r].status == Fulfilled || b.reports[r].status == Closed)
      && b.reports[r].decision == db.reports[r].decision
      && b.reports[r].decision.Some?
      && b.reports[r].issued >= b.reports[r].decision.value.issue
  {
    var marked := Step(db, OpMarkFulfilled(r));
    StepReports(db, OpMarkFulfilled(r));
    DecisionBooksOverRuns(marked, ops);
    assert ReportLater(marked.reports[r], Run(marked, ops).reports[r]);
  }

  // ----- when fulfilled means issued -----

  /** A report has a decision and has issued at least its approved quantity. */
  predicate IssuedEnough(rep: Report) {
    rep.decision.Some? && rep.decision.value.issue <= rep.issued
  }

  ghost predicate FulfilledIssued(db: Db) {
    forall r :: 0 <= r < |db.reports| && db.reports[r].status == Fulfilled ==> IssuedEnough(db.reports[r])
  }

  /** A bare transition to FULFILLED of a report in fulfilment that has not issued enough. */
  predicate FulfilsUnissued(db: Db, op: Op) {
    op.OpMoveReport? && op.to == Fulfilled && op.report < |db.reports|
    && db.reports[op.report].status == InFulfillment && !IssuedEnough(db.reports[op.report])
  }

  /** The statuses in which nothing is waited for any more. */
  predicate Ended(s: ReportStatus) { s == Fulfilled || s == Closed || s == Refused }

  /** Every ended report of `b`, but perhaps report `except`, had ended the same way in `a`. */
  ghost predicate EndsNothing(a: Db, b: Db, except: Option<Id>) {
    forall r :: 0 <= r < |b.reports| && except != Some(r) && Ended(b.reports[r].status) ==>
      r < |a.reports| && a.reports[r].status == b.reports[r].status
  }

  lemma DecideEndsOne(db: Db, r: Id, d: Decision)
    ensures var b := Or(Decide(db, r, d), db);
      && EndsNothing(db, b, Some(r))
      && (r < |b.reports| && b.reports[r].status == Fulfilled ==> db.reports[r].status == Fulfilled)
  {
    if Decide(db, r, d).Some? {
      var b := Decide(db, r, d).value;
      assert b.reports == db.reports[r := b.reports[r]];
    }
  }

  lemma EditEndsNothing(db: Db, r: Id, issue: int, procure: int, reject: int)
    ensures EndsNothing(db, Or(EditDecision(db, r, issue, procure, reject), db), None)
  {
    if EditDecision(db, r, issue, procure, reject).Some? {
      var b := EditDecision(db, r, issue, procure, reject).value;
      assert b.reports == db.reports[r := b.reports[r]];
    }
  }

  lemma RaiseEndsNothing(db: Db, wo: Id, p: Id)
    ensures EndsNothing(db, Or(RaiseShortage(db, wo, p), db), None)
  {
  }

  lemma IssueEndsNothing(db: Db, l: Id, qty: int, skip: bool)
    ensures EndsNothing(db, Or(WarehouseIssue(db, l, qty, skip), db), None)
  {
  }

  lemma RequestEndsNothing(db: Db, wo: Id, closed: bool, p: Id, qty: int)
    ensures EndsNothing(db, Or(RequestPart(db, wo, closed, p, qty), db), None)
  {
  }

  lemma OthersEndNothing(db: Db, op: Op)
    requires !op.OpMoveReport? && !op.OpMarkFulfilled? && !op.OpDecide?
    ensures EndsNothing(db, Step(db, op), None)
  {
    match op
    case OpReallocate(p) => AllocationScope(db, Queue(db, p));
    case OpRequest(w, closed, p, q) => RequestEndsNothing(db, w, closed, p, q);
    case OpRaise(w, p) => RaiseEndsNothing(db, w, p);
    case OpEditDecision(r, i, pr, rj) => EditEndsNothing(db, r, i, pr, rj);
    case OpWarehouseIssue(l, q, skip) => IssueEndsNothing(db, l, q, skip);
    case _ => OtherReports(db, op);
  }

  /** A fulfilled report keeps its decision and does not lose issued quantity. */
  lemma FulfilledStaysIssued(a: Report, b: Report)
    requires ReportFollows(a, b) && a.status == Fulfilled && IssuedEnough(a)
    ensures IssuedEnough(b)
  {
  }

  /** One step of any operation keeps every fulfilled report issued if and only if it is not a
      bare transition that fulfils an unissued one. */
  lemma StepFulfils(db: Db, op: Op)
    requires Books(db) && OnePendingReport(db) && FulfilledIssued(db)
    ensures FulfilledIssued(Step(db, op)) <==> !FulfilsUnissued(db, op)
  {
    var b := Step(db, op);
    StepReports(db, op);
    if op.OpMoveReport? || op.OpMarkFulfilled? {
      if FulfilsUnissued(db, op) {
        assert b.reports[op.report].status == Fulfilled;
      }
    } else {
      if op.OpDecide? {
        DecideEndsOne(db, op.report, op.decision);
      } else {
        OthersEndNothing(db, op);
      }
      forall r | 0 <= r < |b.reports| && b.reports[r].status == Fulfilled
        ensures IssuedEnough(b.reports[r])
      {
        FulfilledStaysIssued(db.reports[r], b.reports[r]);
      }
    }
  }

  ghost predicate AlwaysFulfilledIssued(db: Db, ops: seq<Op>)
    decreases |ops|
  {
    FulfilledIssued(db) && (ops == [] || AlwaysFulfilledIssued(Step(db, ops[0]), ops[1..]))
  }

  predicate NeverFulfilsUnissued(db: Db, ops: seq<Op>)
    decreases |ops|
  {
    ops == [] || (!FulfilsUnissued(db, ops[0]) && NeverFulfilsUnissued(Step(db, ops[0]), ops[1..]))
  }

  /** Over any run: in every state every fulfilled report has issued its approved quantity if and
      only if no bare transition fulfilled an unissued one. */
  lemma {:induction false} FulfilledMeansIssued(db: Db, ops: seq<Op>)
    requires Books(db) && OnePendingReport(db) && FulfilledIssued(db)
    ensures AlwaysFulfilledIssued(db, ops) <==> NeverFulfilsUnissued(db, ops)
    decreases |ops|
  {
    if ops != [] {
      StepFulfils(db, ops[0]);
      StepReports(db, ops[0]);
      if !FulfilsUnissued(db, ops[0]) {
        FulfilledMeansIssued(Step(db, ops[0]), ops[1..]);
      }
    }
  }

  /** A run that does it, as a partial receipt does: five are requested and approved, three are
      received and issued, and the report is moved to FULFILLED; the guarded service refuses. */
  lemma TransitionAloneMayFulfilUnissued()
    ensures var db := Run(Empty({}), IssuedInPart());
      && MarkFulfilled(db, 0) == None && FulfilsUnissued(db, OpMoveReport(0, Fulfilled))
      && !FulfilledIssued(Step(db, OpMoveReport(0, Fulfilled)))
  {
    var db := Run(Empty({}), IssuedInPart());
    IssuedInPartIs();
    assert Step(db, OpMoveReport(0, Fulfilled)).reports[0].status == Fulfilled;
  }

  function IssuedInPart(): seq<Op> {
    [OpRequest(0, false, 7, 5), OpDecide(0, Decision(Approve, 5, 0, 0)), OpReceive(7, 3), OpWarehouseIssue(0, 3, false)]
  }

  function FirstShort(): Db {
    Empty({}).(lines := [Line(0, 7, 5, 5, 0, 0, 0, 5, Pending, Some(0))],
               reports := [Report(0, 7, 5, 0, PendingReview, None)])
  }

  lemma IssuedInPartIs()
    ensures Run(Empty({}), IssuedInPart()).reports
         == [Report(0, 7, 5, 3, InFulfillment, Some(Decision(Approve, 5, 0, 0)))]
  {
    FirstRequest();
    RunFour(Empty({}), IssuedInPart());
    ApprovedThenIssuedInPart(FirstShort(), Decision(Approve, 5, 0, 0));
  }

  /** A pending report on a part without stock: approved, then three units come in and go out. */
  lemma ApprovedThenIssuedInPart(db: Db, d: Decision)
    requires NoStockYet(db, d) && db.stock == map[] && db.lines[0].part == 7 && db.lines[0].issued == 0 && d.issue > 0
    ensures Step(Step(Step(db, OpDecide(0, d)), OpReceive(7, 3)), OpWarehouseIssue(0, 3, false)).reports
         == [db.reports[0].(issued := db.reports[0].issued + 3, status := InFulfillment, decision := Some(d))]
  {
    NoStockDecide(db, d);
    PartIssued(Step(db, OpDecide(0, d)));
  }

  lemma FirstRequest()
    ensures Step(Empty({}), OpRequest(0, false, 7, 5)) == FirstShort()
  {
  }

  /** One pending report and its line, of a part without stock, and a decision to approve it. */
  predicate NoStockYet(db: Db, d: Decision) {
    && |db.reports| == 1 && |db.lines| == 1 && db.lines[0].part !in db.stock
    && db.reports[0].status == PendingReview && db.reports[0].decision == None
    && db.lines[0].report == Some(0) && db.lines[0].status == Pending
    && d.kind == Approve && Balanced(d, db.reports[0].requested)
  }

  /** Approving report 0 for stock that does not exist allocates nothing and is recorded. */
  lemma NoStockDecide(db: Db, d: Decision)
    requires NoStockYet(db, d)
    ensures var b := Step(db, OpDecide(0, d));
      && b.reports == [db.reports[0].(status := Decided, decision := Some(d))]
      && b.lines == [db.lines[0].(status := Approved, approved := d.issue, shortage := d.procure)]
      && b.stock == db.stock
  {
  }

  /** Three units come in and go out to a line whose report is approved. */
  lemma PartIssued(db: Db)
    requires |db.reports| == 1 && |db.lines| == 1 && db.stock == map[] && db.reports[0].status == Decided
    requires db.lines[0].status == Approved && db.lines[0].approved > 0 && db.lines[0].part == 7
    requires db.lines[0].issued == 0 && db.lines[0].report == Some(0)
    ensures Step(Step(db, OpReceive(7, 3)), OpWarehouseIssue(0, 3, false)).reports
         == [db.reports[0].(issued := db.reports[0].issued + 3, status := InFulfillment)]
  {
    var one := Step(db, OpReceive(7, 3));
    assert Issuable(one, 0, 3, false);
    assert Step(one, OpWarehouseIssue(0, 3, false)).reports == NoteIssue(one.reports, one.lines[0], 3);
  }

  // ----- lines -----

  lemma PutLineFollows(db: Db, l: Id, line: Line)
    requires l < |db.lines| && LineFollows(db.lines[l], line)
    ensures LinesFollow(db, PutLine(db, l, line))
  {
  }

  lemma AdjustLines(db: Db, l: Option<Id>, p: Id, wo: Id, delta: int, issue: int)
    requires l.Some? ==> l.value < |db.lines|
    ensures LinesFollow(db, Or(AdjustReservation(db, l, p, wo, delta, issue), db))
    ensures |Or(AdjustReservation(db, l, p, wo, delta, issue), db).lines| == |db.lines|
  {
  }

  /** Only a request and a direct issue add a line, and only where no open line is. */
  ghost predicate LineStep(a: Db, b: Db) {
    && LinesFollow(a, b)
    && |b.lines| <= |a.lines| + 1
    && (|b.lines| > |a.lines| ==> var line := b.lines[|a.lines|]; !HasOpenLine(a.lines, line.wo, line.part))
  }

  lemma DecideLines(db: Db, r: Id, d: Decision)
    ensures LineStep(db, Or(Decide(db, r, d), db))
  {
    if Decide(db, r, d).Some? && d.kind == Approve {
      var b := Decide(db, r, d).value;
      var l := LineOf(db.lines, r);
      var decided := db.(reports := b.reports);
      var mid := if d.issue > 0 then Or(ApproveAndAllocate(decided, l, d.issue), decided) else decided;
      GrantLines(decided, l, d.issue);
      if l.Some? && mid.lines[l.value].status == Pending {
        PutLineFollows(mid, l.value, b.lines[l.value]);
        LinesChain(db, mid, b);
      }
    }
  }

  lemma GrantLines(db: Db, l: Option<Id>, approved: int)
    requires l.Some? ==> l.value < |db.lines|
    ensures var b := Or(ApproveAndAllocate(db, l, approved), db);
      LinesFollow(db, b) && |b.lines| == |db.lines|
  {
  }

  lemma EditLines(db: Db, r: Id, issue: int, procure: int, reject: int)
    ensures LineStep(db, Or(EditDecision(db, r, issue, procure, reject), db))
  {
    if EditDecision(db, r, issue, procure, reject).Some? {
      var report := db.reports[r];
      var d := report.decision.value.(issue := issue, procure := procure, reject := reject);
      var edited := PutReport(db, r, report.(decision := Some(d)));
      AdjustLines(edited, LineOf(db.lines, r), report.part, report.wo, issue - report.decision.value.issue, issue);
    }
  }

  lemma RaiseLines(db: Db, wo: Id, p: Id)
    ensures LineStep(db, Or(RaiseShortage(db, wo, p), db))
  {
  }

  lemma ApproveLines(db: Db, l: Id, auto: bool)
    ensures LineStep(db, Or(ApprovePart(db, l, auto), db))
  {
  }

  /** Operations on stock, reservations and reports leave the lines alone. */
  predicate SparesLines(op: Op) {
    op.OpReceive? || op.OpReserve? || op.OpRelease? || op.OpMoveReport? || op.OpMarkFulfilled?
    || op.OpConsume? || op.OpIssueTools? || op.OpReleaseStale?
  }

  lemma SparedLines(db: Db, op: Op)
    requires SparesLines(op)
    ensures Step(db, op).lines == db.lines
  {
  }

  lemma AddedLines(db: Db, op: Op)
    requires op.OpRequest? || op.OpDirectIssue?
    ensures LineStep(db, Step(db, op))
  {
  }

  lemma EditedLines(db: Db, op: Op)
    requires op.OpReject? || op.OpCancel? || op.OpEditQuantity? || op.OpWarehouseIssue? || op.OpAllocate?
    ensures LineStep(db, Step(db, op))
  {
  }

  lemma StepLines(db: Db, op: Op)
    ensures LineStep(db, Step(db, op))
  {
    if SparesLines(op) {
      SparedLines(db, op);
    } else {
      match op
      case OpReallocate(p) => AllocationScope(db, Queue(db, p));
      case OpDecide(r, d) => DecideLines(db, r, d);
      case OpEditDecision(r, i, pr, rj) => EditLines(db, r, i, pr, rj);
      case OpRaise(w, p) => RaiseLines(db, w, p);
      case OpApprove(l, auto) => ApproveLines(db, l, auto);
      case OpRequest(_, _, _, _) => AddedLines(db, op);
      case OpDirectIssue(_, _, _, _) => AddedLines(db, op);
      case _ => EditedLines(db, op);
    }
  }

  lemma LineStepKeepsConstraint(a: Db, b: Db)
    requires LineStep(a, b) && OneOpenLine(a)
    ensures OneOpenLine(b)
  {
    forall i, j | 0 <= i < j < |b.lines| && b.lines[i].Open() && b.lines[j].Open()
      ensures (b.lines[i].wo, b.lines[i].part) != (b.lines[j].wo, b.lines[j].part)
    {
      assert LineFollows(a.lines[i], b.lines[i]);
      assert j < |a.lines| ==> LineFollows(a.lines[j], b.lines[j]);
    }
  }

  lemma {:induction false} LinesFollowOverRuns(db: Db, ops: seq<Op>)
    ensures LinesFollow(db, Run(db, ops))
    decreases |ops|
  {
    if ops != [] {
      StepLines(db, ops[0]);
      LinesFollowOverRuns(Step(db, ops[0]), ops[1..]);
      LinesChain(db, Step(db, ops[0]), Run(db, ops));
    }
  }

  /** Over any run there is at most one open line per work order and part, `allocated_qty` never
      falls, and an issued or rejected line stays so. */
  lemma {:induction false} LinesOverRuns(db: Db, ops: seq<Op>)
    requires OneOpenLine(db)
    ensures OneOpenLine(Run(db, ops)) && LinesFollow(db, Run(db, ops))
    decreases |ops|
  {
    LinesFollowOverRuns(db, ops);
    if ops != [] {
      StepLines(db, ops[0]);
      LineStepKeepsConstraint(db, Step(db, ops[0]));
      LinesOverRuns(Step(db, ops[0]), ops[1..]);
    }
  }
}
