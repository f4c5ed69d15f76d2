/** Issued quantities agree wherever they are kept: on the part lines, in the movement log and on
    the shortage reports. */
module IssueLaws {
  import opened Basics
  import opened Records
  import opened StockOperations

  /** Total issued on the lines chosen by `pick`. */
  function Issues(lines: seq<Line>, pick: Line -> bool): int {
    if lines == [] then 0 else
    Issues(lines[..|lines| - 1], pick) + if pick(lines[|lines| - 1]) then lines[|lines| - 1].issued else 0
  }

  function OnPart(p: Id): Line -> bool { (x: Line) => x.part == p }

  function OnReport(r: Id): Line -> bool { (x: Line) => x.report == Some(r) }

  /** Total of the issues to work orders of a part in the log. */
  function LoggedIssues(log: seq<Movement>, p: Id): int {
    if log == [] then 0 else
    LoggedIssues(log[..|log| - 1], p) +
    if log[|log| - 1].part == p && log[|log| - 1].kind == IssueToOrder then log[|log| - 1].qty else 0
  }

  /** Pending lines have nothing issued, and a line's report exists. */
  ghost predicate LinesOk(db: Db) {
    forall l :: 0 <= l < |db.lines| ==> var x := db.lines[l];
      x.issued >= 0 && (x.status == Pending ==> x.issued == 0) && (x.report.Some? ==> x.report.value < |db.reports|)
  }

  /** What the lines of a part count as issued beyond what the log has issued. */
  function Unlogged(db: Db, p: Id): int { Issues(db.lines, OnPart(p)) - LoggedIssues(db.log, p) }

  /** Every report counts exactly what was issued on its lines. */
  ghost predicate ReportsCount(db: Db) {
    forall r :: 0 <= r < |db.reports| ==> db.reports[r].issued == Issues(db.lines, OnReport(r))
  }

  // ----- sums -----

  lemma IssuesPush(lines: seq<Line>, x: Line, pick: Line -> bool)
    ensures Issues(lines + [x], pick) == Issues(lines, pick) + if pick(x) then x.issued else 0
  {
    assert (lines + [x])[..|lines|] == lines;
  }

  lemma {:induction false} IssuesUpdate(lines: seq<Line>, l: Id, x: Line, pick: Line -> bool)
    requires l < |lines|
    ensures Issues(lines[l := x], pick) == Issues(lines, pick)
      - (if pick(lines[l]) then lines[l].issued else 0) + (if pick(x) then x.issued else 0)
  {
    var n := |lines| - 1;
    if l == n {
      assert lines[l := x][..n] == lines[..n];
    } else {
      IssuesUpdate(lines[..n], l, x, pick);
      assert lines[l := x][..n] == lines[..n][l := x];
    }
  }

  lemma {:induction false} IssuesSame(a: seq<Line>, b: seq<Line>, pick: Line -> bool)
    requires |a| == |b|
    requires forall l :: 0 <= l < |a| ==> pick(a[l]) == pick(b[l]) && a[l].issued == b[l].issued
    ensures Issues(a, pick) == Issues(b, pick)
  {
    if a != [] {
      IssuesSame(a[..|a| - 1], b[..|b| - 1], pick);
    }
  }

  lemma {:induction false} IssuesNone(lines: seq<Line>, pick: Line -> bool)
    requires forall l :: 0 <= l < |lines| ==> !pick(lines[l])
    ensures Issues(lines, pick) == 0
  {
    if lines != [] {
      IssuesNone(lines[..|lines| - 1], pick);
    }
  }

  lemma LoggedPush(log: seq<Movement>, m: Movement, p: Id)
    ensures LoggedIssues(log + [m], p)
         == LoggedIssues(log, p) + if m.part == p && m.kind == IssueToOrder then m.qty else 0
  {
    assert (log + [m])[..|log|] == log;
  }

  // ----- steps that issue nothing -----

  /** Lines keep their part, report and issued quantity; reports keep their count. */
  ghost predicate IssuesKept(a: Db, b: Db) {
    && |b.lines| == |a.lines| && b.log == a.log && |b.reports| == |a.reports|
    && (forall l :: 0 <= l < |a.lines| ==>
          && b.lines[l].part == a.lines[l].part && b.lines[l].report == a.lines[l].report
          && b.lines[l].issued == a.lines[l].issued
          && (b.lines[l].status == Pending ==> a.lines[l].status == Pending))
    && (forall r :: 0 <= r < |a.reports| ==> b.reports[r].issued == a.reports[r].issued)
  }

  ghost predicate Agrees(a: Db, b: Db) {
    LinesOk(b) && (forall p :: Unlogged(b, p) == Unlogged(a, p)) && (ReportsCount(a) ==> ReportsCount(b))
  }

  lemma KeptAgrees(a: Db, b: Db)
    requires LinesOk(a) && IssuesKept(a, b)
    ensures Agrees(a, b)
    ensures ReportsCount(b) ==> ReportsCount(a)
  {
    forall p ensures Unlogged(b, p) == Unlogged(a, p) {
      IssuesSame(a.lines, b.lines, OnPart(p));
    }
    forall r: Id ensures Issues(a.lines, OnReport(r)) == Issues(b.lines, OnReport(r)) {
      IssuesSame(a.lines, b.lines, OnReport(r));
    }
  }

  lemma {:induction false} WalkKeepsIssues(db: Db, ids: seq<Id>)
    ensures IssuesKept(db, AllocateAll(db, ids))
    decreases |ids|
  {
    if ids != [] {
      WalkKeepsIssues(Or(AllocateOne(db, ids[0]), db), ids[1..]);
    }
  }

  lemma DecideKeepsIssues(db: Db, r: Id, d: Decision)
    ensures IssuesKept(db, Or(Decide(db, r, d), db))
  {
  }

  lemma EditKeepsIssues(db: Db, r: Id, issue: int, procure: int, reject: int)
    ensures IssuesKept(db, Or(EditDecision(db, r, issue, procure, reject), db))
  {
  }

  predicate Issuing(op: Op) {
    op.OpRequest? || op.OpRaise? || op.OpDirectIssue? || op.OpWarehouseIssue?
    || op.OpReceive? || op.OpConsume? || op.OpIssueTools?
  }

  lemma StepKeepsIssues(db: Db, op: Op)
    requires LinesOk(db) && !Issuing(op)
    ensures IssuesKept(db, Step(db, op))
  {
    match op
    case OpReallocate(p) => WalkKeepsIssues(db, Queue(db, p));
    case OpDecide(r, d) => DecideKeepsIssues(db, r, d);
    case OpEditDecision(r, i, pr, rj) => EditKeepsIssues(db, r, i, pr, rj);
    case OpApprove(l, auto) => ApproveKeepsIssues(db, l, auto);
    case OpMoveReport(r, to) => MoveKeepsIssues(db, r, to);
    case OpMarkFulfilled(r) => MoveKeepsIssues(db, r, Fulfilled);
    case _ => OthersKeepIssues(db, op);
  }

  lemma ApproveKeepsIssues(db: Db, l: Id, auto: bool)
    ensures IssuesKept(db, Or(ApprovePart(db, l, auto), db))
  {
  }

  lemma MoveKeepsIssues(db: Db, r: Id, to: ReportStatus)
    ensures IssuesKept(db, Or(MoveReport(db, r, to), db))
  {
  }

  lemma OthersKeepIssues(db: Db, op: Op)
    requires LinesOk(db)
    requires op.OpReject? || op.OpCancel? || op.OpEditQuantity? || op.OpReserve? || op.OpRelease?
          || op.OpAllocate? || op.OpReleaseStale?
    ensures IssuesKept(db, Step(db, op))
  {
  }

  // ----- steps that add a line, a movement or an issue -----

  lemma RequestAgrees(db: Db, wo: Id, closed: bool, p: Id, qty: int)
    requires LinesOk(db)
    ensures Agrees(db, Or(RequestPart(db, wo, closed, p, qty), db))
  {
    var b := Or(RequestPart(db, wo, closed, p, qty), db);
    if b != db {
      var x := b.lines[|db.lines|];
      forall q ensures Unlogged(b, q) == Unlogged(db, q) {
        IssuesPush(db.lines, x, OnPart(q));
      }
      forall r: Id ensures Issues(b.lines, OnReport(r)) == Issues(db.lines, OnReport(r)) {
        IssuesPush(db.lines, x, OnReport(r));
      }
      IssuesNone(db.lines, OnReport(|db.reports|));
    }
  }

  lemma MoveAgrees(db: Db, op: Op)
    requires LinesOk(db) && (op.OpReceive? || op.OpConsume? || op.OpIssueTools?)
    ensures Agrees(db, Step(db, op))
  {
    var b := Step(db, op);
    if b.log != db.log {
      forall q ensures Unlogged(b, q) == Unlogged(db, q) {
        LoggedPush(db.log, b.log[|db.log|], q);
      }
    } else {
      KeptAgrees(db, db);
    }
  }

  lemma DirectIssueAgrees(db: Db, wo: Id, closed: bool, p: Id, qty: int)
    requires LinesOk(db)
    ensures Agrees(db, Or(DirectIssue(db, wo, closed, p, qty), db))
  {
    var b := Or(DirectIssue(db, wo, closed, p, qty), db);
    if DirectIssue(db, wo, closed, p, qty).Some? {
      var x, m := b.lines[|db.lines|], b.log[|db.log|];
      forall q ensures Unlogged(b, q) == Unlogged(db, q) {
        IssuesPush(db.lines, x, OnPart(q));
        LoggedPush(db.log, m, q);
      }
      forall r: Id ensures Issues(b.lines, OnReport(r)) == Issues(db.lines, OnReport(r)) {
        IssuesPush(db.lines, x, OnReport(r));
      }
    }
  }

  lemma WarehouseIssueAgrees(db: Db, l: Id, qty: int, skip: bool)
    requires LinesOk(db)
    ensures Agrees(db, Or(WarehouseIssue(db, l, qty, skip), db))
  {
    if Issuable(db, l, qty, skip) {
      IssueAgrees(db, Issue(db, l, qty), l, qty);
    } else {
      KeptAgrees(db, db);
    }
  }

  /** A state in which line `l` has `qty` more issued, logged and counted on its report. */
  lemma IssueAgrees(db: Db, b: Db, l: Id, qty: int)
    requires LinesOk(db) && l < |db.lines| && qty > 0
    requires b.lines == db.lines[l := db.lines[l].(issued := db.lines[l].issued + qty, status := Issued)]
    requires exists before, after :: b.log == db.log + [Movement(db.lines[l].part, IssueToOrder, qty, before, after)]
    requires b.reports == NoteIssue(db.reports, db.lines[l], qty)
    ensures Agrees(db, b)
  {
    var x := b.lines[l];
    forall q ensures Unlogged(b, q) == Unlogged(db, q) {
      IssuesUpdate(db.lines, l, x, OnPart(q));
      LoggedPush(db.log, b.log[|db.log|], q);
    }
    forall r: Id
      ensures Issues(b.lines, OnReport(r)) == Issues(db.lines, OnReport(r)) + if x.report == Some(r) then qty else 0
    {
      IssuesUpdate(db.lines, l, x, OnReport(r));
    }
  }

  /** Raising a shortage again resets the count of its pending report; that is right exactly when
      nothing has been issued on the report's lines yet. */
  predicate KeepsCounts(db: Db, op: Op) {
    match op
    case OpRaise(w, p) =>
      var r := PendingReport(db.reports, w, p);
      r.Some? ==> Issues(db.lines, OnReport(r.value)) == 0
    case _ => true
  }

  /** A raise changes no issued quantity and no line's report but the one it links. */
  lemma RaiseSums(db: Db, wo: Id, p: Id)
    requires LinesOk(db)
    ensures var b := Or(RaiseShortage(db, wo, p), db);
      && LinesOk(b) && (forall q :: Unlogged(b, q) == Unlogged(db, q))
      && (forall r: Id :: Issues(b.lines, OnReport(r)) == Issues(db.lines, OnReport(r)))
  {
    var b := Or(RaiseShortage(db, wo, p), db);
    var l := PendingLine(db.lines, wo, p);
    forall q ensures Unlogged(b, q) == Unlogged(db, q) {
      if b.lines != db.lines { IssuesUpdate(db.lines, l.value, b.lines[l.value], OnPart(q)); }
    }
    forall r: Id ensures Issues(b.lines, OnReport(r)) == Issues(db.lines, OnReport(r)) {
      if b.lines != db.lines { IssuesUpdate(db.lines, l.value, b.lines[l.value], OnReport(r)); }
    }
  }

  lemma RaiseCounts(db: Db, wo: Id, p: Id)
    requires LinesOk(db) && ReportsCount(db)
    ensures ReportsCount(Or(RaiseShortage(db, wo, p), db)) <==> KeepsCounts(db, OpRaise(wo, p))
  {
    var b := Or(RaiseShortage(db, wo, p), db);
    RaiseSums(db, wo, p);
    IssuesNone(db.lines, OnReport(|db.reports|));
    var k := PendingReport(db.reports, wo, p);
    if k.Some? {
      assert b.reports[k.value].issued == 0;
    }
  }

  /** One step: what the lines of a part count as issued moves exactly with the log, and the
      reports keep counting their lines except where a raise resets them. */
  lemma StepIssues(db: Db, op: Op)
    requires LinesOk(db)
    ensures LinesOk(Step(db, op)) && forall p :: Unlogged(Step(db, op), p) == Unlogged(db, p)
    ensures ReportsCount(db) ==> (ReportsCount(Step(db, op)) <==> KeepsCounts(db, op))
  {
    match op
    case OpRequest(w, closed, p, q) => RequestAgrees(db, w, closed, p, q);
    case OpRaise(w, p) => RaiseIssues(db, w, p);
    case OpDirectIssue(w, closed, p, q) => DirectIssueAgrees(db, w, closed, p, q);
    case OpWarehouseIssue(l, q, skip) => WarehouseIssueAgrees(db, l, q, skip);
    case _ =>
      if Issuing(op) {
        MoveAgrees(db, op);
      } else {
        StepKeepsIssues(db, op);
        KeptAgrees(db, Step(db, op));
      }
  }

  lemma RaiseIssues(db: Db, wo: Id, p: Id)
    requires LinesOk(db)
    ensures var b := Step(db, OpRaise(wo, p));
      LinesOk(b) && (forall q :: Unlogged(b, q) == Unlogged(db, q))
      && (ReportsCount(db) ==> (ReportsCount(b) <==> KeepsCounts(db, OpRaise(wo, p))))
  {
    RaiseSums(db, wo, p);
    if ReportsCount(db) {
      RaiseCounts(db, wo, p);
    }
  }

  predicate RunKeepsCounts(db: Db, ops: seq<Op>)
    decreases |ops|
  {
    ops == [] || (KeepsCounts(db, ops[0]) && RunKeepsCounts(Step(db, ops[0]), ops[1..]))
  }

  ghost predicate AlwaysCounts(db: Db, ops: seq<Op>)
    decreases |ops|
  {
    ReportsCount(db) && (ops == [] || AlwaysCounts(Step(db, ops[0]), ops[1..]))
  }

  /** Over any run the issued quantities of a part's lines and its issue movements move together;
      and every report counts its lines exactly, in every state, if and only if no raise resets
      a count. */
  lemma {:induction false} IssuedIsLogged(db: Db, ops: seq<Op>)
    requires LinesOk(db)
    ensures LinesOk(Run(db, ops))
    ensures forall p :: Unlogged(Run(db, ops), p) == Unlogged(db, p)
    ensures ReportsCount(db) ==> (AlwaysCounts(db, ops) <==> RunKeepsCounts(db, ops))
    decreases |ops|
  {
    if ops != [] {
      StepIssues(db, ops[0]);
      IssuedIsLogged(Step(db, ops[0]), ops[1..]);
      forall p ensures Unlogged(Run(db, ops), p) == Unlogged(db, p) {
        assert Unlogged(Step(db, ops[0]), p) == Unlogged(db, p);
      }
    }
  }

  /** From an empty database: what a part's lines count as issued is what its movements issued. */
  lemma IssuedFromEmpty(emergency: set<Id>, ops: seq<Op>, p: Id)
    ensures var db := Run(Empty(emergency), ops);
      Issues(db.lines, OnPart(p)) == LoggedIssues(db.log, p)
    ensures AlwaysCounts(Empty(emergency), ops) <==> RunKeepsCounts(Empty(emergency), ops)
  {
    IssuedIsLogged(Empty(emergency), ops);
    assert Unlogged(Run(Empty(emergency), ops), p) == Unlogged(Empty(emergency), p);
  }

  /** Ten are requested while there are none, received, approved and issued; the report is still
      pending. */
  function IssuedWhilePending(): seq<Op> {
    [OpRequest(1, false, 7, 10), OpReceive(7, 10), OpApprove(0, false), OpWarehouseIssue(0, 10, false)]
  }

  /** Raising the shortage again then loses the count of ten. */
  lemma RaiseMayLoseCount()
    ensures var db := Run(Empty({}), IssuedWhilePending());
      && ReportsCount(db) && |db.reports| == 1 && db.reports[0].issued == 10
      && Step(db, OpRaise(1, 7)).reports[0].issued == 0
      && !ReportsCount(Step(db, OpRaise(1, 7)))
  {
    var db := Run(Empty({}), IssuedWhilePending());
    IssuedWhilePendingIs();
    OneLineCounts(db, db.lines[0]);
    RaiseLoses(db, 1, 7, 0);
  }

  /** A raise that finds a pending report with something issued loses its count. */
  lemma RaiseLoses(db: Db, wo: Id, p: Id, r: Id)
    requires LinesOk(db) && ReportsCount(db)
    requires PendingReport(db.reports, wo, p) == Some(r) && db.reports[r].issued != 0
    ensures var b := Step(db, OpRaise(wo, p));
      r < |b.reports| && b.reports[r].issued == 0 && !ReportsCount(b)
  {
    RaiseCounts(db, wo, p);
  }

  lemma OneLineCounts(db: Db, line: Line)
    requires db.lines == [line] && |db.reports| == 1 && line.report == Some(0) && db.reports[0].issued == line.issued
    requires line.issued >= 0 && line.status != Pending
    ensures LinesOk(db) && ReportsCount(db)
  {
    IssuesPush([], line, OnReport(0));
    assert [] + [line] == [line];
  }

  function Requested(): Db {
    Empty({}).(lines := [Line(1, 7, 10, 10, 0, 0, 0, 10, Pending, Some(0))],
               reports := [Report(1, 7, 10, 0, PendingReview, None)])
  }

  function Received(): Db {
    Requested().(stock := map[7 := 10], log := [Movement(7, StockIn, 10, 0, 10)])
  }

  function FullyAllocated(): Db {
    Received().(lines := [Line(1, 7, 10, 10, 10, 10, 0, 0, Allocated, Some(0))],
                rows := [Reservation(Claim(7, 1, Some(0)), 10, Active)])
  }

  lemma ApprovedWhilePending()
    ensures Step(Received(), OpApprove(0, false)) == FullyAllocated()
  {
    var full := FullyAllocated().lines[0];
    var done := Received().(lines := [full.(allotted := 0, status := Approved)]);
    assert Free(done, 7) == 10;
    assert Granted(done.lines[0], 10) == full && done.lines[0 := full] == [full];
    assert [] + FullyAllocated().rows == FullyAllocated().rows;
    assert Wants(done.lines[0]) && Min(Gap(done.lines[0]), 10) == 10 && !HasActive(done.rows, 0);
    assert AllocateOne(done, 0) == Some(PutLine(done, 0, full).(rows := FullyAllocated().rows));
    assert PutLine(Received(), 0, done.lines[0]) == done;
  }

  lemma IssuedWhilePendingIs()
    ensures var db := Run(Empty({}), IssuedWhilePending());
      && db.lines == [Line(1, 7, 10, 10, 10, 10, 10, 0, Issued, Some(0))]
      && db.reports == [Report(1, 7, 10, 10, PendingReview, None)]
  {
    var ops := IssuedWhilePending();
    assert Step(Empty({}), ops[0]) == Requested();
    assert Step(Requested(), ops[1]) == Received();
    ApprovedWhilePending();
    RunFour(Empty({}), ops);
    IssuesAll(FullyAllocated());
  }

  /** Issuing all of the one line on the one report. */
  lemma IssuesAll(db: Db)
    requires |db.lines| == 1 && |db.reports| == 1 && Issuable(db, 0, 10, false) && db.lines[0].report == Some(0)
    requires db.reports[0].status == PendingReview
    ensures var b := Step(db, OpWarehouseIssue(0, 10, false));
      && b.lines == [db.lines[0].(issued := db.lines[0].issued + 10, status := Issued)]
      && b.reports == [db.reports[0].(issued := db.reports[0].issued + 10)]
  {
  }
}
