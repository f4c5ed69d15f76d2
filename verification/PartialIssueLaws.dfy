/** What a warehouse issue that does not match its line leaves behind: reservations nobody can free
    any more, and lines issued beyond what they are approved for. */
module PartialIssueLaws {
  import opened Basics
  import opened Records
  import opened Reservations
  import opened StockOperations
  import opened ReservationLaws
  import opened ReservationRuns
  import opened ShortageLaws

  // ----- reservations of an issued line -----

  /** Row `i` is an ACTIVE reservation of line `l`, which has been issued. */
  predicate HoldsIssued(db: Db, l: Id, i: Id) {
    l < |db.lines| && db.lines[l].status == Issued
    && i < |db.rows| && db.rows[i].status == Active && db.rows[i].claim.line == Some(l)
  }

  /** The only two ways out for such a row: its report closes, or its order does when the line has
      been issued all it was approved for. */
  predicate Frees(db: Db, op: Op, l: Id, i: Id)
    requires HoldsIssued(db, l, i)
  {
    var line, claim := db.lines[l], db.rows[i].claim;
    match op
    case OpMoveReport(r, to) =>
      && to == Closed && r < |db.reports| && Closed in NextReport(db.reports[r].status)
      && line.report == Some(r) && claim.part == db.reports[r].part && claim.wo == db.reports[r].wo
    case OpReleaseStale(w) => claim.wo == w && line.issued >= line.approved
    case _ => false
  }

  /** An allocation adds rows only. */
  lemma {:induction false} WalkAddsRows(db: Db, ids: seq<Id>)
    ensures db.rows <= AllocateAll(db, ids).rows
    decreases |ids|
  {
    if ids != [] {
      WalkAddsRows(Or(AllocateOne(db, ids[0]), db), ids[1..]);
    }
  }

  /** Operations that add reservations, or leave them all alone. */
  predicate AddsRows(op: Op) {
    op.OpReceive? || op.OpRequest? || op.OpRaise? || op.OpApprove? || op.OpReject? || op.OpEditQuantity?
    || op.OpReserve? || op.OpDecide? || op.OpMarkFulfilled? || op.OpDirectIssue? || op.OpConsume?
    || op.OpIssueTools? || op.OpAllocate? || op.OpReallocate?
  }

  lemma DecideAddsRows(db: Db, r: Id, d: Decision)
    ensures db.rows <= Or(Decide(db, r, d), db).rows
  {
  }

  lemma ApproveAddsRows(db: Db, l: Id, auto: bool)
    ensures db.rows <= Or(ApprovePart(db, l, auto), db).rows
  {
  }

  lemma StepAddsRows(db: Db, op: Op)
    requires AddsRows(op)
    ensures db.rows <= Step(db, op).rows
  {
    match op
    case OpReallocate(p) => WalkAddsRows(db, Queue(db, p));
    case OpDecide(r, d) => DecideAddsRows(db, r, d);
    case OpApprove(l, auto) => ApproveAddsRows(db, l, auto);
    case _ =>
  }

  lemma ReleaseSparesLinked(db: Db, p: Id, qty: int, wo: Id, i: Id)
    requires TableOk(db) && i < |db.rows| && db.rows[i].claim.line.Some?
    ensures var rows := Or(Release(db, p, qty, wo), db).rows; i < |rows| && rows[i] == db.rows[i]
  {
    if Release(db, p, qty, wo).Some? {
      DrawnTouches(db.rows, Legacy(p, wo), qty);
      assert !ActiveIn(db.rows, Legacy(p, wo), i);
    }
  }

  lemma EditSparesLinked(db: Db, r: Id, issue: int, procure: int, reject: int, i: Id)
    requires TableOk(db) && i < |db.rows| && db.rows[i].claim.line.Some?
    ensures var rows := Or(EditDecision(db, r, issue, procure, reject), db).rows; i < |rows| && rows[i] == db.rows[i]
  {
    if Editable(db, r, issue, procure, reject) && issue < db.reports[r].decision.value.issue {
      if db.reports[r].part in db.stock {
        EditRows(db, r, issue, procure, reject);
        ReleaseSparesLinked(
          db, db.reports[r].part, db.reports[r].decision.value.issue - issue, db.reports[r].wo, i);
      }
    } else {
      UpwardEditAddsRows(db, r, issue, procure, reject);
    }
  }

  lemma UpwardEditAddsRows(db: Db, r: Id, issue: int, procure: int, reject: int)
    requires !(Editable(db, r, issue, procure, reject) && issue < db.reports[r].decision.value.issue)
    ensures db.rows <= Or(EditDecision(db, r, issue, procure, reject), db).rows
  {
  }

  /** An issue of another line leaves the rows of line `l` alone; line `l` itself is not open. */
  lemma IssueSparesIssued(db: Db, k: Id, qty: int, skip: bool, l: Id, i: Id)
    requires TableOk(db) && HoldsIssued(db, l, i)
    ensures var rows := Or(WarehouseIssue(db, k, qty, skip), db).rows; i < |rows| && rows[i] == db.rows[i]
  {
    if Issuable(db, k, qty, skip) {
      var own, legacy := Linked(db.lines[k].part, k), Legacy(db.lines[k].part, db.lines[k].wo);
      IssueRows(db, k, qty);
      DrawsAreFifo(db.rows, own, legacy, qty, |db.lines|);
      assert !ActiveIn(db.rows, own, i) && !ActiveIn(db.rows, legacy, i);
    }
  }

  /** Any operation leaves a reservation of an issued line alone, or frees it in one of those ways. */
  lemma IssuedRowFreedExactly(db: Db, op: Op, l: Id, i: Id)
    requires TableOk(db) && HoldsIssued(db, l, i)
    ensures i < |Step(db, op).rows|
    ensures Step(db, op).rows[i] != db.rows[i] <==> Frees(db, op, l, i)
  {
    match op
    case OpRelease(p, q, w) => ReleaseSparesLinked(db, p, q, w, i);
    case OpEditDecision(r, issue, procure, reject) => EditSparesLinked(db, r, issue, procure, reject, i);
    case OpWarehouseIssue(k, q, skip) => IssueSparesIssued(db, k, q, skip, l, i);
    case OpMoveReport(r, to) =>
    case OpCancel(k, reason) =>
    case OpReleaseStale(w) =>
    case _ => StepAddsRows(db, op);
  }

  // ----- an issued line without a report -----

  /** No operation edits a line that is issued and has no report. */
  lemma {:induction false} WalkSparesClosed(db: Db, ids: seq<Id>, l: Id)
    requires l < |db.lines| && !db.lines[l].Open()
    ensures var b := AllocateAll(db, ids); |b.lines| == |db.lines| && b.lines[l] == db.lines[l]
    decreases |ids|
  {
    if ids != [] {
      WalkSparesClosed(Or(AllocateOne(db, ids[0]), db), ids[1..], l);
    }
  }

  predicate Settled(db: Db, l: Id) {
    l < |db.lines| && db.lines[l].status == Issued && db.lines[l].report == None
  }

  lemma DecideSparesSettled(db: Db, r: Id, d: Decision, l: Id)
    requires Settled(db, l)
    ensures var b := Or(Decide(db, r, d), db); l < |b.lines| && b.lines[l] == db.lines[l]
  {
  }

  lemma EditSparesSettled(db: Db, r: Id, issue: int, procure: int, reject: int, l: Id)
    requires Settled(db, l)
    ensures var b := Or(EditDecision(db, r, issue, procure, reject), db); l < |b.lines| && b.lines[l] == db.lines[l]
  {
  }

  lemma ApproveSparesSettled(db: Db, k: Id, auto: bool, l: Id)
    requires Settled(db, l)
    ensures var b := Or(ApprovePart(db, k, auto), db); l < |b.lines| && b.lines[l] == db.lines[l]
  {
  }

  lemma RaiseSparesSettled(db: Db, wo: Id, p: Id, l: Id)
    requires Settled(db, l)
    ensures var b := Or(RaiseShortage(db, wo, p), db); l < |b.lines| && b.lines[l] == db.lines[l]
  {
  }

  lemma StepSparesSettled(db: Db, op: Op, l: Id)
    requires Settled(db, l)
    ensures l < |Step(db, op).lines| && Step(db, op).lines[l] == db.lines[l]
  {
    if SparesLines(op) {
      SparedLines(db, op);
    } else {
      match op
      case OpReallocate(p) => WalkSparesClosed(db, Queue(db, p), l);
      case OpDecide(r, d) => DecideSparesSettled(db, r, d, l);
      case OpEditDecision(r, issue, procure, reject) => EditSparesSettled(db, r, issue, procure, reject, l);
      case OpApprove(k, auto) => ApproveSparesSettled(db, k, auto, l);
      case OpRaise(w, p) => RaiseSparesSettled(db, w, p, l);
      case _ =>
    }
  }

  /** An ACTIVE reservation of an issued line that has no report and was issued less than approved. */
  predicate Stranded(db: Db, l: Id, i: Id) {
    HoldsIssued(db, l, i) && db.lines[l].report == None && db.lines[l].issued < db.lines[l].approved
  }

  /** Such a reservation stays as it is over every run: nothing issues, cancels or allocates the line
      again, no report closes it, and the sweep of the closing order spares it. */
  lemma {:induction false} StrandedForever(db: Db, l: Id, i: Id, ops: seq<Op>)
    requires TableOk(db) && Stranded(db, l, i)
    ensures TableOk(Run(db, ops)) && Stranded(Run(db, ops), l, i)
    ensures Run(db, ops).rows[i] == db.rows[i] && Run(db, ops).lines[l] == db.lines[l]
    decreases |ops|
  {
    if ops != [] {
      StepLedger(db, ops[0]);
      IssuedRowFreedExactly(db, ops[0], l, i);
      StepSparesSettled(db, ops[0], l);
      StrandedForever(Step(db, ops[0]), l, i, ops[1..]);
    }
  }

  /** A line holds what its one ACTIVE row holds. */
  lemma HeldIsRow(rows: Table, p: Id, l: Id, i: Id, n: nat)
    requires Sound(rows, n) && ActiveIn(rows, Linked(p, l), i)
    ensures Held(rows, Linked(p, l)) == rows[i].qty
  {
    HeldOnlyAt(rows, Linked(p, l), i);
  }

  lemma {:induction false} HeldOnlyAt(rows: Table, c: Claim -> bool, i: Id)
    requires ActiveIn(rows, c, i)
    requires forall k :: 0 <= k < |rows| && k != i && rows[k].status == Active ==> !c(rows[k].claim)
    ensures Held(rows, c) == rows[i].qty
  {
    var n := |rows| - 1;
    if i == n {
      HeldNothing(rows[..n], c);
    } else {
      HeldOnlyAt(rows[..n], c, i);
    }
  }

  lemma HeldSome(rows: Table, c: Claim -> bool)
    requires Held(rows, c) > 0
    ensures exists i: nat :: ActiveIn(rows, c, i)
  {
    if forall i: nat :: !ActiveIn(rows, c, i) {
      forall i | 0 <= i < |rows| && rows[i].status == Active ensures !c(rows[i].claim) {
        assert !ActiveIn(rows, c, i);
      }
      HeldNothing(rows, c);
    }
  }

  /** A partial warehouse issue on a line without a report leaves what it does not take reserved for
      ever: whatever is done afterwards, the line's reservation holds exactly the rest. */
  lemma PartialIssueStrandsRest(db: Db, l: Id, qty: int, skip: bool, ops: seq<Op>)
    requires TableOk(db) && WarehouseIssue(db, l, qty, skip).Some?
    requires var line := db.lines[l];
      && line.report == None && line.issued + qty < line.approved
      && qty < Held(db.rows, Linked(line.part, l))
    ensures var c := Linked(db.lines[l].part, l);
      Held(Run(Step(db, OpWarehouseIssue(l, qty, skip)), ops).rows, c) == Held(db.rows, c) - qty
  {
    var b, c := Step(db, OpWarehouseIssue(l, qty, skip)), Linked(db.lines[l].part, l);
    WarehouseIssueIsFifo(db, l, qty, skip);
    StepLedger(db, OpWarehouseIssue(l, qty, skip));
    HeldSome(b.rows, c);
    var i: nat :| ActiveIn(b.rows, c, i);
    assert b.lines[l] == db.lines[l].(issued := db.lines[l].issued + qty, status := Issued);
    StrandedForever(b, l, i, ops);
    HeldIsRow(b.rows, db.lines[l].part, l, i, |b.lines|);
    HeldIsRow(Run(b, ops).rows, db.lines[l].part, l, i, |Run(b, ops).lines|);
  }

  /** Issuing three of the five approved and reserved strands two for ever. */
  lemma TwoStranded(ops: seq<Op>)
    ensures var b := Step(Run(Empty({}), ContendedOps()), OpWarehouseIssue(0, 3, false));
      Held(Run(b, ops).rows, Linked(7, 0)) == 2
  {
    ContendedIsReached();
    ContendedIsSound();
    ContendedHolds(Linked(7, 0));
    assert Issuable(Contended(), 0, 3, false);
    PartialIssueStrandsRest(Contended(), 0, 3, false, ops);
  }

  // ----- issued within approved -----

  /** Nothing has been issued on a line that is pending, or open with a report. */
  predicate SaneLine(x: Line) {
    && x.issued >= 0 && x.requested >= 0
    && (x.status == Pending || (x.Open() && x.report.Some?) ==> x.issued == 0)
  }

  ghost predicate SaneLines(db: Db) { forall l :: 0 <= l < |db.lines| ==> SaneLine(db.lines[l]) }

  ghost predicate Capped(db: Db) { forall l :: 0 <= l < |db.lines| ==> db.lines[l].issued <= db.lines[l].approved }

  /** The check that an operation leaves no line issued beyond its approved quantity. */
  predicate KeepsCap(db: Db, op: Op) {
    match op
    case OpWarehouseIssue(l, qty, skip) =>
      Issuable(db, l, qty, skip) ==> db.lines[l].issued + qty <= db.lines[l].approved
    case OpDecide(r, d) =>
      var l := LineOf(db.lines, r);
      Decidable(db, r, d) && d.kind == Approve && d.issue > 0 && l.Some? ==> db.lines[l.value].issued <= d.issue
    case OpEditDecision(r, issue, procure, reject) =>
      var l := LineOf(db.lines, r);
      Editable(db, r, issue, procure, reject) && Moves(db, r, issue) && l.Some? ==> db.lines[l.value].issued <= issue
    case _ => true
  }

  /** The checks a decision passes before it touches a line. */
  predicate Decidable(db: Db, r: Id, d: Decision) {
    r < |db.reports| && db.reports[r].status == PendingReview && db.reports[r].decision == None
    && Balanced(d, db.reports[r].requested)
  }

  /** An edit changes the line when it raises the quantity, or lowers it for a part with stock. */
  predicate Moves(db: Db, r: Id, issue: int)
    requires r < |db.reports| && db.reports[r].decision.Some?
  {
    var was := db.reports[r].decision.value.issue;
    issue > was || (issue < was && db.reports[r].part in db.stock)
  }

  /** A line whose quantities stay and that is not opened again. */
  predicate LineKept(a: Line, b: Line) {
    && b.issued == a.issued && b.approved == a.approved && b.requested == a.requested && b.report == a.report
    && (b.Open() ==> a.Open()) && (b.status == Pending ==> a.status == Pending)
  }

  ghost predicate LinesKept(a: Db, b: Db) {
    |b.lines| == |a.lines| && forall l :: 0 <= l < |a.lines| ==> LineKept(a.lines[l], b.lines[l])
  }

  /** All lines but `l` are kept. */
  ghost predicate OnlyLine(a: Db, b: Db, l: Id) {
    && l < |a.lines| == |b.lines|
    && forall k :: 0 <= k < |a.lines| && k != l ==> LineKept(a.lines[k], b.lines[k])
  }

  ghost predicate CapStep(a: Db, b: Db, keeps: bool) { SaneLines(b) && (Capped(b) <==> keeps) }

  lemma KeptCaps(a: Db, b: Db)
    requires SaneLines(a) && Capped(a) && LinesKept(a, b)
    ensures CapStep(a, b, true)
  {
  }

  lemma OneLineCaps(a: Db, b: Db, l: Id)
    requires SaneLines(a) && Capped(a) && OnlyLine(a, b, l) && SaneLine(b.lines[l])
    ensures CapStep(a, b, b.lines[l].issued <= b.lines[l].approved)
  {
  }

  lemma PushCaps(a: Db, b: Db, x: Line)
    requires SaneLines(a) && Capped(a) && b.lines == a.lines + [x] && SaneLine(x) && x.issued <= x.approved
    ensures CapStep(a, b, true)
  {
  }

  lemma {:induction false} WalkKeepsCaps(db: Db, ids: seq<Id>)
    ensures LinesKept(db, AllocateAll(db, ids))
    decreases |ids|
  {
    if ids != [] {
      WalkKeepsCaps(Or(AllocateOne(db, ids[0]), db), ids[1..]);
    }
  }

  lemma ApproveCaps(db: Db, l: Id, auto: bool)
    requires SaneLines(db) && Capped(db)
    ensures CapStep(db, Or(ApprovePart(db, l, auto), db), true)
  {
    var b := Or(ApprovePart(db, l, auto), db);
    if b != db {
      OneLineCaps(db, b, l);
    }
  }

  lemma RaiseCaps(db: Db, wo: Id, p: Id)
    requires SaneLines(db) && Capped(db)
    ensures CapStep(db, Or(RaiseShortage(db, wo, p), db), true)
  {
    var b, l := Or(RaiseShortage(db, wo, p), db), PendingLine(db.lines, wo, p);
    if b.lines != db.lines {
      OneLineCaps(db, b, l.value);
    }
  }

  lemma IssueCaps(db: Db, l: Id, qty: int, skip: bool)
    requires SaneLines(db) && Capped(db)
    ensures CapStep(db, Or(WarehouseIssue(db, l, qty, skip), db), KeepsCap(db, OpWarehouseIssue(l, qty, skip)))
  {
    if Issuable(db, l, qty, skip) {
      OneLineCaps(db, Issue(db, l, qty), l);
    }
  }

  /** Setting the approved quantity of a line, and allocating to it where it is open. */
  lemma GrantCaps(a: Db, db: Db, l: Option<Id>, approved: int)
    requires SaneLines(a) && Capped(a) && db.lines == a.lines && (l.Some? ==> l.value < |db.lines|) && approved > 0
    requires l.Some? ==> db.lines[l.value].report.Some?
    ensures var o := ApproveAndAllocate(db, l, approved);
      && (o.Some? ==> CapStep(a, o.value, l.Some? ==> db.lines[l.value].issued <= approved))
      && (o == None ==> l.Some? && db.lines[l.value].issued == 0)
      && (o.Some? && l.Some? ==>
            OnlyLine(a, o.value, l.value) && o.value.lines[l.value].issued == db.lines[l.value].issued)
  {
    var o := ApproveAndAllocate(db, l, approved);
    if o.Some? && l.Some? {
      OneLineCaps(a, o.value, l.value);
    }
  }

  lemma DecideCaps(db: Db, r: Id, d: Decision)
    requires SaneLines(db) && Capped(db)
    ensures CapStep(db, Or(Decide(db, r, d), db), KeepsCap(db, OpDecide(r, d)))
  {
    var b := Or(Decide(db, r, d), db);
    var l := LineOf(db.lines, r);
    if Decidable(db, r, d) && d.kind == Approve {
      var decided := db.(reports := db.reports[r := db.reports[r].(decision := Some(d), status := Decided)]);
      if d.issue > 0 {
        GrantCaps(db, decided, l, d.issue);
      }
      if l.Some? && Decide(db, r, d).Some? {
        OneLineCaps(db, b, l.value);
      }
    }
  }

  lemma EditCaps(db: Db, r: Id, issue: int, procure: int, reject: int)
    requires SaneLines(db) && Capped(db)
    ensures CapStep(db, Or(EditDecision(db, r, issue, procure, reject), db),
                    KeepsCap(db, OpEditDecision(r, issue, procure, reject)))
  {
    if Editable(db, r, issue, procure, reject) {
      if issue > db.reports[r].decision.value.issue && issue > 0 {
        RaisedCaps(db, r, issue, procure, reject);
      } else {
        LoweredCaps(db, r, issue, procure, reject);
      }
    } else {
      KeptCaps(db, db);
    }
  }

  lemma RaisedCaps(db: Db, r: Id, issue: int, procure: int, reject: int)
    requires SaneLines(db) && Capped(db) && Editable(db, r, issue, procure, reject)
    requires issue > db.reports[r].decision.value.issue && issue > 0
    ensures CapStep(db, Or(EditDecision(db, r, issue, procure, reject), db),
                    KeepsCap(db, OpEditDecision(r, issue, procure, reject)))
  {
    var report := db.reports[r];
    var d := report.decision.value.(issue := issue, procure := procure, reject := reject);
    GrantCaps(db, PutReport(db, r, report.(decision := Some(d))), LineOf(db.lines, r), issue);
  }

  lemma LoweredCaps(db: Db, r: Id, issue: int, procure: int, reject: int)
    requires SaneLines(db) && Capped(db) && Editable(db, r, issue, procure, reject)
    requires !(issue > db.reports[r].decision.value.issue && issue > 0)
    ensures CapStep(db, Or(EditDecision(db, r, issue, procure, reject), db),
                    KeepsCap(db, OpEditDecision(r, issue, procure, reject)))
  {
    var b, l := Or(EditDecision(db, r, issue, procure, reject), db), LineOf(db.lines, r);
    if l.Some? && b.lines != db.lines {
      OneLineCaps(db, b, l.value);
    }
  }

  lemma StepCaps(db: Db, op: Op)
    requires SaneLines(db) && Capped(db)
    ensures CapStep(db, Step(db, op), KeepsCap(db, op))
  {
    if SparesLines(op) {
      SparedLines(db, op);
    } else {
      match op
      case OpReallocate(p) =>
        WalkKeepsCaps(db, Queue(db, p));
        KeptCaps(db, Step(db, op));
      case OpDecide(r, d) => DecideCaps(db, r, d);
      case OpEditDecision(r, issue, procure, reject) => EditCaps(db, r, issue, procure, reject);
      case OpApprove(l, auto) => ApproveCaps(db, l, auto);
      case OpRaise(w, p) => RaiseCaps(db, w, p);
      case OpWarehouseIssue(l, q, skip) => IssueCaps(db, l, q, skip);
      case _ => OtherCaps(db, op);
    }
  }

  lemma OtherCaps(db: Db, op: Op)
    requires SaneLines(db) && Capped(db)
    requires op.OpRequest? || op.OpDirectIssue? || op.OpReject? || op.OpCancel? || op.OpEditQuantity? || op.OpAllocate?
    ensures CapStep(db, Step(db, op), true)
  {
    var b := Step(db, op);
    match op
    case OpRequest(_, _, _, _) => if b.lines != db.lines { PushCaps(db, b, b.lines[|db.lines|]); }
    case OpDirectIssue(_, _, _, _) => if b.lines != db.lines { PushCaps(db, b, b.lines[|db.lines|]); }
    case OpCancel(l, _) => if b.lines != db.lines { OneLineCaps(db, b, l); }
    case _ => KeptCaps(db, b);
  }

  ghost predicate AlwaysCapped(db: Db, ops: seq<Op>)
    decreases |ops|
  {
    Capped(db) && (ops == [] || AlwaysCapped(Step(db, ops[0]), ops[1..]))
  }

  predicate RunKeepsCap(db: Db, ops: seq<Op>)
    decreases |ops|
  {
    ops == [] || (KeepsCap(db, ops[0]) && RunKeepsCap(Step(db, ops[0]), ops[1..]))
  }

  /** Over any run no line is issued beyond its approved quantity, in any state, if and only if no
      warehouse issue goes beyond it and no decision lowers it below what was issued. */
  lemma {:induction false} IssuedWithinApproved(db: Db, ops: seq<Op>)
    requires SaneLines(db) && Capped(db)
    ensures AlwaysCapped(db, ops) <==> RunKeepsCap(db, ops)
    decreases |ops|
  {
    if ops != [] {
      StepCaps(db, ops[0]);
      if KeepsCap(db, ops[0]) {
        IssuedWithinApproved(Step(db, ops[0]), ops[1..]);
      }
    }
  }

  /** A warehouse issue is not capped: five of part 7 go out on a line approved for three. */
  lemma IssueMayExceedApproved()
    ensures var ops := [OpReceive(7, 5), OpRequest(0, false, 7, 3), OpApprove(0, false), OpWarehouseIssue(0, 5, false)];
      !Capped(Run(Empty({}), ops))
  {
    var ops := [OpReceive(7, 5), OpRequest(0, false, 7, 3), OpApprove(0, false), OpWarehouseIssue(0, 5, false)];
    var two := Step(Stocked(), ops[1]);
    assert Step(Empty({}), ops[0]) == Stocked();
    RunFour(Empty({}), ops);
    assert Free(Stocked(), 7) == 5;
    assert two.lines == [Line(0, 7, 3, 3, 0, 0, 0, 0, Pending, None)];
    ApprovedThenExceeded(two);
  }

  lemma ApprovedThenExceeded(db: Db)
    requires db.lines == [Line(0, 7, 3, 3, 0, 0, 0, 0, Pending, None)] && 7 in db.stock && db.stock[7] == 5
    ensures !Capped(Step(Step(db, OpApprove(0, false)), OpWarehouseIssue(0, 5, false)))
  {
    var b := Step(db, OpApprove(0, false));
    ApprovalSets(db, 0);
    ExceedsApproved(b);
  }

  /** Approving a pending line sets its approved quantity, leaves it open and moves no stock. */
  lemma ApprovalSets(db: Db, l: Id)
    requires l < |db.lines| && db.lines[l].status == Pending && db.lines[l].quantity > 0
    ensures var b := Step(db, OpApprove(l, false));
      && b.stock == db.stock && |b.lines| == |db.lines| && b.lines[l].Open()
      && b.lines[l].part == db.lines[l].part && b.lines[l].approved == db.lines[l].quantity
      && b.lines[l].issued == db.lines[l].issued
  {
    var line := db.lines[l];
    var done := PutLine(db, l, line.(
      status := Approved, approved := line.quantity, shortage := Max(0, line.requested - line.quantity)));
    assert Step(db, OpApprove(l, false)) == Or(AllocateOne(done, l), done);
    AllocationKeepsLine(done, l);
  }

  lemma AllocationKeepsLine(db: Db, l: Id)
    requires l < |db.lines|
    ensures var b := Or(AllocateOne(db, l), db);
      && b.stock == db.stock && |b.lines| == |db.lines| && b.lines[l].Open() == db.lines[l].Open()
      && b.lines[l].part == db.lines[l].part && b.lines[l].approved == db.lines[l].approved
      && b.lines[l].issued == db.lines[l].issued
  {
  }

  lemma ExceedsApproved(db: Db)
    requires Issuable(db, 0, 5, false) && db.lines[0].approved == 3 && db.lines[0].issued == 0
    ensures !Capped(Step(db, OpWarehouseIssue(0, 5, false)))
  {
    assert Step(db, OpWarehouseIssue(0, 5, false)).lines[0].issued == 5;
  }
}
