/** How the state of part lines and shortage reports lets go of the blockers that wait for them, and
    the inventory and the board run together. */
module UnblockLaws {
  import opened Basics
  import S = StockOperations
  import R = Records
  import opened WorkOrders
  import WL = WorkOrderLaws
  import SL = ShortageLaws
  import PL = PartialIssueLaws

  /** What the event PART_ISSUED on line `l` tells the blockers: the line's status alone decides. */
  function LineEvent(db: R.Db, l: Id): External {
    PartIssued(l < |db.lines| && db.lines[l].status.Issued?)
  }

  /** What the event SHORTAGE_FULFILLED on report `r` tells them; a missing decision counts as zero. */
  function ShortageEvent(db: R.Db, r: Id): External {
    ShortageFulfilled(
      r < |db.reports| && db.reports[r].status.InFulfillment?
      && (if db.reports[r].decision.Some? then db.reports[r].decision.value.issue else 0) <= db.reports[r].issued)
  }

  /** The oldest open blocker of a reference, if there is one, is resolved and no other changes. */
  ghost predicate Unblocks(b: Board, c: Board, ref: Ref) {
    var k := FirstOpen(b.blockers, ref);
    c.blockers == if k.Some? then b.blockers[k.value := b.blockers[k.value].(status := Resolved)] else b.blockers
  }

  /** Once a warehouse issue of any quantity has gone through, the event unblocks, at any later
      time: a partial issue is enough, and nothing takes the line back. */
  lemma IssueUnblocksForGood(db: R.Db, l: Id, qty: int, skip: bool, ops: seq<S.Op>, b: Board, ref: Ref)
    requires S.WarehouseIssue(db, l, qty, skip).Some? && ref.id == l
    ensures var later := S.Run(S.Step(db, S.OpWarehouseIssue(l, qty, skip)), ops);
      && Sync(b, ref, LineEvent(later, l)).Some?
      && Unblocks(b, Sync(b, ref, LineEvent(later, l)).value, ref)
  {
    var issued := S.Step(db, S.OpWarehouseIssue(l, qty, skip));
    assert issued.lines[l].status.Issued?;
    SL.LinesFollowOverRuns(issued, ops);
    assert SL.LineFollows(issued.lines[l], S.Run(issued, ops).lines[l]);
  }

  /** The event on a line unblocks exactly when the line has been issued. */
  lemma LineUnblocksExactly(db: R.Db, l: Id, b: Board, ref: Ref)
    requires l < |db.lines| && FirstOpen(b.blockers, ref).Some?
    ensures var c := Sync(b, ref, LineEvent(db, l));
      c.Some? && if db.lines[l].status == R.Issued then Unblocks(b, c.value, ref) else c.value == b
  {
  }

  /** The event on a report unblocks exactly when the report could be marked fulfilled, or is in
      fulfilment without an approving decision that asks for more than was issued. */
  lemma ShortageUnblocksExactly(db: R.Db, r: Id, b: Board, ref: Ref)
    requires FirstOpen(b.blockers, ref).Some? && r < |db.reports|
    ensures var c := Sync(b, ref, ShortageEvent(db, r)); var report := db.reports[r];
      && c.Some?
      && (if S.MarkFulfilled(db, r).Some?
             || (report.status.InFulfillment? && report.decision == None && report.issued >= 0)
             || (report.status.InFulfillment? && report.decision.Some? && report.decision.value.kind.Reject?
                 && report.decision.value.issue <= report.issued)
          then Unblocks(b, c.value, ref) else c.value == b)
  {
  }

  /** Marking a report fulfilled takes away the status the event asks for: sent afterwards, the
      event does nothing. The marking itself resolves the blocker, see `StepNoneWaits`. */
  lemma MarkedReportNoLongerUnblocks(db: R.Db, r: Id, b: Board, ref: Ref)
    requires S.MarkFulfilled(db, r).Some?
    ensures Sync(b, ref, ShortageEvent(S.Step(db, S.OpMarkFulfilled(r)), r)) == Some(b)
  {
  }

  // ----- inventory and board together -----

  /** The model of shortage reports, as blockers refer to it. */
  const REPORT: nat := 1

  function RefOf(r: Id): Ref { Ref(REPORT, r) }

  /** An open shortage blocker of order `w` for report `r`. */
  predicate Waits(x: Blocker, w: Id, r: Id) {
    x.wo == w && x.kind == AwaitingShortage && x.status == Open && x.ref == Some(RefOf(r))
  }

  /** The oldest such blocker. */
  function FirstWaiting(blockers: seq<Blocker>, w: Id, r: Id): (k: Option<Id>)
    ensures k.Some? ==> k.value < |blockers| && Waits(blockers[k.value], w, r)
    ensures forall i :: 0 <= i < (if k.Some? then k.value else |blockers|) ==> !Waits(blockers[i], w, r)
  {
    if blockers == [] then None else
    var n := |blockers| - 1;
    var before := FirstWaiting(blockers[..n], w, r);
    if before.Some? then before else if Waits(blockers[n], w, r) then Some(n) else None
  }

  /** What a report's move does on the board: one that ends the report settles the blocker that
      waits for it. */
  function Told(b: Board, w: Id, r: Id, to: R.ReportStatus): Board {
    var k := FirstWaiting(b.blockers, w, r);
    if SL.Ended(to) && k.Some? then Settle(b, k.value, if to.Refused? then Withdrawn else Resolved) else b
  }

  /** The oldest open shortage blocker for a report ends with it: resolved where the report is
      fulfilled or closed, withdrawn where it is rejected; no other blocker changes. */
  lemma EndingSettles(b: Board, w: Id, r: Id, to: R.ReportStatus, k: Id)
    requires k < |b.blockers| && Waits(b.blockers[k], w, r)
    requires forall i :: 0 <= i < k ==> !Waits(b.blockers[i], w, r)
    ensures Told(b, w, r, to).blockers ==
      if to == R.Fulfilled || to == R.Closed then b.blockers[k := b.blockers[k].(status := Resolved)]
      else if to == R.Refused then b.blockers[k := b.blockers[k].(status := Withdrawn)]
      else b.blockers
    ensures to != R.Fulfilled && to != R.Closed && to != R.Refused ==> Told(b, w, r, to) == b
  {
    var found := FirstWaiting(b.blockers, w, r);
    assert found.Some? ==> !(found.value < k);
  }

  datatype Joint = Joint(db: R.Db, board: Board)

  datatype Act = Stock(sop: S.Op) | Work(wop: Op)

  /** The report an operation moves, and where to. */
  function MovedReport(db: R.Db, op: S.Op): Option<(Id, R.ReportStatus)> {
    if S.Apply(db, op) == None then None else
    match op
    case OpMoveReport(r, to) => Some((r, to))
    case OpMarkFulfilled(r) => Some((r, R.Fulfilled))
    case _ => None
  }

  function JointStep(j: Joint, a: Act): Joint {
    match a
    case Stock(op) =>
      var m := MovedReport(j.db, op);
      Joint(S.Step(j.db, op),
            if m.Some? && m.value.0 < |j.db.reports|
            then Told(j.board, j.db.reports[m.value.0].wo, m.value.0, m.value.1) else j.board)
    case Work(op) => Joint(j.db, Step(j.board, op))
  }

  lemma MarkingTells(j: Joint, r: Id)
    ensures JointStep(j, Stock(S.OpMarkFulfilled(r))) ==
      if S.MarkFulfilled(j.db, r).Some?
      then Joint(S.MarkFulfilled(j.db, r).value, Told(j.board, j.db.reports[r].wo, r, R.Fulfilled)) else j
  {
  }

  /** No order waits for a report that has ended. */
  ghost predicate NoneWaits(j: Joint) {
    forall r, k | 0 <= r < |j.db.reports| && 0 <= k < |j.board.blockers| && SL.Ended(j.db.reports[r].status) ::
      !Waits(j.board.blockers[k], j.db.reports[r].wo, r)
  }

  ghost predicate JointOk(j: Joint) {
    SL.Books(j.db) && SL.OnePendingReport(j.db) && WL.BoardOk(j.board) && NoneWaits(j)
  }

  /** The two ways an order is left waiting for an ended report: a rejecting decision, which sets the
      status around the transition service, and a blocker opened for a report already ended. */
  predicate LeavesWaiting(j: Joint, a: Act) {
    match a
    case Stock(OpDecide(r, d)) =>
      PL.Decidable(j.db, r, d) && d.kind.Reject? && FirstWaiting(j.board.blockers, j.db.reports[r].wo, r).Some?
    case Work(OpOpen(w, kind, Some(ref), _)) =>
      && kind == AwaitingShortage && ref == RefOf(ref.id)
      && ref.id < |j.db.reports| && SL.Ended(j.db.reports[ref.id].status) && w == j.db.reports[ref.id].wo
      && w < |j.board.orders| && !Waiting(j.board.blockers, w, ref)
    case _ => false
  }

  lemma ToldKeeps(b: Board, w: Id, r: Id, to: R.ReportStatus)
    requires WL.BoardOk(b)
    ensures var c := Told(b, w, r, to);
      && WL.BoardOk(c) && WL.Follows(b, c)
      && (SL.Ended(to) ==> forall k :: 0 <= k < |c.blockers| ==> !Waits(c.blockers[k], w, r))
  {
    var k := FirstWaiting(b.blockers, w, r);
    if SL.Ended(to) && k.Some? {
      WL.SettleKeeps(b, k.value, if to.Refused? then Withdrawn else Resolved);
    }
  }

  /** A blocker that waits later than it was there waited before. */
  lemma WaitedBefore(b: Board, c: Board, k: Id, w: Id, r: Id)
    requires WL.Grows(b, c) && k < |b.blockers| && Waits(c.blockers[k], w, r)
    ensures Waits(b.blockers[k], w, r)
  {
    assert WL.BlockerFollows(b.blockers[k], c.blockers[k]);
  }

  lemma WorkNoneWaits(j: Joint, op: Op)
    requires JointOk(j)
    ensures WL.BoardOk(Step(j.board, op))
    ensures NoneWaits(Joint(j.db, Step(j.board, op))) <==> !LeavesWaiting(j, Work(op))
  {
    var b, c := j.board, Step(j.board, op);
    WL.StepKeeps(b, op);
    Opened(b, op);
    forall r, k | 0 <= r < |j.db.reports| && 0 <= k < |b.blockers| && SL.Ended(j.db.reports[r].status)
      ensures !Waits(c.blockers[k], j.db.reports[r].wo, r)
    {
      if Waits(c.blockers[k], j.db.reports[r].wo, r) { WaitedBefore(b, c, k, j.db.reports[r].wo, r); }
    }
    if LeavesWaiting(j, Work(op)) {
      assert Waits(c.blockers[|b.blockers|], op.wo, op.ref.value.id);
    }
  }

  /** Only opening a blocker or a pause adds one. */
  lemma Opened(b: Board, op: Op)
    requires WL.BoardOk(b)
    ensures var c := Step(b, op);
      && |c.blockers| >= |b.blockers|
      && (op.OpOpen? && op.wo < |b.orders| && op.ref.Some? && !Waiting(b.blockers, op.wo, op.ref.value) ==>
            c.blockers == b.blockers + [Blocker(op.wo, op.kind, Open, op.ref, op.source)])
      && (!(op.OpOpen? && op.wo < |b.orders| && op.ref.Some? && !Waiting(b.blockers, op.wo, op.ref.value)) ==>
            forall k :: |b.blockers| <= k < |c.blockers| ==> c.blockers[k].kind == Pause)
  {
    if op.OpTransition? {
      if WL.Executes(b, op.wo, op.status, op.copy) {
        WL.TransitionReleases(b, op.wo, op.status, op.copy);
      }
    }
  }

  lemma StockNoneWaits(j: Joint, op: S.Op)
    requires JointOk(j)
    ensures NoneWaits(JointStep(j, Stock(op))) <==> !LeavesWaiting(j, Stock(op))
  {
    var m := MovedReport(j.db, op);
    SL.StepReports(j.db, op);
    if m.Some? {
      MoveNoneWaits(j, op, m.value.0, m.value.1);
    } else if op.OpDecide? {
      DecideNoneWaits(j, op.report, op.decision);
    } else if op.OpMoveReport? || op.OpMarkFulfilled? {
      assert JointStep(j, Stock(op)) == j;
    } else {
      SL.OthersEndNothing(j.db, op);
      ReportsWaitForNothing(j, S.Step(j.db, op));
    }
  }

  lemma ReportsWaitForNothing(j: Joint, db: R.Db)
    requires NoneWaits(j) && SL.ReportsFollow(j.db, db) && SL.EndsNothing(j.db, db, None)
    ensures NoneWaits(Joint(db, j.board))
  {
    forall r, k | 0 <= r < |db.reports| && 0 <= k < |j.board.blockers| && SL.Ended(db.reports[r].status)
      ensures !Waits(j.board.blockers[k], db.reports[r].wo, r)
    {
      assert SL.ReportFollows(j.db.reports[r], db.reports[r]);
    }
  }

  lemma MoveNoneWaits(j: Joint, op: S.Op, r: Id, to: R.ReportStatus)
    requires JointOk(j) && MovedReport(j.db, op) == Some((r, to))
    ensures NoneWaits(JointStep(j, Stock(op)))
  {
    var next := JointStep(j, Stock(op));
    MovedOnly(j.db, op, r, to);
    ToldKeeps(j.board, j.db.reports[r].wo, r, to);
    forall q, k | 0 <= q < |next.db.reports| && 0 <= k < |next.board.blockers| && SL.Ended(next.db.reports[q].status)
      ensures !Waits(next.board.blockers[k], next.db.reports[q].wo, q)
    {
      if q != r && Waits(next.board.blockers[k], next.db.reports[q].wo, q) {
        WaitedBefore(j.board, next.board, k, next.db.reports[q].wo, q);
      }
    }
  }

  lemma MovedOnly(db: R.Db, op: S.Op, r: Id, to: R.ReportStatus)
    requires MovedReport(db, op) == Some((r, to))
    ensures r < |db.reports| && S.Step(db, op).reports == db.reports[r := db.reports[r].(status := to)]
  {
  }

  lemma DecideNoneWaits(j: Joint, r: Id, d: R.Decision)
    requires JointOk(j)
    ensures NoneWaits(JointStep(j, Stock(S.OpDecide(r, d)))) <==> !LeavesWaiting(j, Stock(S.OpDecide(r, d)))
  {
    var db := S.Step(j.db, S.OpDecide(r, d));
    SL.StepReports(j.db, S.OpDecide(r, d));
    SL.DecideEndsOne(j.db, r, d);
    Decides(j.db, r, d);
    forall q, k | 0 <= q < |db.reports| && q != r && 0 <= k < |j.board.blockers| && SL.Ended(db.reports[q].status)
      ensures !Waits(j.board.blockers[k], db.reports[q].wo, q)
    {
      assert SL.ReportFollows(j.db.reports[q], db.reports[q]);
    }
    if r < |db.reports| {
      var k := FirstWaiting(j.board.blockers, db.reports[r].wo, r);
      assert k.Some? ==> Waits(j.board.blockers[k.value], db.reports[r].wo, r);
    }
  }

  /** A rejecting decision ends its report; an approving one does not. */
  lemma Decides(db: R.Db, r: Id, d: R.Decision)
    ensures var b := S.Step(db, S.OpDecide(r, d));
      && |b.reports| == |db.reports|
      && (r < |db.reports| ==> b.reports[r].wo == db.reports[r].wo)
      && (PL.Decidable(db, r, d) && d.kind.Reject? ==> b.reports[r].status.Refused?)
      && (r < |db.reports| && !(PL.Decidable(db, r, d) && d.kind.Reject?) ==>
            b.reports[r].status == db.reports[r].status || b.reports[r].status.Decided?)
  {
  }

  /** One step of either machine keeps every order from waiting for an ended report if and only if it
      is not one of the two that leave it waiting. */
  lemma StepNoneWaits(j: Joint, a: Act)
    requires JointOk(j)
    ensures NoneWaits(JointStep(j, a)) <==> !LeavesWaiting(j, a)
    ensures !LeavesWaiting(j, a) ==> JointOk(JointStep(j, a))
  {
    match a
    case Stock(op) =>
      StockNoneWaits(j, op);
      SL.StepReports(j.db, op);
      var m := MovedReport(j.db, op);
      if m.Some? && m.value.0 < |j.db.reports| {
        ToldKeeps(j.board, j.db.reports[m.value.0].wo, m.value.0, m.value.1);
      }
    case Work(op) => WorkNoneWaits(j, op);
  }

  ghost predicate AlwaysNoneWaits(j: Joint, acts: seq<Act>)
    decreases |acts|
  {
    NoneWaits(j) && (acts == [] || AlwaysNoneWaits(JointStep(j, acts[0]), acts[1..]))
  }

  predicate NeverLeavesWaiting(j: Joint, acts: seq<Act>)
    decreases |acts|
  {
    acts == [] || (!LeavesWaiting(j, acts[0]) && NeverLeavesWaiting(JointStep(j, acts[0]), acts[1..]))
  }

  /** Over any interleaving of inventory and board operations no order waits, in any state, for a
      report that is fulfilled, closed or rejected, if and only if no step leaves one waiting. */
  lemma {:induction false} EndedReportsHoldNobodyUp(j: Joint, acts: seq<Act>)
    requires JointOk(j)
    ensures AlwaysNoneWaits(j, acts) <==> NeverLeavesWaiting(j, acts)
    decreases |acts|
  {
    if acts != [] {
      StepNoneWaits(j, acts[0]);
      if !LeavesWaiting(j, acts[0]) {
        EndedReportsHoldNobodyUp(JointStep(j, acts[0]), acts[1..]);
      }
    }
  }

  /** An order with a blocker open for its pending report. */
  function Awaiting(): Joint {
    Joint(SL.FirstShort(),
          Board([Order(Assigned, PendingParts)],
                [Blocker(0, AwaitingShortage, Open, Some(RefOf(0)), None)], [Event(0, Open)], []))
  }

  /** It is reached by creating the order, requesting the part and opening the blocker. */
  lemma AwaitingIsReached()
    ensures var acts := [Work(OpNew(false)), Stock(S.OpRequest(0, false, 7, 5)),
                         Work(OpOpen(0, AwaitingShortage, Some(RefOf(0)), None))];
      JointStep(JointStep(JointStep(Joint(S.Empty({}), EMPTY), acts[0]), acts[1]), acts[2]) == Awaiting()
  {
    var b := Board([Order(Assigned, Paused)], [], [], []);
    assert Step(EMPTY, OpNew(false)) == b;
    SL.FirstRequest();
    assert Add(b, Awaiting().board.blockers[0]) == Awaiting().board by {
      assert [] + Awaiting().board.blockers == Awaiting().board.blockers;
      assert Blocks(Awaiting().board.blockers[0], 0, AwaitingShortage);
      assert b.orders[0 := Order(Assigned, PendingParts)] == Awaiting().board.orders;
    }
    assert !Waiting(b.blockers, 0, RefOf(0));
  }

  /** Rejecting the shortage there leaves the order waiting for a rejected report. */
  lemma RejectionLeavesWaiting()
    ensures var a := Stock(S.OpDecide(0, R.Decision(R.Reject, 0, 0, 5)));
      LeavesWaiting(Awaiting(), a) && !NoneWaits(JointStep(Awaiting(), a))
  {
    var j, d := Awaiting(), R.Decision(R.Reject, 0, 0, 5);
    assert Waits(j.board.blockers[0], 0, 0);
    assert LeavesWaiting(j, Stock(S.OpDecide(0, d)));
    Decides(j.db, 0, d);
    assert JointStep(j, Stock(S.OpDecide(0, d))).board == j.board;
  }
}
