/** Theorems about whole runs of the inventory services, and the exact effect of closing. */
module ReservationRuns {
  import opened Basics
  import opened Records
  import opened Reservations
  import opened StockOperations
  import opened ReservationLaws

  // ----- no over-reservation -----

  /** The check a caller can make beforehand. Only receipts of a negative quantity, consumable
      use, tool-pool issues and warehouse issues can take stock that others have reserved. */
  predicate Fits(db: Db, op: Op) {
    match op
    case OpReceive(p, qty) => 0 <= Free(db, p) + qty
    case OpConsume(p, qty, permitted, posts) =>
      permitted && posts && 0 < qty <= OnHand(db, p) ==> qty <= Free(db, p)
    case OpIssueTools(p, n, reusable) =>
      reusable && 0 < n * UNIT <= OnHand(db, p) ==> n * UNIT <= Free(db, p)
    case OpWarehouseIssue(l, qty, skip) =>
      Issuable(db, l, qty, skip) ==>
        qty - ReleasedByIssue(db.rows, db.lines[l], l, qty) <= Free(db, db.lines[l].part)
    case _ => true
  }

  lemma CoveredIsFree(db: Db)
    ensures Covered(db) <==> forall p :: Free(db, p) >= 0
  {
    if Covered(db) {
      forall p ensures Free(db, p) >= 0 {
        assert Reserved(db, p) <= OnHand(db, p);
      }
    }
    if forall p :: Free(db, p) >= 0 {
      forall p ensures Reserved(db, p) <= OnHand(db, p) {
        assert Free(db, p) >= 0;
      }
    }
  }

  /** The part whose free stock a stock-moving operation drains. */
  function PartOf(db: Db, op: Op): Id
    requires MovesStock(op)
  {
    match op
    case OpReceive(p, _) => p
    case OpConsume(p, _, _, _) => p
    case OpIssueTools(p, _, _) => p
    case OpDirectIssue(_, _, p, _) => p
    case OpWarehouseIssue(l, _, _) => if l < |db.lines| then db.lines[l].part else 0
  }

  lemma FitsIsNoDeficit(db: Db, op: Op)
    requires MovesStock(op) && forall p :: Free(db, p) >= 0
    ensures Fits(db, op) <==> Drain(db, op, PartOf(db, op)) <= Free(db, PartOf(db, op))
    ensures forall p :: p != PartOf(db, op) ==> Drain(db, op, p) == 0
  {
    assert Free(db, PartOf(db, op)) >= 0;
  }

  lemma DrainCovered(a: Db, b: Db, q: Id, drain: Id -> int)
    requires forall p :: Free(a, p) >= 0
    requires forall p :: Free(b, p) == Free(a, p) - drain(p)
    requires forall p :: p != q ==> drain(p) == 0
    ensures Covered(b) <==> drain(q) <= Free(a, q)
  {
    CoveredIsFree(b);
    if drain(q) <= Free(a, q) {
      forall p ensures Free(b, p) >= 0 {
        assert Free(a, p) >= 0 && Free(b, p) == Free(a, p) - drain(p);
      }
    } else {
      assert Free(b, q) == Free(a, q) - drain(q);
    }
  }

  /** One step keeps the bound exactly when it fits. */
  lemma StepCovered(db: Db, op: Op)
    requires TableOk(db) && Covered(db)
    ensures TableOk(Step(db, op))
    ensures Covered(Step(db, op)) <==> Fits(db, op)
  {
    if MovesStock(op) {
      StepDrain(db, op);
      CoveredIsFree(db);
      FitsIsNoDeficit(db, op);
      DrainCovered(db, Step(db, op), PartOf(db, op), (p: Id) => Drain(db, op, p));
    } else if op.OpReserve? {
      StepReserve(db, op.part, op.qty, op.wo, op.link);
    } else {
      StepQuiet(db, op);
    }
  }

  predicate RunFits(db: Db, ops: seq<Op>)
    decreases |ops|
  {
    ops == [] || (Fits(db, ops[0]) && RunFits(Step(db, ops[0]), ops[1..]))
  }

  /** No part is over-reserved in any state of a run. */
  ghost predicate AlwaysCovered(db: Db, ops: seq<Op>)
    decreases |ops|
  {
    Covered(db) && (ops == [] || AlwaysCovered(Step(db, ops[0]), ops[1..]))
  }

  /** Over any run no part is ever over-reserved if and only if every operation fits. */
  lemma {:induction false} NoOverReservation(db: Db, ops: seq<Op>)
    requires TableOk(db) && Covered(db)
    ensures AlwaysCovered(db, ops) <==> RunFits(db, ops)
    ensures RunFits(db, ops) ==> forall p :: 0 <= Reserved(Run(db, ops), p) <= OnHand(Run(db, ops), p)
    decreases |ops|
  {
    if ops == [] {
      forall p ensures 0 <= Reserved(db, p) {
        HeldNonNegative(db.rows, OfPart(p));
      }
    } else {
      StepCovered(db, ops[0]);
      if Fits(db, ops[0]) {
        NoOverReservation(Step(db, ops[0]), ops[1..]);
      }
    }
  }

  /** Operations that never need checking. */
  predicate Plain(op: Op) {
    match op
    case OpReceive(_, qty) => qty >= 0
    case OpConsume(_, _, _, _) => false
    case OpIssueTools(_, _, _) => false
    case OpWarehouseIssue(_, _, _) => false
    case _ => true
  }

  /** Requests, approvals, allocation, reallocation, reservation, release, cancellation, direct
      issue, decisions and closing, in any order, never over-reserve. */
  lemma {:induction false} PlainRunFits(db: Db, ops: seq<Op>)
    requires TableOk(db) && Covered(db)
    requires forall i :: 0 <= i < |ops| ==> Plain(ops[i])
    ensures RunFits(db, ops)
    decreases |ops|
  {
    if ops != [] {
      assert Plain(ops[0]);
      assert Free(db, if ops[0].OpReceive? then ops[0].part else 0) >= 0 by {
        assert Reserved(db, if ops[0].OpReceive? then ops[0].part else 0)
            <= OnHand(db, if ops[0].OpReceive? then ops[0].part else 0);
      }
      StepCovered(db, ops[0]);
      PlainRunFits(Step(db, ops[0]), ops[1..]);
    }
  }

  /** Five units of part 7 come in, two orders ask for five each, and both are approved: all five
      are reserved for line 0. */
  function ContendedOps(): seq<Op> {
    [OpReceive(7, 5), OpRequest(0, false, 7, 5), OpRequest(1, false, 7, 5), OpApprove(0, false), OpApprove(1, false)]
  }

  function Stocked(): Db {
    Empty({}).(stock := map[7 := 5], log := [Movement(7, StockIn, 5, 0, 5)])
  }

  function Asked(wo: Id): Line { Line(wo, 7, 5, 5, 0, 0, 0, 0, Pending, None) }

  function Contended(): Db {
    Stocked().(
      rows := [Reservation(Claim(7, 0, Some(0)), 5, Active)],
      lines := [Asked(0).(approved := 5, allotted := 5, status := Allocated),
                Asked(1).(approved := 5, status := Approved)])
  }

  lemma ContendedIsReached()
    ensures Run(Empty({}), ContendedOps()) == Contended()
  {
    var ops := ContendedOps();
    assert Step(Empty({}), ops[0]) == Stocked();
    TwoAsk();
    RunTwo(Empty({}), ops);
    RunTwo(Step(Stocked(), ops[1]), ops[2..]);
    FirstApproved();
    SecondApproved();
    assert ops[2..][2..] == [ops[4]] && [ops[4]][1..] == [];
  }

  lemma TwoAsk()
    ensures Step(Stocked(), OpRequest(0, false, 7, 5)) == Stocked().(lines := [Asked(0)])
    ensures Step(Stocked().(lines := [Asked(0)]), OpRequest(1, false, 7, 5))
         == Stocked().(lines := [Asked(0), Asked(1)])
  {
    assert Free(Stocked(), 7) == Free(Stocked().(lines := [Asked(0)]), 7) == 5;
    assert [Asked(0)] + [Asked(1)] == [Asked(0), Asked(1)];
  }

  lemma FirstApproved()
    ensures Step(Stocked().(lines := [Asked(0), Asked(1)]), OpApprove(0, false))
         == Contended().(lines := [Contended().lines[0], Asked(1)])
  {
    var db := Stocked().(lines := [Asked(0), Asked(1)]);
    var done := db.(lines := [Asked(0).(approved := 5, status := Approved), Asked(1)]);
    assert PutLine(db, 0, done.lines[0]) == done;
    assert Free(done, 7) == 5;
    assert [] + Contended().rows == Contended().rows;
    assert done.lines[0 := Contended().lines[0]] == [Contended().lines[0], Asked(1)];
    assert AllocateOne(done, 0) == Some(Contended().(lines := [Contended().lines[0], Asked(1)]));
  }

  lemma SecondApproved()
    ensures Step(Contended().(lines := [Contended().lines[0], Asked(1)]), OpApprove(1, false)) == Contended()
  {
    var db := Contended().(lines := [Contended().lines[0], Asked(1)]);
    assert PutLine(db, 1, Contended().lines[1]) == Contended();
    ContendedHolds(OfPart(7));
    assert AllocateOne(Contended(), 1) == Some(Contended());
  }

  lemma ContendedHolds(c: Claim -> bool)
    ensures Held(Contended().rows, c) == if c(Claim(7, 0, Some(0))) then 5 else 0
  {
    assert Contended().rows[..0] == [];
  }

  lemma ContendedIsSound()
    ensures TableOk(Contended()) && Covered(Contended()) && LineCovered(Contended())
  {
    forall p ensures Reserved(Contended(), p) <= OnHand(Contended(), p) {
      ContendedHolds(OfPart(p));
    }
    forall l | 0 <= l < 2 ensures Held(Contended().rows, OfLine(l)) <= Contended().lines[l].allotted {
      ContendedHolds(OfLine(l));
    }
  }

  /** A warehouse issue that does not fit: the five units go out to line 1, because only stock on
      hand is checked. */
  lemma WarehouseIssueMayOverReserve()
    ensures var db := Run(Empty({}), ContendedOps());
      TableOk(db) && Covered(db) && LineCovered(db)
      && WarehouseIssue(db, 1, 5, false).Some?
      && !Covered(Step(db, OpWarehouseIssue(1, 5, false)))
  {
    ContendedIsReached();
    ContendedIsSound();
    IssuedFromContended();
    CoveredIsFree(Step(Contended(), OpWarehouseIssue(1, 5, false)));
  }

  lemma IssuedFromContended()
    ensures WarehouseIssue(Contended(), 1, 5, false).Some?
    ensures Overdrawn(Step(Contended(), OpWarehouseIssue(1, 5, false)))
  {
    ContendedIsSound();
    ContendedHolds(OfPart(7));
    ContendedHolds(Linked(7, 1));
    ContendedHolds(Legacy(7, 1));
    AllIssued(Contended());
  }

  /** Part 7 has five units reserved beyond its stock; orders 0 and 1 have a line each. */
  predicate Overdrawn(db: Db) {
    && 7 in db.stock && Free(db, 7) == -5 && db.reports == []
    && |db.lines| == 2 && db.lines[0].wo == 0 && db.lines[1].wo == 1
  }

  /** All five units go out to line 1, which has no reservation. */
  lemma AllIssued(db: Db)
    requires TableOk(db) && |db.lines| == 2 && Issuable(db, 1, 5, false) && db.reports == []
    requires db.lines[0].wo == 0 && db.lines[1].wo == 1 && db.lines[1].part == 7 && Free(db, 7) == 0
    requires Held(db.rows, Linked(7, 1)) == 0 && Held(db.rows, Legacy(7, 1)) == 0
    ensures Overdrawn(Step(db, OpWarehouseIssue(1, 5, false)))
  {
    var op := OpWarehouseIssue(1, 5, false);
    StepDrain(db, op);
    assert Free(Step(db, op), 7) == Free(db, 7) - Drain(db, op, 7);
    assert Step(db, op) == Issue(db, 1, 5);
  }

  // ----- the ledger over runs -----

  /** Quantity granted by `reserve_stock` for a part over a run. */
  function ReservedDirectly(db: Db, ops: seq<Op>, p: Id): int
    decreases |ops|
  {
    if ops == [] then 0 else
    (match ops[0]
     case OpReserve(q, qty, w, l) => if q == p && Reserve(db, q, qty, w, l).Some? then qty else 0
     case _ => 0) + ReservedDirectly(Step(db, ops[0]), ops[1..], p)
  }

  lemma StepLedger(db: Db, op: Op)
    requires TableOk(db)
    ensures TableOk(Step(db, op)) && Follows(db.rows, Step(db, op).rows)
    ensures forall p :: Balance(Step(db, op), p) == Balance(db, p) + ReservedDirectly(db, [op], p)
  {
    assert forall p :: ReservedDirectly(Step(db, op), [op][1..], p) == 0;
    if MovesStock(op) {
      StepDrain(db, op);
    } else if op.OpReserve? {
      StepReserve(db, op.part, op.qty, op.wo, op.link);
    } else {
      StepQuiet(db, op);
    }
    assert forall p :: Balance(Step(db, op), p) == Balance(Step(db, op), p);
  }

  /** Over any run the table constraints hold, every row follows its history, and the quantity
      ever put on a part's rows is what its lines were allotted plus what was reserved directly. */
  lemma {:induction false} LedgerConservation(db: Db, ops: seq<Op>)
    requires TableOk(db)
    ensures TableOk(Run(db, ops)) && Follows(db.rows, Run(db, ops).rows)
    ensures forall p :: Balance(Run(db, ops), p) == Balance(db, p) + ReservedDirectly(db, ops, p)
    decreases |ops|
  {
    if ops != [] {
      var next := Step(db, ops[0]);
      StepLedger(db, ops[0]);
      LedgerConservation(next, ops[1..]);
      FollowsTransitive(db.rows, next.rows, Run(db, ops).rows);
      forall p
        ensures Balance(Run(db, ops), p) == Balance(db, p) + ReservedDirectly(db, ops, p)
      {
        assert Balance(next, p) == Balance(db, p) + ReservedDirectly(db, [ops[0]], p);
        assert ReservedDirectly(next, [ops[0]][1..], p) == 0;
      }
    }
  }

  /** From an empty database: all quantity ever reserved for a part is the sum of its lines'
      `allocated_qty` and of the direct reservations. */
  lemma LedgerFromEmpty(emergency: set<Id>, ops: seq<Op>, p: Id)
    ensures var db := Run(Empty(emergency), ops);
      && OneActivePerLine(db.rows) && Positive(db.rows)
      && Sum(db.rows, Ever(OfPart(p))) == Allotted(db.lines, p) + ReservedDirectly(Empty(emergency), ops, p)
  {
    var start := Empty(emergency);
    LedgerConservation(start, ops);
    assert Balance(start, p) == 0;
    assert Balance(Run(start, ops), p) == Balance(start, p) + ReservedDirectly(start, ops, p);
  }

  /** A direct reservation for a line keeps the line's bound when its quantity is within what the
      line was allotted. */
  predicate KeepsLineBound(db: Db, op: Op) {
    match op
    case OpReserve(p, qty, _, Some(l)) =>
      l < |db.lines| && 0 < qty <= Free(db, p) && !HasActive(db.rows, l) ==> qty <= db.lines[l].allotted
    case _ => true
  }

  /** A line never holds more ACTIVE stock than its `allocated_qty`; only `reserve_stock` called
      with a line can break this, and it does exactly when it asks for more. */
  lemma StepLineBound(db: Db, op: Op)
    requires TableOk(db) && LineCovered(db)
    ensures LineCovered(Step(db, op)) <==> KeepsLineBound(db, op)
  {
    if MovesStock(op) {
      StepDrain(db, op);
    } else if op.OpReserve? {
      StepReserve(db, op.part, op.qty, op.wo, op.link);
    } else {
      StepQuiet(db, op);
    }
  }

  predicate RunKeepsLineBound(db: Db, ops: seq<Op>)
    decreases |ops|
  {
    ops == [] || (KeepsLineBound(db, ops[0]) && RunKeepsLineBound(Step(db, ops[0]), ops[1..]))
  }

  /** The bound holds in every state of a run. */
  ghost predicate AlwaysLineCovered(db: Db, ops: seq<Op>)
    decreases |ops|
  {
    LineCovered(db) && (ops == [] || AlwaysLineCovered(Step(db, ops[0]), ops[1..]))
  }

  lemma {:induction false} LineBoundOverRuns(db: Db, ops: seq<Op>)
    requires TableOk(db) && LineCovered(db)
    ensures AlwaysLineCovered(db, ops) <==> RunKeepsLineBound(db, ops)
    decreases |ops|
  {
    if ops != [] {
      StepLineBound(db, ops[0]);
      StepLedger(db, ops[0]);
      if KeepsLineBound(db, ops[0]) {
        LineBoundOverRuns(Step(db, ops[0]), ops[1..]);
      }
    }
  }

  // ----- closing -----

  /** Closing a report cancels exactly the ACTIVE rows of its part and order that are legacy or
      belong to its lines, frees exactly their sum, and touches neither stock nor lines. */
  lemma ClosingReportIsExact(db: Db, r: Id)
    requires TableOk(db) && r < |db.reports| && Closed in NextReport(db.reports[r].status)
    ensures var b := Step(db, OpMoveReport(r, Closed)); var report := db.reports[r];
      && |b.rows| == |db.rows| && b.stock == db.stock && b.lines == db.lines && b.log == db.log
      && (forall i | 0 <= i < |db.rows| :: b.rows[i] ==
            var row := db.rows[i]; var c := row.claim;
            if row.status == Active && c.part == report.part && c.wo == report.wo
               && (c.line == None || db.lines[c.line.value].report == Some(r))
            then row.(status := Cancelled) else row)
      && (forall p :: Free(b, p) == Free(db, p)
            + if p == report.part then Held(db.rows, OfClosed(db.lines, report, r)) else 0)
  {
    var report := db.reports[r];
    var c := OfClosed(db.lines, report, r);
    var mid := PutReport(db, r, report.(status := Closed));
    EndEvolves(mid, c, Cancelled);
    forall p ensures Held(db.rows, And(c, OfPart(p))) == if p == report.part then Held(db.rows, c) else 0 {
      if p == report.part {
        HeldAgree(db.rows, And(c, OfPart(p)), c);
      } else {
        HeldNothing(db.rows, And(c, OfPart(p)));
      }
    }
  }

  /** Cancelling a line cancels exactly its own ACTIVE rows and the legacy ones of its order and
      part, frees exactly their sum, leaves its `allocated_qty` as it was and moves no stock. */
  lemma CancellingIsExact(db: Db, l: Id, reason: string)
    requires TableOk(db) && CancelPart(db, l, reason).Some?
    ensures var b := Step(db, OpCancel(l, reason)); var line := db.lines[l];
      && |b.rows| == |db.rows| && b.stock == db.stock && b.log == db.log
      && b.lines == db.lines[l := line.(status := Rejected, approved := 0, issued := 0)]
      && (forall i | 0 <= i < |db.rows| :: b.rows[i] ==
            var row := db.rows[i]; var c := row.claim;
            if row.status == Active && c.part == line.part && c.wo == line.wo && (c.line == Some(l) || c.line == None)
            then row.(status := Cancelled) else row)
      && (forall p :: Free(b, p) == Free(db, p) + if p == line.part then Held(db.rows, OfCancelled(line, l)) else 0)
  {
    var c := OfCancelled(db.lines[l], l);
    EndEvolves(db, c, Cancelled);
    forall p ensures Held(db.rows, And(c, OfPart(p))) == if p == db.lines[l].part then Held(db.rows, c) else 0 {
      if p == db.lines[l].part {
        HeldAgree(db.rows, And(c, OfPart(p)), c);
      } else {
        HeldNothing(db.rows, And(c, OfPart(p)));
      }
    }
  }

  /** Any other change of a report's status, BLOCKED included, leaves all reservations alone. */
  lemma OtherMovesKeepReservations(db: Db, r: Id, to: ReportStatus)
    requires to != Closed
    ensures Step(db, OpMoveReport(r, to)).rows == db.rows
    ensures Step(db, OpMoveReport(r, to)).stock == db.stock
    ensures Step(db, OpMoveReport(r, to)).lines == db.lines
  {
  }

  /** After the sweep of a closing work order its ACTIVE rows are exactly those of lines that
      still have unmet demand; rows of other orders are as they were. */
  lemma SweepIsExact(db: Db, wo: Id, i: nat)
    requires TableOk(db) && i < |db.rows|
    ensures var row := db.rows[i]; var after := Step(db, OpReleaseStale(wo)).rows[i];
      && (row.claim.wo != wo ==> after == row)
      && (row.claim.wo == wo ==>
            (after.status == Active <==>
               row.status == Active && row.claim.line.Some?
               && db.lines[row.claim.line.value].issued < db.lines[row.claim.line.value].approved))
      && (after == row || (row.status == Active && after == row.(status := Released)))
  {
  }

  // ----- warehouse issue and release -----

  /** A warehouse issue takes min(qty, own) from the line's own rows and min(rest, legacy) from
      the legacy rows of its order, and touches no other row; legacy rows only once the own rows
      are released whole, within them the oldest first; and it splits at most one row. */
  lemma WarehouseIssueIsFifo(db: Db, l: Id, qty: int, skip: bool)
    requires TableOk(db) && WarehouseIssue(db, l, qty, skip).Some?
    ensures var b := Step(db, OpWarehouseIssue(l, qty, skip));
      var own := Linked(db.lines[l].part, l); var legacy := Legacy(db.lines[l].part, db.lines[l].wo);
      && OwnThenLegacy(db.rows, b.rows, own, legacy)
      && DrawsExactly(db.rows, b.rows, own, legacy, qty)
  {
    var own, legacy := Linked(db.lines[l].part, l), Legacy(db.lines[l].part, db.lines[l].wo);
    IssueRows(db, l, qty);
    assert Step(db, OpWarehouseIssue(l, qty, skip)) == Issue(db, l, qty);
    DrawsAreFifo(db.rows, own, legacy, qty, |db.lines|);
    DrawsAreExact(db.rows, own, legacy, qty, |db.lines|);
  }

  lemma IssueRows(db: Db, l: Id, qty: int)
    requires l < |db.lines|
    ensures Issue(db, l, qty).rows
         == DrawBoth(db.rows, Linked(db.lines[l].part, l), Legacy(db.lines[l].part, db.lines[l].wo), qty)
  {
  }

  /** The amounts two draws take, and the bound on the rows they add. */
  ghost predicate DrawsExactly(a: Table, b: Table, own: Claim -> bool, legacy: Claim -> bool, qty: int) {
    && Held(b, own) == Held(a, own) - Min(qty, Held(a, own))
    && Held(b, legacy) == Held(a, legacy) - Min(qty - Min(qty, Held(a, own)), Held(a, legacy))
    && |b| <= |a| + 1
  }

  lemma DrawsAreExact(rows: Table, own: Claim -> bool, legacy: Claim -> bool, qty: int, n: nat)
    requires Sound(rows, n) && Apart(own, legacy) && qty >= 0
    ensures DrawsExactly(rows, DrawBoth(rows, own, legacy, qty), own, legacy, qty)
  {
    var once := Drawn(rows, own, qty);
    var rest := qty - Min(qty, Held(rows, own));
    HeldNonNegative(rows, own);
    HeldNonNegative(rows, legacy);
    DrawnKeeps(rows, own, qty, n);
    DrawnWithin(rows, own, qty, own);
    DrawnApart(rows, own, qty, legacy);
    DrawnIsFifo(rows, own, qty);
    if rest > 0 {
      DrawnWithin(once, legacy, rest, legacy);
      DrawnApart(once, legacy, rest, own);
      DrawnIsFifo(once, legacy, rest);
      DrawnAllSplitsNothing(rows, own, qty);
    }
  }

  ghost predicate OwnThenLegacy(a: Table, b: Table, own: Claim -> bool, legacy: Claim -> bool) {
    && |a| <= |b|
    && (forall i :: 0 <= i < |a| && !ActiveIn(a, own, i) && !ActiveIn(a, legacy, i) ==> b[i] == a[i])
    && (forall i, j :: 0 <= i < |a| && 0 <= j < |a| && ActiveIn(a, own, i) && ActiveIn(a, legacy, j) && b[j] != a[j] ==>
          b[i] == a[i].(status := Released))
    && (forall i, j :: 0 <= i < j < |a| && ActiveIn(a, legacy, i) && ActiveIn(a, legacy, j) && b[j] != a[j] ==>
          b[i] == a[i].(status := Released))
  }

  lemma DrawsAreFifo(rows: Table, own: Claim -> bool, legacy: Claim -> bool, qty: int, n: nat)
    requires Sound(rows, n) && Apart(own, legacy) && qty >= 0
    ensures OwnThenLegacy(rows, DrawBoth(rows, own, legacy, qty), own, legacy)
  {
    var once := Drawn(rows, own, qty);
    var rest := qty - Min(qty, Held(rows, own));
    DrawnTouches(rows, own, qty);
    DrawnKeeps(rows, own, qty, n);
    if rest > 0 {
      DrawnTouches(once, legacy, rest);
      DrawnWhole(rows, own, qty);
      SecondDraw(rows, once, Drawn(once, legacy, rest), own, legacy);
    } else {
      FirstDraw(rows, once, own, legacy);
    }
  }

  lemma FirstDraw(a: Table, b: Table, own: Claim -> bool, legacy: Claim -> bool)
    requires Touches(a, b, own) && Apart(own, legacy)
    ensures OwnThenLegacy(a, b, own, legacy)
  {
    forall i: nat | ActiveIn(a, legacy, i) ensures !ActiveIn(a, own, i) {
      var x := a[i].claim;
      assert !(own(x) && legacy(x));
    }
  }

  /** Drawing legacy rows after all own rows were released whole. */
  lemma SecondDraw(a: Table, b: Table, c: Table, own: Claim -> bool, legacy: Claim -> bool)
    requires Touches(a, b, own) && Emptied(a, b, own) && Touches(b, c, legacy) && Apart(own, legacy)
    ensures OwnThenLegacy(a, c, own, legacy)
  {
    forall i: nat | i < |a| ensures ActiveIn(b, legacy, i) <==> ActiveIn(a, legacy, i) {
      var x := a[i].claim;
      assert !(own(x) && legacy(x));
    }
  }

  /** `release_reservation` frees all of the quantity, oldest legacy rows first, or nothing. */
  lemma ReleaseIsAllOrNothing(db: Db, p: Id, qty: int, wo: Id)
    requires TableOk(db)
    ensures var b := Step(db, OpRelease(p, qty, wo)); var c := Legacy(p, wo);
      && (if qty > 0 && p in db.stock && qty <= Held(db.rows, c)
          then (forall q :: Free(b, q) == Free(db, q) + if q == p then qty else 0)
            && (forall i, j :: 0 <= i < j < |db.rows| && ActiveIn(db.rows, c, i) && b.rows[j] != db.rows[j] ==>
                  b.rows[i] == db.rows[i].(status := Released))
          else b == db)
      && (forall i :: 0 <= i < |db.rows| && !ActiveIn(db.rows, c, i) ==> b.rows[i] == db.rows[i])
  {
    if qty > 0 && p in db.stock && qty <= Held(db.rows, Legacy(p, wo)) {
      DrawEvolves(db, p, Legacy(p, wo), qty, None);
      DrawnTouches(db.rows, Legacy(p, wo), qty);
    }
  }

  // ----- edits of a decision -----

  /** The checks an edit of a decision passes before it touches reservations. */
  predicate Editable(db: Db, r: Id, issue: int, procure: int, reject: int) {
    && r < |db.reports| && !Locked(db.reports[r].status) && db.reports[r].decision.Some?
    && Balanced(db.reports[r].decision.value.(issue := issue, procure := procure, reject := reject),
                db.reports[r].requested)
  }

  /** An upward edit is refused exactly when stock is free that the report's line could take but
      the line still has an ACTIVE reservation. */
  lemma UpwardEditRefusedExactly(db: Db, r: Id, issue: int, procure: int, reject: int)
    requires Editable(db, r, issue, procure, reject) && issue > db.reports[r].decision.value.issue >= 0
    ensures var l := LineOf(db.lines, r);
      EditDecision(db, r, issue, procure, reject) == None <==>
        && l.Some? && HasActive(db.rows, l.value)
        && db.lines[l.value].Open() && db.lines[l.value].allotted < issue
        && Available(db, db.lines[l.value].part) > 0
  {
  }

  /** A downward edit by `drop` frees exactly `drop` of the legacy reservations when there are as
      many, and nothing otherwise; it never touches a row of a line, nor what the line was
      allotted, so the line keeps more than it is approved for exactly when it was allotted more
      than the new quantity. */
  lemma DownwardEditKeepsAllotted(db: Db, r: Id, issue: int, procure: int, reject: int)
    requires TableOk(db)
    requires Editable(db, r, issue, procure, reject) && issue < db.reports[r].decision.value.issue
    ensures var report := db.reports[r]; var l := LineOf(db.lines, r);
      var o := EditDecision(db, r, issue, procure, reject);
      var drop := report.decision.value.issue - issue;
      && (o.Some? <==> report.part in db.stock)
      && (o.Some? ==>
            && FreesLegacy(db, o.value, report.part, report.wo, drop)
            && (l.Some? ==>
                  && |o.value.lines| == |db.lines|
                  && (o.value.lines[l.value].allotted > o.value.lines[l.value].approved <==>
                        db.lines[l.value].allotted > issue)))
  {
    var report := db.reports[r];
    if report.part in db.stock {
      var drop := report.decision.value.issue - issue;
      var b := EditDecision(db, r, issue, procure, reject).value;
      EditRows(db, r, issue, procure, reject);
      LegacyFreed(db, b, report.part, report.wo, drop);
    }
  }

  lemma LegacyFreed(db: Db, b: Db, p: Id, wo: Id, drop: int)
    requires TableOk(db) && p in db.stock && drop > 0
    requires b.stock == db.stock && b.rows == Step(db, OpRelease(p, drop, wo)).rows
    ensures FreesLegacy(db, b, p, wo, drop)
  {
    ReleaseIsAllOrNothing(db, p, drop, wo);
    assert forall q :: Free(b, q) == Free(Step(db, OpRelease(p, drop, wo)), q);
    assert forall i :: 0 <= i < |db.rows| && db.rows[i].claim.line.Some? ==> !ActiveIn(db.rows, Legacy(p, wo), i);
  }

  /** `qty` is freed from legacy rows if there is as much, and no row of a line changes. */
  ghost predicate FreesLegacy(a: Db, b: Db, p: Id, wo: Id, qty: int) {
    && |a.rows| <= |b.rows|
    && (forall q :: Free(b, q) == Free(a, q) + if q == p && qty <= Held(a.rows, Legacy(p, wo)) then qty else 0)
    && (forall i :: 0 <= i < |a.rows| && a.rows[i].claim.line.Some? ==> b.rows[i] == a.rows[i])
  }

  lemma EditRows(db: Db, r: Id, issue: int, procure: int, reject: int)
    requires Editable(db, r, issue, procure, reject) && issue < db.reports[r].decision.value.issue
    requires db.reports[r].part in db.stock
    ensures var report := db.reports[r]; var o := EditDecision(db, r, issue, procure, reject);
      && o.Some? && o.value.stock == db.stock
      && (var l := LineOf(db.lines, r); l.Some? ==>
            && |o.value.lines| == |db.lines|
            && o.value.lines[l.value].allotted == db.lines[l.value].allotted
            && o.value.lines[l.value].approved == issue)
      && o.value.rows == Step(db, OpRelease(report.part, report.decision.value.issue - issue, report.wo)).rows
  {
  }
}
