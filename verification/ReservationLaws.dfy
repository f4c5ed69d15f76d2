/** What every run of the inventory services keeps about reservations: the table constraints,
    the history of each row, the books of the reservation ledger, the bound by allotted
    quantities and the bound by stock on hand. */
module ReservationLaws {
  import opened Basics
  import opened Records
  import opened Reservations
  import opened StockOperations

  // ----- the books of the reservation ledger -----

  /** The `allocated_qty` of all lines of a part. */
  function Allotted(lines: seq<Line>, p: Id): int {
    if lines == [] then 0 else
    Allotted(lines[..|lines| - 1], p) +
    if lines[|lines| - 1].part == p then lines[|lines| - 1].allotted else 0
  }

  /** All quantity ever put on reservation rows of a part, less what its lines were allotted. */
  function Balance(db: Db, p: Id): int {
    Sum(db.rows, Ever(OfPart(p))) - Allotted(db.lines, p)
  }

  lemma {:induction false} AllottedUpdate(lines: seq<Line>, l: Id, line: Line, p: Id)
    requires l < |lines| && line.part == lines[l].part
    ensures Allotted(lines[l := line], p) ==
            Allotted(lines, p) + if line.part == p then line.allotted - lines[l].allotted else 0
  {
    var n := |lines| - 1;
    if l == n {
      assert lines[l := line][..n] == lines[..n];
    } else {
      AllottedUpdate(lines[..n], l, line, p);
      assert lines[l := line][..n] == lines[..n][l := line];
    }
  }

  // ----- relations between a state and a later one -----

  ghost predicate TableOk(db: Db) { Sound(db.rows, |db.lines|) }

  ghost predicate LineCovered(db: Db) {
    forall l :: 0 <= l < |db.lines| ==> Held(db.rows, OfLine(l)) <= db.lines[l].allotted
  }

  /** No over-reservation. */
  ghost predicate Covered(db: Db) {
    forall p :: Reserved(db, p) <= OnHand(db, p)
  }

  ghost predicate SameBooks(a: Db, b: Db) {
    forall p :: Balance(a, p) == Balance(b, p)
  }

  /** What every operation but `reserve_stock` does to the reservation ledger. */
  ghost predicate Evolves(a: Db, b: Db) {
    && |a.lines| <= |b.lines|
    && TableOk(b)
    && Follows(a.rows, b.rows)
    && SameBooks(a, b)
    && (LineCovered(a) ==> LineCovered(b))
  }

  /** What an operation that moves no stock does to the free stock of each part: reservations
      grow only within the stock on hand. */
  ghost predicate Calm(a: Db, b: Db) {
    forall p :: OnHand(b, p) == OnHand(a, p) && Reserved(b, p) <= Max(Reserved(a, p), OnHand(a, p))
  }

  lemma Chain(a: Db, b: Db, c: Db)
    requires Evolves(a, b) && Evolves(b, c)
    ensures Evolves(a, c)
  {
    FollowsTransitive(a.rows, b.rows, c.rows);
    forall p ensures Balance(a, p) == Balance(c, p) {
      assert Balance(a, p) == Balance(b, p);
    }
  }

  lemma CalmChain(a: Db, b: Db, c: Db)
    requires Calm(a, b) && Calm(b, c)
    ensures Calm(a, c)
  {
    forall p ensures OnHand(c, p) == OnHand(a, p) && Reserved(c, p) <= Max(Reserved(a, p), OnHand(a, p)) {
      assert OnHand(b, p) == OnHand(a, p);
    }
  }

  // ----- edits of lines -----

  lemma PutLineEvolves(db: Db, l: Id, line: Line)
    requires TableOk(db) && l < |db.lines|
    requires line.part == db.lines[l].part && line.allotted == db.lines[l].allotted
    ensures Evolves(db, PutLine(db, l, line)) && Calm(db, PutLine(db, l, line))
  {
    forall p ensures Balance(db, p) == Balance(PutLine(db, l, line), p) {
      AllottedUpdate(db.lines, l, line, p);
    }
  }

  lemma AddLineEvolves(db: Db, after: Db, line: Line)
    requires TableOk(db) && line.allotted == 0
    requires after.rows == db.rows && after.lines == db.lines + [line]
    ensures Evolves(db, after)
  {
    var n := |db.lines|;
    assert after.lines[..n] == db.lines;
    HeldNothing(db.rows, OfLine(n));
  }

  // ----- allocation -----

  lemma AllocateOneEvolves(db: Db, l: Id)
    requires TableOk(db)
    ensures var b := Or(AllocateOne(db, l), db); Evolves(db, b) && Calm(db, b)
  {
    var b := Or(AllocateOne(db, l), db);
    if b != db {
      var line := db.lines[l];
      var give := Min(Gap(line), Max(0, Free(db, line.part)));
      var row := Reservation(Claim(line.part, line.wo, Some(l)), give, Active);
      HeldNothing(db.rows, OfLine(l));
      PushKeeps(db.rows, row, |db.lines|);
      forall p ensures Balance(db, p) == Balance(b, p) {
        AllottedUpdate(db.lines, l, Granted(line, give), p);
        SumPush(db.rows, row, Ever(OfPart(p)));
      }
      forall p
        ensures Reserved(b, p) == Reserved(db, p) + if p == line.part then give else 0
      {
        SumPush(db.rows, row, Live(OfPart(p)));
      }
      forall k | 0 <= k < |db.lines|
        ensures Held(b.rows, OfLine(k)) == Held(db.rows, OfLine(k)) + if k == l then give else 0
      {
        SumPush(db.rows, row, Live(OfLine(k)));
      }
    }
  }

  lemma {:induction false} AllocateAllEvolves(db: Db, ids: seq<Id>)
    requires TableOk(db)
    ensures Evolves(db, AllocateAll(db, ids)) && Calm(db, AllocateAll(db, ids))
    decreases |ids|
  {
    if ids != [] {
      var next := Or(AllocateOne(db, ids[0]), db);
      AllocateOneEvolves(db, ids[0]);
      AllocateAllEvolves(next, ids[1..]);
      Chain(db, next, AllocateAll(db, ids));
      CalmChain(db, next, AllocateAll(db, ids));
    }
  }

  // ----- ending and drawing reservations -----

  lemma EndEvolves(db: Db, c: Claim -> bool, status: ReservationStatus)
    requires TableOk(db) && status != Active
    ensures var b := db.(rows := EndAll(db.rows, c, status));
      Evolves(db, b) && Calm(db, b)
      && forall p :: Reserved(b, p) == Reserved(db, p) - Held(db.rows, And(c, OfPart(p)))
  {
    var b := db.(rows := EndAll(db.rows, c, status));
    EndAllKeeps(db.rows, c, status, |db.lines|);
    forall p ensures Balance(db, p) == Balance(b, p)
      ensures Reserved(b, p) == Reserved(db, p) - Held(db.rows, And(c, OfPart(p))) <= Reserved(db, p)
    {
      EndAllSums(db.rows, c, status, OfPart(p));
      HeldNonNegative(db.rows, And(c, OfPart(p)));
    }
    forall l | 0 <= l < |db.lines|
      ensures Held(b.rows, OfLine(l)) <= Held(db.rows, OfLine(l))
    {
      EndAllSums(db.rows, c, status, OfLine(l));
      HeldNonNegative(db.rows, And(c, OfLine(l)));
    }
  }

  /** Drawing legacy rows of a part, or the rows of one line of a part. */
  lemma DrawEvolves(db: Db, part: Id, c: Claim -> bool, qty: int, owner: Option<Id>)
    requires TableOk(db) && qty >= 0
    requires forall x: Claim :: c(x) ==> x.part == part && x.line == owner
    ensures var b := db.(rows := Drawn(db.rows, c, qty));
      Evolves(db, b) && Calm(db, b)
      && (forall p :: Reserved(b, p) == Reserved(db, p) - if p == part then Min(qty, Held(db.rows, c)) else 0)
  {
    var b := db.(rows := Drawn(db.rows, c, qty));
    DrawnKeeps(db.rows, c, qty, |db.lines|);
    HeldNonNegative(db.rows, c);
    forall p ensures Balance(db, p) == Balance(b, p)
      ensures Reserved(b, p) == Reserved(db, p) - if p == part then Min(qty, Held(db.rows, c)) else 0
    {
      DrawnConserves(db.rows, c, qty, OfPart(p));
      if p == part {
        DrawnWithin(db.rows, c, qty, OfPart(p));
      } else {
        DrawnApart(db.rows, c, qty, OfPart(p));
      }
    }
    forall l | 0 <= l < |db.lines|
      ensures Held(b.rows, OfLine(l)) <= Held(db.rows, OfLine(l))
    {
      if owner == Some(l) {
        DrawnWithin(db.rows, c, qty, OfLine(l));
      } else {
        DrawnApart(db.rows, c, qty, OfLine(l));
      }
    }
  }

  /** A warehouse issue releases exactly min(qty, own + legacy reservations). */
  lemma DrawForIssueEvolves(db: Db, l: Id, qty: int)
    requires TableOk(db) && qty >= 0 && l < |db.lines|
    ensures var line := db.lines[l]; var b := db.(rows := DrawForIssue(db.rows, line, l, qty));
      Evolves(db, b)
      && (forall p :: Reserved(b, p)
            == Reserved(db, p) - if p == line.part then ReleasedByIssue(db.rows, line, l, qty) else 0)
  {
    var line := db.lines[l];
    var own, legacy := Linked(line.part, l), Legacy(line.part, line.wo);
    var b := db.(rows := DrawForIssue(db.rows, line, l, qty));
    var once := db.(rows := Drawn(db.rows, own, qty));
    DrawEvolves(db, line.part, own, qty, Some(l));
    HeldNonNegative(db.rows, own);
    HeldNonNegative(db.rows, legacy);
    DrawnApart(db.rows, own, qty, legacy);
    var rest := qty - Min(qty, Held(db.rows, own));
    if rest > 0 {
      DrawEvolves(once, line.part, legacy, rest, None);
      assert b == once.(rows := Drawn(once.rows, legacy, rest));
      Chain(db, once, b);
    } else {
      assert b == once;
    }
    forall p
      ensures Reserved(b, p) == Reserved(db, p) - if p == line.part then ReleasedByIssue(db.rows, line, l, qty) else 0
    {
      assert Reserved(once, p) == Reserved(db, p) - if p == line.part then Min(qty, Held(db.rows, own)) else 0;
    }
  }

  // ----- one step -----

  ghost predicate Quiet(a: Db, b: Db) { Evolves(a, b) && Calm(a, b) }

  lemma QuietChain(a: Db, b: Db, c: Db)
    requires Quiet(a, b) && Quiet(b, c)
    ensures Quiet(a, c)
  {
    Chain(a, b, c);
    CalmChain(a, b, c);
  }

  /** Editing reports alone says nothing about reservations. */
  lemma ReportsQuiet(db: Db, reports: seq<Report>)
    requires TableOk(db)
    ensures Quiet(db, db.(reports := reports))
  {
    var b := db.(reports := reports);
    assert forall p :: Balance(db, p) == Balance(b, p);
  }

  lemma RequestPartQuiet(db: Db, wo: Id, closed: bool, p: Id, qty: int)
    requires TableOk(db)
    ensures Quiet(db, Or(RequestPart(db, wo, closed, p, qty), db))
  {
    var b := Or(RequestPart(db, wo, closed, p, qty), db);
    if b.lines != db.lines {
      AddLineEvolves(db, b, b.lines[|db.lines|]);
    } else {
      ReportsQuiet(db, b.reports);
    }
  }

  lemma RaiseShortageQuiet(db: Db, wo: Id, p: Id)
    requires TableOk(db)
    ensures Quiet(db, Or(RaiseShortage(db, wo, p), db))
  {
    var b := Or(RaiseShortage(db, wo, p), db);
    var mid := db.(reports := b.reports);
    ReportsQuiet(db, b.reports);
    var l := PendingLine(db.lines, wo, p);
    if b != mid {
      PutLineEvolves(mid, l.value, b.lines[l.value]);
      assert b == PutLine(mid, l.value, b.lines[l.value]);
      QuietChain(db, mid, b);
    }
  }

  lemma ApprovePartQuiet(db: Db, l: Id, auto: bool)
    requires TableOk(db)
    ensures Quiet(db, Or(ApprovePart(db, l, auto), db))
  {
    if l < |db.lines| && db.lines[l].status == Pending && db.lines[l].quantity > 0 {
      var line := db.lines[l];
      var approved := if auto then line.requested else line.quantity;
      var after := line.(status := Approved, approved := approved, shortage := Max(0, line.requested - approved));
      PutLineEvolves(db, l, after);
      AllocateOneEvolves(PutLine(db, l, after), l);
      QuietChain(db, PutLine(db, l, after), Or(ApprovePart(db, l, auto), db));
    } else {
      ReportsQuiet(db, db.reports);
    }
  }

  lemma CancelPartQuiet(db: Db, l: Id, reason: string)
    requires TableOk(db)
    ensures Quiet(db, Or(CancelPart(db, l, reason), db))
  {
    var b := Or(CancelPart(db, l, reason), db);
    if b != db {
      var mid := PutLine(db, l, b.lines[l]);
      PutLineEvolves(db, l, b.lines[l]);
      EndEvolves(mid, OfCancelled(db.lines[l], l), Cancelled);
      QuietChain(db, mid, b);
    } else {
      ReportsQuiet(db, db.reports);
    }
  }

  lemma ReleaseQuiet(db: Db, p: Id, qty: int, wo: Id)
    requires TableOk(db)
    ensures Quiet(db, Or(Release(db, p, qty, wo), db))
  {
    if qty > 0 {
      DrawEvolves(db, p, Legacy(p, wo), qty, None);
    }
    ReportsQuiet(db, db.reports);
  }

  lemma MoveReportQuiet(db: Db, r: Id, to: ReportStatus)
    requires TableOk(db)
    ensures Quiet(db, Or(MoveReport(db, r, to), db))
  {
    var b := Or(MoveReport(db, r, to), db);
    var mid := db.(reports := b.reports);
    ReportsQuiet(db, b.reports);
    if b != mid {
      EndEvolves(mid, OfClosed(db.lines, db.reports[r], r), Cancelled);
      QuietChain(db, mid, b);
    }
  }

  lemma SetApprovedQuiet(db: Db, l: Option<Id>, approved: int)
    requires TableOk(db) && (l.Some? ==> l.value < |db.lines|)
    ensures Quiet(db, SetApproved(db, l, approved))
  {
    if l.Some? {
      PutLineEvolves(db, l.value, db.lines[l.value].(approved := approved));
    } else {
      ReportsQuiet(db, db.reports);
    }
  }

  lemma ApproveAndAllocateQuiet(db: Db, l: Option<Id>, approved: int)
    requires TableOk(db) && (l.Some? ==> l.value < |db.lines|)
    ensures Quiet(db, Or(ApproveAndAllocate(db, l, approved), db))
  {
    ReportsQuiet(db, db.reports);
    if l.Some? {
      var raised := SetApproved(db, l, approved);
      SetApprovedQuiet(db, l, approved);
      AllocateOneEvolves(raised, l.value);
      QuietChain(db, raised, Or(AllocateOne(raised, l.value), raised));
    }
  }

  lemma DecideQuiet(db: Db, r: Id, d: Decision)
    requires TableOk(db)
    ensures Quiet(db, Or(Decide(db, r, d), db))
  {
    var b := Or(Decide(db, r, d), db);
    var decided := db.(reports := b.reports);
    ReportsQuiet(db, db.reports);
    ReportsQuiet(db, b.reports);
    if Decide(db, r, d).Some? && d.kind == Approve {
      var l := LineOf(db.lines, r);
      ApproveAndAllocateQuiet(decided, l, d.issue);
      var mid := if d.issue > 0 then Or(ApproveAndAllocate(decided, l, d.issue), decided) else decided;
      QuietChain(db, decided, mid);
      if b != mid {
        PutLineEvolves(mid, l.value, b.lines[l.value]);
        QuietChain(db, mid, b);
      }
    }
  }

  lemma AdjustQuiet(db: Db, l: Option<Id>, p: Id, wo: Id, delta: int, issue: int)
    requires TableOk(db) && (l.Some? ==> l.value < |db.lines|)
    ensures Quiet(db, Or(AdjustReservation(db, l, p, wo, delta, issue), db))
  {
    ReportsQuiet(db, db.reports);
    if delta > 0 {
      ApproveAndAllocateQuiet(db, l, issue);
    } else if delta < 0 {
      var o := Release(db, p, -delta, wo);
      ReleaseQuiet(db, p, -delta, wo);
      assert |db.lines| <= |Or(o, db).lines|;
      ThenSetApproved(db, Or(o, db), l, issue);
    }
  }

  lemma ThenSetApproved(db: Db, mid: Db, l: Option<Id>, approved: int)
    requires TableOk(db) && Quiet(db, mid) && (l.Some? ==> l.value < |mid.lines|)
    ensures Quiet(db, SetApproved(mid, l, approved))
  {
    SetApprovedQuiet(mid, l, approved);
    QuietChain(db, mid, SetApproved(mid, l, approved));
  }

  lemma EditDecisionQuiet(db: Db, r: Id, issue: int, procure: int, reject: int)
    requires TableOk(db)
    ensures Quiet(db, Or(EditDecision(db, r, issue, procure, reject), db))
  {
    var b := Or(EditDecision(db, r, issue, procure, reject), db);
    ReportsQuiet(db, db.reports);
    if EditDecision(db, r, issue, procure, reject).Some? {
      var report := db.reports[r];
      var d := report.decision.value.(issue := issue, procure := procure, reject := reject);
      var edited := PutReport(db, r, report.(decision := Some(d)));
      ReportsQuiet(db, edited.reports);
      AdjustQuiet(edited, LineOf(db.lines, r), report.part, report.wo, issue - report.decision.value.issue, issue);
      QuietChain(db, edited, b);
    }
  }

  /** Operations that move stock. */
  predicate MovesStock(op: Op) {
    op.OpReceive? || op.OpWarehouseIssue? || op.OpDirectIssue? || op.OpConsume? || op.OpIssueTools?
  }

  lemma RejectQuiet(db: Db, l: Id, reason: string)
    requires TableOk(db)
    ensures Quiet(db, Or(RejectPart(db, l, reason), db))
  {
    ReportsQuiet(db, db.reports);
    if RejectPart(db, l, reason).Some? { PutLineEvolves(db, l, db.lines[l].(status := Rejected)); }
  }

  lemma EditQuantityQuiet(db: Db, l: Id, qty: int)
    requires TableOk(db)
    ensures Quiet(db, Or(EditQuantity(db, l, qty), db))
  {
    ReportsQuiet(db, db.reports);
    var b := Or(EditQuantity(db, l, qty), db);
    if b != db { PutLineEvolves(db, l, b.lines[l]); }
  }

  lemma StepQuiet(db: Db, op: Op)
    requires TableOk(db) && !MovesStock(op) && !op.OpReserve?
    ensures Quiet(db, Step(db, op))
  {
    match op
    case OpRequest(w, closed, p, q) => RequestPartQuiet(db, w, closed, p, q);
    case OpRaise(w, p) => RaiseShortageQuiet(db, w, p);
    case OpApprove(l, auto) => ApprovePartQuiet(db, l, auto);
    case OpReject(l, reason) => RejectQuiet(db, l, reason);
    case OpCancel(l, reason) => CancelPartQuiet(db, l, reason);
    case OpEditQuantity(l, q) => EditQuantityQuiet(db, l, q);
    case OpRelease(p, q, w) => ReleaseQuiet(db, p, q, w);
    case OpAllocate(l) => AllocateOneEvolves(db, l);
    case OpReallocate(p) => AllocateAllEvolves(db, Queue(db, p));
    case OpReleaseStale(w) => EndEvolves(db, Stale(db.lines, w), Released);
    case _ => ManageQuiet(db, op);
  }

  /** What a manager does with a report. */
  predicate Manages(op: Op) { op.OpDecide? || op.OpEditDecision? || op.OpMoveReport? || op.OpMarkFulfilled? }

  lemma ManageQuiet(db: Db, op: Op)
    requires TableOk(db) && Manages(op)
    ensures Quiet(db, Step(db, op))
  {
    match op
    case OpMoveReport(r, to) => MoveReportQuiet(db, r, to);
    case OpDecide(r, d) => DecideQuiet(db, r, d);
    case OpEditDecision(r, i, pr, rj) => EditDecisionQuiet(db, r, i, pr, rj);
    case OpMarkFulfilled(r) =>
      ReportsQuiet(db, db.reports);
      MoveReportQuiet(db, r, Fulfilled);
  }

  /** What a stock-moving operation takes from the free stock of part `p`. */
  function Drain(db: Db, op: Op, p: Id): int {
    if Apply(db, op) == None then 0 else
    match op
    case OpReceive(q, qty) => if p == q then -qty else 0
    case OpConsume(q, qty, _, _) => if p == q then qty else 0
    case OpIssueTools(q, n, _) => if p == q then n * UNIT else 0
    case OpDirectIssue(_, _, q, qty) => if p == q then Min(qty, Free(db, q)) else 0
    case OpWarehouseIssue(l, qty, _) =>
      if l < |db.lines| && p == db.lines[l].part
      then qty - ReleasedByIssue(db.rows, db.lines[l], l, qty) else 0
    case _ => 0
  }

  /** A stock-moving operation changes the signed free stock of every part by exactly its drain;
      for a warehouse issue that is the part of the quantity no reservation of its own covers. */
  lemma StepDrain(db: Db, op: Op)
    requires TableOk(db) && MovesStock(op)
    ensures Evolves(db, Step(db, op))
    ensures forall p :: Free(Step(db, op), p) == Free(db, p) - Drain(db, op, p)
  {
    var b := Step(db, op);
    ReportsQuiet(db, db.reports);
    match op
    case OpReceive(p, q) => StockOnly(db, b);
    case OpConsume(p, q, _, _) => StockOnly(db, b);
    case OpIssueTools(p, n, _) => StockOnly(db, b);
    case OpDirectIssue(_, _, p, q) =>
      if b != db { AddLineEvolves(db, b, b.lines[|db.lines|]); }
    case OpWarehouseIssue(l, q, _) => WarehouseIssueDrain(db, l, q, op.skipApproval);
  }

  lemma StockOnly(a: Db, b: Db)
    requires TableOk(a) && a.rows == b.rows && a.lines == b.lines
    ensures Evolves(a, b)
  {
    assert forall p :: Balance(a, p) == Balance(b, p);
  }

  /** A state `b` that differs from an evolved state in one line's other fields only. */
  lemma EvolvesThenEdit(db: Db, a: Db, b: Db, l: Id, after: Line)
    requires TableOk(a) && Evolves(db, a) && b.rows == a.rows && l < |a.lines| && b.lines == a.lines[l := after]
    requires after.part == a.lines[l].part && after.allotted == a.lines[l].allotted
    ensures Evolves(db, b) && forall p :: Reserved(b, p) == Reserved(a, p)
  {
    PutLineEvolves(a, l, after);
    Chain(db, a, PutLine(a, l, after));
    forall p ensures Balance(db, p) == Balance(b, p) {
      assert Balance(db, p) == Balance(PutLine(a, l, after), p);
    }
  }

  lemma IssueEvolves(db: Db, l: Id, qty: int)
    requires TableOk(db) && qty >= 0 && l < |db.lines|
    ensures var line := db.lines[l]; var b := Issue(db, l, qty);
      Evolves(db, b)
      && (forall p :: Reserved(b, p)
            == Reserved(db, p) - if p == line.part then ReleasedByIssue(db.rows, line, l, qty) else 0)
  {
    var line := db.lines[l];
    var taken := db.(rows := DrawForIssue(db.rows, line, l, qty));
    DrawForIssueEvolves(db, l, qty);
    EvolvesThenEdit(db, taken, Issue(db, l, qty), l, line.(issued := line.issued + qty, status := Issued));
  }

  lemma WarehouseIssueDrain(db: Db, l: Id, qty: int, skip: bool)
    requires TableOk(db)
    ensures var op := OpWarehouseIssue(l, qty, skip);
      Evolves(db, Step(db, op)) && forall p :: Free(Step(db, op), p) == Free(db, p) - Drain(db, op, p)
  {
    var op := OpWarehouseIssue(l, qty, skip);
    if Issuable(db, l, qty, skip) {
      assert Step(db, op) == Issue(db, l, qty);
      assert forall p :: Drain(db, op, p) == IssueDrain(db, l, qty, p);
      IssueFrees(db, l, qty);
    } else {
      assert Step(db, op) == db;
      ReportsQuiet(db, db.reports);
    }
  }

  function IssueDrain(db: Db, l: Id, qty: int, p: Id): int
    requires l < |db.lines|
  {
    if p == db.lines[l].part then qty - ReleasedByIssue(db.rows, db.lines[l], l, qty) else 0
  }

  lemma IssueFrees(db: Db, l: Id, qty: int)
    requires TableOk(db) && qty >= 0 && l < |db.lines|
    ensures Evolves(db, Issue(db, l, qty))
    ensures forall p :: Free(Issue(db, l, qty), p) == Free(db, p) - IssueDrain(db, l, qty, p)
  {
    IssueEvolves(db, l, qty);
    IssueOnHand(db, l, qty);
  }

  lemma IssueOnHand(db: Db, l: Id, qty: int)
    requires l < |db.lines|
    ensures forall p :: OnHand(Issue(db, l, qty), p) == OnHand(db, p) - if p == db.lines[l].part then qty else 0
  {
  }

  lemma StepReserve(db: Db, p: Id, qty: int, wo: Id, link: Option<Id>)
    requires TableOk(db)
    ensures var b := Step(db, OpReserve(p, qty, wo, link)); var done := Reserve(db, p, qty, wo, link).Some?;
      && TableOk(b) && Follows(db.rows, b.rows) && Calm(db, b) && b.lines == db.lines
      && (forall q :: Balance(b, q) == Balance(db, q) + if done && q == p then qty else 0)
      && (LineCovered(db) ==> (LineCovered(b) <==> (done && link.Some? ==> qty <= db.lines[link.value].allotted)))
  {
    var b := Step(db, OpReserve(p, qty, wo, link));
    if Reserve(db, p, qty, wo, link) == None {
      ReportsQuiet(db, db.reports);
    } else {
      var row := Reservation(Claim(p, wo, link), qty, Active);
      if link.Some? { HeldNothing(db.rows, OfLine(link.value)); }
      PushKeeps(db.rows, row, |db.lines|);
      forall q
        ensures Reserved(b, q) == Reserved(db, q) + if q == p then qty else 0
        ensures Balance(b, q) == Balance(db, q) + if q == p then qty else 0
      {
        SumPush(db.rows, row, Live(OfPart(q)));
        SumPush(db.rows, row, Ever(OfPart(q)));
      }
      forall k | 0 <= k < |db.lines|
        ensures Held(b.rows, OfLine(k)) == Held(db.rows, OfLine(k)) + if link == Some(k) then qty else 0
      {
        SumPush(db.rows, row, Live(OfLine(k)));
      }
    }
  }
}
