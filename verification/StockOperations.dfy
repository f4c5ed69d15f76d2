/** The inventory services as functions on the database. An operation yields `None` when the
    service raises or declines; the database is then left as it was. */
module StockOperations {
  import opened Basics
  import opened Records
  import opened Reservations

  function Empty(emergency: set<Id>): Db {
    Db(map[], [], [], [], [], [], emergency)
  }

  // ----- queries -----

  function OnHand(db: Db, p: Id): int { if p in db.stock then db.stock[p] else 0 }

  /** The live sum of ACTIVE reservations of a part. */
  function Reserved(db: Db, p: Id): int { Held(db.rows, OfPart(p)) }

  /** Signed free stock. */
  function Free(db: Db, p: Id): int { OnHand(db, p) - Reserved(db, p) }

  /** `free_stock_for_part`: free stock for allocation, never negative. */
  function Available(db: Db, p: Id): int { if p in db.stock then Max(0, Free(db, p)) else 0 }

  predicate HasActive(rows: Table, l: Id) {
    exists i :: 0 <= i < |rows| && rows[i].status == Active && rows[i].claim.line == Some(l)
  }

  predicate HasOpenLine(lines: seq<Line>, wo: Id, p: Id) {
    exists i :: 0 <= i < |lines| && lines[i].wo == wo && lines[i].part == p && lines[i].Open()
  }

  predicate HasLine(lines: seq<Line>, wo: Id, p: Id) {
    exists i :: 0 <= i < |lines| && lines[i].wo == wo && lines[i].part == p
  }

  /** The newest line that executes report `r`. */
  function LineOf(lines: seq<Line>, r: Id): (l: Option<Id>)
    ensures l.Some? ==> l.value < |lines| && lines[l.value].report == Some(r)
    ensures l.Some? ==> forall i :: l.value < i < |lines| ==> lines[i].report != Some(r)
    ensures l == None ==> forall i :: 0 <= i < |lines| ==> lines[i].report != Some(r)
  {
    if lines == [] then None
    else if lines[|lines| - 1].report == Some(r) then Some(|lines| - 1)
    else LineOf(lines[..|lines| - 1], r)
  }

  /** The newest PENDING line of a work order and part. */
  function PendingLine(lines: seq<Line>, wo: Id, p: Id): (l: Option<Id>)
    ensures l.Some? ==>
              && l.value < |lines| && lines[l.value].wo == wo && lines[l.value].part == p
              && lines[l.value].status == Pending
    ensures forall i :: (if l.Some? then l.value + 1 else 0) <= i < |lines| ==>
              lines[i].wo != wo || lines[i].part != p || lines[i].status != Pending
  {
    if lines == [] then None else
    var last := lines[|lines| - 1];
    if last.wo == wo && last.part == p && last.status == Pending then Some(|lines| - 1)
    else PendingLine(lines[..|lines| - 1], wo, p)
  }

  predicate IsPending(rep: Report, wo: Id, p: Id) {
    rep.status == PendingReview && rep.wo == wo && rep.part == p
  }

  /** The PENDING report of a work order and part; there is at most one. */
  function PendingReport(reports: seq<Report>, wo: Id, p: Id): (r: Option<Id>)
    ensures r.Some? ==> r.value < |reports| && IsPending(reports[r.value], wo, p)
    ensures r == None ==> forall i :: 0 <= i < |reports| ==> !IsPending(reports[i], wo, p)
  {
    if reports == [] then None
    else if IsPending(reports[|reports| - 1], wo, p) then Some(|reports| - 1)
    else PendingReport(reports[..|reports| - 1], wo, p)
  }

  function MaxNumber(tools: seq<Tool>, p: Id): nat {
    if tools == [] then 0 else
    var n := MaxNumber(tools[..|tools| - 1], p);
    var last := tools[|tools| - 1];
    if last.part == p && n < last.number then last.number else n
  }

  // ----- small edits -----

  /** Outcome of a step whose failure the caller swallows: a rolled-back savepoint. */
  function Or(o: Option<Db>, db: Db): Db { if o.Some? then o.value else db }

  function PutLine(db: Db, l: Id, line: Line): Db
    requires l < |db.lines|
  {
    db.(lines := db.lines[l := line])
  }

  function PutReport(db: Db, r: Id, report: Report): Db
    requires r < |db.reports|
  {
    db.(reports := db.reports[r := report])
  }

  /** Changes the stock of a part by `delta` and logs the movement. */
  function Move(db: Db, p: Id, kind: MovementKind, qty: int, delta: int): Db {
    var before := OnHand(db, p);
    db.(stock := db.stock[p := before + delta],
        log := db.log + [Movement(p, kind, qty, before, before + delta)])
  }

  // ----- allocation -----

  function Gap(line: Line): int { line.approved - line.allotted }

  /** Whether `allocate_one` would try to grant the line anything when stock is free. */
  predicate Wants(line: Line) { line.Open() && line.approved > 0 && Gap(line) > 0 }

  function Granted(line: Line, give: int): Line {
    line.(allotted := line.allotted + give,
          status := if line.allotted + give >= line.approved then Allocated
                    else if line.status == Pending then Approved else line.status)
  }

  /** `allocate_one`. A second ACTIVE row for the line violates the unique constraint. */
  function AllocateOne(db: Db, l: Id): Option<Db> {
    if l >= |db.lines| then None else
    var line := db.lines[l];
    var free := Available(db, line.part);
    if !Wants(line) || free <= 0 then Some(db)
    else if HasActive(db.rows, l) then None
    else
      var give := Min(Gap(line), free);
      Some(PutLine(db, l, Granted(line, give)).(
        rows := db.rows + [Reservation(Claim(line.part, line.wo, Some(l)), give, Active)]))
  }

  /** Open lines of a part among the first `n`, emergency orders only or the others only. */
  function OpenIds(db: Db, p: Id, emergency: bool, n: nat): seq<Id>
    requires n <= |db.lines|
  {
    if n == 0 then [] else
    var line := db.lines[n - 1];
    OpenIds(db, p, emergency, n - 1) +
    if line.part == p && line.Open() && (line.wo in db.emergency) == emergency then [n - 1] else []
  }

  /** The order in which `reallocate_for_part` walks: emergency orders first, oldest first. */
  function Queue(db: Db, p: Id): seq<Id> {
    OpenIds(db, p, true, |db.lines|) + OpenIds(db, p, false, |db.lines|)
  }

  function AllocateAll(db: Db, ids: seq<Id>): Db
    decreases |ids|
  {
    if ids == [] then db
    else AllocateAll(Or(AllocateOne(db, ids[0]), db), ids[1..])
  }

  function Reallocate(db: Db, p: Id): Db { AllocateAll(db, Queue(db, p)) }

  // ----- reservations -----

  function Reserve(db: Db, p: Id, qty: int, wo: Id, l: Option<Id>): Option<Db> {
    if qty <= 0 || Free(db, p) < qty then None
    else if l.Some? && (l.value >= |db.lines| || HasActive(db.rows, l.value)) then None
    else Some(db.(rows := db.rows + [Reservation(Claim(p, wo, l), qty, Active)]))
  }

  function Release(db: Db, p: Id, qty: int, wo: Id): Option<Db> {
    if qty <= 0 || p !in db.stock || Held(db.rows, Legacy(p, wo)) < qty then None
    else Some(db.(rows := Drawn(db.rows, Legacy(p, wo), qty)))
  }

  /** Reservations that closing a work order ends: legacy ones and those of lines with no
      unmet demand. */
  function Stale(lines: seq<Line>, wo: Id): Claim -> bool {
    (c: Claim) => c.wo == wo && !(c.line.Some? && c.line.value < |lines|
      && lines[c.line.value].issued < lines[c.line.value].approved)
  }

  function ReleaseStale(db: Db, wo: Id): Db {
    db.(rows := EndAll(db.rows, Stale(db.lines, wo), Released))
  }

  // ----- stock -----

  function Receive(db: Db, p: Id, qty: int): Db { Move(db, p, StockIn, qty, qty) }

  function Consume(db: Db, p: Id, qty: int, permitted: bool, posts: bool): Option<Db> {
    if !permitted || qty <= 0 || p !in db.stock || db.stock[p] < qty || !posts then None
    else Some(Move(db, p, ConsumableUse, qty, -qty))
  }

  function NewTools(p: Id, start: nat, n: nat): seq<Tool> {
    seq(n, i requires 0 <= i < n => Tool(p, start + i))
  }

  function IssueTools(db: Db, p: Id, n: int, reusable: bool): Option<Db> {
    if n <= 0 || !reusable || p !in db.stock || db.stock[p] < n * UNIT then None
    else
      var moved := Move(db, p, StockOut, n * UNIT, -(n * UNIT));
      Some(moved.(tools := db.tools + NewTools(p, MaxNumber(db.tools, p) + 1, n)))
  }

  function DirectIssue(db: Db, wo: Id, closed: bool, p: Id, qty: int): Option<Db> {
    if qty <= 0 || closed || HasLine(db.lines, wo, p) || p !in db.stock then None else
    var give := Min(qty, Free(db, p));
    if give <= 0 then None else
    var line := Line(wo, p, give, give, give, 0, give, 0, Approved, None);
    Some(Move(db.(lines := db.lines + [line]), p, IssueToOrder, give, -give))
  }

  // ----- part requests -----

  function RequestPart(db: Db, wo: Id, closed: bool, p: Id, qty: int): Option<Db> {
    if qty <= 0 || closed then None
    else if HasOpenLine(db.lines, wo, p) then Some(db) else
    var usable := if p in db.stock then Free(db, p) else 0;
    if usable >= qty then
      if wo in db.emergency then None
      else Some(db.(lines := db.lines + [Line(wo, p, qty, qty, 0, 0, 0, 0, Pending, None)]))
    else if PendingReport(db.reports, wo, p).Some? then None
    else Some(db.(
      lines := db.lines + [Line(wo, p, qty, qty, 0, 0, 0, qty - usable, Pending, Some(|db.reports|))],
      reports := db.reports + [Report(wo, p, qty, 0, PendingReview, None)]))
  }

  function ApprovePart(db: Db, l: Id, auto: bool): Option<Db> {
    if l >= |db.lines| then None else
    var line := db.lines[l];
    if line.status == Approved then Some(db)
    else if line.status != Pending || line.quantity <= 0 then None
    else
      var approved := if auto then line.requested else line.quantity;
      var done := PutLine(db, l, line.(
        status := Approved, approved := approved, shortage := Max(0, line.requested - approved)));
      Some(Or(AllocateOne(done, l), done))
  }

  function RejectPart(db: Db, l: Id, reason: string): Option<Db> {
    if l >= |db.lines| || db.lines[l].status != Pending || reason == "" then None
    else Some(PutLine(db, l, db.lines[l].(status := Rejected)))
  }

  /** Reservations that cancelling a line ends: the line's own and the legacy ones of its order. */
  function OfCancelled(line: Line, l: Id): Claim -> bool {
    (c: Claim) => c.part == line.part && c.wo == line.wo && (c.line == Some(l) || c.line == None)
  }

  function CancelPart(db: Db, l: Id, reason: string): Option<Db> {
    if l >= |db.lines| then None else
    var line := db.lines[l];
    if !(line.status.Approved? || line.status.Allocated?) || line.issued > 0 || |reason| < 15 then None
    else Some(PutLine(db, l, line.(status := Rejected, approved := 0, issued := 0)).(
      rows := EndAll(db.rows, OfCancelled(line, l), Cancelled)))
  }

  function EditQuantity(db: Db, l: Id, qty: int): Option<Db> {
    if l >= |db.lines| || db.lines[l].status != Pending || qty <= 0 then None
    else Some(PutLine(db, l, db.lines[l].(
      quantity := qty, shortage := Max(0, db.lines[l].requested - qty))))
  }

  // ----- shortage reports -----

  function RaiseShortage(db: Db, wo: Id, p: Id): Option<Db> {
    var l := PendingLine(db.lines, wo, p);
    var r := PendingReport(db.reports, wo, p);
    if r == None && l == None then None
    else if r == None then
      var line := db.lines[l.value];
      var raised := db.(reports := db.reports + [Report(wo, p, line.quantity, line.issued, PendingReview, None)]);
      Some(LinkReport(raised, l, |db.reports|))
    else
      var report := db.reports[r.value];
      var updated := if l.Some?
        then report.(requested := db.lines[l.value].quantity, issued := db.lines[l.value].issued)
        else report.(issued := 0);
      Some(LinkReport(PutReport(db, r.value, updated), l, r.value))
  }

  /** Back-fills the report of a line that has none. */
  function LinkReport(db: Db, l: Option<Id>, r: Id): Db
    requires l.Some? ==> l.value < |db.lines|
  {
    if l.Some? && db.lines[l.value].report == None
    then PutLine(db, l.value, db.lines[l.value].(report := Some(r)))
    else db
  }

  function NextReport(s: ReportStatus): set<ReportStatus> {
    match s
    case PendingReview => {Decided, Refused}
    case Decided => {InFulfillment, Blocked, Closed}
    case InFulfillment => {Fulfilled, Blocked, Closed}
    case Fulfilled => {Closed}
    case Blocked => {InFulfillment, Closed}
    case Closed => {}
    case Refused => {}
  }

  /** Reservations that closing report `r` ends: legacy ones of its order and those of its lines. */
  function OfClosed(lines: seq<Line>, report: Report, r: Id): Claim -> bool {
    (c: Claim) => c.part == report.part && c.wo == report.wo
      && (c.line == None || (c.line.value < |lines| && lines[c.line.value].report == Some(r)))
  }

  function MoveReport(db: Db, r: Id, to: ReportStatus): Option<Db> {
    if r >= |db.reports| || to !in NextReport(db.reports[r].status) then None else
    var report := db.reports[r];
    var moved := PutReport(db, r, report.(status := to));
    Some(if to == Closed then moved.(rows := EndAll(db.rows, OfClosed(db.lines, report, r), Cancelled)) else moved)
  }

  /** The checks of `PartShortageDecision.clean`. */
  predicate Balanced(d: Decision, requested: int) {
    && d.issue >= 0 && d.procure >= 0 && d.reject >= 0
    && d.issue + d.procure + d.reject == requested
    && match d.kind
       case Approve => d.issue != 0 || d.procure != 0
       case Reject => d.issue == 0 && d.procure == 0 && d.reject == requested
  }

  function SetApproved(db: Db, l: Option<Id>, approved: int): Db
    requires l.Some? ==> l.value < |db.lines|
  {
    if l.Some? then PutLine(db, l.value, db.lines[l.value].(approved := approved)) else db
  }

  /** Records a new approved quantity on a report's line and allocates to it. */
  function ApproveAndAllocate(db: Db, l: Option<Id>, approved: int): Option<Db>
    requires l.Some? ==> l.value < |db.lines|
  {
    if l.Some? then AllocateOne(SetApproved(db, l, approved), l.value) else Some(db)
  }

  function Decide(db: Db, r: Id, d: Decision): Option<Db> {
    if r >= |db.reports| then None else
    var report := db.reports[r];
    if report.status != PendingReview || report.decision != None || !Balanced(d, report.requested) then None else
    var decided := PutReport(db, r, report.(
      decision := Some(d), status := if d.kind == Approve then Decided else Refused));
    var l := LineOf(db.lines, r);
    if d.kind == Reject then Some(decided) else
    var o := if d.issue > 0 then ApproveAndAllocate(decided, l, d.issue) else Some(decided);
    if o == None then None
    else if l.Some? && l.value < |o.value.lines| && o.value.lines[l.value].status == Pending
    then Some(PutLine(o.value, l.value, o.value.lines[l.value].(
      status := Approved, approved := d.issue, shortage := d.procure)))
    else o
  }

  predicate Locked(s: ReportStatus) { s != PendingReview && s != Decided }

  function EditDecision(db: Db, r: Id, issue: int, procure: int, reject: int): Option<Db> {
    if r >= |db.reports| || Locked(db.reports[r].status) || db.reports[r].decision == None then None else
    var report := db.reports[r];
    var d := report.decision.value.(issue := issue, procure := procure, reject := reject);
    if !Balanced(d, report.requested) then None else
    var edited := PutReport(db, r, report.(decision := Some(d)));
    AdjustReservation(edited, LineOf(db.lines, r), report.part, report.wo, issue - report.decision.value.issue, issue)
  }

  /** Follows a change of the issue quantity by `delta`: allocate more, or free legacy rows when
      there are enough of them. */
  function AdjustReservation(db: Db, l: Option<Id>, p: Id, wo: Id, delta: int, issue: int): Option<Db>
    requires l.Some? ==> l.value < |db.lines|
  {
    if delta > 0 then ApproveAndAllocate(db, l, issue)
    else if delta == 0 then Some(db)
    else if p !in db.stock then None
    else Some(SetApproved(Or(Release(db, p, -delta, wo), db), l, issue))
  }

  function MarkFulfilled(db: Db, r: Id): Option<Db> {
    if r >= |db.reports| then None else
    var report := db.reports[r];
    if report.status != InFulfillment || report.decision == None
       || report.decision.value.kind != Approve || report.issued < report.decision.value.issue then None
    else MoveReport(db, r, Fulfilled)
  }

  // ----- warehouse issue -----

  /** The line's own reservations first, then the legacy ones of its order. */
  function DrawForIssue(rows: Table, line: Line, l: Id, qty: int): Table {
    DrawBoth(rows, Linked(line.part, l), Legacy(line.part, line.wo), qty)
  }

  /** How much of an issue its own and its order's legacy reservations cover. */
  function ReleasedByIssue(rows: Table, line: Line, l: Id, qty: int): int {
    Min(qty, Held(rows, Linked(line.part, l)) + Held(rows, Legacy(line.part, line.wo)))
  }

  /** Counts an issue on the line's report; the first issue starts fulfilment where it may. */
  function NoteIssue(reports: seq<Report>, line: Line, qty: int): seq<Report> {
    if line.report == None || line.report.value >= |reports| then reports else
    var report := reports[line.report.value];
    var start := line.issued == 0 && InFulfillment in NextReport(report.status);
    reports[line.report.value := report.(
      issued := report.issued + qty, status := if start then InFulfillment else report.status)]
  }

  predicate Issuable(db: Db, l: Id, qty: int, skipApproval: bool) {
    && l < |db.lines|
    && var line := db.lines[l];
       && line.Open() && (skipApproval || line.approved > 0) && qty > 0
       && line.part in db.stock && db.stock[line.part] >= qty
  }

  function Issue(db: Db, l: Id, qty: int): Db
    requires l < |db.lines|
  {
    var line := db.lines[l];
    var taken := db.(rows := DrawForIssue(db.rows, line, l, qty));
    var moved := Move(taken, line.part, IssueToOrder, qty, -qty);
    PutLine(moved, l, line.(issued := line.issued + qty, status := Issued)).(
      reports := NoteIssue(db.reports, line, qty))
  }

  function WarehouseIssue(db: Db, l: Id, qty: int, skipApproval: bool): Option<Db> {
    if Issuable(db, l, qty, skipApproval) then Some(Issue(db, l, qty)) else None
  }

  // ----- steps and runs -----

  datatype Op =
    | OpReceive(part: Id, qty: int)
    | OpRequest(wo: Id, closed: bool, part: Id, qty: int)
    | OpRaise(wo: Id, part: Id)
    | OpApprove(line: Id, auto: bool)
    | OpReject(line: Id, reason: string)
    | OpCancel(line: Id, reason: string)
    | OpEditQuantity(line: Id, qty: int)
    | OpReserve(part: Id, qty: int, wo: Id, link: Option<Id>)
    | OpRelease(part: Id, qty: int, wo: Id)
    | OpMoveReport(report: Id, to: ReportStatus)
    | OpDecide(report: Id, decision: Decision)
    | OpEditDecision(report: Id, issue: int, procure: int, reject: int)
    | OpMarkFulfilled(report: Id)
    | OpWarehouseIssue(line: Id, qty: int, skipApproval: bool)
    | OpDirectIssue(wo: Id, closed: bool, part: Id, qty: int)
    | OpConsume(part: Id, qty: int, permitted: bool, posts: bool)
    | OpIssueTools(part: Id, units: int, reusable: bool)
    | OpAllocate(line: Id)
    | OpReallocate(part: Id)
    | OpReleaseStale(wo: Id)

  function Apply(db: Db, op: Op): Option<Db> {
    match op
    case OpReceive(p, q) => Some(Receive(db, p, q))
    case OpRequest(w, closed, p, q) => RequestPart(db, w, closed, p, q)
    case OpRaise(w, p) => RaiseShortage(db, w, p)
    case OpApprove(l, auto) => ApprovePart(db, l, auto)
    case OpReject(l, reason) => RejectPart(db, l, reason)
    case OpCancel(l, reason) => CancelPart(db, l, reason)
    case OpEditQuantity(l, q) => EditQuantity(db, l, q)
    case OpReserve(p, q, w, l) => Reserve(db, p, q, w, l)
    case OpRelease(p, q, w) => Release(db, p, q, w)
    case OpMoveReport(r, to) => MoveReport(db, r, to)
    case OpDecide(r, d) => Decide(db, r, d)
    case OpEditDecision(r, i, pr, rj) => EditDecision(db, r, i, pr, rj)
    case OpMarkFulfilled(r) => MarkFulfilled(db, r)
    case OpWarehouseIssue(l, q, skip) => WarehouseIssue(db, l, q, skip)
    case OpDirectIssue(w, closed, p, q) => DirectIssue(db, w, closed, p, q)
    case OpConsume(p, q, permitted, posts) => Consume(db, p, q, permitted, posts)
    case OpIssueTools(p, n, reusable) => IssueTools(db, p, n, reusable)
    case OpAllocate(l) => AllocateOne(db, l)
    case OpReallocate(p) => Some(Reallocate(db, p))
    case OpReleaseStale(w) => Some(ReleaseStale(db, w))
  }

  function Step(db: Db, op: Op): Db { Or(Apply(db, op), db) }

  function Run(db: Db, ops: seq<Op>): Db
    decreases |ops|
  {
    if ops == [] then db else Run(Step(db, ops[0]), ops[1..])
  }

  lemma RunTwo(db: Db, ops: seq<Op>)
    requires |ops| >= 2
    ensures Run(db, ops) == Run(Step(Step(db, ops[0]), ops[1]), ops[2..])
  {
    assert ops[1..][1..] == ops[2..];
  }

  lemma RunFour(db: Db, ops: seq<Op>)
    requires |ops| == 4
    ensures Run(db, ops) == Step(Step(Step(Step(db, ops[0]), ops[1]), ops[2]), ops[3])
  {
    RunTwo(db, ops);
    RunTwo(Step(Step(db, ops[0]), ops[1]), ops[2..]);
    assert ops[2..][2..] == [];
  }
}
