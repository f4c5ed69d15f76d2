/** Work orders, their blockers and the operational status derived from them, as functions on the
    board that holds them. An operation yields `None` when the service raises. */
module WorkOrders {
  import opened Basics

  datatype Lifecycle = Draft | Assigned | InProgress | PendingReview | Closed | Cancelled

  datatype Operational = Running | PendingParts | WaitingVendor | Paused

  datatype Order = Order(lifecycle: Lifecycle, operational: Operational)

  datatype Kind = AwaitingPart | AwaitingShortage | AwaitingVendor | Pause

  datatype BlockerStatus = Open | Resolved | Withdrawn

  /** The external entity a blocker waits for: its model and key. */
  datatype Ref = Ref(model: nat, id: Id)

  /** `source` is the work order that caused an operational pause. */
  datatype Blocker = Blocker(wo: Id, kind: Kind, status: BlockerStatus, ref: Option<Ref>, source: Option<Id>)

  datatype Event = Event(blocker: Id, to: BlockerStatus)

  datatype Entry = Entry(wo: Id, was: Lifecycle, became: Lifecycle)

  datatype Board = Board(orders: seq<Order>, blockers: seq<Blocker>, events: seq<Event>, log: seq<Entry>)

  // ----- lifecycle and derived status -----

  function Next(s: Lifecycle): set<Lifecycle> {
    match s
    case Draft => {Assigned, Cancelled}
    case Assigned => {InProgress, PendingReview, Cancelled}
    case InProgress => {PendingReview, Assigned, Cancelled}
    case PendingReview => {Closed, InProgress, Assigned}
    case Closed => {}
    case Cancelled => {}
  }

  predicate Terminal(s: Lifecycle) { s == Closed || s == Cancelled }

  predicate Blocks(x: Blocker, w: Id, kind: Kind) { x.wo == w && x.status == Open && x.kind == kind }

  predicate HasOpen(blockers: seq<Blocker>, w: Id, kind: Kind) {
    exists i :: 0 <= i < |blockers| && Blocks(blockers[i], w, kind)
  }

  /** The precedence: parts and shortages, then the vendor, then pauses, then the lifecycle. */
  function Derived(b: Board, w: Id): Operational
    requires w < |b.orders|
  {
    if HasOpen(b.blockers, w, AwaitingPart) || HasOpen(b.blockers, w, AwaitingShortage) then PendingParts
    else if HasOpen(b.blockers, w, AwaitingVendor) then WaitingVendor
    else if HasOpen(b.blockers, w, Pause) then Paused
    else if b.orders[w].lifecycle == InProgress then Running
    else Paused
  }

  /** `recompute_operational_status`; terminal orders are left alone. */
  function Recompute(b: Board, w: Id): Board {
    if w >= |b.orders| || Terminal(b.orders[w].lifecycle) then b
    else b.(orders := b.orders[w := b.orders[w].(operational := Derived(b, w))])
  }

  // ----- blockers -----

  predicate OpenOn(x: Blocker, w: Id, ref: Ref) { x.wo == w && x.status == Open && x.ref == Some(ref) }

  predicate Waiting(blockers: seq<Blocker>, w: Id, ref: Ref) {
    exists i :: 0 <= i < |blockers| && OpenOn(blockers[i], w, ref)
  }

  function Add(b: Board, x: Blocker): Board {
    Recompute(b.(blockers := b.blockers + [x], events := b.events + [Event(|b.blockers|, Open)]), x.wo)
  }

  /** `open_blocker`: nothing without a reference, nothing when one is already open for it. */
  function OpenBlocker(b: Board, w: Id, kind: Kind, ref: Option<Ref>, source: Option<Id>): Option<Board> {
    if w >= |b.orders| then None
    else if ref == None || Waiting(b.blockers, w, ref.value) then Some(b)
    else Some(Add(b, Blocker(w, kind, Open, ref, source)))
  }

  /** `open_operational_blocker`. */
  function OpenPause(b: Board, w: Id, source: Option<Id>): Option<Board> {
    if w >= |b.orders| then None
    else if HasOpen(b.blockers, w, Pause) then Some(b)
    else Some(Add(b, Blocker(w, Pause, Open, None, source)))
  }

  function Settle(b: Board, k: Id, to: BlockerStatus): Board
    requires k < |b.blockers|
  {
    var x := b.blockers[k];
    Recompute(b.(blockers := b.blockers[k := x.(status := to)], events := b.events + [Event(k, to)]), x.wo)
  }

  /** `resolve_blocker` and `cancel_blocker`: settling twice the same way is idle, settling the
      other way raises. */
  function End(b: Board, k: Id, to: BlockerStatus): Option<Board> {
    if k >= |b.blockers| || to == Open then None
    else if b.blockers[k].status == to then Some(b)
    else if b.blockers[k].status != Open then None
    else Some(Settle(b, k, to))
  }

  datatype External =
    | PartIssued(lineIssued: bool)
    | PartRejected
    | ShortageFulfilled(met: bool)
    | WaitOver
    | Unrelated

  /** The oldest open blocker for a reference, on any order. */
  function FirstOpen(blockers: seq<Blocker>, ref: Ref): (k: Option<Id>)
    ensures k.Some? ==> k.value < |blockers| && blockers[k.value].status == Open && blockers[k.value].ref == Some(ref)
    ensures forall i :: 0 <= i < (if k.Some? then k.value else |blockers|) ==>
              blockers[i].status != Open || blockers[i].ref != Some(ref)
  {
    if blockers == [] then None else
    var before := FirstOpen(blockers[..|blockers| - 1], ref);
    if before.Some? then before
    else if blockers[|blockers| - 1].status == Open && blockers[|blockers| - 1].ref == Some(ref)
    then Some(|blockers| - 1) else None
  }

  /** `sync_from_external_event`. */
  function Sync(b: Board, ref: Ref, e: External): Option<Board> {
    var k := FirstOpen(b.blockers, ref);
    if k == None then Some(b) else
    match e
    case PartIssued(lineIssued) => if lineIssued then End(b, k.value, Resolved) else Some(b)
    case PartRejected => End(b, k.value, Withdrawn)
    case ShortageFulfilled(met) => if met then End(b, k.value, Resolved) else Some(b)
    case WaitOver => End(b, k.value, Resolved)
    case Unrelated => Some(b)
  }

  // ----- transitions -----

  predicate Depends(x: Blocker, w: Id) { x.source == Some(w) && x.status == Open && x.kind == Pause }

  /** Resolves the open pauses caused by order `w`, from blocker `i` on. */
  function ReleaseFrom(b: Board, w: Id, i: nat): Board
    decreases |b.blockers| - i
  {
    if i >= |b.blockers| then b
    else ReleaseFrom(if Depends(b.blockers[i], w) then Settle(b, i, Resolved) else b, w, i + 1)
  }

  /** `transition_work_order`. `copy` is the order as the caller holds it. The edge is checked and
      logged from the copy's lifecycle, and the check that the order still holds its dependents
      reads the copy's operational status, which predates the recomputation. */
  function Transition(b: Board, w: Id, to: Lifecycle, copy: Order): Option<Board> {
    if w >= |b.orders| then None
    else if copy.lifecycle == to then Some(b)
    else if to !in Next(copy.lifecycle) then None
    else
      var moved := Moved(b, w, to, copy.lifecycle);
      Some(if to == InProgress && copy.operational == Running then moved else ReleaseFrom(moved, w, 0))
  }

  /** Writes and logs the new lifecycle and refreshes the order. */
  function Moved(b: Board, w: Id, to: Lifecycle, was: Lifecycle): Board
    requires w < |b.orders|
  {
    Recompute(b.(orders := b.orders[w := b.orders[w].(lifecycle := to)], log := b.log + [Entry(w, was, to)]), w)
  }

  function NewOrder(b: Board, draft: bool): Board {
    b.(orders := b.orders + [Order(if draft then Draft else Assigned, Paused)])
  }

  // ----- steps and runs -----

  datatype Op =
    | OpNew(draft: bool)
    | OpOpen(wo: Id, kind: Kind, ref: Option<Ref>, source: Option<Id>)
    | OpPause(wo: Id, source: Option<Id>)
    | OpEnd(blocker: Id, to: BlockerStatus)
    | OpSync(entity: Ref, event: External)
    | OpTransition(wo: Id, status: Lifecycle, copy: Order)
    | OpRecompute(wo: Id)

  function Apply(b: Board, op: Op): Option<Board> {
    match op
    case OpNew(draft) => Some(NewOrder(b, draft))
    case OpOpen(w, kind, ref, source) => OpenBlocker(b, w, kind, ref, source)
    case OpPause(w, source) => OpenPause(b, w, source)
    case OpEnd(k, to) => End(b, k, to)
    case OpSync(ref, e) => Sync(b, ref, e)
    case OpTransition(w, to, copy) => Transition(b, w, to, copy)
    case OpRecompute(w) => if w < |b.orders| then Some(Recompute(b, w)) else None
  }

  function Step(b: Board, op: Op): Board { if Apply(b, op).Some? then Apply(b, op).value else b }

  function Run(b: Board, ops: seq<Op>): Board
    decreases |ops|
  {
    if ops == [] then b else Run(Step(b, ops[0]), ops[1..])
  }

  const EMPTY := Board([], [], [], [])
}
