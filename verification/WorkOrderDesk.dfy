/** The work-order and blocker services as methods that update the board in place. Closing an
    order also sweeps its reservations in the stock room. */
module WorkOrderDesks {
  import opened Basics
  import opened WorkOrders
  import W = WorkOrders
  import L = WorkOrderLaws
  import Rooms = StockRooms
  import Stock = StockOperations
  import R = Records
  import U = UnblockLaws

  class WorkOrderDesk {
    var orders: seq<Order>
    var blockers: seq<Blocker>
    var events: seq<Event>
    var log: seq<Entry>

    function State(): Board
      reads this
    {
      Board(orders, blockers, events, log)
    }

    ghost predicate Valid()
      reads this
    {
      L.BoardOk(State())
    }

    /** The desk is on the board the operation yields, or unchanged where it yields none. */
    ghost predicate Became(o: Option<Board>, was: Board, ok: bool)
      reads this
    {
      Valid() && ok == o.Some? && State() == if ok then o.value else was
    }

    constructor ()
      ensures Valid() && State() == W.EMPTY
    {
      orders, blockers, events, log := [], [], [], [];
    }

    method NewOrder(draft: bool)
      requires Valid()
      modifies this`orders
      ensures Became(Some(W.NewOrder(old(State()), draft)), old(State()), true)
    {
      L.NewKeeps(State(), draft);
      orders := orders + [Order(if draft then Draft else Assigned, Paused)];
    }

    /** Decides the operational status by scanning the open blockers of the order. */
    method Recompute(w: Id)
      modifies this`orders
      ensures State() == W.Recompute(old(State()), w)
    {
      if w >= |orders| || Terminal(orders[w].lifecycle) {
        return;
      }
      var part, vendor, pause := false, false, false;
      for i := 0 to |blockers|
        invariant part == (HasOpen(blockers[..i], w, AwaitingPart) || HasOpen(blockers[..i], w, AwaitingShortage))
        invariant vendor == HasOpen(blockers[..i], w, AwaitingVendor)
        invariant pause == HasOpen(blockers[..i], w, Pause)
      {
        forall kind
          ensures HasOpen(blockers[..i + 1], w, kind)
               == (HasOpen(blockers[..i], w, kind) || Blocks(blockers[i], w, kind))
        {
          ScanStep(blockers, i, w, kind);
        }
        var x := blockers[i];
        if x.wo == w && x.status == Open {
          match x.kind
          case AwaitingPart => part := true;
          case AwaitingShortage => part := true;
          case AwaitingVendor => vendor := true;
          case Pause => pause := true;
        }
      }
      assert blockers[..|blockers|] == blockers;
      var next := Paused;
      if part {
        next := PendingParts;
      } else if vendor {
        next := WaitingVendor;
      } else if pause {
        next := Paused;
      } else if orders[w].lifecycle == InProgress {
        next := Running;
      }
      if orders[w].operational != next {
        orders := orders[w := orders[w].(operational := next)];
      }
      assert orders == old(orders)[w := old(orders)[w].(operational := next)];
    }

    static lemma ScanStep(xs: seq<Blocker>, i: nat, w: Id, kind: Kind)
      requires i < |xs|
      ensures HasOpen(xs[..i + 1], w, kind) == (HasOpen(xs[..i], w, kind) || Blocks(xs[i], w, kind))
    {
      if HasOpen(xs[..i], w, kind) {
        var j :| 0 <= j < i && Blocks(xs[..i][j], w, kind);
        assert Blocks(xs[..i + 1][j], w, kind);
      }
      if Blocks(xs[i], w, kind) {
        assert Blocks(xs[..i + 1][i], w, kind);
      }
      if HasOpen(xs[..i + 1], w, kind) {
        var j :| 0 <= j <= i && Blocks(xs[..i + 1][j], w, kind);
        assert j < i ==> Blocks(xs[..i][j], w, kind);
      }
    }

    /** Creates an open blocker, its created event, and refreshes the order. */
    method Add(x: Blocker)
      modifies this`blockers, this`events, this`orders
      ensures State() == W.Add(old(State()), x)
    {
      events := events + [Event(|blockers|, Open)];
      blockers := blockers + [x];
      Recompute(x.wo);
    }

    method OpenBlocker(w: Id, kind: Kind, ref: Option<Ref>, source: Option<Id>) returns (ok: bool)
      requires Valid()
      modifies this`blockers, this`events, this`orders
      ensures Became(W.OpenBlocker(old(State()), w, kind, ref, source), old(State()), ok)
    {
      L.OpenKeeps(State(), w, kind, ref, source);
      if w >= |orders| {
        return false;
      }
      if ref == None || Waiting(blockers, w, ref.value) {
        return true;
      }
      Add(Blocker(w, kind, Open, ref, source));
      return true;
    }

    method OpenPause(w: Id, source: Option<Id>) returns (ok: bool)
      requires Valid()
      modifies this`blockers, this`events, this`orders
      ensures Became(W.OpenPause(old(State()), w, source), old(State()), ok)
    {
      L.PauseKeeps(State(), w, source);
      if w >= |orders| {
        return false;
      }
      if !HasOpen(blockers, w, Pause) {
        Add(Blocker(w, Pause, Open, None, source));
      }
      return true;
    }

    /** Ends an open blocker, records the event, and refreshes the order. */
    method Settle(k: Id, to: BlockerStatus)
      requires k < |blockers|
      modifies this`blockers, this`events, this`orders
      ensures State() == W.Settle(old(State()), k, to)
    {
      blockers := blockers[k := blockers[k].(status := to)];
      events := events + [Event(k, to)];
      Recompute(blockers[k].wo);
    }

    method End(k: Id, to: BlockerStatus) returns (ok: bool)
      requires Valid()
      modifies this`blockers, this`events, this`orders
      ensures Became(W.End(old(State()), k, to), old(State()), ok)
    {
      L.EndKeeps(State(), k, to);
      if k >= |blockers| || to == Open {
        return false;
      }
      if blockers[k].status == to {
        return true;
      }
      if blockers[k].status != Open {
        return false;
      }
      Settle(k, to);
      return true;
    }

    method Sync(ref: Ref, e: External) returns (ok: bool)
      requires Valid()
      modifies this`blockers, this`events, this`orders
      ensures Became(W.Sync(old(State()), ref, e), old(State()), ok)
    {
      var k := FirstOpen(blockers, ref);
      if k == None {
        return true;
      }
      match e
      case PartIssued(lineIssued) =>
        if !lineIssued { return true; }
        ok := End(k.value, Resolved);
      case PartRejected =>
        ok := End(k.value, Withdrawn);
      case ShortageFulfilled(met) =>
        if !met { return true; }
        ok := End(k.value, Resolved);
      case WaitOver =>
        ok := End(k.value, Resolved);
      case Unrelated =>
        ok := true;
    }

    /** The same, for events whose effect depends on a line or report in the stock room. */
    method SyncLineIssued(ref: Ref, room: Rooms.StockRoom) returns (ok: bool)
      requires Valid()
      modifies this`blockers, this`events, this`orders
      ensures Became(W.Sync(old(State()), ref, U.LineEvent(room.State(), ref.id)), old(State()), ok)
    {
      ok := Sync(ref, PartIssued(ref.id < |room.lines| && room.lines[ref.id].status.Issued?));
    }

    method SyncShortage(ref: Ref, room: Rooms.StockRoom) returns (ok: bool)
      requires Valid()
      modifies this`blockers, this`events, this`orders
      ensures Became(W.Sync(old(State()), ref, U.ShortageEvent(room.State(), ref.id)), old(State()), ok)
    {
      var met := false;
      if ref.id < |room.reports| {
        var report := room.reports[ref.id];
        var approved := if report.decision.Some? then report.decision.value.issue else 0;
        met := report.status.InFulfillment? && report.issued >= approved;
      }
      ok := Sync(ref, ShortageFulfilled(met));
    }

    /** Moves a report in the stock room and settles the blocker that waits for it. */
    method MoveReport(r: Id, to: R.ReportStatus, room: Rooms.StockRoom) returns (ok: bool)
      requires Valid() && room.Valid()
      modifies this`blockers, this`events, this`orders, room`reports, room`rows
      ensures Valid() && room.Valid()
      ensures ok == Stock.MoveReport(old(room.State()), r, to).Some?
      ensures U.Joint(room.State(), State())
           == U.JointStep(U.Joint(old(room.State()), old(State())), U.Stock(Stock.OpMoveReport(r, to)))
    {
      ok := room.MoveReport(r, to);
      if ok {
        Tell(room.reports[r].wo, r, to);
      }
    }

    method MarkFulfilled(r: Id, room: Rooms.StockRoom) returns (ok: bool)
      requires Valid() && room.Valid()
      modifies this`blockers, this`events, this`orders, room`reports, room`rows
      ensures Valid() && room.Valid()
      ensures ok == Stock.MarkFulfilled(old(room.State()), r).Some?
      ensures U.Joint(room.State(), State())
           == U.JointStep(U.Joint(old(room.State()), old(State())), U.Stock(Stock.OpMarkFulfilled(r)))
    {
      U.MarkingTells(U.Joint(room.State(), State()), r);
      ok := room.MarkFulfilled(r);
      if ok {
        Tell(room.reports[r].wo, r, R.Fulfilled);
      }
    }

    method Tell(w: Id, r: Id, to: R.ReportStatus)
      requires Valid()
      modifies this`blockers, this`events, this`orders
      ensures Valid() && State() == U.Told(old(State()), w, r, to)
    {
      U.ToldKeeps(State(), w, r, to);
      var k := U.FirstWaiting(blockers, w, r);
      if k == None {
        return;
      }
      if to.Refused? {
        Settle(k.value, Withdrawn);
      } else if to.Fulfilled? || to.Closed? {
        Settle(k.value, Resolved);
      }
    }

    /** Resolves every open pause caused by order `w`. */
    method ReleaseDependents(w: Id)
      requires Valid()
      modifies this`blockers, this`events, this`orders
      ensures Valid() && State() == W.ReleaseFrom(old(State()), w, 0)
    {
      L.ReleaseFromKeeps(State(), w, 0);
      var i := 0;
      while i < |blockers|
        invariant W.ReleaseFrom(State(), w, i) == W.ReleaseFrom(old(State()), w, 0)
        decreases |blockers| - i
      {
        if Depends(blockers[i], w) {
          Settle(i, Resolved);
        }
        i := i + 1;
      }
    }

    /** `copy` is the order as the caller holds it. */
    method Transition(w: Id, to: Lifecycle, copy: Order, room: Rooms.StockRoom) returns (ok: bool)
      requires Valid() && room.Valid()
      modifies this, room`rows
      ensures Became(W.Transition(old(State()), w, to, copy), old(State()), ok)
      ensures room.Valid()
      ensures room.State() ==
        if ok && to == Closed && copy.lifecycle != Closed
        then Stock.ReleaseStale(old(room.State()), w) else old(room.State())
    {
      L.TransitionKeeps(State(), w, to, copy);
      if w >= |orders| {
        return false;
      }
      if copy.lifecycle == to {
        return true;
      }
      if to !in Next(copy.lifecycle) {
        return false;
      }
      L.MoveKeeps(State(), w, to, copy.lifecycle);
      orders := orders[w := orders[w].(lifecycle := to)];
      log := log + [Entry(w, copy.lifecycle, to)];
      Recompute(w);
      if to == Closed {
        room.ReleaseStale(w);
      }
      if !(to == InProgress && copy.operational == Running) {
        ReleaseDependents(w);
      }
      return true;
    }
  }
}
