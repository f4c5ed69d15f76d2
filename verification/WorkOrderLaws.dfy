/** What every run keeps about work orders: the stored operational status is always the derived
    one, lifecycle logs are legal paths, and a blocker's history matches its status. */
module WorkOrderLaws {
  import opened Basics
  import opened WorkOrders

  // ----- invariants -----

  /** Every order that is not terminal stores exactly its derived operational status. */
  ghost predicate Fresh(b: Board) {
    forall w :: 0 <= w < |b.orders| && !Terminal(b.orders[w].lifecycle) ==>
      b.orders[w].operational == Derived(b, w)
  }

  ghost predicate Placed(b: Board) {
    forall k :: 0 <= k < |b.blockers| ==> b.blockers[k].wo < |b.orders|
  }

  /** At most one open blocker per order and external reference, and at most one open pause
      without a reference per order. */
  ghost predicate OneOpenEach(b: Board) {
    forall i, j | 0 <= i < j < |b.blockers| && b.blockers[i].status == Open && b.blockers[j].status == Open ::
      && (b.blockers[i].wo == b.blockers[j].wo && b.blockers[i].ref.Some? ==> b.blockers[i].ref != b.blockers[j].ref)
      && (b.blockers[i].wo == b.blockers[j].wo && b.blockers[i].ref == None ==> b.blockers[j].ref.Some?)
      && (b.blockers[i].ref == None ==> b.blockers[i].kind == Pause)
  }

  ghost predicate PausesOnly(b: Board) {
    forall k :: 0 <= k < |b.blockers| && b.blockers[k].ref == None ==> b.blockers[k].kind == Pause
  }

  function Events(events: seq<Event>, k: Id, to: BlockerStatus): nat {
    if events == [] then 0 else
    Events(events[..|events| - 1], k, to) + if events[|events| - 1] == Event(k, to) then 1 else 0
  }

  /** One created event per blocker, and one terminal event exactly when it is settled, of the
      kind its status says. */
  ghost predicate HistoryMatches(b: Board) {
    && (forall k, s {:trigger Events(b.events, k, s)} :: 0 <= k < |b.blockers| ==>
          Events(b.events, k, s) == if s == Open || s == b.blockers[k].status then 1 else 0)
    && (forall e :: 0 <= e < |b.events| ==> b.events[e].blocker < |b.blockers|)
  }

  ghost predicate BoardOk(b: Board) {
    Fresh(b) && Placed(b) && OneOpenEach(b) && PausesOnly(b) && HistoryMatches(b)
  }

  // ----- building blocks -----

  lemma EventsPush(events: seq<Event>, e: Event, k: Id, s: BlockerStatus)
    ensures Events(events + [e], k, s) == Events(events, k, s) + if e == Event(k, s) then 1 else 0
  {
    assert (events + [e])[..|events|] == events;
  }

  lemma {:induction false} NoEvents(events: seq<Event>, k: Id, s: BlockerStatus)
    requires forall e :: 0 <= e < |events| ==> events[e].blocker < k
    ensures Events(events, k, s) == 0
  {
    if events != [] {
      NoEvents(events[..|events| - 1], k, s);
    }
  }

  /** Orders other than `w` derive the same status from blockers that differ on `w` only. */
  ghost predicate OnlyAbout(a: seq<Blocker>, b: seq<Blocker>, w: Id) {
    forall v: Id, kind :: v != w ==> HasOpen(a, v, kind) == HasOpen(b, v, kind)
  }

  lemma PushAbout(blockers: seq<Blocker>, x: Blocker)
    ensures OnlyAbout(blockers, blockers + [x], x.wo)
  {
    forall v: Id, kind | v != x.wo ensures HasOpen(blockers, v, kind) == HasOpen(blockers + [x], v, kind) {
      if HasOpen(blockers, v, kind) {
        var i :| 0 <= i < |blockers| && Blocks(blockers[i], v, kind);
        assert Blocks((blockers + [x])[i], v, kind);
      }
    }
  }

  lemma UpdateAbout(blockers: seq<Blocker>, k: Id, x: Blocker)
    requires k < |blockers| && x.wo == blockers[k].wo
    ensures OnlyAbout(blockers, blockers[k := x], x.wo)
  {
    forall v: Id, kind | v != x.wo ensures HasOpen(blockers, v, kind) == HasOpen(blockers[k := x], v, kind) {
      if HasOpen(blockers, v, kind) {
        var i :| 0 <= i < |blockers| && Blocks(blockers[i], v, kind);
        assert Blocks(blockers[k := x][i], v, kind);
      }
    }
  }

  /** Recomputing order `w` makes the board fresh again after a change about `w` only. */
  lemma RecomputeFreshens(a: Board, b: Board, w: Id)
    requires Fresh(a) && |a.orders| == |b.orders| && w < |b.orders|
    requires forall v :: 0 <= v < |a.orders| && v != w ==> b.orders[v] == a.orders[v]
    requires OnlyAbout(a.blockers, b.blockers, w)
    ensures Fresh(Recompute(b, w))
  {
    var c := Recompute(b, w);
    forall v | 0 <= v < |c.orders| && !Terminal(c.orders[v].lifecycle)
      ensures c.orders[v].operational == Derived(c, v)
    {
      if v != w {
        assert c.orders[v] == a.orders[v];
      }
    }
  }

  lemma AddKeeps(b: Board, x: Blocker)
    requires BoardOk(b) && x.wo < |b.orders| && x.status == Open
    requires x.ref.Some? ==> !Waiting(b.blockers, x.wo, x.ref.value)
    requires x.ref == None ==> x.kind == Pause && !HasOpen(b.blockers, x.wo, Pause)
    ensures BoardOk(Add(b, x))
  {
    var c := Add(b, x);
    var raw := b.(blockers := b.blockers + [x], events := b.events + [Event(|b.blockers|, Open)]);
    PushAbout(b.blockers, x);
    RecomputeFreshens(b, raw, x.wo);
    forall k: Id, s | k < |c.blockers|
      ensures Events(c.events, k, s) == if s == Open || s == c.blockers[k].status then 1 else 0
    {
      EventsPush(b.events, Event(|b.blockers|, Open), k, s);
      if k == |b.blockers| { NoEvents(b.events, k, s); }
    }
    forall i | 0 <= i < |b.blockers| && b.blockers[i].status == Open && b.blockers[i].wo == x.wo
      ensures b.blockers[i].ref.Some? ==> b.blockers[i].ref != x.ref
      ensures b.blockers[i].ref == None ==> x.ref.Some?
    {
      assert x.ref.Some? ==> !OpenOn(b.blockers[i], x.wo, x.ref.value);
      assert x.ref == None ==> !Blocks(b.blockers[i], x.wo, Pause);
    }
  }

  lemma SettleKeeps(b: Board, k: Id, to: BlockerStatus)
    requires BoardOk(b) && k < |b.blockers| && b.blockers[k].status == Open && to != Open
    ensures BoardOk(Settle(b, k, to))
  {
    var c := Settle(b, k, to);
    var x := b.blockers[k].(status := to);
    var raw := b.(blockers := b.blockers[k := x], events := b.events + [Event(k, to)]);
    UpdateAbout(b.blockers, k, x);
    RecomputeFreshens(b, raw, x.wo);
    forall j: Id, s | j < |c.blockers|
      ensures Events(c.events, j, s) == if s == Open || s == c.blockers[j].status then 1 else 0
    {
      EventsPush(b.events, Event(k, to), j, s);
      assert Events(b.events, j, s) == if s == Open || s == b.blockers[j].status then 1 else 0;
    }
  }

  // ----- what may happen to an order and to a blocker -----

  ghost predicate BlockerFollows(a: Blocker, b: Blocker) {
    b == a || (a.status == Open && b == a.(status := b.status))
  }

  /** Nothing disappears, and blockers never reopen. */
  ghost predicate Grows(a: Board, b: Board) {
    && |a.orders| <= |b.orders| && |a.blockers| <= |b.blockers|
    && a.events <= b.events && a.log <= b.log
    && (forall k :: 0 <= k < |a.blockers| ==> BlockerFollows(a.blockers[k], b.blockers[k]))
  }

  /** Terminal orders are as they were. */
  ghost predicate Frozen(a: Board, b: Board) {
    && |a.orders| <= |b.orders|
    && (forall w :: 0 <= w < |a.orders| && Terminal(a.orders[w].lifecycle) ==> b.orders[w] == a.orders[w])
  }

  ghost predicate Follows(a: Board, b: Board) { Grows(a, b) && Frozen(a, b) }

  lemma GrowsTransitive(a: Board, b: Board, c: Board)
    requires Grows(a, b) && Grows(b, c)
    ensures Grows(a, c)
  {
    forall k | 0 <= k < |a.blockers| ensures BlockerFollows(a.blockers[k], c.blockers[k]) {
      assert BlockerFollows(a.blockers[k], b.blockers[k]) && BlockerFollows(b.blockers[k], c.blockers[k]);
    }
  }

  lemma FollowsTransitive(a: Board, b: Board, c: Board)
    requires Follows(a, b) && Follows(b, c)
    ensures Follows(a, c)
  {
    GrowsTransitive(a, b, c);
  }

  /** Releasing dependents keeps the board in order and leaves lifecycles and the log alone. */
  lemma {:induction false} ReleaseFromKeeps(b: Board, w: Id, i: nat)
    requires BoardOk(b)
    ensures var c := ReleaseFrom(b, w, i);
      BoardOk(c) && Follows(b, c) && c.log == b.log && SameLifecycles(b, c)
    decreases |b.blockers| - i
  {
    if i < |b.blockers| {
      var next := if Depends(b.blockers[i], w) then Settle(b, i, Resolved) else b;
      ReleaseOneKeeps(b, w, i);
      ReleaseFromKeeps(next, w, i + 1);
      Join(b, next, ReleaseFrom(next, w, i + 1));
    }
  }

  lemma ReleaseOneKeeps(b: Board, w: Id, i: nat)
    requires BoardOk(b) && i < |b.blockers|
    ensures var c := if Depends(b.blockers[i], w) then Settle(b, i, Resolved) else b;
      BoardOk(c) && Follows(b, c) && c.log == b.log && SameLifecycles(b, c) && |c.blockers| == |b.blockers|
  {
    if Depends(b.blockers[i], w) { SettleKeeps(b, i, Resolved); }
  }

  lemma Join(a: Board, b: Board, c: Board)
    requires Follows(a, b) && SameLifecycles(a, b) && Follows(b, c) && SameLifecycles(b, c)
    ensures Follows(a, c) && SameLifecycles(a, c)
  {
    FollowsTransitive(a, b, c);
  }

  /** A blocker, resolved if it is to be released and an open pause caused by order `w`. */
  function LetGo(x: Blocker, w: Id, release: bool): Blocker {
    if release && Depends(x, w) then x.(status := Resolved) else x
  }

  /** It resolves exactly the open pauses caused by `w` from blocker `i` on. */
  lemma {:induction false} ReleaseFromReleases(b: Board, w: Id, i: nat)
    ensures var c := ReleaseFrom(b, w, i);
      && |c.blockers| == |b.blockers|
      && (forall k :: 0 <= k < |c.blockers| ==> c.blockers[k] == LetGo(b.blockers[k], w, k >= i))
    decreases |b.blockers| - i
  {
    if i < |b.blockers| {
      ReleaseFromReleases(if Depends(b.blockers[i], w) then Settle(b, i, Resolved) else b, w, i + 1);
    }
  }

  ghost predicate SameLifecycles(a: Board, b: Board) {
    |a.orders| == |b.orders| && forall w :: 0 <= w < |a.orders| ==> b.orders[w].lifecycle == a.orders[w].lifecycle
  }

  // ----- transitions -----

  lemma MoveKeeps(b: Board, w: Id, to: Lifecycle, was: Lifecycle)
    requires BoardOk(b) && w < |b.orders|
    ensures var c := Moved(b, w, to, was);
      && BoardOk(c) && Grows(b, c) && c.blockers == b.blockers
      && c.log == b.log + [Entry(w, was, to)]
      && SameLifecycles(b.(orders := b.orders[w := b.orders[w].(lifecycle := to)]), c)
      && (forall v :: 0 <= v < |b.orders| && v != w ==> c.orders[v] == b.orders[v])
      && (Terminal(b.orders[w].lifecycle) && b.orders[w].lifecycle == to ==> c.orders[w] == b.orders[w])
  {
    var raw := b.(orders := b.orders[w := b.orders[w].(lifecycle := to)], log := b.log + [Entry(w, was, to)]);
    RecomputeFreshens(b, raw, w);
  }

  predicate Executes(b: Board, w: Id, to: Lifecycle, copy: Order) {
    w < |b.orders| && to in Next(copy.lifecycle)
  }

  /** A transition that changes an order already closed or cancelled, which only a copy read
      before that can ask for. */
  predicate Revives(b: Board, op: Op) {
    op.OpTransition? && Executes(b, op.wo, op.status, op.copy)
    && Terminal(b.orders[op.wo].lifecycle) && b.orders[op.wo].lifecycle != op.status
  }

  lemma TransitionKeeps(b: Board, w: Id, to: Lifecycle, copy: Order)
    requires BoardOk(b)
    ensures var c := Step(b, OpTransition(w, to, copy));
      && BoardOk(c) && Grows(b, c)
      && (Frozen(b, c) <==> !Revives(b, OpTransition(w, to, copy)))
  {
    if Executes(b, w, to, copy) {
      var moved := Moved(b, w, to, copy.lifecycle);
      MoveKeeps(b, w, to, copy.lifecycle);
      ReleaseFromKeeps(moved, w, 0);
      GrowsTransitive(b, moved, Step(b, OpTransition(w, to, copy)));
      FrozenThrough(b, moved, Step(b, OpTransition(w, to, copy)), w, to);
    }
  }

  /** Order `w` alone is given a new lifecycle, and then lifecycles stay. */
  lemma FrozenThrough(b: Board, moved: Board, c: Board, w: Id, to: Lifecycle)
    requires |b.orders| == |moved.orders| && w < |b.orders|
    requires forall v :: 0 <= v < |b.orders| && v != w ==> moved.orders[v] == b.orders[v]
    requires moved.orders[w].lifecycle == to
    requires Terminal(b.orders[w].lifecycle) && b.orders[w].lifecycle == to ==> moved.orders[w] == b.orders[w]
    requires Frozen(moved, c) && SameLifecycles(moved, c)
    ensures Frozen(b, c) <==> !(Terminal(b.orders[w].lifecycle) && b.orders[w].lifecycle != to)
  {
  }

  /** A transition resolves exactly the open pauses caused by its order, or none at all when the
      order goes in progress on a copy that shows it running. */
  lemma TransitionReleases(b: Board, w: Id, to: Lifecycle, copy: Order)
    requires Executes(b, w, to, copy)
    ensures var c := Step(b, OpTransition(w, to, copy)); var held := to == InProgress && copy.operational == Running;
      && |c.blockers| == |b.blockers|
      && (forall k :: 0 <= k < |b.blockers| ==> c.blockers[k] == LetGo(b.blockers[k], w, !held))
      && ((exists k :: 0 <= k < |c.blockers| && Depends(c.blockers[k], w)) <==>
            held && exists k :: 0 <= k < |b.blockers| && Depends(b.blockers[k], w))
  {
    ReleaseFromReleases(Moved(b, w, to, copy.lifecycle), w, 0);
  }

  /** With a copy of the order that was fresh when the transition began, every transition releases
      all dependents: an order that is not yet in progress is never seen running. So the check
      that would keep them only ever acts on a copy that was already stale. */
  lemma FreshCopyAlwaysReleases(b: Board, w: Id, to: Lifecycle)
    requires BoardOk(b) && w < |b.orders| && to in Next(b.orders[w].lifecycle)
    ensures var c := Step(b, OpTransition(w, to, b.orders[w]));
      forall k :: 0 <= k < |c.blockers| ==> !Depends(c.blockers[k], w)
  {
    TransitionReleases(b, w, to, b.orders[w]);
    assert b.orders[w].operational == Derived(b, w);
  }

  /** So a dependent is let go although its source ends up running: order 0, paused for order 1,
      resumes the moment work on order 1 starts. */
  lemma StartReleasesThoughRunning()
    ensures var b := Run(EMPTY, [OpNew(false), OpNew(false), OpPause(0, Some(1))]);
      var c := Step(b, OpTransition(1, InProgress, b.orders[1]));
      && |b.orders| == 2 && b.blockers == [Blocker(0, Pause, Open, None, Some(1))]
      && c.orders[1] == Order(InProgress, Running)
      && c.blockers == [Blocker(0, Pause, Resolved, None, Some(1))]
  {
    var two := Board([Order(Assigned, Paused), Order(Assigned, Paused)], [], [], []);
    TwoOrders();
    PauseForSecond(two);
    StartSecond(OpenPause(two, 0, Some(1)).value);
  }

  lemma PauseForSecond(two: Board)
    requires two.orders == [Order(Assigned, Paused), Order(Assigned, Paused)] && two.blockers == []
    ensures OpenPause(two, 0, Some(1)).Some?
    ensures var b := OpenPause(two, 0, Some(1)).value;
      b.orders == two.orders && b.blockers == [Blocker(0, Pause, Open, None, Some(1))]
  {
    var x := Blocker(0, Pause, Open, None, Some(1));
    assert [] + [x] == [x];
    assert HasOpen([x], 0, Pause) by { assert Blocks([x][0], 0, Pause); }
    assert two.orders[0 := Order(Assigned, Paused)] == two.orders;
  }

  lemma StartSecond(b: Board)
    requires b.orders == [Order(Assigned, Paused), Order(Assigned, Paused)]
    requires b.blockers == [Blocker(0, Pause, Open, None, Some(1))]
    ensures var c := Step(b, OpTransition(1, InProgress, b.orders[1]));
      && |c.orders| == 2 && c.orders[1] == Order(InProgress, Running)
      && c.blockers == [Blocker(0, Pause, Resolved, None, Some(1))]
  {
    var moved := Moved(b, 1, InProgress, Assigned);
    assert moved.orders[1] == Order(InProgress, Running);
    var c := Settle(moved, 0, Resolved);
    assert ReleaseFrom(moved, 1, 0) == ReleaseFrom(c, 1, 1);
    assert c.blockers == [b.blockers[0].(status := Resolved)];
  }

  /** Two orders, the first paused for the second. */
  lemma TwoOrders()
    ensures var two := Board([Order(Assigned, Paused), Order(Assigned, Paused)], [], [], []);
      Run(EMPTY, [OpNew(false), OpNew(false), OpPause(0, Some(1))]) == Step(two, OpPause(0, Some(1)))
  {
    var ops := [OpNew(false), OpNew(false), OpPause(0, Some(1))];
    var one := Board([Order(Assigned, Paused)], [], [], []);
    assert ops[1..] == [OpNew(false), OpPause(0, Some(1))];
    assert ops[1..][1..] == [OpPause(0, Some(1))];
    assert ops[1..][1..][1..] == [];
    assert Step(EMPTY, ops[0]) == one;
    assert Step(one, ops[0]).orders == [Order(Assigned, Paused), Order(Assigned, Paused)];
  }

  lemma EndKeeps(b: Board, k: Id, to: BlockerStatus)
    requires BoardOk(b)
    ensures BoardOk(Step(b, OpEnd(k, to))) && Follows(b, Step(b, OpEnd(k, to)))
  {
    if k < |b.blockers| && b.blockers[k].status == Open && to != Open {
      SettleKeeps(b, k, to);
    }
  }

  lemma NewKeeps(b: Board, draft: bool)
    requires BoardOk(b)
    ensures BoardOk(NewOrder(b, draft)) && Follows(b, NewOrder(b, draft))
  {
    var c := NewOrder(b, draft);
    forall w | 0 <= w < |c.orders| && !Terminal(c.orders[w].lifecycle)
      ensures c.orders[w].operational == Derived(c, w)
    {
      if w == |b.orders| {
        forall kind ensures !HasOpen(c.blockers, w, kind) {
        }
      }
    }
  }

  lemma OpenKeeps(b: Board, w: Id, kind: Kind, ref: Option<Ref>, source: Option<Id>)
    requires BoardOk(b)
    ensures BoardOk(Step(b, OpOpen(w, kind, ref, source))) && Follows(b, Step(b, OpOpen(w, kind, ref, source)))
  {
    if w < |b.orders| && ref.Some? && !Waiting(b.blockers, w, ref.value) {
      AddKeeps(b, Blocker(w, kind, Open, ref, source));
    }
  }

  lemma PauseKeeps(b: Board, w: Id, source: Option<Id>)
    requires BoardOk(b)
    ensures BoardOk(Step(b, OpPause(w, source))) && Follows(b, Step(b, OpPause(w, source)))
  {
    if w < |b.orders| && !HasOpen(b.blockers, w, Pause) {
      AddKeeps(b, Blocker(w, Pause, Open, None, source));
    }
  }

  lemma SyncKeeps(b: Board, ref: Ref, e: External)
    requires BoardOk(b)
    ensures BoardOk(Step(b, OpSync(ref, e))) && Follows(b, Step(b, OpSync(ref, e)))
  {
    var k := FirstOpen(b.blockers, ref);
    if k.Some? {
      var to := if e.PartRejected? then Withdrawn else Resolved;
      EndKeeps(b, k.value, to);
      assert Step(b, OpSync(ref, e)) == b || Step(b, OpSync(ref, e)) == Step(b, OpEnd(k.value, to));
    }
  }

  /** Recomputing a board that is in order changes nothing, so a second pass is idle. */
  lemma RecomputeIsIdle(b: Board, w: Id)
    requires BoardOk(b)
    ensures Recompute(b, w) == b
  {
    if w < |b.orders| && !Terminal(b.orders[w].lifecycle) {
      assert b.orders[w].(operational := Derived(b, w)) == b.orders[w];
      assert b.orders[w := b.orders[w]] == b.orders;
    }
  }

  lemma StepKeeps(b: Board, op: Op)
    requires BoardOk(b)
    ensures BoardOk(Step(b, op)) && Grows(b, Step(b, op))
    ensures Frozen(b, Step(b, op)) <==> !Revives(b, op)
  {
    match op
    case OpNew(draft) => NewKeeps(b, draft);
    case OpOpen(w, kind, ref, source) => OpenKeeps(b, w, kind, ref, source);
    case OpPause(w, source) => PauseKeeps(b, w, source);
    case OpEnd(k, to) => EndKeeps(b, k, to);
    case OpSync(ref, e) => SyncKeeps(b, ref, e);
    case OpTransition(w, to, copy) => TransitionKeeps(b, w, to, copy);
    case OpRecompute(w) => RecomputeIsIdle(b, w);
  }

  predicate NeverRevives(b: Board, ops: seq<Op>)
    decreases |ops|
  {
    ops == [] || (!Revives(b, ops[0]) && NeverRevives(Step(b, ops[0]), ops[1..]))
  }

  /** No step of a run changes an order that is terminal when it is taken. */
  ghost predicate AlwaysFrozen(b: Board, ops: seq<Op>)
    decreases |ops|
  {
    ops == [] || (Frozen(b, Step(b, ops[0])) && AlwaysFrozen(Step(b, ops[0]), ops[1..]))
  }

  /** In every state of every run the stored status is the derived one, there is at most one open
      blocker per reference and one open pause per order, histories match statuses and blockers
      never reopen; and terminal orders are frozen at every step if and only if no transition
      revives one. */
  lemma {:induction false} BoardOverRuns(b: Board, ops: seq<Op>)
    requires BoardOk(b)
    ensures BoardOk(Run(b, ops)) && Grows(b, Run(b, ops))
    ensures AlwaysFrozen(b, ops) <==> NeverRevives(b, ops)
    ensures NeverRevives(b, ops) ==> Frozen(b, Run(b, ops))
    decreases |ops|
  {
    if ops != [] {
      StepKeeps(b, ops[0]);
      BoardOverRuns(Step(b, ops[0]), ops[1..]);
      GrowsTransitive(b, Step(b, ops[0]), Run(b, ops));
    }
  }

  /** Starting a preventive order writes the lifecycle without recomputing: the stored status is
      then the derived one exactly when some blocker is open, and recomputing mends it. */
  lemma PreventiveStartGoesStale(b: Board, w: Id)
    requires BoardOk(b) && w < |b.orders| && b.orders[w].lifecycle == Assigned
    ensures var c := b.(orders := b.orders[w := b.orders[w].(lifecycle := InProgress)],
                        log := b.log + [Entry(w, Assigned, InProgress)]);
      (Fresh(c) <==> exists kind :: HasOpen(b.blockers, w, kind)) && BoardOk(Recompute(c, w))
  {
    var c := b.(orders := b.orders[w := b.orders[w].(lifecycle := InProgress)],
                log := b.log + [Entry(w, Assigned, InProgress)]);
    MoveKeeps(b, w, InProgress, Assigned);
    StaleUnlessBlocked(b, w);
    forall v | 0 <= v < |b.orders| && v != w ensures Derived(c, v) == Derived(b, v) && c.orders[v] == b.orders[v] {
    }
  }

  lemma StaleUnlessBlocked(b: Board, w: Id)
    requires w < |b.orders| && b.orders[w].lifecycle == Assigned && b.orders[w].operational == Derived(b, w)
    ensures var c := b.(orders := b.orders[w := b.orders[w].(lifecycle := InProgress)],
                        log := b.log + [Entry(w, Assigned, InProgress)]);
      c.orders[w].operational == Derived(c, w) <==> exists kind :: HasOpen(b.blockers, w, kind)
  {
    if kind :| HasOpen(b.blockers, w, kind) {
      assert kind == AwaitingPart || kind == AwaitingShortage || kind == AwaitingVendor || kind == Pause;
    }
  }

  // ----- the lifecycle log -----

  /** Replays the log entries of an order from a status; none unless they follow allowed edges
      end to end. */
  function Replay(log: seq<Entry>, w: Id, start: Lifecycle): Option<Lifecycle> {
    if log == [] then Some(start) else
    var before := Replay(log[..|log| - 1], w, start);
    var last := log[|log| - 1];
    if last.wo != w then before
    else if before == Some(last.was) && last.became in Next(last.was) then Some(last.became)
    else None
  }

  /** A log that has failed to replay never does again. */
  lemma {:induction false} ReplayStaysBroken(a: seq<Entry>, c: seq<Entry>, w: Id, start: Lifecycle)
    requires a <= c && Replay(a, w, start) == None
    ensures Replay(c, w, start) == None
  {
    if |a| == |c| {
      assert a == c;
    } else {
      assert a <= c[..|c| - 1];
      ReplayStaysBroken(a, c[..|c| - 1], w, start);
    }
  }

  lemma {:induction false} ReplayWithout(log: seq<Entry>, w: Id, start: Lifecycle)
    requires forall k :: 0 <= k < |log| ==> log[k].wo != w
    ensures Replay(log, w, start) == Some(start)
  {
    if log != [] {
      ReplayWithout(log[..|log| - 1], w, start);
    }
  }

  /** The statuses in which a run's orders were created, in key order. */
  function Firsts(ops: seq<Op>): seq<Lifecycle> {
    if ops == [] then [] else First(ops[0]) + Firsts(ops[1..])
  }

  function First(op: Op): seq<Lifecycle> {
    if op.OpNew? then [if op.draft then Draft else Assigned] else []
  }

  /** The whole log of every order is a legal path from its first status to its present one. */
  ghost predicate Traced(b: Board, firsts: seq<Lifecycle>) {
    && |firsts| == |b.orders|
    && (forall k :: 0 <= k < |b.log| ==> b.log[k].wo < |b.orders|)
    && (forall w :: 0 <= w < |b.orders| ==> Replay(b.log, w, firsts[w]) == Some(b.orders[w].lifecycle))
  }

  /** The caller of a transition holds the order's present lifecycle. */
  predicate Current(b: Board, op: Op) {
    op.OpTransition? && Executes(b, op.wo, op.status, op.copy) ==> op.copy.lifecycle == b.orders[op.wo].lifecycle
  }

  predicate RunCurrent(b: Board, ops: seq<Op>)
    decreases |ops|
  {
    ops == [] || (Current(b, ops[0]) && RunCurrent(Step(b, ops[0]), ops[1..]))
  }

  lemma {:induction false} CurrentNeverRevives(b: Board, ops: seq<Op>)
    requires RunCurrent(b, ops)
    ensures NeverRevives(b, ops)
    decreases |ops|
  {
    if ops != [] {
      CurrentNeverRevives(Step(b, ops[0]), ops[1..]);
    }
  }

  /** So on current copies a closed or cancelled order keeps both its statuses for ever. */
  lemma CurrentKeepsTerminal(b: Board, ops: seq<Op>)
    requires BoardOk(b) && RunCurrent(b, ops)
    ensures AlwaysFrozen(b, ops)
    ensures var c := Run(b, ops);
      && |b.orders| <= |c.orders|
      && forall w :: 0 <= w < |b.orders| && (b.orders[w].lifecycle == Closed || b.orders[w].lifecycle == Cancelled) ==>
           c.orders[w] == b.orders[w]
  {
    CurrentNeverRevives(b, ops);
    BoardOverRuns(b, ops);
  }

  /** Only transitions write the log or a lifecycle. */
  lemma OthersKeepLifecycles(b: Board, op: Op)
    requires !op.OpTransition?
    ensures var c := Step(b, op);
      && c.log == b.log && |c.orders| == |b.orders| + |First(op)|
      && (forall w :: 0 <= w < |b.orders| ==> c.orders[w].lifecycle == b.orders[w].lifecycle)
      && (op.OpNew? ==> c.orders[|b.orders|].lifecycle == First(op)[0])
  {
  }

  /** What a transition does to the lifecycles and the log. */
  lemma TransitionLogs(b: Board, w: Id, to: Lifecycle, copy: Order)
    requires BoardOk(b) && Executes(b, w, to, copy)
    ensures var c := Step(b, OpTransition(w, to, copy));
      && c.log == b.log + [Entry(w, copy.lifecycle, to)] && |c.orders| == |b.orders|
      && (forall v :: 0 <= v < |b.orders| ==> c.orders[v].lifecycle == if v == w then to else b.orders[v].lifecycle)
  {
    MoveKeeps(b, w, to, copy.lifecycle);
    ReleaseFromKeeps(Moved(b, w, to, copy.lifecycle), w, 0);
  }

  lemma ReplayPush(log: seq<Entry>, e: Entry, w: Id, start: Lifecycle)
    ensures Replay(log + [e], w, start) ==
      if e.wo != w then Replay(log, w, start)
      else if Replay(log, w, start) == Some(e.was) && e.became in Next(e.was) then Some(e.became) else None
  {
    assert (log + [e])[..|log|] == log;
  }

  /** One step keeps the log a legal path exactly when it acts on a current copy; otherwise the
      log of some order no longer replays. */
  lemma StepTraced(b: Board, op: Op, firsts: seq<Lifecycle>)
    requires BoardOk(b) && Traced(b, firsts)
    ensures Current(b, op) ==> Traced(Step(b, op), firsts + First(op))
    ensures !Current(b, op) ==> op.wo < |firsts| && Replay(Step(b, op).log, op.wo, firsts[op.wo]) == None
  {
    if op.OpTransition? && Executes(b, op.wo, op.status, op.copy) {
      TransitionLogs(b, op.wo, op.status, op.copy);
      forall w | 0 <= w < |b.orders|
        ensures Replay(Step(b, op).log, w, firsts[w]) ==
          if w != op.wo then Some(b.orders[w].lifecycle)
          else if op.copy.lifecycle == b.orders[w].lifecycle then Some(op.status) else None
      {
        ReplayPush(b.log, Entry(op.wo, op.copy.lifecycle, op.status), w, firsts[w]);
      }
    } else if !op.OpTransition? {
      OthersKeepLifecycles(b, op);
      if op.OpNew? {
        ReplayWithout(b.log, |b.orders|, First(op)[0]);
      }
    }
  }

  /** The state log of every order is a legal path from its first status to its present one, end
      to end, if and only if every transition of the run acted on a current copy. */
  lemma {:induction false} LogIsLegalPath(b: Board, ops: seq<Op>, firsts: seq<Lifecycle>)
    requires BoardOk(b) && Traced(b, firsts)
    ensures Traced(Run(b, ops), firsts + Firsts(ops)) <==> RunCurrent(b, ops)
    decreases |ops|
  {
    if ops == [] {
      assert firsts + [] == firsts;
    } else {
      var op, next := ops[0], Step(b, ops[0]);
      StepTraced(b, op, firsts);
      StepKeeps(b, op);
      FirstsOnwards(firsts, op, Firsts(ops[1..]));
      if Current(b, op) {
        LogIsLegalPath(next, ops[1..], firsts + First(op));
      } else {
        NeverTraced(next, ops[1..], firsts + Firsts(ops), op.wo);
      }
    }
  }

  lemma FirstsOnwards(firsts: seq<Lifecycle>, op: Op, rest: seq<Lifecycle>)
    ensures firsts + (First(op) + rest) == firsts + First(op) + rest
  {
  }

  lemma NeverTraced(b: Board, ops: seq<Op>, firsts: seq<Lifecycle>, w: Id)
    requires BoardOk(b) && w < |firsts| && Replay(b.log, w, firsts[w]) == None
    ensures !Traced(Run(b, ops), firsts)
  {
    BoardOverRuns(b, ops);
    ReplayStaysBroken(b.log, Run(b, ops).log, w, firsts[w]);
  }

  /** From the empty board. */
  lemma LogFromStart(ops: seq<Op>)
    ensures Traced(Run(EMPTY, ops), Firsts(ops)) <==> RunCurrent(EMPTY, ops)
  {
    LogIsLegalPath(EMPTY, ops, []);
    assert [] + Firsts(ops) == Firsts(ops);
  }
}
