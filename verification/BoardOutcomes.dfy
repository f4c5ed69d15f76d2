/** What each work-order and blocker service accepts and leaves behind, and what the stored status says,
    in terms of the orders and blockers alone. */
module BoardOutcomes {
  import opened Basics
  import opened WorkOrders
  import opened WorkOrderLaws

  // ----- what the stored status says -----

  /** Order `w` has an open blocker of one of these kinds. */
  ghost predicate AnyOpen(b: Board, w: Id, kinds: set<Kind>) {
    exists k :: 0 <= k < |b.blockers|
      && b.blockers[k].wo == w && b.blockers[k].status == Open && b.blockers[k].kind in kinds
  }

  lemma HasOpenIs(b: Board, w: Id, kind: Kind)
    ensures HasOpen(b.blockers, w, kind) <==> AnyOpen(b, w, {kind})
  {
    if AnyOpen(b, w, {kind}) {
      var k :| 0 <= k < |b.blockers|
               && b.blockers[k].wo == w && b.blockers[k].status == Open && b.blockers[k].kind in {kind};
      assert Blocks(b.blockers[k], w, kind);
    }
    if HasOpen(b.blockers, w, kind) {
      var k :| 0 <= k < |b.blockers| && Blocks(b.blockers[k], w, kind);
      assert b.blockers[k].kind in {kind};
    }
  }

  /** The status of an order as its open blockers and its lifecycle give it: parts and shortages
      outrank the vendor, and any blocker outranks running. */
  ghost predicate Says(b: Board, w: Id, s: Operational)
    requires w < |b.orders|
  {
    match s
    case PendingParts => AnyOpen(b, w, {AwaitingPart, AwaitingShortage})
    case WaitingVendor => !AnyOpen(b, w, {AwaitingPart, AwaitingShortage}) && AnyOpen(b, w, {AwaitingVendor})
    case Running =>
      !AnyOpen(b, w, {AwaitingPart, AwaitingShortage, AwaitingVendor, Pause}) && b.orders[w].lifecycle == InProgress
    case Paused =>
      && !AnyOpen(b, w, {AwaitingPart, AwaitingShortage, AwaitingVendor})
      && (AnyOpen(b, w, {Pause}) || b.orders[w].lifecycle != InProgress)
  }

  lemma AnyOpenJoins(b: Board, w: Id, a: set<Kind>, c: set<Kind>)
    ensures AnyOpen(b, w, a + c) <==> AnyOpen(b, w, a) || AnyOpen(b, w, c)
  {
  }

  lemma DerivedSays(b: Board, w: Id, s: Operational)
    requires w < |b.orders|
    ensures Derived(b, w) == s <==> Says(b, w, s)
  {
    HasOpenIs(b, w, AwaitingPart);
    HasOpenIs(b, w, AwaitingShortage);
    HasOpenIs(b, w, AwaitingVendor);
    HasOpenIs(b, w, Pause);
    AnyOpenJoins(b, w, {AwaitingPart}, {AwaitingShortage});
    AnyOpenJoins(b, w, {AwaitingPart, AwaitingShortage}, {AwaitingVendor});
    AnyOpenJoins(b, w, {AwaitingPart, AwaitingShortage, AwaitingVendor}, {Pause});
    assert {AwaitingPart} + {AwaitingShortage} == {AwaitingPart, AwaitingShortage};
    assert {AwaitingPart, AwaitingShortage} + {AwaitingVendor} == {AwaitingPart, AwaitingShortage, AwaitingVendor};
    assert {AwaitingPart, AwaitingShortage, AwaitingVendor} + {Pause}
        == {AwaitingPart, AwaitingShortage, AwaitingVendor, Pause};
  }

  /** In every reachable state the stored status of an order that is neither closed nor cancelled is
      the one its open blockers and its lifecycle give, and no other. */
  lemma StatusOverRuns(b: Board, ops: seq<Op>, w: Id, s: Operational)
    requires BoardOk(b)
    ensures var c := Run(b, ops);
      w < |c.orders| && c.orders[w].lifecycle != Closed && c.orders[w].lifecycle != Cancelled ==>
        (c.orders[w].operational == s <==> Says(c, w, s))
  {
    var c := Run(b, ops);
    BoardOverRuns(b, ops);
    if w < |c.orders| {
      DerivedSays(c, w, s);
    }
  }

  /** A vendor repair and a missing part at once: the order is pending parts. */
  lemma PartsOutrankVendor()
    ensures var b := Board([Order(InProgress, Running)],
                           [Blocker(0, AwaitingVendor, Open, Some(Ref(0, 0)), None),
                            Blocker(0, AwaitingPart, Open, Some(Ref(1, 0)), None)], [], []);
      Recompute(b, 0).orders[0].operational == PendingParts
  {
    var b := Board([Order(InProgress, Running)],
                   [Blocker(0, AwaitingVendor, Open, Some(Ref(0, 0)), None),
                    Blocker(0, AwaitingPart, Open, Some(Ref(1, 0)), None)], [], []);
    assert b.blockers[1].kind in {AwaitingPart, AwaitingShortage};
    DerivedSays(b, 0, PendingParts);
  }

  // ----- blockers -----

  /** Only the stored status of order `w` may have changed besides the blockers and their events. */
  ghost predicate OnlyRefreshed(a: Board, b: Board, w: Id) {
    && b.log == a.log && |b.orders| == |a.orders|
    && forall v :: 0 <= v < |a.orders| ==>
         b.orders[v].lifecycle == a.orders[v].lifecycle && (v != w ==> b.orders[v] == a.orders[v])
  }

  ghost predicate Opened(a: Board, b: Board, x: Blocker) {
    b.blockers == a.blockers + [x] && b.events == a.events + [Event(|a.blockers|, Open)] && OnlyRefreshed(a, b, x.wo)
  }

  ghost predicate OpenFor(b: Board, w: Id, ref: Ref) {
    exists k :: 0 <= k < |b.blockers|
      && b.blockers[k].wo == w && b.blockers[k].status == Open && b.blockers[k].ref == Some(ref)
  }

  lemma WaitingIs(b: Board, w: Id, ref: Ref)
    ensures Waiting(b.blockers, w, ref) <==> OpenFor(b, w, ref)
  {
    if OpenFor(b, w, ref) {
      var k :| 0 <= k < |b.blockers|
               && b.blockers[k].wo == w && b.blockers[k].status == Open && b.blockers[k].ref == Some(ref);
      assert OpenOn(b.blockers[k], w, ref);
    }
    if Waiting(b.blockers, w, ref) {
      var k :| 0 <= k < |b.blockers| && OpenOn(b.blockers[k], w, ref);
      assert b.blockers[k].ref == Some(ref);
    }
  }

  /** A blocker is opened for an existing order and reference that has none open yet, as asked. */
  lemma OpeningIs(b: Board, w: Id, kind: Kind, ref: Option<Ref>, source: Option<Id>)
    ensures var o := OpenBlocker(b, w, kind, ref, source);
      && (o.Some? <==> w < |b.orders|)
      && (o.Some? && (ref == None || OpenFor(b, w, ref.value)) ==> o.value == b)
      && (o.Some? && ref.Some? && !OpenFor(b, w, ref.value) ==>
            Opened(b, o.value, Blocker(w, kind, Open, ref, source)))
  {
    if ref.Some? { WaitingIs(b, w, ref.value); }
  }

  lemma PausingIs(b: Board, w: Id, source: Option<Id>)
    ensures var o := OpenPause(b, w, source);
      && (o.Some? <==> w < |b.orders|)
      && (o.Some? && AnyOpen(b, w, {Pause}) ==> o.value == b)
      && (o.Some? && !AnyOpen(b, w, {Pause}) ==> Opened(b, o.value, Blocker(w, Pause, Open, None, source)))
  {
    HasOpenIs(b, w, Pause);
  }

  /** Blocker `k` alone ended, as `to`, with the event that says so. */
  ghost predicate EndedAs(a: Board, b: Board, k: Id, to: BlockerStatus)
    requires k < |a.blockers|
  {
    && b.blockers == a.blockers[k := a.blockers[k].(status := to)]
    && b.events == a.events + [Event(k, to)] && OnlyRefreshed(a, b, a.blockers[k].wo)
  }

  /** Ending is idle on a blocker ended the same way and refused on one ended the other way. */
  lemma EndingIs(b: Board, k: Id, to: BlockerStatus)
    requires to != Open
    ensures var o := End(b, k, to);
      && (o.Some? <==> k < |b.blockers| && (b.blockers[k].status == Open || b.blockers[k].status == to))
      && (o.Some? && b.blockers[k].status == to ==> o.value == b)
      && (o.Some? && b.blockers[k].status == Open ==> EndedAs(b, o.value, k, to))
  {
  }

  /** The oldest open blocker of a reference, on whichever order. */
  ghost predicate OldestOpen(b: Board, ref: Ref, k: Id) {
    && k < |b.blockers| && b.blockers[k].status == Open && b.blockers[k].ref == Some(ref)
    && forall i :: 0 <= i < k ==> b.blockers[i].status != Open || b.blockers[i].ref != Some(ref)
  }

  /** An issued line, a fulfilled shortage and an ended wait resolve the oldest open blocker of their
      reference, a rejected part withdraws it, and everything else leaves the board alone. */
  lemma EventIs(b: Board, ref: Ref, e: External, k: Id)
    requires OldestOpen(b, ref, k)
    ensures var o := Sync(b, ref, e);
      && o.Some?
      && (if e == PartIssued(true) || e == ShortageFulfilled(true) || e == WaitOver
          then EndedAs(b, o.value, k, Resolved)
          else if e == PartRejected then EndedAs(b, o.value, k, Withdrawn)
          else o.value == b)
  {
    var found := FirstOpen(b.blockers, ref);
    assert found.Some? ==> !(found.value < k) && !(k < found.value);
    EndingIs(b, k, Resolved);
    EndingIs(b, k, Withdrawn);
  }

  lemma EventWithoutBlocker(b: Board, ref: Ref, e: External)
    requires forall i :: 0 <= i < |b.blockers| ==> b.blockers[i].status != Open || b.blockers[i].ref != Some(ref)
    ensures Sync(b, ref, e) == Some(b)
  {
  }

  // ----- lifecycle -----

  /** From where an order may come to each lifecycle. */
  function CameFrom(to: Lifecycle): set<Lifecycle> {
    match to
    case Draft => {}
    case Assigned => {Draft, InProgress, PendingReview}
    case InProgress => {Assigned, PendingReview}
    case PendingReview => {Assigned, InProgress}
    case Closed => {PendingReview}
    case Cancelled => {Draft, Assigned, InProgress}
  }

  /** A transition is accepted along the edges into its goal, from the lifecycle the caller holds; it
      writes and logs that, and changes no other lifecycle. */
  lemma TransitionIs(b: Board, w: Id, to: Lifecycle, copy: Order)
    requires BoardOk(b)
    ensures var o := Transition(b, w, to, copy);
      && (o.Some? <==> w < |b.orders| && (copy.lifecycle == to || copy.lifecycle in CameFrom(to)))
      && (o.Some? && copy.lifecycle == to ==> o.value == b)
      && (o.Some? && copy.lifecycle != to ==>
            && o.value.log == b.log + [Entry(w, copy.lifecycle, to)] && |o.value.orders| == |b.orders|
            && forall v :: 0 <= v < |b.orders| ==>
                 o.value.orders[v].lifecycle == if v == w then to else b.orders[v].lifecycle)
  {
    if w < |b.orders| && copy.lifecycle in CameFrom(to) {
      TransitionLogs(b, w, to, copy);
    }
  }
}
