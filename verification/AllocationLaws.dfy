/** Reallocation hands free stock out greedily in priority order. */
module AllocationLaws {
  import opened Basics
  import opened Records
  import opened Reservations
  import opened StockOperations
  import opened ReservationLaws
  import opened ReservationRuns

  /** What an eligible line still wants; a line that already has an ACTIVE reservation is
      passed over, because a second one would violate the table constraint. */
  function Want(db: Db, l: Id): int {
    if l < |db.lines| && Wants(db.lines[l]) && !HasActive(db.rows, l) then Gap(db.lines[l]) else 0
  }

  function TotalWant(db: Db, ids: seq<Id>): int {
    if ids == [] then 0 else Want(db, ids[0]) + TotalWant(db, ids[1..])
  }

  function Gain(a: Db, b: Db, l: Id): int
    requires l < |a.lines| && l < |b.lines|
  {
    b.lines[l].allotted - a.lines[l].allotted
  }

  ghost predicate Walk(db: Db, ids: seq<Id>, p: Id) {
    && (forall i :: 0 <= i < |ids| ==> ids[i] < |db.lines| && db.lines[ids[i]].part == p)
    && (forall i, j :: 0 <= i < j < |ids| ==> ids[i] != ids[j])
  }

  lemma AllocateOneShare(db: Db, l: Id)
    requires TableOk(db) && l < |db.lines|
    ensures var b := Or(AllocateOne(db, l), db); var p := db.lines[l].part;
      && |b.lines| == |db.lines|
      && Gain(db, b, l) == Min(Want(db, l), Available(db, p))
      && Available(b, p) == Available(db, p) - Gain(db, b, l)
      && b.lines[l].(allotted := 0, status := Pending) == db.lines[l].(allotted := 0, status := Pending)
      && (forall k :: 0 <= k < |db.lines| && k != l ==>
            b.lines[k] == db.lines[k] && HasActive(b.rows, k) == HasActive(db.rows, k))
  {
    var b := Or(AllocateOne(db, l), db);
    if b != db {
      var line := db.lines[l];
      var row := b.rows[|db.rows|];
      SumPush(db.rows, row, Live(OfPart(line.part)));
      forall k | 0 <= k < |db.lines| && k != l && HasActive(db.rows, k)
        ensures HasActive(b.rows, k)
      {
        var i :| 0 <= i < |db.rows| && db.rows[i].status == Active && db.rows[i].claim.line == Some(k);
        assert b.rows[i] == db.rows[i];
      }
    }
  }

  lemma {:induction false} TotalWantNonNegative(db: Db, ids: seq<Id>)
    ensures TotalWant(db, ids) >= 0
  {
    if ids != [] {
      TotalWantNonNegative(db, ids[1..]);
    }
  }

  lemma WalkUnaffected(db: Db, b: Db, ids: seq<Id>)
    requires |b.lines| == |db.lines|
    requires forall i :: 0 <= i < |ids| ==> Want(b, ids[i]) == Want(db, ids[i])
    ensures TotalWant(b, ids) == TotalWant(db, ids)
  {
    if ids != [] {
      WalkUnaffected(db, b, ids[1..]);
    }
  }

  /** The first step of a walk leaves what the other lines want as it was. */
  lemma FirstStep(db: Db, ids: seq<Id>, p: Id)
    requires TableOk(db) && Walk(db, ids, p) && ids != []
    ensures var next := Or(AllocateOne(db, ids[0]), db);
      && TableOk(next) && Walk(next, ids[1..], p) && |next.lines| == |db.lines|
      && (forall i :: 0 < i < |ids| ==> Want(next, ids[i]) == Want(db, ids[i]))
  {
    AllocateOneShare(db, ids[0]);
    AllocateOneEvolves(db, ids[0]);
  }

  /** A walk changes nothing outside its list and uses up what the list wants. */
  lemma {:induction false} WalkTotals(db: Db, ids: seq<Id>, p: Id)
    requires TableOk(db) && Walk(db, ids, p)
    ensures var b := AllocateAll(db, ids);
      && |b.lines| == |db.lines|
      && (forall l :: 0 <= l < |db.lines| && l !in ids ==> b.lines[l] == db.lines[l])
      && Available(b, p) == Max(0, Available(db, p) - TotalWant(db, ids))
    decreases |ids|
  {
    if ids != [] {
      var next, rest := Or(AllocateOne(db, ids[0]), db), ids[1..];
      FirstStep(db, ids, p);
      AllocateOneShare(db, ids[0]);
      WalkTotals(next, rest, p);
      WalkUnaffected(db, next, rest);
      TotalWantNonNegative(db, rest);
      assert forall l :: l in rest ==> l in ids;
    }
  }

  /** A walk gives line `ids[k]` what it wants or what the lines before it left. */
  lemma {:induction false} Share(db: Db, ids: seq<Id>, p: Id, k: nat)
    requires TableOk(db) && Walk(db, ids, p) && k < |ids|
    ensures |AllocateAll(db, ids).lines| == |db.lines|
    ensures Gain(db, AllocateAll(db, ids), ids[k])
         == Max(0, Min(Want(db, ids[k]), Available(db, p) - TotalWant(db, ids[..k])))
    decreases |ids|
  {
    if k == 0 {
      FirstShare(db, ids, p);
    } else {
      var next, rest := Or(AllocateOne(db, ids[0]), db), ids[1..];
      FirstStep(db, ids, p);
      AllocateOneShare(db, ids[0]);
      Share(next, rest, p, k - 1);
      LaterShare(db, next, AllocateAll(next, rest), ids, p, k);
    }
  }

  /** The first line of a walk gets what it wants of what is available. */
  lemma FirstShare(db: Db, ids: seq<Id>, p: Id)
    requires TableOk(db) && Walk(db, ids, p) && ids != []
    ensures |AllocateAll(db, ids).lines| == |db.lines|
    ensures Gain(db, AllocateAll(db, ids), ids[0])
         == Max(0, Min(Want(db, ids[0]), Available(db, p) - TotalWant(db, ids[..0])))
  {
    var next, rest := Or(AllocateOne(db, ids[0]), db), ids[1..];
    FirstStep(db, ids, p);
    AllocateOneShare(db, ids[0]);
    WalkTotals(next, rest, p);
    assert ids[0] !in rest;
    assert ids[..0] == [];
  }

  /** The share of a later line, seen from before and from after the first step. */
  lemma LaterShare(db: Db, next: Db, b: Db, ids: seq<Id>, p: Id, k: nat)
    requires 0 < k < |ids| && |b.lines| == |next.lines| == |db.lines| && ids[k] < |db.lines|
    requires forall i :: 0 < i < |ids| ==> Want(next, ids[i]) == Want(db, ids[i])
    requires Available(next, p) == Available(db, p) - Min(Want(db, ids[0]), Available(db, p))
    requires next.lines[ids[k]] == db.lines[ids[k]]
    requires Gain(next, b, ids[k])
          == Max(0, Min(Want(next, ids[k]), Available(next, p) - TotalWant(next, ids[1..][..k - 1])))
    ensures Gain(db, b, ids[k]) == Max(0, Min(Want(db, ids[k]), Available(db, p) - TotalWant(db, ids[..k])))
  {
    var before := ids[1..][..k - 1];
    assert ids[..k][1..] == before;
    WalkUnaffected(db, next, before);
    TotalWantNonNegative(db, before);
    ShareArithmetic(Want(db, ids[0]), Available(db, p), TotalWant(db, before), Want(db, ids[k]));
  }

  /** What is left after a first grant and further wants. */
  lemma ShareArithmetic(first: int, available: int, between: int, want: int)
    requires first >= 0 && available >= 0 && between >= 0
    ensures Max(0, Min(want, available - Min(first, available) - between))
         == Max(0, Min(want, available - (first + between)))
  {
  }

  // ----- the queue -----

  /** Line `a` comes before line `b` in the queue of their part. */
  predicate Ahead(db: Db, a: Id, b: Id) {
    a < |db.lines| && b < |db.lines| &&
    var ea, eb := db.lines[a].wo in db.emergency, db.lines[b].wo in db.emergency;
    (ea && !eb) || (ea == eb && a < b)
  }

  lemma {:induction false} OpenIdsAre(db: Db, p: Id, emergency: bool, n: nat)
    requires n <= |db.lines|
    ensures var ids := OpenIds(db, p, emergency, n);
      && (forall l: Id :: l in ids <==>
            l < n && db.lines[l].part == p && db.lines[l].Open() && (db.lines[l].wo in db.emergency) == emergency)
      && (forall i, j :: 0 <= i < j < |ids| ==> ids[i] < ids[j])
  {
    if n > 0 {
      OpenIdsAre(db, p, emergency, n - 1);
      var ids, before := OpenIds(db, p, emergency, n), OpenIds(db, p, emergency, n - 1);
      forall i, j | 0 <= i < j < |ids| ensures ids[i] < ids[j] {
        assert i < |before| ==> ids[i] == before[i] && before[i] in before;
        assert j < |before| ==> ids[j] == before[j];
      }
    }
  }

  /** The queue holds exactly the open lines of the part, in priority order. */
  lemma QueueIsPriorityOrder(db: Db, p: Id)
    ensures var q := Queue(db, p);
      && (forall l: Id :: l in q <==> l < |db.lines| && db.lines[l].part == p && db.lines[l].Open())
      && (forall i, j :: 0 <= i < j < |q| ==> Ahead(db, q[i], q[j]))
      && Walk(db, q, p)
  {
    var urgent, other := OpenIds(db, p, true, |db.lines|), OpenIds(db, p, false, |db.lines|);
    OpenIdsAre(db, p, true, |db.lines|);
    OpenIdsAre(db, p, false, |db.lines|);
    OneAfterOther(db, urgent, other);
    forall l: Id ensures l in Queue(db, p) <==> l in urgent || l in other {
    }
    OrderedWalk(db, Queue(db, p), p);
  }

  /** Two ascending lists, emergency lines before the others, are in order when joined. */
  lemma OneAfterOther(db: Db, urgent: seq<Id>, other: seq<Id>)
    requires forall l :: l in urgent ==> l < |db.lines| && db.lines[l].wo in db.emergency
    requires forall l :: l in other ==> l < |db.lines| && db.lines[l].wo !in db.emergency
    requires forall i, j :: 0 <= i < j < |urgent| ==> urgent[i] < urgent[j]
    requires forall i, j :: 0 <= i < j < |other| ==> other[i] < other[j]
    ensures var q := urgent + other; forall i, j :: 0 <= i < j < |q| ==> Ahead(db, q[i], q[j])
  {
    var q := urgent + other;
    forall i, j | 0 <= i < j < |q| ensures Ahead(db, q[i], q[j]) {
      assert if i < |urgent| then q[i] in urgent else q[i] in other;
      assert if j < |urgent| then q[j] in urgent else q[j] in other;
    }
  }

  lemma OrderedWalk(db: Db, q: seq<Id>, p: Id)
    requires forall l :: l in q ==> l < |db.lines| && db.lines[l].part == p
    requires forall i, j :: 0 <= i < j < |q| ==> Ahead(db, q[i], q[j])
    ensures Walk(db, q, p)
  {
    assert forall i :: 0 <= i < |q| ==> q[i] in q;
    forall i, j | 0 <= i < j < |q| ensures q[i] != q[j] {
      AheadOneWay(db, q[i], q[j]);
    }
  }

  lemma {:induction false} TotalWantStep(db: Db, ids: seq<Id>, k: nat)
    requires k < |ids|
    ensures TotalWant(db, ids[..k + 1]) == TotalWant(db, ids[..k]) + Want(db, ids[k])
  {
    if k > 0 {
      assert ids[..k + 1][1..] == ids[1..][..k];
      assert ids[..k][1..] == ids[1..][..k - 1];
      TotalWantStep(db, ids[1..], k - 1);
    } else {
      assert ids[..1][1..] == [];
    }
  }

  lemma {:induction false} TotalWantGrows(db: Db, ids: seq<Id>, i: nat, j: nat)
    requires i <= j <= |ids|
    ensures TotalWant(db, ids[..i]) <= TotalWant(db, ids[..j])
  {
    if i < j {
      TotalWantGrows(db, ids, i, j - 1);
      TotalWantStep(db, ids, j - 1);
    }
  }

  lemma AheadOneWay(db: Db, a: Id, b: Id)
    ensures !(Ahead(db, a, b) && Ahead(db, b, a))
  {
  }

  /** In a walk, an earlier line is served in full before a later one gains anything. */
  lemma EarlierFirst(db: Db, q: seq<Id>, p: Id, i: nat, j: nat)
    requires TableOk(db) && Walk(db, q, p) && i < j < |q|
    ensures |AllocateAll(db, q).lines| == |db.lines|
    ensures Gain(db, AllocateAll(db, q), q[j]) > 0 ==> Gain(db, AllocateAll(db, q), q[i]) == Want(db, q[i])
  {
    Share(db, q, p, i);
    Share(db, q, p, j);
    TotalWantStep(db, q, i);
    TotalWantGrows(db, q, i + 1, j);
  }

  /** Reallocation is greedy: it hands out exactly min(available, total want), no line gains more
      than it wants, and only lines of the queue change. */
  lemma ReallocationIsGreedy(db: Db, p: Id)
    requires TableOk(db)
    ensures var b := Reallocate(db, p); var q := Queue(db, p);
      && Available(db, p) - Available(b, p) == Min(Available(db, p), TotalWant(db, q))
      && |b.lines| == |db.lines|
      && (forall l :: 0 <= l < |db.lines| && l in q ==> 0 <= Gain(db, b, l) <= Want(db, l))
      && (forall l :: 0 <= l < |db.lines| && l !in q ==> b.lines[l] == db.lines[l])
  {
    var b, q := Reallocate(db, p), Queue(db, p);
    QueueIsPriorityOrder(db, p);
    WalkTotals(db, q, p);
    TotalWantNonNegative(db, q);
    forall l | 0 <= l < |db.lines| && l in q ensures 0 <= Gain(db, b, l) <= Want(db, l) {
      GainBounded(db, q, p, l);
    }
  }

  lemma GainBounded(db: Db, q: seq<Id>, p: Id, l: Id)
    requires TableOk(db) && Walk(db, q, p) && l in q
    ensures l < |db.lines| == |AllocateAll(db, q).lines|
    ensures 0 <= Gain(db, AllocateAll(db, q), l) <= Want(db, l)
  {
    var j :| 0 <= j < |q| && q[j] == l;
    Share(db, q, p, j);
    ShareBounded(db, AllocateAll(db, q), l, Available(db, p) - TotalWant(db, q[..j]));
  }

  lemma ShareBounded(a: Db, b: Db, l: Id, left: int)
    requires l < |a.lines| == |b.lines| && Gain(a, b, l) == Max(0, Min(Want(a, l), left))
    ensures 0 <= Gain(a, b, l) <= Want(a, l)
  {
  }

  /** A line gains only if every line ahead of it in the queue gets all it wants. */
  lemma ReallocationRespectsPriority(db: Db, p: Id, m: Id, l: Id)
    requires TableOk(db) && m in Queue(db, p) && l in Queue(db, p) && Ahead(db, m, l)
    ensures m < |db.lines| && l < |db.lines| && |Reallocate(db, p).lines| == |db.lines|
    ensures Gain(db, Reallocate(db, p), l) > 0 ==>
      && Gain(db, Reallocate(db, p), m) == Want(db, m)
      && (Want(db, m) > 0 ==> Reallocate(db, p).lines[m].allotted == db.lines[m].approved)
  {
    var q := Queue(db, p);
    QueueIsPriorityOrder(db, p);
    var i :| 0 <= i < |q| && q[i] == m;
    var j :| 0 <= j < |q| && q[j] == l;
    AheadOneWay(db, m, l);
    assert i < j;
    Share(db, q, p, j);
    if Gain(db, Reallocate(db, p), l) > 0 {
      EarlierFirst(db, q, p, i, j);
    }
  }

  // ----- a second walk -----

  /** A walk changes a line only in what it is allotted and in its status, keeps it open, and
      takes no reservation away. */
  lemma {:induction false} WalkKeepsLines(db: Db, ids: seq<Id>, l: Id)
    requires TableOk(db) && l < |db.lines|
    ensures var b := AllocateAll(db, ids);
      && |b.lines| == |db.lines|
      && b.lines[l].(allotted := 0, status := Pending) == db.lines[l].(allotted := 0, status := Pending)
      && b.lines[l].Open() == db.lines[l].Open()
      && (HasActive(db.rows, l) ==> HasActive(b.rows, l))
      && b.emergency == db.emergency
    decreases |ids|
  {
    if ids != [] {
      var next := Or(AllocateOne(db, ids[0]), db);
      AllocateOneEvolves(db, ids[0]);
      if next != db {
        AllocateOneShare(db, ids[0]);
        assert HasActive(next.rows, ids[0]) by {
          assert next.rows[|db.rows|].claim.line == Some(ids[0]);
        }
      }
      WalkKeepsLines(next, ids[1..], l);
    }
  }

  lemma {:induction false} QueueKept(db: Db, b: Db, p: Id, emergency: bool, n: nat)
    requires |b.lines| == |db.lines| && n <= |db.lines| && b.emergency == db.emergency
    requires forall l :: 0 <= l < |db.lines| ==>
      b.lines[l].part == db.lines[l].part && b.lines[l].wo == db.lines[l].wo && b.lines[l].Open() == db.lines[l].Open()
    ensures OpenIds(b, p, emergency, n) == OpenIds(db, p, emergency, n)
  {
    if n > 0 {
      QueueKept(db, b, p, emergency, n - 1);
    }
  }

  lemma {:induction false} NothingToGrant(db: Db, ids: seq<Id>, p: Id)
    requires forall i :: 0 <= i < |ids| ==> ids[i] < |db.lines| && db.lines[ids[i]].part == p
    requires forall i :: 0 <= i < |ids| ==> Available(db, p) == 0 || Want(db, ids[i]) == 0
    ensures AllocateAll(db, ids) == db
    decreases |ids|
  {
    if ids != [] {
      assert ids[0] < |db.lines|;
      assert Or(AllocateOne(db, ids[0]), db) == db;
      NothingToGrant(db, ids[1..], p);
    }
  }

  /** After a walk, each line of the walk is satisfied, or nothing is available. */
  lemma WalkSettles(db: Db, q: seq<Id>, p: Id, i: nat)
    requires TableOk(db) && Walk(db, q, p) && i < |q|
    ensures |AllocateAll(db, q).lines| == |db.lines|
    ensures Available(AllocateAll(db, q), p) > 0 ==> Gain(db, AllocateAll(db, q), q[i]) == Want(db, q[i])
  {
    WalkTotals(db, q, p);
    Share(db, q, p, i);
    TotalWantStep(db, q, i);
    TotalWantGrows(db, q, i + 1, |q|);
    assert q[..|q|] == q;
    SettledArithmetic(Available(db, p), TotalWant(db, q), TotalWant(db, q[..i]), Want(db, q[i]));
  }

  /** Where something is left over, nothing was short. */
  lemma SettledArithmetic(available: int, total: int, before: int, want: int)
    requires before + want <= total && want >= 0
    ensures Max(0, available - total) > 0 ==> Max(0, Min(want, available - before)) == want
  {
  }

  /** A line that got all it wanted wants nothing more. */
  lemma SatisfiedWantsNothing(a: Db, b: Db, l: Id)
    requires l < |a.lines| == |b.lines| && Gain(a, b, l) == Want(a, l)
    requires b.lines[l].approved == a.lines[l].approved && b.lines[l].Open() == a.lines[l].Open()
    requires HasActive(a.rows, l) ==> HasActive(b.rows, l)
    ensures Want(b, l) == 0
  {
  }

  lemma QueueKeptByWalk(db: Db, q: seq<Id>, p: Id)
    requires TableOk(db) && |db.lines| > 0
    ensures Queue(AllocateAll(db, q), p) == Queue(db, p)
  {
    var b := AllocateAll(db, q);
    forall l: Id | l < |db.lines|
      ensures |b.lines| == |db.lines| && b.emergency == db.emergency
      ensures b.lines[l].part == db.lines[l].part && b.lines[l].wo == db.lines[l].wo
      ensures b.lines[l].Open() == db.lines[l].Open()
    {
      WalkKeepsLines(db, q, l);
    }
    assert |b.lines| == |db.lines| by { WalkKeepsLines(db, q, 0); }
    QueueKept(db, b, p, true, |db.lines|);
    QueueKept(db, b, p, false, |db.lines|);
  }

  /** Reallocating again straight away grants nothing and changes nothing. */
  lemma ReallocationIsIdempotent(db: Db, p: Id)
    requires TableOk(db)
    ensures Reallocate(Reallocate(db, p), p) == Reallocate(db, p)
  {
    var b, q := Reallocate(db, p), Queue(db, p);
    QueueIsPriorityOrder(db, p);
    if q != [] {
      QueueKeptByWalk(db, q, p);
      forall i | 0 <= i < |q|
        ensures q[i] < |b.lines| && b.lines[q[i]].part == p && (Available(b, p) == 0 || Want(b, q[i]) == 0)
      {
        WalkKeepsLines(db, q, q[i]);
        WalkSettles(db, q, p, i);
        if Available(b, p) > 0 {
          SatisfiedWantsNothing(db, b, q[i]);
        }
      }
      NothingToGrant(b, q, p);
    }
  }

  /** Approving a fresh request reserves what it can and takes nothing from stock: the line is
      allotted min(approved, available), and is ALLOCATED exactly when that covers it. */
  lemma ApprovalReservesWhatItCan(db: Db, l: Id, auto: bool)
    requires TableOk(db) && l < |db.lines|
    requires db.lines[l].status == Pending && db.lines[l].allotted == 0 && db.lines[l].quantity > 0
    requires db.lines[l].requested > 0 && !HasActive(db.rows, l)
    ensures var b := Step(db, OpApprove(l, auto)); var p := db.lines[l].part;
      && |b.lines| == |db.lines|
      && b.lines[l].approved == (if auto then db.lines[l].requested else db.lines[l].quantity)
      && b.lines[l].allotted == Min(b.lines[l].approved, Available(db, p))
      && Available(b, p) == Available(db, p) - b.lines[l].allotted
      && (b.lines[l].status == Allocated <==> b.lines[l].approved <= Available(db, p))
      && b.stock == db.stock && b.log == db.log
  {
    var line := db.lines[l];
    var approved := if auto then line.requested else line.quantity;
    var done := PutLine(db, l, line.(
      status := Approved, approved := approved, shortage := Max(0, line.requested - approved)));
    PutLineEvolves(db, l, done.lines[l]);
    assert Step(db, OpApprove(l, auto)) == Or(AllocateOne(done, l), done);
    FreshGrant(done, l);
  }

  lemma FreshGrant(db: Db, l: Id)
    requires TableOk(db) && l < |db.lines| && db.lines[l].status == Approved
    requires db.lines[l].allotted == 0 && db.lines[l].approved > 0 && !HasActive(db.rows, l)
    ensures var b := Or(AllocateOne(db, l), db); var p := db.lines[l].part;
      && |b.lines| == |db.lines|
      && b.lines[l].approved == db.lines[l].approved
      && b.lines[l].allotted == Min(db.lines[l].approved, Available(db, p))
      && Available(b, p) == Available(db, p) - b.lines[l].allotted
      && (b.lines[l].status == Allocated <==> db.lines[l].approved <= Available(db, p))
      && b.stock == db.stock && b.log == db.log
  {
    AllocateOneShare(db, l);
  }

  /** Approving the same line again changes nothing, whichever way it was approved. */
  lemma ApprovalIsIdempotent(db: Db, l: Id, auto: bool, again: bool)
    ensures Step(Step(db, OpApprove(l, auto)), OpApprove(l, again)) == Step(db, OpApprove(l, auto))
  {
  }

  /** A repeated request for the same order and part returns the open line and changes nothing. */
  lemma RequestIsIdempotent(db: Db, wo: Id, p: Id, qty: int, again: int)
    requires RequestPart(db, wo, false, p, qty).Some? && again > 0
    ensures Step(Step(db, OpRequest(wo, false, p, qty)), OpRequest(wo, false, p, again))
         == Step(db, OpRequest(wo, false, p, qty))
  {
    var b := Step(db, OpRequest(wo, false, p, qty));
    if b != db {
      assert b.lines[|db.lines|].Open() && b.lines[|db.lines|].wo == wo && b.lines[|db.lines|].part == p;
    }
  }

  // ----- what a request counts as short -----

  /** The shortage a new request records is what available stock does not cover, as intended, only
      while free stock is not negative; with negative free stock it exceeds the request. */
  lemma RequestShortage(db: Db, wo: Id, p: Id, qty: int)
    requires RequestPart(db, wo, false, p, qty).Some? && !HasOpenLine(db.lines, wo, p)
    ensures var b := Step(db, OpRequest(wo, false, p, qty)); var n := |db.lines|;
      && |b.lines| == n + 1
      && (p in db.stock ==>
            && (b.lines[n].shortage == qty - Min(qty, Available(db, p)) <==> Free(db, p) >= 0)
            && (b.lines[n].shortage > qty <==> Free(db, p) < 0))
      && (p !in db.stock ==> b.lines[n].shortage == qty)
  {
  }

  /** Five of part 7 are reserved for line 0 and then issued to line 1: a request for one unit more
      is recorded as six short. */
  lemma ShortageMayExceedRequest()
    ensures ShortBeyondRequest(Step(Run(Empty({}), ContendedOps()), OpWarehouseIssue(1, 5, false)))
  {
    ContendedIsReached();
    IssuedFromContended();
    RequestOnDeficit(Step(Contended(), OpWarehouseIssue(1, 5, false)));
  }

  predicate ShortBeyondRequest(db: Db) {
    && Free(db, 7) == -5 && RequestPart(db, 2, false, 7, 1).Some?
    && var b := Step(db, OpRequest(2, false, 7, 1)); |b.lines| == 3 && b.lines[2].shortage == 6
  }

  lemma RequestOnDeficit(db: Db)
    requires Overdrawn(db)
    ensures ShortBeyondRequest(db)
  {
  }

  // ----- a direct issue wants its quantity again -----

  lemma {:induction false} TotalWantAppend(db: Db, a: seq<Id>, b: seq<Id>)
    ensures TotalWant(db, a + b) == TotalWant(db, a) + TotalWant(db, b)
  {
    if a == [] {
      assert a + b == b;
    } else {
      assert (a + b)[1..] == a[1..] + b;
      TotalWantAppend(db, a[1..], b);
    }
  }

  lemma {:induction false} OpenIdsOfPrefix(db: Db, b: Db, p: Id, emergency: bool, n: nat)
    requires n <= |db.lines| && db.lines <= b.lines && b.emergency == db.emergency
    ensures OpenIds(b, p, emergency, n) == OpenIds(db, p, emergency, n)
  {
    if n > 0 {
      OpenIdsOfPrefix(db, b, p, emergency, n - 1);
    }
  }

  lemma TotalWantInsert(db: Db, a: seq<Id>, l: Id, b: seq<Id>)
    ensures TotalWant(db, a + [l] + b) == TotalWant(db, a + b) + Want(db, l)
  {
    TotalWantAppend(db, a + [l], b);
    TotalWantAppend(db, a, [l]);
    TotalWantAppend(db, a, b);
    assert [l][1..] == [];
  }

  /** A new open line of the part stands in the queue behind all others of its urgency. */
  lemma QueueOfMore(db: Db, b: Db, p: Id, line: Line)
    requires b.lines == db.lines + [line] && b.emergency == db.emergency && line.part == p && line.Open()
    ensures var n := |db.lines|; var urgent := OpenIds(db, p, true, n); var other := OpenIds(db, p, false, n);
      Queue(b, p) == urgent + [n] + other || Queue(b, p) == urgent + other + [n] + []
  {
    var n := |db.lines|;
    OpenIdsOfPrefix(db, b, p, true, n);
    OpenIdsOfPrefix(db, b, p, false, n);
    var urgent, other := OpenIds(db, p, true, n), OpenIds(db, p, false, n);
    if line.wo in db.emergency {
      assert OpenIds(b, p, false, n + 1) == other + [];
    } else {
      assert OpenIds(b, p, true, n + 1) == urgent + [];
      assert urgent + (other + [n]) == urgent + other + [n] + [];
    }
  }

  /** One more open line of the part adds what it wants to what the queue wants. */
  lemma QueueWantsMore(db: Db, b: Db, p: Id, line: Line)
    requires b.lines == db.lines + [line] && b.rows == db.rows && b.emergency == db.emergency
    requires line.part == p && line.Open()
    ensures TotalWant(b, Queue(b, p)) == TotalWant(db, Queue(db, p)) + Want(b, |db.lines|)
  {
    var n, q := |db.lines|, Queue(db, p);
    var urgent, other := OpenIds(db, p, true, n), OpenIds(db, p, false, n);
    QueueOfMore(db, b, p, line);
    TotalWantInsert(b, urgent, n, other);
    TotalWantInsert(b, q, n, []);
    assert q + [] == q;
    QueueIsPriorityOrder(db, p);
    WantsSame(db, b, q);
  }

  lemma WantsSame(db: Db, b: Db, ids: seq<Id>)
    requires db.lines <= b.lines && b.rows == db.rows
    requires forall l :: l in ids ==> l < |db.lines|
    ensures TotalWant(b, ids) == TotalWant(db, ids)
  {
    if ids != [] {
      assert ids[0] in ids;
      assert forall l :: l in ids[1..] ==> l in ids;
      WantsSame(db, b, ids[1..]);
    }
  }

  /** A direct issue hands out its quantity and leaves a line that wants the same again, so the
      next reallocation reserves it a second time from what is left. */
  lemma DirectIssueWantsAgain(db: Db, wo: Id, closed: bool, p: Id, qty: int)
    requires TableOk(db) && DirectIssue(db, wo, closed, p, qty).Some?
    ensures var b := Step(db, OpDirectIssue(wo, closed, p, qty)); var n := |db.lines|;
      var give := Min(qty, Free(db, p));
      && TableOk(b) && |b.lines| == n + 1
      && b.lines[n].issued == give && Want(b, n) == give && Available(b, p) == Available(db, p) - give
      && Available(b, p) - Available(Reallocate(b, p), p)
         == Min(Available(db, p) - give, TotalWant(db, Queue(db, p)) + give)
  {
    var b := Step(db, OpDirectIssue(wo, closed, p, qty));
    DirectIssueLeaves(db, wo, closed, p, qty);
    QueueWantsMore(db, b, p, b.lines[|db.lines|]);
    ReallocationIsGreedy(b, p);
  }

  lemma DirectIssueLeaves(db: Db, wo: Id, closed: bool, p: Id, qty: int)
    requires TableOk(db) && DirectIssue(db, wo, closed, p, qty).Some?
    ensures var b := Step(db, OpDirectIssue(wo, closed, p, qty)); var n := |db.lines|;
      var give := Min(qty, Free(db, p));
      && TableOk(b) && b.rows == db.rows && b.emergency == db.emergency
      && b.lines == db.lines + [Line(wo, p, give, give, give, 0, give, 0, Approved, None)]
      && Want(b, n) == give && Available(b, p) == Available(db, p) - give
  {
    StepDrain(db, OpDirectIssue(wo, closed, p, qty));
    NoRowsOfNewLine(db);
  }

  lemma NoRowsOfNewLine(db: Db)
    requires TableOk(db)
    ensures !HasActive(db.rows, |db.lines|)
  {
  }
}
