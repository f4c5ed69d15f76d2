/** The reservation table: sums over it, cancelling a class of rows, and drawing a quantity
    down from a class of rows first-in first-out. */
module Reservations {
  import opened Basics
  import opened Records

  type Table = seq<Reservation>

  // ----- classes of claims -----

  function OfPart(p: Id): Claim -> bool { (c: Claim) => c.part == p }

  function OfLine(l: Id): Claim -> bool { (c: Claim) => c.line == Some(l) }

  function Linked(p: Id, l: Id): Claim -> bool { (c: Claim) => c.part == p && c.line == Some(l) }

  function Legacy(p: Id, w: Id): Claim -> bool { (c: Claim) => c.part == p && c.wo == w && c.line == None }

  function And(c: Claim -> bool, d: Claim -> bool): Claim -> bool { (x: Claim) => c(x) && d(x) }

  ghost predicate Within(c: Claim -> bool, d: Claim -> bool) {
    forall x :: c(x) ==> d(x)
  }

  ghost predicate Apart(c: Claim -> bool, d: Claim -> bool) {
    forall x :: !(c(x) && d(x))
  }

  // ----- sums -----

  /** Weight of a row in the sum of ACTIVE quantities of a class. */
  function Live(c: Claim -> bool): Reservation -> int {
    (r: Reservation) => if r.status == Active && c(r.claim) then r.qty else 0
  }

  /** Weight of a row in the sum of all quantities of a class, whatever the status. */
  function Ever(c: Claim -> bool): Reservation -> int {
    (r: Reservation) => if c(r.claim) then r.qty else 0
  }

  function Sum(rows: Table, w: Reservation -> int): int {
    if rows == [] then 0 else Sum(rows[..|rows| - 1], w) + w(rows[|rows| - 1])
  }

  function Held(rows: Table, c: Claim -> bool): int { Sum(rows, Live(c)) }

  predicate Positive(rows: Table) {
    forall i :: 0 <= i < |rows| ==> rows[i].qty > 0
  }

  lemma {:induction false} SumAppend(a: Table, b: Table, w: Reservation -> int)
    ensures Sum(a + b, w) == Sum(a, w) + Sum(b, w)
  {
    if b == [] {
      assert a + b == a;
    } else {
      SumAppend(a, b[..|b| - 1], w);
      assert (a + b)[..|a + b| - 1] == a + b[..|b| - 1];
    }
  }

  lemma SumPush(a: Table, r: Reservation, w: Reservation -> int)
    ensures Sum(a + [r], w) == Sum(a, w) + w(r)
  {
    assert (a + [r])[..|a|] == a;
  }

  lemma SumTake(a: Table, i: nat, w: Reservation -> int)
    requires i < |a|
    ensures Sum(a[..i + 1], w) == Sum(a[..i], w) + w(a[i])
  {
    assert a[..i + 1][..i] == a[..i];
  }

  lemma {:induction false} HeldNonNegative(rows: Table, c: Claim -> bool)
    requires Positive(rows)
    ensures Held(rows, c) >= 0
  {
    if rows != [] {
      HeldNonNegative(rows[..|rows| - 1], c);
    }
  }

  /** A class holds at least what any one of its ACTIVE rows holds. */
  lemma {:induction false} HeldAtLeast(rows: Table, c: Claim -> bool, i: nat)
    requires Positive(rows) && i < |rows| && rows[i].status == Active && c(rows[i].claim)
    ensures Held(rows, c) >= rows[i].qty
  {
    if i == |rows| - 1 {
      HeldNonNegative(rows[..i], c);
    } else {
      HeldAtLeast(rows[..|rows| - 1], c, i);
    }
  }

  lemma {:induction false} HeldNothing(rows: Table, c: Claim -> bool)
    requires forall i :: 0 <= i < |rows| && rows[i].status == Active ==> !c(rows[i].claim)
    ensures Held(rows, c) == 0
  {
    if rows != [] {
      HeldNothing(rows[..|rows| - 1], c);
    }
  }

  /** Two classes that agree on the claims present hold the same. */
  lemma {:induction false} HeldAgree(rows: Table, c: Claim -> bool, d: Claim -> bool)
    requires forall i :: 0 <= i < |rows| ==> c(rows[i].claim) == d(rows[i].claim)
    ensures Held(rows, c) == Held(rows, d)
  {
    if rows != [] {
      HeldAgree(rows[..|rows| - 1], c, d);
    }
  }

  // ----- ending every ACTIVE row of a class -----

  function End(r: Reservation, c: Claim -> bool, status: ReservationStatus): Reservation {
    if r.status == Active && c(r.claim) then r.(status := status) else r
  }

  function EndAll(rows: Table, c: Claim -> bool, status: ReservationStatus): (out: Table)
    ensures |out| == |rows|
    ensures forall i :: 0 <= i < |rows| ==> out[i] == End(rows[i], c, status)
  {
    seq(|rows|, i requires 0 <= i < |rows| => End(rows[i], c, status))
  }

  /** Ending a class takes from any class exactly what the two have in common, and no quantity
      is lost from the table. */
  lemma {:induction false} EndAllSums(rows: Table, c: Claim -> bool, status: ReservationStatus, d: Claim -> bool)
    requires status != Active
    ensures Held(EndAll(rows, c, status), d) == Held(rows, d) - Held(rows, And(c, d))
    ensures Sum(EndAll(rows, c, status), Ever(d)) == Sum(rows, Ever(d))
  {
    if rows != [] {
      var n := |rows| - 1;
      EndAllSums(rows[..n], c, status, d);
      assert EndAll(rows, c, status)[..n] == EndAll(rows[..n], c, status);
    }
  }

  // ----- first-in first-out drawdown -----

  /** What a drawdown of `qty` takes from row `i`: what is left of `qty` after the ACTIVE rows
      of the class that come before, capped by the row. */
  function Taken(rows: Table, c: Claim -> bool, qty: int, i: nat): int
    requires i < |rows|
  {
    if rows[i].status == Active && c(rows[i].claim)
    then Max(0, Min(rows[i].qty, qty - Held(rows[..i], c)))
    else 0
  }

  function AfterTake(r: Reservation, take: int): Reservation {
    if take == 0 then r
    else if take == r.qty then r.(status := Released)
    else r.(qty := r.qty - take)
  }

  /** The RELEASED siblings created for the first `n` rows: one for each row taken in part. */
  function Splits(rows: Table, c: Claim -> bool, qty: int, n: nat): Table
    requires n <= |rows|
  {
    if n == 0 then [] else
    var t := Taken(rows, c, qty, n - 1);
    Splits(rows, c, qty, n - 1) +
    if 0 < t < rows[n - 1].qty then [Reservation(rows[n - 1].claim, t, Released)] else []
  }

  function Shrunk(rows: Table, c: Claim -> bool, qty: int): (out: Table)
    ensures |out| == |rows|
    ensures forall i :: 0 <= i < |rows| ==> out[i] == AfterTake(rows[i], Taken(rows, c, qty, i))
  {
    seq(|rows|, i requires 0 <= i < |rows| => AfterTake(rows[i], Taken(rows, c, qty, i)))
  }

  /** The table after drawing `qty` from the ACTIVE rows of a class in creation order. */
  function Drawn(rows: Table, c: Claim -> bool, qty: int): Table {
    Shrunk(rows, c, qty) + Splits(rows, c, qty, |rows|)
  }

  /** Draws from one class and, for what it cannot cover, from a second one. */
  function DrawBoth(rows: Table, c: Claim -> bool, d: Claim -> bool, qty: int): Table {
    var rest := qty - Min(qty, Held(rows, c));
    if rest > 0 then Drawn(Drawn(rows, c, qty), d, rest) else Drawn(rows, c, qty)
  }

  lemma TakenTake(rows: Table, c: Claim -> bool, qty: int, n: nat, i: nat)
    requires i < n <= |rows|
    ensures Taken(rows[..n], c, qty, i) == Taken(rows, c, qty, i)
  {
    assert rows[..n][..i] == rows[..i];
  }

  lemma {:induction false} SplitsTake(rows: Table, c: Claim -> bool, qty: int, n: nat, k: nat)
    requires k <= n <= |rows|
    ensures Splits(rows[..n], c, qty, k) == Splits(rows, c, qty, k)
  {
    if k > 0 {
      SplitsTake(rows, c, qty, n, k - 1);
      TakenTake(rows, c, qty, n, k - 1);
    }
  }

  /** One row further: how the drawn table of a prefix grows. */
  lemma ShrunkStep(rows: Table, c: Claim -> bool, qty: int, n: nat)
    requires |rows| == n + 1
    ensures Shrunk(rows, c, qty) == Shrunk(rows[..n], c, qty) + [AfterTake(rows[n], Taken(rows, c, qty, n))]
  {
    var longer, shorter := Shrunk(rows, c, qty), Shrunk(rows[..n], c, qty);
    forall i | 0 <= i < n
      ensures longer[i] == shorter[i]
    {
      ShrunkTake(rows, c, qty, n, i);
    }
    SameSeq(longer, shorter + [AfterTake(rows[n], Taken(rows, c, qty, n))]);
  }

  lemma ShrunkTake(rows: Table, c: Claim -> bool, qty: int, n: nat, i: nat)
    requires i < n <= |rows|
    ensures Shrunk(rows, c, qty)[i] == Shrunk(rows[..n], c, qty)[i]
  {
    TakenTake(rows, c, qty, n, i);
  }

  lemma SameSeq(a: Table, b: Table)
    requires |a| == |b| && forall i :: 0 <= i < |a| ==> a[i] == b[i]
    ensures a == b
  {
  }

  /** The same for the siblings, as one step of any sum. */
  lemma SplitsStep(rows: Table, c: Claim -> bool, qty: int, n: nat, w: Reservation -> int)
    requires |rows| == n + 1
    ensures var t := Taken(rows, c, qty, n);
      Sum(Splits(rows, c, qty, n + 1), w) == Sum(Splits(rows[..n], c, qty, n), w)
        + if 0 < t < rows[n].qty then w(Reservation(rows[n].claim, t, Released)) else 0
  {
    SplitsTake(rows, c, qty, n, n);
    var t := Taken(rows, c, qty, n);
    SumPush(Splits(rows, c, qty, n), Reservation(rows[n].claim, t, Released), w);
    assert Splits(rows, c, qty, n) + [] == Splits(rows, c, qty, n);
  }

  /** One row further, for any sum over the drawn table. */
  lemma DrawnStep(rows: Table, c: Claim -> bool, qty: int, n: nat, w: Reservation -> int)
    requires |rows| == n + 1
    ensures var t := Taken(rows, c, qty, n);
      Sum(Drawn(rows, c, qty), w) == Sum(Drawn(rows[..n], c, qty), w) + w(AfterTake(rows[n], t))
        + if 0 < t < rows[n].qty then w(Reservation(rows[n].claim, t, Released)) else 0
  {
    SumAppend(Shrunk(rows, c, qty), Splits(rows, c, qty, n + 1), w);
    SumAppend(Shrunk(rows[..n], c, qty), Splits(rows[..n], c, qty, n), w);
    ShrunkStep(rows, c, qty, n);
    SumPush(Shrunk(rows[..n], c, qty), AfterTake(rows[n], Taken(rows, c, qty, n)), w);
    SplitsStep(rows, c, qty, n, w);
  }

  /** A drawdown takes exactly min(qty, what the class holds) from every class that contains
      the drawn one. */
  lemma {:induction false} DrawnWithin(rows: Table, c: Claim -> bool, qty: int, d: Claim -> bool)
    requires Positive(rows) && qty >= 0 && Within(c, d)
    ensures Held(Drawn(rows, c, qty), d) == Held(rows, d) - Min(qty, Held(rows, c))
  {
    if rows == [] {
      assert Drawn(rows, c, qty) == [];
    } else {
      var n := |rows| - 1;
      DrawnWithin(rows[..n], c, qty, d);
      HeldNonNegative(rows[..n], c);
      DrawnStep(rows, c, qty, n, Live(d));
    }
  }

  /** A drawdown leaves every class apart from the drawn one as it was. */
  lemma {:induction false} DrawnApart(rows: Table, c: Claim -> bool, qty: int, d: Claim -> bool)
    requires Apart(c, d)
    ensures Held(Drawn(rows, c, qty), d) == Held(rows, d)
  {
    if rows == [] {
      assert Drawn(rows, c, qty) == [];
    } else {
      var n := |rows| - 1;
      DrawnApart(rows[..n], c, qty, d);
      DrawnStep(rows, c, qty, n, Live(d));
      assert !(c(rows[n].claim) && d(rows[n].claim));
    }
  }

  /** A drawdown neither creates nor destroys quantity: what a shrunk row loses, its RELEASED
      sibling holds. */
  lemma {:induction false} DrawnConserves(rows: Table, c: Claim -> bool, qty: int, d: Claim -> bool)
    ensures Sum(Drawn(rows, c, qty), Ever(d)) == Sum(rows, Ever(d))
  {
    if rows == [] {
      assert Drawn(rows, c, qty) == [];
    } else {
      var n := |rows| - 1;
      DrawnConserves(rows[..n], c, qty, d);
      DrawnStep(rows, c, qty, n, Ever(d));
    }
  }

  /** First in, first out: if a later row of the class gives anything, every earlier one is
      released whole; so at most one row is taken in part, and at most one sibling appears. */
  lemma {:induction false} DrawnIsFifo(rows: Table, c: Claim -> bool, qty: int)
    requires Positive(rows)
    ensures forall i, j | 0 <= i < j < |rows| && Taken(rows, c, qty, j) > 0 ::
              rows[i].status == Active && c(rows[i].claim) ==> Drawn(rows, c, qty)[i] == rows[i].(status := Released)
    ensures forall i | 0 <= i < |rows| && !(rows[i].status == Active && c(rows[i].claim)) ::
              Drawn(rows, c, qty)[i] == rows[i]
    ensures |rows| <= |Drawn(rows, c, qty)| <= |rows| + 1
  {
    forall i, j | 0 <= i < j < |rows| && rows[i].status == Active && c(rows[i].claim) && Taken(rows, c, qty, j) > 0
      ensures Taken(rows, c, qty, i) == rows[i].qty
    {
      SumTake(rows, i, Live(c));
      HeldPrefix(rows, c, i + 1, j);
    }
    SplitsAtMostOne(rows, c, qty, |rows|);
  }

  /** The rows of a class that a table holds ACTIVE. */
  predicate ActiveIn(rows: Table, c: Claim -> bool, i: nat) {
    i < |rows| && rows[i].status == Active && c(rows[i].claim)
  }

  /** A quantity no smaller than what a class holds releases all its rows whole. */
  lemma DrawnWhole(rows: Table, c: Claim -> bool, qty: int)
    requires Positive(rows) && Held(rows, c) <= qty
    ensures Emptied(rows, Drawn(rows, c, qty), c)
  {
    forall i | 0 <= i < |rows| && ActiveIn(rows, c, i)
      ensures Drawn(rows, c, qty)[i] == rows[i].(status := Released)
    {
      SumTake(rows, i, Live(c));
      HeldPrefix(rows, c, i + 1, |rows|);
      assert rows[..|rows|] == rows;
      assert Drawn(rows, c, qty)[i] == AfterTake(rows[i], Taken(rows, c, qty, i));
    }
  }

  /** Only ACTIVE rows of the class change, and a later one only once the earlier ones are released
      whole; rows may be added. */
  ghost predicate Touches(a: Table, b: Table, c: Claim -> bool) {
    && |a| <= |b|
    && (forall i :: 0 <= i < |a| && !ActiveIn(a, c, i) ==> b[i] == a[i])
    && (forall i, j :: 0 <= i < j < |a| && ActiveIn(a, c, i) && b[j] != a[j] ==> b[i] == a[i].(status := Released))
  }

  /** All ACTIVE rows of the class are released whole. */
  ghost predicate Emptied(a: Table, b: Table, c: Claim -> bool) {
    && |a| <= |b|
    && (forall i :: 0 <= i < |a| && ActiveIn(a, c, i) ==> b[i] == a[i].(status := Released))
  }

  lemma DrawnTouches(rows: Table, c: Claim -> bool, qty: int)
    requires Positive(rows)
    ensures Touches(rows, Drawn(rows, c, qty), c)
  {
    DrawnIsFifo(rows, c, qty);
    forall j | 0 <= j < |rows| && Drawn(rows, c, qty)[j] != rows[j]
      ensures Taken(rows, c, qty, j) > 0
    {
      assert Drawn(rows, c, qty)[j] == AfterTake(rows[j], Taken(rows, c, qty, j));
    }
  }

  lemma {:induction false} HeldPrefix(rows: Table, c: Claim -> bool, i: nat, j: nat)
    requires Positive(rows) && i <= j <= |rows|
    ensures Held(rows[..i], c) <= Held(rows[..j], c)
  {
    if i < j {
      HeldPrefix(rows, c, i, j - 1);
      SumTake(rows, j - 1, Live(c));
    }
  }

  /** Once a row has been split nothing is left to take. */
  lemma {:induction false} SplitsAtMostOne(rows: Table, c: Claim -> bool, qty: int, n: nat)
    requires Positive(rows) && n <= |rows|
    ensures |Splits(rows, c, qty, n)| <= 1
    ensures |Splits(rows, c, qty, n)| == 1 ==> qty <= Held(rows[..n], c)
  {
    if n > 0 {
      SplitsAtMostOne(rows, c, qty, n - 1);
      SumTake(rows, n - 1, Live(c));
    }
  }

  /** A drawdown that wants more than the class holds splits no row. */
  lemma DrawnAllSplitsNothing(rows: Table, c: Claim -> bool, qty: int)
    requires Positive(rows) && Held(rows, c) < qty
    ensures |Drawn(rows, c, qty)| == |rows|
  {
    SplitsAtMostOne(rows, c, qty, |rows|);
    assert rows[..|rows|] == rows;
  }

  /** Once the rows so far cover the quantity, a drawdown is over. */
  lemma {:induction false} DrawdownOver(rows: Table, c: Claim -> bool, qty: int, i: nat, n: nat)
    requires Positive(rows) && i <= n <= |rows| && qty <= Held(rows[..i], c)
    ensures forall k :: i <= k < n ==> Taken(rows, c, qty, k) == 0
    ensures Splits(rows, c, qty, n) == Splits(rows, c, qty, i)
  {
    HeldPrefix(rows, c, i, n);
    if i < n {
      DrawdownOver(rows, c, qty, i, n - 1);
      HeldPrefix(rows, c, i, n - 1);
    }
  }

  /** `rows` is `was` with the drawdown done on the first `i` rows. */
  ghost predicate DrawnTo(rows: Table, was: Table, c: Claim -> bool, qty: int, i: nat) {
    && i <= |was| <= |rows|
    && rows[|was|..] == Splits(was, c, qty, i)
    && (forall k :: 0 <= k < i ==> rows[k] == AfterTake(was[k], Taken(was, c, qty, k)))
    && (forall k :: i <= k < |was| ==> rows[k] == was[k])
  }

  lemma DrawnToSkip(rows: Table, was: Table, c: Claim -> bool, qty: int, i: nat)
    requires DrawnTo(rows, was, c, qty, i) && i < |was| && Taken(was, c, qty, i) == 0
    ensures DrawnTo(rows, was, c, qty, i + 1)
  {
  }

  lemma DrawnToWhole(rows: Table, was: Table, c: Claim -> bool, qty: int, i: nat)
    requires DrawnTo(rows, was, c, qty, i) && i < |was| && 0 < Taken(was, c, qty, i) == was[i].qty
    ensures DrawnTo(rows[i := was[i].(status := Released)], was, c, qty, i + 1)
  {
    assert rows[i := was[i].(status := Released)][|was|..] == rows[|was|..];
  }

  lemma DrawnToSplit(rows: Table, was: Table, c: Claim -> bool, qty: int, i: nat, take: int)
    requires DrawnTo(rows, was, c, qty, i) && i < |was| && 0 < take == Taken(was, c, qty, i) < was[i].qty
    ensures DrawnTo(rows[i := was[i].(qty := was[i].qty - take)] + [Reservation(was[i].claim, take, Released)],
                    was, c, qty, i + 1)
  {
    var split := [Reservation(was[i].claim, take, Released)];
    assert (rows[i := was[i].(qty := was[i].qty - take)] + split)[|was|..] == rows[|was|..] + split;
  }

  lemma DrawnToEnd(rows: Table, was: Table, c: Claim -> bool, qty: int)
    requires DrawnTo(rows, was, c, qty, |was|)
    ensures rows == Drawn(was, c, qty)
  {
    assert rows == rows[..|was|] + rows[|was|..];
    assert rows[..|was|] == Shrunk(was, c, qty);
  }

  // ----- what every update keeps -----

  /** The constraint that a line has at most one ACTIVE reservation. */
  ghost predicate OneActivePerLine(rows: Table) {
    forall i, j | 0 <= i < j < |rows| && rows[i].status == Active && rows[j].status == Active ::
      rows[i].claim.line != None ==> rows[i].claim.line != rows[j].claim.line
  }

  ghost predicate LinksBelow(rows: Table, n: nat) {
    forall i :: 0 <= i < |rows| && rows[i].claim.line != None ==> rows[i].claim.line.value < n
  }

  ghost predicate Sound(rows: Table, n: nat) {
    Positive(rows) && OneActivePerLine(rows) && LinksBelow(rows, n)
  }

  /** What may happen to one row over any number of steps: nothing once it has ended; while
      ACTIVE it may lose part of its quantity and it may end. Its claim never changes. */
  ghost predicate RowFollows(a: Reservation, b: Reservation) {
    && a.claim == b.claim
    && (a == b || (a.status == Active && 0 < b.qty <= a.qty))
  }

  /** `b` is a later state of table `a`: no row disappears and every row follows its history. */
  ghost predicate Follows(a: Table, b: Table) {
    |a| <= |b| && forall i :: 0 <= i < |a| ==> RowFollows(a[i], b[i])
  }

  lemma FollowsTransitive(a: Table, b: Table, c: Table)
    requires Follows(a, b) && Follows(b, c)
    ensures Follows(a, c)
  {
    forall i | 0 <= i < |a| ensures RowFollows(a[i], c[i]) {
      assert RowFollows(a[i], b[i]) && RowFollows(b[i], c[i]);
    }
  }

  lemma EndAllKeeps(rows: Table, c: Claim -> bool, status: ReservationStatus, n: nat)
    requires Sound(rows, n) && status != Active
    ensures Sound(EndAll(rows, c, status), n)
    ensures Follows(rows, EndAll(rows, c, status))
  {
  }

  ghost predicate EndedBelow(r: Reservation, n: nat) {
    r.qty > 0 && r.status == Released && (r.claim.line != None ==> r.claim.line.value < n)
  }

  lemma AfterTakeFollows(r: Reservation, t: int)
    requires r.qty > 0 && 0 <= t <= r.qty && (t > 0 ==> r.status == Active)
    ensures AfterTake(r, t).qty > 0 && RowFollows(r, AfterTake(r, t))
  {
  }

  /** Every sibling of a drawdown is positive, released and of an existing line. */
  lemma {:induction false} SplitsEnded(rows: Table, c: Claim -> bool, qty: int, m: nat, n: nat)
    requires m <= |rows| && LinksBelow(rows, n)
    ensures forall k :: 0 <= k < |Splits(rows, c, qty, m)| ==> EndedBelow(Splits(rows, c, qty, m)[k], n)
  {
    if m > 0 {
      SplitsEnded(rows, c, qty, m - 1, n);
    }
  }

  lemma DrawnRows(rows: Table, c: Claim -> bool, qty: int, n: nat)
    requires Sound(rows, n)
    ensures var out := Drawn(rows, c, qty);
      && |rows| <= |out|
      && (forall i :: 0 <= i < |rows| ==> out[i].qty > 0 && RowFollows(rows[i], out[i]))
      && (forall k :: |rows| <= k < |out| ==> EndedBelow(out[k], n))
  {
    var out, splits := Drawn(rows, c, qty), Splits(rows, c, qty, |rows|);
    SplitsEnded(rows, c, qty, |rows|, n);
    forall i | 0 <= i < |rows|
      ensures out[i].qty > 0 && RowFollows(rows[i], out[i])
    {
      assert out[i] == AfterTake(rows[i], Taken(rows, c, qty, i));
      AfterTakeFollows(rows[i], Taken(rows, c, qty, i));
    }
    forall k | |rows| <= k < |out|
      ensures EndedBelow(out[k], n)
    {
      assert out[k] == splits[k - |rows|];
    }
  }

  lemma DrawnKeeps(rows: Table, c: Claim -> bool, qty: int, n: nat)
    requires Sound(rows, n)
    ensures Sound(Drawn(rows, c, qty), n)
    ensures Follows(rows, Drawn(rows, c, qty))
  {
    DrawnRows(rows, c, qty, n);
    GrownKeeps(rows, Drawn(rows, c, qty), n);
  }

  /** A table whose old rows follow their history and whose new rows have ended stays sound. */
  lemma GrownKeeps(rows: Table, out: Table, n: nat)
    requires Sound(rows, n) && |rows| <= |out|
    requires forall i :: 0 <= i < |rows| ==> out[i].qty > 0 && RowFollows(rows[i], out[i])
    requires forall k :: |rows| <= k < |out| ==> EndedBelow(out[k], n)
    ensures Sound(out, n) && Follows(rows, out)
  {
    forall i | 0 <= i < |out| && out[i].status == Active
      ensures i < |rows| && rows[i].status == Active && rows[i].claim == out[i].claim
    {
      assert i < |rows| ==> RowFollows(rows[i], out[i]);
    }
    forall i | 0 <= i < |out| && out[i].claim.line != None
      ensures out[i].claim.line.value < n
    {
      assert i < |rows| ==> RowFollows(rows[i], out[i]);
    }
  }

  lemma PushKeeps(rows: Table, r: Reservation, n: nat)
    requires Sound(rows, n)
    requires r.qty > 0 && r.status == Active
    requires r.claim.line != None ==> r.claim.line.value < n && Held(rows, OfLine(r.claim.line.value)) == 0
    ensures Sound(rows + [r], n)
    ensures Follows(rows, rows + [r])
  {
    forall i | 0 <= i < |rows| && rows[i].status == Active && rows[i].claim.line != None
      ensures rows[i].claim.line != r.claim.line
    {
      if rows[i].claim.line == r.claim.line {
        HeldAtLeast(rows, OfLine(r.claim.line.value), i);
      }
    }
  }
}
