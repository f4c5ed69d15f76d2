/** Due dates of preventive maintenance: monthly and yearly steps clamp the day to the month. */
module DueDates {
  import opened Basics

  datatype Date = Date(year: int, month: int, day: int)

  predicate Leap(year: int) { year % 4 == 0 && (year % 100 != 0 || year % 400 == 0) }

  /** `calendar.monthrange(year, month)[1]`. */
  function MonthLength(year: int, month: int): (n: int)
    ensures 28 <= n <= 31
  {
    if month == 2 then (if Leap(year) then 29 else 28)
    else if month == 4 || month == 6 || month == 9 || month == 11 then 30
    else 31
  }

  predicate Valid(d: Date) { 1 <= d.month <= 12 && 1 <= d.day <= MonthLength(d.year, d.month) }

  function NextMonthly(d: Date, interval: nat): Date {
    var year := d.year + (d.month - 1 + interval) / 12;
    var month := (d.month - 1 + interval) % 12 + 1;
    Date(year, month, Min(d.day, MonthLength(year, month)))
  }

  function NextYearly(d: Date, interval: nat): Date {
    var year := d.year + interval;
    Date(year, d.month, Min(d.day, MonthLength(year, d.month)))
  }

  /** Leap days up to the end of a year. */
  function LeapDays(year: int): int { year / 4 - year / 100 + year / 400 }

  lemma QuotientStep(y: int, d: int)
    requires d > 0
    ensures y / d - (y - 1) / d == if y % d == 0 then 1 else 0
  {
    var q, r := y / d, y % d;
    assert y == d * q + r;
    if r == 0 {
      assert y - 1 == d * (q - 1) + (d - 1);
      QuotientIs(y - 1, d, q - 1, d - 1);
    } else {
      QuotientIs(y - 1, d, q, r - 1);
    }
  }

  lemma QuotientIs(y: int, d: int, q: int, r: int)
    requires 0 <= r < d && y == d * q + r
    ensures y / d == q
  {
    var p := y / d;
    assert y == d * p + y % d;
    assert d * (p - q) == r - y % d;
    assert p - q >= 1 ==> d * (p - q) >= d;
    assert p - q <= -1 ==> d * (p - q) <= -d;
  }

  lemma LeapIs(year: int)
    ensures LeapDays(year) - LeapDays(year - 1) == if Leap(year) then 1 else 0
  {
    QuotientStep(year, 4);
    QuotientStep(year, 100);
    QuotientStep(year, 400);
    assert year % 400 == 0 ==> year % 100 == 0;
    assert year % 100 == 0 ==> year % 4 == 0;
  }

  /** The calendar: month lengths, with a leap day wherever the count of fourth years, less hundredth,
      plus four-hundredth, goes up. */
  lemma CalendarIs(year: int, month: int)
    requires 1 <= month <= 12
    ensures var february := 28 + LeapDays(year) - LeapDays(year - 1);
      MonthLength(year, month) == [31, february, 31, 30, 31, 30, 31, 31, 30, 31, 30, 31][month - 1]
  {
    LeapIs(year);
  }

  /** `k` approvals in a row, each moving the due date from the previous one. */
  function Iterate(d: Date, interval: nat, k: nat): Date {
    if k == 0 then d else NextMonthly(Iterate(d, interval, k - 1), interval)
  }

  predicate Before(a: Date, b: Date) {
    a.year < b.year || (a.year == b.year && (a.month < b.month || (a.month == b.month && a.day < b.day)))
  }

  /** Months counted through: January of year 0 is 0. */
  function MonthIndex(d: Date): int { 12 * d.year + d.month - 1 }

  function LengthAt(index: int): (n: int)
    ensures 28 <= n <= 31
  {
    MonthLength(index / 12, index % 12 + 1)
  }

  /** Length of the month that step `j` lands in. */
  function Visited(d: Date, interval: nat, j: int): (n: int)
    ensures 28 <= n <= 31
  {
    LengthAt(MonthIndex(d) + j * interval)
  }

  /** The start day and the length of each of the first `k` months visited, whichever is least. */
  function LeastDay(d: Date, interval: nat, k: nat): int {
    if k == 0 then d.day else Min(LeastDay(d, interval, k - 1), Visited(d, interval, k))
  }

  lemma MonthlyMovesIndex(d: Date, interval: nat)
    requires Valid(d)
    ensures Valid(NextMonthly(d, interval))
    ensures MonthIndex(NextMonthly(d, interval)) == MonthIndex(d) + interval
    ensures NextMonthly(d, interval).day == Min(d.day, LengthAt(MonthIndex(d) + interval))
  {
    var s := d.month - 1 + interval;
    assert (12 * d.year + s) / 12 == d.year + s / 12;
    assert (12 * d.year + s) % 12 == s % 12;
  }

  /** `k` steps of `interval` months land in the month `k * interval` months on, on the least of
      the start day and the lengths of all months visited. */
  lemma {:induction false} IteratedMonthly(d: Date, interval: nat, k: nat)
    requires Valid(d)
    ensures var e := Iterate(d, interval, k);
      && Valid(e)
      && MonthIndex(e) == MonthIndex(d) + k * interval
      && e.day == LeastDay(d, interval, k)
  {
    if k > 0 {
      IteratedMonthly(d, interval, k - 1);
      MonthlyMovesIndex(Iterate(d, interval, k - 1), interval);
      assert (k - 1) * interval + interval == k * interval;
    }
  }

  lemma SameIndexSameMonth(a: Date, b: Date)
    requires Valid(a) && Valid(b) && MonthIndex(a) == MonthIndex(b)
    ensures a.year == b.year && a.month == b.month
  {
  }

  lemma {:induction false} LeastDayBounds(d: Date, interval: nat, k: nat)
    ensures Min(d.day, 28) <= LeastDay(d, interval, k) <= d.day
  {
    if k > 0 {
      LeastDayBounds(d, interval, k - 1);
    }
  }

  lemma OneStep(d: Date, interval: nat, k: nat)
    requires Valid(d)
    ensures var once := NextMonthly(d, k * interval);
      && Valid(once) && MonthIndex(once) == MonthIndex(d) + k * interval
      && once.day == Min(d.day, Visited(d, interval, k))
  {
    MonthlyMovesIndex(d, k * interval);
  }

  /** Against one step of `k * interval` months: same year and month, a day no later, and never
      earlier than the start day or the 28th. */
  lemma IteratedAgainstOneStep(d: Date, interval: nat, k: nat)
    requires Valid(d) && k > 0
    ensures var many, once := Iterate(d, interval, k), NextMonthly(d, k * interval);
      && many.year == once.year && many.month == once.month
      && Min(d.day, 28) <= many.day <= once.day
  {
    var many, once := Iterate(d, interval, k), NextMonthly(d, k * interval);
    OneStep(d, interval, k);
    IteratedMonthly(d, interval, k);
    SameIndexSameMonth(many, once);
    LeastDayBounds(d, interval, k);
    LeastDayBounds(d, interval, k - 1);
  }

  /** A month too short for the day that one step would give is visited on the way. */
  predicate Shortened(d: Date, interval: nat, k: nat, goal: int) {
    exists j :: 1 <= j < k && Visited(d, interval, j) < goal
  }

  lemma {:induction false} LeastDayIs(d: Date, interval: nat, k: nat, goal: int)
    requires goal <= d.day
    ensures LeastDay(d, interval, k) >= goal <==> forall j :: 1 <= j <= k ==> Visited(d, interval, j) >= goal
  {
    if k > 0 {
      LeastDayIs(d, interval, k - 1, goal);
    }
  }

  /** The iterated date is the one-step date exactly when no month on the way is too short;
      otherwise the day drifts down for good. */
  lemma DriftExactly(d: Date, interval: nat, k: nat)
    requires Valid(d) && k > 0
    ensures var once := NextMonthly(d, k * interval);
      Iterate(d, interval, k) == once <==> !Shortened(d, interval, k, once.day)
  {
    OneStep(d, interval, k);
    IteratedMonthly(d, interval, k);
    Drift(d, interval, k, Iterate(d, interval, k), NextMonthly(d, k * interval));
  }

  lemma Drift(d: Date, interval: nat, k: nat, many: Date, once: Date)
    requires k > 0 && Valid(many) && Valid(once) && MonthIndex(many) == MonthIndex(once)
    requires many.day == LeastDay(d, interval, k) && once.day == Min(d.day, Visited(d, interval, k))
    ensures many == once <==> !Shortened(d, interval, k, once.day)
  {
    SameIndexSameMonth(many, once);
    LeastDayBounds(d, interval, k - 1);
    LeastDayIs(d, interval, k - 1, once.day);
  }

  /** The due date strictly advances with each approval, and its day never grows back. */
  lemma DueDateAdvances(d: Date, interval: nat, j: nat, k: nat)
    requires Valid(d) && interval >= 1 && j < k
    ensures Before(Iterate(d, interval, j), Iterate(d, interval, k))
    ensures Iterate(d, interval, k).day <= Iterate(d, interval, j).day
  {
    var a, b := Iterate(d, interval, j), Iterate(d, interval, k);
    IteratedMonthly(d, interval, j);
    IteratedMonthly(d, interval, k);
    assert k * interval - j * interval == (k - j) * interval;
    assert (k - j) * interval >= 1;
    assert MonthIndex(a) < MonthIndex(b);
    LeastDayFalls(d, interval, j, k);
  }

  lemma {:induction false} LeastDayFalls(d: Date, interval: nat, j: nat, k: nat)
    requires j <= k
    ensures LeastDay(d, interval, k) <= LeastDay(d, interval, j)
  {
    if j < k {
      LeastDayFalls(d, interval, j, k - 1);
    }
  }

  /** A yearly step of `n` is a monthly step of `12 * n`. */
  lemma YearlyIsTwelveMonthly(d: Date, n: nat)
    requires Valid(d)
    ensures NextYearly(d, n) == NextMonthly(d, 12 * n)
  {
    assert (d.month - 1 + 12 * n) / 12 == n;
    assert (d.month - 1 + 12 * n) % 12 == d.month - 1;
  }
}
