/** The weekend closure and the number of market slots in a window. Instants are microseconds since 1970-01-01 UTC. */
module CandleCalendar {
  import opened CandleGaps

  const SECOND := 1_000_000
  const MINUTE := 60_000_000
  const HOUR := 3_600_000_000
  const DAY := 86_400_000_000
  const WEEK := 604_800_000_000

  /** Monday is 0; 1970-01-01 was a Thursday. */
  function Weekday(t: int): int {
    (t / DAY + 3) % 7
  }

  function HourOfDay(t: int): int {
    t / HOUR % 24
  }

  predicate InsideWeekendClosure(t: int) {
    || Weekday(t) == 5
    || (Weekday(t) == 4 && HourOfDay(t) >= 22)
    || (Weekday(t) == 6 && HourOfDay(t) < 21)
  }

  function CountOpen(ts: seq<int>): nat {
    if ts == [] then 0 else (if InsideWeekendClosure(ts[0]) then 0 else 1) + CountOpen(ts[1..])
  }

  method ExpectedMarketCount(start: int, end: int, interval: int) returns (count: nat)
    requires interval > 0
    ensures count == CountOpen(Grid(start, end, interval))
  {
    count := 0;
    var current := start;
    while current < end
      invariant count + CountOpen(Grid(current, end, interval)) == CountOpen(Grid(start, end, interval))
      decreases end - current
    {
      if !InsideWeekendClosure(current) {
        count := count + 1;
      }
      current := current + interval;
    }
  }

  // ---------------------------------------------------------------- the closure hour by hour

  /** Whole hours since the epoch; the closure lasts from hour 46 (Friday 22:00) to hour 93 (Sunday 21:00). */
  predicate ClosedHour(h: int) {
    46 <= h % 168 < 93
  }

  lemma ClosureByHour(t: int)
    ensures InsideWeekendClosure(t) <==> ClosedHour(t / HOUR)
  {
    var h := t / HOUR;
    var w, day, hour := h / 168, h % 168 / 24, h % 168 % 24;
    assert h == 168 * w + 24 * day + hour && 0 <= day < 7 && 0 <= hour < 24;
    ModUnique(h, 24, 7 * w + day, hour);
    assert t == DAY * (7 * w + day) + (HOUR * hour + t % HOUR);
    ModUnique(t, DAY, 7 * w + day, HOUR * hour + t % HOUR);
    var shifted := day + 3;
    ModUnique(7 * w + shifted, 7, w + shifted / 7, shifted % 7);
  }

  lemma ClosureRepeatsWeekly(t: int)
    ensures InsideWeekendClosure(t + WEEK) <==> InsideWeekendClosure(t)
  {
    ClosureByHour(t);
    ClosureByHour(t + WEEK);
    ModUnique(t + WEEK, HOUR, t / HOUR + 168, t % HOUR);
    ModStep(t / HOUR, 168);
  }

  // ---------------------------------------------------------------- counting

  lemma {:induction false} CountOpenConcat(a: seq<int>, b: seq<int>)
    ensures CountOpen(a + b) == CountOpen(a) + CountOpen(b)
  {
    if a == [] {
      assert a + b == b;
    } else {
      assert (a + b)[1..] == a[1..] + b;
      CountOpenConcat(a[1..], b);
    }
  }

  lemma {:induction false} CountOpenUniform(ts: seq<int>, closed: bool)
    requires forall t :: t in ts ==> (InsideWeekendClosure(t) <==> closed)
    ensures CountOpen(ts) == if closed then 0 else |ts|
  {
    if ts != [] {
      assert ts[0] in ts;
      CountOpenUniform(ts[1..], closed);
    }
  }

  lemma {:induction false} GridSplit(from: int, n: nat, to: int, interval: int)
    requires interval > 0 && from + interval * n <= to
    ensures Grid(from, to, interval)
            == Grid(from, from + interval * n, interval) + Grid(from + interval * n, to, interval)
    decreases n
  {
    if n > 0 {
      MulAtLeast(interval, n);
      assert from + interval * n == (from + interval) + interval * (n - 1);
      GridSplit(from + interval, n - 1, to, interval);
    }
  }

  // ---------------------------------------------------------------- one week from any start

  function WeekCount(start: int, interval: int): nat
    requires interval > 0
  {
    CountOpen(Grid(start, start + WEEK, interval))
  }

  lemma DividesWeek(interval: int, m: int)
    requires interval > 0 && interval * m == HOUR
    ensures m > 0 && interval * (168 * m) == WEEK && interval <= HOUR
  {
    assert m <= 0 ==> interval * m <= 0;
    assert interval * (168 * m) == 168 * (interval * m);
    MulAtLeast(interval, m);
  }

  lemma MulAssociative(a: int, b: int, c: int)
    ensures a * (b * c) == (a * b) * c
  {
  }

  lemma MulNext(a: int, m: int)
    ensures (a + 1) * m == a * m + m
  {
  }

  /** Moving a week on by one slot drops a slot and adds the one a week later. */
  lemma WeekShift(start: int, interval: int, m: int)
    requires interval > 0 && interval * m == HOUR
    ensures WeekCount(start + interval, interval) == WeekCount(start, interval)
  {
    DividesWeek(interval, m);
    var n := 168 * m;
    var next := start + interval;
    assert next + interval * (n - 1) == start + WEEK;
    GridSplit(next, n - 1, next + WEEK, interval);
    var middle := Grid(next, start + WEEK, interval);
    assert Grid(start + WEEK + interval, next + WEEK, interval) == [];
    assert Grid(start + WEEK, next + WEEK, interval) == [start + WEEK];
    assert Grid(next, next + WEEK, interval) == middle + [start + WEEK];
    assert Grid(start, start + WEEK, interval) == [start] + middle;
    CountOpenConcat(middle, [start + WEEK]);
    ClosureRepeatsWeekly(start);
  }

  lemma {:induction false} WeekShifts(start: int, j: nat, interval: int, m: int)
    requires interval > 0 && interval * m == HOUR
    ensures WeekCount(start + interval * j, interval) == WeekCount(start, interval)
    decreases j
  {
    if j > 0 {
      WeekShifts(start, j - 1, interval, m);
      WeekShift(start + interval * (j - 1), interval, m);
      assert start + interval * j == start + interval * (j - 1) + interval;
    }
  }

  /** From a start within the first slot, hour h holds m slots, all open or all closed. */
  lemma HourBlock(r: int, h: nat, interval: int, m: int)
    requires interval > 0 && interval * m == HOUR && 0 <= r < interval
    ensures CountOpen(Grid(r + HOUR * h, r + HOUR * (h + 1), interval)) == if ClosedHour(h) then 0 else m
  {
    DividesWeek(interval, m);
    var from := r + HOUR * h;
    var block := Grid(from, from + HOUR, interval);
    GridEntries(from, interval, m);
    forall t | t in block
      ensures InsideWeekendClosure(t) <==> ClosedHour(h)
    {
      GridContains(from, from + HOUR, interval, t);
      var q := (t - from) / interval;
      assert t - from == interval * q;
      if q >= m {
        assert interval * (q - m) == interval * q - interval * m;
        if q > m {
          MulAtLeast(interval, q - m);
        }
      }
      assert q <= m - 1;
      assert m - 1 == q || interval * (m - 1 - q) >= interval by {
        if q < m - 1 {
          MulAtLeast(interval, m - 1 - q);
        }
      }
      assert interval * (m - 1 - q) == interval * m - interval - interval * q;
      assert r + interval * q < HOUR;
      ModUnique(t, HOUR, h, r + interval * q);
      ClosureByHour(t);
    }
    CountOpenUniform(block, ClosedHour(h));
    assert r + HOUR * (h + 1) == from + HOUR;
  }

  function OpenHours(h: int): int {
    if h <= 46 then h else if h <= 93 then 46 else h - 47
  }

  lemma OneMoreHour(h: nat, m: int)
    requires h < 168
    ensures OpenHours(h + 1) * m == OpenHours(h) * m + if ClosedHour(h) then 0 else m
  {
    assert OpenHours(h + 1) == OpenHours(h) + if ClosedHour(h) then 0 else 1;
    MulNext(OpenHours(h), m);
  }

  lemma {:induction false} FirstHours(r: int, h: nat, interval: int, m: int)
    requires interval > 0 && interval * m == HOUR && 0 <= r < interval && h <= 168
    ensures CountOpen(Grid(r, r + HOUR * h, interval)) == OpenHours(h) * m
    decreases h
  {
    if h > 0 {
      FirstHours(r, h - 1, interval, m);
      HourBlock(r, h - 1, interval, m);
      HourSplit(r, h - 1, interval, m);
      OneMoreHour(h - 1, m);
    }
  }

  lemma HourSplit(r: int, h: nat, interval: int, m: int)
    requires interval > 0 && interval * m == HOUR
    ensures CountOpen(Grid(r, r + HOUR * (h + 1), interval))
            == CountOpen(Grid(r, r + HOUR * h, interval)) + CountOpen(Grid(r + HOUR * h, r + HOUR * (h + 1), interval))
  {
    DividesWeek(interval, m);
    MulAssociative(interval, m, h);
    GridSplit(r, m * h, r + HOUR * (h + 1), interval);
    CountOpenConcat(Grid(r, r + HOUR * h, interval), Grid(r + HOUR * h, r + HOUR * (h + 1), interval));
  }

  lemma Residue(start: int, interval: int)
    requires interval > 0
    ensures start == start % interval + interval * (start / interval)
    ensures start + interval * -(start / interval) == start % interval
  {
    assert interval * -(start / interval) == -(interval * (start / interval));
  }

  /** Some whole number of slots separates any start from a start within the first slot. */
  lemma SameWeekCount(start: int, interval: int, m: int)
    requires interval > 0 && interval * m == HOUR
    ensures WeekCount(start, interval) == WeekCount(start % interval, interval)
  {
    Residue(start, interval);
    var q := start / interval;
    if q >= 0 {
      WeekShifts(start % interval, q, interval, m);
    } else {
      WeekShifts(start, -q, interval, m);
    }
  }

  lemma AnyWeek(start: int, interval: int, m: int)
    requires interval > 0 && interval * m == HOUR
    ensures WeekCount(start, interval) == 121 * m
  {
    SameWeekCount(start, interval, m);
    FirstHours(start % interval, 168, interval, m);
  }

  lemma WeekSplit(start: int, k: nat, interval: int, m: int)
    requires interval > 0 && interval * m == HOUR
    ensures CountOpen(Grid(start, start + WEEK * (k + 1), interval))
            == WeekCount(start, interval) + CountOpen(Grid(start + WEEK, start + WEEK * (k + 1), interval))
  {
    DividesWeek(interval, m);
    GridSplit(start, 168 * m, start + WEEK * (k + 1), interval);
    CountOpenConcat(Grid(start, start + WEEK, interval), Grid(start + WEEK, start + WEEK * (k + 1), interval));
  }

  /** Whole weeks from any start hold 121 hours of market slots each, for every interval that divides the hour. */
  lemma {:induction false} WholeWeeks(start: int, k: nat, interval: int, m: int)
    requires interval > 0 && interval * m == HOUR
    ensures CountOpen(Grid(start, start + WEEK * k, interval)) == k * (121 * m)
    decreases k
  {
    if k > 0 {
      AnyWeek(start, interval, m);
      WeekSplit(start, k - 1, interval, m);
      WholeWeeks(start + WEEK, k - 1, interval, m);
      assert start + WEEK + WEEK * (k - 1) == start + WEEK * k;
      MulNext(k - 1, 121 * m);
    }
  }
}
