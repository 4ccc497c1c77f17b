/** Which slots of a requested window a candle series lacks. Instants are microseconds since 1970-01-01 UTC. */
module CandleGaps {
  /** A raw gap: the last slot before it and the first slot after it. */
  datatype Gap = Gap(after: int, before: int)

  ghost predicate Increasing(s: seq<int>) {
    forall i, j :: 0 <= i < j < |s| ==> s[i] < s[j]
  }

  // ---------------------------------------------------------------- modular steps

  lemma ModStep(a: int, d: int)
    requires d > 0
    ensures (a - d) % d == a % d && (a + d) % d == a % d
  {
    ModUnique(a - d, d, a / d - 1, a % d);
    ModUnique(a + d, d, a / d + 1, a % d);
  }

  lemma MulAtLeast(d: int, k: int)
    requires d > 0 && k >= 1
    ensures d * k >= d
  {
  }

  lemma ModUnique(a: int, d: int, q: int, r: int)
    requires d > 0 && a == d * q + r && 0 <= r < d
    ensures a % d == r && a / d == q
  {
    var p, m := a / d, a % d;
    assert a == d * p + m && 0 <= m < d;
    if p > q {
      assert d * (p - q) == d * p - d * q;
      MulAtLeast(d, p - q);
    } else if p < q {
      assert d * (q - p) == d * q - d * p;
      MulAtLeast(d, q - p);
    }
  }

  lemma ModBetween(t: int, x: int, prev: int, d: int)
    requires d > 0 && (x - prev) % d == 0
    ensures (t - x) % d == (t - prev) % d
  {
    var q := (x - prev) / d;
    assert x - prev == d * q;
    ModUnique(t - x, d, (t - prev) / d - q, (t - prev) % d);
  }

  lemma ModSmall(a: int, d: int)
    requires 0 <= a < d
    ensures a % d == a
  {
  }

  // ---------------------------------------------------------------- the grid

  /** from, from + interval, ... below to. */
  function Grid(from: int, to: int, interval: int): (g: seq<int>)
    requires interval > 0
    decreases if from < to then to - from else 0
  {
    if from >= to then [] else [from] + Grid(from + interval, to, interval)
  }

  lemma {:induction false} GridContains(from: int, to: int, interval: int, t: int)
    requires interval > 0
    ensures t in Grid(from, to, interval) <==> from <= t < to && (t - from) % interval == 0
    decreases if from < to then to - from else 0
  {
    if from < to {
      GridContains(from + interval, to, interval, t);
      ModStep(t - from, interval);
      if from < t < from + interval {
        ModSmall(t - from, interval);
      }
      assert Grid(from, to, interval) == [from] + Grid(from + interval, to, interval);
    }
  }

  lemma {:induction false} GridIncreasing(from: int, to: int, interval: int)
    requires interval > 0
    ensures Increasing(Grid(from, to, interval))
    decreases if from < to then to - from else 0
  {
    if from < to {
      GridIncreasing(from + interval, to, interval);
      var rest := Grid(from + interval, to, interval);
      forall j | 0 <= j < |rest|
        ensures from < rest[j]
      {
        GridContains(from + interval, to, interval, rest[j]);
      }
    }
  }

  lemma MulNextStep(d: int, k: int)
    ensures d * (k + 1) == d * k + d
  {
  }

  lemma {:induction false} GridSnoc(from: int, to: int, interval: int, n: nat)
    requires interval > 0 && to == from + interval * n
    ensures |Grid(from, to, interval)| == n
    ensures Grid(from, to + interval, interval) == Grid(from, to, interval) + [to]
    decreases n
  {
    if n > 0 {
      MulNextStep(interval, n - 1);
      MulAtLeast(interval, n);
      GridSnoc(from + interval, to, interval, n - 1);
    }
  }

  lemma GridOfMultiple(from: int, interval: int, n: nat)
    requires interval > 0
    ensures |Grid(from, from + interval * n, interval)| == n
    ensures Grid(from, from + interval * (n + 1), interval)
            == Grid(from, from + interval * n, interval) + [from + interval * n]
  {
    MulNextStep(interval, n);
    GridSnoc(from, from + interval * n, interval, n);
  }

  lemma {:induction false} GridEntries(from: int, interval: int, n: nat)
    requires interval > 0
    ensures |Grid(from, from + interval * n, interval)| == n
    ensures forall k :: 0 <= k < n ==> Grid(from, from + interval * n, interval)[k] == from + interval * k
  {
    if n > 0 {
      GridEntries(from, interval, n - 1);
      GridOfMultiple(from, interval, n - 1);
    }
  }

  method MissingTimestamps(gap: Gap, interval: int) returns (values: seq<int>)
    requires interval > 0
    ensures values == Grid(gap.after + interval, gap.before, interval)
  {
    values := [];
    var current := gap.after + interval;
    while current < gap.before
      invariant values + Grid(current, gap.before, interval) == Grid(gap.after + interval, gap.before, interval)
      decreases gap.before - current
    {
      values := values + [current];
      current := current + interval;
    }
  }

  // ---------------------------------------------------------------- ordered distinct timestamps

  ghost predicate IsMinimum(s: set<int>, m: int) {
    m in s && forall x :: x in s ==> m <= x
  }

  lemma {:induction false} HasMinimum(s: set<int>)
    requires s != {}
    ensures exists m :: IsMinimum(s, m)
    decreases |s|
  {
    assert (forall x :: x !in s) ==> s == {};
    assert exists x :: x in s;
    var m: int :| m in s;
    var n := m;
    if s - {m} != {} {
      HasMinimum(s - {m});
      var rest :| IsMinimum(s - {m}, rest);
      n := if m < rest then m else rest;
    }
    forall x | x in s
      ensures n <= x
    {
      assert x == m || x in s - {m};
    }
    assert IsMinimum(s, n);
  }

  function Minimum(s: set<int>): (m: int)
    requires s != {}
    ensures m in s && forall x :: x in s ==> m <= x
  {
    HasMinimum(s);
    assert exists m :: m in s && forall x :: x in s ==> m <= x by {
      var m :| IsMinimum(s, m);
    }
    var m :| m in s && forall x :: x in s ==> m <= x;
    m
  }

  function Ordered(s: set<int>): (r: seq<int>)
    ensures Increasing(r) && |r| == |s|
    ensures forall t :: t in r <==> t in s
  {
    if s == {} then [] else [Minimum(s)] + Ordered(s - {Minimum(s)})
  }

  function Distinct(ts: seq<int>): set<int> {
    set t | t in ts
  }

  // ---------------------------------------------------------------- gaps of a window

  function RawGaps(ordered: seq<int>, interval: int): seq<Gap> {
    if |ordered| < 2 then []
    else (if ordered[1] - ordered[0] > interval then [Gap(ordered[0], ordered[1])] else []) + RawGaps(ordered[1..], interval)
  }

  /** Leading, internal and trailing gaps in the requested range. */
  function SeriesGaps(start: int, end: int, ts: seq<int>, interval: int): seq<Gap> {
    OrderedGaps(start, end, Ordered(Distinct(ts)), interval)
  }

  function OrderedGaps(start: int, end: int, ordered: seq<int>, interval: int): seq<Gap> {
    if ordered == [] then [Gap(start - interval, end)]
    else
      (if ordered[0] > start then [Gap(start - interval, ordered[0])] else [])
      + RawGaps(ordered, interval)
      + (if ordered[|ordered| - 1] + interval < end then [Gap(ordered[|ordered| - 1], end)] else [])
  }

  function MissingIn(gaps: seq<Gap>, interval: int): seq<int>
    requires interval > 0
  {
    if gaps == [] then [] else Grid(gaps[0].after + interval, gaps[0].before, interval) + MissingIn(gaps[1..], interval)
  }

  function Missing(start: int, end: int, ts: seq<int>, interval: int): seq<int>
    requires interval > 0
  {
    MissingIn(SeriesGaps(start, end, ts, interval), interval)
  }

  // ---------------------------------------------------------------- present and missing partition the grid

  lemma {:induction false} MissingInConcat(a: seq<Gap>, b: seq<Gap>, interval: int)
    requires interval > 0
    ensures MissingIn(a + b, interval) == MissingIn(a, interval) + MissingIn(b, interval)
  {
    if a == [] {
      assert a + b == b;
    } else {
      assert (a + b)[1..] == a[1..] + b;
      MissingInConcat(a[1..], b, interval);
    }
  }

  /** The same slots, walked from one present slot to the next. */
  function Walk(previous: int, ordered: seq<int>, end: int, interval: int): seq<int>
    requires interval > 0
    decreases |ordered|
  {
    if ordered == [] then Grid(previous + interval, end, interval)
    else Grid(previous + interval, ordered[0], interval) + Walk(ordered[0], ordered[1..], end, interval)
  }

  lemma {:induction false} WalkFollowsGaps(ordered: seq<int>, end: int, interval: int)
    requires interval > 0 && ordered != []
    ensures var last := ordered[|ordered| - 1];
            Walk(ordered[0], ordered[1..], end, interval)
            == MissingIn(RawGaps(ordered, interval) + if last + interval < end then [Gap(last, end)] else [], interval)
  {
    var last := ordered[|ordered| - 1];
    var tail := if last + interval < end then [Gap(last, end)] else [];
    if |ordered| == 1 {
      assert RawGaps(ordered, interval) + tail == tail;
    } else {
      WalkFollowsGaps(ordered[1..], end, interval);
      var first := if ordered[1] - ordered[0] > interval then [Gap(ordered[0], ordered[1])] else [];
      var rest := RawGaps(ordered[1..], interval) + tail;
      assert RawGaps(ordered, interval) + tail == first + rest;
      MissingInConcat(first, rest, interval);
    }
  }

  lemma MissingIsWalk(start: int, end: int, ts: seq<int>, interval: int)
    requires interval > 0
    requires forall t :: t in ts ==> start <= t
    ensures Missing(start, end, ts, interval) == Walk(start - interval, Ordered(Distinct(ts)), end, interval)
  {
    GapsAreWalk(start, end, Ordered(Distinct(ts)), interval);
  }

  lemma GapsAreWalk(start: int, end: int, ordered: seq<int>, interval: int)
    requires interval > 0
    requires forall t :: t in ordered ==> start <= t
    ensures MissingIn(OrderedGaps(start, end, ordered, interval), interval) == Walk(start - interval, ordered, end, interval)
  {
    if ordered == [] {
      OneGap(start - interval, end, interval);
    } else {
      assert ordered[0] in ordered;
      LeadAndRest(start, end, ordered, interval);
      WalkFollowsGaps(ordered, end, interval);
    }
  }

  lemma OneGap(after: int, before: int, interval: int)
    requires interval > 0
    ensures MissingIn([Gap(after, before)], interval) == Grid(after + interval, before, interval)
  {
    assert MissingIn([Gap(after, before)], interval) == Grid(after + interval, before, interval) + [];
  }

  lemma LeadAndRest(start: int, end: int, ordered: seq<int>, interval: int)
    requires interval > 0 && ordered != [] && start <= ordered[0]
    ensures var last := ordered[|ordered| - 1];
            MissingIn(OrderedGaps(start, end, ordered, interval), interval)
            == Grid(start, ordered[0], interval)
               + MissingIn(RawGaps(ordered, interval) + if last + interval < end then [Gap(last, end)] else [], interval)
  {
    var last := ordered[|ordered| - 1];
    var lead := if ordered[0] > start then [Gap(start - interval, ordered[0])] else [];
    var rest := RawGaps(ordered, interval) + if last + interval < end then [Gap(last, end)] else [];
    assert OrderedGaps(start, end, ordered, interval) == lead + rest;
    MissingInConcat(lead, rest, interval);
    if ordered[0] > start {
      OneGap(start - interval, ordered[0], interval);
    }
  }

  ghost predicate OnGrid(ts: seq<int>, start: int, end: int, interval: int)
    requires interval > 0
  {
    forall t :: t in ts ==> start <= t < end && (t - start) % interval == 0
  }

  /** The present slots lie on the grid that continues after previous. */
  ghost predicate Follows(previous: int, ordered: seq<int>, end: int, interval: int)
    requires interval > 0
  {
    && Increasing(ordered)
    && forall x :: x in ordered ==> previous < x < end && (x - previous) % interval == 0
  }

  lemma FollowsOn(previous: int, ordered: seq<int>, end: int, interval: int)
    requires interval > 0 && ordered != [] && Follows(previous, ordered, end, interval)
    ensures previous < ordered[0] < end && (ordered[0] - previous) % interval == 0
    ensures Follows(ordered[0], ordered[1..], end, interval)
  {
    assert ordered[0] in ordered;
    forall y | y in ordered[1..]
      ensures ordered[0] < y < end && (y - ordered[0]) % interval == 0
    {
      assert y in ordered;
      ModBetween(y, ordered[0], previous, interval);
    }
  }

  lemma GridAfterContains(previous: int, to: int, interval: int, t: int)
    requires interval > 0
    ensures t in Grid(previous + interval, to, interval) <==> previous < t < to && (t - previous) % interval == 0
  {
    GridContains(previous + interval, to, interval, t);
    ModStep(t - previous, interval);
    assert t - (previous + interval) == t - previous - interval;
    if previous < t < previous + interval {
      ModSmall(t - previous, interval);
    }
  }

  lemma {:induction false} WalkContains(previous: int, ordered: seq<int>, end: int, interval: int, t: int)
    requires interval > 0 && Follows(previous, ordered, end, interval)
    ensures t in Walk(previous, ordered, end, interval)
            <==> previous < t < end && (t - previous) % interval == 0 && t !in ordered
    decreases |ordered|
  {
    if ordered == [] {
      GridAfterContains(previous, end, interval, t);
    } else {
      var x := ordered[0];
      FollowsOn(previous, ordered, end, interval);
      GridAfterContains(previous, x, interval, t);
      WalkContains(x, ordered[1..], end, interval, t);
      ModBetween(t, x, previous, interval);
      assert t in ordered <==> t == x || t in ordered[1..];
      assert t in ordered[1..] ==> x < t;
    }
  }

  lemma {:induction false} WalkIncreasing(previous: int, ordered: seq<int>, end: int, interval: int)
    requires interval > 0 && Follows(previous, ordered, end, interval)
    ensures Increasing(Walk(previous, ordered, end, interval))
    decreases |ordered|
  {
    if ordered == [] {
      GridIncreasing(previous + interval, end, interval);
    } else {
      var x, rest := ordered[0], ordered[1..];
      FollowsOn(previous, ordered, end, interval);
      GridIncreasing(previous + interval, x, interval);
      WalkIncreasing(x, rest, end, interval);
      var head, tail := Grid(previous + interval, x, interval), Walk(x, rest, end, interval);
      forall i, j | 0 <= i < |head| && 0 <= j < |tail|
        ensures head[i] < tail[j]
      {
        GridAfterContains(previous, x, interval, head[i]);
        WalkContains(x, rest, end, interval, tail[j]);
      }
    }
  }

  lemma WindowFollows(start: int, end: int, ordered: seq<int>, interval: int)
    requires interval > 0 && Increasing(ordered) && OnGrid(ordered, start, end, interval)
    ensures Follows(start - interval, ordered, end, interval)
  {
    forall x | x in ordered
      ensures start - interval < x < end && (x - (start - interval)) % interval == 0
    {
      var offset := x - start;
      ModStep(offset, interval);
      assert x - (start - interval) == offset + interval;
    }
  }

  lemma WindowWalk(start: int, end: int, ordered: seq<int>, interval: int, t: int)
    requires interval > 0 && Increasing(ordered) && OnGrid(ordered, start, end, interval)
    ensures Increasing(Walk(start - interval, ordered, end, interval))
    ensures t in Walk(start - interval, ordered, end, interval) <==> t in Grid(start, end, interval) && t !in ordered
    ensures t in ordered ==> t in Grid(start, end, interval)
  {
    WindowFollows(start, end, ordered, interval);
    WalkIncreasing(start - interval, ordered, end, interval);
    WalkContains(start - interval, ordered, end, interval, t);
    GridAfterContains(start - interval, end, interval, t);
    GridContains(start, end, interval, t);
  }

  /** In an aligned window of grid candles every slot is present or missing, never both, in order, once. */
  lemma PresentAndMissingPartition(start: int, end: int, ts: seq<int>, interval: int, t: int)
    requires interval > 0 && OnGrid(ts, start, end, interval)
    ensures Increasing(Missing(start, end, ts, interval))
    ensures t in Missing(start, end, ts, interval) <==> t in Grid(start, end, interval) && t !in ts
    ensures t in ts ==> t in Grid(start, end, interval)
  {
    MissingIsWalk(start, end, ts, interval);
    WindowWalk(start, end, Ordered(Distinct(ts)), interval, t);
  }

  ghost predicate OnInterval(ts: seq<int>, interval: int)
    requires interval > 0
  {
    forall t :: t in ts ==> t % interval == 0
  }

  lemma AlignedMissing(start: int, end: int, ts: seq<int>, interval: int)
    requires interval > 0 && start % interval == 0 && OnInterval(ts, interval)
    requires forall t :: t in ts ==> start <= t < end
    ensures OnInterval(Missing(start, end, ts, interval), interval)
  {
    forall t
      ensures (t - start) % interval == t % interval
    {
      ModBetween(t, start, 0, interval);
    }
    forall t | t in Missing(start, end, ts, interval)
      ensures t % interval == 0
    {
      PresentAndMissingPartition(start, end, ts, interval, t);
      GridContains(start, end, interval, t);
    }
  }

  lemma MisalignedStart(start: int, end: int, ts: seq<int>, interval: int)
    requires interval > 0 && start % interval != 0 && start < end && OnInterval(ts, interval)
    requires forall t :: t in ts ==> start <= t < end
    ensures start in Missing(start, end, ts, interval)
  {
    MissingIsWalk(start, end, ts, interval);
    var ordered := Ordered(Distinct(ts));
    var limit := if ordered == [] then end else ordered[0];
    assert ordered != [] ==> ordered[0] in ordered && ordered[0] > start;
    assert Grid(start, limit, interval)[0] == start;
    assert Walk(start - interval, ordered, end, interval)[0] == start;
  }

  /**
   The normalizer keeps candles on the interval's own grid. Every slot reported missing is on that
   grid exactly when the window starts on it: a misaligned start is itself reported missing.
   */
  lemma AlignmentDecides(start: int, end: int, ts: seq<int>, interval: int)
    requires interval > 0 && OnInterval(ts, interval)
    requires forall t :: t in ts ==> start <= t < end
    ensures OnInterval(Missing(start, end, ts, interval), interval) <==> start % interval == 0 || start >= end
  {
    if start % interval == 0 {
      AlignedMissing(start, end, ts, interval);
    } else if start < end {
      MisalignedStart(start, end, ts, interval);
    } else {
      MissingIsWalk(start, end, ts, interval);
      var ordered := Ordered(Distinct(ts));
      assert forall t :: t !in ts;
      assert ordered == [];
    }
  }
}
