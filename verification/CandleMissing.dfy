/** Which slots each series lacks, how many series lack them, and what each absence means. */
module CandleMissing {
  import opened Outcomes
  import opened CandleGaps
  import opened CandleGrouping
  import opened CandleCalendar
  import opened CandleNormalization

  const FROZEN_INSTRUMENTS := 3

  datatype Dataset = Dataset(symbol: string, resolution: Resolution, start: int, end: int, candles: seq<Candle>,
                             findings: Findings)

  /** Only the four minute-based resolutions can be qualified. */
  predicate Supported(d: Dataset) {
    Interval(d.resolution).Some? && d.resolution != Second
  }

  lemma SupportedMeans(d: Dataset)
    ensures Supported(d) <==> d.resolution in {Hour, Minute15, Minute5, Minute}
  {
  }

  function Step(d: Dataset): (interval: int)
    requires Supported(d)
    ensures interval > 0
  {
    Interval(d.resolution).value
  }

  function Gaps(d: Dataset): seq<Gap>
    requires Supported(d)
  {
    SeriesGaps(d.start, d.end, Times(d.candles), Step(d))
  }

  function Absent(d: Dataset): seq<int>
    requires Supported(d)
  {
    MissingIn(Gaps(d), Step(d))
  }

  // ---------------------------------------------------------------- gaps follow one another

  /** Each gap after the first is real and starts no earlier than its predecessors end. */
  ghost predicate Chained(gaps: seq<Gap>) {
    forall i, j :: 0 <= i < j < |gaps| ==> gaps[i].before <= gaps[j].after < gaps[j].before
  }

  lemma {:induction false} RawGapsBetween(ordered: seq<int>, interval: int)
    requires interval > 0 && ordered != [] && Increasing(ordered)
    ensures Chained(RawGaps(ordered, interval))
    ensures forall g :: g in RawGaps(ordered, interval) ==> ordered[0] <= g.after < g.before <= ordered[|ordered| - 1]
  {
    if |ordered| > 1 {
      RawGapsBetween(ordered[1..], interval);
      var rest := RawGaps(ordered[1..], interval);
      forall k | 0 <= k < |rest|
        ensures ordered[1] <= rest[k].after < rest[k].before <= ordered[|ordered| - 1]
      {
        assert rest[k] in rest;
      }
    }
  }

  ghost predicate Precedes(g: Gap, h: Gap) {
    g.before <= h.after < h.before
  }

  lemma ChainedConcat(a: seq<Gap>, b: seq<Gap>)
    requires Chained(a) && Chained(b)
    requires forall g, h :: g in a && h in b ==> Precedes(g, h)
    ensures Chained(a + b)
  {
    var all := a + b;
    forall i, j | 0 <= i < j < |all|
      ensures all[i].before <= all[j].after < all[j].before
    {
      if i < |a| <= j {
        assert Precedes(a[i], b[j - |a|]);
      }
    }
  }

  lemma OrderedGapsChained(start: int, end: int, ordered: seq<int>, interval: int)
    requires interval > 0 && Increasing(ordered)
    ensures Chained(OrderedGaps(start, end, ordered, interval))
  {
    if ordered != [] {
      var first, last := ordered[0], ordered[|ordered| - 1];
      var lead := if first > start then [Gap(start - interval, first)] else [];
      var raw := RawGaps(ordered, interval);
      var tail := if last + interval < end then [Gap(last, end)] else [];
      RawGapsBetween(ordered, interval);
      ChainedConcat(lead, raw);
      ChainedConcat(lead + raw, tail);
      assert OrderedGaps(start, end, ordered, interval) == lead + raw + tail;
    }
  }

  lemma {:induction false} MissingInAfter(gaps: seq<Gap>, interval: int, bound: int, t: int)
    requires interval > 0 && t in MissingIn(gaps, interval)
    requires forall j :: 0 <= j < |gaps| ==> bound <= gaps[j].after
    ensures bound < t
  {
    if t in Grid(gaps[0].after + interval, gaps[0].before, interval) {
      GridContains(gaps[0].after + interval, gaps[0].before, interval, t);
    } else {
      MissingInAfter(gaps[1..], interval, bound, t);
    }
  }

  lemma {:induction false} ChainedIncreasing(gaps: seq<Gap>, interval: int)
    requires interval > 0 && Chained(gaps)
    ensures Increasing(MissingIn(gaps, interval))
  {
    if gaps != [] {
      var first, rest := gaps[0], gaps[1..];
      var head, tail := Grid(first.after + interval, first.before, interval), MissingIn(rest, interval);
      ChainedIncreasing(rest, interval);
      GridIncreasing(first.after + interval, first.before, interval);
      forall i, j | 0 <= i < |head| && 0 <= j < |tail|
        ensures head[i] < tail[j]
      {
        GridContains(first.after + interval, first.before, interval, head[i]);
        MissingInAfter(rest, interval, first.before, tail[j]);
      }
    }
  }

  /** A series never reports the same slot missing twice. */
  lemma AbsentIncreasing(d: Dataset)
    requires Supported(d)
    ensures Increasing(Absent(d))
  {
    OrderedGapsChained(d.start, d.end, Ordered(Distinct(Times(d.candles))), Step(d));
    ChainedIncreasing(Gaps(d), Step(d));
  }

  // ---------------------------------------------------------------- a missing slot holds no candle

  lemma {:induction false} MissingInGap(gaps: seq<Gap>, interval: int, t: int) returns (g: Gap)
    requires interval > 0 && t in MissingIn(gaps, interval)
    ensures g in gaps && g.after < t < g.before
  {
    if t in Grid(gaps[0].after + interval, gaps[0].before, interval) {
      GridContains(gaps[0].after + interval, gaps[0].before, interval, t);
      g := gaps[0];
    } else {
      g := MissingInGap(gaps[1..], interval, t);
    }
  }

  lemma {:induction false} RawGapsSkip(ordered: seq<int>, interval: int, g: Gap, x: int)
    requires interval > 0 && Increasing(ordered) && g in RawGaps(ordered, interval) && x in ordered
    ensures x <= g.after || g.before <= x
  {
    var rest := ordered[1..];
    RawGapsBetween(rest, interval);
    if g in RawGaps(rest, interval) {
      assert rest[0] <= g.after;
      if x in rest {
        RawGapsSkip(rest, interval, g, x);
      }
    }
  }

  lemma OrderedGapsSkip(start: int, end: int, ordered: seq<int>, interval: int, g: Gap, x: int)
    requires interval > 0 && Increasing(ordered) && g in OrderedGaps(start, end, ordered, interval) && x in ordered
    ensures x <= g.after || g.before <= x
  {
    assert ordered[0] <= x <= ordered[|ordered| - 1];
    if g in RawGaps(ordered, interval) {
      RawGapsSkip(ordered, interval, g, x);
    }
  }

  /** A slot that a series reports missing holds no candle of it, whatever its window. */
  lemma AbsentHasNoCandle(d: Dataset, t: int)
    requires Supported(d) && t in Absent(d)
    ensures t !in Times(d.candles)
  {
    var ordered := Ordered(Distinct(Times(d.candles)));
    var g := MissingInGap(Gaps(d), Step(d), t);
    if t in Times(d.candles) {
      assert t in ordered;
      OrderedGapsSkip(d.start, d.end, ordered, Step(d), g, t);
    }
  }

  // ---------------------------------------------------------------- counting across series

  type Slot = (Resolution, int)

  function Keys(r: Resolution, ts: seq<int>): seq<Slot> {
    seq(|ts|, i requires 0 <= i < |ts| => (r, ts[i]))
  }

  ghost predicate AllSupported(ds: seq<Dataset>) {
    forall d :: d in ds ==> Supported(d)
  }

  /** What one series reports missing. */
  datatype Report = Report(resolution: Resolution, absent: seq<int>)

  ghost function Reports(ds: seq<Dataset>): (reports: seq<Report>)
    requires AllSupported(ds)
    ensures |reports| == |ds|
    ensures forall j :: 0 <= j < |ds| ==> reports[j] == Report(ds[j].resolution, Absent(ds[j]))
  {
    seq(|ds|, j requires 0 <= j < |ds| => Report(ds[j].resolution, Absent(ds[j])))
  }

  ghost function Occurrences(reports: seq<Report>): multiset<Slot> {
    if reports == [] then multiset{}
    else
      var n := |reports| - 1;
      Occurrences(reports[..n]) + multiset(Keys(reports[n].resolution, reports[n].absent))
  }

  lemma MissingInSnoc(gaps: seq<Gap>, n: nat, interval: int)
    requires interval > 0 && n < |gaps|
    ensures MissingIn(gaps[..n + 1], interval)
            == MissingIn(gaps[..n], interval) + Grid(gaps[n].after + interval, gaps[n].before, interval)
  {
    assert gaps[..n + 1] == gaps[..n] + [gaps[n]];
    MissingInConcat(gaps[..n], [gaps[n]], interval);
    assert MissingIn([gaps[n]], interval) == Grid(gaps[n].after + interval, gaps[n].before, interval) + [];
  }

  lemma KeysConcat(r: Resolution, a: seq<int>, b: seq<int>)
    ensures multiset(Keys(r, a + b)) == multiset(Keys(r, a)) + multiset(Keys(r, b))
  {
    assert Keys(r, a + b) == Keys(r, a) + Keys(r, b);
  }

  method CountSlots(before: multiset<Slot>, r: Resolution, absent: seq<int>) returns (occurrence: multiset<Slot>)
    ensures occurrence == before + multiset(Keys(r, absent))
  {
    occurrence := before;
    for k := 0 to |absent|
      invariant occurrence == before + multiset(Keys(r, absent[..k]))
    {
      occurrence := occurrence + multiset{(r, absent[k])};
      assert Keys(r, absent[..k + 1]) == Keys(r, absent[..k]) + [(r, absent[k])];
    }
    assert absent[..|absent|] == absent;
  }

  method CountGaps(before: multiset<Slot>, r: Resolution, gaps: seq<Gap>, interval: int)
    returns (occurrence: multiset<Slot>)
    requires interval > 0
    ensures occurrence == before + multiset(Keys(r, MissingIn(gaps, interval)))
  {
    occurrence := before;
    for i := 0 to |gaps|
      invariant occurrence == before + multiset(Keys(r, MissingIn(gaps[..i], interval)))
    {
      var absent := MissingTimestamps(gaps[i], interval);
      occurrence := CountSlots(occurrence, r, absent);
      MissingInSnoc(gaps, i, interval);
      KeysConcat(r, MissingIn(gaps[..i], interval), absent);
    }
    assert gaps[..|gaps|] == gaps;
  }

  lemma OccurrencesNext(reports: seq<Report>, i: nat)
    requires i < |reports|
    ensures Occurrences(reports[..i + 1])
            == Occurrences(reports[..i]) + multiset(Keys(reports[i].resolution, reports[i].absent))
  {
    assert reports[..i + 1][..i] == reports[..i];
  }

  method CountMissing(ds: seq<Dataset>) returns (occurrence: multiset<Slot>)
    requires AllSupported(ds)
    ensures occurrence == Occurrences(Reports(ds))
  {
    occurrence := multiset{};
    for i := 0 to |ds|
      invariant occurrence == Occurrences(Reports(ds)[..i])
    {
      occurrence := CountGaps(occurrence, ds[i].resolution, Gaps(ds[i]), Step(ds[i]));
      OccurrencesNext(Reports(ds), i);
    }
    assert Reports(ds)[..|ds|] == Reports(ds);
  }

  predicate Misses(report: Report, r: Resolution, t: int) {
    report.resolution == r && t in report.absent
  }

  ghost function Flags(reports: seq<Report>, r: Resolution, t: int): (flags: seq<bool>)
    ensures |flags| == |reports|
    ensures forall j :: 0 <= j < |reports| ==> flags[j] == Misses(reports[j], r, t)
  {
    seq(|reports|, j requires 0 <= j < |reports| => Misses(reports[j], r, t))
  }

  ghost function Where(flags: seq<bool>): set<int> {
    set j | 0 <= j < |flags| && flags[j]
  }

  /** The series of one resolution that report a slot missing. */
  ghost function MissedBy(reports: seq<Report>, r: Resolution, t: int): set<int> {
    Where(Flags(reports, r, t))
  }

  lemma WhereSnoc(flags: seq<bool>, flag: bool)
    ensures |Where(flags + [flag])| == |Where(flags)| + if flag then 1 else 0
  {
    var n := |flags|;
    assert n !in Where(flags);
    if flag {
      assert Where(flags + [flag]) == Where(flags) + {n};
    } else {
      assert Where(flags + [flag]) == Where(flags);
    }
  }

  lemma {:induction false} OnceEach(ts: seq<int>, r: Resolution, own: Resolution, t: int)
    requires Increasing(ts)
    ensures multiset(Keys(own, ts))[(r, t)] == if r == own && t in ts then 1 else 0
  {
    if ts != [] {
      var n := |ts| - 1;
      OnceEach(ts[..n], r, own, t);
      assert ts == ts[..n] + [ts[n]];
      assert Keys(own, ts) == Keys(own, ts[..n]) + [(own, ts[n])];
      assert ts[n] !in ts[..n];
    }
  }

  lemma MissedBySnoc(reports: seq<Report>, last: Report, r: Resolution, t: int)
    ensures |MissedBy(reports + [last], r, t)| == |MissedBy(reports, r, t)| + if Misses(last, r, t) then 1 else 0
  {
    WhereSnoc(Flags(reports, r, t), Misses(last, r, t));
    assert Flags(reports + [last], r, t) == Flags(reports, r, t) + [Misses(last, r, t)];
  }

  /** The counter holds, for each slot, how many series of that resolution lack it. */
  lemma {:induction false} OccurrenceIsCount(reports: seq<Report>, r: Resolution, t: int)
    requires forall j :: 0 <= j < |reports| ==> Increasing(reports[j].absent)
    ensures Occurrences(reports)[(r, t)] == |MissedBy(reports, r, t)|
  {
    if reports != [] {
      var n := |reports| - 1;
      var last := reports[n];
      OccurrenceIsCount(reports[..n], r, t);
      OnceEach(last.absent, r, last.resolution, t);
      assert reports == reports[..n] + [last];
      MissedBySnoc(reports[..n], last, r, t);
    }
  }

  lemma ReportsIncreasing(ds: seq<Dataset>)
    requires AllSupported(ds)
    ensures forall j :: 0 <= j < |ds| ==> Increasing(Reports(ds)[j].absent)
  {
    forall j | 0 <= j < |ds|
      ensures Increasing(Reports(ds)[j].absent)
    {
      AbsentIncreasing(ds[j]);
    }
  }

  // ---------------------------------------------------------------- classification

  function KindOf(t: int, r: Resolution, occurrence: multiset<Slot>): Kind {
    if InsideWeekendClosure(t) then WeekendClosure
    else if occurrence[(r, t)] == FROZEN_INSTRUMENTS then SessionGap
    else ActualMissing
  }

  function Classify(ts: seq<int>, r: Resolution, occurrence: multiset<Slot>): seq<Classified> {
    seq(|ts|, i requires 0 <= i < |ts| => Classified(ts[i], KindOf(ts[i], r, occurrence)))
  }

  lemma ClassifyConcat(a: seq<int>, b: seq<int>, r: Resolution, occurrence: multiset<Slot>)
    ensures Classify(a + b, r, occurrence) == Classify(a, r, occurrence) + Classify(b, r, occurrence)
  {
  }

  lemma {:induction false} CountOfZero(ts: seq<int>, r: Resolution, occurrence: multiset<Slot>, kind: Kind)
    ensures CountOf(Classify(ts, r, occurrence), kind) == 0 <==> forall t :: t in ts ==> KindOf(t, r, occurrence) != kind
  {
    if ts != [] {
      assert Classify(ts, r, occurrence)[1..] == Classify(ts[1..], r, occurrence);
      CountOfZero(ts[1..], r, occurrence, kind);
      assert ts == [ts[0]] + ts[1..];
      assert ts[0] in ts;
    }
  }

  /** Of the absent slots, those outside the weekend are session gaps or actually missing. */
  lemma {:induction false} OpenAbsences(ts: seq<int>, r: Resolution, occurrence: multiset<Slot>)
    ensures CountOpen(ts)
            == CountOf(Classify(ts, r, occurrence), SessionGap) + CountOf(Classify(ts, r, occurrence), ActualMissing)
  {
    if ts != [] {
      assert Classify(ts, r, occurrence)[1..] == Classify(ts[1..], r, occurrence);
      OpenAbsences(ts[1..], r, occurrence);
    }
  }
}
