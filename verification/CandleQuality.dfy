/** When a candle series is qualified for use, and what that says about its missing slots. */
module CandleQuality {
  import opened Outcomes
  import opened CandleGaps
  import opened CandleGrouping
  import opened CandleCalendar
  import opened CandleNormalization
  import opened CandleAggregation
  import opened CandleMissing
  import opened CandleStale
  import opened Sets

  const MINIMUM_CANDLES := 60

  datatype Status = Qualified | PartialData | TimezoneGap | DataQualityFailure

  datatype Code =
    | TimezoneAmbiguous
    | CandlesRejected
    | OhlcInvalid
    | QuotesCrossed
    | SpreadNotPositive
    | OffBoundary
    | OutsideRequest
    | DuplicateTimestamps
    | NonMonotonicTimestamps
    | DataMissing
    | StaleObserved
    | WarmupShortfall

  datatype Quality = Quality(
    status: Status,
    first: Option<int>,
    last: Option<int>,
    candles: nat,
    expected: nat,
    missing: int,
    duplicates: int,
    nonMonotonic: nat,
    stale: seq<Stale>,
    large: seq<Finding>,
    gaps: seq<Finding>,
    codes: seq<Code>)

  function Duplicates(ts: seq<int>): int {
    |ts| - |Distinct(ts)|
  }

  /** How often a timestamp is earlier than the one before it. */
  function Backsteps(ts: seq<int>): nat {
    if |ts| < 2 then 0 else One(ts[1] < ts[0]) + Backsteps(ts[1..])
  }

  function StatusOf(f: Findings, duplicates: int, nonMonotonic: int, actualMissing: int, candles: int): Status {
    if f.timezone != 0 then TimezoneGap
    else if f.rejected != 0 || f.zeroOrNegativeSpread != 0 || duplicates != 0 || nonMonotonic != 0 then DataQualityFailure
    else if actualMissing != 0 || candles < MINIMUM_CANDLES then PartialData
    else Qualified
  }

  datatype Remark = Remark(holds: bool, code: Code)

  function Raised(remarks: seq<Remark>): seq<Code> {
    if remarks == [] then [] else (if remarks[0].holds then [remarks[0].code] else []) + Raised(remarks[1..])
  }

  function Remarks(f: Findings, duplicates: int, nonMonotonic: int, actualMissing: int, stale: bool, candles: int)
    : seq<Remark>
  {
    [Remark(f.timezone != 0, TimezoneAmbiguous),
     Remark(f.rejected != 0, CandlesRejected),
     Remark(f.invalidOhlc != 0, OhlcInvalid),
     Remark(f.crossed != 0, QuotesCrossed),
     Remark(f.zeroOrNegativeSpread != 0, SpreadNotPositive),
     Remark(f.boundary != 0, OffBoundary),
     Remark(f.outside != 0, OutsideRequest),
     Remark(duplicates != 0, DuplicateTimestamps),
     Remark(nonMonotonic != 0, NonMonotonicTimestamps),
     Remark(actualMissing != 0, DataMissing),
     Remark(stale, StaleObserved),
     Remark(candles < MINIMUM_CANDLES, WarmupShortfall)]
  }

  function Codes(f: Findings, duplicates: int, nonMonotonic: int, actualMissing: int, stale: bool, candles: int): seq<Code> {
    Raised(Remarks(f, duplicates, nonMonotonic, actualMissing, stale, candles))
  }

  function AtLeastFive(fs: seq<Finding>): seq<Finding> {
    if fs == [] then [] else (if fs[0].missing >= 5 then [fs[0]] else []) + AtLeastFive(fs[1..])
  }

  function Earliest(ts: seq<int>): Option<int> {
    var ordered := Ordered(Distinct(ts));
    if ordered == [] then None else Some(ordered[0])
  }

  function Latest(ts: seq<int>): Option<int> {
    var ordered := Ordered(Distinct(ts));
    if ordered == [] then None else Some(ordered[|ordered| - 1])
  }

  function Summary(d: Dataset, expected: nat, gaps: seq<Finding>, stale: seq<Stale>): Quality {
    var ts := Times(d.candles);
    var actualMissing := TotalOf(gaps, ActualMissing);
    Quality(
      StatusOf(d.findings, Duplicates(ts), Backsteps(ts), actualMissing, |ts|),
      Earliest(ts), Latest(ts), |ts|, expected, Total(gaps), Duplicates(ts), Backsteps(ts), stale, AtLeastFive(gaps), gaps,
      Codes(d.findings, Duplicates(ts), Backsteps(ts), actualMissing, stale != [], |ts|))
  }

  /** The right verdict on a series, given how many series of its resolution lack each slot. */
  ghost predicate Assesses(q: Quality, d: Dataset, occurrence: multiset<Slot>)
    requires Supported(d)
  {
    && Groups(q.gaps, Classify(Absent(d), d.resolution, occurrence), Step(d))
    && q == Summary(d, CountOpen(Grid(d.start, d.end, Step(d))), q.gaps, q.stale)
  }

  /** The reported stale sequences are the long runs of unchanged quotes, in time order. */
  ghost predicate StaleReported(q: Quality, d: Dataset) {
    StaleReport(SortByTime(d.candles), q.stale)
  }

  // ---------------------------------------------------------------- the loops

  lemma {:induction false} SpreadConcat(a: seq<Finding>, b: seq<Finding>, interval: int)
    requires interval > 0
    ensures Spread(a + b, interval) == Spread(a, interval) + Spread(b, interval)
  {
    if a == [] {
      assert a + b == b;
    } else {
      assert (a + b)[1..] == a[1..] + b;
      SpreadConcat(a[1..], b, interval);
    }
  }

  lemma JoinGroups(a: seq<Finding>, b: seq<Finding>, interval: int)
    requires interval > 0 && AllProper(a, interval) && AllProper(b, interval)
    requires NoneMergeable(a, interval) && NoneMergeable(b, interval)
    requires a != [] && b != [] ==> !Mergeable(a[|a| - 1], b[0], interval)
    ensures AllProper(a + b, interval) && NoneMergeable(a + b, interval)
  {
    var both := a + b;
    forall i | 0 < i < |both|
      ensures !Mergeable(both[i - 1], both[i], interval)
    {
      if i < |a| {
        assert !Mergeable(a[i - 1], a[i], interval);
      } else if i > |a| {
        assert !Mergeable(b[i - |a| - 1], b[i - |a|], interval);
      }
    }
  }

  lemma GroupStarts(fs: seq<Finding>, classified: seq<Classified>, interval: int)
    requires interval > 0 && Groups(fs, classified, interval) && fs != []
    ensures classified != [] && classified[0].at == fs[0].after + interval
  {
    FirstOfSpread(fs, interval);
    assert Spread(fs, interval)[0] == classified[0];
    assert interval * 1 == interval;
  }

  lemma GroupEnds(fs: seq<Finding>, classified: seq<Classified>, interval: int)
    requires interval > 0 && Groups(fs, classified, interval) && fs != []
    ensures classified != [] && classified[|classified| - 1].at == fs[|fs| - 1].before - interval
  {
    var n := |fs| - 1;
    var last := fs[n];
    assert fs == fs[..n] + [last];
    assert Proper(last, interval);
    SpreadSnoc(fs[..n], last, interval);
    ExpandSize(last, interval);
    assert classified[|classified| - 1] == Expand(last, interval)[last.missing - 1];
    assert interval * (last.missing + 1) == interval * last.missing + interval;
  }

  lemma GridStarts(from: int, to: int, interval: int)
    requires interval > 0 && Grid(from, to, interval) != []
    ensures Grid(from, to, interval)[0] == from
    ensures var grid := Grid(from, to, interval); grid[|grid| - 1] < to
  {
    var grid := Grid(from, to, interval);
    assert grid[|grid| - 1] in grid;
    GridContains(from, to, interval, grid[|grid| - 1]);
  }

  /** The findings of one raw gap start right after it opens and end before it closes. */
  lemma GroupWithin(fs: seq<Finding>, classified: seq<Classified>, g: Gap, interval: int)
    requires interval > 0 && Groups(fs, classified, interval) && fs != []
    requires |classified| == |Grid(g.after + interval, g.before, interval)|
    requires forall i :: 0 <= i < |classified| ==> classified[i].at == Grid(g.after + interval, g.before, interval)[i]
    ensures fs[0].after == g.after
    ensures fs[|fs| - 1].before - interval < g.before
  {
    GroupStarts(fs, classified, interval);
    GroupEnds(fs, classified, interval);
    GridStarts(g.after + interval, g.before, interval);
  }

  /** Every finding so far ends before the last raw gap seen closes. */
  ghost predicate Found(gaps: seq<Finding>, raw: seq<Gap>, n: nat, r: Resolution, interval: int, occurrence: multiset<Slot>)
    requires interval > 0 && n <= |raw|
  {
    && Groups(gaps, Classify(MissingIn(raw[..n], interval), r, occurrence), interval)
    && (gaps != [] ==> n > 0 && gaps[|gaps| - 1].before - interval < raw[n - 1].before)
  }

  lemma FoundNext(gaps: seq<Finding>, raw: seq<Gap>, n: nat, r: Resolution, interval: int, occurrence: multiset<Slot>,
                  absent: seq<int>, more: seq<Finding>)
    requires interval > 0 && Chained(raw) && n < |raw| && Found(gaps, raw, n, r, interval, occurrence)
    requires absent == Grid(raw[n].after + interval, raw[n].before, interval)
    requires Groups(more, Classify(absent, r, occurrence), interval)
    ensures Found(gaps + more, raw, n + 1, r, interval, occurrence)
  {
    if more != [] {
      GroupWithin(more, Classify(absent, r, occurrence), raw[n], interval);
    }
    if gaps != [] {
      assert n > 0 && raw[n - 1].before <= raw[n].after < raw[n].before;
    }
    JoinGroups(gaps, more, interval);
    FoundSpread(gaps, raw, n, r, interval, occurrence, absent, more);
  }

  lemma FoundSpread(gaps: seq<Finding>, raw: seq<Gap>, n: nat, r: Resolution, interval: int, occurrence: multiset<Slot>,
                    absent: seq<int>, more: seq<Finding>)
    requires interval > 0 && n < |raw|
    requires Spread(gaps, interval) == Classify(MissingIn(raw[..n], interval), r, occurrence)
    requires absent == Grid(raw[n].after + interval, raw[n].before, interval)
    requires Spread(more, interval) == Classify(absent, r, occurrence)
    ensures Spread(gaps + more, interval) == Classify(MissingIn(raw[..n + 1], interval), r, occurrence)
  {
    SpreadConcat(gaps, more, interval);
    MissingInSnoc(raw, n, interval);
    ClassifyConcat(MissingIn(raw[..n], interval), absent, r, occurrence);
  }

  method FindGaps(raw: seq<Gap>, r: Resolution, interval: int, occurrence: multiset<Slot>) returns (gaps: seq<Finding>)
    requires interval > 0 && Chained(raw)
    ensures Groups(gaps, Classify(MissingIn(raw, interval), r, occurrence), interval)
  {
    gaps := [];
    for i := 0 to |raw|
      invariant Found(gaps, raw, i, r, interval, occurrence)
    {
      var absent := MissingTimestamps(raw[i], interval);
      var found := GroupClassifiedGaps(Classify(absent, r, occurrence), interval);
      FoundNext(gaps, raw, i, r, interval, occurrence, absent, found);
      gaps := gaps + found;
    }
    assert raw[..|raw|] == raw;
  }

  method QualifyOne(d: Dataset, occurrence: multiset<Slot>) returns (q: Quality)
    requires Supported(d)
    ensures Assesses(q, d, occurrence) && StaleReported(q, d)
  {
    var ordered := Ordered(Distinct(Times(d.candles)));
    OrderedGapsChained(d.start, d.end, ordered, Step(d));
    var gaps := FindGaps(Gaps(d), d.resolution, Step(d), occurrence);
    var stale := StaleSequences(d.candles);
    var expected := ExpectedMarketCount(d.start, d.end, Step(d));
    q := Summary(d, expected, gaps, stale);
  }

  datatype QualificationError = UnsupportedResolution

  type Key = (string, Resolution)

  function KeyOf(d: Dataset): Key {
    (d.symbol, d.resolution)
  }

  /** A later entry with the same key replaces an earlier one. */
  function Indexed<K, V>(keys: seq<K>, values: seq<V>): map<K, V>
    requires |keys| == |values|
  {
    if keys == [] then map[]
    else
      var n := |keys| - 1;
      Indexed(keys[..n], values[..n])[keys[n] := values[n]]
  }

  lemma {:induction false} LastWins<K, V>(keys: seq<K>, values: seq<V>, i: nat)
    requires i < |keys| == |values|
    requires forall j :: i < j < |keys| ==> keys[j] != keys[i]
    ensures keys[i] in Indexed(keys, values) && Indexed(keys, values)[keys[i]] == values[i]
  {
    var n := |keys| - 1;
    if i < n {
      LastWins(keys[..n], values[..n], i);
    }
  }

  lemma IndexedNext<K, V>(keys: seq<K>, n: nat, values: seq<V>, v: V)
    requires n == |values| < |keys|
    ensures Indexed(keys[..n + 1], values + [v]) == Indexed(keys[..n], values)[keys[n] := v]
  {
    assert keys[..n + 1][..n] == keys[..n];
    assert (values + [v])[..n] == values;
  }

  function KeysOf(ds: seq<Dataset>): (keys: seq<Key>)
    ensures |keys| == |ds| && forall i :: 0 <= i < |ds| ==> keys[i] == KeyOf(ds[i])
  {
    seq(|ds|, i requires 0 <= i < |ds| => KeyOf(ds[i]))
  }

  /** Each verdict is the right one for its series. */
  ghost predicate AllAssessed(verdicts: seq<Quality>, ds: seq<Dataset>, occurrence: multiset<Slot>) {
    && |verdicts| <= |ds|
    && AllSupported(ds)
    && forall i :: 0 <= i < |verdicts| ==> Assesses(verdicts[i], ds[i], occurrence)
  }

  ghost predicate AllStaleReported(verdicts: seq<Quality>, ds: seq<Dataset>) {
    |verdicts| <= |ds| && forall i :: 0 <= i < |verdicts| ==> StaleReported(verdicts[i], ds[i])
  }

  lemma OneMoreAssessed(verdicts: seq<Quality>, ds: seq<Dataset>, occurrence: multiset<Slot>, q: Quality)
    requires |verdicts| < |ds| && AllAssessed(verdicts, ds, occurrence)
    requires Assesses(q, ds[|verdicts|], occurrence)
    ensures AllAssessed(verdicts + [q], ds, occurrence)
  {
    var longer := verdicts + [q];
    forall i | 0 <= i < |longer|
      ensures Assesses(longer[i], ds[i], occurrence)
    {
      assert longer[i] == if i < |verdicts| then verdicts[i] else q;
    }
  }

  lemma OneMoreStale(verdicts: seq<Quality>, ds: seq<Dataset>, q: Quality)
    requires |verdicts| < |ds| && AllStaleReported(verdicts, ds) && StaleReported(q, ds[|verdicts|])
    ensures AllStaleReported(verdicts + [q], ds)
  {
    var longer := verdicts + [q];
    forall i | 0 <= i < |longer|
      ensures StaleReported(longer[i], ds[i])
    {
      assert longer[i] == if i < |verdicts| then verdicts[i] else q;
    }
  }

  method QualifyAll(ds: seq<Dataset>, occurrence: multiset<Slot>)
    returns (result: map<Key, Quality>, ghost verdicts: seq<Quality>)
    requires AllSupported(ds)
    ensures |verdicts| == |ds| && AllAssessed(verdicts, ds, occurrence) && AllStaleReported(verdicts, ds)
    ensures result == Indexed(KeysOf(ds), verdicts)
  {
    result, verdicts := map[], [];
    for n := 0 to |ds|
      invariant |verdicts| == n && AllAssessed(verdicts, ds, occurrence)
      invariant AllStaleReported(verdicts, ds)
      invariant result == Indexed(KeysOf(ds)[..n], verdicts)
    {
      var q := QualifyOne(ds[n], occurrence);
      result := result[KeyOf(ds[n]) := q];
      IndexedNext(KeysOf(ds), n, verdicts, q);
      OneMoreAssessed(verdicts, ds, occurrence, q);
      OneMoreStale(verdicts, ds, q);
      verdicts := verdicts + [q];
    }
    assert KeysOf(ds)[..|ds|] == KeysOf(ds);
  }

  /** The verdict of each series, under its symbol and resolution. */
  method QualifySeries(ds: seq<Dataset>)
    returns (r: Result<map<Key, Quality>, QualificationError>, ghost verdicts: seq<Quality>)
    ensures r.Ok? <==> AllSupported(ds)
    ensures r.Ok? ==> |verdicts| == |ds| && AllAssessed(verdicts, ds, Occurrences(Reports(ds)))
    ensures r.Ok? ==> AllStaleReported(verdicts, ds)
    ensures r.Ok? ==> r.value == Indexed(KeysOf(ds), verdicts)
  {
    if exists i :: 0 <= i < |ds| && !Supported(ds[i]) {
      return Err(UnsupportedResolution), [];
    }
    var occurrence := CountMissing(ds);
    var result;
    result, verdicts := QualifyAll(ds, occurrence);
    r := Ok(result);
  }

  // ---------------------------------------------------------------- what QUALIFIED means

  lemma {:induction false} NoBackstep(ts: seq<int>)
    ensures Backsteps(ts) == 0 <==> forall i :: 0 < i < |ts| ==> ts[i - 1] <= ts[i]
  {
    if |ts| >= 2 {
      NoBackstep(ts[1..]);
      assert forall i :: 0 < i < |ts[1..]| ==> ts[1..][i - 1] == ts[i] && ts[1..][i] == ts[i + 1];
      if Backsteps(ts) == 0 {
        forall i | 0 < i < |ts|
          ensures ts[i - 1] <= ts[i]
        {
          if i > 1 {
            assert ts[1..][i - 1 - 1] <= ts[1..][i - 1];
          }
        }
      }
      if forall i :: 0 < i < |ts| ==> ts[i - 1] <= ts[i] {
        assert ts[1 - 1] <= ts[1];
        forall i | 0 < i < |ts[1..]|
          ensures ts[1..][i - 1] <= ts[1..][i]
        {
          assert ts[i + 1 - 1] <= ts[i + 1];
        }
      }
    }
  }

  lemma {:induction false} NonDecreasing(ts: seq<int>, i: nat, j: nat)
    requires forall k :: 0 < k < |ts| ==> ts[k - 1] <= ts[k]
    requires i <= j < |ts|
    ensures ts[i] <= ts[j]
    decreases j - i
  {
    if i < j {
      NonDecreasing(ts, i, j - 1);
    }
  }

  /** No duplicate and no backward step together mean strictly increasing timestamps. */
  lemma CleanIffIncreasing(ts: seq<int>)
    ensures Duplicates(ts) == 0 && Backsteps(ts) == 0 <==> Increasing(ts)
  {
    NoBackstep(ts);
    DistinctSize(ts);
    if Duplicates(ts) == 0 && Backsteps(ts) == 0 {
      forall i, j | 0 <= i < j < |ts|
        ensures ts[i] < ts[j]
      {
        NonDecreasing(ts, i, j);
      }
    }
  }

  lemma ActualMissingZero(q: Quality, d: Dataset, occurrence: multiset<Slot>)
    requires Supported(d) && Assesses(q, d, occurrence)
    ensures TotalOf(q.gaps, ActualMissing) == 0
            <==> forall t :: t in Absent(d) ==> KindOf(t, d.resolution, occurrence) != ActualMissing
    ensures TotalOf(q.gaps, ActualMissing) >= 0
  {
    TotalOfIsCount(q.gaps, ActualMissing, Step(d));
    CountOfZero(Absent(d), d.resolution, occurrence, ActualMissing);
  }

  lemma KindCounts(ds: seq<Dataset>, r: Resolution, t: int)
    requires AllSupported(ds)
    ensures KindOf(t, r, Occurrences(Reports(ds))) == ActualMissing
            <==> !InsideWeekendClosure(t) && |MissedBy(Reports(ds), r, t)| != FROZEN_INSTRUMENTS
  {
    ReportsIncreasing(ds);
    OccurrenceIsCount(Reports(ds), r, t);
  }

  /** QUALIFIED by the reported absences, for windows aligned or not and candles in any order. */
  lemma QualifiedByAbsences(ds: seq<Dataset>, d: Dataset, q: Quality)
    requires AllSupported(ds) && Supported(d)
    requires Assesses(q, d, Occurrences(Reports(ds)))
    ensures q.status == Qualified <==>
            && d.findings.timezone == 0 && d.findings.rejected == 0 && d.findings.zeroOrNegativeSpread == 0
            && Increasing(Times(d.candles))
            && |d.candles| >= MINIMUM_CANDLES
            && forall t :: t in Absent(d) ==>
                 InsideWeekendClosure(t) || |MissedBy(Reports(ds), d.resolution, t)| == FROZEN_INSTRUMENTS
  {
    CleanIffIncreasing(Times(d.candles));
    ActualMissingZero(q, d, Occurrences(Reports(ds)));
    forall t | t in Absent(d)
      ensures KindOf(t, d.resolution, Occurrences(Reports(ds))) == ActualMissing
              <==> !InsideWeekendClosure(t) && |MissedBy(Reports(ds), d.resolution, t)| != FROZEN_INSTRUMENTS
    {
      KindCounts(ds, d.resolution, t);
    }
  }

  ghost predicate Aligned(d: Dataset)
    requires Supported(d)
  {
    OnGrid(Times(d.candles), d.start, d.end, Step(d))
  }

  /** A slot with neither a candle, nor the weekend, nor exactly three series of the resolution that lack it. */
  ghost predicate Unexplained(ds: seq<Dataset>, d: Dataset, t: int)
    requires AllSupported(ds) && Supported(d)
  {
    && t !in Times(d.candles)
    && !InsideWeekendClosure(t)
    && |MissedBy(Reports(ds), d.resolution, t)| != FROZEN_INSTRUMENTS
  }

  /**
   QUALIFIED holds exactly when no candle was rejected or flagged, the timestamps strictly increase,
   at least sixty candles are present, and no slot of the grid is unexplained.
   */
  lemma QualifiedIff(ds: seq<Dataset>, d: Dataset, q: Quality)
    requires AllSupported(ds) && Supported(d) && Aligned(d)
    requires Assesses(q, d, Occurrences(Reports(ds)))
    ensures q.status == Qualified <==>
            && d.findings.timezone == 0 && d.findings.rejected == 0 && d.findings.zeroOrNegativeSpread == 0
            && Increasing(Times(d.candles))
            && |d.candles| >= MINIMUM_CANDLES
            && forall t :: t in Grid(d.start, d.end, Step(d)) ==> !Unexplained(ds, d, t)
  {
    CleanIffIncreasing(Times(d.candles));
    ActualMissingZero(q, d, Occurrences(Reports(ds)));
    AbsencesExplained(ds, d);
  }

  lemma AbsencesExplained(ds: seq<Dataset>, d: Dataset)
    requires AllSupported(ds) && Supported(d) && Aligned(d)
    ensures (forall t :: t in Absent(d) ==> KindOf(t, d.resolution, Occurrences(Reports(ds))) != ActualMissing)
            <==> forall t :: t in Grid(d.start, d.end, Step(d)) ==> !Unexplained(ds, d, t)
  {
    forall t
      ensures t in Absent(d) && KindOf(t, d.resolution, Occurrences(Reports(ds))) == ActualMissing
              <==> t in Grid(d.start, d.end, Step(d)) && Unexplained(ds, d, t)
    {
      PresentAndMissingPartition(d.start, d.end, Times(d.candles), Step(d), t);
      KindCounts(ds, d.resolution, t);
    }
  }

  ghost function AtResolution(reports: seq<Report>, r: Resolution): set<int> {
    set j | 0 <= j < |reports| && reports[j].resolution == r
  }

  /** With one series per frozen instrument at a resolution, three misses mean that every one of them misses the slot. */
  lemma ThreeMeansAll(reports: seq<Report>, r: Resolution, t: int)
    requires |AtResolution(reports, r)| == FROZEN_INSTRUMENTS
    ensures |MissedBy(reports, r, t)| == FROZEN_INSTRUMENTS
            <==> forall j :: 0 <= j < |reports| && reports[j].resolution == r ==> t in reports[j].absent
  {
    var all, missed := AtResolution(reports, r), MissedBy(reports, r, t);
    assert missed <= all;
    if |missed| == |all| {
      SubsetSize(missed, all);
      assert forall j :: 0 <= j < |reports| && reports[j].resolution == r ==> j in missed;
    }
    if forall j :: 0 <= j < |reports| && reports[j].resolution == r ==> t in reports[j].absent {
      assert forall j :: j in all ==> j in missed;
      assert missed == all;
    }
  }

  /** Every slot absent from a qualified series falls in the weekend or is absent from all three instruments. */
  lemma QualifiedSound(ds: seq<Dataset>, d: Dataset, q: Quality, t: int)
    requires AllSupported(ds) && Supported(d)
    requires |AtResolution(Reports(ds), d.resolution)| == FROZEN_INSTRUMENTS
    requires Assesses(q, d, Occurrences(Reports(ds))) && q.status == Qualified
    requires t in Absent(d)
    ensures InsideWeekendClosure(t)
            || forall j :: 0 <= j < |ds| && ds[j].resolution == d.resolution ==>
                 t in Absent(ds[j]) && t !in Times(ds[j].candles)
  {
    QualifiedByAbsences(ds, d, q);
    if !InsideWeekendClosure(t) {
      ThreeMeansAll(Reports(ds), d.resolution, t);
      forall j | 0 <= j < |ds| && ds[j].resolution == d.resolution
        ensures t in Absent(ds[j]) && t !in Times(ds[j].candles)
      {
        assert t in Reports(ds)[j].absent;
        AbsentHasNoCandle(ds[j], t);
      }
    }
  }

  /** The other verdicts, and which comes first when several apply. */
  lemma OtherStatuses(ds: seq<Dataset>, d: Dataset, q: Quality)
    requires AllSupported(ds) && Supported(d) && Aligned(d)
    requires Assesses(q, d, Occurrences(Reports(ds)))
    ensures q.status == TimezoneGap <==> d.findings.timezone != 0
    ensures q.status == PartialData <==>
            && d.findings.timezone == 0 && d.findings.rejected == 0 && d.findings.zeroOrNegativeSpread == 0
            && Increasing(Times(d.candles))
            && (|d.candles| < MINIMUM_CANDLES || exists t :: t in Grid(d.start, d.end, Step(d)) && Unexplained(ds, d, t))
  {
    CleanIffIncreasing(Times(d.candles));
    ActualMissingZero(q, d, Occurrences(Reports(ds)));
    AbsencesExplained(ds, d);
  }

  lemma {:induction false} LargeMeans(fs: seq<Finding>, f: Finding)
    ensures f in AtLeastFive(fs) <==> f in fs && f.missing >= 5
  {
    if fs != [] {
      LargeMeans(fs[1..], f);
      assert fs == [fs[0]] + fs[1..];
    }
  }

  lemma EndsAreExtremes(ts: seq<int>, t: int)
    requires t in ts
    ensures Earliest(ts).Some? && Earliest(ts).value in ts && Earliest(ts).value <= t
    ensures Latest(ts).Some? && Latest(ts).value in ts && t <= Latest(ts).value
  {
    var ordered := Ordered(Distinct(ts));
    assert t in ordered;
    assert ordered[0] in ordered && ordered[|ordered| - 1] in ordered;
    var i :| 0 <= i < |ordered| && ordered[i] == t;
  }

  /** The remaining figures: the span of the candles, the number of absent slots and the large gaps. */
  lemma FiguresMean(d: Dataset, occurrence: multiset<Slot>, q: Quality, t: int, f: Finding)
    requires Supported(d) && Assesses(q, d, occurrence)
    ensures q.candles == |d.candles| && q.missing == |Absent(d)|
    ensures t in Times(d.candles) ==>
              && q.first.Some? && q.first.value in Times(d.candles) && q.first.value <= t
              && q.last.Some? && q.last.value in Times(d.candles) && t <= q.last.value
    ensures f in q.large <==> f in q.gaps && f.missing >= 5
  {
    TotalIsSpread(q.gaps, Step(d));
    LargeMeans(q.gaps, f);
    if t in Times(d.candles) {
      EndsAreExtremes(Times(d.candles), t);
    }
  }

  // ---------------------------------------------------------------- conservation of market slots

  ghost function OpenOf(s: set<int>): set<int> {
    set t | t in s && !InsideWeekendClosure(t)
  }

  lemma OpenOfMore(s: set<int>, x: int)
    requires x !in s
    ensures |OpenOf({x} + s)| == |OpenOf(s)| + if InsideWeekendClosure(x) then 0 else 1
  {
    if InsideWeekendClosure(x) {
      assert OpenOf({x} + s) == OpenOf(s);
    } else {
      assert OpenOf({x} + s) == OpenOf(s) + {x};
    }
  }

  lemma DistinctRest(ts: seq<int>)
    requires ts != [] && |Distinct(ts)| == |ts|
    ensures |Distinct(ts[1..])| == |ts[1..]| && ts[0] !in Distinct(ts[1..]) && Distinct(ts) == {ts[0]} + Distinct(ts[1..])
  {
    var first, rest := ts[0], ts[1..];
    assert ts == [first] + rest;
    assert Distinct(ts) == {first} + Distinct(rest);
    DistinctSize(rest);
    assert first in Distinct(rest) ==> {first} + Distinct(rest) == Distinct(rest);
  }

  lemma {:induction false} OpenAsSet(ts: seq<int>)
    requires |Distinct(ts)| == |ts|
    ensures CountOpen(ts) == |OpenOf(Distinct(ts))|
  {
    if ts != [] {
      DistinctRest(ts);
      OpenAsSet(ts[1..]);
      OpenOfMore(Distinct(ts[1..]), ts[0]);
    } else {
      assert OpenOf(Distinct(ts)) == {};
    }
  }

  /** If the slots of one sequence are divided between two others, so are the market slots. */
  lemma OpenDivides(all: seq<int>, a: seq<int>, b: seq<int>)
    requires |Distinct(all)| == |all| && |Distinct(a)| == |a| && |Distinct(b)| == |b|
    requires forall t :: t in all <==> t in a || t in b
    requires forall t :: t in a ==> t !in b
    ensures CountOpen(all) == CountOpen(a) + CountOpen(b)
  {
    OpenAsSet(all);
    OpenAsSet(a);
    OpenAsSet(b);
    assert OpenOf(Distinct(all)) == OpenOf(Distinct(a)) + OpenOf(Distinct(b));
    assert OpenOf(Distinct(a)) !! OpenOf(Distinct(b));
  }

  lemma IncreasingDistinct(ts: seq<int>)
    requires Increasing(ts)
    ensures |Distinct(ts)| == |ts|
  {
    DistinctSize(ts);
  }

  /** The expected market slots are the present ones, the session gaps and the actually missing ones. */
  lemma MarketSlotsConserved(d: Dataset, occurrence: multiset<Slot>, q: Quality)
    requires Supported(d) && Aligned(d) && Duplicates(Times(d.candles)) == 0
    requires Assesses(q, d, occurrence)
    ensures q.expected == CountOpen(Times(d.candles)) + TotalOf(q.gaps, SessionGap) + TotalOf(q.gaps, ActualMissing)
  {
    var grid, present, absent := Grid(d.start, d.end, Step(d)), Times(d.candles), Absent(d);
    GridIncreasing(d.start, d.end, Step(d));
    AbsentIncreasing(d);
    IncreasingDistinct(grid);
    IncreasingDistinct(absent);
    forall t
      ensures t in grid <==> t in present || t in absent
      ensures t in present ==> t !in absent
    {
      PresentAndMissingPartition(d.start, d.end, present, Step(d), t);
    }
    OpenDivides(grid, present, absent);
    OpenAbsences(absent, d.resolution, occurrence);
    TotalOfIsCount(q.gaps, SessionGap, Step(d));
    TotalOfIsCount(q.gaps, ActualMissing, Step(d));
  }

  // ---------------------------------------------------------------- the reason codes

  lemma {:induction false} RaisedIff(remarks: seq<Remark>, code: Code)
    ensures code in Raised(remarks) <==> Remark(true, code) in remarks
  {
    if remarks != [] {
      RaisedIff(remarks[1..], code);
      assert remarks == [remarks[0]] + remarks[1..];
    }
  }

  /** When a code holds. */
  ghost predicate Warranted(c: Code, q: Quality, f: Findings) {
    match c
    case TimezoneAmbiguous => f.timezone > 0
    case CandlesRejected => f.rejected > 0
    case OhlcInvalid => f.invalidOhlc > 0
    case QuotesCrossed => f.crossed > 0
    case SpreadNotPositive => f.zeroOrNegativeSpread > 0
    case OffBoundary => f.boundary > 0
    case OutsideRequest => f.outside > 0
    case DuplicateTimestamps => q.duplicates != 0
    case NonMonotonicTimestamps => q.nonMonotonic > 0
    case DataMissing => TotalOf(q.gaps, ActualMissing) != 0
    case StaleObserved => q.stale != []
    case WarmupShortfall => q.candles < 60
  }

  function PlaceOf(c: Code): nat {
    match c
    case TimezoneAmbiguous => 0
    case CandlesRejected => 1
    case OhlcInvalid => 2
    case QuotesCrossed => 3
    case SpreadNotPositive => 4
    case OffBoundary => 5
    case OutsideRequest => 6
    case DuplicateTimestamps => 7
    case NonMonotonicTimestamps => 8
    case DataMissing => 9
    case StaleObserved => 10
    case WarmupShortfall => 11
  }

  lemma OneRemarkEach(f: Findings, duplicates: int, nonMonotonic: int, actualMissing: int, stale: bool, candles: int, c: Code)
    ensures var remarks := Remarks(f, duplicates, nonMonotonic, actualMissing, stale, candles);
            |remarks| == 12 && forall i :: 0 <= i < 12 ==> (remarks[i].code == c <==> i == PlaceOf(c))
  {
  }

  /** A verdict carries exactly the codes that its own figures and the counters warrant. */
  lemma CodesMean(q: Quality, d: Dataset, occurrence: multiset<Slot>, c: Code)
    requires Supported(d) && Assesses(q, d, occurrence)
    ensures c in q.codes <==> Warranted(c, q, d.findings)
  {
    var ts, missing := Times(d.candles), TotalOf(q.gaps, ActualMissing);
    var remarks := Remarks(d.findings, Duplicates(ts), Backsteps(ts), missing, q.stale != [], |ts|);
    RaisedIff(remarks, c);
    OneRemarkEach(d.findings, Duplicates(ts), Backsteps(ts), missing, q.stale != [], |ts|, c);
    var k := PlaceOf(c);
    assert remarks[k] == Remark(remarks[k].holds, c);
    assert Remark(true, c) in remarks <==> remarks[k].holds;
  }

  /** Staleness is the only remark, if there is one. */
  ghost predicate OnlyStale(codes: seq<Code>) {
    forall code :: code in codes ==> code == StaleObserved
  }

  lemma OnlyStaleRaised(remarks: seq<Remark>)
    ensures OnlyStale(Raised(remarks))
            <==> forall i :: 0 <= i < |remarks| && remarks[i].holds ==> remarks[i].code == StaleObserved
  {
    forall code
      ensures code in Raised(remarks) <==> Remark(true, code) in remarks
    {
      RaisedIff(remarks, code);
    }
    forall i | 0 <= i < |remarks| && remarks[i].holds
      ensures remarks[i].code in Raised(remarks)
    {
      assert remarks[i] == Remark(true, remarks[i].code);
    }
  }

  ghost predicate OnlyStaleHolds(f: Findings, duplicates: int, nonMonotonic: int, actualMissing: int, candles: int) {
    && f.timezone == 0 && f.rejected == 0 && f.invalidOhlc == 0 && f.crossed == 0 && f.zeroOrNegativeSpread == 0
    && f.boundary == 0 && f.outside == 0 && duplicates == 0 && nonMonotonic == 0 && actualMissing == 0
    && candles >= MINIMUM_CANDLES
  }

  lemma RemarksVersusStatus(f: Findings, duplicates: int, nonMonotonic: int, actualMissing: int, stale: bool, candles: int)
    ensures var remarks := Remarks(f, duplicates, nonMonotonic, actualMissing, stale, candles);
            (forall i :: 0 <= i < |remarks| && remarks[i].holds ==> remarks[i].code == StaleObserved)
            <==> OnlyStaleHolds(f, duplicates, nonMonotonic, actualMissing, candles)
  {
    var remarks := Remarks(f, duplicates, nonMonotonic, actualMissing, stale, candles);
    if forall i :: 0 <= i < |remarks| && remarks[i].holds ==> remarks[i].code == StaleObserved {
      assert !remarks[0].holds && !remarks[1].holds && !remarks[2].holds && !remarks[3].holds;
      assert !remarks[4].holds && !remarks[5].holds && !remarks[6].holds && !remarks[7].holds;
      assert !remarks[8].holds && !remarks[9].holds && !remarks[11].holds;
    }
  }

  lemma StatusIsOnlyStale(f: Findings, duplicates: int, nonMonotonic: int, actualMissing: int, candles: int)
    requires Consistent(f)
    ensures StatusOf(f, duplicates, nonMonotonic, actualMissing, candles) == Qualified
            <==> OnlyStaleHolds(f, duplicates, nonMonotonic, actualMissing, candles)
  {
  }

  lemma StaleRaised(remarks: seq<Remark>, stale: bool)
    requires |remarks| == 12 && remarks[10] == Remark(stale, StaleObserved)
    requires forall i :: 0 <= i < 12 && i != 10 ==> remarks[i].code != StaleObserved
    ensures StaleObserved in Raised(remarks) <==> stale
  {
    RaisedIff(remarks, StaleObserved);
    assert stale ==> remarks[10] == Remark(true, StaleObserved);
  }

  lemma SameAsOnlyStale(f: Findings, duplicates: int, nonMonotonic: int, actualMissing: int, stale: bool, candles: int)
    requires Consistent(f)
    ensures var codes := Codes(f, duplicates, nonMonotonic, actualMissing, stale, candles);
            && (StatusOf(f, duplicates, nonMonotonic, actualMissing, candles) == Qualified <==> OnlyStale(codes))
            && (StaleObserved in codes <==> stale)
  {
    var remarks := Remarks(f, duplicates, nonMonotonic, actualMissing, stale, candles);
    StatusIsOnlyStale(f, duplicates, nonMonotonic, actualMissing, candles);
    RemarksVersusStatus(f, duplicates, nonMonotonic, actualMissing, stale, candles);
    OnlyStaleRaised(remarks);
    StaleRaised(remarks, stale);
  }

  /** With counters as the normalizer leaves them, a series is qualified exactly when staleness is its only remark. */
  lemma CodesExplainStatus(d: Dataset, occurrence: multiset<Slot>, q: Quality)
    requires Supported(d) && Consistent(d.findings) && Assesses(q, d, occurrence)
    ensures q.status == Qualified <==> OnlyStale(q.codes)
    ensures StaleObserved in q.codes <==> q.stale != []
  {
    var ts := Times(d.candles);
    SameAsOnlyStale(d.findings, Duplicates(ts), Backsteps(ts), TotalOf(q.gaps, ActualMissing), q.stale != [], |ts|);
  }

  /** The reported gaps of a series are determined: no other unmergeable grouping stands for its missing slots. */
  lemma GapsDetermined(d: Dataset, occurrence: multiset<Slot>, p: Quality, q: Quality)
    requires Supported(d) && Assesses(p, d, occurrence) && Assesses(q, d, occurrence)
    ensures p.gaps == q.gaps && p.status == q.status && p.missing == q.missing
  {
    GroupingUnique(p.gaps, q.gaps, Step(d));
  }
}
