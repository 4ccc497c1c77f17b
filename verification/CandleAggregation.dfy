/** Broker second bars of one minute become a minute bar, without inventing a component. */
module CandleAggregation {
  import opened Outcomes
  import opened CandleGaps
  import opened CandleCalendar
  import opened CandleNormalization
  import opened Decimals
  import opened Sets

  datatype AggregationError = NotMinuteAligned

  // ---------------------------------------------------------------- stable sort by time

  function Place(s: seq<Candle>, c: Candle): (r: seq<Candle>)
    ensures multiset(r) == multiset(s) + multiset{c}
    ensures TimesOrdered(s) ==> TimesOrdered(r)
    ensures |r| > 0 && (r[0] == c || (s != [] && r[0] == s[0]))
  {
    if s == [] then [c]
    else if c.at < s[0].at then [c] + s
    else
      assert s == [s[0]] + s[1..];
      [s[0]] + Place(s[1..], c)
  }

  ghost predicate TimesOrdered(s: seq<Candle>) {
    forall i :: 0 < i < |s| ==> s[i - 1].at <= s[i].at
  }

  function SortByTime(cs: seq<Candle>): (r: seq<Candle>)
    ensures multiset(r) == multiset(cs) && TimesOrdered(r)
  {
    if cs == [] then []
    else
      var n := |cs| - 1;
      assert cs == cs[..n] + [cs[n]];
      Place(SortByTime(cs[..n]), cs[n])
  }

  function InMinute(cs: seq<Candle>, start: int): seq<Candle> {
    if cs == [] then []
    else (if start <= cs[0].at < start + MINUTE then [cs[0]] else []) + InMinute(cs[1..], start)
  }

  // ---------------------------------------------------------------- aggregation

  function Highest(ps: seq<real>): (m: real)
    requires ps != []
    ensures m in ps && forall p :: p in ps ==> p <= m
  {
    if |ps| == 1 then ps[0] else assert ps == [ps[0]] + ps[1..]; Max(ps[0], Highest(ps[1..]))
  }

  function Lowest(ps: seq<real>): (m: real)
    requires ps != []
    ensures m in ps && forall p :: p in ps ==> m <= p
  {
    if |ps| == 1 then ps[0] else assert ps == [ps[0]] + ps[1..]; Min(ps[0], Lowest(ps[1..]))
  }

  function Highs(bars: seq<Ohlc>): (ps: seq<real>)
    ensures |ps| == |bars| && forall i :: 0 <= i < |bars| ==> ps[i] == bars[i].high
  {
    seq(|bars|, i requires 0 <= i < |bars| => bars[i].high)
  }

  function Lows(bars: seq<Ohlc>): (ps: seq<real>)
    ensures |ps| == |bars| && forall i :: 0 <= i < |bars| ==> ps[i] == bars[i].low
  {
    seq(|bars|, i requires 0 <= i < |bars| => bars[i].low)
  }

  function Side(bars: seq<Ohlc>): Ohlc
    requires bars != []
  {
    Ohlc(bars[0].open, Highest(Highs(bars)), Lowest(Lows(bars)), bars[|bars| - 1].close)
  }

  function BidBars(cs: seq<Candle>): (bars: seq<Ohlc>)
    ensures |bars| == |cs| && forall i :: 0 <= i < |cs| ==> bars[i] == cs[i].bid
  {
    seq(|cs|, i requires 0 <= i < |cs| => cs[i].bid)
  }

  function OfferBars(cs: seq<Candle>): (bars: seq<Ohlc>)
    ensures |bars| == |cs| && forall i :: 0 <= i < |cs| ==> bars[i] == cs[i].offer
  {
    seq(|cs|, i requires 0 <= i < |cs| => cs[i].offer)
  }

  predicate HasLast(c: Candle) {
    c.last.open.Some? && c.last.high.Some? && c.last.low.Some? && c.last.close.Some?
  }

  function LastBars(cs: seq<Candle>): (bars: seq<Ohlc>)
    requires forall c :: c in cs ==> HasLast(c)
    ensures |bars| == |cs|
  {
    if cs == [] then []
    else
      assert HasLast(cs[0]);
      var last := cs[0].last;
      [Ohlc(last.open.value, last.high.value, last.low.value, last.close.value)] + LastBars(cs[1..])
  }

  function Last(cs: seq<Candle>): LastTraded
    requires cs != []
  {
    if forall c :: c in cs ==> HasLast(c) then
      var bar := Side(LastBars(cs));
      LastTraded(Some(bar.open), Some(bar.high), Some(bar.low), Some(bar.close))
    else LastTraded(None, None, None, None)
  }

  function Volume(cs: seq<Candle>): Option<real> {
    if forall c :: c in cs ==> c.volume.Some? then Some(TotalVolume(cs)) else None
  }

  function TotalVolume(cs: seq<Candle>): real
    requires forall c :: c in cs ==> c.volume.Some?
  {
    if cs == [] then 0.0 else assert cs[0] in cs; cs[0].volume.value + TotalVolume(cs[1..])
  }

  predicate AllSeconds(cs: seq<Candle>, epic: string) {
    forall c :: c in cs ==> c.resolution == Second && c.epic == epic
  }

  function ExpectedSeconds(start: int): (ts: seq<int>)
    ensures |ts| == 60 && forall k :: 0 <= k < 60 ==> ts[k] == start + SECOND * k
  {
    seq(60, k => start + SECOND * k)
  }

  /** utcText stands for the printed form of an instant. */
  function Build(ordered: seq<Candle>, start: int, epic: string, file: string, utcText: int -> string): Candle
    requires ordered != []
  {
    Candle(epic, Minute, start, Side(BidBars(ordered)), Side(OfferBars(ordered)), Last(ordered), Volume(ordered),
           None, utcText(start), 0, 0, file, DerivedFromSeconds, Some(|ordered|))
  }

  predicate Usable(ordered: seq<Candle>, start: int, epic: string, everySecond: bool) {
    && ordered != []
    && |Distinct(Times(ordered))| == |ordered|
    && AllSeconds(ordered, epic)
    && (everySecond ==> |ordered| == 60 && Times(ordered) == ExpectedSeconds(start))
  }

  function AggregateSecondCandles(cs: seq<Candle>, start: int, epic: string, file: string, everySecond: bool,
                                  utcText: int -> string): Result<Option<Candle>, AggregationError>
  {
    if start % MINUTE != 0 then Err(NotMinuteAligned)
    else
      var ordered := SortByTime(InMinute(cs, start));
      if Usable(ordered, start, epic, everySecond) then Ok(Some(Build(ordered, start, epic, file, utcText))) else Ok(None)
  }

  // ---------------------------------------------------------------- validity is kept

  lemma SideValid(bars: seq<Ohlc>)
    requires bars != [] && forall i :: 0 <= i < |bars| ==> ValidGeometry(bars[i])
    ensures ValidGeometry(Side(bars))
  {
    var last := |bars| - 1;
    assert Highs(bars)[0] in Highs(bars) && Highs(bars)[last] in Highs(bars);
    assert Lows(bars)[0] in Lows(bars) && Lows(bars)[last] in Lows(bars);
    assert ValidGeometry(bars[0]) && ValidGeometry(bars[last]);
  }

  lemma SidesUncrossed(bid: seq<Ohlc>, offer: seq<Ohlc>)
    requires bid != [] && |bid| == |offer|
    requires forall i :: 0 <= i < |bid| ==> Uncrossed(bid[i], offer[i])
    ensures Uncrossed(Side(bid), Side(offer))
  {
    var i :| 0 <= i < |bid| && Highs(bid)[i] == Highest(Highs(bid));
    assert Uncrossed(bid[i], offer[i]) && Highs(offer)[i] in Highs(offer);
    var j :| 0 <= j < |offer| && Lows(offer)[j] == Lowest(Lows(offer));
    assert Uncrossed(bid[j], offer[j]) && Lows(bid)[j] in Lows(bid);
    assert Uncrossed(bid[0], offer[0]) && Uncrossed(bid[|bid| - 1], offer[|bid| - 1]);
  }

  lemma {:induction false} InMinuteMembers(cs: seq<Candle>, start: int, c: Candle)
    ensures c in InMinute(cs, start) <==> c in cs && start <= c.at < start + MINUTE
  {
    if cs != [] {
      assert cs == [cs[0]] + cs[1..];
      InMinuteMembers(cs[1..], start, c);
    }
  }

  lemma SortMembers(cs: seq<Candle>, c: Candle)
    ensures c in SortByTime(cs) <==> c in cs
  {
    assert c in SortByTime(cs) <==> c in multiset(SortByTime(cs));
  }

  /** Valid seconds make a valid minute: both geometries hold and no field is crossed. */
  lemma AggregationKeepsValidity(cs: seq<Candle>, start: int, epic: string, file: string, everySecond: bool,
                                 utcText: int -> string)
    requires forall c :: c in cs && start <= c.at < start + MINUTE ==> ValidCandle(c)
    ensures var r := AggregateSecondCandles(cs, start, epic, file, everySecond, utcText);
            r.Ok? && r.value.Some? ==> ValidCandle(r.value.value)
  {
    var ordered := SortByTime(InMinute(cs, start));
    forall c | c in ordered
      ensures ValidCandle(c)
    {
      SortMembers(InMinute(cs, start), c);
      InMinuteMembers(cs, start, c);
    }
    if ordered != [] {
      forall i | 0 <= i < |ordered|
        ensures ValidCandle(ordered[i])
      {
        assert ordered[i] in ordered;
      }
      SideValid(BidBars(ordered));
      SideValid(OfferBars(ordered));
      SidesUncrossed(BidBars(ordered), OfferBars(ordered));
    }
  }

  // ---------------------------------------------------------------- what the minute bar holds

  ghost predicate SpansBars(bar: Ohlc, bars: seq<Ohlc>) {
    && (forall i :: 0 <= i < |bars| ==> bar.low <= bars[i].low && bars[i].high <= bar.high)
    && (exists i :: 0 <= i < |bars| && bars[i].high == bar.high)
    && (exists i :: 0 <= i < |bars| && bars[i].low == bar.low)
  }

  lemma SideSpans(bars: seq<Ohlc>)
    requires bars != []
    ensures SpansBars(Side(bars), bars)
  {
    forall i | 0 <= i < |bars|
      ensures Side(bars).low <= bars[i].low && bars[i].high <= Side(bars).high
    {
      assert Highs(bars)[i] in Highs(bars) && Lows(bars)[i] in Lows(bars);
    }
    var i :| 0 <= i < |bars| && Highs(bars)[i] == Highest(Highs(bars));
    var j :| 0 <= j < |bars| && Lows(bars)[j] == Lowest(Lows(bars));
    assert bars[i].high == Side(bars).high && bars[j].low == Side(bars).low;
  }

  lemma {:induction false} OrderedApart(s: seq<Candle>, i: nat, j: nat)
    requires TimesOrdered(s) && i <= j < |s|
    ensures s[i].at <= s[j].at
    decreases j - i
  {
    if i < j {
      OrderedApart(s, i, j - 1);
    }
  }

  ghost predicate FromFirstToLast(s: seq<Candle>) {
    forall i :: 0 <= i < |s| ==> s[0].at <= s[i].at <= s[|s| - 1].at
  }

  lemma OrderedFromFirst(s: seq<Candle>)
    requires TimesOrdered(s)
    ensures FromFirstToLast(s)
  {
    forall i | 0 <= i < |s|
      ensures s[0].at <= s[i].at <= s[|s| - 1].at
    {
      OrderedApart(s, 0, i);
      OrderedApart(s, i, |s| - 1);
    }
  }

  /** Exactly the given seconds of the minute. */
  ghost predicate SecondsOf(ordered: seq<Candle>, cs: seq<Candle>, start: int) {
    forall c :: c in ordered <==> c in cs && start <= c.at < start + MINUTE
  }

  lemma SortedSeconds(cs: seq<Candle>, start: int)
    ensures SecondsOf(SortByTime(InMinute(cs, start)), cs, start)
  {
    var inside := InMinute(cs, start);
    var ordered := SortByTime(inside);
    forall c
      ensures c in ordered <==> c in cs && start <= c.at < start + MINUTE
    {
      SortMembers(inside, c);
      InMinuteMembers(cs, start, c);
    }
  }

  /** It opens at the earliest second, closes at the latest, and its extremes are the extremes of its seconds. */
  ghost predicate BarOf(bar: Candle, ordered: seq<Candle>, start: int) {
    && ordered != []
    && bar.bid.open == ordered[0].bid.open && bar.bid.close == ordered[|ordered| - 1].bid.close
    && bar.offer.open == ordered[0].offer.open && bar.offer.close == ordered[|ordered| - 1].offer.close
    && SpansBars(bar.bid, BidBars(ordered)) && SpansBars(bar.offer, OfferBars(ordered))
    && bar.at == start && bar.components == Some(|ordered|)
  }

  lemma BuiltBar(ordered: seq<Candle>, start: int, epic: string, file: string, utcText: int -> string)
    requires ordered != []
    ensures BarOf(Build(ordered, start, epic, file, utcText), ordered, start)
  {
    SideSpans(BidBars(ordered));
    SideSpans(OfferBars(ordered));
  }

  /** A minute bar is made of exactly the seconds of its minute, in time order. */
  lemma MinuteBarMeans(cs: seq<Candle>, start: int, epic: string, file: string, everySecond: bool, utcText: int -> string)
    requires var r := AggregateSecondCandles(cs, start, epic, file, everySecond, utcText); r.Ok? && r.value.Some?
    ensures var bar := AggregateSecondCandles(cs, start, epic, file, everySecond, utcText).value.value;
            exists ordered :: SecondsOf(ordered, cs, start) && FromFirstToLast(ordered) && BarOf(bar, ordered, start)
  {
    var ordered := SortByTime(InMinute(cs, start));
    SortedSeconds(cs, start);
    OrderedFromFirst(ordered);
    BuiltBar(ordered, start, epic, file, utcText);
    assert SecondsOf(ordered, cs, start) && FromFirstToLast(ordered) && BarOf(Build(ordered, start, epic, file, utcText), ordered, start);
  }

  // ---------------------------------------------------------------- what else it carries

  lemma {:induction false} LastBarsAt(cs: seq<Candle>, i: nat)
    requires (forall c :: c in cs ==> HasLast(c)) && i < |cs|
    ensures HasLast(cs[i])
    ensures LastBars(cs)[i]
            == Ohlc(cs[i].last.open.value, cs[i].last.high.value, cs[i].last.low.value, cs[i].last.close.value)
  {
    if i > 0 {
      LastBarsAt(cs[1..], i - 1);
    } else {
      assert cs[0] in cs;
    }
  }

  /** Volume of the first n seconds. */
  ghost function VolumeTo(cs: seq<Candle>, n: nat): real
    requires n <= |cs| && forall c :: c in cs ==> c.volume.Some?
  {
    if n == 0 then 0.0 else assert cs[n - 1] in cs; VolumeTo(cs, n - 1) + cs[n - 1].volume.value
  }

  lemma {:induction false} VolumeFromFirst(cs: seq<Candle>, n: nat)
    requires 0 < n <= |cs| && forall c :: c in cs ==> c.volume.Some?
    ensures cs[0] in cs && VolumeTo(cs, n) == cs[0].volume.value + VolumeTo(cs[1..], n - 1)
  {
    assert cs[0] in cs && cs[n - 1] in cs;
    if n > 1 {
      VolumeFromFirst(cs, n - 1);
    }
  }

  lemma {:induction false} TotalIsVolume(cs: seq<Candle>)
    requires forall c :: c in cs ==> c.volume.Some?
    ensures TotalVolume(cs) == VolumeTo(cs, |cs|)
  {
    if cs != [] {
      TotalIsVolume(cs[1..]);
      VolumeFromFirst(cs, |cs|);
    }
  }

  /** A last trade spans those of the seconds: the first to open, the last to close, and the extremes between. */
  ghost predicate LastSpans(last: LastTraded, ordered: seq<Candle>)
    requires ordered != [] && forall i :: 0 <= i < |ordered| ==> HasLast(ordered[i])
  {
    && last.open == ordered[0].last.open && last.close == ordered[|ordered| - 1].last.close
    && last.high.Some? && last.low.Some?
    && (forall i :: 0 <= i < |ordered| ==>
          HasLast(ordered[i]) && last.low.value <= ordered[i].last.low.value && ordered[i].last.high.value <= last.high.value)
    && (exists i :: 0 <= i < |ordered| && ordered[i].last.high == last.high)
    && (exists i :: 0 <= i < |ordered| && ordered[i].last.low == last.low)
  }

  lemma LastMeans(ordered: seq<Candle>)
    requires ordered != [] && forall i :: 0 <= i < |ordered| ==> HasLast(ordered[i])
    ensures (forall c :: c in ordered ==> HasLast(c)) && LastSpans(Last(ordered), ordered)
  {
    var bars := LastBars(ordered);
    SideSpans(bars);
    forall i | 0 <= i < |ordered|
      ensures bars[i] == Ohlc(ordered[i].last.open.value, ordered[i].last.high.value, ordered[i].last.low.value,
                              ordered[i].last.close.value)
    {
      LastBarsAt(ordered, i);
    }
    var i :| 0 <= i < |bars| && bars[i].high == Side(bars).high;
    var j :| 0 <= j < |bars| && bars[j].low == Side(bars).low;
    assert ordered[i].last.high == Last(ordered).high && ordered[j].last.low == Last(ordered).low;
  }

  lemma VolumeMeans(ordered: seq<Candle>)
    ensures Volume(ordered).Some? <==> forall i :: 0 <= i < |ordered| ==> ordered[i].volume.Some?
    ensures Volume(ordered).Some? ==>
              (forall c :: c in ordered ==> c.volume.Some?) && Volume(ordered).value == VolumeTo(ordered, |ordered|)
  {
    if forall i :: 0 <= i < |ordered| ==> ordered[i].volume.Some? {
      TotalIsVolume(ordered);
    } else {
      var i :| 0 <= i < |ordered| && ordered[i].volume.None?;
      assert ordered[i] in ordered;
    }
  }

  lemma NoLast(ordered: seq<Candle>, i: nat)
    requires i < |ordered| && !HasLast(ordered[i])
    ensures Last(ordered) == LastTraded(None, None, None, None)
  {
    assert ordered[i] in ordered;
  }

  /**
   Last trades and volume are those of the seconds if every second has them, and absent otherwise; the
   bar is a minute of its instrument, derived, at its start.
   */
  lemma MinuteBarCarries(ordered: seq<Candle>, start: int, epic: string, file: string, utcText: int -> string)
    requires ordered != []
    ensures var bar := Build(ordered, start, epic, file, utcText);
            && (if forall i :: 0 <= i < |ordered| ==> HasLast(ordered[i]) then LastSpans(bar.last, ordered)
                else bar.last == LastTraded(None, None, None, None))
            && (bar.volume.Some? <==> forall i :: 0 <= i < |ordered| ==> ordered[i].volume.Some?)
            && (bar.volume.Some? ==>
                  (forall c :: c in ordered ==> c.volume.Some?) && bar.volume.value == VolumeTo(ordered, |ordered|))
            && bar.epic == epic && bar.resolution == Minute && bar.at == start && bar.file == file
            && bar.sourceTimestamp.None? && bar.sourceTimestampUtc == utcText(start)
            && bar.page == bar.index == 0 && bar.provenance == DerivedFromSeconds && bar.components == Some(|ordered|)
  {
    if forall i :: 0 <= i < |ordered| ==> HasLast(ordered[i]) {
      LastMeans(ordered);
    } else {
      var i :| 0 <= i < |ordered| && !HasLast(ordered[i]);
      NoLast(ordered, i);
    }
    VolumeMeans(ordered);
  }

  // ---------------------------------------------------------------- equal times keep their order

  ghost function AtTime(cs: seq<Candle>, t: int): seq<Candle> {
    if cs == [] then [] else AtTime(cs[..|cs| - 1], t) + if cs[|cs| - 1].at == t then [cs[|cs| - 1]] else []
  }

  lemma {:induction false} AtTimeConcat(a: seq<Candle>, b: seq<Candle>, t: int)
    ensures AtTime(a + b, t) == AtTime(a, t) + AtTime(b, t)
  {
    if b == [] {
      assert a + b == a;
    } else {
      assert (a + b)[..|a + b| - 1] == a + b[..|b| - 1];
      AtTimeConcat(a, b[..|b| - 1], t);
    }
  }

  lemma {:induction false} NoneLater(s: seq<Candle>, t: int)
    requires forall i :: 0 <= i < |s| ==> s[i].at > t
    ensures AtTime(s, t) == []
  {
    if s != [] {
      NoneLater(s[..|s| - 1], t);
    }
  }

  lemma PlacedFirst(s: seq<Candle>, c: Candle, t: int)
    requires TimesOrdered(s) && (s == [] || c.at < s[0].at)
    ensures AtTime([c] + s, t) == AtTime(s, t) + AtTime([c], t)
  {
    AtTimeConcat([c], s, t);
    if c.at == t {
      forall i | 0 <= i < |s|
        ensures s[i].at > t
      {
        OrderedApart(s, 0, i);
      }
      NoneLater(s, t);
    } else {
      assert AtTime([c], t) == [];
    }
  }

  lemma PlaceIs(s: seq<Candle>, c: Candle)
    ensures Place(s, c) == if s == [] || c.at < s[0].at then [c] + s else [s[0]] + Place(s[1..], c)
  {
    assert [c] + [] == [c];
  }

  lemma {:induction false} PlaceStable(s: seq<Candle>, c: Candle, t: int)
    requires TimesOrdered(s)
    ensures AtTime(Place(s, c), t) == AtTime(s, t) + AtTime([c], t)
  {
    PlaceIs(s, c);
    if s == [] || c.at < s[0].at {
      PlacedFirst(s, c, t);
    } else {
      PlaceStable(s[1..], c, t);
      PlacedLater(s, c, t, Place(s[1..], c));
    }
  }

  lemma PlacedLater(s: seq<Candle>, c: Candle, t: int, placed: seq<Candle>)
    requires s != [] && AtTime(placed, t) == AtTime(s[1..], t) + AtTime([c], t)
    ensures AtTime([s[0]] + placed, t) == AtTime(s, t) + AtTime([c], t)
  {
    assert s == [s[0]] + s[1..];
    AtTimeConcat([s[0]], s[1..], t);
    AtTimeConcat([s[0]], placed, t);
  }

  lemma SortIs(cs: seq<Candle>)
    requires cs != []
    ensures SortByTime(cs) == Place(SortByTime(cs[..|cs| - 1]), cs[|cs| - 1])
  {
  }

  /** Sorting keeps candles of the same instant in the order in which they came. */
  lemma {:induction false} SortIsStable(cs: seq<Candle>, t: int)
    ensures AtTime(SortByTime(cs), t) == AtTime(cs, t)
  {
    if cs != [] {
      var n := |cs| - 1;
      SortIs(cs);
      SortIsStable(cs[..n], t);
      PlaceStable(SortByTime(cs[..n]), cs[n], t);
      StableNext(cs, t);
    }
  }

  lemma StableNext(cs: seq<Candle>, t: int)
    requires cs != []
    ensures AtTime(cs, t) == AtTime(cs[..|cs| - 1], t) + AtTime([cs[|cs| - 1]], t)
  {
    assert cs == cs[..|cs| - 1] + [cs[|cs| - 1]];
    AtTimeConcat(cs[..|cs| - 1], [cs[|cs| - 1]], t);
  }

  // ---------------------------------------------------------------- input order does not matter

  lemma {:induction false} InMinuteCounts(cs: seq<Candle>, start: int, c: Candle)
    ensures multiset(InMinute(cs, start))[c] == if start <= c.at < start + MINUTE then multiset(cs)[c] else 0
  {
    if cs != [] {
      assert cs == [cs[0]] + cs[1..];
      InMinuteCounts(cs[1..], start, c);
    }
  }

  ghost predicate StrictTimes(s: seq<Candle>) {
    forall i, j :: 0 <= i < j < |s| ==> s[i].at < s[j].at
  }

  /** Candles with distinct times have one order. */
  lemma {:induction false} SortedUnique(a: seq<Candle>, b: seq<Candle>)
    requires StrictTimes(a) && StrictTimes(b)
    requires forall c :: c in a <==> c in b
    ensures a == b
  {
    assert a != [] ==> a[0] in a && a[0] in b;
    assert b != [] ==> b[0] in b && b[0] in a;
    if a != [] {
      assert a[0] == b[0];
      assert a == [a[0]] + a[1..] && b == [b[0]] + b[1..];
      forall c
        ensures c in a[1..] <==> c in b[1..]
      {
        assert c in a[1..] ==> c in a && c.at > a[0].at;
        assert c in b[1..] ==> c in b && c.at > b[0].at;
      }
      SortedUnique(a[1..], b[1..]);
    }
  }

  ghost predicate NoRepeat(ts: seq<int>) {
    forall i, j :: 0 <= i < j < |ts| ==> ts[i] != ts[j]
  }

  lemma NoRepeatRest(ts: seq<int>)
    requires ts != []
    ensures NoRepeat(ts) <==> NoRepeat(ts[1..]) && ts[0] !in ts[1..]
  {
    var rest := ts[1..];
    assert ts == [ts[0]] + rest;
    if NoRepeat(ts) {
      assert forall j :: 0 <= j < |rest| ==> rest[j] == ts[j + 1];
    }
    if NoRepeat(rest) && ts[0] !in rest {
      forall i, j | 0 <= i < j < |ts|
        ensures ts[i] != ts[j]
      {
        assert ts[j] == rest[j - 1];
        assert i > 0 ==> ts[i] == rest[i - 1];
      }
    }
  }

  lemma {:induction false} DistinctSize(ts: seq<int>)
    ensures |Distinct(ts)| <= |ts|
    ensures |Distinct(ts)| == |ts| <==> NoRepeat(ts)
  {
    if ts != [] {
      var first, rest := ts[0], ts[1..];
      DistinctSize(rest);
      NoRepeatRest(ts);
      assert ts == [first] + rest;
      assert Distinct(ts) == {first} + Distinct(rest);
      assert first in rest ==> {first} + Distinct(rest) == Distinct(rest);
    }
  }

  lemma SameTimes(a: seq<Candle>, b: seq<Candle>)
    requires multiset(a) == multiset(b)
    ensures |a| == |b| && Distinct(Times(a)) == Distinct(Times(b))
  {
    assert |multiset(a)| == |a| && |multiset(b)| == |b|;
    TimesWithin(a, b);
    TimesWithin(b, a);
  }

  lemma TimesWithin(a: seq<Candle>, b: seq<Candle>)
    requires multiset(a) == multiset(b)
    ensures Distinct(Times(a)) <= Distinct(Times(b))
  {
    forall t | t in Times(a)
      ensures t in Times(b)
    {
      var i :| 0 <= i < |a| && Times(a)[i] == t;
      assert a[i] in multiset(b);
      var j :| 0 <= j < |b| && b[j] == a[i];
      assert Times(b)[j] == t;
    }
  }

  lemma SortedStrict(s: seq<Candle>)
    requires TimesOrdered(s) && |Distinct(Times(s))| == |s|
    ensures StrictTimes(s) && Increasing(Times(s))
  {
    DistinctSize(Times(s));
    forall i, j | 0 <= i < j < |s|
      ensures Times(s)[i] < Times(s)[j]
    {
      OrderedApart(s, i, j);
    }
    assert forall i :: 0 <= i < |s| ==> Times(s)[i] == s[i].at;
  }

  lemma SameSort(a: seq<Candle>, b: seq<Candle>)
    requires multiset(a) == multiset(b)
    requires |Distinct(Times(SortByTime(a)))| == |SortByTime(a)|
    ensures SortByTime(a) == SortByTime(b)
  {
    var x, y := SortByTime(a), SortByTime(b);
    SameTimes(x, y);
    SortedStrict(x);
    SortedStrict(y);
    assert forall c :: c in x <==> c in multiset(x);
    assert forall c :: c in y <==> c in multiset(y);
    SortedUnique(x, y);
  }

  /** The minute bar, or its refusal, depends on which second bars are given and not on their order. */
  lemma AggregationIgnoresOrder(a: seq<Candle>, b: seq<Candle>, start: int, epic: string, file: string,
                                everySecond: bool, utcText: int -> string)
    requires multiset(a) == multiset(b)
    ensures AggregateSecondCandles(a, start, epic, file, everySecond, utcText)
            == AggregateSecondCandles(b, start, epic, file, everySecond, utcText)
  {
    var x, y := InMinute(a, start), InMinute(b, start);
    forall c
      ensures multiset(x)[c] == multiset(y)[c]
    {
      InMinuteCounts(a, start, c);
      InMinuteCounts(b, start, c);
    }
    assert multiset(x) == multiset(y);
    if |Distinct(Times(SortByTime(x)))| == |SortByTime(x)| {
      SameSort(x, y);
    } else if |Distinct(Times(SortByTime(y)))| == |SortByTime(y)| {
      SameSort(y, x);
    }
  }

  // ---------------------------------------------------------------- strict mode

  lemma {:induction false} SameElementsSameOrder(a: seq<int>, b: seq<int>)
    requires Increasing(a) && Increasing(b)
    requires forall t :: t in a <==> t in b
    ensures a == b
  {
    assert a != [] ==> a[0] in a && a[0] in b;
    assert b != [] ==> b[0] in b && b[0] in a;
    if a != [] {
      assert a[0] == b[0];
      assert a == [a[0]] + a[1..] && b == [b[0]] + b[1..];
      forall t
        ensures t in a[1..] <==> t in b[1..]
      {
        assert t in a[1..] ==> t in a && t > a[0];
        assert t in b[1..] ==> t in b && t > b[0];
      }
      SameElementsSameOrder(a[1..], b[1..]);
    }
  }

  /** The bars of the minute are exactly its sixty seconds, one each, for this instrument. */
  ghost predicate CompleteMinute(cs: seq<Candle>, start: int, epic: string) {
    var inside := InMinute(cs, start);
    && AllSeconds(inside, epic)
    && |inside| == 60
    && forall k :: 0 <= k < 60 ==> start + SECOND * k in Times(inside)
  }

  lemma StrictNeedsAll(cs: seq<Candle>, start: int, epic: string)
    requires Usable(SortByTime(InMinute(cs, start)), start, epic, true)
    ensures CompleteMinute(cs, start, epic)
  {
    var inside := InMinute(cs, start);
    var s := SortByTime(inside);
    SameTimes(s, inside);
    forall c | c in inside
      ensures c.resolution == Second && c.epic == epic
    {
      SortMembers(inside, c);
    }
    forall k | 0 <= k < 60
      ensures start + SECOND * k in Times(inside)
    {
      assert Times(s)[k] == start + SECOND * k;
      assert start + SECOND * k in Distinct(Times(s));
    }
  }

  lemma ExpectedIncreasing(start: int)
    ensures Increasing(ExpectedSeconds(start)) && |Distinct(ExpectedSeconds(start))| == 60
  {
    DistinctSize(ExpectedSeconds(start));
  }

  lemma AllIsEnough(cs: seq<Candle>, start: int, epic: string)
    requires CompleteMinute(cs, start, epic)
    ensures Usable(SortByTime(InMinute(cs, start)), start, epic, true)
  {
    var inside := InMinute(cs, start);
    var s := SortByTime(inside);
    SameTimes(s, inside);
    forall c | c in s
      ensures c.resolution == Second && c.epic == epic
    {
      SortMembers(inside, c);
    }
    ExpectedIncreasing(start);
    var wanted, have := Distinct(ExpectedSeconds(start)), Distinct(Times(s));
    assert wanted <= have;
    DistinctSize(Times(s));
    SubsetSize(wanted, have);
    SortedStrict(s);
    forall t
      ensures t in Times(s) <==> t in ExpectedSeconds(start)
    {
      assert t in Times(s) <==> t in have;
      assert t in ExpectedSeconds(start) <==> t in wanted;
    }
    SameElementsSameOrder(Times(s), ExpectedSeconds(start));
  }

  /** Strict mode yields a bar exactly for a complete minute. */
  lemma StrictIffComplete(cs: seq<Candle>, start: int, epic: string, file: string, utcText: int -> string)
    requires start % MINUTE == 0
    ensures var r := AggregateSecondCandles(cs, start, epic, file, true, utcText);
            r.Ok? && (r.value.Some? <==> CompleteMinute(cs, start, epic))
  {
    if Usable(SortByTime(InMinute(cs, start)), start, epic, true) {
      StrictNeedsAll(cs, start, epic);
    }
    if CompleteMinute(cs, start, epic) {
      AllIsEnough(cs, start, epic);
    }
  }

  /** The minute holds a second, no two of the same instant, and only seconds of this instrument. */
  ghost predicate SomeSeconds(cs: seq<Candle>, start: int, epic: string) {
    var inside := InMinute(cs, start);
    inside != [] && AllSeconds(inside, epic) && NoRepeat(Times(inside))
  }

  lemma UsableLoosely(inside: seq<Candle>, start: int, epic: string)
    ensures Usable(SortByTime(inside), start, epic, false)
            <==> inside != [] && AllSeconds(inside, epic) && NoRepeat(Times(inside))
  {
    var s := SortByTime(inside);
    SameTimes(s, inside);
    DistinctSize(Times(inside));
    SameSeconds(s, inside, epic);
  }

  lemma SameSeconds(a: seq<Candle>, b: seq<Candle>, epic: string)
    requires multiset(a) == multiset(b)
    ensures AllSeconds(a, epic) <==> AllSeconds(b, epic)
  {
    assert forall c :: c in a <==> c in multiset(a);
    assert forall c :: c in b <==> c in multiset(b);
  }

  /** Outside strict mode any such seconds make a bar; a start inside a minute is an error in both modes. */
  lemma LooseIffSomeSeconds(cs: seq<Candle>, start: int, epic: string, file: string, everySecond: bool, utcText: int -> string)
    ensures AggregateSecondCandles(cs, start, epic, file, everySecond, utcText).Err? <==> start % 60_000_000 != 0
    ensures var r := AggregateSecondCandles(cs, start, epic, file, false, utcText);
            r.Ok? ==> (r.value.Some? <==> SomeSeconds(cs, start, epic))
  {
    UsableLoosely(InMinute(cs, start), start, epic);
  }
}
