/** Runs of at least five candles whose eight quotes never change. */
module CandleStale {
  import opened CandleNormalization
  import opened CandleAggregation

  const STALE_SEQUENCE_MINIMUM := 5

  datatype Stale = Stale(start: int, end: int, count: nat)

  datatype Span = Span(from: nat, to: nat)

  predicate SameQuotes(a: Candle, b: Candle) {
    a.bid == b.bid && a.offer == b.offer
  }

  /** All four bids and all four offers are the same. */
  lemma SameQuotesMeans(a: Candle, b: Candle)
    ensures SameQuotes(a, b) <==>
            && a.bid.open == b.bid.open && a.bid.high == b.bid.high && a.bid.low == b.bid.low && a.bid.close == b.bid.close
            && a.offer.open == b.offer.open && a.offer.high == b.offer.high && a.offer.low == b.offer.low
            && a.offer.close == b.offer.close
  {
  }

  /** A longest stretch of unchanged quotes. */
  ghost predicate IsRun(cs: seq<Candle>, span: Span) {
    && span.from < span.to <= |cs|
    && (forall k :: span.from < k < span.to ==> SameQuotes(cs[k - 1], cs[k]))
    && (span.from > 0 ==> !SameQuotes(cs[span.from - 1], cs[span.from]))
    && (span.to < |cs| ==> !SameQuotes(cs[span.to - 1], cs[span.to]))
  }

  ghost predicate Describes(cs: seq<Candle>, span: Span, found: Stale)
    requires span.from < span.to <= |cs|
  {
    found == Stale(cs[span.from].at, cs[span.to - 1].at, span.to - span.from)
  }

  ghost predicate LongRun(cs: seq<Candle>, span: Span) {
    IsRun(cs, span) && span.to - span.from >= STALE_SEQUENCE_MINIMUM
  }

  /** The findings stand one for one, in order, for the longest stretches of at least five candles that end by limit. */
  ghost predicate ReportsRuns(cs: seq<Candle>, spans: seq<Span>, found: seq<Stale>, limit: int) {
    && |found| == |spans|
    && (forall i :: 0 <= i < |spans| ==> LongRun(cs, spans[i]) && Describes(cs, spans[i], found[i]) && spans[i].to <= limit)
    && (forall i :: 0 < i < |spans| ==> spans[i - 1].to <= spans[i].from)
    && (forall span :: LongRun(cs, span) && span.to <= limit ==> span in spans)
  }

  /** The stretch that starts at start has reached index without a change. */
  ghost predicate Unchanged(cs: seq<Candle>, start: nat, index: nat) {
    && start < index <= |cs|
    && (start > 0 ==> !SameQuotes(cs[start - 1], cs[start]))
    && forall k :: start < k < index ==> SameQuotes(cs[k - 1], cs[k])
  }

  lemma OnlyRun(cs: seq<Candle>, start: nat, index: nat, span: Span)
    requires Unchanged(cs, start, index)
    requires IsRun(cs, span) && start < span.to <= index
    ensures span.from == start && (span.to == index || span.to == |cs|)
  {
    assert start > 0 ==> !SameQuotes(cs[start - 1], cs[start]);
    assert span.from > 0 ==> !SameQuotes(cs[span.from - 1], cs[span.from]);
    assert span.to < |cs| ==> !SameQuotes(cs[span.to - 1], cs[span.to]);
  }

  lemma LongRunsUpTo(cs: seq<Candle>, start: nat, index: nat, span: Span)
    requires Unchanged(cs, start, index) && IsRun(cs, Span(start, index))
    requires LongRun(cs, span) && span.to <= index
    ensures span.to <= start || (span == Span(start, index) && index - start >= STALE_SEQUENCE_MINIMUM)
  {
    if span.to > start {
      OnlyRun(cs, start, index, span);
    }
  }

  lemma KeepReport(cs: seq<Candle>, spans: seq<Span>, found: seq<Stale>, start: nat, index: nat)
    requires ReportsRuns(cs, spans, found, start)
    requires Unchanged(cs, start, index) && IsRun(cs, Span(start, index))
    requires index - start < STALE_SEQUENCE_MINIMUM
    ensures ReportsRuns(cs, spans, found, index)
  {
    forall span | LongRun(cs, span) && span.to <= index
      ensures span in spans
    {
      LongRunsUpTo(cs, start, index, span);
    }
  }

  lemma ExtendReport(cs: seq<Candle>, spans: seq<Span>, found: seq<Stale>, start: nat, index: nat)
    requires ReportsRuns(cs, spans, found, start)
    requires Unchanged(cs, start, index) && IsRun(cs, Span(start, index))
    requires index - start >= STALE_SEQUENCE_MINIMUM
    ensures ReportsRuns(cs, spans + [Span(start, index)], found + [Stale(cs[start].at, cs[index - 1].at, index - start)], index)
  {
    var run := Span(start, index);
    assert LongRun(cs, run);
    forall span | LongRun(cs, span) && span.to <= index
      ensures span in spans + [run]
    {
      LongRunsUpTo(cs, start, index, span);
      assert span.to <= start ==> span in spans;
    }
  }

  method StaleRuns(cs: seq<Candle>) returns (found: seq<Stale>, ghost spans: seq<Span>)
    ensures ReportsRuns(cs, spans, found, |cs|)
  {
    found, spans := [], [];
    if cs == [] {
      return;
    }
    var start := 0;
    for index := 1 to |cs| + 1
      invariant index <= |cs| ==> Unchanged(cs, start, index)
      invariant index > |cs| ==> start == |cs|
      invariant ReportsRuns(cs, spans, found, start)
    {
      if index < |cs| && SameQuotes(cs[index], cs[index - 1]) {
        continue;
      }
      if index - start >= STALE_SEQUENCE_MINIMUM {
        ExtendReport(cs, spans, found, start, index);
        found := found + [Stale(cs[start].at, cs[index - 1].at, index - start)];
        spans := spans + [Span(start, index)];
      } else {
        KeepReport(cs, spans, found, start, index);
      }
      start := index;
    }
  }

  /** Some list of stretches explains the findings. */
  ghost predicate StaleReport(cs: seq<Candle>, found: seq<Stale>) {
    exists spans :: ReportsRuns(cs, spans, found, |cs|)
  }

  method StaleSequences(candles: seq<Candle>) returns (found: seq<Stale>)
    ensures StaleReport(SortByTime(candles), found)
  {
    ghost var spans;
    found, spans := StaleRuns(SortByTime(candles));
  }
}
