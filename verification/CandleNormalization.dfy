/** One broker candle becomes a canonical candle or a counted rejection. */
module CandleNormalization {
  import opened Outcomes
  import opened Decimals
  import opened CandleGaps
  import opened CandleCalendar
  import Json

  type Document = Json.Value<string>

  datatype Resolution = Hour | Minute15 | Minute5 | Minute | Second | Unsupported(name: string)

  function Interval(r: Resolution): Option<int> {
    match r
    case Hour => Some(HOUR)
    case Minute15 => Some(15 * MINUTE)
    case Minute5 => Some(5 * MINUTE)
    case Minute => Some(MINUTE)
    case Second => Some(SECOND)
    case Unsupported(_) => None
  }

  /** A second is a million microseconds, and each resolution's slots fill those of the next coarser one. */
  lemma IntervalsNest()
    ensures Interval(Second) == Some(1_000_000)
    ensures Interval(Minute) == Some(60 * Interval(Second).value) && Interval(Minute5) == Some(5 * Interval(Minute).value)
    ensures Interval(Minute15) == Some(3 * Interval(Minute5).value) && Interval(Hour) == Some(4 * Interval(Minute15).value)
  {
  }

  datatype Ohlc = Ohlc(open: real, high: real, low: real, close: real)

  datatype LastTraded = LastTraded(open: Option<real>, high: Option<real>, low: Option<real>, close: Option<real>)

  datatype Provenance = Native | DerivedFromSeconds

  datatype Candle = Candle(
    epic: string,
    resolution: Resolution,
    at: int,
    bid: Ohlc,
    offer: Ohlc,
    last: LastTraded,
    volume: Option<real>,
    sourceTimestamp: Option<string>,
    sourceTimestampUtc: string,
    page: int,
    index: int,
    file: string,
    provenance: Provenance,
    components: Option<int>)

  datatype Findings = Findings(
    raw: nat,
    rejected: nat,
    invalidOhlc: nat,
    crossed: nat,
    zeroOrNegativeSpread: nat,
    timezone: nat,
    boundary: nat,
    outside: nat)

  const EMPTY_FINDINGS := Findings(0, 0, 0, 0, 0, 0, 0, 0)

  function Plus(a: Findings, b: Findings): Findings {
    Findings(a.raw + b.raw, a.rejected + b.rejected, a.invalidOhlc + b.invalidOhlc, a.crossed + b.crossed,
             a.zeroOrNegativeSpread + b.zeroOrNegativeSpread, a.timezone + b.timezone, a.boundary + b.boundary,
             a.outside + b.outside)
  }

  // ---------------------------------------------------------------- reading numbers

  function Positive(v: Document): Option<real> {
    if Json.IsNumber(v) && Json.AsReal(v) > 0.0 then Some(Json.AsReal(v)) else None
  }

  function OptionalNonnegative(v: Document): Option<real> {
    if Json.IsNumber(v) && Json.AsReal(v) >= 0.0 then Some(Json.AsReal(v)) else None
  }

  datatype Block = Block(bid: real, offer: real, last: Option<real>)

  function PriceBlock(v: Document): Option<Block> {
    if !v.Object? then None
    else
      var bid, offer, last := Positive(Json.Get(v, "bid")), Positive(Json.Get(v, "ask")), Positive(Json.Get(v, "lastTraded"));
      if !Json.Get(v, "lastTraded").Null? && last.None? then None
      else if bid.Some? && offer.Some? then Some(Block(bid.value, offer.value, last))
      else None
  }

  predicate ValidGeometry(p: Ohlc) {
    p.low <= Min(p.open, p.close) <= Max(p.open, p.close) <= p.high
  }

  /** The low is at or below, and the high at or above, every other price. */
  lemma GeometryMeans(p: Ohlc)
    ensures ValidGeometry(p) <==> p.low <= p.open <= p.high && p.low <= p.close <= p.high
  {
  }

  datatype Reason = TimezoneAmbiguity | InvalidOhlc | BoundaryMismatch | OutsideRange | Crossed | ZeroOrNegativeSpread

  const REJECTING := {TimezoneAmbiguity, BoundaryMismatch, OutsideRange, InvalidOhlc, Crossed}

  function One(b: bool): nat {
    if b then 1 else 0
  }

  function TimeReasons(at: Option<int>, interval: int, start: int, end: int): set<Reason>
    requires interval > 0
  {
    match at
    case None => {TimezoneAmbiguity}
    case Some(t) =>
      (if t % interval != 0 then {BoundaryMismatch} else {}) + (if start <= t < end then {} else {OutsideRange})
  }

  function SpreadReasons(bid: Ohlc, offer: Ohlc): set<Reason> {
    var spreads := [offer.open - bid.open, offer.high - bid.high, offer.low - bid.low, offer.close - bid.close];
    if exists s :: s in spreads && s < 0.0 then {Crossed, ZeroOrNegativeSpread}
    else if 0.0 in spreads then {ZeroOrNegativeSpread}
    else {}
  }

  function BlockReasons(blocks: seq<Option<Block>>): set<Reason>
    requires |blocks| == 4
  {
    if None in blocks then {InvalidOhlc}
    else
      var bid, offer := Bids(blocks), Offers(blocks);
      (if !ValidGeometry(bid) || !ValidGeometry(offer) then {InvalidOhlc} else {}) + SpreadReasons(bid, offer)
  }

  function Bids(blocks: seq<Option<Block>>): Ohlc
    requires |blocks| == 4 && None !in blocks
  {
    Ohlc(blocks[0].value.bid, blocks[1].value.bid, blocks[2].value.bid, blocks[3].value.bid)
  }

  function Offers(blocks: seq<Option<Block>>): Ohlc
    requires |blocks| == 4 && None !in blocks
  {
    Ohlc(blocks[0].value.offer, blocks[1].value.offer, blocks[2].value.offer, blocks[3].value.offer)
  }

  function Counted(reasons: set<Reason>): Findings {
    Findings(1, One(reasons * REJECTING != {}), One(InvalidOhlc in reasons), One(Crossed in reasons),
             One(ZeroOrNegativeSpread in reasons), One(TimezoneAmbiguity in reasons), One(BoundaryMismatch in reasons),
             One(OutsideRange in reasons))
  }

  /** What one candle request fixes for every candle of its answer. */
  datatype Request = Request(epic: string, resolution: Resolution, start: int, end: int)

  datatype Origin = Origin(page: int, index: int, file: string)

  function Blocks(value: Document): (blocks: seq<Option<Block>>)
    requires value.Object?
    ensures |blocks| == 4
  {
    [PriceBlock(Json.Get(value, "openPrice")), PriceBlock(Json.Get(value, "highPrice")),
     PriceBlock(Json.Get(value, "lowPrice")), PriceBlock(Json.Get(value, "closePrice"))]
  }

  /** parse stands for reading the broker's explicitly UTC timestamp text. */
  function Reasons(value: Document, request: Request, parse: Document -> Option<int>): set<Reason>
    requires value.Object? && Interval(request.resolution).Some?
  {
    var volume := Json.Get(value, "lastTradedVolume");
    TimeReasons(parse(Json.Get(value, "snapshotTimeUTC")), Interval(request.resolution).value, request.start, request.end)
    + BlockReasons(Blocks(value))
    + (if !volume.Null? && OptionalNonnegative(volume).None? then {InvalidOhlc} else {})
  }

  function TextOf(v: Document): Option<string> {
    if v.Text? then Some(v.text) else None
  }

  function NormalizeCandle(value: Document, request: Request, origin: Origin, parse: Document -> Option<int>)
    : (Option<Candle>, Findings)
  {
    if !value.Object? || Interval(request.resolution).None? then (None, Findings(1, 1, 1, 0, 0, 0, 0, 0))
    else
      var reasons := Reasons(value, request, parse);
      var blocks := Blocks(value);
      var at := parse(Json.Get(value, "snapshotTimeUTC"));
      if reasons * REJECTING != {} || at.None? || None in blocks then (None, Counted(reasons))
      else
        var stamp := Json.Get(value, "snapshotTimeUTC");
        (Some(Candle(
                request.epic, request.resolution, at.value, Bids(blocks), Offers(blocks),
                LastTraded(blocks[0].value.last, blocks[1].value.last, blocks[2].value.last, blocks[3].value.last),
                OptionalNonnegative(Json.Get(value, "lastTradedVolume")),
                TextOf(Json.Get(value, "snapshotTime")), if stamp.Text? then stamp.text else "",
                origin.page, origin.index, origin.file, Native, None)),
         Counted(reasons))
  }

  // ---------------------------------------------------------------- what is accepted

  ghost predicate Uncrossed(bid: Ohlc, offer: Ohlc) {
    bid.open <= offer.open && bid.high <= offer.high && bid.low <= offer.low && bid.close <= offer.close
  }

  /** The offer above the bid in all four fields. */
  ghost predicate Apart(bid: Ohlc, offer: Ohlc) {
    bid.open < offer.open && bid.high < offer.high && bid.low < offer.low && bid.close < offer.close
  }

  ghost predicate AllPositive(p: Ohlc) {
    p.open > 0.0 && p.high > 0.0 && p.low > 0.0 && p.close > 0.0
  }

  /** Valid geometry on both sides, and bid not above offer in any of the four fields. */
  ghost predicate ValidCandle(c: Candle) {
    ValidGeometry(c.bid) && ValidGeometry(c.offer) && Uncrossed(c.bid, c.offer)
  }

  lemma SpreadsUncrossed(bid: Ohlc, offer: Ohlc)
    ensures Crossed in SpreadReasons(bid, offer) <==> !Uncrossed(bid, offer)
    ensures ZeroOrNegativeSpread in SpreadReasons(bid, offer) <==> !Apart(bid, offer)
  {
    var spreads := [offer.open - bid.open, offer.high - bid.high, offer.low - bid.low, offer.close - bid.close];
    assert spreads[0] in spreads && spreads[1] in spreads && spreads[2] in spreads && spreads[3] in spreads;
  }

  // ---------------------------------------------------------------- by the paths of the document

  /** A whole or fractional number; a truth value is none. */
  ghost function NumberOf(v: Document): Option<real> {
    if v.Integer? then Some(v.whole as real) else if v.Number? then Some(v.number) else None
  }

  ghost predicate PositiveNumber(v: Document) {
    NumberOf(v).Some? && NumberOf(v).value > 0.0
  }

  /** A price object with a positive bid and ask, and a positive last trade if it has one. */
  ghost predicate SoundPrice(price: Document) {
    && price.Object?
    && PositiveNumber(Json.Get(price, "bid")) && PositiveNumber(Json.Get(price, "ask"))
    && (Json.Get(price, "lastTraded").Null? || PositiveNumber(Json.Get(price, "lastTraded")))
  }

  ghost predicate SoundPrices(value: Document) {
    && value.Object?
    && SoundPrice(Json.Get(value, "openPrice")) && SoundPrice(Json.Get(value, "highPrice"))
    && SoundPrice(Json.Get(value, "lowPrice")) && SoundPrice(Json.Get(value, "closePrice"))
  }

  /** The number at a member of a member. */
  ghost function NumberAt(value: Document, price: string, side: string): real {
    if value.Object? && Json.Get(value, price).Object? && NumberOf(Json.Get(Json.Get(value, price), side)).Some?
    then NumberOf(Json.Get(Json.Get(value, price), side)).value else 0.0
  }

  /** The last trade of a price object, when it has one. */
  ghost function LastAt(value: Document, price: string): Option<real> {
    if value.Object? && Json.Get(value, price).Object? && PositiveNumber(Json.Get(Json.Get(value, price), "lastTraded"))
    then Some(NumberAt(value, price, "lastTraded")) else None
  }

  ghost function SideOf(value: Document, side: string): Ohlc {
    Ohlc(NumberAt(value, "openPrice", side), NumberAt(value, "highPrice", side),
         NumberAt(value, "lowPrice", side), NumberAt(value, "closePrice", side))
  }

  ghost predicate SoundVolume(value: Document)
    requires value.Object?
  {
    var volume := Json.Get(value, "lastTradedVolume");
    volume.Null? || (NumberOf(volume).Some? && NumberOf(volume).value >= 0.0)
  }

  lemma PriceBlockReads(price: Document)
    ensures PriceBlock(price).Some? <==> SoundPrice(price)
    ensures PriceBlock(price).Some? ==>
              var b := PriceBlock(price).value;
              && Some(b.bid) == NumberOf(Json.Get(price, "bid")) && Some(b.offer) == NumberOf(Json.Get(price, "ask"))
              && (b.last.Some? <==> PositiveNumber(Json.Get(price, "lastTraded")))
              && (b.last.Some? ==> b.last == NumberOf(Json.Get(price, "lastTraded")))
  {
  }

  lemma BlocksRead(value: Document)
    requires value.Object?
    ensures None !in Blocks(value) <==> SoundPrices(value)
    ensures None !in Blocks(value) ==> Bids(Blocks(value)) == SideOf(value, "bid") && Offers(Blocks(value)) == SideOf(value, "ask")
  {
    var blocks := Blocks(value);
    assert None in blocks <==> blocks[0].None? || blocks[1].None? || blocks[2].None? || blocks[3].None?;
    PriceBlockReads(Json.Get(value, "openPrice"));
    PriceBlockReads(Json.Get(value, "highPrice"));
    PriceBlockReads(Json.Get(value, "lowPrice"));
    PriceBlockReads(Json.Get(value, "closePrice"));
  }

  lemma KeptByBlocks(value: Document, request: Request, origin: Origin, parse: Document -> Option<int>)
    requires value.Object? && Interval(request.resolution).Some?
    ensures NormalizeCandle(value, request, origin, parse).0.Some? <==>
            && var at := parse(Json.Get(value, "snapshotTimeUTC"));
            && at.Some?
            && at.value % Interval(request.resolution).value == 0
            && request.start <= at.value < request.end
            && BlocksValid(Blocks(value)) && BlocksUncrossed(Blocks(value)) && SoundVolume(value)
  {
    var reasons := Reasons(value, request, parse);
    assert reasons * REJECTING == {} <==> forall r :: r in REJECTING ==> r !in reasons;
    BlockReasonsMean(Blocks(value));
  }

  /** A candle is kept exactly when its time, its four price objects and its volume are all sound. */
  lemma KeptIff(value: Document, request: Request, origin: Origin, parse: Document -> Option<int>)
    ensures NormalizeCandle(value, request, origin, parse).0.Some? <==>
            && value.Object?
            && Interval(request.resolution).Some?
            && var at := parse(Json.Get(value, "snapshotTimeUTC"));
            && at.Some?
            && at.value % Interval(request.resolution).value == 0
            && request.start <= at.value < request.end
            && SoundPrices(value)
            && ValidGeometry(SideOf(value, "bid")) && ValidGeometry(SideOf(value, "ask"))
            && Uncrossed(SideOf(value, "bid"), SideOf(value, "ask"))
            && SoundVolume(value)
    ensures !value.Object? || Interval(request.resolution).None? ==>
              NormalizeCandle(value, request, origin, parse).1 == Counted({InvalidOhlc})
  {
    assert InvalidOhlc in {InvalidOhlc} * REJECTING;
    if value.Object? && Interval(request.resolution).Some? {
      KeptByBlocks(value, request, origin, parse);
      BlocksRead(value);
    }
  }

  lemma KeptBlocks(value: Document, request: Request, origin: Origin, parse: Document -> Option<int>)
    requires NormalizeCandle(value, request, origin, parse).0.Some?
    ensures value.Object? && None !in Blocks(value) && SoundPrices(value)
  {
    KeptIff(value, request, origin, parse);
    BlocksRead(value);
  }

  /** Each field of a kept candle is what the document holds at that field's own path, or the request's. */
  lemma KeptReadsItsPaths(value: Document, request: Request, origin: Origin, parse: Document -> Option<int>)
    requires NormalizeCandle(value, request, origin, parse).0.Some?
    ensures var c := NormalizeCandle(value, request, origin, parse).0.value;
            && c.bid.open == NumberAt(value, "openPrice", "bid") && c.offer.open == NumberAt(value, "openPrice", "ask")
            && c.bid.high == NumberAt(value, "highPrice", "bid") && c.offer.high == NumberAt(value, "highPrice", "ask")
            && c.bid.low == NumberAt(value, "lowPrice", "bid") && c.offer.low == NumberAt(value, "lowPrice", "ask")
            && c.bid.close == NumberAt(value, "closePrice", "bid") && c.offer.close == NumberAt(value, "closePrice", "ask")
            && c.last == LastTraded(LastAt(value, "openPrice"), LastAt(value, "highPrice"),
                                    LastAt(value, "lowPrice"), LastAt(value, "closePrice"))
    ensures var c := NormalizeCandle(value, request, origin, parse).0.value;
            && value.Object?
            && (c.volume.None? <==> Json.Get(value, "lastTradedVolume").Null?)
            && c.volume == NumberOf(Json.Get(value, "lastTradedVolume"))
            && parse(Json.Get(value, "snapshotTimeUTC")) == Some(c.at)
            && (Json.Get(value, "snapshotTimeUTC").Text? ==> c.sourceTimestampUtc == Json.Get(value, "snapshotTimeUTC").text)
            && (c.sourceTimestamp.Some? <==> Json.Get(value, "snapshotTime").Text?)
            && (c.sourceTimestamp.Some? ==> c.sourceTimestamp.value == Json.Get(value, "snapshotTime").text)
            && c.epic == request.epic && c.resolution == request.resolution
            && c.page == origin.page && c.index == origin.index && c.file == origin.file
            && c.provenance == Native && c.components.None?
  {
    KeptIff(value, request, origin, parse);
    KeptBlocks(value, request, origin, parse);
    BlocksRead(value);
    PriceBlockReads(Json.Get(value, "openPrice"));
    PriceBlockReads(Json.Get(value, "highPrice"));
    PriceBlockReads(Json.Get(value, "lowPrice"));
    PriceBlockReads(Json.Get(value, "closePrice"));
  }

  /** A kept candle is valid and positive, and on its resolution's grid inside the requested window. */
  lemma KeptIsValid(value: Document, request: Request, origin: Origin, parse: Document -> Option<int>)
    requires NormalizeCandle(value, request, origin, parse).0.Some?
    ensures var c := NormalizeCandle(value, request, origin, parse).0.value;
            && ValidCandle(c) && AllPositive(c.bid) && AllPositive(c.offer)
            && c.epic == request.epic && c.resolution == request.resolution
            && Interval(c.resolution).Some? && c.at % Interval(c.resolution).value == 0
            && request.start <= c.at < request.end
            && (c.volume.Some? ==> c.volume.value >= 0.0)
  {
    KeptIff(value, request, origin, parse);
    KeptReadsItsPaths(value, request, origin, parse);
  }

  // ---------------------------------------------------------------- the counters

  /** Every counted defect other than a zero spread comes with a rejection, and a crossed quote with a spread anomaly. */
  ghost predicate Consistent(f: Findings) {
    && f.rejected <= f.raw
    && f.rejected <= f.invalidOhlc + f.crossed + f.timezone + f.boundary + f.outside
    && f.invalidOhlc <= f.rejected && f.crossed <= f.rejected && f.timezone <= f.rejected
    && f.boundary <= f.rejected && f.outside <= f.rejected
    && f.crossed <= f.zeroOrNegativeSpread
  }

  lemma CountedConsistent(reasons: set<Reason>)
    requires Crossed in reasons ==> ZeroOrNegativeSpread in reasons
    ensures Consistent(Counted(reasons))
  {
    assert forall r :: r in reasons * REJECTING <==> r in reasons && r != ZeroOrNegativeSpread;
    assert reasons * REJECTING != {} ==> exists r :: r in reasons * REJECTING;
  }

  lemma CrossedIsSpreadAnomaly(blocks: seq<Option<Block>>)
    requires |blocks| == 4
    ensures Crossed in BlockReasons(blocks) ==> ZeroOrNegativeSpread in BlockReasons(blocks)
    ensures None in blocks ==> InvalidOhlc in BlockReasons(blocks)
  {
  }

  lemma CountsConsistent(value: Document, request: Request, origin: Origin, parse: Document -> Option<int>)
    ensures var (kept, found) := NormalizeCandle(value, request, origin, parse);
            Consistent(found) && found.raw == 1 && found.rejected == One(kept.None?)
  {
    if value.Object? && Interval(request.resolution).Some? {
      var reasons := Reasons(value, request, parse);
      var at := parse(Json.Get(value, "snapshotTimeUTC"));
      CrossedIsSpreadAnomaly(Blocks(value));
      CountedConsistent(reasons);
      assert at.None? ==> TimezoneAmbiguity in reasons * REJECTING;
      assert None in Blocks(value) ==> InvalidOhlc in reasons * REJECTING;
    }
  }

  lemma TimeReasonsMean(at: Option<int>, interval: int, start: int, end: int)
    requires interval > 0
    ensures var rs := TimeReasons(at, interval, start, end);
            && (TimezoneAmbiguity in rs <==> at.None?)
            && (BoundaryMismatch in rs <==> at.Some? && at.value % interval != 0)
            && (OutsideRange in rs <==> at.Some? && !(start <= at.value < end))
            && InvalidOhlc !in rs && Crossed !in rs && ZeroOrNegativeSpread !in rs
  {
  }

  ghost predicate BlocksUncrossed(blocks: seq<Option<Block>>)
    requires |blocks| == 4
  {
    None in blocks || Uncrossed(Bids(blocks), Offers(blocks))
  }

  /** Four usable blocks, in one of which the offer is not above the bid. */
  ghost predicate SpreadMissing(blocks: seq<Option<Block>>)
    requires |blocks| == 4
  {
    None !in blocks && !Apart(Bids(blocks), Offers(blocks))
  }

  ghost predicate BlocksValid(blocks: seq<Option<Block>>)
    requires |blocks| == 4
  {
    None !in blocks && ValidGeometry(Bids(blocks)) && ValidGeometry(Offers(blocks))
  }

  lemma BlockReasonsMean(blocks: seq<Option<Block>>)
    requires |blocks| == 4
    ensures var rs := BlockReasons(blocks);
            && (InvalidOhlc in rs <==> !BlocksValid(blocks))
            && (Crossed in rs <==> !BlocksUncrossed(blocks))
            && (ZeroOrNegativeSpread in rs <==> SpreadMissing(blocks))
            && TimezoneAmbiguity !in rs && BoundaryMismatch !in rs && OutsideRange !in rs
  {
    if None !in blocks {
      SpreadsUncrossed(Bids(blocks), Offers(blocks));
    }
  }

  /** The reasons of a candle, by the blocks it holds. */
  lemma ReasonsMean(value: Document, request: Request, parse: Document -> Option<int>)
    requires value.Object? && Interval(request.resolution).Some?
    ensures var rs, at := Reasons(value, request, parse), parse(Json.Get(value, "snapshotTimeUTC"));
            && (TimezoneAmbiguity in rs <==> at.None?)
            && (BoundaryMismatch in rs <==> at.Some? && at.value % Interval(request.resolution).value != 0)
            && (OutsideRange in rs <==> at.Some? && !(request.start <= at.value < request.end))
            && (Crossed in rs <==> !BlocksUncrossed(Blocks(value)))
            && (ZeroOrNegativeSpread in rs <==> SpreadMissing(Blocks(value)))
            && (InvalidOhlc in rs <==> !BlocksValid(Blocks(value)) || !SoundVolume(value))
  {
    TimeReasonsMean(parse(Json.Get(value, "snapshotTimeUTC")), Interval(request.resolution).value, request.start, request.end);
    BlockReasonsMean(Blocks(value));
  }

  /** Which defect raises which counter. */
  lemma CountersMean(value: Document, request: Request, origin: Origin, parse: Document -> Option<int>)
    requires value.Object? && Interval(request.resolution).Some?
    ensures var f := NormalizeCandle(value, request, origin, parse).1;
            var at, bid, offer := parse(Json.Get(value, "snapshotTimeUTC")), SideOf(value, "bid"), SideOf(value, "ask");
            && (f.timezone == 1 <==> at.None?)
            && (f.boundary == 1 <==> at.Some? && at.value % Interval(request.resolution).value != 0)
            && (f.outside == 1 <==> at.Some? && !(request.start <= at.value < request.end))
            && (f.crossed == 1 <==> SoundPrices(value) && !Uncrossed(bid, offer))
            && (f.zeroOrNegativeSpread == 1 <==> SoundPrices(value) && !Apart(bid, offer))
            && (f.invalidOhlc == 0 <==> SoundPrices(value) && ValidGeometry(bid) && ValidGeometry(offer) && SoundVolume(value))
            && f.timezone <= 1 && f.boundary <= 1 && f.outside <= 1 && f.crossed <= 1 && f.zeroOrNegativeSpread <= 1
            && f.invalidOhlc <= 1 && f.raw == 1
  {
    ReasonsMean(value, request, parse);
    BlocksRead(value);
    assert NormalizeCandle(value, request, origin, parse).1 == Counted(Reasons(value, request, parse));
  }

  datatype Raw = Raw(value: Document, origin: Origin)

  function Kept(answer: seq<Raw>, request: Request, parse: Document -> Option<int>): seq<Candle> {
    if answer == [] then []
    else
      var kept := NormalizeCandle(answer[0].value, request, answer[0].origin, parse).0;
      (if kept.Some? then [kept.value] else []) + Kept(answer[1..], request, parse)
  }

  function Found(answer: seq<Raw>, request: Request, parse: Document -> Option<int>): Findings {
    if answer == [] then EMPTY_FINDINGS
    else Plus(NormalizeCandle(answer[0].value, request, answer[0].origin, parse).1, Found(answer[1..], request, parse))
  }

  /** The counters in their order. */
  ghost function Counters(f: Findings): (s: seq<nat>)
    ensures |s| == 8
  {
    [f.raw, f.rejected, f.invalidOhlc, f.crossed, f.zeroOrNegativeSpread, f.timezone, f.boundary, f.outside]
  }

  /** How often the candles of an answer raise one counter. */
  ghost function Raised(answer: seq<Raw>, request: Request, parse: Document -> Option<int>, k: nat): nat
    requires k < 8
  {
    if answer == [] then 0
    else Counters(NormalizeCandle(answer[0].value, request, answer[0].origin, parse).1)[k]
         + Raised(answer[1..], request, parse, k)
  }

  /** Each counter of an answer is how often its candles raise that one. */
  lemma {:induction false} CountersAddUp(answer: seq<Raw>, request: Request, parse: Document -> Option<int>, k: nat)
    requires k < 8
    ensures Counters(Found(answer, request, parse))[k] == Raised(answer, request, parse, k)
  {
    if answer != [] {
      CountersAddUp(answer[1..], request, parse, k);
    }
  }

  /** Over a whole answer each raw candle is kept or counted as rejected, and the counters stay consistent. */
  lemma {:induction false} AnswerAccounted(answer: seq<Raw>, request: Request, parse: Document -> Option<int>)
    ensures var f := Found(answer, request, parse);
            Consistent(f) && f.raw == |answer| && |Kept(answer, request, parse)| + f.rejected == f.raw
  {
    if answer != [] {
      CountsConsistent(answer[0].value, request, answer[0].origin, parse);
      AnswerAccounted(answer[1..], request, parse);
    }
  }

  function Times(cs: seq<Candle>): seq<int> {
    seq(|cs|, i requires 0 <= i < |cs| => cs[i].at)
  }

  ghost predicate SoundFor(c: Candle, request: Request) {
    && ValidCandle(c)
    && c.resolution == request.resolution
    && request.start <= c.at < request.end
    && Interval(request.resolution).Some?
    && c.at % Interval(request.resolution).value == 0
  }

  lemma {:induction false} KeptSound(answer: seq<Raw>, request: Request, parse: Document -> Option<int>)
    ensures forall c :: c in Kept(answer, request, parse) ==> SoundFor(c, request)
  {
    if answer != [] {
      if NormalizeCandle(answer[0].value, request, answer[0].origin, parse).0.Some? {
        KeptIsValid(answer[0].value, request, answer[0].origin, parse);
      }
      KeptSound(answer[1..], request, parse);
    }
  }

  lemma SoundOnGrid(cs: seq<Candle>, request: Request, interval: int)
    requires Interval(request.resolution) == Some(interval) && interval > 0 && request.start % interval == 0
    requires forall c :: c in cs ==> SoundFor(c, request)
    ensures OnGrid(Times(cs), request.start, request.end, interval)
  {
    forall t | t in Times(cs)
      ensures request.start <= t < request.end && (t - request.start) % interval == 0
    {
      var i :| 0 <= i < |cs| && Times(cs)[i] == t;
      assert SoundFor(cs[i], request);
      ModBetween(t, request.start, 0, interval);
    }
  }

  /** In a window that starts on the resolution's grid, the kept candles are valid and lie on the window's grid. */
  lemma KeptOnGrid(answer: seq<Raw>, request: Request, parse: Document -> Option<int>)
    requires Interval(request.resolution).Some?
    requires request.start % Interval(request.resolution).value == 0
    ensures OnGrid(Times(Kept(answer, request, parse)), request.start, request.end, Interval(request.resolution).value)
    ensures forall c :: c in Kept(answer, request, parse) ==> ValidCandle(c)
  {
    KeptSound(answer, request, parse);
    SoundOnGrid(Kept(answer, request, parse), request, Interval(request.resolution).value);
  }
}
