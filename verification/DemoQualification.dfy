/** Statistics of one demo series, and when it is classified as qualified. */
module DemoQualification {
  import opened Outcomes
  import opened Decimals

  datatype TradeOutcome = TradeOutcome(
    realizedPnl: real,
    realizedR: real,
    spreadCost: Option<real>,
    slippage: Option<real>,
    rejection: Option<string>)

  datatype Classification = NotStarted | Qualifying | LowSample | Rejected | Watch | Qualified

  datatype EvaluationError = MinimumNotPositive

  datatype Metrics = Metrics(
    trades: nat,
    wins: nat,
    losses: nat,
    winRate: Option<real>,
    netPnl: real,
    netR: real,
    expectancyR: Option<real>,
    profitFactor: Option<real>,
    maxDrawdownR: real,
    losingStreak: nat,
    spreadCost: real,
    slippage: real,
    rejections: nat,
    classification: Classification)

  // ---------------------------------------------------------------- sums and counts

  function Sum(rs: seq<real>): real {
    if rs == [] then 0.0 else Sum(rs[..|rs| - 1]) + rs[|rs| - 1]
  }

  function Rs(os: seq<TradeOutcome>): (rs: seq<real>)
    ensures |rs| == |os| && forall i :: 0 <= i < |os| ==> rs[i] == os[i].realizedR
  {
    seq(|os|, i requires 0 <= i < |os| => os[i].realizedR)
  }

  function Above(rs: seq<real>): seq<real> {
    if rs == [] then [] else Above(rs[..|rs| - 1]) + if rs[|rs| - 1] > 0.0 then [rs[|rs| - 1]] else []
  }

  function Below(rs: seq<real>): seq<real> {
    if rs == [] then [] else Below(rs[..|rs| - 1]) + if rs[|rs| - 1] < 0.0 then [rs[|rs| - 1]] else []
  }

  function GrossWin(rs: seq<real>): real {
    Sum(Above(rs))
  }

  function GrossLoss(rs: seq<real>): real {
    -Sum(Below(rs))
  }

  function SumOf(os: seq<TradeOutcome>, pick: TradeOutcome -> real): real {
    if os == [] then 0.0 else SumOf(os[..|os| - 1], pick) + pick(os[|os| - 1])
  }

  function OrZero(o: Option<real>): real {
    if o.Some? then o.value else 0.0
  }

  function Rejections(os: seq<TradeOutcome>): nat {
    if os == [] then 0 else Rejections(os[..|os| - 1]) + if os[|os| - 1].rejection.Some? then 1 else 0
  }

  // ---------------------------------------------------------------- drawdown

  /** Equity after the first n trades. */
  function Equity(rs: seq<real>, n: nat): real
    requires n <= |rs|
  {
    Sum(rs[..n])
  }

  /** The fall from the equity after i trades to the equity after j trades. */
  ghost function Drop(rs: seq<real>, i: nat, j: nat): real
    requires i <= j <= |rs|
  {
    Equity(rs, i) - Equity(rs, j)
  }

  /** The largest fall from any point, the start included, to any later point. */
  ghost predicate IsMaxDrawdown(rs: seq<real>, m: real) {
    && (forall i, j :: 0 <= i <= j <= |rs| ==> Drop(rs, i, j) <= m)
    && exists i, j :: 0 <= i <= j <= |rs| && Drop(rs, i, j) == m
  }

  lemma EquityNext(rs: seq<real>, n: nat)
    requires n < |rs|
    ensures Equity(rs, n + 1) == Equity(rs, n) + rs[n]
  {
    assert rs[..n + 1][..n] == rs[..n];
  }

  method MaxDrawdown(os: seq<TradeOutcome>) returns (maximum: real)
    ensures IsMaxDrawdown(Rs(os), maximum)
  {
    var equity, peak := 0.0, 0.0;
    maximum := 0.0;
    ghost var rs := Rs(os);
    ghost var top, from, to := 0, 0, 0;
    for n := 0 to |os|
      invariant equity == Equity(rs, n)
      invariant 0 <= top <= n && peak == Equity(rs, top)
      invariant forall i :: 0 <= i <= n ==> Equity(rs, i) <= peak
      invariant 0 <= from <= to <= n && maximum == Drop(rs, from, to)
      invariant forall i, j :: 0 <= i <= j <= n ==> Drop(rs, i, j) <= maximum
    {
      EquityNext(rs, n);
      equity := equity + os[n].realizedR;
      if equity > peak {
        top := n + 1;
      }
      peak := Max(peak, equity);
      if peak - equity > maximum {
        from, to := top, n + 1;
      }
      maximum := Max(maximum, peak - equity);
      forall i, j | 0 <= i <= j <= n + 1
        ensures Drop(rs, i, j) <= maximum
      {
        if j == n + 1 {
          assert Equity(rs, i) <= peak;
        }
      }
    }
  }

  // ---------------------------------------------------------------- losing streak

  /** The last count trades all lost and the one before them, if any, did not. */
  ghost predicate IsLosingStreak(rs: seq<real>, count: nat) {
    && count <= |rs|
    && (forall k :: |rs| - count <= k < |rs| ==> rs[k] < 0.0)
    && (count < |rs| ==> rs[|rs| - count - 1] >= 0.0)
  }

  method LosingStreak(os: seq<TradeOutcome>) returns (count: nat)
    ensures IsLosingStreak(Rs(os), count)
  {
    count := 0;
    while count < |os|
      invariant count <= |os|
      invariant forall k :: |os| - count <= k < |os| ==> Rs(os)[k] < 0.0
    {
      if os[|os| - count - 1].realizedR >= 0.0 {
        break;
      }
      count := count + 1;
    }
  }

  // ---------------------------------------------------------------- evaluation

  function Classify(m: Metrics, minimum: int): Classification {
    if m.trades < minimum then LowSample
    else if m.expectancyR.None? || m.expectancyR.value <= 0.0 then Rejected
    else if m.profitFactor.None? || m.profitFactor.value < 1.1 || m.maxDrawdownR > 2.0 || m.losingStreak >= 5 then Watch
    else Qualified
  }

  const EMPTY := Metrics(0, 0, 0, None, 0.0, 0.0, None, None, 0.0, 0, 0.0, 0.0, 0, NotStarted)

  function Measured(os: seq<TradeOutcome>, drawdown: real, streak: nat): Metrics
    requires os != []
  {
    var rs := Rs(os);
    var gain, loss, n := GrossWin(rs), GrossLoss(rs), |os| as real;
    Metrics(
      |os|, |Above(rs)|, |Below(rs)|, Some(|Above(rs)| as real / n),
      SumOf(os, (o: TradeOutcome) => o.realizedPnl), Sum(rs), Some(Sum(rs) / n),
      if loss == 0.0 then None else Some(gain / loss), drawdown, streak,
      SumOf(os, (o: TradeOutcome) => OrZero(o.spreadCost)), SumOf(os, (o: TradeOutcome) => OrZero(o.slippage)),
      Rejections(os), Qualifying)
  }

  /** What a correct evaluation of a series reports. */
  ghost predicate Evaluates(m: Metrics, os: seq<TradeOutcome>, minimum: int) {
    if os == [] then m == EMPTY
    else
      && IsMaxDrawdown(Rs(os), m.maxDrawdownR)
      && IsLosingStreak(Rs(os), m.losingStreak)
      && var measured := Measured(os, m.maxDrawdownR, m.losingStreak);
      m == measured.(classification := Classify(measured, minimum))
  }

  method EvaluateDemoResults(os: seq<TradeOutcome>, minimum: int) returns (r: Result<Metrics, EvaluationError>)
    ensures r.Ok? <==> minimum > 0
    ensures r.Ok? ==> Evaluates(r.value, os, minimum)
  {
    if minimum <= 0 {
      return Err(MinimumNotPositive);
    }
    if os == [] {
      return Ok(EMPTY);
    }
    var drawdown := MaxDrawdown(os);
    var streak := LosingStreak(os);
    var metrics := Measured(os, drawdown, streak);
    return Ok(metrics.(classification := Classify(metrics, minimum)));
  }

  // ---------------------------------------------------------------- what QUALIFIED means

  lemma {:induction false} SumConcat(a: seq<real>, b: seq<real>)
    ensures Sum(a + b) == Sum(a) + Sum(b)
  {
    if b == [] {
      assert a + b == a;
    } else {
      var n := |b| - 1;
      assert (a + b)[..|a + b| - 1] == a + b[..n];
      SumConcat(a, b[..n]);
    }
  }

  lemma BlockIsFall(rs: seq<real>, i: nat, j: nat)
    requires i <= j <= |rs|
    ensures Sum(rs[i..j]) == -Drop(rs, i, j)
  {
    assert rs[..j] == rs[..i] + rs[i..j];
    SumConcat(rs[..i], rs[i..j]);
  }

  lemma GrossNext(init: seq<real>, last: real)
    ensures GrossWin(init + [last]) == GrossWin(init) + if last > 0.0 then last else 0.0
    ensures GrossLoss(init + [last]) == GrossLoss(init) - if last < 0.0 then last else 0.0
  {
    assert (init + [last])[..|init|] == init;
    assert (Above(init) + [last])[..|Above(init)|] == Above(init);
    assert (Below(init) + [last])[..|Below(init)|] == Below(init);
    assert Above(init) + [] == Above(init) && Below(init) + [] == Below(init);
  }

  lemma {:induction false} GrossSigns(rs: seq<real>)
    ensures Sum(rs) == GrossWin(rs) - GrossLoss(rs)
    ensures GrossWin(rs) >= 0.0 && GrossLoss(rs) >= 0.0
  {
    if rs != [] {
      var init, last := rs[..|rs| - 1], rs[|rs| - 1];
      assert rs == init + [last];
      GrossSigns(init);
      GrossNext(init, last);
    }
  }

  lemma {:induction false} LoserCosts(rs: seq<real>, k: nat)
    requires k < |rs| && rs[k] < 0.0
    ensures GrossLoss(rs) > 0.0
  {
    var init, last := rs[..|rs| - 1], rs[|rs| - 1];
    assert rs == init + [last];
    GrossNext(init, last);
    if k < |init| {
      assert init[k] == rs[k];
      LoserCosts(init, k);
    } else {
      GrossSigns(init);
    }
  }

  lemma {:induction false} LoserOf(rs: seq<real>) returns (k: nat)
    requires GrossLoss(rs) > 0.0
    ensures k < |rs| && rs[k] < 0.0
  {
    var init, last := rs[..|rs| - 1], rs[|rs| - 1];
    assert rs == init + [last];
    GrossNext(init, last);
    k := |init|;
    if last >= 0.0 {
      k := LoserOf(init);
    }
  }

  /** Net R is what was won less what was lost; losses are never negative, and are zero only without a losing trade. */
  lemma NetIsWinLessLoss(rs: seq<real>)
    ensures Sum(rs) == GrossWin(rs) - GrossLoss(rs)
    ensures GrossWin(rs) >= 0.0 && GrossLoss(rs) >= 0.0
    ensures GrossLoss(rs) > 0.0 <==> exists k :: 0 <= k < |rs| && rs[k] < 0.0
  {
    GrossSigns(rs);
    if GrossLoss(rs) > 0.0 {
      var k := LoserOf(rs);
    } else if k :| 0 <= k < |rs| && rs[k] < 0.0 {
      LoserCosts(rs, k);
    }
  }

  lemma DrawdownBoundsBlocks(rs: seq<real>, m: real, limit: real)
    requires IsMaxDrawdown(rs, m)
    ensures m <= limit <==> forall i, j :: 0 <= i <= j <= |rs| ==> Sum(rs[i..j]) >= -limit
  {
    forall i, j | 0 <= i <= j <= |rs|
      ensures Sum(rs[i..j]) == -Drop(rs, i, j)
    {
      BlockIsFall(rs, i, j);
    }
    var i, j :| 0 <= i <= j <= |rs| && Drop(rs, i, j) == m;
    assert Sum(rs[i..j]) == -m;
  }

  lemma StreakBelowFive(rs: seq<real>, count: nat)
    requires IsLosingStreak(rs, count)
    ensures count >= 5 <==> |rs| >= 5 && forall k :: |rs| - 5 <= k < |rs| ==> rs[k] < 0.0
  {
    if count < |rs| {
      assert rs[|rs| - count - 1] >= 0.0;
    }
  }

  lemma RatioAtLeast(gain: real, loss: real, factor: real)
    requires loss > 0.0
    ensures gain / loss >= factor <==> gain >= factor * loss
  {
    assert gain == (gain / loss) * loss;
    if gain / loss >= factor {
      assert (gain / loss - factor) * loss >= 0.0;
    } else {
      assert (factor - gain / loss) * loss > 0.0;
    }
  }

  /**
   A series is qualified exactly when it has enough trades, a positive net R, at least one losing
   trade, wins of at least 1.1 times its losses, no contiguous block of trades below -2R, and no
   losing streak of five at its end.
   */
  lemma QualifiedIff(os: seq<TradeOutcome>, minimum: int, m: Metrics)
    requires minimum > 0 && Evaluates(m, os, minimum)
    ensures var rs := Rs(os);
            m.classification == Qualified <==>
            && |os| >= minimum
            && Sum(rs) > 0.0
            && (exists k :: 0 <= k < |rs| && rs[k] < 0.0)
            && GrossWin(rs) >= 1.1 * GrossLoss(rs)
            && (forall i, j :: 0 <= i <= j <= |rs| ==> Sum(rs[i..j]) >= -2.0)
            && !(|rs| >= 5 && forall k :: |rs| - 5 <= k < |rs| ==> rs[k] < 0.0)
  {
    if os != [] {
      var rs := Rs(os);
      NetIsWinLessLoss(rs);
      DrawdownBoundsBlocks(rs, m.maxDrawdownR, 2.0);
      StreakBelowFive(rs, m.losingStreak);
      SignOfMean(Sum(rs), |os|);
      if GrossLoss(rs) > 0.0 {
        RatioAtLeast(GrossWin(rs), GrossLoss(rs), 1.1);
      }
    }
  }

  lemma SignOfMean(total: real, n: nat)
    requires n > 0
    ensures total / (n as real) > 0.0 <==> total > 0.0
  {
    RatioAtLeast(total, n as real, 0.0);
    RatioAtLeast(-total, n as real, 0.0);
    assert -total / (n as real) == -(total / (n as real));
  }

  // ---------------------------------------------------------------- the other classifications and the counts

  ghost function Winning(rs: seq<real>): set<int> {
    set k | 0 <= k < |rs| && rs[k] > 0.0
  }

  ghost function Losing(rs: seq<real>): set<int> {
    set k | 0 <= k < |rs| && rs[k] < 0.0
  }

  lemma {:induction false} WinsAre(rs: seq<real>)
    ensures |Above(rs)| == |Winning(rs)|
  {
    if rs == [] {
      assert Winning(rs) == {};
    } else {
      var n := |rs| - 1;
      var init := rs[..n];
      WinsAre(init);
      assert forall k :: 0 <= k < n ==> init[k] == rs[k];
      assert Winning(rs) == if rs[n] > 0.0 then Winning(init) + {n} else Winning(init);
      assert n !in Winning(init);
    }
  }

  lemma {:induction false} LossesAre(rs: seq<real>)
    ensures |Below(rs)| == |Losing(rs)|
  {
    if rs == [] {
      assert Losing(rs) == {};
    } else {
      var n := |rs| - 1;
      var init := rs[..n];
      LossesAre(init);
      assert forall k :: 0 <= k < n ==> init[k] == rs[k];
      assert Losing(rs) == if rs[n] < 0.0 then Losing(init) + {n} else Losing(init);
      assert n !in Losing(init);
    }
  }

  /** Which classification a series has when it is not qualified, and that none is left as still qualifying. */
  lemma OtherClassifications(os: seq<TradeOutcome>, minimum: int, m: Metrics)
    requires minimum > 0 && Evaluates(m, os, minimum)
    ensures m.classification == NotStarted <==> os == []
    ensures m.classification == LowSample <==> 0 < |os| < minimum
    ensures m.classification == Rejected <==> |os| >= minimum && Sum(Rs(os)) <= 0.0
    ensures m.classification != Qualifying
    ensures m.wins == |Winning(Rs(os))| && m.losses == |Losing(Rs(os))|
  {
    if os != [] {
      SignOfMean(Sum(Rs(os)), |os|);
      WinsAre(Rs(os));
      LossesAre(Rs(os));
    } else {
      assert Winning(Rs(os)) == {} && Losing(Rs(os)) == {};
    }
  }

  // ---------------------------------------------------------------- the figures

  lemma RsNext(os: seq<TradeOutcome>, o: TradeOutcome)
    ensures (os + [o])[..|os|] == os && Rs(os + [o]) == Rs(os) + [o.realizedR]
    ensures Sum(Rs(os + [o])) == Sum(Rs(os)) + o.realizedR
  {
    assert Rs(os + [o])[..|os|] == Rs(os);
  }

  lemma SumOfNext(os: seq<TradeOutcome>, o: TradeOutcome, pick: TradeOutcome -> real)
    ensures SumOf(os + [o], pick) == SumOf(os, pick) + pick(o)
  {
    assert (os + [o])[..|os|] == os;
  }

  lemma RejectionsNext(os: seq<TradeOutcome>, o: TradeOutcome)
    ensures Rejections(os + [o]) == Rejections(os) + if o.rejection.Some? then 1 else 0
  {
    assert (os + [o])[..|os|] == os;
  }

  /** A series as it is reported: its sums, whether it has trades or not. */
  ghost predicate Summed(m: Metrics, os: seq<TradeOutcome>) {
    && m.trades == |os| && m.netR == Sum(Rs(os)) && m.rejections == Rejections(os)
    && m.netPnl == SumOf(os, (o: TradeOutcome) => o.realizedPnl)
    && m.spreadCost == SumOf(os, (o: TradeOutcome) => OrZero(o.spreadCost))
    && m.slippage == SumOf(os, (o: TradeOutcome) => OrZero(o.slippage))
  }

  lemma IsSummed(m: Metrics, os: seq<TradeOutcome>, minimum: int)
    requires Evaluates(m, os, minimum)
    ensures Summed(m, os)
  {
  }

  /** A further trade adds its own figures to those of the series, and a series without trades has none. */
  lemma OneMoreTrade(os: seq<TradeOutcome>, o: TradeOutcome, m: Metrics, n: Metrics, minimum: int)
    requires Evaluates(m, os, minimum) && Evaluates(n, os + [o], minimum)
    ensures n.trades == m.trades + 1
    ensures n.netR == m.netR + o.realizedR && n.netPnl == m.netPnl + o.realizedPnl
    ensures n.spreadCost == m.spreadCost + (if o.spreadCost.Some? then o.spreadCost.value else 0.0)
    ensures n.slippage == m.slippage + (if o.slippage.Some? then o.slippage.value else 0.0)
    ensures n.rejections == m.rejections + (if o.rejection.Some? then 1 else 0)
    ensures os == [] ==> m.trades == m.rejections == 0 && m.netR == m.netPnl == m.spreadCost == m.slippage == 0.0
  {
    IsSummed(m, os, minimum);
    IsSummed(n, os + [o], minimum);
    RsNext(os, o);
    RejectionsNext(os, o);
    SumOfNext(os, o, (o: TradeOutcome) => o.realizedPnl);
    SumOfNext(os, o, (o: TradeOutcome) => OrZero(o.spreadCost));
    SumOfNext(os, o, (o: TradeOutcome) => OrZero(o.slippage));
  }

  lemma LossesMatter(rs: seq<real>)
    ensures GrossLoss(rs) > 0.0 <==> Losing(rs) != {}
    ensures GrossLoss(rs) >= 0.0
  {
    NetIsWinLessLoss(rs);
    if k :| 0 <= k < |rs| && rs[k] < 0.0 {
      assert k in Losing(rs);
    }
    if k :| k in Losing(rs) {
      assert 0 <= k < |rs| && rs[k] < 0.0;
    }
  }

  /** The rates, over the winning and losing trades themselves; the profit factor is missing exactly without a loss. */
  lemma RatesMean(os: seq<TradeOutcome>, minimum: int, m: Metrics)
    requires os != [] && Evaluates(m, os, minimum)
    ensures m.winRate == Some(|Winning(Rs(os))| as real / |os| as real)
    ensures m.expectancyR == Some(Sum(Rs(os)) / |os| as real)
    ensures m.profitFactor.None? <==> Losing(Rs(os)) == {}
    ensures m.profitFactor.Some? ==>
              GrossLoss(Rs(os)) > 0.0 && m.profitFactor.value == GrossWin(Rs(os)) / GrossLoss(Rs(os))
  {
    WinsAre(Rs(os));
    LossesMatter(Rs(os));
  }
}
