/** Classified missing slots are regrouped into findings, and nothing is lost. */
module CandleGrouping {
  import opened CandleGaps

  datatype Kind = WeekendClosure | SessionGap | BrokerMaintenance | ActualMissing | AllowanceLimit

  datatype Classified = Classified(at: int, kind: Kind)

  datatype Finding = Finding(after: int, before: int, missing: int, kind: Kind)

  function Tagged(ts: seq<int>, kind: Kind): seq<Classified> {
    seq(|ts|, i requires 0 <= i < |ts| => Classified(ts[i], kind))
  }

  /** The classified slots that one finding stands for. */
  function Expand(f: Finding, interval: int): seq<Classified>
    requires interval > 0
  {
    Tagged(Grid(f.after + interval, f.before, interval), f.kind)
  }

  function Spread(fs: seq<Finding>, interval: int): seq<Classified>
    requires interval > 0
  {
    if fs == [] then [] else Expand(fs[0], interval) + Spread(fs[1..], interval)
  }

  /** The bounds of a finding enclose exactly the number of slots it reports, and at least one. */
  ghost predicate Proper(f: Finding, interval: int) {
    f.missing >= 1 && f.before == f.after + interval * (f.missing + 1)
  }

  ghost predicate AllProper(fs: seq<Finding>, interval: int) {
    forall i :: 0 <= i < |fs| ==> Proper(fs[i], interval)
  }

  /** Two neighbours that one finding could have covered. */
  ghost predicate Mergeable(f: Finding, g: Finding, interval: int) {
    f.kind == g.kind && g.after + interval == f.before
  }

  ghost predicate NoneMergeable(fs: seq<Finding>, interval: int) {
    forall i :: 0 < i < |fs| ==> !Mergeable(fs[i - 1], fs[i], interval)
  }

  function Total(fs: seq<Finding>): int {
    if fs == [] then 0 else fs[0].missing + Total(fs[1..])
  }

  // ---------------------------------------------------------------- facts about expansion

  lemma {:induction false} SpreadSnoc(fs: seq<Finding>, f: Finding, interval: int)
    requires interval > 0
    ensures Spread(fs + [f], interval) == Spread(fs, interval) + Expand(f, interval)
  {
    if fs == [] {
      assert fs + [f] == [f];
      assert Spread([f], interval) == Expand(f, interval) + [];
    } else {
      assert (fs + [f])[1..] == fs[1..] + [f];
      SpreadSnoc(fs[1..], f, interval);
    }
  }

  lemma ExpandSize(f: Finding, interval: int)
    requires interval > 0 && Proper(f, interval)
    ensures |Expand(f, interval)| == f.missing
    ensures forall k :: 0 <= k < f.missing ==>
      Expand(f, interval)[k] == Classified(f.after + interval * (k + 1), f.kind)
  {
    var from := f.after + interval;
    assert f.before == from + interval * f.missing;
    GridEntries(from, interval, f.missing);
    var grid := Grid(from, f.before, interval);
    forall k | 0 <= k < f.missing
      ensures Expand(f, interval)[k] == Classified(f.after + interval * (k + 1), f.kind)
    {
      assert grid[k] == from + interval * k;
      assert interval * (k + 1) == interval + interval * k;
    }
  }

  lemma {:induction false} TotalIsSpread(fs: seq<Finding>, interval: int)
    requires interval > 0 && AllProper(fs, interval)
    ensures Total(fs) == |Spread(fs, interval)|
  {
    if fs != [] {
      ExpandSize(fs[0], interval);
      TotalIsSpread(fs[1..], interval);
    }
  }

  // ---------------------------------------------------------------- the loop

  /** The finding reported for the run of slots from start to end. */
  function Close(start: int, end: int, kind: Kind, interval: int): Finding
    requires interval > 0
  {
    Finding(start - interval, end + interval, (end - start) / interval + 1, kind)
  }

  lemma ClosedRun(start: int, n: nat, kind: Kind, interval: int)
    requires interval > 0
    ensures var f := Close(start, start + interval * n, kind, interval);
            && f.missing == n + 1
            && Proper(f, interval)
            && Expand(f, interval) == Tagged(Grid(start, start + interval * (n + 1), interval), kind)
  {
    ModUnique(interval * n, interval, n, 0);
    assert start + interval * (n + 1) == start + interval * n + interval;
  }

  /** The findings stand for exactly these slots, and no two neighbours could be one. */
  ghost predicate Groups(fs: seq<Finding>, classified: seq<Classified>, interval: int)
    requires interval > 0
  {
    Spread(fs, interval) == classified && AllProper(fs, interval) && NoneMergeable(fs, interval)
  }

  /** The next slot continues the current run. */
  lemma ExtendRun(done: seq<Finding>, start: int, n: nat, kind: Kind, seen: seq<Classified>, interval: int)
    requires interval > 0
    requires Groups(done + [Close(start, start + interval * n, kind, interval)], seen, interval)
    ensures var next := start + interval * (n + 1);
            Groups(done + [Close(start, next, kind, interval)], seen + [Classified(next, kind)], interval)
  {
    var shorter := Close(start, start + interval * n, kind, interval);
    var longer := Close(start, start + interval * (n + 1), kind, interval);
    ClosedRun(start, n, kind, interval);
    ClosedRun(start, n + 1, kind, interval);
    GridOfMultiple(start, interval, n + 1);
    assert Expand(longer, interval) == Expand(shorter, interval) + [Classified(start + interval * (n + 1), kind)];
    SpreadSnoc(done, shorter, interval);
    SpreadSnoc(done, longer, interval);
    ReplaceLast(done, shorter, longer, interval);
  }

  lemma ReplaceLast(done: seq<Finding>, f: Finding, g: Finding, interval: int)
    requires AllProper(done + [f], interval) && NoneMergeable(done + [f], interval)
    requires Proper(g, interval) && g.after == f.after && g.kind == f.kind
    ensures AllProper(done + [g], interval) && NoneMergeable(done + [g], interval)
  {
    var was, now := done + [f], done + [g];
    forall i | 0 <= i < |now|
      ensures Proper(now[i], interval)
      ensures i > 0 ==> !Mergeable(now[i - 1], now[i], interval)
    {
      assert Proper(was[i], interval);
      assert i > 0 ==> !Mergeable(was[i - 1], was[i], interval);
    }
  }

  /** The next slot starts a run of its own. */
  lemma OpenRun(done: seq<Finding>, seen: seq<Classified>, next: Classified, interval: int)
    requires interval > 0
    requires Groups(done, seen, interval)
    requires done != [] ==> var f := done[|done| - 1]; !(f.kind == next.kind && f.before == next.at)
    ensures Groups(done + [Close(next.at, next.at, next.kind, interval)], seen + [next], interval)
  {
    var f := Close(next.at, next.at, next.kind, interval);
    ClosedRun(next.at, 0, next.kind, interval);
    GridOfMultiple(next.at, interval, 0);
    assert next.at + interval * 1 == next.at + interval;
    assert Expand(f, interval) == [next];
    SpreadSnoc(done, f, interval);
    var fs := done + [f];
    forall i | 0 < i < |fs|
      ensures !Mergeable(fs[i - 1], fs[i], interval)
    {
      assert i < |done| ==> !Mergeable(done[i - 1], done[i], interval);
    }
  }

  /**
   Splits a run of classified slots wherever the class changes or a slot is skipped. The findings
   stand for exactly the given slots in their order, count all of them, and are as few as possible.
   */
  method GroupClassifiedGaps(classified: seq<Classified>, interval: int) returns (findings: seq<Finding>)
    requires interval > 0
    ensures Spread(findings, interval) == classified
    ensures AllProper(findings, interval)
    ensures NoneMergeable(findings, interval)
    ensures Total(findings) == |classified|
  {
    if classified == [] {
      return [];
    }
    var done: seq<Finding> := [];
    var start := classified[0].at;
    var end := start;
    var kind := classified[0].kind;
    ghost var n: nat := 0;
    OpenRun(done, [], classified[0], interval);
    assert [] + [classified[0]] == classified[..1];
    for i := 1 to |classified|
      invariant end == start + interval * n
      invariant Groups(done + [Close(start, end, kind, interval)], classified[..i], interval)
    {
      var item := classified[i];
      assert classified[..i + 1] == classified[..i] + [item];
      if item.kind == kind && item.at == end + interval {
        ExtendRun(done, start, n, kind, classified[..i], interval);
        assert item.at == start + interval * (n + 1);
        assert item == Classified(item.at, kind);
        end := item.at;
        n := n + 1;
      } else {
        done := done + [Close(start, end, kind, interval)];
        OpenRun(done, classified[..i], item, interval);
        start, end, kind := item.at, item.at, item.kind;
        n := 0;
      }
    }
    findings := done + [Close(start, end, kind, interval)];
    assert classified[..|classified|] == classified;
    TotalIsSpread(findings, interval);
  }

  // ---------------------------------------------------------------- the grouping is the only one

  lemma FirstOfSpread(fs: seq<Finding>, interval: int)
    requires interval > 0 && fs != [] && AllProper(fs, interval)
    ensures |Spread(fs, interval)| >= fs[0].missing
    ensures forall k :: 0 <= k < fs[0].missing ==>
      Spread(fs, interval)[k] == Classified(fs[0].after + interval * (k + 1), fs[0].kind)
    ensures Spread(fs, interval)[fs[0].missing..] == Spread(fs[1..], interval)
  {
    ExpandSize(fs[0], interval);
  }

  /** A shorter first finding would have to be followed by one that continues it. */
  lemma ShorterMerges(a: seq<Finding>, b: seq<Finding>, interval: int)
    requires interval > 0 && a != [] && b != []
    requires AllProper(a, interval) && AllProper(b, interval)
    requires Spread(a, interval) == Spread(b, interval)
    requires a[0].missing < b[0].missing
    ensures !NoneMergeable(a, interval)
  {
    FirstOfSpread(a, interval);
    FirstOfSpread(b, interval);
    var k := a[0].missing;
    assert Spread(a, interval)[0] == Spread(b, interval)[0];
    assert a[0].after + interval * 1 == b[0].after + interval * 1;
    assert Spread(a[1..], interval)[0] == Spread(a, interval)[k] == Classified(b[0].after + interval * (k + 1), b[0].kind);
    assert a[1..] != [];
    FirstOfSpread(a[1..], interval);
    assert a[1..][0] == a[1];
    assert a[1].after + interval * 1 == b[0].after + interval * (k + 1);
    assert Mergeable(a[1 - 1], a[1], interval);
  }

  /** Findings that cannot be merged are determined by the slots they stand for. */
  lemma {:induction false} GroupingUnique(a: seq<Finding>, b: seq<Finding>, interval: int)
    requires interval > 0
    requires AllProper(a, interval) && AllProper(b, interval)
    requires NoneMergeable(a, interval) && NoneMergeable(b, interval)
    requires Spread(a, interval) == Spread(b, interval)
    ensures a == b
  {
    if a == [] || b == [] {
      if a != [] {
        FirstOfSpread(a, interval);
      }
      if b != [] {
        FirstOfSpread(b, interval);
      }
    } else {
      if a[0].missing < b[0].missing {
        ShorterMerges(a, b, interval);
      }
      if b[0].missing < a[0].missing {
        ShorterMerges(b, a, interval);
      }
      FirstOfSpread(a, interval);
      FirstOfSpread(b, interval);
      assert Spread(a, interval)[0] == Spread(b, interval)[0];
      assert a[0] == b[0];
      GroupingUnique(a[1..], b[1..], interval);
      assert a == [a[0]] + a[1..] && b == [b[0]] + b[1..];
    }
  }

  // ---------------------------------------------------------------- counts by class

  function TotalOf(fs: seq<Finding>, kind: Kind): int {
    if fs == [] then 0 else (if fs[0].kind == kind then fs[0].missing else 0) + TotalOf(fs[1..], kind)
  }

  function CountOf(cs: seq<Classified>, kind: Kind): nat {
    if cs == [] then 0 else (if cs[0].kind == kind then 1 else 0) + CountOf(cs[1..], kind)
  }

  lemma {:induction false} CountOfConcat(a: seq<Classified>, b: seq<Classified>, kind: Kind)
    ensures CountOf(a + b, kind) == CountOf(a, kind) + CountOf(b, kind)
  {
    if a == [] {
      assert a + b == b;
    } else {
      assert (a + b)[1..] == a[1..] + b;
      CountOfConcat(a[1..], b, kind);
    }
  }

  lemma {:induction false} CountOfTagged(ts: seq<int>, own: Kind, kind: Kind)
    ensures CountOf(Tagged(ts, own), kind) == if own == kind then |ts| else 0
  {
    if ts != [] {
      assert Tagged(ts, own)[1..] == Tagged(ts[1..], own);
      CountOfTagged(ts[1..], own, kind);
    }
  }

  /** The reported number of slots of a class is the number of slots classified so. */
  lemma {:induction false} TotalOfIsCount(fs: seq<Finding>, kind: Kind, interval: int)
    requires interval > 0 && AllProper(fs, interval)
    ensures TotalOf(fs, kind) == CountOf(Spread(fs, interval), kind)
  {
    if fs != [] {
      var f := fs[0];
      ExpandSize(f, interval);
      CountOfTagged(Grid(f.after + interval, f.before, interval), f.kind, kind);
      TotalOfIsCount(fs[1..], kind, interval);
      CountOfConcat(Expand(f, interval), Spread(fs[1..], interval), kind);
    }
  }
}
