/** The rolling request limiter: at most so many admissions in every window. */
module RateLimit {
  import opened Outcomes
  import opened Sets

  datatype Policy = Policy(maximum: int, window: real)

  datatype PolicyError = PolicyNotPositive

  predicate Positive(p: Policy) {
    p.maximum >= 1 && p.window > 0.0
  }

  /** The deque of admission times and the request counters. */
  datatype State = State(stamps: seq<real>, waits: nat, waited: real, observed: nat)

  /** The clock read on entry and, if the limiter was full, read again after the sleep. */
  datatype Readings = Readings(first: real, second: real)

  function Discarded(stamps: seq<real>, now: real, window: real): seq<real> {
    if stamps != [] && now - stamps[0] >= window then Discarded(stamps[1..], now, window) else stamps
  }

  function Wait(p: Policy, stamps: seq<real>, now: real): real
    requires stamps != []
  {
    if stamps[0] + p.window - now > 0.0 then stamps[0] + p.window - now else 0.0
  }

  function Slept(s: State, wait: real): State {
    if wait > 0.0 then s.(waits := s.waits + 1, waited := s.waited + wait) else s
  }

  predicate Full(p: Policy, s: State) {
    |s.stamps| >= p.maximum
  }

  function Append(s: State, now: real): State {
    s.(stamps := s.stamps + [now], observed := s.observed + 1)
  }

  /** One request: the state after it, and the time of its admission if it was admitted. */
  function Attempt(p: Policy, s: State, r: Readings): (State, Option<real>)
    requires Positive(p)
  {
    var entered := s.(stamps := Discarded(s.stamps, r.first, p.window));
    if !Full(p, entered) then (Append(entered, r.first), Some(r.first))
    else
      var slept := Slept(entered, Wait(p, entered.stamps, r.first));
      var again := slept.(stamps := Discarded(slept.stamps, r.second, p.window));
      if Full(p, again) then (again, None) else (Append(again, r.second), Some(r.second))
  }

  class DQ03RateLimiter {
    const policy: Policy
    var timestamps: seq<real>
    var waitCount: nat
    var waitSeconds: real
    var observed: nat

    ghost function View(): State
      reads this
    {
      State(timestamps, waitCount, waitSeconds, observed)
    }

    constructor (policy: Policy)
      requires Positive(policy)
      ensures this.policy == policy && View() == State([], 0, 0.0, 0)
    {
      this.policy := policy;
      timestamps := [];
      waitCount, waitSeconds, observed := 0, 0.0, 0;
    }

    static method Create(policy: Policy) returns (r: Result<DQ03RateLimiter, PolicyError>)
      ensures r.Ok? <==> policy.maximum > 0 && policy.window > 0.0
      ensures r.Ok? ==> fresh(r.value) && r.value.policy == policy && r.value.View() == State([], 0, 0.0, 0)
    {
      if policy.maximum < 1 || policy.window <= 0.0 {
        return Err(PolicyNotPositive);
      }
      var limiter := new DQ03RateLimiter(policy);
      return Ok(limiter);
    }

    method DiscardExpired(now: real)
      modifies this`timestamps
      ensures View() == old(View()).(stamps := Discarded(old(timestamps), now, policy.window))
    {
      while timestamps != [] && now - timestamps[0] >= policy.window
        invariant Discarded(timestamps, now, policy.window) == Discarded(old(timestamps), now, policy.window)
        decreases |timestamps|
      {
        timestamps := timestamps[1..];
      }
    }

    method BeforeRequest(readings: Readings) returns (admitted: Option<real>)
      requires Positive(policy)
      modifies this
      ensures (View(), admitted) == Attempt(policy, old(View()), readings)
    {
      var now := readings.first;
      DiscardExpired(now);
      if |timestamps| >= policy.maximum {
        var wait := Wait(policy, timestamps, now);
        if wait > 0.0 {
          waitCount := waitCount + 1;
          waitSeconds := waitSeconds + wait;
        }
        now := readings.second;
        DiscardExpired(now);
      }
      if |timestamps| >= policy.maximum {
        return None;
      }
      timestamps := timestamps + [now];
      observed := observed + 1;
      return Some(now);
    }
  }

  // ---------------------------------------------------------------- runs

  /** The state and the full history of admissions after a run of requests. */
  function Run(p: Policy, start: State, rs: seq<Readings>): (State, seq<real>)
    requires Positive(p)
  {
    if rs == [] then (start, [])
    else
      var n := |rs| - 1;
      var (s, history) := Run(p, start, rs[..n]);
      var (next, admitted) := Attempt(p, s, rs[n]);
      (next, Extended(history, admitted))
  }

  ghost predicate NonDecreasing(h: seq<real>) {
    forall i, j :: 0 <= i < j < |h| ==> h[i] <= h[j]
  }

  /** The clock never runs backwards. */
  ghost predicate ClockOrdered(rs: seq<Readings>) {
    && (forall i :: 0 <= i < |rs| ==> rs[i].first <= rs[i].second)
    && forall i, j :: 0 <= i < j < |rs| ==> rs[i].second <= rs[j].first
  }

  /** Any maximum + 1 successive admissions span at least the window. */
  ghost predicate Spaced(p: Policy, h: seq<real>) {
    forall i, j :: 0 <= i < j < |h| && j == i + p.maximum ==> h[j] - h[i] >= p.window
  }

  /** The deque is the end of the history; what was dropped has left the window for good. */
  ghost predicate Remembers(p: Policy, s: State, h: seq<real>, last: real) {
    && |s.stamps| <= |h| && |s.stamps| <= p.maximum
    && s.stamps == h[|h| - |s.stamps|..]
    && NonDecreasing(h) && Spaced(p, h)
    && (forall i :: 0 <= i < |h| ==> h[i] <= last)
    && (forall i :: 0 <= i < |h| - |s.stamps| ==> last - h[i] >= p.window)
  }

  lemma {:induction false} DiscardedSuffix(h: seq<real>, d: nat, now: real, window: real)
    requires NonDecreasing(h) && d <= |h|
    requires forall i :: 0 <= i < d ==> now - h[i] >= window
    ensures var kept := Discarded(h[d..], now, window);
            && |kept| <= |h| - d && kept == h[|h| - |kept|..]
            && (forall i :: 0 <= i < |h| - |kept| ==> now - h[i] >= window)
            && (forall i :: |h| - |kept| <= i < |h| ==> now - h[i] < window)
    decreases |h| - d
  {
    if d < |h| && now - h[d] >= window {
      assert h[d..][1..] == h[d + 1..];
      DiscardedSuffix(h, d + 1, now, window);
    }
  }

  lemma Discards(p: Policy, s: State, h: seq<real>, last: real, now: real)
    requires Positive(p) && Remembers(p, s, h, last) && last <= now
    ensures var next := s.(stamps := Discarded(s.stamps, now, p.window));
            && Remembers(p, next, h, now)
            && (forall i :: |h| - |next.stamps| <= i < |h| ==> now - h[i] < p.window)
            && |next.stamps| <= |s.stamps|
  {
    forall i | 0 <= i < |h| - |s.stamps|
      ensures now - h[i] >= p.window
    {
      assert last - h[i] >= p.window;
    }
    DiscardedSuffix(h, |h| - |s.stamps|, now, p.window);
  }

  lemma Appends(p: Policy, s: State, h: seq<real>, now: real)
    requires Positive(p) && Remembers(p, s, h, now) && !Full(p, s)
    ensures Remembers(p, Append(s, now), h + [now], now)
  {
    var next := Append(s, now);
    var longer := h + [now];
    forall i, j | 0 <= i < j < |longer| && j == i + p.maximum
      ensures longer[j] - longer[i] >= p.window
    {
      if j == |h| {
        assert now - h[i] >= p.window;
      }
    }
    assert next.stamps == longer[|longer| - |next.stamps|..];
  }

  /** The second reading and the second look at the deque, after the sleep. */
  lemma RetryRemembers(p: Policy, slept: State, h: seq<real>, first: real, second: real)
    requires Positive(p) && Remembers(p, slept, h, first) && first <= second
    ensures var again := slept.(stamps := Discarded(slept.stamps, second, p.window));
            if Full(p, again) then Remembers(p, again, h, second)
            else Remembers(p, Append(again, second), h + [second], second)
  {
    Discards(p, slept, h, first, second);
    var again := slept.(stamps := Discarded(slept.stamps, second, p.window));
    if !Full(p, again) {
      Appends(p, again, h, second);
    }
  }

  /** One request keeps the deque a faithful memory of the history. */
  lemma AttemptRemembers(p: Policy, s: State, h: seq<real>, last: real, r: Readings)
    requires Positive(p) && Remembers(p, s, h, last) && last <= r.first <= r.second
    ensures var (next, admitted) := Attempt(p, s, r);
            && Remembers(p, next, Extended(h, admitted), r.second)
            && next.observed == s.observed + |Extended(h, admitted)| - |h|
  {
    var entered := s.(stamps := Discarded(s.stamps, r.first, p.window));
    Discards(p, s, h, last, r.first);
    if !Full(p, entered) {
      Appends(p, entered, h, r.first);
      LaterRemembers(p, Append(entered, r.first), h + [r.first], r.first, r.second);
    } else {
      RetryRemembers(p, Slept(entered, Wait(p, entered.stamps, r.first)), h, r.first, r.second);
    }
  }

  function Extended(h: seq<real>, admitted: Option<real>): seq<real> {
    if admitted.Some? then h + [admitted.value] else h
  }

  lemma LaterRemembers(p: Policy, s: State, h: seq<real>, last: real, later: real)
    requires Remembers(p, s, h, last) && last <= later
    ensures Remembers(p, s, h, later)
  {
    forall i | 0 <= i < |h| - |s.stamps|
      ensures later - h[i] >= p.window
    {
      assert last - h[i] >= p.window;
    }
  }

  /** A limiter that has admitted nothing yet. */
  ghost predicate Fresh(s: State) {
    s.stamps == []
  }

  ghost function LastReading(rs: seq<Readings>, start: real): real {
    if rs == [] then start else rs[|rs| - 1].second
  }

  lemma {:induction false} RunRemembers(p: Policy, start: State, rs: seq<Readings>, origin: real)
    requires Positive(p) && Fresh(start) && ClockOrdered(rs)
    requires rs != [] ==> origin <= rs[0].first
    ensures var (s, history) := Run(p, start, rs);
            Remembers(p, s, history, LastReading(rs, origin)) && s.observed == start.observed + |history|
  {
    if rs != [] {
      var n := |rs| - 1;
      RunRemembers(p, start, rs[..n], origin);
      var (s, history) := Run(p, start, rs[..n]);
      if n > 0 {
        assert rs[n - 1].second <= rs[n].first;
      }
      AttemptRemembers(p, s, history, LastReading(rs[..n], origin), rs[n]);
    }
  }

  // ---------------------------------------------------------------- windows

  /** The admissions with from <= time < from + window. */
  ghost function InWindow(p: Policy, h: seq<real>, from: real): set<int> {
    set i | 0 <= i < |h| && from <= h[i] < from + p.window
  }

  ghost function Range(lo: int, n: nat): (r: set<int>)
    ensures |r| == n && forall i :: i in r <==> lo <= i < lo + n
    decreases n
  {
    if n == 0 then {} else Range(lo, n - 1) + {lo + n - 1}
  }

  lemma FirstOfNonEmpty(h: seq<real>, p: Policy, from: real)
    returns (lo: int)
    requires InWindow(p, h, from) != {}
    ensures lo in InWindow(p, h, from) && forall i :: i in InWindow(p, h, from) ==> lo <= i
  {
    lo := 0;
    while lo !in InWindow(p, h, from)
      invariant 0 <= lo <= |h|
      invariant forall i :: i in InWindow(p, h, from) ==> lo <= i
      decreases |h| - lo
    {
      assert exists i :: i in InWindow(p, h, from);
      lo := lo + 1;
    }
  }

  lemma FarApart(p: Policy, h: seq<real>, lo: int, i: int)
    requires Positive(p) && NonDecreasing(h) && Spaced(p, h)
    requires 0 <= lo && lo + p.maximum <= i < |h|
    ensures h[i] - h[lo] >= p.window
  {
    var j := lo + p.maximum;
    assert h[j] - h[lo] >= p.window;
    assert h[j] <= h[i];
  }

  lemma CrowdedWindow(p: Policy, h: seq<real>, i: int, j: int)
    requires Positive(p) && NonDecreasing(h)
    requires 0 <= i < j < |h| && j == i + p.maximum && h[j] - h[i] < p.window
    ensures |InWindow(p, h, h[i])| > p.maximum
  {
    SubsetSize(Range(i, p.maximum + 1), InWindow(p, h, h[i]));
  }

  lemma SpacedLimits(p: Policy, h: seq<real>, from: real)
    requires Positive(p) && NonDecreasing(h) && Spaced(p, h)
    ensures |InWindow(p, h, from)| <= p.maximum
  {
    if InWindow(p, h, from) != {} {
      var lo := FirstOfNonEmpty(h, p, from);
      forall i | i in InWindow(p, h, from)
        ensures lo <= i < lo + p.maximum
      {
        if lo + p.maximum <= i {
          FarApart(p, h, lo, i);
          assert false;
        }
      }
      SubsetSize(InWindow(p, h, from), Range(lo, p.maximum));
    }
  }

  /** Spacing is the same as the limit: no window of that length holds more than the maximum. */
  lemma SpacedIffWindowLimit(p: Policy, h: seq<real>)
    requires Positive(p) && NonDecreasing(h)
    ensures Spaced(p, h) <==> forall from: real :: |InWindow(p, h, from)| <= p.maximum
  {
    if Spaced(p, h) {
      forall from: real
        ensures |InWindow(p, h, from)| <= p.maximum
      {
        SpacedLimits(p, h, from);
      }
    } else {
      var i, j :| 0 <= i < j < |h| && j == i + p.maximum && h[j] - h[i] < p.window;
      CrowdedWindow(p, h, i, j);
    }
  }

  /** Over any run with a forward clock and any sleeper, no window holds more admissions than the maximum. */
  lemma WindowNeverExceeded(p: Policy, start: State, rs: seq<Readings>, from: real)
    requires Positive(p) && Fresh(start) && ClockOrdered(rs)
    ensures var (s, history) := Run(p, start, rs);
            |InWindow(p, history, from)| <= p.maximum && s.observed == start.observed + |history|
  {
    RunRemembers(p, start, rs, if rs == [] then 0.0 else rs[0].first);
    SpacedIffWindowLimit(p, Run(p, start, rs).1);
  }

  // ---------------------------------------------------------------- when a request waits or fails

  /** The limit is reached at an instant: the last maximum admissions all lie within the window before it. */
  ghost predicate Exhausted(p: Policy, h: seq<real>, now: real) {
    |h| >= p.maximum && p.maximum >= 1 && now - h[|h| - p.maximum] < p.window
  }

  /** What one request does, judged by a history that the deque remembers. */
  lemma AttemptByHistory(p: Policy, s: State, h: seq<real>, last: real, r: Readings)
    requires Positive(p) && Remembers(p, s, h, last) && last <= r.first <= r.second
    ensures var (next, admitted) := Attempt(p, s, r);
            && (admitted.None? <==> Exhausted(p, h, r.second))
            && next.waits == s.waits + (if Exhausted(p, h, r.first) then 1 else 0)
            && (Exhausted(p, h, r.first) ==> next.waited == s.waited + (h[|h| - p.maximum] + p.window - r.first))
            && (admitted.Some? ==> admitted.value == if Exhausted(p, h, r.first) then r.second else r.first)
  {
    Discards(p, s, h, last, r.first);
    var entered := s.(stamps := Discarded(s.stamps, r.first, p.window));
    FullIffExhausted(p, entered, h, r.first);
    if Full(p, entered) {
      var slept := Slept(entered, Wait(p, entered.stamps, r.first));
      Discards(p, slept, h, r.first, r.second);
      FullIffExhausted(p, slept.(stamps := Discarded(slept.stamps, r.second, p.window)), h, r.second);
    }
  }

  lemma FullIffExhausted(p: Policy, s: State, h: seq<real>, now: real)
    requires Positive(p) && Remembers(p, s, h, now)
    requires forall i :: |h| - |s.stamps| <= i < |h| ==> now - h[i] < p.window
    ensures Full(p, s) <==> Exhausted(p, h, now)
    ensures Full(p, s) ==> s.stamps[0] == h[|h| - p.maximum]
  {
    if |h| >= p.maximum {
      var i := |h| - p.maximum;
      assert i < |h| - |s.stamps| ==> now - h[i] >= p.window;
    }
  }

  /** The state and history in which request n arrives are remembered, at a reading no later than its own. */
  lemma Arrives(p: Policy, start: State, rs: seq<Readings>, n: nat) returns (last: real)
    requires Positive(p) && Fresh(start) && ClockOrdered(rs) && n < |rs|
    ensures var (s, h) := Run(p, start, rs[..n]);
            Remembers(p, s, h, last) && last <= rs[n].first <= rs[n].second
    ensures Run(p, start, rs[..n + 1])
            == (Attempt(p, Run(p, start, rs[..n]).0, rs[n]).0,
                Extended(Run(p, start, rs[..n]).1, Attempt(p, Run(p, start, rs[..n]).0, rs[n]).1))
  {
    RunRemembers(p, start, rs[..n], rs[0].first);
    last := LastReading(rs[..n], rs[0].first);
    assert rs[..n + 1][..n] == rs[..n];
  }

  /**
   In every run and judged by the whole history: request n is refused exactly when the limit is
   reached at its last reading; it sleeps exactly when it is reached at its first, until the oldest
   of those admissions leaves.
   */
  lemma RefusedIffExhausted(p: Policy, start: State, rs: seq<Readings>, n: nat)
    requires Positive(p) && Fresh(start) && ClockOrdered(rs) && n < |rs|
    ensures var (s, h) := Run(p, start, rs[..n]);
            var (next, longer) := Run(p, start, rs[..n + 1]);
            var r := rs[n];
            && (longer == h <==> Exhausted(p, h, r.second))
            && (longer != h ==> longer == h + [if Exhausted(p, h, r.first) then r.second else r.first])
            && next.waits == s.waits + (if Exhausted(p, h, r.first) then 1 else 0)
            && (Exhausted(p, h, r.first) ==> next.waited == s.waited + (h[|h| - p.maximum] + p.window - r.first))
  {
    var last := Arrives(p, start, rs, n);
    var (s, h) := Run(p, start, rs[..n]);
    AttemptByHistory(p, s, h, last, rs[n]);
    assert forall x: real :: |h + [x]| > |h|;
  }

  /** Each sleep of the run lasts at least as long as it was asked to. */
  ghost predicate Patient(p: Policy, start: State, rs: seq<Readings>)
    requires Positive(p)
  {
    forall n :: 0 <= n < |rs| ==>
      rs[n].second - rs[n].first >= Run(p, start, rs[..n + 1]).0.waited - Run(p, start, rs[..n]).0.waited
  }

  /** A run whose sleeper really waits as long as it was asked admits every request. */
  lemma {:induction false} WaitingSucceeds(p: Policy, start: State, rs: seq<Readings>, n: nat)
    requires Positive(p) && Fresh(start) && ClockOrdered(rs) && Patient(p, start, rs) && n <= |rs|
    ensures |Run(p, start, rs[..n]).1| == n
  {
    if n > 0 {
      WaitingSucceeds(p, start, rs, n - 1);
      RefusedIffExhausted(p, start, rs, n - 1);
    }
  }
}
