/** Hypothetical positions: the in-memory store, the leader-only core and its performance figures. */
module ShadowExecution {
  import opened Outcomes
  import opened Decimals

  datatype Lifecycle = IntentCreated | Open | Closed | Reconciled | FailedSafe

  datatype Direction = Buy | Sell

  datatype ExitReason = Stop | Target | Other(text: string)

  datatype Record = Record(
    positionId: int, intentId: int, strategy: string, instrument: string, direction: Direction,
    entry: real, stop: real, target: real, token: int, createdAt: int, updatedAt: int,
    lifecycle: Lifecycle, openedAt: Option<int>, closedAt: Option<int>,
    exitPrice: Option<real>, exitReason: Option<ExitReason>)

  /** The optional columns a transition writes; None keeps the stored value. */
  datatype Update = Update(
    updatedAt: int, openedAt: Option<int>, closedAt: Option<int>,
    exitPrice: Option<real>, exitReason: Option<ExitReason>)

  datatype Error =
    | StaleToken | DuplicateConflict | TransitionConflict | TransitionInvalid
    | NotAuthorized | BadQuote | UnknownInstrument | RiskVeto | NotActionable | BadGeometry
    | TokenUnavailable | NotClosed | PerformanceUnavailable | DivisionByZero

  datatype Store = Store(token: int, records: map<int, Record>)

  predicate Unresolved(l: Lifecycle) {
    l == IntentCreated || l == Open || l == FailedSafe
  }

  predicate AllowedTransition(from: Lifecycle, to: Lifecycle) {
    || (from == IntentCreated && to == Open)
    || (from == Open && (to == Closed || to == FailedSafe))
    || (from == Closed && to == Reconciled)
  }

  predicate SameIntent(a: Record, b: Record) {
    && a.intentId == b.intentId && a.strategy == b.strategy && a.instrument == b.instrument
    && a.direction == b.direction && a.entry == b.entry && a.stop == b.stop && a.target == b.target
  }

  function Or<T>(update: Option<T>, current: Option<T>): Option<T> {
    if update.Some? then update else current
  }

  function Updated(r: Record, to: Lifecycle, token: int, u: Update): Record {
    r.(lifecycle := to, token := token, updatedAt := u.updatedAt,
       openedAt := Or(u.openedAt, r.openedAt), closedAt := Or(u.closedAt, r.closedAt),
       exitPrice := Or(u.exitPrice, r.exitPrice), exitReason := Or(u.exitReason, r.exitReason))
  }

  function Put(s: Store, r: Record): Result<(Store, Record), Error> {
    if r.token != s.token then Err(StaleToken)
    else if r.intentId in s.records then
      if SameIntent(s.records[r.intentId], r) then Ok((s, s.records[r.intentId])) else Err(DuplicateConflict)
    else Ok((s.(records := s.records[r.intentId := r]), r))
  }

  function Transition(s: Store, id: int, from: Lifecycle, to: Lifecycle, token: int, u: Update)
    : Result<(Store, Record), Error>
  {
    if token != s.token then Err(StaleToken)
    else if id !in s.records || s.records[id].lifecycle != from then Err(TransitionConflict)
    else if !AllowedTransition(from, to) then Err(TransitionInvalid)
    else
      var r := Updated(s.records[id], to, token, u);
      Ok((s.(records := s.records[id := r]), r))
  }

  function ActiveIds(records: map<int, Record>): set<int> {
    set id | id in records && Unresolved(records[id].lifecycle)
  }

  class InMemoryShadowStore {
    var currentFencingToken: int
    var records: map<int, Record>

    function View(): Store
      reads this
    {
      Store(currentFencingToken, records)
    }

    constructor (token: int)
      ensures View() == Store(token, map[])
    {
      currentFencingToken, records := token, map[];
    }

    method PutRecord(r: Record) returns (result: Result<Record, Error>)
      modifies this`records
      ensures match Put(old(View()), r)
              case Ok((after, stored)) => View() == after && result == Ok(stored)
              case Err(e) => View() == old(View()) && result == Err(e)
    {
      if r.token != currentFencingToken {
        return Err(StaleToken);
      }
      if r.intentId in records && !SameIntent(records[r.intentId], r) {
        return Err(DuplicateConflict);
      }
      var stored := if r.intentId in records then records[r.intentId] else r;
      records := records[r.intentId := stored];
      return Ok(stored);
    }

    method TransitionRecord(id: int, from: Lifecycle, to: Lifecycle, token: int, u: Update)
      returns (result: Result<Record, Error>)
      modifies this`records
      ensures match Transition(old(View()), id, from, to, token, u)
              case Ok((after, stored)) => View() == after && result == Ok(stored)
              case Err(e) => View() == old(View()) && result == Err(e)
    {
      if token != currentFencingToken {
        return Err(StaleToken);
      }
      if id !in records || records[id].lifecycle != from {
        return Err(TransitionConflict);
      }
      if !AllowedTransition(from, to) {
        return Err(TransitionInvalid);
      }
      var updated := Updated(records[id], to, token, u);
      records := records[id := updated];
      return Ok(updated);
    }
  }

  // ---------------------------------------------------------------- core

  /** What the lease and the mode grant at the moment of a call. */
  datatype Authority = Authority(shadowMode: bool, leaseAuthorized: bool, token: Option<int>)

  datatype Quote = Quote(bid: real, offer: real, asOf: int)

  datatype Signal = Signal(strategy: string, instrument: string, direction: Option<Direction>, approved: bool)

  datatype Call =
    | Create(auth: Authority, signal: Signal, quote: Quote, intentId: int, stop: real, target: real, now: int)
    | OpenIntent(auth: Authority, position: Record, now: int)
    | CloseOnQuote(auth: Authority, position: Record, quote: Quote, now: int)
    | Reconcile(auth: Authority, position: Record, now: int)
    | MoveFence(token: int)

  /** The injected registry of instruments, each with a positive pip size, and the quote age limit. */
  datatype Settings = Settings(pipSizes: map<string, real>, maxQuoteAge: int)

  ghost predicate GoodSettings(c: Settings) {
    forall name :: name in c.pipSizes ==> c.pipSizes[name] > 0.0
  }

  function PositionIdOf(intentId: int): int { intentId }

  predicate QuoteUsable(q: Quote, now: int, maxAge: int) {
    q.bid > 0.0 && q.offer > 0.0 && q.bid <= q.offer && q.asOf <= now && now - q.asOf <= maxAge
  }

  predicate GeometryValid(direction: Direction, entry: real, stop: real, target: real) {
    && entry > 0.0 && stop > 0.0 && target > 0.0
    && (direction == Buy ==> stop < entry < target)
    && (direction == Sell ==> target < entry < stop)
  }

  predicate Leader(a: Authority) {
    a.shadowMode && a.leaseAuthorized
  }

  function TokenOf(a: Authority): Result<int, Error> {
    if a.token.Some? && a.token.value > 0 then Ok(a.token.value) else Err(TokenUnavailable)
  }

  /** The exit a quote triggers on an open position; the stop is tested first. */
  function ExitOn(p: Record, q: Quote): Option<(real, ExitReason)> {
    match p.direction
    case Buy =>
      if q.bid <= p.stop then Some((q.bid, Stop))
      else if q.bid >= p.target then Some((q.bid, Target)) else None
    case Sell =>
      if q.offer >= p.stop then Some((q.offer, Stop))
      else if q.offer <= p.target then Some((q.offer, Target)) else None
  }

  /** What the core asks of its store, once its own checks pass. */
  datatype Ask =
    | Keep(position: Record)
    | GetOrPut(r: Record)
    | Move(id: int, from: Lifecycle, to: Lifecycle, token: int, u: Update)

  function AskedToCreate(c: Settings, call: Call): Result<Ask, Error>
    requires call.Create?
  {
    if !Leader(call.auth) then Err(NotAuthorized)
    else if !QuoteUsable(call.quote, call.now, c.maxQuoteAge) then Err(BadQuote)
    else if call.signal.instrument !in c.pipSizes then Err(UnknownInstrument)
    else if !call.signal.approved then Err(RiskVeto)
    else if call.signal.direction.None? then Err(NotActionable)
    else
      var direction := call.signal.direction.value;
      var entry := if direction == Buy then call.quote.offer else call.quote.bid;
      if !GeometryValid(direction, entry, call.stop, call.target) then Err(BadGeometry)
      else match TokenOf(call.auth)
        case Err(e) => Err(e)
        case Ok(token) =>
          Ok(GetOrPut(Record(PositionIdOf(call.intentId), call.intentId, call.signal.strategy, call.signal.instrument,
                             direction, entry, call.stop, call.target, token, call.now, call.now,
                             IntentCreated, None, None, None, None)))
  }

  function Asked(c: Settings, call: Call): Result<Ask, Error>
    requires !call.MoveFence?
  {
    match call
    case Create(_, _, _, _, _, _, _) => AskedToCreate(c, call)
    case OpenIntent(auth, p, now) =>
      if !Leader(auth) then Err(NotAuthorized)
      else if p.lifecycle == Open then Ok(Keep(p))
      else (match TokenOf(auth)
        case Err(e) => Err(e)
        case Ok(token) => Ok(Move(p.intentId, IntentCreated, Open, token, Update(now, Some(now), None, None, None))))
    case CloseOnQuote(auth, p, quote, now) =>
      if !Leader(auth) then Err(NotAuthorized)
      else if !QuoteUsable(quote, now, c.maxQuoteAge) then Err(BadQuote)
      else if p.lifecycle != Open || ExitOn(p, quote).None? then Ok(Keep(p))
      else (match TokenOf(auth)
        case Err(e) => Err(e)
        case Ok(token) =>
          var (price, reason) := ExitOn(p, quote).value;
          Ok(Move(p.intentId, Open, Closed, token, Update(now, None, Some(now), Some(price), Some(reason)))))
    case Reconcile(auth, p, now) =>
      if !Leader(auth) then Err(NotAuthorized)
      else if p.lifecycle == Reconciled then Ok(Keep(p))
      else if p.lifecycle != Closed then Err(NotClosed)
      else match TokenOf(auth)
        case Err(e) => Err(e)
        case Ok(token) => Ok(Move(p.intentId, Closed, Reconciled, token, Update(now, None, None, None, None)))
  }

  /** The in-memory store's answer. */
  function Answer(s: Store, ask: Ask): Result<(Store, Record), Error> {
    match ask
    case Keep(p) => Ok((s, p))
    case GetOrPut(r) =>
      if r.intentId in s.records then
        if SameIntent(s.records[r.intentId], r) then Ok((s, s.records[r.intentId])) else Err(DuplicateConflict)
      else Put(s, r)
    case Move(id, from, to, token, u) => Transition(s, id, from, to, token, u)
  }

  function Perform(s: Store, c: Settings, call: Call): Result<(Store, Record), Error>
    requires !call.MoveFence?
  {
    match Asked(c, call)
    case Err(e) => Err(e)
    case Ok(ask) => Answer(s, ask)
  }

  datatype Performance = Performance(rawDelta: real, pips: real, rMultiple: real, reason: ExitReason)

  function RawDelta(p: Record): real
    requires p.exitPrice.Some?
  {
    if p.direction == Buy then p.exitPrice.value - p.entry else p.entry - p.exitPrice.value
  }

  function PerformanceOf(p: Record, c: Settings): Result<Performance, Error>
    requires GoodSettings(c)
  {
    if !(p.lifecycle == Closed || p.lifecycle == Reconciled) || p.exitPrice.None? || p.exitReason.None?
       || p.openedAt.None? || p.closedAt.None? then Err(PerformanceUnavailable)
    else if p.instrument !in c.pipSizes then Err(UnknownInstrument)
    else if p.entry == p.stop then Err(DivisionByZero)
    else Ok(Performance(RawDelta(p), RawDelta(p) / c.pipSizes[p.instrument],
                        RawDelta(p) / Abs(p.entry - p.stop), p.exitReason.value))
  }

  // ---------------------------------------------------------------- whole runs

  /** A run of the core, with every record it has handed to its callers so far. */
  datatype Run = Run(store: Store, handed: set<Record>)

  /** Callers hold records the core returned, possibly stale ones. */
  ghost predicate CanCall(run: Run, call: Call) {
    match call
    case Create(_, _, _, _, _, _, _) => true
    case OpenIntent(_, p, _) => p in run.handed
    case CloseOnQuote(_, p, _, _) => p in run.handed
    case Reconcile(_, p, _) => p in run.handed
    case MoveFence(_) => true
  }

  function After(run: Run, c: Settings, call: Call): Run {
    if call.MoveFence? then run.(store := run.store.(token := call.token))
    else match Perform(run.store, c, call)
      case Err(_) => run
      case Ok((store, r)) => Run(store, run.handed + {r})
  }

  ghost predicate Leads(run: Run, c: Settings, call: Call, after: Run) {
    CanCall(run, call) && after == After(run, c, call)
  }

  ghost predicate IsRun(c: Settings, runs: seq<Run>, calls: seq<Call>) {
    && |runs| == |calls| + 1 && runs[0].store.records == map[] && runs[0].handed == {}
    && forall i {:trigger calls[i]} :: 0 <= i < |calls| ==> Leads(runs[i], c, calls[i], runs[i + 1])
  }

  /** What every record the core makes or moves satisfies. */
  ghost predicate WellMade(r: Record, c: Settings) {
    && GeometryValid(r.direction, r.entry, r.stop, r.target)
    && r.instrument in c.pipSizes
    && r.lifecycle != FailedSafe
    && (r.lifecycle == IntentCreated ==> r.openedAt.None? && r.exitPrice.None?)
    && (r.lifecycle != IntentCreated ==> r.openedAt.Some?)
    && (r.lifecycle == Closed || r.lifecycle == Reconciled ==>
          && r.closedAt.Some? && r.exitPrice.Some? && r.exitReason.Some?
          && (r.exitReason.value == Stop ||  r.exitReason.value == Target)
          && (r.exitReason.value == Stop ==>
                if r.direction == Buy then r.exitPrice.value <= r.stop else r.exitPrice.value >= r.stop)
          && (r.exitReason.value == Target ==>
                if r.direction == Buy then r.exitPrice.value >= r.target else r.exitPrice.value <= r.target))
  }

  ghost predicate RunInv(run: Run, c: Settings) {
    && (forall id :: id in run.store.records ==>
          run.store.records[id].intentId == id && WellMade(run.store.records[id], c))
    && (forall r :: r in run.handed ==>
          && WellMade(r, c)
          && r.intentId in run.store.records && SameIntent(r, run.store.records[r.intentId]))
  }

  lemma StoredKeepsInv(run: Run, c: Settings, r: Record)
    requires RunInv(run, c) && WellMade(r, c)
    requires r.intentId in run.store.records ==> SameIntent(r, run.store.records[r.intentId])
    ensures RunInv(Run(run.store.(records := run.store.records[r.intentId := r]), run.handed + {r}), c)
  {
  }

  lemma HandedKeepsInv(run: Run, c: Settings, r: Record)
    requires RunInv(run, c)
    requires r in run.handed || (r.intentId in run.store.records && run.store.records[r.intentId] == r)
    ensures RunInv(run.(handed := run.handed + {r}), c)
  {
  }

  lemma CallKeepsInv(run: Run, c: Settings, call: Call)
    requires RunInv(run, c) && CanCall(run, call)
    ensures RunInv(After(run, c, call), c)
  {
    if !call.MoveFence? && Perform(run.store, c, call).Ok? {
      var (store, r) := Perform(run.store, c, call).value;
      if store == run.store {
        HandedKeepsInv(run, c, r);
        assert Run(store, run.handed + {r}) == run.(handed := run.handed + {r});
      } else {
        assert WellMade(r, c) && store == run.store.(records := run.store.records[r.intentId := r]);
        StoredKeepsInv(run, c, r);
      }
    }
  }

  lemma {:induction false} RunsKeepInv(c: Settings, runs: seq<Run>, calls: seq<Call>, i: nat)
    requires IsRun(c, runs, calls) && i < |runs|
    ensures RunInv(runs[i], c)
  {
    if i > 0 {
      RunsKeepInv(c, runs, calls, i - 1);
      assert Leads(runs[i - 1], c, calls[i - 1], runs[i]);
      CallKeepsInv(runs[i - 1], c, calls[i - 1]);
    }
  }

  lemma QuotientAtMost(a: real, b: real, bound: real)
    requires b > 0.0 && a <= bound * b
    ensures a / b <= bound
  {
  }

  lemma QuotientAtLeast(a: real, b: real, bound: real)
    requires b > 0.0 && a >= bound * b
    ensures a / b >= bound
  {
  }

  /** The planned reward per unit of risk. */
  function RewardToRisk(r: Record): real
    requires r.entry != r.stop
  {
    Abs(r.target - r.entry) / Abs(r.entry - r.stop)
  }

  lemma ExitBounds(r: Record, c: Settings)
    requires GoodSettings(c) && WellMade(r, c) && PerformanceOf(r, c).Ok?
    ensures RewardToRisk(r) > 0.0
    ensures var figures := PerformanceOf(r, c).value;
            && (figures.reason == Stop || figures.reason == Target)
            && (figures.reason == Stop ==> figures.rMultiple <= -1.0)
            && (figures.reason == Target ==> figures.rMultiple >= RewardToRisk(r))
  {
    var risk, reward := Abs(r.entry - r.stop), Abs(r.target - r.entry);
    assert reward / risk > 0.0;
    if r.exitReason.value == Stop {
      assert RawDelta(r) <= -risk;
      QuotientAtMost(RawDelta(r), risk, -1.0);
    } else {
      assert RawDelta(r) >= reward == RewardToRisk(r) * risk;
      QuotientAtLeast(RawDelta(r), risk, RewardToRisk(r));
    }
  }

  /**
   In every run, for every record the core has handed out: the performance figures exist exactly
   once the record is closed, a stop exit loses at least the full risk and a target exit earns at
   least the planned reward.
   */
  lemma ExitsBoundR(c: Settings, runs: seq<Run>, calls: seq<Call>, i: nat, r: Record)
    requires GoodSettings(c) && IsRun(c, runs, calls) && i < |runs| && r in runs[i].handed
    ensures r.entry != r.stop
    ensures PerformanceOf(r, c).Ok? <==> r.lifecycle == Closed || r.lifecycle == Reconciled
    ensures PerformanceOf(r, c).Ok? ==>
              var figures := PerformanceOf(r, c).value;
              && (figures.reason == Stop || figures.reason == Target)
              && (figures.reason == Stop ==> figures.rMultiple <= -1.0)
              && (figures.reason == Target ==> figures.rMultiple >= RewardToRisk(r) > 0.0)
  {
    RunsKeepInv(c, runs, calls, i);
    if PerformanceOf(r, c).Ok? {
      ExitBounds(r, c);
    }
  }
}
