/** The shadow core over the durable store does what the same core does in memory. */
module ShadowSimulation {
  import opened Outcomes
  import opened ShadowExecution
  import opened Decimals
  import Db = ShadowPostgres

  datatype Failure = Refused(why: Error) | Failed(cause: Db.StoreError)

  function Lifted(answer: (Db.State, Result<Record, Db.StoreError>)): (Db.State, Result<Record, Failure>) {
    match answer.1
    case Ok(r) => (answer.0, Ok(r))
    case Err(e) => (answer.0, Err(Failed(e)))
  }

  /** The durable store's answer; reachable says whether the read before a put succeeds. */
  function Answer(s: Db.State, ask: Ask, env: Db.Environment, reachable: bool): (Db.State, Result<Record, Failure>) {
    match ask
    case Keep(p) => (s, Ok(p))
    case GetOrPut(r) =>
      if !reachable then (s, Err(Failed(Db.FailedClosed)))
      else (match Db.Read(s.tables, r.intentId)
        case Err(e) => (s, Err(Failed(e)))
        case Ok(Some(existing)) =>
          if SameIntent(existing, r) then (s, Ok(existing)) else (s, Err(Refused(DuplicateConflict)))
        case Ok(None) => Lifted(Db.FencedPut(s, r, env)))
    case Move(id, from, to, token, u) => Lifted(Db.FencedTransition(s, id, from, to, token, u, env))
  }

  // ---------------------------------------------------------------- runs

  /** The core over the durable store, with every record it has handed to its callers so far. */
  datatype Core = Core(store: Db.State, handed: set<Record>)

  datatype Step =
    | CallStep(call: Call, env: Db.Environment, reachable: bool)
    | LeaseStep(held: Option<int>)

  ghost predicate CanStep(k: Core, step: Step) {
    step.CallStep? ==> !step.call.MoveFence? && (!step.call.Create? ==> step.call.position in k.handed)
  }

  function After(c: Settings, k: Core, step: Step): Core {
    match step
    case LeaseStep(held) => k.(store := k.store.(held := held))
    case CallStep(call, env, reachable) =>
      if call.MoveFence? || Asked(c, call).Err? then k
      else
        var (store, result) := Answer(k.store, Asked(c, call).value, env, reachable);
        Core(store, if result.Ok? then k.handed + {result.value} else k.handed)
  }

  ghost predicate Leads(c: Settings, k: Core, step: Step, after: Core) {
    CanStep(k, step) && after == After(c, k, step)
  }

  ghost predicate IsRun(c: Settings, ks: seq<Core>, steps: seq<Step>) {
    && |ks| == |steps| + 1 && ks[0].store.tables == Db.Tables(map[], map[]) && ks[0].handed == {}
    && forall i {:trigger steps[i]} :: 0 <= i < |steps| ==> Leads(c, ks[i], steps[i], ks[i + 1])
  }

  /** Fifteen digits write the prices of a quote that may close a position. */
  ghost predicate ShortCall(call: Call) {
    call.CloseOnQuote? ==> FitsDigits(call.quote.bid, Db.FLOAT_DIGITS) && FitsDigits(call.quote.offer, Db.FLOAT_DIGITS)
  }

  ghost predicate ShortStep(step: Step) {
    step.CallStep? ==> ShortCall(step.call)
  }

  ghost predicate ShortQuotes(steps: seq<Step>) {
    forall k :: 0 <= k < |steps| ==> ShortStep(steps[k])
  }

  ghost predicate AllShort(calls: seq<Call>) {
    forall k :: 0 <= k < |calls| ==> ShortCall(calls[k])
  }

  // ---------------------------------------------------------------- the relation

  /** A record as the durable store gives it back. */
  function Kept(m: Record): Record {
    if m.exitPrice.Some? then m.(exitPrice := Some(Db.Column(m.exitPrice.value))) else m
  }

  ghost predicate KeptAll(rs: map<int, Record>, ms: map<int, Record>) {
    rs.Keys == ms.Keys && forall id :: id in ms ==> rs[id] == Kept(ms[id])
  }

  ghost predicate Stands(s: Db.State, ms: map<int, Record>) {
    Db.TablesInv(s.tables) && KeptAll(Db.Records(s.tables), ms)
  }

  ghost predicate KeptIn(r: Record, handed: set<Record>) {
    exists m :: m in handed && r == Kept(m)
  }

  /** The durable core stands where an in-memory core does, up to what the column keeps of exit prices. */
  ghost predicate Simulated(k: Core, run: Run) {
    Stands(k.store, run.store.records) && forall r :: r in k.handed ==> KeptIn(r, run.handed)
  }

  // ---------------------------------------------------------------- one call

  /** Whatever the core asks has the shape the store's guarantees need. */
  lemma CoreAsks(c: Settings, call: Call)
    requires !call.MoveFence? && Asked(c, call).Ok?
    ensures match Asked(c, call).value
            case Keep(p) => !call.Create? && p == call.position
            case GetOrPut(r) => Db.NewRecord(r)
            case Move(_, from, to, _, u) => AllowedTransition(from, to) && Db.CoreUpdate(from, u)
  {
  }

  ghost predicate Twins(ask: Ask, mask: Ask) {
    if mask.Keep? then ask == Keep(Kept(mask.position)) else ask == mask
  }

  /** The core never looks at an exit price, so it asks the same of both stores. */
  lemma SameAsk(c: Settings, call: Call, m: Record)
    requires !call.MoveFence? && !call.Create? && call.position == Kept(m)
    ensures var twin := call.(position := m);
            if Asked(c, call).Err? then Asked(c, twin) == Err(Asked(c, call).error)
            else Asked(c, twin).Ok? && Twins(Asked(c, call).value, Asked(c, twin).value)
  {
  }

  lemma PutSimulated(s: Db.State, ms: Store, r: Record, env: Db.Environment)
    requires s.held == Some(ms.token) && Stands(s, ms.records) && Db.NewRecord(r)
    requires r.intentId !in ms.records
    ensures var (after, result) := Db.FencedPut(s, r, env);
            var memory := Put(ms, r);
            result.Ok? || after.tables != s.tables ==>
              && memory.Ok? && Stands(after, memory.value.0.records)
              && (result.Ok? ==> result.value == Kept(memory.value.1))
  {
    Db.PutRefines(s, r, env, ms.token);
  }

  lemma MovedKept(m: Record, to: Lifecycle, token: int, u: Update)
    ensures Kept(Updated(m, to, token, u)) == Updated(Kept(m), to, token, Db.ColumnUpdate(u))
  {
  }

  lemma KeptUpdate(rs: map<int, Record>, ms: map<int, Record>, id: int, m: Record)
    requires KeptAll(rs, ms)
    ensures KeptAll(rs[id := Kept(m)], ms[id := m])
  {
  }

  lemma TransitionKept(rs: map<int, Record>, ms: Store, id: int, from: Lifecycle, to: Lifecycle, token: int, u: Update)
    requires KeptAll(rs, ms.records)
    ensures var durable := Transition(Store(ms.token, rs), id, from, to, token, Db.ColumnUpdate(u));
            var memory := Transition(ms, id, from, to, token, u);
            durable.Ok? ==>
              && memory.Ok? && KeptAll(durable.value.0.records, memory.value.0.records)
              && durable.value.1 == Kept(memory.value.1)
  {
    if id in ms.records {
      MovedKept(ms.records[id], to, token, u);
      KeptUpdate(rs, ms.records, id, Updated(ms.records[id], to, token, u));
    }
  }

  lemma MoveSimulated(s: Db.State, ms: Store, id: int, from: Lifecycle, to: Lifecycle, token: int, u: Update,
                      env: Db.Environment)
    requires s.held == Some(ms.token) && Stands(s, ms.records) && Db.CoreUpdate(from, u)
    ensures var (after, result) := Db.FencedTransition(s, id, from, to, token, u, env);
            var memory := Transition(ms, id, from, to, token, u);
            result.Ok? || after.tables != s.tables ==>
              && memory.Ok? && Stands(after, memory.value.0.records)
              && (result.Ok? ==> result.value == Kept(memory.value.1))
  {
    Db.TransitionRefines(s, id, from, to, token, u, env, ms.token);
    TransitionKept(Db.Records(s.tables), ms, id, from, to, token, u);
  }

  /** A call that answers with a record, or changes the tables, is a call in memory under the same token. */
  lemma AnswerSimulated(s: Db.State, ms: Store, ask: Ask, mask: Ask, env: Db.Environment, reachable: bool)
    requires s.held == Some(ms.token) && Stands(s, ms.records) && Twins(ask, mask)
    requires ask.GetOrPut? ==> Db.NewRecord(ask.r)
    requires ask.Move? ==> Db.CoreUpdate(ask.from, ask.u)
    ensures var (after, result) := Answer(s, ask, env, reachable);
            var memory := ShadowExecution.Answer(ms, mask);
            result.Ok? || after.tables != s.tables ==>
              && memory.Ok? && Stands(after, memory.value.0.records)
              && (result.Ok? ==> result.value == Kept(memory.value.1))
  {
    match ask
    case Keep(_) =>
    case GetOrPut(r) =>
      if r.intentId !in ms.records {
        PutSimulated(s, ms, r, env);
      }
    case Move(id, from, to, token, u) => MoveSimulated(s, ms, id, from, to, token, u, env);
  }

  /** Without the lease the tables stay; what is answered was read or already held. */
  lemma UnleasedAnswer(s: Db.State, ms: Store, ask: Ask, mask: Ask, env: Db.Environment, reachable: bool)
    requires s.held.None? && Stands(s, ms.records) && Twins(ask, mask)
    ensures var (after, result) := Answer(s, ask, env, reachable);
            var memory := ShadowExecution.Answer(ms, mask);
            && after.tables == s.tables
            && (result.Ok? ==>
                  memory.Ok? && memory.value.0.records == ms.records && result.value == Kept(memory.value.1))
  {
  }

  // ---------------------------------------------------------------- whole runs

  /** One more call of the in-memory core. */
  lemma Extended(c: Settings, runs: seq<Run>, calls: seq<Call>, call: Call) returns (runs': seq<Run>, calls': seq<Call>)
    requires ShadowExecution.IsRun(c, runs, calls) && CanCall(runs[|calls|], call)
    ensures ShadowExecution.IsRun(c, runs', calls') && |runs'| == |calls'| + 1
    ensures AllShort(calls) && ShortCall(call) ==> AllShort(calls')
    ensures runs'[|calls'|] == ShadowExecution.After(runs[|calls|], c, call)
  {
    runs', calls' := runs + [ShadowExecution.After(runs[|calls|], c, call)], calls + [call];
    forall i {:trigger calls'[i]} | 0 <= i < |calls'|
      ensures ShadowExecution.Leads(runs'[i], c, calls'[i], runs'[i + 1])
    {
      if i < |calls| {
        assert ShadowExecution.Leads(runs[i], c, calls[i], runs[i + 1]);
      }
    }
  }

  /** The in-memory core's own call for a call on the durable one. */
  lemma Twin(c: Settings, k: Core, run: Run, call: Call) returns (twin: Call)
    requires Simulated(k, run) && !call.MoveFence? && (!call.Create? ==> call.position in k.handed)
    requires Asked(c, call).Ok?
    ensures !twin.MoveFence? && CanCall(run, twin)
    ensures Asked(c, twin).Ok? && Twins(Asked(c, call).value, Asked(c, twin).value)
    ensures ShortCall(call) ==> ShortCall(twin)
  {
    twin := call;
    if call.Create? {
      CoreAsks(c, call);
    } else {
      assert KeptIn(call.position, run.handed);
      var m :| m in run.handed && call.position == Kept(m);
      twin := call.(position := m);
      SameAsk(c, call, m);
    }
  }

  lemma StepSimulated(c: Settings, k: Core, step: Step, runs: seq<Run>, calls: seq<Call>)
    returns (runs': seq<Run>, calls': seq<Call>)
    requires CanStep(k, step) && ShadowExecution.IsRun(c, runs, calls) && Simulated(k, runs[|calls|])
    ensures ShadowExecution.IsRun(c, runs', calls') && Simulated(After(c, k, step), runs'[|calls'|])
    ensures ShortStep(step) && AllShort(calls) ==> AllShort(calls')
  {
    runs', calls' := runs, calls;
    if step.CallStep? && Asked(c, step.call).Ok? {
      if k.store.held.Some? {
        runs', calls' := Extended(c, runs, calls, MoveFence(k.store.held.value));
      }
      var run := runs'[|calls'|];
      var (store, result) := Answer(k.store, Asked(c, step.call).value, step.env, step.reachable);
      var twin := Twin(c, k, run, step.call);
      CallSimulated(c, k, run, step, twin);
      if result.Ok? || store.tables != k.store.tables {
        runs', calls' := Extended(c, runs', calls', twin);
        HandedSimulated(k, run, store, result, runs'[|calls'|]);
      }
    }
  }

  /** An answered or effective call of the durable core, and its twin in memory under the same token. */
  lemma CallSimulated(c: Settings, k: Core, run: Run, step: Step, twin: Call)
    requires step.CallStep? && !step.call.MoveFence? && !twin.MoveFence? && Simulated(k, run)
    requires Asked(c, step.call).Ok? && Asked(c, twin).Ok? && Twins(Asked(c, step.call).value, Asked(c, twin).value)
    requires k.store.held.Some? ==> run.store.token == k.store.held.value
    ensures var (store, result) := Answer(k.store, Asked(c, step.call).value, step.env, step.reachable);
            result.Ok? || store.tables != k.store.tables ==>
              var after := ShadowExecution.After(run, c, twin);
              && Stands(store, after.store.records) && run.handed <= after.handed
              && (result.Ok? ==> KeptIn(result.value, after.handed))
  {
    var ask, mask := Asked(c, step.call).value, Asked(c, twin).value;
    CoreAsks(c, step.call);
    if k.store.held.Some? {
      AnswerSimulated(k.store, run.store, ask, mask, step.env, step.reachable);
    } else {
      UnleasedAnswer(k.store, run.store, ask, mask, step.env, step.reachable);
    }
  }

  lemma HandedSimulated(k: Core, run: Run, store: Db.State, result: Result<Record, Failure>, after: Run)
    requires Simulated(k, run) && Stands(store, after.store.records) && run.handed <= after.handed
    requires result.Ok? ==> KeptIn(result.value, after.handed)
    ensures Simulated(Core(store, if result.Ok? then k.handed + {result.value} else k.handed), after)
  {
    forall r | r in k.handed
      ensures KeptIn(r, after.handed)
    {
      assert KeptIn(r, run.handed);
    }
  }

  /**
   For every run of the core over the durable store, with refused fences, rolled-back and
   unacknowledged commits, failed reads and changing leases, there is a run of the core in memory
   that ends with the same records and has handed out the same ones, up to what the column keeps
   of an exit price.
   */
  lemma {:induction false} DurableCoreIsInMemoryCore(c: Settings, ks: seq<Core>, steps: seq<Step>, i: nat)
    returns (runs: seq<Run>, calls: seq<Call>)
    requires IsRun(c, ks, steps) && i < |ks|
    ensures ShadowExecution.IsRun(c, runs, calls) && Simulated(ks[i], runs[|calls|])
    ensures ShortQuotes(steps) ==> AllShort(calls)
  {
    if i == 0 {
      runs, calls := [Run(Store(0, map[]), {})], [];
    } else {
      runs, calls := DurableCoreIsInMemoryCore(c, ks, steps, i - 1);
      assert Leads(c, ks[i - 1], steps[i - 1], ks[i]);
      runs, calls := StepSimulated(c, ks[i - 1], steps[i - 1], runs, calls);
    }
  }

  /** So every record the durable core hands out is well made, and its figures exist exactly once it is closed. */
  lemma DurableRecordsWellMade(c: Settings, ks: seq<Core>, steps: seq<Step>, i: nat, r: Record)
    requires GoodSettings(c) && IsRun(c, ks, steps) && i < |ks| && r in ks[i].handed
    ensures exists m :: r == Kept(m) && WellMade(m, c)
    ensures r.entry != r.stop
    ensures PerformanceOf(r, c).Ok? <==> r.lifecycle == Closed || r.lifecycle == Reconciled
  {
    var runs, calls := DurableCoreIsInMemoryCore(c, ks, steps, i);
    assert KeptIn(r, runs[|calls|].handed);
    var m :| m in runs[|calls|].handed && r == Kept(m);
    RunsKeepInv(c, runs, calls, |calls|);
    KeptFigures(c, m);
  }

  lemma KeptFigures(c: Settings, m: Record)
    requires GoodSettings(c) && WellMade(m, c)
    ensures var r := Kept(m);
            && r.entry != r.stop
            && (PerformanceOf(r, c).Ok? <==> r.lifecycle == Closed || r.lifecycle == Reconciled)
  {
  }

  // ---------------------------------------------------------------- exits over the durable store

  ghost predicate ShortExit(m: Record) {
    m.exitPrice.Some? ==> FitsDigits(m.exitPrice.value, Db.FLOAT_DIGITS)
  }

  ghost predicate ShortExits(run: Run) {
    && (forall id :: id in run.store.records ==> ShortExit(run.store.records[id]))
    && (forall m :: m in run.handed ==> ShortExit(m))
  }

  lemma CallKeepsShort(c: Settings, run: Run, call: Call)
    requires ShortExits(run) && CanCall(run, call) && ShortCall(call)
    ensures ShortExits(ShadowExecution.After(run, c, call))
  {
  }

  lemma {:induction false} RunKeepsShort(c: Settings, runs: seq<Run>, calls: seq<Call>, i: nat)
    requires ShadowExecution.IsRun(c, runs, calls) && AllShort(calls) && i < |runs|
    ensures ShortExits(runs[i])
  {
    if i > 0 {
      RunKeepsShort(c, runs, calls, i - 1);
      assert ShadowExecution.Leads(runs[i - 1], c, calls[i - 1], runs[i]);
      CallKeepsShort(c, runs[i - 1], calls[i - 1]);
    }
  }

  /** Fifteen digits write the level that the exit crossed. */
  ghost predicate ShortLevel(m: Record) {
    && (m.exitReason == Some(Stop) ==> FitsDigits(m.stop, Db.FLOAT_DIGITS))
    && (m.exitReason == Some(Target) ==> FitsDigits(m.target, Db.FLOAT_DIGITS))
  }

  /** Rounding never carries a price across a short level. */
  lemma ColumnKeepsSide(x: real, level: real)
    requires level > 0.0 && (FitsDigits(level, Db.FLOAT_DIGITS) || FitsDigits(x, Db.FLOAT_DIGITS))
    ensures x <= level ==> Db.Column(x) <= level
    ensures x >= level ==> Db.Column(x) >= level
  {
    if x > 0.0 {
      KeptIffFits(x, Db.FLOAT_DIGITS);
      if FitsDigits(level, Db.FLOAT_DIGITS) {
        if x <= level {
          RoundedAtMost(x, level, Db.FLOAT_DIGITS);
        }
        if x >= level {
          RoundedAtLeast(x, level, Db.FLOAT_DIGITS);
        }
      }
    }
  }

  lemma KeptWellMade(c: Settings, m: Record)
    requires WellMade(m, c) && (ShortLevel(m) || ShortExit(m))
    ensures WellMade(Kept(m), c)
  {
    if m.exitPrice.Some? && m.exitReason == Some(Stop) {
      ColumnKeepsSide(m.exitPrice.value, m.stop);
    }
    if m.exitPrice.Some? && m.exitReason == Some(Target) {
      ColumnKeepsSide(m.exitPrice.value, m.target);
    }
  }

  /**
   Over the durable store a STOP exit loses at least the full risk and a TARGET exit earns at least
   the planned reward, if fifteen digits write the level of the record or the quotes of the run.
   */
  lemma DurableExitsBoundR(c: Settings, ks: seq<Core>, steps: seq<Step>, i: nat, r: Record)
    requires GoodSettings(c) && IsRun(c, ks, steps) && i < |ks| && r in ks[i].handed
    requires PerformanceOf(r, c).Ok? && (ShortLevel(r) || ShortQuotes(steps))
    ensures var figures := PerformanceOf(r, c).value;
            && (figures.reason == Stop || figures.reason == Target)
            && (figures.reason == Stop ==> figures.rMultiple <= -1.0)
            && (figures.reason == Target ==> figures.rMultiple >= RewardToRisk(r) > 0.0)
  {
    var runs, calls := DurableCoreIsInMemoryCore(c, ks, steps, i);
    assert KeptIn(r, runs[|calls|].handed);
    var m :| m in runs[|calls|].handed && r == Kept(m);
    RunsKeepInv(c, runs, calls, |calls|);
    if ShortQuotes(steps) {
      RunKeepsShort(c, runs, calls, |calls|);
    }
    KeptWellMade(c, m);
    ExitBounds(r, c);
  }

  // ---------------------------------------------------------------- an exit that rounding carries across its level

  function Pair(): Settings {
    Settings(map["PAIR" := 0.0001], 10)
  }

  /** Bought at 0.8501 with a stop at 0.8501 - 0.0008 in binary arithmetic. */
  function LongStop(): Record {
    Record(1, 1, "S0", "PAIR", Buy, 0.8501, 0.8492999999999999, 0.8513, 1, 0, 0, IntentCreated, None, None, None, None)
  }

  function Opened(): Record {
    LongStop().(lifecycle := Open, updatedAt := 1, openedAt := Some(1))
  }

  function Stopped(): Record {
    Opened().(lifecycle := Closed, updatedAt := 2, closedAt := Some(2),
              exitPrice := Some(Db.Column(0.8492999999999999)), exitReason := Some(Stop))
  }

  function Leading(): Authority {
    Authority(true, true, Some(1))
  }

  function OpenTables(): Db.Tables {
    Db.Tables(map[1 := Db.IntentRow(Db.ShadowDemo, "S0", "PAIR", Open, Db.PayloadOf(LongStop()), 0, 1)],
              map[1 := Db.OpenRow(LongStop(), 1, 1, 1)])
  }

  lemma StopIsRounded()
    ensures Db.Column(0.8492999999999999) == 0.8493
    ensures Db.NearColumn(0.8501) && Db.NearColumn(0.8492999999999999) && Db.NearColumn(0.8513)
  {
    var x := 0.8492999999999999;
    Db.SmallPowers();
    assert PowerOfTen(-14) == 0.00000000000001;
    assert PowerOfTen(-15) == 0.000000000000001;
    assert PowerOfTen(-1) == 0.1 && PowerOfTen(0) == 1.0;
    PowersApart(Magnitude(x), 0);
    PowersApart(-1, Magnitude(x) + 1);
    assert x / 0.000000000000001 == 849299999999999.9;
    assert HalfEven(849299999999999.9) == 849300000000000;
    Db.ShortPricesAreNear(0.8501);
    Db.ShortPricesAreNear(x);
    Db.ShortPricesAreNear(0.8513);
  }

  lemma PutsAndOpens()
    ensures Db.FencedPut(Db.State(Some(1), Db.Tables(map[], map[])), LongStop(), Db.Healthy())
            == (Db.State(Some(1), Db.FirstTables(LongStop())), Ok(LongStop()))
    ensures Db.FencedTransition(Db.State(Some(1), Db.FirstTables(LongStop())), 1, IntentCreated, Open, 1,
                                Update(1, Some(1), None, None, None), Db.Healthy())
            == (Db.State(Some(1), OpenTables()), Ok(Opened()))
  {
    assert LongStop().strategy[0] != ' ' && LongStop().instrument[0] != ' ';
    Db.FirstPut(LongStop());
    StopIsRounded();
    var t, u := Db.FirstTables(LongStop()), Update(1, Some(1), None, None, None);
    assert Db.PositionBody(t, 1, IntentCreated, Open, 1, u).Ok?;
    assert Db.TransitionBody(t, 1, IntentCreated, Open, 1, u) == Db.Writes(OpenTables(), Opened());
  }

  lemma Closes()
    ensures Db.FencedTransition(Db.State(Some(1), OpenTables()), 1, Open, Closed, 1,
                                Update(2, None, Some(2), Some(0.8492999999999999), Some(Stop)), Db.Healthy()).1
            == Ok(Stopped())
  {
    assert LongStop().strategy[0] != ' ' && LongStop().instrument[0] != ' ';
    StopIsRounded();
    var t, u := OpenTables(), Update(2, None, Some(2), Some(0.8492999999999999), Some(Stop));
    assert Db.TransitionBody(t, 1, Open, Closed, 1, u).Writes?;
    assert Db.TransitionBody(t, 1, Open, Closed, 1, u).record == Stopped();
  }

  function Creating(): Step {
    CallStep(Create(Leading(), Signal("S0", "PAIR", Some(Buy), true), Quote(0.85, 0.8501, 0), 1, 0.8492999999999999, 0.8513, 0),
             Db.Healthy(), true)
  }

  function Opening(): Step {
    CallStep(OpenIntent(Leading(), LongStop(), 1), Db.Healthy(), true)
  }

  function Closing(): Step {
    CallStep(CloseOnQuote(Leading(), Opened(), Quote(0.8492999999999999, 0.8494, 2), 2), Db.Healthy(), true)
  }

  lemma CreateLeads(k: Core)
    requires k == Core(Db.State(Some(1), Db.Tables(map[], map[])), {})
    ensures After(Pair(), k, Creating()) == Core(Db.State(Some(1), Db.FirstTables(LongStop())), {LongStop()})
  {
    PutsAndOpens();
  }

  lemma OpenLeads(k: Core)
    requires k == Core(Db.State(Some(1), Db.FirstTables(LongStop())), {LongStop()})
    ensures After(Pair(), k, Opening()) == Core(Db.State(Some(1), OpenTables()), {LongStop()} + {Opened()})
  {
    PutsAndOpens();
  }

  lemma CloseLeads(k: Core)
    requires k.store == Db.State(Some(1), OpenTables())
    ensures Stopped() in After(Pair(), k, Closing()).handed
  {
    Closes();
  }

  lemma RoundedFigures()
    ensures GoodSettings(Pair()) && PerformanceOf(Stopped(), Pair()).Ok?
    ensures PerformanceOf(Stopped(), Pair()).value.rMultiple > -1.0
  {
    StopIsRounded();
  }

  /** A stop and a quote that fifteen digits do not write: the stored exit is above the stop and R above -1. */
  lemma RoundedStopRun() returns (ks: seq<Core>, steps: seq<Step>)
    ensures GoodSettings(Pair()) && IsRun(Pair(), ks, steps)
    ensures Stopped() in ks[|steps|].handed && Stopped().exitReason == Some(Stop)
    ensures PerformanceOf(Stopped(), Pair()).Ok? && PerformanceOf(Stopped(), Pair()).value.rMultiple > -1.0
  {
    var empty := Db.Tables(map[], map[]);
    var k0, k1 := Core(Db.State(None, empty), {}), Core(Db.State(Some(1), empty), {});
    var k2 := Core(Db.State(Some(1), Db.FirstTables(LongStop())), {LongStop()});
    var k3 := Core(Db.State(Some(1), OpenTables()), {LongStop()} + {Opened()});
    var k4 := After(Pair(), k3, Closing());
    CreateLeads(k1);
    OpenLeads(k2);
    CloseLeads(k3);
    RoundedFigures();
    FourSteps(Pair(), k0, k1, k2, k3, k4, LeaseStep(Some(1)), Creating(), Opening(), Closing());
    ks, steps := [k0, k1, k2, k3, k4], [LeaseStep(Some(1)), Creating(), Opening(), Closing()];
  }

  lemma FourSteps(c: Settings, k0: Core, k1: Core, k2: Core, k3: Core, k4: Core, s0: Step, s1: Step, s2: Step, s3: Step)
    requires k0.store.tables == Db.Tables(map[], map[]) && k0.handed == {}
    requires Leads(c, k0, s0, k1) && Leads(c, k1, s1, k2) && Leads(c, k2, s2, k3) && Leads(c, k3, s3, k4)
    ensures IsRun(c, [k0, k1, k2, k3, k4], [s0, s1, s2, s3])
  {
  }
}
