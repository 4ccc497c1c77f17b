/**
 Under which facts the broker hears of an opening or a close, and how the operator's gate ties the
 closes of flattening to the control row: the gate is read from the row, the call is made later.
 */
module DemoAuthority {
  import opened Outcomes
  import opened Strings
  import opened Decimals
  import opened DemoExecution
  import opened DemoSafety
  import opened DemoCloses
  import opened Runs
  import Control = DemoOperator
  import Workers = WorkerSafety
  import HttpClient

  // ---------------------------------------------------------------- the facts

  /** Demo mode and authority, one proven account, a valid lease with the request's token, an approved epic, no kill, allowed risk. */
  ghost predicate CommonFacts(g: Gate, r: Request) {
    && g.demoExecutionMode
    && g.orderAuthority
    && g.environment == Some("IG_DEMO")
    && g.expectedAccount.Some? && NonBlank(g.expectedAccount.value) && g.authenticatedAccount == g.expectedAccount
    && g.leaseValid
    && g.fencingToken == Some(r.fencingToken) && r.fencingToken > 0
    && r.epic in g.approvedEpics
    && g.killReleased
    && r.risk.allowed
    && r.risk.configuration == r.configuration
  }

  ghost predicate OpeningFacts(g: Gate, r: Request) {
    && CommonFacts(g, r)
    && g.positionCount.Some? && g.positionLimit.Some? && 0 <= g.positionCount.value < g.positionLimit.value
  }

  ghost predicate ClosingFacts(g: Gate, r: Request) {
    && CommonFacts(g, r)
    && g.positionCount.Some? && g.positionLimit.Some?
    && 0 <= g.positionCount.value <= g.positionLimit.value && g.positionLimit.value > 0
  }

  /** A tradeable market of this epic, currency and expiry, seen within the last minute, whose limits the request keeps. */
  ghost predicate MarketFacts(m: Option<Metadata>, r: Request, now: int) {
    && m.Some?
    && var x := m.value;
    && x.epic == r.epic && NonBlank(r.epic) && x.currency == Some(r.currencyCode) && x.expiry == Some(r.expiry)
    && x.marketStatus == Some("TRADEABLE")
    && x.observedAt.Some? && now - 60 <= x.observedAt.value <= now
    && x.pipScale.Some? && x.pipScale.value > 0.0
    && x.decimalPlaces.Some? && 0 <= x.decimalPlaces.value <= 12 && FitsDecimalPlaces(r.size, x.decimalPlaces.value)
    && x.minimumSize.Some? && 0.0 < x.minimumSize.value <= r.size
    && x.minimumStop.Some? && x.minimumStop.value > 0.0
    && (r.stopDistance.None? || x.minimumStop.value <= r.stopDistance.value)
    && x.guaranteedStops.Some? && (x.guaranteedStops.value || !r.guaranteedStop)
  }

  lemma GateMeans(g: Gate, r: Request)
    ensures GateAllows(g, r, true) <==> OpeningFacts(g, r)
    ensures GateAllows(g, r, false) <==> ClosingFacts(g, r)
  {
  }

  lemma MetadataMeans(m: Option<Metadata>, r: Request, now: int)
    ensures MetadataAllows(m, r, now) <==> MarketFacts(m, r, now)
  {
  }

  // ---------------------------------------------------------------- calls

  /** Nothing stored stands against the request: its record is PREPARED, or neither it nor its cycle and reference are known. */
  ghost predicate Admissible(records: map<int, ExecutionRecord>, r: Request) {
    if r.intentId in records then records[r.intentId].request == r && records[r.intentId].lifecycle == Prepared
    else forall id :: id in records && records[id].request.intentId != r.intentId ==>
                        records[id].request.cycleId != r.cycleId && records[id].request.dealReference != r.dealReference
  }

  ghost predicate OwnIds(records: map<int, ExecutionRecord>) {
    forall id :: id in records ==> records[id].request.intentId == id
  }

  lemma ContinuesIff(w: World, step: Step)
    requires step.SubmitStep? && OwnIds(w.records)
    ensures var prepared := Prepare(w.records, step.r, step.m, step.g, step.now);
            prepared.Stored? && prepared.record.lifecycle == Prepared
            <==> MarketFacts(step.m, step.r, step.now) && OpeningFacts(step.g, step.r) && Admissible(w.records, step.r)
  {
    GateMeans(step.g, step.r);
    MetadataMeans(step.m, step.r, step.now);
  }

  /** A create call or a POST happens only with every market and gate fact, for an admissible request. */
  lemma OpeningNeedsEveryFact(w: World, step: Step, maxRetries: int)
    requires Runnable(step, maxRetries)
    requires After(w, step, maxRetries).creates != w.creates || After(w, step, maxRetries).posts != w.posts
    ensures step.SubmitStep? && MarketFacts(step.m, step.r, step.now) && OpeningFacts(step.g, step.r)
    ensures OwnIds(w.records) ==> Admissible(w.records, step.r)
  {
    var taken := Taken(w, step, maxRetries);
    if step.SubmitStep? {
      GateMeans(step.g, step.r);
      MetadataMeans(step.m, step.r, step.now);
    } else {
      OtherStepsKeepCalls(w, step, maxRetries);
    }
  }

  /** And with all of them a submit that is not interrupted makes its create call. */
  lemma OpeningWithEveryFact(w: World, step: Step, maxRetries: int)
    requires Runnable(step, maxRetries) && OwnIds(w.records)
    requires step.SubmitStep? && step.effects >= |TraceOf(w, step, maxRetries)|
    requires MarketFacts(step.m, step.r, step.now) && OpeningFacts(step.g, step.r) && Admissible(w.records, step.r)
    ensures After(w, step, maxRetries).creates == w.creates + [CallOf(step.r)]
  {
    ContinuesIff(w, step);
    var from := if step.r.intentId in w.records then w
                else With(w, ExecutionRecord(step.r, Prepared, None, None, None, None));
    var trace := DispatchTrace(from, step.r, maxRetries, step.script);
    assert Final(w, TraceOf(w, step, maxRetries)) == Final(from, trace);
    DispatchCalls(from, step.r, maxRetries, step.script);
  }

  lemma DispatchCalls(w: World, r: Request, maxRetries: int, script: Script)
    requires r.intentId in w.records && maxRetries <= |script|
    ensures Final(w, DispatchTrace(w, r, maxRetries, script)).creates == w.creates + [CallOf(r)]
  {
    var call := HttpClient.From(maxRetries, script, 1);
    var trace := DispatchTrace(w, r, maxRetries, script);
    assert trace[2 + call.dispatched] == Final(w, trace);
  }

  /** The answers of submit before it dispatches, in the order of its checks. */
  lemma SubmitAnswers(records: map<int, ExecutionRecord>, r: Request, m: Option<Metadata>, g: Gate, now: int)
    requires OwnIds(records)
    ensures var prepared := Prepare(records, r, m, g, now);
            var allowed := MarketFacts(m, r, now) && OpeningFacts(g, r);
            var known := r.intentId in records;
            var cycleTaken := exists id :: id in records && records[id].request.intentId != r.intentId
                                           && records[id].request.cycleId == r.cycleId;
            var referenceTaken := exists id :: id in records && records[id].request.dealReference == r.dealReference;
            && (prepared == Refused(MetadataRejected) <==> !MarketFacts(m, r, now))
            && (prepared == Refused(GateRejected) <==> MarketFacts(m, r, now) && !OpeningFacts(g, r))
            && (prepared == Refused(DuplicateConflict) <==> allowed && known && records[r.intentId].request != r)
            && (prepared == Refused(CycleConflict) <==> allowed && !known && cycleTaken)
            && (prepared == Refused(ReferenceConflict) <==> allowed && !known && !cycleTaken && referenceTaken)
            && (allowed && known && records[r.intentId].request == r ==> prepared == Stored(records[r.intentId]))
            && (allowed && !known && !cycleTaken && !referenceTaken ==>
                  prepared == Stored(ExecutionRecord(r, Prepared, None, None, None, None)))
  {
    GateMeans(g, r);
    MetadataMeans(m, r, now);
    assert CycleTakenByOther(records, r) <==> exists id :: id in records && records[id].request.intentId != r.intentId
                                                           && records[id].request.cycleId == r.cycleId;
  }

  /** The answers of a close request that makes no call: a close already asked for or done is handed back. */
  lemma CloseAnswers(records: map<int, ExecutionRecord>, id: int, g: Gate)
    ensures var early := CloseGuard(records, id, g);
            var open := id in records && records[id].lifecycle == OpenReconciled && records[id].position.Some?;
            var asked := id in records && (records[id].lifecycle == CloseRequested || records[id].lifecycle == ClosedReconciled);
            && (early == Some(Refused(Unknown)) <==> id !in records)
            && (asked ==> early == Some(Stored(records[id])))
            && (early == Some(Refused(NotOpen)) <==> id in records && !asked && !open)
            && (early == Some(Refused(GateRejected)) <==> open && !ClosingFacts(g, records[id].request))
            && (early.None? <==> Closable(records, id, g))
  {
    if id in records {
      GateMeans(g, records[id].request);
    }
  }

  ghost predicate SameCloses(w: World, trace: seq<World>) {
    forall k :: 0 <= k < |trace| ==> trace[k].closes == w.closes
  }

  lemma OpenKeepsCloses(w: World, step: Step, maxRetries: int)
    requires step.OpenStep?
    ensures SameCloses(w, TraceOf(w, step, maxRetries))
  {
  }

  lemma CloseReconcileKeepsCloses(w: World, step: Step, maxRetries: int)
    requires step.CloseReconcileStep?
    ensures SameCloses(w, TraceOf(w, step, maxRetries))
  {
  }

  ghost predicate Closable(records: map<int, ExecutionRecord>, id: int, g: Gate) {
    && id in records && records[id].lifecycle == OpenReconciled && records[id].position.Some?
    && ClosingFacts(g, records[id].request)
  }

  lemma CloseTraceCalls(w: World, id: int, g: Gate, reply: Reply<Submission>)
    ensures var trace := CloseTrace(w, id, g, reply);
            if Closable(w.records, id, g) then
              |trace| == 2 && trace[0].closes == trace[1].closes == w.closes + multiset{id} != w.closes
            else trace == []
  {
    if id in w.records {
      GateMeans(g, w.records[id].request);
    }
    assert (w.closes + multiset{id})[id] == w.closes[id] + 1;
  }

  /** A step makes a close call if and only if its record is open with its position and every gate fact holds. */
  lemma CloseCallIff(w: World, step: Step, maxRetries: int)
    requires Runnable(step, maxRetries)
    ensures After(w, step, maxRetries).closes != w.closes <==>
            step.CloseStep? && step.effects > 0 && Closable(w.records, step.id, step.g)
    ensures After(w, step, maxRetries).closes != w.closes ==>
              After(w, step, maxRetries).closes == w.closes + multiset{step.id}
  {
    match step
    case SubmitStep(_, _, _, _, _, _) => SubmitKeepsCloses(w, step, maxRetries);
    case CloseStep(id, g, reply, _) => CloseTraceCalls(w, id, g, reply);
    case OpenStep(_, _, _, _) => OpenKeepsCloses(w, step, maxRetries);
    case CloseReconcileStep(_, _, _, _) => CloseReconcileKeepsCloses(w, step, maxRetries);
    var taken := Taken(w, step, maxRetries);
  }

  // ---------------------------------------------------------------- the gate of flattening is read from the control row

  predicate Permits(row: Control.Row) {
    !row.killBlocking && (row.state == Control.Running || row.state == Control.StopRequested)
  }

  /** The gate the operator builds for one close; None when the kill switch stops it there. */
  function RowGate(row: Control.Row, r: Request, count: nat, account: Option<string>): Option<Gate> {
    if row.killBlocking then None
    else Some(Gate(true, true, Some("IG_DEMO"), account, account,
                   row.state == Control.Running || row.state == Control.StopRequested, Some(r.fencingToken),
                   Some(count), Some(if count > 1 then count else 1), {r.epic}, !row.killBlocking))
  }

  /** The gate allows the close exactly in RUNNING and STOP_REQUESTED without a kill, for a known account and an approved request. */
  lemma RowGateAllowsIff(row: Control.Row, r: Request, count: nat, account: Option<string>)
    ensures var g := RowGate(row, r, count, account);
            g.Some? && ClosingFacts(g.value, r) <==>
            && Permits(row) && account.Some? && NonBlank(account.value)
            && r.fencingToken > 0 && r.risk.allowed && r.risk.configuration == r.configuration
  {
  }

  /** A gate read for one record and not yet used. */
  datatype Reading = Reading(id: int, gate: Gate)

  /** The processes and their control row, the dealing store, and each operator's reading. */
  datatype Desk = Desk(system: Workers.System, world: World, readings: map<nat, Reading>)

  datatype Move =
    | Registry(step: Workers.Step)
    | Deal(operation: Step)
    | ReadRow(operator: nat, id: int, count: nat)
    | CloseNow(operator: nat, reply: Reply<Submission>, effects: nat)

  predicate Enabled(d: Desk, move: Move, maxRetries: int) {
    match move
    case Registry(step) => Workers.Enabled(d.system, step)
    case Deal(operation) => Runnable(operation, maxRetries) && !operation.CloseStep?
    case ReadRow(_, id, _) => id in d.world.records
    case CloseNow(operator, _, _) => operator in d.readings
  }

  function Next(d: Desk, move: Move, maxRetries: int, account: Option<string>): Desk
    requires Enabled(d, move, maxRetries)
  {
    match move
    case Registry(step) => d.(system := Workers.Next(d.system, step))
    case Deal(operation) => d.(world := After(d.world, operation, maxRetries))
    case ReadRow(operator, id, count) =>
      (match RowGate(d.system.row, d.world.records[id].request, count, account)
       case None => d.(readings := d.readings - {operator})
       case Some(gate) => d.(readings := d.readings[operator := Reading(id, gate)]))
    case CloseNow(operator, reply, effects) =>
      var reading := d.readings[operator];
      Desk(d.system, After(d.world, CloseStep(reading.id, reading.gate, reply, effects), maxRetries),
           d.readings - {operator})
  }

  ghost predicate Moves(d: Desk, move: Move, n: Desk, maxRetries: int, account: Option<string>) {
    Enabled(d, move, maxRetries) && n == Next(d, move, maxRetries, account)
  }

  ghost function MovesBy(maxRetries: int, account: Option<string>): (Desk, Move, Desk) -> bool {
    (d, move, n) => Moves(d, move, n, maxRetries, account)
  }

  ghost predicate IsDeskRun(run: seq<Desk>, moves: seq<Move>, maxRetries: int, account: Option<string>) {
    && Chained(run, moves, MovesBy(maxRetries, account))
    && Workers.Initial(run[0].system) && run[0].world == EMPTY && run[0].readings == map[]
  }

  lemma MovesAt(run: seq<Desk>, moves: seq<Move>, maxRetries: int, account: Option<string>, i: nat)
    requires IsDeskRun(run, moves, maxRetries, account) && i < |moves|
    ensures Moves(run[i], moves[i], run[i + 1], maxRetries, account)
  {
    assert MovesBy(maxRetries, account)(run[i], moves[i], run[i + 1]);
  }

  predicate UsesReading(move: Move, operator: nat) {
    (move.ReadRow? || move.CloseNow?) && move.operator == operator
  }

  /** The operator's reading in state j was made in move k, and none of its moves came between. */
  ghost predicate ReadAt(run: seq<Desk>, moves: seq<Move>, account: Option<string>, operator: nat, k: nat, j: nat)
    requires |run| == |moves| + 1 && k < j <= |moves|
  {
    && moves[k].ReadRow? && moves[k].operator == operator && operator in run[j].readings
    && moves[k].id in run[k].world.records && run[j].readings[operator].id == moves[k].id
    && RowGate(run[k].system.row, run[k].world.records[moves[k].id].request, moves[k].count, account)
       == Some(run[j].readings[operator].gate)
    && forall i :: k < i < j ==> !UsesReading(moves[i], operator)
  }

  lemma ReadingStays(d: Desk, move: Move, maxRetries: int, account: Option<string>, operator: nat)
    requires Enabled(d, move, maxRetries) && operator in Next(d, move, maxRetries, account).readings
    requires !UsesReading(move, operator)
    ensures operator in d.readings && d.readings[operator] == Next(d, move, maxRetries, account).readings[operator]
  {
  }

  lemma ReadingIsMade(d: Desk, move: Move, maxRetries: int, account: Option<string>, operator: nat)
    requires Enabled(d, move, maxRetries) && operator in Next(d, move, maxRetries, account).readings
    requires UsesReading(move, operator)
    ensures move.ReadRow? && move.id in d.world.records
    ensures var reading := Next(d, move, maxRetries, account).readings[operator];
            && reading.id == move.id
            && RowGate(d.system.row, d.world.records[move.id].request, move.count, account) == Some(reading.gate)
  {
  }

  lemma {:induction false} ReadingWasMade(run: seq<Desk>, moves: seq<Move>, maxRetries: int, account: Option<string>,
                                          operator: nat, j: nat) returns (k: nat)
    requires IsDeskRun(run, moves, maxRetries, account) && j <= |moves| && operator in run[j].readings
    ensures k < j && ReadAt(run, moves, account, operator, k, j)
  {
    assert j > 0;
    k := j - 1;
    MovesAt(run, moves, maxRetries, account, k);
    if UsesReading(moves[k], operator) {
      ReadingIsMade(run[k], moves[k], maxRetries, account, operator);
      assert ReadAt(run, moves, account, operator, k, k + 1);
    } else {
      ReadingStays(run[k], moves[k], maxRetries, account, operator);
      k := ReadingWasMade(run, moves, maxRetries, account, operator, j - 1);
      ReadingKept(run, moves, account, operator, k, j - 1);
    }
  }

  lemma ReadingKept(run: seq<Desk>, moves: seq<Move>, account: Option<string>, operator: nat, k: nat, j: nat)
    requires |run| == |moves| + 1 && k < j < |moves| && ReadAt(run, moves, account, operator, k, j)
    requires !UsesReading(moves[j], operator)
    requires operator in run[j + 1].readings && run[j + 1].readings[operator] == run[j].readings[operator]
    ensures ReadAt(run, moves, account, operator, k, j + 1)
  {
  }

  /** Move j makes a close call. */
  ghost predicate CallsClose(run: seq<Desk>, moves: seq<Move>, j: nat)
    requires |run| == |moves| + 1 && j < |moves|
  {
    run[j + 1].world.closes != run[j].world.closes
  }

  lemma OnlyCloseNowCalls(d: Desk, move: Move, maxRetries: int, account: Option<string>)
    requires Enabled(d, move, maxRetries) && Next(d, move, maxRetries, account).world.closes != d.world.closes
    ensures move.CloseNow?
    ensures Closable(d.world.records, d.readings[move.operator].id, d.readings[move.operator].gate)
  {
    if move.Deal? {
      CloseCallIff(d.world, move.operation, maxRetries);
    } else if move.CloseNow? {
      var reading := d.readings[move.operator];
      CloseCallIff(d.world, CloseStep(reading.id, reading.gate, move.reply, move.effects), maxRetries);
    }
  }

  lemma GatePermits(row: Control.Row, r: Request, count: nat, account: Option<string>, asked: Request)
    requires RowGate(row, r, count, account).Some? && ClosingFacts(RowGate(row, r, count, account).value, asked)
    ensures Permits(row) && account.Some? && NonBlank(account.value)
  {
  }

  /**
   Every close call of flattening was allowed by a row in RUNNING or STOP_REQUESTED without a kill, as
   the operator had read it for this very close.
   */
  lemma CloseHasItsReading(run: seq<Desk>, moves: seq<Move>, maxRetries: int, account: Option<string>, j: nat)
    returns (k: nat)
    requires IsDeskRun(run, moves, maxRetries, account) && j < |moves| && CallsClose(run, moves, j)
    ensures moves[j].CloseNow? && k < j && ReadAt(run, moves, account, moves[j].operator, k, j)
    ensures Permits(run[k].system.row) && account.Some? && NonBlank(account.value)
    ensures Closable(run[j].world.records, moves[k].id, run[j].readings[moves[j].operator].gate)
  {
    MovesAt(run, moves, maxRetries, account, j);
    OnlyCloseNowCalls(run[j], moves[j], maxRetries, account);
    k := ReadingWasMade(run, moves, maxRetries, account, moves[j].operator, j);
    GatePermits(run[k].system.row, run[k].world.records[moves[k].id].request, moves[k].count, account,
                run[j].world.records[moves[k].id].request);
  }

  // ---------------------------------------------------------------- the row at the call

  /** Every close call is made while the row permits it. */
  ghost predicate ClosesUnderTheRow(run: seq<Desk>, moves: seq<Move>)
    requires |run| == |moves| + 1
  {
    forall j :: 0 <= j < |moves| && CallsClose(run, moves, j) ==> Permits(run[j].system.row)
  }

  /** No transaction of the row falls between an operator's reading and its use. */
  ghost predicate UsedAtOnce(moves: seq<Move>) {
    forall k, i, j :: 0 <= k < i < j < |moves| && moves[k].ReadRow? && moves[j].CloseNow?
                      && moves[k].operator == moves[j].operator && moves[i].Registry?
                      ==> exists m :: k < m < j && UsesReading(moves[m], moves[k].operator)
  }

  ghost predicate AlwaysUnderTheRow(atOnce: bool) {
    forall run: seq<Desk>, moves: seq<Move>, maxRetries: int, account: Option<string> ::
      IsDeskRun(run, moves, maxRetries, account) && (atOnce ==> UsedAtOnce(moves)) ==> ClosesUnderTheRow(run, moves)
  }

  lemma {:induction false} RowStays(run: seq<Desk>, moves: seq<Move>, maxRetries: int, account: Option<string>,
                                    k: nat, j: nat)
    requires IsDeskRun(run, moves, maxRetries, account) && k <= j <= |moves|
    requires forall i :: k <= i < j ==> !moves[i].Registry?
    ensures run[j].system == run[k].system
  {
    if k < j {
      RowStays(run, moves, maxRetries, account, k, j - 1);
      MovesAt(run, moves, maxRetries, account, j - 1);
    }
  }

  lemma PromptCloseIsUnderTheRow(run: seq<Desk>, moves: seq<Move>, maxRetries: int, account: Option<string>, j: nat)
    requires IsDeskRun(run, moves, maxRetries, account) && UsedAtOnce(moves) && j < |moves| && CallsClose(run, moves, j)
    ensures Permits(run[j].system.row)
  {
    var k := CloseHasItsReading(run, moves, maxRetries, account, j);
    assert forall m :: k < m < j ==> !UsesReading(moves[m], moves[k].operator);
    RowStays(run, moves, maxRetries, account, k, j);
  }

  lemma MoreMoves(run: seq<Desk>, moves: seq<Move>, maxRetries: int, account: Option<string>, move: Move)
    returns (run': seq<Desk>, moves': seq<Move>)
    requires IsDeskRun(run, moves, maxRetries, account) && Enabled(run[|moves|], move, maxRetries)
    ensures IsDeskRun(run', moves', maxRetries, account)
    ensures moves' == moves + [move] && run' == run + [Next(run[|moves|], move, maxRetries, account)]
  {
    run', moves' := run + [Next(run[|moves|], move, maxRetries, account)], moves + [move];
    Longer(run, moves, MovesBy(maxRetries, account), move, run'[|moves'|]);
  }

  function Nobody(): Workers.System {
    Workers.System(Control.Row(Control.Stopped, None, None, false, None, None), {}, {}, {}, map[], {}, {}, {})
  }

  /** A starter and its worker, with the row handed over. */
  lemma WorkerRuns() returns (run: seq<Desk>, moves: seq<Move>)
    ensures IsDeskRun(run, moves, 1, Some("Z")) && run[|moves|].world == EMPTY && run[|moves|].readings == map[]
    ensures Permits(run[|moves|].system.row)
  {
    run, moves := [Desk(Nobody(), EMPTY, map[])], [];
    run, moves := MoreMoves(run, moves, 1, Some("Z"), Registry(Workers.Spawn(1)));
    run, moves := MoreMoves(run, moves, 1, Some("Z"), Registry(Workers.Start(1, 0)));
    run, moves := MoreMoves(run, moves, 1, Some("Z"), Registry(Workers.Launch(1, 2)));
    run, moves := MoreMoves(run, moves, 1, Some("Z"), Registry(Workers.Assign(1, 0)));
  }

  lemma PositionOpens() returns (run: seq<Desk>, moves: seq<Move>)
    ensures IsDeskRun(run, moves, 1, Some("Z")) && run[|moves|].world == Opened() && run[|moves|].readings == map[]
    ensures Permits(run[|moves|].system.row)
  {
    SubmitSends();
    ReconcileOpens();
    run, moves := WorkerRuns();
    run, moves := MoreMoves(run, moves, 1, Some("Z"), Deal(SubmitOnce()));
    run, moves := MoreMoves(run, moves, 1, Some("Z"), Deal(ReconcileOnce()));
  }

  lemma GateIsRead() returns (run: seq<Desk>, moves: seq<Move>)
    ensures IsDeskRun(run, moves, 1, Some("Z")) && 0 in run[|moves|].readings
    ensures Closable(run[|moves|].world.records, run[|moves|].readings[0].id, run[|moves|].readings[0].gate)
  {
    run, moves := PositionOpens();
    RowGateAllowsIff(run[|moves|].system.row, Order(), 1, Some("Z"));
    assert "Z"[0] != ' ';
    run, moves := MoreMoves(run, moves, 1, Some("Z"), ReadRow(0, 1, 1));
  }

  lemma KillFalls() returns (run: seq<Desk>, moves: seq<Move>)
    ensures IsDeskRun(run, moves, 1, Some("Z")) && |moves| >= 1 && 0 in run[|moves|].readings
    ensures moves[|moves| - 1].Registry? && moves[|moves| - 1].step.Kill? && run[|moves|].system.row.killBlocking
    ensures Closable(run[|moves|].world.records, run[|moves|].readings[0].id, run[|moves|].readings[0].gate)
  {
    run, moves := GateIsRead();
    run, moves := MoreMoves(run, moves, 1, Some("Z"), Registry(Workers.Kill(1)));
  }

  lemma UseCalls(d: Desk)
    requires 0 in d.readings && Closable(d.world.records, d.readings[0].id, d.readings[0].gate)
    ensures Next(d, CloseNow(0, Raises, 2), 1, Some("Z")).world.closes != d.world.closes
  {
    CloseCallIff(d.world, CloseStep(d.readings[0].id, d.readings[0].gate, Raises, 2), 1);
  }

  /** Emergency Kill falls between the operator's reading and its use: the close call is made all the same. */
  lemma KilledCloseRun() returns (run: seq<Desk>, moves: seq<Move>)
    ensures IsDeskRun(run, moves, 1, Some("Z")) && |moves| >= 2
    ensures moves[|moves| - 2].Registry? && moves[|moves| - 2].step.Kill?
    ensures CallsClose(run, moves, |moves| - 1) && run[|moves| - 1].system.row.killBlocking
  {
    var before, earlier := KillFalls();
    UseCalls(before[|earlier|]);
    run, moves := MoreMoves(before, earlier, 1, Some("Z"), CloseNow(0, Raises, 2));
    assert run[|earlier|] == before[|earlier|];
    assert moves[|earlier| - 1] == earlier[|earlier| - 1];
  }

  /** No close call is made outside RUNNING and STOP_REQUESTED or under a kill, in every run, if and only if readings are used at once. */
  lemma UnderTheRowNeedsPromptUse(atOnce: bool)
    ensures AlwaysUnderTheRow(atOnce) <==> atOnce
  {
    if atOnce {
      forall run: seq<Desk>, moves: seq<Move>, maxRetries: int, account: Option<string>
        | IsDeskRun(run, moves, maxRetries, account) && UsedAtOnce(moves)
        ensures ClosesUnderTheRow(run, moves)
      {
        forall j | 0 <= j < |moves| && CallsClose(run, moves, j)
          ensures Permits(run[j].system.row)
        {
          PromptCloseIsUnderTheRow(run, moves, maxRetries, account, j);
        }
      }
    } else {
      var run, moves := KilledCloseRun();
      assert !ClosesUnderTheRow(run, moves);
    }
  }
}
