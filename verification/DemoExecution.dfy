/** The dealing state machine: its records, its gate, its broker calls and its durable states. */
module DemoExecution {
  import opened Outcomes
  import opened Strings
  import opened Decimals
  import HttpClient

  datatype Direction = Buy | Sell {
    function Opposite(): Direction { if Buy? then Sell else Buy }
  }

  datatype OrderType = Market

  datatype Status = Accepted | Rejected

  datatype Lifecycle =
    | Prepared | Submitting | Submitted | ConfirmedAccepted | ConfirmedRejected
    | OpenReconciled | CloseRequested | ClosedReconciled | FailedSafe | Ambiguous

  datatype RiskApproval = RiskApproval(configuration: string, allowed: bool, evaluatedAt: int)

  datatype Request = Request(
    intentId: int, cycleId: int, epic: string, direction: Direction, size: Decimal, currencyCode: string,
    expiry: string, orderType: OrderType, forceOpen: bool, guaranteedStop: bool,
    stopDistance: Option<Decimal>, stopLevel: Option<Decimal>, limitDistance: Option<Decimal>, limitLevel: Option<Decimal>,
    dealReference: string, configuration: string, risk: RiskApproval, fencingToken: int, createdAt: int)

  datatype Submission = Submission(dealReference: string, dealId: Option<string>)

  datatype Confirmation = Confirmation(
    dealReference: string, dealId: Option<string>, dealStatus: Status, status: string,
    epic: Option<string>, direction: Option<Direction>, size: Option<Decimal>,
    level: Option<Decimal>, stopLevel: Option<Decimal>, limitLevel: Option<Decimal>)

  datatype Position = Position(dealId: string, epic: string, direction: Direction, size: Decimal)

  datatype ExecutionRecord = ExecutionRecord(
    request: Request, lifecycle: Lifecycle, submission: Option<Submission>,
    confirmation: Option<Confirmation>, position: Option<Position>, closeSubmission: Option<Submission>)

  datatype Metadata = Metadata(
    epic: string, currency: Option<string>, expiry: Option<string>, pipScale: Option<Decimal>,
    decimalPlaces: Option<int>, minimumSize: Option<Decimal>, minimumStop: Option<Decimal>,
    guaranteedStops: Option<bool>, marketStatus: Option<string>, observedAt: Option<int>)

  datatype Gate = Gate(
    demoExecutionMode: bool, orderAuthority: bool, environment: Option<string>,
    expectedAccount: Option<string>, authenticatedAccount: Option<string>, leaseValid: bool,
    fencingToken: Option<int>, positionCount: Option<int>, positionLimit: Option<int>,
    approvedEpics: set<string>, killReleased: bool)

  datatype Error =
    | MetadataRejected | GateRejected | DuplicateConflict | CycleConflict | ReferenceConflict | Unknown | NotOpen

  const METADATA_MAX_AGE: int := 60

  // ---------------------------------------------------------------- validation

  predicate Present(text: Option<string>) {
    text.Some? && NonBlank(text.value)
  }

  predicate MetadataAllows(m: Option<Metadata>, r: Request, now: int) {
    && m.Some?
    && var x := m.value;
    && NonBlank(x.epic) && x.epic == r.epic
    && x.currency == Some(r.currencyCode) && x.expiry == Some(r.expiry)
    && x.marketStatus == Some("TRADEABLE")
    && x.observedAt.Some? && x.observedAt.value <= now && now - x.observedAt.value <= METADATA_MAX_AGE
    && x.pipScale.Some? && x.pipScale.value > 0.0
    && x.decimalPlaces.Some? && 0 <= x.decimalPlaces.value <= 12
    && x.minimumSize.Some? && x.minimumSize.value > 0.0
    && x.minimumStop.Some? && x.minimumStop.value > 0.0
    && x.guaranteedStops.Some? && (r.guaranteedStop ==> x.guaranteedStops.value)
    && r.size >= x.minimumSize.value && FitsDecimalPlaces(r.size, x.decimalPlaces.value)
    && (r.stopDistance.Some? ==> r.stopDistance.value >= x.minimumStop.value)
  }

  predicate GateAllows(g: Gate, r: Request, needsCapacity: bool) {
    && g.demoExecutionMode && g.orderAuthority && g.environment == Some("IG_DEMO")
    && Present(g.expectedAccount) && Present(g.authenticatedAccount) && g.expectedAccount == g.authenticatedAccount
    && g.leaseValid
    && g.fencingToken.Some? && g.fencingToken.value > 0 && r.fencingToken == g.fencingToken.value
    && g.positionCount.Some? && g.positionCount.value >= 0
    && g.positionLimit.Some? && g.positionLimit.value > 0
    && g.positionCount.value <= g.positionLimit.value
    && (needsCapacity ==> g.positionCount.value < g.positionLimit.value)
    && r.epic in g.approvedEpics && g.killReleased
    && r.risk.allowed && r.risk.configuration == r.configuration
  }

  predicate LevelsValid(c: Confirmation) {
    && (c.level.Some? ==> c.level.value > 0.0)
    && (c.stopLevel.Some? ==> c.stopLevel.value > 0.0)
    && (c.limitLevel.Some? ==> c.limitLevel.value > 0.0)
  }

  predicate AcceptedMatches(r: Request, c: Confirmation) {
    && c.dealStatus == Accepted && c.dealReference == r.dealReference
    && c.dealId.Some? && c.dealId.value != "" && NonBlank(c.status)
    && c.epic == Some(r.epic) && c.direction == Some(r.direction) && c.size == Some(r.size)
    && LevelsValid(c)
  }

  predicate CloseMatches(e: ExecutionRecord, c: Confirmation) {
    && e.position.Some? && e.closeSubmission.Some?
    && c.dealStatus == Accepted && c.dealReference == e.closeSubmission.value.dealReference
    && c.dealId == Some(e.position.value.dealId) && NonBlank(c.status)
    && c.epic == Some(e.position.value.epic)
    && c.direction == Some(e.position.value.direction.Opposite())
    && c.size == Some(e.position.value.size)
    && LevelsValid(c)
  }

  predicate PositionMatches(p: Position, c: Confirmation, r: Request) {
    c.dealId == Some(p.dealId) && p.epic == r.epic && p.direction == r.direction && p.size == r.size
  }

  function MatchingPositions(ps: seq<Position>, c: Confirmation, r: Request): (ms: seq<Position>)
    ensures forall p :: p in ms <==> p in ps && PositionMatches(p, c, r)
  {
    if ps == [] then []
    else (if PositionMatches(ps[0], c, r) then [ps[0]] else []) + MatchingPositions(ps[1..], c, r)
  }

  /** Stands for the hashed reference: one per opening reference and deal. */
  function CloseReference(r: Request, dealId: string): string {
    "DQ01C_" + r.dealReference + "|" + dealId + "|CLOSE"
  }

  function CloseOrderOf(e: ExecutionRecord): CloseOrder
    requires e.position.Some?
  {
    CloseOrder(e.position.value.dealId, CloseReference(e.request, e.position.value.dealId),
               e.position.value.direction.Opposite(), e.position.value.size, Market)
  }

  // ---------------------------------------------------------------- durable states

  datatype Reply<T> = Raises | Returns(value: T)

  /** A stop or a limit, by its distance or at its level; a constructed request has exactly one of the two. */
  datatype Exit = AtDistance(distance: Decimal) | AtLevel(level: Decimal) | Missing

  /** What the broker is asked to open. */
  datatype OpenOrder = OpenOrder(
    dealReference: string, epic: string, direction: Direction, size: Decimal, currencyCode: string, expiry: string,
    orderType: OrderType, forceOpen: bool, guaranteedStop: bool, stop: Exit, limit: Exit)

  /** What it is asked to close. */
  datatype CloseOrder = CloseOrder(dealId: string, dealReference: string, direction: Direction, size: Decimal, orderType: OrderType)

  /** One create_position call. */
  datatype CreateCall = CreateCall(intentId: int, cycleId: int, order: OpenOrder)

  /**
   What survives a crash, with the history the properties speak of: create calls, the physical POSTs
   under them, close calls, openings (arrivals in OPEN_RECONCILED) and close calls whose outcome was
   never written.
   */
  datatype World = World(
    records: map<int, ExecutionRecord>,
    creates: seq<CreateCall>,
    posts: seq<CreateCall>,
    closes: multiset<int>,
    openings: multiset<int>,
    unwritten: multiset<int>)

  const EMPTY: World := World(map[], [], [], multiset{}, multiset{}, multiset{})

  datatype Outcome = Stored(record: ExecutionRecord) | Refused(error: Error)

  function With(w: World, e: ExecutionRecord): World {
    w.(records := w.records[e.request.intentId := e])
  }

  function Moved(w: World, id: int, to: Lifecycle): World
    requires id in w.records
  {
    w.(records := w.records[id := w.records[id].(lifecycle := to)])
  }

  predicate CycleTakenByOther(records: map<int, ExecutionRecord>, r: Request) {
    exists id :: id in records && records[id].request.cycleId == r.cycleId && records[id].request.intentId != r.intentId
  }

  predicate ReferenceTaken(records: map<int, ExecutionRecord>, r: Request) {
    exists id :: id in records && records[id].request.dealReference == r.dealReference
  }

  /** The record submit continues from: the stored one, or a new one to be put. */
  ghost predicate Continues(records: map<int, ExecutionRecord>, r: Request, prepared: Outcome) {
    prepared.Stored? ==>
      && prepared.record.request == r
      && (if r.intentId in records then prepared.record == records[r.intentId]
          else prepared.record == ExecutionRecord(r, Prepared, None, None, None, None))
  }

  function Prepare(records: map<int, ExecutionRecord>, r: Request, m: Option<Metadata>, g: Gate, now: int)
    : (prepared: Outcome)
    ensures Continues(records, r, prepared)
    ensures prepared.Stored? ==> MetadataAllows(m, r, now) && GateAllows(g, r, true)
    ensures prepared.Stored? && r.intentId !in records ==>
              forall id :: id in records ==> records[id].request.cycleId != r.cycleId || records[id].request.intentId == r.intentId
  {
    if !MetadataAllows(m, r, now) then Refused(MetadataRejected)
    else if !GateAllows(g, r, true) then Refused(GateRejected)
    else if r.intentId in records then
      if records[r.intentId].request != r then Refused(DuplicateConflict) else Stored(records[r.intentId])
    else if CycleTakenByOther(records, r) then Refused(CycleConflict)
    else if ReferenceTaken(records, r) then Refused(ReferenceConflict)
    else Stored(ExecutionRecord(r, Prepared, None, None, None, None))
  }

  function ExitOf(distance: Option<Decimal>, level: Option<Decimal>): Exit {
    if distance.Some? then AtDistance(distance.value) else if level.Some? then AtLevel(level.value) else Missing
  }

  function OrderOf(r: Request): OpenOrder {
    OpenOrder(r.dealReference, r.epic, r.direction, r.size, r.currencyCode, r.expiry, r.orderType, r.forceOpen,
              r.guaranteedStop, ExitOf(r.stopDistance, r.stopLevel), ExitOf(r.limitDistance, r.limitLevel))
  }

  function CallOf(r: Request): CreateCall {
    CreateCall(r.intentId, r.cycleId, OrderOf(r))
  }

  function Copies(c: CreateCall, count: nat): (cs: seq<CreateCall>)
    ensures |cs| == count && forall i :: 0 <= i < count ==> cs[i] == c
  {
    seq(count, _ => c)
  }

  function PostStates(w: World, c: CreateCall, count: nat): (trace: seq<World>)
    ensures |trace| == count
    ensures forall i :: 0 <= i < count ==> trace[i] == w.(posts := w.posts + Copies(c, i + 1))
  {
    seq(count, i requires 0 <= i < count => w.(posts := w.posts + Copies(c, i + 1)))
  }

  function SubmitOutcome(w: World, r: Request, answer: Option<Option<Submission>>): World
    requires r.intentId in w.records
  {
    if answer.None? || answer.value.None? then Moved(w, r.intentId, Ambiguous)
    else if answer.value.value.dealReference != r.dealReference then Moved(w, r.intentId, FailedSafe)
    else w.(records := w.records[r.intentId := w.records[r.intentId].(lifecycle := Submitted, submission := answer.value)])
  }

  /** From a PREPARED record on: the write before the call, the call, its POSTs, the write after it. */
  function DispatchTrace(w: World, r: Request, maxRetries: int,
                         script: seq<HttpClient.Pass<Option<Submission>>>): seq<World>
    requires r.intentId in w.records && maxRetries <= |script|
  {
    var w1 := Moved(w, r.intentId, Submitting);
    var w2 := w1.(creates := w1.creates + [CallOf(r)]);
    var call := HttpClient.From(maxRetries, script, 1);
    var sent := w2.(posts := w2.posts + Copies(CallOf(r), call.dispatched));
    [w1, w2] + PostStates(w2, CallOf(r), call.dispatched) + [SubmitOutcome(sent, r, call.outcome)]
  }

  function SubmitFrom(w: World, prepared: Outcome, r: Request, maxRetries: int,
                      script: seq<HttpClient.Pass<Option<Submission>>>): seq<World>
    requires maxRetries <= |script| && Continues(w.records, r, prepared)
  {
    if prepared.Refused? || prepared.record.lifecycle != Prepared then []
    else if r.intentId in w.records then DispatchTrace(w, r, maxRetries, script)
    else [With(w, prepared.record)] + DispatchTrace(With(w, prepared.record), r, maxRetries, script)
  }

  /**
   The durable states submit passes through, one per store write, call and POST. The broker is the
   retry loop over an arbitrary script; a response without a usable submission raises.
   */
  function SubmitTrace(w: World, r: Request, m: Option<Metadata>, g: Gate, now: int,
                       maxRetries: int, script: seq<HttpClient.Pass<Option<Submission>>>): seq<World>
    requires maxRetries <= |script|
  {
    SubmitFrom(w, Prepare(w.records, r, m, g, now), r, maxRetries, script)
  }

  function OpenTrace(w: World, id: int, confirmation: Reply<Option<Confirmation>>, positions: Reply<seq<Position>>)
    : seq<World>
  {
    if id !in w.records then []
    else
      var e := w.records[id];
      if e.lifecycle != Submitted && e.lifecycle != Ambiguous && e.lifecycle != ConfirmedAccepted then []
      else if confirmation.Raises? || confirmation.value.None? then [Moved(w, id, Ambiguous)]
      else JudgeTrace(w, id, confirmation.value.value, positions)
  }

  /** The confirmation is judged and written before the positions are read. */
  function JudgeTrace(w: World, id: int, c: Confirmation, positions: Reply<seq<Position>>): (trace: seq<World>)
    requires id in w.records
    ensures trace != []
  {
    var e := w.records[id];
    if c.dealStatus == Rejected then
      [w.(records := w.records[id := e.(lifecycle := ConfirmedRejected, confirmation := Some(c))])]
    else if !AcceptedMatches(e.request, c) then [Moved(w, id, FailedSafe)]
    else
      var w1 := w.(records := w.records[id := e.(lifecycle := ConfirmedAccepted, confirmation := Some(c))]);
      [w1, AfterPositions(w1, id, c, positions)]
  }

  function AfterPositions(w: World, id: int, c: Confirmation, positions: Reply<seq<Position>>): World
    requires id in w.records
  {
    if positions.Raises? then Moved(w, id, Ambiguous)
    else
      var matches := MatchingPositions(positions.value, c, w.records[id].request);
      if |matches| != 1 then Moved(w, id, FailedSafe)
      else
        w.(records := w.records[id := w.records[id].(lifecycle := OpenReconciled, position := Some(matches[0]))])
          .(openings := w.openings + multiset{id})
  }

  /** What request_close returns or raises without reaching the broker. */
  function CloseGuard(records: map<int, ExecutionRecord>, id: int, g: Gate): (early: Option<Outcome>)
    ensures early.None? ==> id in records && records[id].position.Some?
    ensures early.Some? && early.value.Stored? ==> id in records && records[id] == early.value.record
  {
    if id !in records then Some(Refused(Unknown))
    else if records[id].lifecycle == ClosedReconciled || records[id].lifecycle == CloseRequested then Some(Stored(records[id]))
    else if records[id].lifecycle != OpenReconciled || records[id].position.None? then Some(Refused(NotOpen))
    else if !GateAllows(g, records[id].request, false) then Some(Refused(GateRejected))
    else None
  }

  function CloseOutcome(w: World, id: int, reply: Reply<Submission>): World
    requires id in w.records && w.records[id].position.Some?
  {
    var e := w.records[id];
    (if reply.Raises? then Moved(w, id, Ambiguous)
     else if reply.value.dealReference != CloseOrderOf(e).dealReference then Moved(w, id, FailedSafe)
     else w.(records := w.records[id := e.(lifecycle := CloseRequested, closeSubmission := Some(reply.value))]))
      .(unwritten := w.unwritten - multiset{id})
  }

  /** The close call comes first; nothing is written before it. */
  function CloseTrace(w: World, id: int, g: Gate, reply: Reply<Submission>): seq<World> {
    if CloseGuard(w.records, id, g).Some? then []
    else
      var w1 := w.(closes := w.closes + multiset{id}, unwritten := w.unwritten + multiset{id});
      [w1, CloseOutcome(w1, id, reply)]
  }

  function CloseReconcileTrace(w: World, id: int, confirmation: Reply<Option<Confirmation>>,
                               positions: Reply<seq<Position>>): seq<World>
  {
    if id !in w.records then []
    else
      var e := w.records[id];
      if e.lifecycle != CloseRequested || e.position.None? || e.closeSubmission.None? then []
      else if confirmation.Raises? || confirmation.value.None? then [Moved(w, id, Ambiguous)]
      else if !CloseMatches(e, confirmation.value.value) then [Moved(w, id, FailedSafe)]
      else if positions.Raises? then [Moved(w, id, Ambiguous)]
      else if exists p :: p in positions.value && p.dealId == e.position.value.dealId then [Moved(w, id, FailedSafe)]
      else [w.(records := w.records[id := e.(lifecycle := ClosedReconciled, confirmation := confirmation.value)])]
  }

  /** Where a call that is not interrupted ends. */
  function Final(w: World, trace: seq<World>): World {
    if trace == [] then w else trace[|trace| - 1]
  }

  // ---------------------------------------------------------------- the core itself

  class DemoExecutionCore {
    var records: map<int, ExecutionRecord>
    ghost var creates: seq<CreateCall>
    ghost var posts: seq<CreateCall>
    ghost var closes: multiset<int>
    ghost var openings: multiset<int>
    ghost var unwritten: multiset<int>
    ghost var trace: seq<World>

    ghost function Now(): World
      reads this
    {
      World(records, creates, posts, closes, openings, unwritten)
    }

    constructor ()
      ensures Now() == EMPTY && trace == []
    {
      records, creates, posts := map[], [], [];
      closes, openings, unwritten := multiset{}, multiset{}, multiset{};
      trace := [];
    }

    method Replace(e: ExecutionRecord)
      requires e.request.intentId in records && records[e.request.intentId].request == e.request
      modifies this`records, this`trace
      ensures Now() == With(old(Now()), e) && trace == old(trace) + [Now()]
    {
      records := records[e.request.intentId := e];
      trace := trace + [Now()];
    }

    method Dispatch(r: Request, maxRetries: int, script: seq<HttpClient.Pass<Option<Submission>>>)
      requires maxRetries <= |script|
      requires r.intentId in records && records[r.intentId].request == r
      modifies this
      ensures trace == old(trace) + DispatchTrace(old(Now()), r, maxRetries, script)
      ensures Now() == Final(old(Now()), DispatchTrace(old(Now()), r, maxRetries, script))
      ensures r.intentId in records
    {
      ghost var w0 := Now();
      ghost var before := trace;
      Replace(records[r.intentId].(lifecycle := Submitting));
      ghost var w1 := Now();
      creates := creates + [CallOf(r)];
      ghost var w2 := Now();
      trace := trace + [w2];
      var call := Send(r, maxRetries, script);
      WriteSubmission(r, call.outcome);
      ghost var posted := PostStates(w2, CallOf(r), call.dispatched);
      assert DispatchTrace(w0, r, maxRetries, script) == [w1, w2] + posted + [Now()];
      assert trace == before + ([w1, w2] + posted + [Now()]);
    }

    method Send(r: Request, maxRetries: int, script: seq<HttpClient.Pass<Option<Submission>>>)
      returns (call: HttpClient.Call<Option<Submission>>)
      requires maxRetries <= |script|
      modifies this`posts, this`trace
      ensures call == HttpClient.From(maxRetries, script, 1)
      ensures Now() == old(Now()).(posts := old(posts) + Copies(CallOf(r), call.dispatched))
      ensures trace == old(trace) + PostStates(old(Now()), CallOf(r), call.dispatched)
    {
      call := HttpClient.Request(maxRetries, script);
      trace := trace + PostStates(Now(), CallOf(r), call.dispatched);
      posts := posts + Copies(CallOf(r), call.dispatched);
    }

    method WriteSubmission(r: Request, answer: Option<Option<Submission>>)
      requires r.intentId in records && records[r.intentId].request == r
      modifies this`records, this`trace
      ensures Now() == SubmitOutcome(old(Now()), r, answer) && trace == old(trace) + [Now()]
      ensures r.intentId in records
    {
      if answer.None? || answer.value.None? {
        Replace(records[r.intentId].(lifecycle := Ambiguous));
      } else if answer.value.value.dealReference != r.dealReference {
        Replace(records[r.intentId].(lifecycle := FailedSafe));
      } else {
        Replace(records[r.intentId].(lifecycle := Submitted, submission := answer.value));
      }
    }

    /** Each public method extends the trace by exactly the durable states its specification lists. */
    method Submit(r: Request, m: Option<Metadata>, g: Gate, now: int,
                  maxRetries: int, script: seq<HttpClient.Pass<Option<Submission>>>)
      returns (outcome: Outcome)
      requires maxRetries <= |script|
      modifies this
      ensures trace == old(trace) + SubmitTrace(old(Now()), r, m, g, now, maxRetries, script)
      ensures Now() == Final(old(Now()), SubmitTrace(old(Now()), r, m, g, now, maxRetries, script))
      ensures outcome.Stored? ==> r.intentId in records && outcome.record == records[r.intentId]
      ensures outcome.Refused? ==> Prepare(old(records), r, m, g, now) == outcome
    {
      outcome := Prepare(records, r, m, g, now);
      if outcome.Stored? {
        SubmitPrepared(outcome, r, maxRetries, script);
        return Stored(records[r.intentId]);
      }
    }

    method SubmitPrepared(prepared: Outcome, r: Request, maxRetries: int,
                          script: seq<HttpClient.Pass<Option<Submission>>>)
      requires maxRetries <= |script| && prepared.Stored? && Continues(records, r, prepared)
      modifies this
      ensures r.intentId in records
      ensures trace == old(trace) + SubmitFrom(old(Now()), prepared, r, maxRetries, script)
      ensures Now() == Final(old(Now()), SubmitFrom(old(Now()), prepared, r, maxRetries, script))
    {
      if prepared.record.lifecycle != Prepared {
        return;
      }
      ghost var w := Now();
      if r.intentId in records {
        Dispatch(r, maxRetries, script);
        return;
      }
      Insert(prepared.record);
      ghost var w0 := Now();
      Dispatch(r, maxRetries, script);
      assert trace == old(trace) + ([w0] + DispatchTrace(w0, r, maxRetries, script));
    }

    method Insert(e: ExecutionRecord)
      modifies this`records, this`trace
      ensures Now() == With(old(Now()), e) && trace == old(trace) + [Now()]
    {
      records := records[e.request.intentId := e];
      trace := trace + [Now()];
    }

    method ReconcileOpen(id: int, confirmation: Reply<Option<Confirmation>>, positions: Reply<seq<Position>>)
      returns (outcome: Outcome)
      requires id in records ==> records[id].request.intentId == id
      modifies this
      ensures trace == old(trace) + OpenTrace(old(Now()), id, confirmation, positions)
      ensures Now() == Final(old(Now()), OpenTrace(old(Now()), id, confirmation, positions))
      ensures outcome == if id in records then Stored(records[id]) else Refused(Unknown)
    {
      if id !in records {
        return Refused(Unknown);
      }
      var e := records[id];
      if e.lifecycle == Submitted || e.lifecycle == Ambiguous || e.lifecycle == ConfirmedAccepted {
        if confirmation.Raises? || confirmation.value.None? {
          Replace(e.(lifecycle := Ambiguous));
        } else {
          Judge(id, confirmation.value.value, positions);
        }
      }
      return Stored(records[id]);
    }

    method Judge(id: int, c: Confirmation, positions: Reply<seq<Position>>)
      requires id in records && records[id].request.intentId == id
      modifies this
      ensures id in records
      ensures trace == old(trace) + JudgeTrace(old(Now()), id, c, positions)
      ensures Now() == Final(old(Now()), JudgeTrace(old(Now()), id, c, positions))
    {
      var e := records[id];
      if c.dealStatus == Rejected {
        Replace(e.(lifecycle := ConfirmedRejected, confirmation := Some(c)));
      } else if !AcceptedMatches(e.request, c) {
        Replace(e.(lifecycle := FailedSafe));
      } else {
        Replace(e.(lifecycle := ConfirmedAccepted, confirmation := Some(c)));
        ghost var w1 := Now();
        WritePosition(id, c, positions);
        assert trace == old(trace) + [w1, Now()];
      }
    }

    method WritePosition(id: int, c: Confirmation, positions: Reply<seq<Position>>)
      requires id in records && records[id].request.intentId == id
      modifies this
      ensures Now() == AfterPositions(old(Now()), id, c, positions) && trace == old(trace) + [Now()]
      ensures id in records
    {
      var confirmed := records[id];
      if positions.Raises? {
        Replace(confirmed.(lifecycle := Ambiguous));
        return;
      }
      var matches := MatchingPositions(positions.value, c, confirmed.request);
      if |matches| != 1 {
        Replace(confirmed.(lifecycle := FailedSafe));
        return;
      }
      records := records[id := confirmed.(lifecycle := OpenReconciled, position := Some(matches[0]))];
      openings := openings + multiset{id};
      trace := trace + [Now()];
    }

    method WriteCloseOutcome(id: int, reply: Reply<Submission>)
      requires id in records && records[id].request.intentId == id && records[id].position.Some?
      modifies this
      ensures Now() == CloseOutcome(old(Now()), id, reply) && trace == old(trace) + [Now()]
      ensures id in records
    {
      var e := records[id];
      var order := CloseOrderOf(e);
      if reply.Raises? {
        records := records[id := e.(lifecycle := Ambiguous)];
      } else if reply.value.dealReference != order.dealReference {
        records := records[id := e.(lifecycle := FailedSafe)];
      } else {
        records := records[id := e.(lifecycle := CloseRequested, closeSubmission := Some(reply.value))];
      }
      unwritten := unwritten - multiset{id};
      trace := trace + [Now()];
    }

    method RequestClose(id: int, g: Gate, reply: Reply<Submission>) returns (outcome: Outcome)
      requires id in records ==> records[id].request.intentId == id
      modifies this
      ensures trace == old(trace) + CloseTrace(old(Now()), id, g, reply)
      ensures Now() == Final(old(Now()), CloseTrace(old(Now()), id, g, reply))
      ensures outcome.Stored? ==> id in records && outcome.record == records[id]
      ensures outcome.Refused? <==> CloseGuard(old(records), id, g).Some? && CloseGuard(old(records), id, g).value.Refused?
      ensures outcome.Refused? ==> CloseGuard(old(records), id, g) == Some(outcome)
    {
      var early := CloseGuard(records, id, g);
      if early.Some? {
        return early.value;
      }
      ghost var w0 := Now();
      closes, unwritten := closes + multiset{id}, unwritten + multiset{id};
      ghost var w1 := Now();
      trace := trace + [w1];
      WriteCloseOutcome(id, reply);
      assert CloseTrace(w0, id, g, reply) == [w1, Now()];
      return Stored(records[id]);
    }

    method ReconcileClose(id: int, confirmation: Reply<Option<Confirmation>>, positions: Reply<seq<Position>>)
      returns (outcome: Outcome)
      requires id in records ==> records[id].request.intentId == id
      modifies this
      ensures trace == old(trace) + CloseReconcileTrace(old(Now()), id, confirmation, positions)
      ensures Now() == Final(old(Now()), CloseReconcileTrace(old(Now()), id, confirmation, positions))
      ensures outcome == if id in records then Stored(records[id]) else Refused(Unknown)
    {
      if id !in records {
        return Refused(Unknown);
      }
      var e := records[id];
      if e.lifecycle != CloseRequested || e.position.None? || e.closeSubmission.None? {
        return Stored(e);
      }
      if confirmation.Raises? || confirmation.value.None? {
        Replace(e.(lifecycle := Ambiguous));
      } else if !CloseMatches(e, confirmation.value.value) {
        Replace(e.(lifecycle := FailedSafe));
      } else if positions.Raises? {
        Replace(e.(lifecycle := Ambiguous));
      } else if exists p :: p in positions.value && p.dealId == e.position.value.dealId {
        Replace(e.(lifecycle := FailedSafe));
      } else {
        Replace(e.(lifecycle := ClosedReconciled, confirmation := confirmation.value));
      }
      return Stored(records[id]);
    }
  }
}
