/**
 The durable store: one position lives in an intent row and, once opened, a position row. Every
 write is one fenced transaction; the in-memory store is its specification.
 */
module ShadowPostgres {
  import opened Outcomes
  import opened Strings
  import opened Decimals
  import opened ShadowExecution

  datatype Mode = ShadowDemo | AnotherMode

  datatype Payload = Payload(
    direction: Direction, entry: real, token: int, instrument: string, positionId: int,
    stop: real, strategy: string, target: real)

  datatype IntentRow = IntentRow(
    mode: Mode, strategy: string, epic: string, lifecycle: Lifecycle, payload: Payload,
    createdAt: int, updatedAt: int)

  datatype PositionRow = PositionRow(
    positionId: int, strategy: string, instrument: string, direction: Direction,
    entry: real, stop: real, target: real, token: int, openedAt: int, closedAt: Option<int>,
    status: Lifecycle, exitPrice: Option<real>, exitReason: Option<ExitReason>, createdAt: int, updatedAt: int)

  datatype Tables = Tables(intents: map<int, IntentRow>, positions: map<int, PositionRow>)

  datatype StoreError =
    | NotNewIntent | LeaseUnavailable | StaleFence | Blocked | Conflict | OpenConflict
    | StateConflict | IntentConflict | InvalidTransition | Unverified | Unreadable | Ambiguous | FailedClosed

  datatype CommitFate = Committed | RolledBack | AcknowledgementLost

  /** The database's part in one call: whether the fence holds and how the commit ends. */
  datatype Environment = Environment(fenceHolds: bool, fate: CommitFate)

  const TOLERANCE: real := 0.000000000001

  /** The significant digits that survive the conversion of a float to numeric. */
  const FLOAT_DIGITS: nat := 15

  /** What a numeric column keeps of a float. */
  function Column(x: real): real {
    if x > 0.0 then Rounded(x, FLOAT_DIGITS) else x
  }

  // ---------------------------------------------------------------- reading

  predicate Close(payload: real, projected: real) {
    payload > 0.0 && projected > 0.0 && Abs(payload - projected) <= TOLERANCE
  }

  predicate PositionMatches(ti: IntentRow, sp: PositionRow) {
    && ti.lifecycle == sp.status
    && ti.payload.positionId == sp.positionId && ti.payload.strategy == sp.strategy
    && ti.payload.instrument == sp.instrument && ti.payload.direction == sp.direction
    && Close(ti.payload.entry, sp.entry) && Close(ti.payload.stop, sp.stop) && Close(ti.payload.target, sp.target)
    && sp.token > 0
  }

  predicate Readable(ti: IntentRow, sp: Option<PositionRow>) {
    && ti.payload.entry > 0.0 && ti.payload.stop > 0.0 && ti.payload.target > 0.0
    && ti.payload.strategy == ti.strategy && ti.payload.instrument == ti.epic
    && match sp
       case None => ti.lifecycle == IntentCreated && ti.payload.token > 0
       case Some(row) => PositionMatches(ti, row)
  }

  function FromRow(id: int, ti: IntentRow, sp: Option<PositionRow>): Result<Record, StoreError> {
    if !Readable(ti, sp) then Err(Unreadable)
    else match sp
      case None =>
        Ok(Record(ti.payload.positionId, id, ti.strategy, ti.epic, ti.payload.direction,
                  ti.payload.entry, ti.payload.stop, ti.payload.target, ti.payload.token,
                  ti.createdAt, ti.updatedAt, ti.lifecycle, None, None, None, None))
      case Some(row) =>
        Ok(Record(row.positionId, id, ti.strategy, ti.epic, row.direction,
                  ti.payload.entry, ti.payload.stop, ti.payload.target, row.token,
                  row.createdAt, row.updatedAt, row.status, Some(row.openedAt), row.closedAt,
                  row.exitPrice, row.exitReason))
  }

  function PositionOf(t: Tables, id: int): Option<PositionRow> {
    if id in t.positions then Some(t.positions[id]) else None
  }

  predicate HasIntent(t: Tables, id: int) {
    id in t.intents && t.intents[id].mode == ShadowDemo
  }

  function Read(t: Tables, id: int): Result<Option<Record>, StoreError> {
    if !HasIntent(t, id) then Ok(None)
    else match FromRow(id, t.intents[id], PositionOf(t, id))
      case Err(e) => Err(e)
      case Ok(r) => Ok(Some(r))
  }

  predicate BlocksNewIntent(t: Tables, id: int) {
    && HasIntent(t, id)
    && (Unresolved(t.intents[id].lifecycle)
        || (id in t.positions && (t.positions[id].status == Open || t.positions[id].status == FailedSafe)))
  }

  /** The set both the blocking query and the active-position count select. */
  function BlockingIds(t: Tables): set<int> {
    set id | id in t.intents && BlocksNewIntent(t, id)
  }

  // ---------------------------------------------------------------- writing

  /** How the statements of one callback end, before the commit. */
  datatype Attempt = Writes(tables: Tables, record: Record) | Rejects(error: StoreError) | DatabaseFails

  function PayloadOf(r: Record): Payload {
    Payload(r.direction, r.entry, r.token, r.instrument, r.positionId, r.stop, r.strategy, r.target)
  }

  predicate SameIdentity(a: Record, b: Record) {
    a.positionId == b.positionId && SameIntent(a, b)
  }

  predicate IntentRowAllowed(row: IntentRow) {
    NonBlank(row.strategy) && NonBlank(row.epic) && row.updatedAt >= row.createdAt
  }

  predicate PositionRowAllowed(row: PositionRow) {
    && NonBlank(row.strategy) && NonBlank(row.instrument)
    && row.entry > 0.0 && row.stop > 0.0 && row.target > 0.0
    && (row.exitPrice.Some? ==> row.exitPrice.value > 0.0)
    && row.status != IntentCreated && row.token > 0
    && (row.closedAt.Some? ==> row.closedAt.value >= row.openedAt)
    && row.updatedAt >= row.createdAt
  }

  function PutBody(t: Tables, r: Record): Attempt {
    if BlockingIds(t) != {} then
      if BlockingIds(t) != {r.intentId} then Rejects(Blocked)
      else match Read(t, r.intentId)
        case Err(e) => Rejects(e)
        case Ok(None) => Rejects(Conflict)
        case Ok(Some(existing)) => if SameIdentity(existing, r) then Writes(t, existing) else Rejects(Conflict)
    else
      var row := IntentRow(ShadowDemo, r.strategy, r.instrument, r.lifecycle, PayloadOf(r), r.createdAt, r.updatedAt);
      var inserted := r.intentId !in t.intents;
      if inserted && !IntentRowAllowed(row) then DatabaseFails
      else
        var after := if inserted then t.(intents := t.intents[r.intentId := row]) else t;
        match Read(after, r.intentId)
        case Err(e) => Rejects(e)
        case Ok(None) => Rejects(Ambiguous)
        case Ok(Some(result)) =>
          if !inserted && !SameIdentity(result, r) then Rejects(Conflict) else Writes(after, result)
  }

  function OpenRow(current: Record, openedAt: int, token: int, updatedAt: int): PositionRow {
    PositionRow(current.positionId, current.strategy, current.instrument, current.direction,
                Column(current.entry), Column(current.stop), Column(current.target), token, openedAt, None, Open, None, None, current.createdAt, updatedAt)
  }

  function MovedRow(row: PositionRow, to: Lifecycle, token: int, u: Update): PositionRow {
    row.(status := to, token := token, updatedAt := u.updatedAt,
         closedAt := Or(u.closedAt, row.closedAt),
         exitPrice := if u.exitPrice.Some? then Some(Column(u.exitPrice.value)) else row.exitPrice,
         exitReason := Or(u.exitReason, row.exitReason))
  }

  /** The position half of a transition. */
  function PositionBody(t: Tables, id: int, from: Lifecycle, to: Lifecycle, token: int, u: Update)
    : Result<Tables, Option<StoreError>>
  {
    if from == IntentCreated then
      match Read(t, id)
      case Err(e) => Err(Some(e))
      case Ok(None) => Err(Some(OpenConflict))
      case Ok(Some(current)) =>
        if current.lifecycle != from then Err(Some(OpenConflict))
        else if u.openedAt.None? || id in t.positions
                || (exists other :: other in t.positions && t.positions[other].positionId == current.positionId)
                || !PositionRowAllowed(OpenRow(current, u.openedAt.value, token, u.updatedAt)) then Err(None)
        else Ok(t.(positions := t.positions[id := OpenRow(current, u.openedAt.value, token, u.updatedAt)]))
    else if id !in t.positions || t.positions[id].status != from then Err(Some(StateConflict))
    else if !PositionRowAllowed(MovedRow(t.positions[id], to, token, u)) then Err(None)
    else Ok(t.(positions := t.positions[id := MovedRow(t.positions[id], to, token, u)]))
  }

  function TransitionBody(t: Tables, id: int, from: Lifecycle, to: Lifecycle, token: int, u: Update)
    : Attempt
  {
    match PositionBody(t, id, from, to, token, u)
    case Err(Some(e)) => Rejects(e)
    case Err(None) => DatabaseFails
    case Ok(moved) =>
      if id !in moved.intents || moved.intents[id].lifecycle != from then Rejects(IntentConflict)
      else
        var row := moved.intents[id].(lifecycle := to, updatedAt := u.updatedAt);
        if !IntentRowAllowed(row) then DatabaseFails
        else
          var after := moved.(intents := moved.intents[id := row]);
          match Read(after, id)
          case Err(e) => Rejects(e)
          case Ok(None) => Rejects(Unverified)
          case Ok(Some(result)) => if result.lifecycle != to then Rejects(Unverified) else Writes(after, result)
  }

  /** held is the token of the coordinator's lease while it is authorized. */
  datatype State = State(held: Option<int>, tables: Tables)

  /** run_fenced: domain rejections keep the lease, every other failure demotes. */
  function Finish(s: State, attempt: Attempt, env: Environment): (State, Result<Record, StoreError>) {
    if !env.fenceHolds then (s.(held := None), Err(FailedClosed))
    else match attempt
      case Rejects(e) => (s, Err(e))
      case DatabaseFails => (s.(held := None), Err(FailedClosed))
      case Writes(tables, record) =>
        match env.fate
        case Committed => (s.(tables := tables), Ok(record))
        case RolledBack => (s.(held := None), Err(FailedClosed))
        case AcknowledgementLost => (State(None, tables), Err(FailedClosed))
  }

  function FencedPut(s: State, r: Record, env: Environment): (State, Result<Record, StoreError>) {
    if r.lifecycle != IntentCreated then (s, Err(NotNewIntent))
    else if s.held.None? then (s, Err(LeaseUnavailable))
    else if r.token != s.held.value then (s, Err(StaleFence))
    else Finish(s, PutBody(s.tables, r), env)
  }

  function FencedTransition(s: State, id: int, from: Lifecycle, to: Lifecycle, token: int, u: Update, env: Environment)
    : (State, Result<Record, StoreError>)
  {
    if !AllowedTransition(from, to) then (s, Err(InvalidTransition))
    else if s.held.None? then (s, Err(LeaseUnavailable))
    else if token != s.held.value then (s, Err(StaleFence))
    else Finish(s, TransitionBody(s.tables, id, from, to, token, u), env)
  }

  class PostgresShadowStore {
    var held: Option<int>
    var intents: map<int, IntentRow>
    var positions: map<int, PositionRow>

    function View(): State
      reads this
    {
      State(held, Tables(intents, positions))
    }

    constructor ()
      ensures View() == State(None, Tables(map[], map[]))
    {
      held, intents, positions := None, map[], map[];
    }

    method Settle(ghost before: State, result: Result<Record, Option<StoreError>>, env: Environment,
                  savedIntents: map<int, IntentRow>, savedPositions: map<int, PositionRow>)
      returns (r: Result<Record, StoreError>)
      requires env.fenceHolds && held == before.held && before.tables == Tables(savedIntents, savedPositions)
      modifies this
      ensures var attempt := match result
                case Ok(record) => Writes(old(View()).tables, record)
                case Err(Some(e)) => Rejects(e)
                case Err(None) => DatabaseFails;
              (View(), r) == Finish(before, attempt, env)
    {
      var keep := result.Ok? && env.fate != RolledBack;
      if !keep {
        intents, positions := savedIntents, savedPositions;
      }
      if result.Err? && result.error.Some? {
        return Err(result.error.value);
      }
      if result.Err? || env.fate != Committed {
        held := None;
        return Err(FailedClosed);
      }
      return Ok(result.value);
    }

    method PutRecord(r: Record, env: Environment) returns (result: Result<Record, StoreError>)
      modifies this
      ensures (View(), result) == FencedPut(old(View()), r, env)
    {
      if r.lifecycle != IntentCreated {
        return Err(NotNewIntent);
      }
      if held.None? {
        return Err(LeaseUnavailable);
      }
      if r.token != held.value {
        return Err(StaleFence);
      }
      if !env.fenceHolds {
        held := None;
        return Err(FailedClosed);
      }
      ghost var before := View();
      var savedIntents, savedPositions := intents, positions;
      var blocking := BlockingIds(Tables(intents, positions));
      var outcome: Result<Record, Option<StoreError>>;
      if blocking != {} {
        if blocking != {r.intentId} {
          outcome := Err(Some(Blocked));
        } else {
          var existing := Read(Tables(intents, positions), r.intentId);
          match existing {
            case Err(e) => outcome := Err(Some(e));
            case Ok(None) => outcome := Err(Some(Conflict));
            case Ok(Some(found)) =>
              outcome := if SameIdentity(found, r) then Ok(found) else Err(Some(Conflict));
          }
        }
        result := Settle(before, outcome, env, savedIntents, savedPositions);
        return;
      }
      var inserted := r.intentId !in intents;
      var row := IntentRow(ShadowDemo, r.strategy, r.instrument, r.lifecycle, PayloadOf(r), r.createdAt, r.updatedAt);
      if inserted && !IntentRowAllowed(row) {
        result := Settle(before, Err(None), env, savedIntents, savedPositions);
        return;
      }
      if inserted {
        intents := intents[r.intentId := row];
      }
      var reread := Read(Tables(intents, positions), r.intentId);
      match reread {
        case Err(e) => outcome := Err(Some(e));
        case Ok(None) => outcome := Err(Some(Ambiguous));
        case Ok(Some(found)) =>
          outcome := if !inserted && !SameIdentity(found, r) then Err(Some(Conflict)) else Ok(found);
      }
      result := Settle(before, outcome, env, savedIntents, savedPositions);
    }

    method TransitionRecord(id: int, from: Lifecycle, to: Lifecycle, token: int, u: Update, env: Environment)
      returns (result: Result<Record, StoreError>)
      modifies this
      ensures (View(), result) == FencedTransition(old(View()), id, from, to, token, u, env)
    {
      if !AllowedTransition(from, to) {
        return Err(InvalidTransition);
      }
      if held.None? {
        return Err(LeaseUnavailable);
      }
      if token != held.value {
        return Err(StaleFence);
      }
      if !env.fenceHolds {
        held := None;
        return Err(FailedClosed);
      }
      ghost var before := View();
      var savedIntents, savedPositions := intents, positions;
      var moved := PositionBody(Tables(intents, positions), id, from, to, token, u);
      if moved.Err? {
        result := Settle(before, Err(moved.error), env, savedIntents, savedPositions);
        return;
      }
      positions := moved.value.positions;
      if id !in intents || intents[id].lifecycle != from {
        result := Settle(before, Err(Some(IntentConflict)), env, savedIntents, savedPositions);
        return;
      }
      var row := intents[id].(lifecycle := to, updatedAt := u.updatedAt);
      if !IntentRowAllowed(row) {
        result := Settle(before, Err(None), env, savedIntents, savedPositions);
        return;
      }
      intents := intents[id := row];
      var outcome: Result<Record, Option<StoreError>>;
      var reread := Read(Tables(intents, positions), id);
      match reread {
        case Err(e) => outcome := Err(Some(e));
        case Ok(None) => outcome := Err(Some(Unverified));
        case Ok(Some(found)) => outcome := if found.lifecycle != to then Err(Some(Unverified)) else Ok(found);
      }
      result := Settle(before, outcome, env, savedIntents, savedPositions);
    }
  }

  // ---------------------------------------------------------------- invariant and abstraction

  ghost predicate TablesInv(t: Tables) {
    && (forall id :: HasIntent(t, id) ==> Readable(t.intents[id], PositionOf(t, id)))
    && (forall id :: id in t.positions ==> HasIntent(t, id) && t.positions[id].status != IntentCreated)
    && (forall a, b :: BlocksNewIntent(t, a) && BlocksNewIntent(t, b) ==> a == b)
  }

  function Records(t: Tables): (m: map<int, Record>)
    requires forall id :: HasIntent(t, id) ==> Readable(t.intents[id], PositionOf(t, id))
  {
    map id | id in t.intents && HasIntent(t, id) :: FromRow(id, t.intents[id], PositionOf(t, id)).value
  }

  /** The in-memory store these tables stand for, under the token of the current lease row. */
  function AsMemory(t: Tables, token: int): Store
    requires TablesInv(t)
  {
    Store(token, Records(t))
  }

  /** The shape of every record the core puts. */
  predicate NewRecord(r: Record) {
    && r.lifecycle == IntentCreated && r.token > 0 && r.entry > 0.0 && r.stop > 0.0 && r.target > 0.0
    && r.openedAt.None? && r.closedAt.None? && r.exitPrice.None? && r.exitReason.None?
  }

  /** The shape of every transition the core issues: opening sets opened_at, leaving OPEN sets the exit. */
  predicate CoreUpdate(from: Lifecycle, u: Update) {
    if from == IntentCreated then u.closedAt.None? && u.exitPrice.None? && u.exitReason.None?
    else u.openedAt.None?
  }

  /** An update as the columns keep it. */
  function ColumnUpdate(u: Update): Update {
    if u.exitPrice.Some? then u.(exitPrice := Some(Column(u.exitPrice.value))) else u
  }

  lemma InsertRefines(t: Tables, r: Record)
    requires TablesInv(t) && NewRecord(r) && BlockingIds(t) == {} && r.intentId !in t.intents
    requires PutBody(t, r).Writes?
    ensures var after := PutBody(t, r);
            && TablesInv(after.tables) && after.record == r
            && Records(after.tables) == Records(t)[r.intentId := r]
  {
    var n := PutBody(t, r).tables;
    assert forall id :: BlocksNewIntent(t, id) <==> id in BlockingIds(t);
    assert forall id :: id != r.intentId ==> HasIntent(n, id) == HasIntent(t, id) && PositionOf(n, id) == PositionOf(t, id);
    assert forall id :: id != r.intentId ==> BlocksNewIntent(n, id) == BlocksNewIntent(t, id);
    assert r.intentId !in n.positions;
  }

  lemma PutBodyRefines(t: Tables, r: Record)
    requires TablesInv(t) && NewRecord(r) && PutBody(t, r).Writes?
    ensures var after := PutBody(t, r);
            && TablesInv(after.tables)
            && ShadowExecution.Put(AsMemory(t, r.token), r) == Ok((AsMemory(after.tables, r.token), after.record))
  {
    if BlockingIds(t) == {} && r.intentId !in t.intents {
      InsertRefines(t, r);
      assert r.intentId !in Records(t);
    } else {
      assert r.intentId in Records(t);
    }
  }

  /** A rewrite of one intent's two rows that keeps them readable and starts no new unresolved position. */
  lemma RewriteKeepsInv(t: Tables, n: Tables, id: int)
    requires TablesInv(t) && HasIntent(t, id) && HasIntent(n, id) && id in n.positions
    requires n.intents == t.intents[id := n.intents[id]] && n.positions == t.positions[id := n.positions[id]]
    requires Readable(n.intents[id], PositionOf(n, id)) && n.positions[id].status != IntentCreated
    requires BlocksNewIntent(n, id) ==> BlocksNewIntent(t, id)
    ensures TablesInv(n)
    ensures Records(n) == Records(t)[id := FromRow(id, n.intents[id], PositionOf(n, id)).value]
  {
    assert forall other :: other != id ==> PositionOf(n, other) == PositionOf(t, other)
                                           && HasIntent(n, other) == HasIntent(t, other);
    assert forall other :: other != id ==> BlocksNewIntent(n, other) == BlocksNewIntent(t, other);
  }

  lemma MovedRecord(t: Tables, id: int, from: Lifecycle, to: Lifecycle, token: int, u: Update)
    requires TablesInv(t) && AllowedTransition(from, to) && CoreUpdate(from, u)
    requires TransitionBody(t, id, from, to, token, u).Writes?
    ensures var after := TransitionBody(t, id, from, to, token, u);
            var kept := ColumnUpdate(u);
            && HasIntent(t, id) && id in Records(t) && Records(t)[id].lifecycle == from
            && after.record == Updated(Records(t)[id], to, token, kept)
  {
  }

  /** The abstract record moves exactly as in memory, up to what the numeric column keeps of the exit price. */
  lemma TransitionBodyRefines(t: Tables, id: int, from: Lifecycle, to: Lifecycle, token: int, u: Update)
    requires TablesInv(t) && AllowedTransition(from, to) && CoreUpdate(from, u)
    requires TransitionBody(t, id, from, to, token, u).Writes?
    ensures var after := TransitionBody(t, id, from, to, token, u);
            var kept := ColumnUpdate(u);
            && TablesInv(after.tables)
            && ShadowExecution.Transition(AsMemory(t, token), id, from, to, token, kept)
               == Ok((AsMemory(after.tables, token), after.record))
  {
    MovedRecord(t, id, from, to, token, u);
    RewriteKeepsInv(t, TransitionBody(t, id, from, to, token, u).tables, id);
  }

  // ---------------------------------------------------------------- calls

  /** How a fenced call ends, given what its statements did. */
  lemma FinishEnds(s: State, attempt: Attempt, env: Environment)
    ensures var (after, result) := Finish(s, attempt, env);
            && (result.Ok? ==> attempt.Writes? && after.tables == attempt.tables && result.value == attempt.record)
            && (result.Err? && env.fate != AcknowledgementLost ==> after.tables == s.tables)
            && (after.tables != s.tables ==> env.fenceHolds && attempt.Writes? && after.tables == attempt.tables)
            && (result.Ok? ==> env.fenceHolds)
  {
  }

  /**
   A put that returns a record returned the in-memory store's, in the in-memory store's next state.
   Otherwise both tables are unchanged, unless only the acknowledgement of the commit was lost.
   */
  lemma PutRefines(s: State, r: Record, env: Environment, token: int)
    requires TablesInv(s.tables) && NewRecord(r)
    requires env.fenceHolds ==> s.held == Some(token)
    ensures var (after, result) := FencedPut(s, r, env);
            && TablesInv(after.tables)
            && (result.Ok? ==>
                  ShadowExecution.Put(AsMemory(s.tables, token), r) == Ok((AsMemory(after.tables, token), result.value)))
            && (result.Err? && env.fate != AcknowledgementLost ==> after.tables == s.tables)
            && (after.tables != s.tables ==>
                  var memory := ShadowExecution.Put(AsMemory(s.tables, token), r);
                  memory.Ok? && memory.value.0 == AsMemory(after.tables, token))
  {
    var attempt := PutBody(s.tables, r);
    FinishEnds(s, attempt, env);
    if attempt.Writes? {
      PutBodyRefines(s.tables, r);
    }
  }

  lemma TransitionRefines(s: State, id: int, from: Lifecycle, to: Lifecycle, held: int, u: Update,
                          env: Environment, token: int)
    requires TablesInv(s.tables) && CoreUpdate(from, u)
    requires env.fenceHolds ==> s.held == Some(token)
    ensures var (after, result) := FencedTransition(s, id, from, to, held, u, env);
            var kept := ColumnUpdate(u);
            var memory := ShadowExecution.Transition(AsMemory(s.tables, token), id, from, to, held, kept);
            && TablesInv(after.tables)
            && (result.Ok? ==> memory == Ok((AsMemory(after.tables, token), result.value)))
            && (result.Err? && env.fate != AcknowledgementLost ==> after.tables == s.tables)
            && (after.tables != s.tables ==> memory.Ok? && memory.value.0 == AsMemory(after.tables, token))
  {
    var attempt := TransitionBody(s.tables, id, from, to, held, u);
    FinishEnds(s, attempt, env);
    if AllowedTransition(from, to) && attempt.Writes? {
      TransitionBodyRefines(s.tables, id, from, to, held, u);
    }
  }

  /** A close returns exactly the in-memory record if and only if fifteen digits write the exit price. */
  lemma CloseIsExactIffShort(s: State, id: int, held: int, u: Update, env: Environment, token: int)
    requires TablesInv(s.tables) && CoreUpdate(Open, u) && u.exitPrice.Some?
    requires env.fenceHolds ==> s.held == Some(token)
    requires FencedTransition(s, id, Open, Closed, held, u, env).1.Ok?
    ensures var (after, result) := FencedTransition(s, id, Open, Closed, held, u, env);
            ShadowExecution.Transition(AsMemory(s.tables, token), id, Open, Closed, held, u).Ok?
            && (result.value == ShadowExecution.Transition(AsMemory(s.tables, token), id, Open, Closed, held, u).value.1
                <==> FitsDigits(u.exitPrice.value, FLOAT_DIGITS))
  {
    TransitionRefines(s, id, Open, Closed, held, u, env, token);
    KeptIffFits(u.exitPrice.value, FLOAT_DIGITS);
  }

  // ---------------------------------------------------------------- prices the columns refuse

  /** The read after a write accepts the column's price for the payload's. */
  predicate NearColumn(x: real) {
    Abs(x - Column(x)) <= TOLERANCE
  }

  /** Nothing but its prices stands against opening this intent. */
  ghost predicate CanOpen(t: Tables, id: int, token: int, u: Update) {
    && HasIntent(t, id) && t.intents[id].lifecycle == IntentCreated && id !in t.positions
    && NonBlank(t.intents[id].strategy) && NonBlank(t.intents[id].epic)
    && u.openedAt.Some? && u.updatedAt >= t.intents[id].createdAt && token > 0
    && forall other :: other in t.positions ==> t.positions[other].positionId != t.intents[id].payload.positionId
  }

  /** Such an intent opens if and only if the read after the write accepts its three prices. */
  lemma OpensIffPricesNear(t: Tables, id: int, token: int, u: Update)
    requires TablesInv(t) && CanOpen(t, id, token, u)
    ensures var p := t.intents[id].payload;
            var attempt := TransitionBody(t, id, IntentCreated, Open, token, u);
            if NearColumn(p.entry) && NearColumn(p.stop) && NearColumn(p.target) then attempt.Writes?
            else attempt == Rejects(Unreadable)
  {
    var p := t.intents[id].payload;
    RoundedIsPositive(p.entry, FLOAT_DIGITS);
    RoundedIsPositive(p.stop, FLOAT_DIGITS);
    RoundedIsPositive(p.target, FLOAT_DIGITS);
    assert PositionBody(t, id, IntentCreated, Open, token, u).Ok?;
  }

  lemma SmallPowers()
    ensures PowerOfTen(-12) == TOLERANCE && PowerOfTen(-10) == 0.0000000001
    ensures PowerOfTen(3) == 1000.0 && PowerOfTen(4) == 10000.0 && PowerOfTen(5) == 100000.0
  {
    assert PowerOfTen(-2) == 0.01;
    assert PowerOfTen(-4) == 0.0001;
    assert PowerOfTen(-6) == 0.000001;
    assert PowerOfTen(-8) == 0.00000001;
    assert PowerOfTen(2) == 100.0;
  }

  /** Every price below one thousand, and every price that fifteen digits write, is accepted. */
  lemma ShortPricesAreNear(x: real)
    requires x > 0.0 && (x < 1000.0 || FitsDigits(x, FLOAT_DIGITS))
    ensures NearColumn(x)
  {
    KeptIffFits(x, FLOAT_DIGITS);
    if x < 1000.0 {
      SmallPowers();
      RoundedClose(x, FLOAT_DIGITS);
      PowersApart(Magnitude(x), 3);
      PowerShifted(Magnitude(x) - 14, 2 - Magnitude(x));
    }
  }

  /** A computed stop such as 18000.1 - 0.2 in binary arithmetic, which is not. */
  lemma LongPriceIsNotNear()
    ensures !NearColumn(17999.899999999998)
  {
    var x := 17999.899999999998;
    SmallPowers();
    PowersApart(Magnitude(x), 5);
    PowersApart(4, Magnitude(x) + 1);
    assert Unit(x, FLOAT_DIGITS) == 0.0000000001;
    assert x / 0.0000000001 == 179998999999999.98;
    assert HalfEven(179998999999999.98) == 179999000000000;
  }

  /** So fifteen digits do not write it, and a close at it does not return the in-memory record. */
  lemma LongPriceIsLong()
    ensures !FitsDigits(17999.899999999998, FLOAT_DIGITS) && Column(17999.899999999998) != 17999.899999999998
  {
    LongPriceIsNotNear();
    if FitsDigits(17999.899999999998, FLOAT_DIGITS) {
      ShortPricesAreNear(17999.899999999998);
    }
    KeptIffFits(17999.899999999998, FLOAT_DIGITS);
  }

  // ---------------------------------------------------------------- whole runs

  datatype Step =
    | PutStep(r: Record, env: Environment)
    | TransitionStep(id: int, from: Lifecycle, to: Lifecycle, token: int, u: Update, env: Environment)
    | LeaseStep(held: Option<int>)

  function After(s: State, step: Step): State {
    match step
    case PutStep(r, env) => FencedPut(s, r, env).0
    case TransitionStep(id, from, to, token, u, env) => FencedTransition(s, id, from, to, token, u, env).0
    case LeaseStep(held) => s.(held := held)
  }

  /** The calls the core makes; FAILED_SAFE is also reached this way when a caller marks it. */
  predicate CoreStep(step: Step) {
    match step
    case PutStep(r, _) => NewRecord(r)
    case TransitionStep(_, from, _, _, u, _) => CoreUpdate(from, u)
    case LeaseStep(_) => true
  }

  ghost predicate IsRun(run: seq<State>, steps: seq<Step>) {
    && |run| == |steps| + 1 && run[0].tables == Tables(map[], map[])
    && forall i {:trigger steps[i]} :: 0 <= i < |steps| ==> CoreStep(steps[i]) && run[i + 1] == After(run[i], steps[i])
  }

  /** The tables a step writes, if it writes. */
  ghost predicate Effect(t: Tables, step: Step, n: Tables) {
    match step
    case PutStep(r, _) => PutBody(t, r).Writes? && n == PutBody(t, r).tables
    case TransitionStep(id, from, to, token, u, _) =>
      AllowedTransition(from, to) && TransitionBody(t, id, from, to, token, u).Writes?
      && n == TransitionBody(t, id, from, to, token, u).tables
    case LeaseStep(_) => false
  }

  lemma StepEffect(s: State, step: Step)
    ensures After(s, step).tables == s.tables || Effect(s.tables, step, After(s, step).tables)
  {
  }

  lemma EffectKeepsInv(t: Tables, step: Step, n: Tables)
    requires TablesInv(t) && CoreStep(step) && Effect(t, step, n)
    ensures TablesInv(n)
  {
    match step
    case PutStep(r, _) => PutBodyRefines(t, r);
    case TransitionStep(id, from, to, token, u, _) => TransitionBodyRefines(t, id, from, to, token, u);
  }

  lemma StepKeepsInv(s: State, step: Step)
    requires TablesInv(s.tables) && CoreStep(step)
    ensures TablesInv(After(s, step).tables)
  {
    StepEffect(s, step);
    if After(s, step).tables != s.tables {
      EffectKeepsInv(s.tables, step, After(s, step).tables);
    }
  }

  lemma {:induction false} RunKeepsInv(run: seq<State>, steps: seq<Step>, i: nat)
    requires IsRun(run, steps) && i < |run|
    ensures TablesInv(run[i].tables)
  {
    if i > 0 {
      RunKeepsInv(run, steps, i - 1);
      assert CoreStep(steps[i - 1]);
      StepKeepsInv(run[i - 1], steps[i - 1]);
    }
  }

  /** In every durable state all rows can be read, the count is the in-memory count, and it is at most one. */
  lemma OneUnresolvedPosition(run: seq<State>, steps: seq<Step>, i: nat, id: int)
    requires IsRun(run, steps) && i < |run|
    ensures Read(run[i].tables, id).Ok?
    ensures TablesInv(run[i].tables) && BlockingIds(run[i].tables) == ActiveIds(Records(run[i].tables))
    ensures |BlockingIds(run[i].tables)| <= 1
  {
    RunKeepsInv(run, steps, i);
    var t := run[i].tables;
    assert forall id :: BlocksNewIntent(t, id) <==> id in BlockingIds(t);
    assert forall id :: id in BlockingIds(t) <==> id in ActiveIds(Records(t));
    if BlockingIds(t) != {} {
      var a :| a in BlockingIds(t);
      assert BlockingIds(t) == {a};
    }
  }

  predicate FailedSafeAt(t: Tables, id: int) {
    HasIntent(t, id) && t.intents[id].lifecycle == FailedSafe
  }

  lemma FailedSafeStays(s: State, step: Step, id: int)
    requires TablesInv(s.tables) && CoreStep(step) && FailedSafeAt(s.tables, id)
    ensures FailedSafeAt(After(s, step).tables, id)
    ensures step.PutStep? && step.r.intentId != id ==> FencedPut(s, step.r, step.env).1.Err?
    ensures step.PutStep? ==> After(s, step).tables == s.tables
  {
    if step.PutStep? {
      BlockedPut(s, step.r, step.env, id);
    } else {
      StepEffect(s, step);
      if After(s, step).tables != s.tables {
        FailedSafeNeverMoves(s.tables, step, After(s, step).tables, id);
      }
    }
  }

  /** While an intent blocks, a put writes nothing, and one for another intent is refused. */
  lemma BlockedPut(s: State, r: Record, env: Environment, id: int)
    requires BlocksNewIntent(s.tables, id)
    ensures FencedPut(s, r, env).0.tables == s.tables
    ensures r.intentId != id ==> FencedPut(s, r, env).1.Err?
  {
    assert id in BlockingIds(s.tables);
  }

  /** A transition writes the two rows of one intent. */
  lemma OtherRowsStay(t: Tables, step: Step, n: Tables, id: int)
    requires step.TransitionStep? && Effect(t, step, n) && id != step.id && HasIntent(t, id)
    ensures HasIntent(n, id) && n.intents[id] == t.intents[id] && PositionOf(n, id) == PositionOf(t, id)
  {
  }

  lemma FailedSafeNeverMoves(t: Tables, step: Step, n: Tables, id: int)
    requires step.TransitionStep? && Effect(t, step, n) && FailedSafeAt(t, id)
    ensures FailedSafeAt(n, id)
  {
    if step.id != id {
      OtherRowsStay(t, step, n, id);
    }
  }

  /** After a FAILED_SAFE record, every other put is refused for the rest of the run. */
  lemma {:induction false} FailedSafeBlocks(run: seq<State>, steps: seq<Step>, i: nat, j: nat, id: int)
    requires IsRun(run, steps) && i <= j < |run| && FailedSafeAt(run[i].tables, id)
    ensures FailedSafeAt(run[j].tables, id)
    ensures j < |steps| && steps[j].PutStep? ==>
              && run[j + 1].tables == run[j].tables
              && (steps[j].r.intentId != id ==> FencedPut(run[j], steps[j].r, steps[j].env).1.Err?)
  {
    if i < j {
      FailedSafeBlocks(run, steps, i, j - 1, id);
      RunKeepsInv(run, steps, j - 1);
      assert CoreStep(steps[j - 1]);
      FailedSafeStays(run[j - 1], steps[j - 1], id);
    }
    if j < |steps| {
      RunKeepsInv(run, steps, j);
      assert CoreStep(steps[j]);
      FailedSafeStays(run[j], steps[j], id);
    }
  }

  // ---------------------------------------------------------------- an intent that can never open

  predicate StuckAt(t: Tables, id: int) {
    && HasIntent(t, id) && t.intents[id].lifecycle == IntentCreated && id !in t.positions
    && var p := t.intents[id].payload;
       !(NearColumn(p.entry) && NearColumn(p.stop) && NearColumn(p.target))
  }

  lemma StuckNeverMoves(t: Tables, step: Step, n: Tables, id: int)
    requires TablesInv(t) && step.TransitionStep? && Effect(t, step, n) && StuckAt(t, id)
    ensures step.id != id
  {
  }

  lemma StuckStays(s: State, step: Step, id: int)
    requires TablesInv(s.tables) && CoreStep(step) && StuckAt(s.tables, id)
    ensures StuckAt(After(s, step).tables, id)
    ensures step.PutStep? && step.r.intentId != id ==> FencedPut(s, step.r, step.env).1.Err?
  {
    if step.PutStep? {
      BlockedPut(s, step.r, step.env, id);
    } else {
      StepEffect(s, step);
      if After(s, step).tables != s.tables {
        StuckNeverMoves(s.tables, step, After(s, step).tables, id);
        OtherRowsStay(s.tables, step, After(s, step).tables, id);
      }
    }
  }

  /** Once put, an intent with a price its columns cannot keep near never opens, and refuses every other intent. */
  lemma {:induction false} StuckIntentBlocks(run: seq<State>, steps: seq<Step>, i: nat, j: nat, id: int)
    requires IsRun(run, steps) && i <= j < |run| && StuckAt(run[i].tables, id)
    ensures StuckAt(run[j].tables, id)
    ensures j < |steps| && steps[j].PutStep? && steps[j].r.intentId != id ==>
              FencedPut(run[j], steps[j].r, steps[j].env).1.Err?
  {
    if i < j {
      StuckIntentBlocks(run, steps, i, j - 1, id);
      RunKeepsInv(run, steps, j - 1);
      assert CoreStep(steps[j - 1]);
      StuckStays(run[j - 1], steps[j - 1], id);
    }
    if j < |steps| {
      RunKeepsInv(run, steps, j);
      assert CoreStep(steps[j]);
      StuckStays(run[j], steps[j], id);
    }
  }

  // ---------------------------------------------------------------- a run that reaches one

  /** Bought at 18000.1 with a stop at 18000.1 - 0.2. */
  function LongStop(): Record {
    Record(1, 1, "S0", "INDEX", Buy, 18000.1, 17999.899999999998, 18001.0, 1, 0, 0, IntentCreated, None, None, None, None)
  }

  function Healthy(): Environment {
    Environment(true, Committed)
  }

  function FirstTables(r: Record): Tables {
    Tables(map[r.intentId := IntentRow(ShadowDemo, r.strategy, r.instrument, r.lifecycle, PayloadOf(r),
                                       r.createdAt, r.updatedAt)], map[])
  }

  lemma FirstPut(r: Record)
    requires NewRecord(r) && NonBlank(r.strategy) && NonBlank(r.instrument) && r.updatedAt >= r.createdAt
    ensures FencedPut(State(Some(r.token), Tables(map[], map[])), r, Healthy())
            == (State(Some(r.token), FirstTables(r)), Ok(r))
  {
    var t := Tables(map[], map[]);
    assert BlockingIds(t) == {};
    assert Read(FirstTables(r), r.intentId) == Ok(Some(r));
    assert PutBody(t, r) == Writes(FirstTables(r), r);
  }

  /**
   From the empty tables and under a healthy lease and database: the intent is put, nothing but its
   prices stands against opening it, and the read after the write refuses.
   */
  lemma StuckIntentRun() returns (run: seq<State>, steps: seq<Step>)
    ensures IsRun(run, steps) && |run| == 3 && StuckAt(run[2].tables, 1)
    ensures var u := Update(1, Some(1), None, None, None);
            && CanOpen(run[2].tables, 1, 1, u)
            && FencedTransition(run[2], 1, IntentCreated, Open, 1, u, Healthy()) == (run[2], Err(Unreadable))
  {
    var empty := Tables(map[], map[]);
    run := [State(None, empty), State(Some(1), empty), State(Some(1), FirstTables(LongStop()))];
    steps := [LeaseStep(Some(1)), PutStep(LongStop(), Healthy())];
    assert LongStop().strategy[0] != ' ' && LongStop().instrument[0] != ' ';
    FirstPut(LongStop());
    LongPriceIsNotNear();
    assert IsRun(run, steps);
    RunKeepsInv(run, steps, 2);
    var u := Update(1, Some(1), None, None, None);
    OpensIffPricesNear(run[2].tables, 1, 1, u);
  }
}
