/** Which calls the durable store grants, and what each refusal and each failure of the database leaves behind. */
module ShadowAnswers {
  import opened Outcomes
  import opened Strings
  import opened Decimals
  import opened ShadowExecution
  import opened ShadowPostgres

  // ---------------------------------------------------------------- what the constraints keep

  /** Every row meets the constraints of its table. */
  ghost predicate RowsAllowed(t: Tables) {
    && (forall id :: id in t.intents ==> IntentRowAllowed(t.intents[id]))
    && (forall id :: id in t.positions ==> PositionRowAllowed(t.positions[id]))
    && (forall id :: id in t.positions ==> id in t.intents && t.positions[id].createdAt == t.intents[id].createdAt)
  }

  lemma EffectKeepsRows(t: Tables, step: Step, n: Tables)
    requires RowsAllowed(t) && Effect(t, step, n)
    ensures RowsAllowed(n)
  {
  }

  lemma {:induction false} RunKeepsRows(run: seq<State>, steps: seq<Step>, i: nat)
    requires ShadowPostgres.IsRun(run, steps) && i < |run|
    ensures RowsAllowed(run[i].tables)
  {
    if i > 0 {
      RunKeepsRows(run, steps, i - 1);
      assert CoreStep(steps[i - 1]);
      StepEffect(run[i - 1], steps[i - 1]);
      if run[i].tables != run[i - 1].tables {
        EffectKeepsRows(run[i - 1].tables, steps[i - 1], run[i].tables);
      }
    }
  }

  lemma ColumnIsPositive(x: real)
    ensures Column(x) > 0.0 <==> x > 0.0
  {
    if x > 0.0 {
      RoundedIsPositive(x, FLOAT_DIGITS);
    }
  }

  // ---------------------------------------------------------------- reading

  /** Positive, and within a millionth of a millionth of each other. */
  ghost predicate SamePrice(payload: real, column: real) {
    payload > 0.0 && column > 0.0 && -0.000000000001 <= payload - column <= 0.000000000001
  }

  /** Both rows, or the one of an intent not yet opened, tell one story. */
  ghost predicate RowsAgree(t: Tables, id: int)
    requires id in t.intents
  {
    var intent := t.intents[id];
    var p := intent.payload;
    && p.entry > 0.0 && p.stop > 0.0 && p.target > 0.0 && p.strategy == intent.strategy && p.instrument == intent.epic
    && if id in t.positions then
         var row := t.positions[id];
         && row.status == intent.lifecycle && row.positionId == p.positionId && row.token > 0
         && row.strategy == p.strategy && row.instrument == p.instrument && row.direction == p.direction
         && SamePrice(p.entry, row.entry) && SamePrice(p.stop, row.stop) && SamePrice(p.target, row.target)
       else intent.lifecycle == IntentCreated && p.token > 0
  }

  /** A stored intent is read if and only if its rows agree; its prices are the payload's, its progress the position's. */
  lemma ReadMeans(t: Tables, id: int)
    ensures !(id in t.intents && t.intents[id].mode == ShadowDemo) ==> Read(t, id) == Ok(None)
    ensures id in t.intents && t.intents[id].mode == ShadowDemo ==>
              && (Read(t, id).Ok? <==> RowsAgree(t, id))
              && (Read(t, id).Err? ==> Read(t, id) == Err(Unreadable))
              && (Read(t, id).Ok? ==>
                    var intent, p := t.intents[id], t.intents[id].payload;
                    Read(t, id) == Ok(Some(
                      if id in t.positions then
                        var row := t.positions[id];
                        Record(p.positionId, id, intent.strategy, intent.epic, p.direction, p.entry, p.stop, p.target, row.token,
                               row.createdAt, row.updatedAt, row.status, Some(row.openedAt), row.closedAt, row.exitPrice,
                               row.exitReason)
                      else
                        Record(p.positionId, id, intent.strategy, intent.epic, p.direction, p.entry, p.stop, p.target, p.token,
                               intent.createdAt, intent.updatedAt, IntentCreated, None, None, None, None))))
  {
  }

  /** Which intents block another: those of this mode that either table shows created, open or failed safe. */
  lemma BlockingMeans(t: Tables, id: int)
    ensures id in BlockingIds(t) <==>
            && id in t.intents && t.intents[id].mode == ShadowDemo
            && (t.intents[id].lifecycle in {IntentCreated, Open, FailedSafe}
                || (id in t.positions && t.positions[id].status in {Open, FailedSafe}))
  {
  }

  // ---------------------------------------------------------------- transitions

  /** Another position row has this position's identifier. */
  ghost predicate PositionIdTaken(records: map<int, Record>, id: int)
    requires id in records
  {
    exists other :: other in records && records[other].lifecycle != IntentCreated
                    && records[other].positionId == records[id].positionId
  }

  /** What the columns ask of a transition from this record beyond the lifecycle. */
  ghost predicate ColumnsAccept(records: map<int, Record>, id: int, from: Lifecycle, token: int, u: Update)
    requires id in records
  {
    var m := records[id];
    && token > 0 && u.updatedAt >= m.createdAt
    && if from == IntentCreated then u.openedAt.Some? && !PositionIdTaken(records, id)
       else && (u.closedAt.Some? && m.openedAt.Some? ==> u.closedAt.value >= m.openedAt.value)
            && (u.exitPrice.Some? ==> u.exitPrice.value > 0.0)
  }

  /** Opening also reads its three prices back. */
  ghost predicate PricesAccepted(m: Record, from: Lifecycle) {
    from == IntentCreated ==> NearColumn(m.entry) && NearColumn(m.stop) && NearColumn(m.target)
  }

  lemma PositionIds(t: Tables, id: int)
    requires TablesInv(t) && HasIntent(t, id) && id !in t.positions
    ensures PositionIdTaken(Records(t), id)
            <==> exists other :: other in t.positions && t.positions[other].positionId == t.intents[id].payload.positionId
  {
    var records := Records(t);
    forall other | other in t.positions
      ensures other in records && records[other].lifecycle != IntentCreated
      ensures records[other].positionId == t.positions[other].positionId
    {
      assert HasIntent(t, other) && Readable(t.intents[other], PositionOf(t, other));
    }
    forall other | other in records && records[other].lifecycle != IntentCreated
      ensures other in t.positions
    {
      assert HasIntent(t, other) && Readable(t.intents[other], PositionOf(t, other));
    }
  }

  lemma OpenBody(t: Tables, id: int, token: int, u: Update)
    requires TablesInv(t) && RowsAllowed(t) && id in Records(t) && Records(t)[id].lifecycle == IntentCreated
    ensures var attempt := TransitionBody(t, id, IntentCreated, Open, token, u);
            if !ColumnsAccept(Records(t), id, IntentCreated, token, u) then attempt.DatabaseFails?
            else if !PricesAccepted(Records(t)[id], IntentCreated) then attempt == Rejects(Unreadable)
            else attempt.Writes?
  {
    assert HasIntent(t, id) && Readable(t.intents[id], PositionOf(t, id)) && id !in t.positions;
    PositionIds(t, id);
    var p := t.intents[id].payload;
    ColumnIsPositive(p.entry);
    ColumnIsPositive(p.stop);
    ColumnIsPositive(p.target);
    if ColumnsAccept(Records(t), id, IntentCreated, token, u) {
      OpensIffPricesNear(t, id, token, u);
    } else {
      assert PositionBody(t, id, IntentCreated, Open, token, u) == Err(None);
    }
  }

  lemma MoveBody(t: Tables, id: int, from: Lifecycle, to: Lifecycle, token: int, u: Update)
    requires TablesInv(t) && RowsAllowed(t) && AllowedTransition(from, to) && from != IntentCreated && CoreUpdate(from, u)
    requires id in Records(t) && Records(t)[id].lifecycle == from
    ensures var attempt := TransitionBody(t, id, from, to, token, u);
            if ColumnsAccept(Records(t), id, from, token, u) then attempt.Writes? else attempt.DatabaseFails?
  {
    assert HasIntent(t, id) && Readable(t.intents[id], PositionOf(t, id)) && id in t.positions;
    if u.exitPrice.Some? {
      ColumnIsPositive(u.exitPrice.value);
    }
    var row := MovedRow(t.positions[id], to, token, u);
    assert PositionRowAllowed(row) <==> ColumnsAccept(Records(t), id, from, token, u);
    if PositionRowAllowed(row) {
      assert PositionBody(t, id, from, to, token, u) == Ok(t.(positions := t.positions[id := row]));
    }
  }

  lemma UnknownBody(t: Tables, id: int, from: Lifecycle, to: Lifecycle, token: int, u: Update)
    requires TablesInv(t) && AllowedTransition(from, to) && !(id in Records(t) && Records(t)[id].lifecycle == from)
    ensures TransitionBody(t, id, from, to, token, u) == Rejects(if from == IntentCreated then OpenConflict else StateConflict)
  {
    assert HasIntent(t, id) ==> Readable(t.intents[id], PositionOf(t, id));
    assert PositionBody(t, id, from, to, token, u)
           == Err(Some(if from == IntentCreated then OpenConflict else StateConflict));
  }

  /** The answer of a transition under a held fence and a database that commits. */
  lemma TransitionAnswers(s: State, id: int, from: Lifecycle, to: Lifecycle, held: int, u: Update, token: int)
    requires TablesInv(s.tables) && RowsAllowed(s.tables) && CoreUpdate(from, u) && s.held == Some(token)
    ensures var (after, result) := FencedTransition(s, id, from, to, held, u, Healthy());
            var records := Records(s.tables);
            var known := id in records && records[id].lifecycle == from;
            && (result == Err(InvalidTransition) <==> !AllowedTransition(from, to))
            && (result == Err(StaleFence) <==> AllowedTransition(from, to) && held != token)
            && (AllowedTransition(from, to) && held == token ==>
                  && (result == Err(OpenConflict) <==> !known && from == IntentCreated)
                  && (result == Err(StateConflict) <==> !known && from != IntentCreated)
                  && (result == Err(FailedClosed) <==> known && !ColumnsAccept(records, id, from, token, u))
                  && (result == Err(Unreadable) <==>
                        known && ColumnsAccept(records, id, from, token, u) && !PricesAccepted(records[id], from))
                  && (result.Ok? <==>
                        known && ColumnsAccept(records, id, from, token, u) && PricesAccepted(records[id], from)))
  {
    var t := s.tables;
    if AllowedTransition(from, to) && held == token {
      if id in Records(t) && Records(t)[id].lifecycle == from {
        if from == IntentCreated {
          OpenBody(t, id, token, u);
        } else {
          MoveBody(t, id, from, to, token, u);
        }
      } else {
        UnknownBody(t, id, from, to, token, u);
      }
    }
  }

  /**
   With the columns and the prices in order, the durable store grants a transition if and only if the
   in-memory store does, on every edge of the lifecycle, and returns its record.
   */
  lemma TransitionGrantedIff(s: State, id: int, from: Lifecycle, to: Lifecycle, held: int, u: Update, token: int)
    requires TablesInv(s.tables) && RowsAllowed(s.tables) && CoreUpdate(from, u) && s.held == Some(token)
    requires id in Records(s.tables) ==>
               ColumnsAccept(Records(s.tables), id, from, token, u) && PricesAccepted(Records(s.tables)[id], from)
    ensures var (after, result) := FencedTransition(s, id, from, to, held, u, Healthy());
            && TablesInv(after.tables)
            && (result.Ok? <==> ShadowExecution.Transition(AsMemory(s.tables, token), id, from, to, held, u).Ok?)
            && (result.Ok? ==>
                  && after.held == s.held
                  && ShadowExecution.Transition(AsMemory(s.tables, token), id, from, to, held, ColumnUpdate(u))
                     == Ok((AsMemory(after.tables, token), result.value)))
  {
    TransitionAnswers(s, id, from, to, held, u, token);
    TransitionRefines(s, id, from, to, held, u, Healthy(), token);
  }

  // ---------------------------------------------------------------- puts

  ghost predicate OthersUnresolved(records: map<int, Record>, id: int) {
    exists other :: other in ActiveIds(records) && other != id
  }

  lemma BlockedIff(t: Tables, id: int)
    requires TablesInv(t)
    ensures BlockingIds(t) == ActiveIds(Records(t))
    ensures BlockingIds(t) == {} || BlockingIds(t) == {id} <==> !OthersUnresolved(Records(t), id)
  {
    assert forall x :: BlocksNewIntent(t, x) <==> x in BlockingIds(t);
    assert forall x :: HasIntent(t, x) ==> Readable(t.intents[x], PositionOf(t, x));
    assert forall x :: x in BlockingIds(t) <==> x in ActiveIds(Records(t));
    if !OthersUnresolved(Records(t), id) && BlockingIds(t) != {} {
      var a :| a in BlockingIds(t);
      assert forall x :: x in BlockingIds(t) ==> x == id;
      assert BlockingIds(t) == {id};
    }
  }

  lemma StoredIdentity(t: Tables, r: Record)
    requires TablesInv(t) && r.intentId in Records(t)
    ensures Read(t, r.intentId) == Ok(Some(Records(t)[r.intentId]))
  {
    assert HasIntent(t, r.intentId);
  }

  /** The constraints of the intent table on a new row. */
  ghost predicate IntentAccepted(r: Record) {
    NonBlank(r.strategy) && NonBlank(r.instrument) && r.updatedAt >= r.createdAt
  }

  /** The answer of a put, a repeated one included, under a held fence and a database that commits. */
  lemma PutAnswers(s: State, r: Record, token: int)
    requires TablesInv(s.tables) && NewRecord(r) && s.held == Some(token)
    requires r.intentId in s.tables.intents ==> HasIntent(s.tables, r.intentId)
    ensures var (after, result) := FencedPut(s, r, Healthy());
            var records := Records(s.tables);
            var known := r.intentId in records;
            && (result == Err(StaleFence) <==> r.token != token)
            && (r.token == token ==>
                  && (result == Err(Blocked) <==> OthersUnresolved(records, r.intentId))
                  && (result == Err(Conflict) <==>
                        !OthersUnresolved(records, r.intentId) && known && !SameIdentity(records[r.intentId], r))
                  && (result == Err(FailedClosed) <==>
                        !OthersUnresolved(records, r.intentId) && !known && !IntentAccepted(r))
                  && (result.Ok? <==>
                        && !OthersUnresolved(records, r.intentId)
                        && if known then SameIdentity(records[r.intentId], r) else IntentAccepted(r))
                  && (result.Ok? && known ==> after == s && result.value == records[r.intentId]))
  {
    var t := s.tables;
    BlockedIff(t, r.intentId);
    if r.intentId in Records(t) {
      StoredIdentity(t, r);
    } else {
      assert r.intentId !in t.intents;
      assert r.intentId !in BlockingIds(t) && r.intentId !in t.positions;
    }
  }

  /**
   The durable put is granted if and only if the in-memory put is, no other position is unresolved,
   and the position identifier of a known intent is the same; and it returns the in-memory record.
   */
  lemma PutGrantedIff(s: State, r: Record, token: int)
    requires TablesInv(s.tables) && NewRecord(r) && s.held == Some(token) && IntentAccepted(r)
    requires r.intentId in s.tables.intents ==> HasIntent(s.tables, r.intentId)
    ensures var (after, result) := FencedPut(s, r, Healthy());
            var records := Records(s.tables);
            && TablesInv(after.tables)
            && (result.Ok? <==>
                  && ShadowExecution.Put(AsMemory(s.tables, token), r).Ok?
                  && !OthersUnresolved(records, r.intentId)
                  && (r.intentId in records ==> records[r.intentId].positionId == r.positionId))
            && (result.Ok? ==>
                  && after.held == s.held
                  && ShadowExecution.Put(AsMemory(s.tables, token), r) == Ok((AsMemory(after.tables, token), result.value)))
  {
    PutAnswers(s, r, token);
    PutRefines(s, r, Healthy(), token);
  }

  // ---------------------------------------------------------------- the database's part

  /**
   How an answer depends on the database, given the answer under a held fence and a commit: nothing
   changes what is refused before the database is asked; a domain refusal keeps the lease, and every
   other failure ends it; only an unacknowledged commit writes without answering.
   */
  ghost predicate DatabaseDecides(s: State, healthy: (State, Result<Record, StoreError>),
                                  actual: (State, Result<Record, StoreError>), asked: bool, env: Environment)
  {
    if !asked || env == Healthy() then actual == healthy
    else if !env.fenceHolds || healthy.1 == Err(FailedClosed) then actual == (State(None, s.tables), Err(FailedClosed))
    else if healthy.1.Err? then actual == (s, healthy.1)
    else match env.fate
      case Committed => actual == healthy
      case RolledBack => actual == (State(None, s.tables), Err(FailedClosed))
      case AcknowledgementLost => actual == (State(None, healthy.0.tables), Err(FailedClosed))
  }

  lemma FailuresDemote(s: State, r: Record, id: int, from: Lifecycle, to: Lifecycle, held: int, u: Update, env: Environment)
    ensures DatabaseDecides(s, FencedPut(s, r, Healthy()), FencedPut(s, r, env),
                            r.lifecycle == IntentCreated && s.held == Some(r.token), env)
    ensures DatabaseDecides(s, FencedTransition(s, id, from, to, held, u, Healthy()), FencedTransition(s, id, from, to, held, u, env),
                            AllowedTransition(from, to) && s.held == Some(held), env)
    ensures r.lifecycle != IntentCreated ==> FencedPut(s, r, env) == (s, Err(NotNewIntent))
    ensures s.held.None? && r.lifecycle == IntentCreated ==> FencedPut(s, r, env) == (s, Err(LeaseUnavailable))
    ensures s.held.None? && AllowedTransition(from, to) ==>
              FencedTransition(s, id, from, to, held, u, env) == (s, Err(LeaseUnavailable))
  {
  }
}
