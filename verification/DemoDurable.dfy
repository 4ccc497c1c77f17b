/**
 The dealing core over the stored form of its records: each operation works on what reading back
 gives, or raises. Whole runs do what the core does over records kept in memory.
 */
module DemoDurable {
  import opened Outcomes
  import opened DemoExecution
  import opened DemoSafety
  import opened DemoCodec
  import opened DemoStore
  import opened DemoRestart
  import HttpClient

  // ---------------------------------------------------------------- one operation

  /** The operation reads its record back first; request_close makes its call before it writes. */
  function StoredTrace(w: World, step: Step, maxRetries: int, t: Texts): seq<World>
    requires Runnable(step, maxRetries)
  {
    if Target(step) !in w.records then TraceOf(w, step, maxRetries)
    else match Reload(w.records[Target(step)], t)
      case Err(_) => []
      case Ok(x) =>
        var trace := TraceOf(w.(records := w.records[Target(step) := x]), step, maxRetries);
        if step.CloseStep? && trace != [] then [trace[0].(records := w.records)] + trace[1..] else trace
  }

  function StoredAfter(w: World, step: Step, maxRetries: int, t: Texts): World
    requires Runnable(step, maxRetries)
  {
    Stopped(w, StoredTrace(w, step, maxRetries, t), step.effects)
  }

  ghost predicate StoredLeads(w: World, step: Step, n: World, maxRetries: int, t: Texts) {
    Runnable(step, maxRetries) && n == StoredAfter(w, step, maxRetries, t)
  }

  ghost predicate IsStoredRun(run: seq<World>, steps: seq<Step>, maxRetries: int, t: Texts) {
    && |run| == |steps| + 1 && run[0] == EMPTY
    && forall i {:trigger steps[i]} :: 0 <= i < |steps| ==> StoredLeads(run[i], steps[i], run[i + 1], maxRetries, t)
  }

  // ---------------------------------------------------------------- alike up to blank optional texts

  predicate AlikeRecords(a: map<int, ExecutionRecord>, b: map<int, ExecutionRecord>) {
    a.Keys == b.Keys && forall id :: id in a ==> Clean(a[id]) == Clean(b[id])
  }

  /** The same calls, and records that read back the same. */
  predicate Alike(a: World, b: World) {
    && AlikeRecords(a.records, b.records)
    && a.creates == b.creates && a.posts == b.posts
    && a.closes == b.closes && a.openings == b.openings && a.unwritten == b.unwritten
  }

  predicate AlikeAll(s: seq<World>, t: seq<World>) {
    |s| == |t| && forall k :: 0 <= k < |s| ==> Alike(s[k], t[k])
  }

  lemma WriteAlike(a: map<int, ExecutionRecord>, b: map<int, ExecutionRecord>, id: int, x: ExecutionRecord, y: ExecutionRecord)
    requires AlikeRecords(a, b) && Clean(x) == Clean(y)
    ensures AlikeRecords(a[id := x], b[id := y])
  {
  }

  /** Everything an operation looks at is the same in alike records. */
  lemma AlikeMeans(x: ExecutionRecord, y: ExecutionRecord)
    requires Clean(x) == Clean(y)
    ensures x.request == y.request && x.lifecycle == y.lifecycle && x.position == y.position
    ensures x.closeSubmission.Some? == y.closeSubmission.Some?
    ensures x.closeSubmission.Some? ==> x.closeSubmission.value.dealReference == y.closeSubmission.value.dealReference
    ensures Readable(x) == Readable(y)
  {
  }

  lemma MovedAlike(a: World, b: World, id: int, to: Lifecycle)
    requires Alike(a, b) && id in a.records
    ensures id in b.records && Alike(Moved(a, id, to), Moved(b, id, to))
  {
    var x, y := a.records[id], b.records[id];
    assert Clean(x.(lifecycle := to)) == Clean(x).(lifecycle := to);
    assert Clean(y.(lifecycle := to)) == Clean(y).(lifecycle := to);
    WriteAlike(a.records, b.records, id, x.(lifecycle := to), y.(lifecycle := to));
  }

  // ---------------------------------------------------------------- submit

  lemma TakenAlike(a: map<int, ExecutionRecord>, b: map<int, ExecutionRecord>, r: Request)
    requires AlikeRecords(a, b)
    ensures CycleTakenByOther(a, r) ==> CycleTakenByOther(b, r)
    ensures ReferenceTaken(a, r) ==> ReferenceTaken(b, r)
  {
    if id :| id in a && a[id].request.cycleId == r.cycleId && a[id].request.intentId != r.intentId {
      AlikeMeans(a[id], b[id]);
      assert id in b && b[id].request.cycleId == r.cycleId && b[id].request.intentId != r.intentId;
    }
    if id :| id in a && a[id].request.dealReference == r.dealReference {
      AlikeMeans(a[id], b[id]);
      assert id in b && b[id].request.dealReference == r.dealReference;
    }
  }

  lemma PrepareAlike(a: World, b: World, r: Request, m: Option<Metadata>, g: Gate, now: int)
    requires Alike(a, b)
    ensures var x, y := Prepare(a.records, r, m, g, now), Prepare(b.records, r, m, g, now);
            if x.Refused? then y == x else y.Stored? && Clean(x.record) == Clean(y.record)
  {
    TakenAlike(a.records, b.records, r);
    TakenAlike(b.records, a.records, r);
    if r.intentId in a.records {
      AlikeMeans(a.records[r.intentId], b.records[r.intentId]);
    }
  }

  lemma OutcomeAlike(a: World, b: World, r: Request, answer: Option<Option<Submission>>)
    requires Alike(a, b) && r.intentId in a.records
    ensures r.intentId in b.records && Alike(SubmitOutcome(a, r, answer), SubmitOutcome(b, r, answer))
  {
    var x, y := a.records[r.intentId], b.records[r.intentId];
    MovedAlike(a, b, r.intentId, Ambiguous);
    MovedAlike(a, b, r.intentId, FailedSafe);
    if answer.Some? && answer.value.Some? {
      var x', y' := x.(lifecycle := Submitted, submission := answer.value), y.(lifecycle := Submitted, submission := answer.value);
      assert Clean(x') == Clean(x).(lifecycle := Submitted, submission := CleanSubmission(answer.value));
      assert Clean(y') == Clean(y).(lifecycle := Submitted, submission := CleanSubmission(answer.value));
      WriteAlike(a.records, b.records, r.intentId, x', y');
    }
  }

  lemma DispatchAlike(a: World, b: World, r: Request, maxRetries: int, script: Script)
    requires Alike(a, b) && r.intentId in a.records && maxRetries <= |script|
    ensures r.intentId in b.records
    ensures AlikeAll(DispatchTrace(a, r, maxRetries, script), DispatchTrace(b, r, maxRetries, script))
  {
    MovedAlike(a, b, r.intentId, Submitting);
    var a1, b1 := Moved(a, r.intentId, Submitting), Moved(b, r.intentId, Submitting);
    var call := HttpClient.From(maxRetries, script, 1);
    var aSent := a1.(creates := a1.creates + [CallOf(r)], posts := a1.posts + Copies(CallOf(r), call.dispatched));
    var bSent := b1.(creates := b1.creates + [CallOf(r)], posts := b1.posts + Copies(CallOf(r), call.dispatched));
    OutcomeAlike(aSent, bSent, r, call.outcome);
    var x, y := DispatchTrace(a, r, maxRetries, script), DispatchTrace(b, r, maxRetries, script);
    forall k | 0 <= k < |x|
      ensures Alike(x[k], y[k])
    {
      if k < 2 + call.dispatched {
        assert x[k].records == a1.records && y[k].records == b1.records;
      }
    }
  }

  lemma SubmitFromAlike(a: World, b: World, x: Outcome, y: Outcome, r: Request, maxRetries: int, script: Script)
    requires Alike(a, b) && maxRetries <= |script| && Continues(a.records, r, x) && Continues(b.records, r, y)
    requires if x.Refused? then y.Refused? else y.Stored? && Clean(x.record) == Clean(y.record)
    ensures AlikeAll(SubmitFrom(a, x, r, maxRetries, script), SubmitFrom(b, y, r, maxRetries, script))
  {
    if x.Stored? {
      AlikeMeans(x.record, y.record);
      if x.record.lifecycle == Prepared {
        if r.intentId in a.records {
          DispatchAlike(a, b, r, maxRetries, script);
        } else {
          WriteAlike(a.records, b.records, r.intentId, x.record, y.record);
          DispatchAlike(With(a, x.record), With(b, y.record), r, maxRetries, script);
        }
      }
    }
  }

  lemma SubmitAlike(a: World, b: World, step: Step, maxRetries: int)
    requires Alike(a, b) && step.SubmitStep? && Runnable(step, maxRetries)
    ensures AlikeAll(TraceOf(a, step, maxRetries), TraceOf(b, step, maxRetries))
  {
    PrepareAlike(a, b, step.r, step.m, step.g, step.now);
    SubmitFromAlike(a, b, Prepare(a.records, step.r, step.m, step.g, step.now),
                    Prepare(b.records, step.r, step.m, step.g, step.now), step.r, maxRetries, step.script);
  }

  // ---------------------------------------------------------------- reconciliation and close

  lemma ConfirmedAlike(a: World, b: World, id: int, to: Lifecycle, c: Confirmation)
    requires Alike(a, b) && id in a.records && id in b.records
    ensures Alike(a.(records := a.records[id := a.records[id].(lifecycle := to, confirmation := Some(c))]),
                  b.(records := b.records[id := b.records[id].(lifecycle := to, confirmation := Some(c))]))
  {
    var x, y := a.records[id], b.records[id];
    var x', y' := x.(lifecycle := to, confirmation := Some(c)), y.(lifecycle := to, confirmation := Some(c));
    assert Clean(x') == Clean(x).(lifecycle := to, confirmation := CleanConfirmation(Some(c)));
    assert Clean(y') == Clean(y).(lifecycle := to, confirmation := CleanConfirmation(Some(c)));
    WriteAlike(a.records, b.records, id, x', y');
  }

  lemma PositionsAlike(a: World, b: World, id: int, c: Confirmation, positions: Reply<seq<Position>>)
    requires Alike(a, b) && id in a.records && id in b.records
    ensures Alike(AfterPositions(a, id, c, positions), AfterPositions(b, id, c, positions))
  {
    var x, y := a.records[id], b.records[id];
    AlikeMeans(x, y);
    MovedAlike(a, b, id, Ambiguous);
    MovedAlike(a, b, id, FailedSafe);
    if positions.Returns? && |MatchingPositions(positions.value, c, x.request)| == 1 {
      var p := Some(MatchingPositions(positions.value, c, x.request)[0]);
      assert Clean(x.(lifecycle := OpenReconciled, position := p)) == Clean(x).(lifecycle := OpenReconciled, position := p);
      assert Clean(y.(lifecycle := OpenReconciled, position := p)) == Clean(y).(lifecycle := OpenReconciled, position := p);
      WriteAlike(a.records, b.records, id, x.(lifecycle := OpenReconciled, position := p),
                 y.(lifecycle := OpenReconciled, position := p));
    }
  }

  lemma OpenAlike(a: World, b: World, step: Step, maxRetries: int)
    requires Alike(a, b) && step.OpenStep?
    ensures AlikeAll(TraceOf(a, step, maxRetries), TraceOf(b, step, maxRetries))
  {
    var id := step.id;
    if id in a.records {
      AlikeMeans(a.records[id], b.records[id]);
      MovedAlike(a, b, id, Ambiguous);
      MovedAlike(a, b, id, FailedSafe);
      if step.confirmation.Returns? && step.confirmation.value.Some? {
        var c := step.confirmation.value.value;
        ConfirmedAlike(a, b, id, ConfirmedRejected, c);
        ConfirmedAlike(a, b, id, ConfirmedAccepted, c);
        PositionsAlike(a.(records := a.records[id := a.records[id].(lifecycle := ConfirmedAccepted, confirmation := Some(c))]),
                       b.(records := b.records[id := b.records[id].(lifecycle := ConfirmedAccepted, confirmation := Some(c))]),
                       id, c, step.positions);
      }
    }
  }

  lemma CloseOutcomeAlike(a: World, b: World, id: int, reply: Reply<Submission>)
    requires Alike(a, b) && id in a.records && id in b.records
    requires a.records[id].position.Some? && b.records[id].position.Some?
    ensures Alike(CloseOutcome(a, id, reply), CloseOutcome(b, id, reply))
  {
    var x, y := a.records[id], b.records[id];
    AlikeMeans(x, y);
    MovedAlike(a, b, id, Ambiguous);
    MovedAlike(a, b, id, FailedSafe);
    if reply.Returns? {
      var s := Some(reply.value);
      assert Clean(x.(lifecycle := CloseRequested, closeSubmission := s))
          == Clean(x).(lifecycle := CloseRequested, closeSubmission := CleanSubmission(s));
      assert Clean(y.(lifecycle := CloseRequested, closeSubmission := s))
          == Clean(y).(lifecycle := CloseRequested, closeSubmission := CleanSubmission(s));
      WriteAlike(a.records, b.records, id, x.(lifecycle := CloseRequested, closeSubmission := s),
                 y.(lifecycle := CloseRequested, closeSubmission := s));
    }
  }

  lemma CloseAlike(a: World, b: World, step: Step, maxRetries: int)
    requires Alike(a, b) && step.CloseStep?
    ensures AlikeAll(TraceOf(a, step, maxRetries), TraceOf(b, step, maxRetries))
  {
    var id := step.id;
    if id in a.records {
      AlikeMeans(a.records[id], b.records[id]);
      if CloseGuard(a.records, id, step.g).None? {
        var a1 := a.(closes := a.closes + multiset{id}, unwritten := a.unwritten + multiset{id});
        var b1 := b.(closes := b.closes + multiset{id}, unwritten := b.unwritten + multiset{id});
        CloseOutcomeAlike(a1, b1, id, step.reply);
      }
    }
  }

  lemma CloseReconcileAlike(a: World, b: World, step: Step, maxRetries: int)
    requires Alike(a, b) && step.CloseReconcileStep?
    ensures AlikeAll(TraceOf(a, step, maxRetries), TraceOf(b, step, maxRetries))
  {
    var id := step.id;
    if id in a.records {
      AlikeMeans(a.records[id], b.records[id]);
      MovedAlike(a, b, id, Ambiguous);
      MovedAlike(a, b, id, FailedSafe);
      if step.confirmation.Returns? && step.confirmation.value.Some? {
        ConfirmedAlike(a, b, id, ClosedReconciled, step.confirmation.value.value);
      }
    }
  }

  lemma TraceAlike(a: World, b: World, step: Step, maxRetries: int)
    requires Alike(a, b) && Runnable(step, maxRetries)
    ensures AlikeAll(TraceOf(a, step, maxRetries), TraceOf(b, step, maxRetries))
  {
    match step
    case SubmitStep(_, _, _, _, _, _) => SubmitAlike(a, b, step, maxRetries);
    case OpenStep(_, _, _, _) => OpenAlike(a, b, step, maxRetries);
    case CloseStep(_, _, _, _) => CloseAlike(a, b, step, maxRetries);
    case CloseReconcileStep(_, _, _, _) => CloseReconcileAlike(a, b, step, maxRetries);
  }

  // ---------------------------------------------------------------- one step over the stored form

  lemma RejectedIsIdle(w: World, step: Step, maxRetries: int)
    requires Runnable(step, maxRetries)
    requires Target(step) in w.records && w.records[Target(step)].lifecycle == ConfirmedRejected
    ensures TraceOf(w, step, maxRetries) == []
  {
  }

  lemma LoadedAlike(s: World, id: int, t: Texts)
    requires Faithful(t) && id in s.records && Reload(s.records[id], t).Ok?
    ensures Alike(s.(records := s.records[id := Reload(s.records[id], t).value]), s)
  {
    ReloadKeepsRequest(s.records[id], t);
    assert Clean(Clean(s.records[id])) == Clean(s.records[id]);
  }

  lemma AlikeAgain(a: World, b: World, c: World)
    requires Alike(a, b) && Alike(b, c)
    ensures Alike(a, c)
  {
  }

  /** Stored and in memory, a step passes through alike durable states; an unreadable record is one it would not touch. */
  lemma StoredTraceAlike(s: World, m: World, step: Step, maxRetries: int, t: Texts)
    requires Faithful(t) && Alike(s, m) && AllRecoverable(m.records) && Runnable(step, maxRetries)
    ensures AlikeAll(StoredTrace(s, step, maxRetries, t), TraceOf(m, step, maxRetries))
  {
    var id := Target(step);
    if id !in s.records {
      TraceAlike(s, m, step, maxRetries);
    } else {
      AlikeMeans(s.records[id], m.records[id]);
      ReloadKeepsRequest(s.records[id], t);
      if Reload(s.records[id], t).Err? {
        assert Recoverable(m.records[id]);
        RejectedIsIdle(m, step, maxRetries);
      } else {
        var loaded := s.(records := s.records[id := Reload(s.records[id], t).value]);
        LoadedAlike(s, id, t);
        AlikeAgain(loaded, s, m);
        TraceAlike(loaded, m, step, maxRetries);
        CallBeforeWrite(s, loaded, m, step, maxRetries);
      }
    }
  }

  lemma CallBeforeWrite(s: World, loaded: World, m: World, step: Step, maxRetries: int)
    requires Runnable(step, maxRetries) && Alike(s, m) && AlikeAll(TraceOf(loaded, step, maxRetries), TraceOf(m, step, maxRetries))
    ensures step.CloseStep? && TraceOf(loaded, step, maxRetries) != [] ==>
              AlikeAll([TraceOf(loaded, step, maxRetries)[0].(records := s.records)] + TraceOf(loaded, step, maxRetries)[1..],
                       TraceOf(m, step, maxRetries))
  {
    var x, y := TraceOf(loaded, step, maxRetries), TraceOf(m, step, maxRetries);
    if step.CloseStep? && x != [] {
      var z := [x[0].(records := s.records)] + x[1..];
      assert y[0].records == m.records;
      assert Alike(x[0], y[0]);
      forall k | 0 <= k < |z|
        ensures Alike(z[k], y[k])
      {
        assert Alike(x[k], y[k]);
      }
    }
  }

  lemma StoppedAlike(s: World, m: World, x: seq<World>, y: seq<World>, effects: nat)
    requires Alike(s, m) && AlikeAll(x, y)
    ensures Alike(Stopped(s, x, effects), Stopped(m, y, effects))
  {
  }

  // ---------------------------------------------------------------- every write is one the store accepts

  /** The stored record is readable and has the request of the one that replaces it. */
  ghost predicate Accepts(before: World, n: World, id: int) {
    id in before.records ==>
      id in n.records && Readable(before.records[id]) && before.records[id].request == n.records[id].request
  }

  /** That is the case in which the store's replace writes. */
  lemma AcceptedIsReplaced(before: World, n: World, id: int, t: Texts)
    requires Faithful(t) && Accepts(before, n, id) && id in before.records
    ensures Reload(before.records[id], t).Ok? && Reload(before.records[id], t).value.request == n.records[id].request
  {
    ReloadKeepsRequest(before.records[id], t);
  }

  lemma MidwayRecoverable(w: World, step: Step, maxRetries: int, k: nat, before: World)
    requires AllRecoverable(w.records) && Runnable(step, maxRetries) && StepShaped(step)
    requires k + 1 < |TraceOf(w, step, maxRetries)| && before == TraceOf(w, step, maxRetries)[k]
    ensures Target(step) in before.records && Recoverable(before.records[Target(step)])
    ensures before.records[Target(step)].lifecycle != ConfirmedRejected
    ensures Some(before.records[Target(step)].request) == RequestOf(w, step)
  {
    TraceRecoverable(w, step, maxRetries);
    MidwayBeforeLast(w, step, maxRetries, k);
    TraceKeepsRequest(w, step, maxRetries, k);
  }

  lemma MidwayAccepts(w: World, step: Step, maxRetries: int, k: nat, before: World, n: World)
    requires AllRecoverable(w.records) && Runnable(step, maxRetries) && StepShaped(step)
    requires 0 < k < |TraceOf(w, step, maxRetries)|
    requires before == TraceOf(w, step, maxRetries)[k - 1] && n == TraceOf(w, step, maxRetries)[k]
    ensures Accepts(before, n, Target(step))
  {
    MidwayRecoverable(w, step, maxRetries, k - 1, before);
    TraceKeepsRequest(w, step, maxRetries, k);
  }

  /** Every write of an operation over the stored form is one that the store accepts, so none of them raises midway. */
  lemma WritesSucceed(s: World, step: Step, maxRetries: int, t: Texts, k: nat)
    requires Faithful(t) && AllRecoverable(s.records) && Runnable(step, maxRetries) && StepShaped(step)
    requires k < |StoredTrace(s, step, maxRetries, t)|
    ensures var trace := StoredTrace(s, step, maxRetries, t);
            Accepts(if k == 0 then s else trace[k - 1], trace[k], Target(step))
  {
    if Target(step) in s.records {
      LoadedWrites(s, step, maxRetries, t, k);
    } else if k > 0 {
      MidwayAccepts(s, step, maxRetries, k, TraceOf(s, step, maxRetries)[k - 1], TraceOf(s, step, maxRetries)[k]);
    }
  }

  lemma LoadedWrites(s: World, step: Step, maxRetries: int, t: Texts, k: nat)
    requires Faithful(t) && AllRecoverable(s.records) && Runnable(step, maxRetries) && StepShaped(step)
    requires k < |StoredTrace(s, step, maxRetries, t)| && Target(step) in s.records
    ensures var trace := StoredTrace(s, step, maxRetries, t);
            Accepts(if k == 0 then s else trace[k - 1], trace[k], Target(step))
  {
    var id := Target(step);
    var loaded := s.(records := s.records[id := Reload(s.records[id], t).value]);
    ReloadKeepsRequest(s.records[id], t);
    LoadedRecoverable(s, id);
    TraceKeepsRequest(loaded, step, maxRetries, k);
    if k > 0 && !step.CloseStep? {
      var trace := TraceOf(loaded, step, maxRetries);
      MidwayAccepts(loaded, step, maxRetries, k, trace[k - 1], trace[k]);
    }
  }

  lemma LoadedRecoverable(s: World, id: int)
    requires AllRecoverable(s.records) && id in s.records && Readable(s.records[id])
    ensures AllRecoverable(s.records[id := Clean(s.records[id])])
  {
  }

  // ---------------------------------------------------------------- whole runs

  /** The core over records kept in memory, doing the same steps. */
  lemma {:induction false} MemoryRun(steps: seq<Step>, maxRetries: int) returns (run: seq<World>)
    requires forall k :: 0 <= k < |steps| ==> Runnable(steps[k], maxRetries)
    ensures IsRun(run, steps, maxRetries)
  {
    if steps == [] {
      run := [EMPTY];
    } else {
      var before, last := steps[..|steps| - 1], steps[|steps| - 1];
      run := MemoryRun(before, maxRetries);
      assert steps == before + [last];
      run := MemoryNext(run, before, last, maxRetries);
    }
  }

  lemma MemoryNext(run: seq<World>, before: seq<Step>, last: Step, maxRetries: int) returns (longer: seq<World>)
    requires IsRun(run, before, maxRetries) && Runnable(last, maxRetries)
    ensures IsRun(longer, before + [last], maxRetries)
  {
    var steps;
    longer, steps := Extended(run, before, maxRetries, last, After(run[|before|], last, maxRetries));
  }

  lemma StoredNext(s: World, m: World, step: Step, n: World, maxRetries: int, t: Texts)
    requires Faithful(t) && Alike(s, m) && AllRecoverable(m.records) && StoredLeads(s, step, n, maxRetries, t)
    ensures Alike(n, After(m, step, maxRetries))
  {
    StoredTraceAlike(s, m, step, maxRetries, t);
    StoppedAlike(s, m, StoredTrace(s, step, maxRetries, t), TraceOf(m, step, maxRetries), step.effects);
  }

  lemma StoredLeadsAt(stored: seq<World>, steps: seq<Step>, maxRetries: int, t: Texts, i: nat)
    requires IsStoredRun(stored, steps, maxRetries, t) && i < |steps|
    ensures StoredLeads(stored[i], steps[i], stored[i + 1], maxRetries, t)
  {
  }

  lemma StoredRunNext(stored: seq<World>, run: seq<World>, steps: seq<Step>, maxRetries: int, t: Texts, i: nat)
    requires Faithful(t) && IsStoredRun(stored, steps, maxRetries, t) && ShapesValid(steps)
    requires IsRun(run, steps, maxRetries) && i < |steps| && Alike(stored[i], run[i])
    ensures Alike(stored[i + 1], run[i + 1])
  {
    RunRecoverable(run, steps, maxRetries, i);
    LeadsAt(run, steps, maxRetries, i);
    StoredLeadsAt(stored, steps, maxRetries, t, i);
    StoredNext(stored[i], run[i], steps[i], stored[i + 1], maxRetries, t);
  }

  lemma {:induction false} StoredRunAlike(stored: seq<World>, run: seq<World>, steps: seq<Step>, maxRetries: int, t: Texts, i: nat)
    requires Faithful(t) && IsStoredRun(stored, steps, maxRetries, t) && ShapesValid(steps)
    requires IsRun(run, steps, maxRetries) && i < |run|
    ensures Alike(stored[i], run[i])
  {
    if i > 0 {
      StoredRunAlike(stored, run, steps, maxRetries, t, i - 1);
      StoredRunNext(stored, run, steps, maxRetries, t, i - 1);
    }
  }

  /** A state the stored form can be found in. */
  ghost predicate StoredAt(stored: seq<World>, steps: seq<Step>, maxRetries: int, t: Texts, i: nat, s: World) {
    && IsStoredRun(stored, steps, maxRetries, t) && i < |stored|
    && (s == stored[i]
        || (i < |steps| && Runnable(steps[i], maxRetries) && s in StoredTrace(stored[i], steps[i], maxRetries, t)))
  }

  lemma StoredIsRunnable(stored: seq<World>, steps: seq<Step>, maxRetries: int, t: Texts)
    requires IsStoredRun(stored, steps, maxRetries, t)
    ensures forall k :: 0 <= k < |steps| ==> Runnable(steps[k], maxRetries)
  {
    forall k | 0 <= k < |steps|
      ensures Runnable(steps[k], maxRetries)
    {
      StoredLeadsAt(stored, steps, maxRetries, t, k);
    }
  }

  /**
   For every run over the stored form, the run of the same steps over records kept in memory passes
   through the same calls and the same records, up to blank optional texts, crash points included.
   */
  lemma StoredRunIsCoreRun(stored: seq<World>, steps: seq<Step>, maxRetries: int, t: Texts, i: nat, s: World)
    returns (run: seq<World>, w: World)
    requires Faithful(t) && StoredAt(stored, steps, maxRetries, t, i, s) && ShapesValid(steps)
    ensures DurableAt(run, steps, maxRetries, i, w) && Alike(s, w)
  {
    StoredIsRunnable(stored, steps, maxRetries, t);
    run := MemoryRun(steps, maxRetries);
    StoredRunAlike(stored, run, steps, maxRetries, t, i);
    w := run[i];
    if s != stored[i] {
      RunRecoverable(run, steps, maxRetries, i);
      StoredTraceAlike(stored[i], run[i], steps[i], maxRetries, t);
      var trace := StoredTrace(stored[i], steps[i], maxRetries, t);
      var k :| 0 <= k < |trace| && trace[k] == s;
      w := TraceOf(run[i], steps[i], maxRetries)[k];
    }
  }

  /** So over the stored form, too, there is at most one create call per intent and per cycle. */
  lemma StoredCreateAtMostOnce(stored: seq<World>, steps: seq<Step>, maxRetries: int, t: Texts, i: nat, s: World, id: int)
    requires Faithful(t) && StoredAt(stored, steps, maxRetries, t, i, s) && ShapesValid(steps)
    ensures forall k, l :: 0 <= k < l < |s.creates| ==>
              s.creates[k].intentId != s.creates[l].intentId && s.creates[k].cycleId != s.creates[l].cycleId
    ensures forall k :: 0 <= k < |s.posts| ==> s.posts[k] in s.creates
    ensures CountFor(s.posts, id) <= if maxRetries > 0 then maxRetries else 0
  {
    var run, w := StoredRunIsCoreRun(stored, steps, maxRetries, t, i, s);
    CreateAtMostOnce(run, steps, maxRetries, i, w, id, 0);
  }

  /** And what reads back as open or closed has the evidence of it. */
  lemma StoredEvidence(stored: seq<World>, steps: seq<Step>, maxRetries: int, t: Texts, i: nat, s: World, id: int)
    requires Faithful(t) && StoredAt(stored, steps, maxRetries, t, i, s) && ShapesValid(steps)
    requires id in s.records && Reload(s.records[id], t).Ok?
    ensures var e := Reload(s.records[id], t).value;
            && (e.lifecycle == OpenReconciled ==> OpenProven(e))
            && (e.lifecycle == ClosedReconciled ==> ClosedFlat(e))
  {
    var run, w := StoredRunIsCoreRun(stored, steps, maxRetries, t, i, s);
    AlikeMeans(s.records[id], w.records[id]);
    ReloadKeepsRequest(s.records[id], t);
    ReloadKeepsRequest(w.records[id], t);
    RestartKeepsEvidence(run, steps, maxRetries, i, w, id, t);
  }
}
