/**
 Whole runs of the dealing core by one writer, with a crash allowed after any store write, broker
 call or physical request, and a broker that answers anything or nothing.
 */
module DemoSafety {
  import opened Outcomes
  import opened DemoExecution
  import opened Runs
  import HttpClient

  type Script = seq<HttpClient.Pass<Option<Submission>>>

  /** effects is how many durable effects happen before a crash; a large number means no crash. */
  datatype Step =
    | SubmitStep(r: Request, m: Option<Metadata>, g: Gate, now: int, script: Script, effects: nat)
    | OpenStep(id: int, confirmation: Reply<Option<Confirmation>>, positions: Reply<seq<Position>>, effects: nat)
    | CloseStep(id: int, g: Gate, reply: Reply<Submission>, effects: nat)
    | CloseReconcileStep(id: int, confirmation: Reply<Option<Confirmation>>, positions: Reply<seq<Position>>, effects: nat)

  predicate Runnable(step: Step, maxRetries: int) {
    step.SubmitStep? ==> maxRetries <= |step.script|
  }

  /** The record the operation is about. */
  function Target(step: Step): int {
    if step.SubmitStep? then step.r.intentId else step.id
  }

  function TraceOf(w: World, step: Step, maxRetries: int): seq<World>
    requires Runnable(step, maxRetries)
  {
    match step
    case SubmitStep(r, m, g, now, script, _) => SubmitTrace(w, r, m, g, now, maxRetries, script)
    case OpenStep(id, confirmation, positions, _) => OpenTrace(w, id, confirmation, positions)
    case CloseStep(id, g, reply, _) => CloseTrace(w, id, g, reply)
    case CloseReconcileStep(id, confirmation, positions, _) => CloseReconcileTrace(w, id, confirmation, positions)
  }

  /** The state found after a crash that lets only so many durable effects happen. */
  function Stopped(w: World, trace: seq<World>, effects: nat): World {
    if effects < |trace| then Final(w, trace[..effects]) else Final(w, trace)
  }

  function After(w: World, step: Step, maxRetries: int): World
    requires Runnable(step, maxRetries)
  {
    Stopped(w, TraceOf(w, step, maxRetries), step.effects)
  }

  ghost predicate Leads(w: World, step: Step, n: World, maxRetries: int) {
    Runnable(step, maxRetries) && n == After(w, step, maxRetries)
  }

  ghost function LeadsBy(maxRetries: int): (World, Step, World) -> bool {
    (w, step, n) => Leads(w, step, n, maxRetries)
  }

  ghost predicate IsRun(run: seq<World>, steps: seq<Step>, maxRetries: int) {
    && Chained(run, steps, LeadsBy(maxRetries))
    && run[0] == EMPTY
  }

  lemma LeadsAt(run: seq<World>, steps: seq<Step>, maxRetries: int, i: nat)
    requires IsRun(run, steps, maxRetries) && i < |steps|
    ensures Leads(run[i], steps[i], run[i + 1], maxRetries)
  {
    assert LeadsBy(maxRetries)(run[i], steps[i], run[i + 1]);
  }

  /** One more step. */
  lemma Extended(run: seq<World>, steps: seq<Step>, maxRetries: int, step: Step, n: World)
    returns (run': seq<World>, steps': seq<Step>)
    requires IsRun(run, steps, maxRetries) && Leads(run[|run| - 1], step, n, maxRetries)
    ensures run' == run + [n] && steps' == steps + [step] && IsRun(run', steps', maxRetries)
  {
    run', steps' := run + [n], steps + [step];
    Longer(run, steps, LeadsBy(maxRetries), step, n);
  }

  // ---------------------------------------------------------------- what every durable state satisfies

  function CountFor(calls: seq<CreateCall>, id: int): nat {
    if calls == [] then 0
    else CountFor(calls[..|calls| - 1], id) + if calls[|calls| - 1].intentId == id then 1 else 0
  }

  function CountInCycle(calls: seq<CreateCall>, cycle: int): nat {
    if calls == [] then 0
    else CountInCycle(calls[..|calls| - 1], cycle) + if calls[|calls| - 1].cycleId == cycle then 1 else 0
  }

  ghost predicate HasOpening(e: ExecutionRecord) {
    && e.confirmation.Some? && AcceptedMatches(e.request, e.confirmation.value)
    && e.position.Some? && PositionMatches(e.position.value, e.confirmation.value, e.request)
  }

  /** Evidence behind each lifecycle. */
  ghost predicate Evidenced(e: ExecutionRecord) {
    && (e.lifecycle == ConfirmedAccepted ==> e.confirmation.Some? && AcceptedMatches(e.request, e.confirmation.value))
    && (e.lifecycle == ConfirmedRejected ==> e.confirmation.Some? && e.confirmation.value.dealStatus == Rejected)
    && (e.lifecycle == OpenReconciled ==> HasOpening(e))
    && (e.lifecycle == CloseRequested ==>
          && HasOpening(e) && e.closeSubmission.Some?
          && e.closeSubmission.value.dealReference == CloseReference(e.request, e.position.value.dealId))
    && (e.lifecycle == ClosedReconciled ==>
          && e.position.Some? && e.confirmation.Some? && CloseMatches(e, e.confirmation.value)
          && e.position.value.epic == e.request.epic && e.position.value.direction == e.request.direction
          && e.position.value.size == e.request.size)
  }

  ghost predicate RecordsInv(records: map<int, ExecutionRecord>) {
    && (forall id :: id in records ==> records[id].request.intentId == id && Evidenced(records[id]))
    && (forall a, b :: a in records && b in records && records[a].request.cycleId == records[b].request.cycleId ==> a == b)
  }

  ghost predicate CallsInv(w: World, maxRetries: int) {
    && (forall k :: 0 <= k < |w.creates| ==>
          && w.creates[k].intentId in w.records
          && w.creates[k] == CallOf(w.records[w.creates[k].intentId].request)
          && w.records[w.creates[k].intentId].lifecycle != Prepared)
    && (forall k, l :: 0 <= k < l < |w.creates| ==> w.creates[k].intentId != w.creates[l].intentId)
    && (forall k :: 0 <= k < |w.posts| ==> w.posts[k] in w.creates)
    && (forall id :: CountFor(w.posts, id) <= if maxRetries > 0 then maxRetries else 0)
  }

  function IsOpen(w: World, id: int): nat {
    if id in w.records && w.records[id].lifecycle == OpenReconciled then 1 else 0
  }

  /** Every close call is paid for by an opening, or by an earlier close call whose outcome was never written. */
  ghost predicate ClosesInv(w: World) {
    forall id :: w.closes[id] + IsOpen(w, id) == w.openings[id] + w.unwritten[id]
  }

  ghost predicate WorldInv(w: World, maxRetries: int) {
    RecordsInv(w.records) && CallsInv(w, maxRetries) && ClosesInv(w)
  }

  ghost predicate AllInv(trace: seq<World>, maxRetries: int) {
    forall i :: 0 <= i < |trace| ==> WorldInv(trace[i], maxRetries)
  }

  // ---------------------------------------------------------------- one rewrite of a stored record

  lemma RewriteRecords(records: map<int, ExecutionRecord>, id: int, e: ExecutionRecord)
    requires RecordsInv(records) && id in records && e.request == records[id].request && Evidenced(e)
    ensures RecordsInv(records[id := e])
  {
  }

  lemma RewriteCalls(w: World, n: World, id: int, maxRetries: int)
    requires CallsInv(w, maxRetries) && id in w.records && id in n.records
    requires n.records == w.records[id := n.records[id]] && n.records[id].request == w.records[id].request
    requires n.creates == w.creates && n.posts == w.posts
    requires n.records[id].lifecycle == Prepared ==> w.records[id].lifecycle == Prepared
    ensures CallsInv(n, maxRetries)
  {
  }

  /** A write to one record that keeps its request, counts and evidence. */
  lemma RewriteInv(w: World, n: World, id: int, maxRetries: int)
    requires WorldInv(w, maxRetries) && id in w.records && id in n.records
    requires n.records == w.records[id := n.records[id]] && n.records[id].request == w.records[id].request
    requires Evidenced(n.records[id])
    requires n.creates == w.creates && n.posts == w.posts
    requires n.records[id].lifecycle == Prepared ==> w.records[id].lifecycle == Prepared
    requires forall other :: other != id ==>
               && n.closes[other] == w.closes[other] && n.openings[other] == w.openings[other]
               && n.unwritten[other] == w.unwritten[other]
    requires n.closes[id] + IsOpen(n, id) == n.openings[id] + n.unwritten[id]
    ensures WorldInv(n, maxRetries)
  {
    RewriteRecords(w.records, id, n.records[id]);
    RewriteCalls(w, n, id, maxRetries);
    forall other
      ensures n.closes[other] + IsOpen(n, other) == n.openings[other] + n.unwritten[other]
    {
      if other != id {
        assert IsOpen(n, other) == IsOpen(w, other);
      }
    }
  }

  /** Moving to a lifecycle that needs no evidence, from one other than OPEN_RECONCILED. */
  lemma MovedInv(w: World, id: int, to: Lifecycle, maxRetries: int)
    requires WorldInv(w, maxRetries) && id in w.records && w.records[id].lifecycle != OpenReconciled
    requires to == Submitting || to == Ambiguous || to == FailedSafe
    ensures WorldInv(Moved(w, id, to), maxRetries)
  {
    RewriteInv(w, Moved(w, id, to), id, maxRetries);
  }

  // ---------------------------------------------------------------- submit

  lemma {:induction false} CountCopies(calls: seq<CreateCall>, c: CreateCall, n: nat, id: int)
    ensures CountFor(calls + Copies(c, n), id) == CountFor(calls, id) + if c.intentId == id then n else 0
  {
    if n == 0 {
      assert calls + Copies(c, 0) == calls;
    } else {
      CountCopies(calls, c, n - 1, id);
      var all := calls + Copies(c, n);
      assert all[..|all| - 1] == calls + Copies(c, n - 1);
    }
  }

  lemma {:induction false} NoneCounted(calls: seq<CreateCall>, id: int)
    requires forall k :: 0 <= k < |calls| ==> calls[k].intentId != id
    ensures CountFor(calls, id) == 0
  {
    if calls != [] {
      NoneCounted(calls[..|calls| - 1], id);
    }
  }

  lemma PutInv(w: World, e: ExecutionRecord, maxRetries: int)
    requires WorldInv(w, maxRetries) && e.request.intentId !in w.records
    requires e == ExecutionRecord(e.request, Prepared, None, None, None, None)
    requires forall id :: id in w.records ==> w.records[id].request.cycleId != e.request.cycleId
    ensures WorldInv(With(w, e), maxRetries)
  {
    var n := With(w, e);
    assert CallsInv(n, maxRetries) by {
      assert forall k :: 0 <= k < |w.creates| ==> w.creates[k].intentId in w.records;
    }
    forall id
      ensures n.closes[id] + IsOpen(n, id) == n.openings[id] + n.unwritten[id]
    {
      assert IsOpen(n, id) == IsOpen(w, id);
    }
  }

  lemma CreateCallInv(w: World, r: Request, maxRetries: int)
    requires WorldInv(w, maxRetries) && r.intentId in w.records && w.records[r.intentId].request == r
    requires w.records[r.intentId].lifecycle == Submitting
    requires forall k :: 0 <= k < |w.creates| ==> w.creates[k].intentId != r.intentId
    ensures WorldInv(w.(creates := w.creates + [CallOf(r)]), maxRetries)
  {
    var n := w.(creates := w.creates + [CallOf(r)]);
    assert forall k :: 0 <= k < |w.creates| ==> n.creates[k] == w.creates[k];
    assert forall id :: IsOpen(n, id) == IsOpen(w, id);
  }

  lemma PostsInv(w: World, r: Request, n: nat, m: World, maxRetries: int)
    requires WorldInv(w, maxRetries) && CallOf(r) in w.creates
    requires CountFor(w.posts, r.intentId) == 0 && (n > 0 ==> n <= maxRetries)
    requires m == w.(posts := w.posts + Copies(CallOf(r), n))
    ensures WorldInv(m, maxRetries)
  {
    forall id
      ensures CountFor(m.posts, id) <= if maxRetries > 0 then maxRetries else 0
    {
      CountCopies(w.posts, CallOf(r), n, id);
    }
    assert forall k :: 0 <= k < |m.posts| ==> m.posts[k] in m.creates;
    assert forall id :: IsOpen(m, id) == IsOpen(w, id);
  }

  lemma OutcomeInv(w: World, r: Request, answer: Option<Option<Submission>>, maxRetries: int)
    requires WorldInv(w, maxRetries) && r.intentId in w.records && w.records[r.intentId].request == r
    requires w.records[r.intentId].lifecycle == Submitting
    ensures WorldInv(SubmitOutcome(w, r, answer), maxRetries)
  {
    RewriteInv(w, SubmitOutcome(w, r, answer), r.intentId, maxRetries);
  }

  /** The SUBMITTING write, then the create call it announces. */
  lemma AnnounceInv(w: World, r: Request, maxRetries: int) returns (w1: World, w2: World)
    requires WorldInv(w, maxRetries)
    requires r.intentId in w.records && w.records[r.intentId].request == r && w.records[r.intentId].lifecycle == Prepared
    ensures w1 == Moved(w, r.intentId, Submitting) && w2 == w1.(creates := w1.creates + [CallOf(r)])
    ensures WorldInv(w1, maxRetries) && WorldInv(w2, maxRetries)
    ensures CallOf(r) in w2.creates && CountFor(w2.posts, r.intentId) == 0
  {
    w1 := Moved(w, r.intentId, Submitting);
    w2 := w1.(creates := w1.creates + [CallOf(r)]);
    MovedInv(w, r.intentId, Submitting, maxRetries);
    assert forall k :: 0 <= k < |w.creates| ==> w.creates[k].intentId != r.intentId;
    CreateCallInv(w1, r, maxRetries);
    assert CallOf(r) == w2.creates[|w1.creates|];
    assert forall k :: 0 <= k < |w.posts| ==> w.posts[k] in w.creates;
    NoneCounted(w2.posts, r.intentId);
  }

  lemma PostedInv(w: World, r: Request, n: nat, maxRetries: int)
    requires WorldInv(w, maxRetries) && CallOf(r) in w.creates
    requires CountFor(w.posts, r.intentId) == 0 && (n > 0 ==> n <= maxRetries)
    ensures AllInv(PostStates(w, CallOf(r), n), maxRetries)
  {
    var trace := PostStates(w, CallOf(r), n);
    forall i | 0 <= i < n
      ensures WorldInv(trace[i], maxRetries)
    {
      PostsInv(w, r, i + 1, trace[i], maxRetries);
    }
  }

  lemma ConcatInv(a: seq<World>, b: seq<World>, maxRetries: int)
    requires AllInv(a, maxRetries) && AllInv(b, maxRetries)
    ensures AllInv(a + b, maxRetries)
  {
  }

  lemma SentInv(w: World, r: Request, call: HttpClient.Call<Option<Submission>>, maxRetries: int)
    requires WorldInv(w, maxRetries) && CallOf(r) in w.creates && CountFor(w.posts, r.intentId) == 0
    requires call.dispatched > 0 ==> call.dispatched <= maxRetries
    requires r.intentId in w.records && w.records[r.intentId].request == r && w.records[r.intentId].lifecycle == Submitting
    ensures var sent := w.(posts := w.posts + Copies(CallOf(r), call.dispatched));
            AllInv(PostStates(w, CallOf(r), call.dispatched) + [SubmitOutcome(sent, r, call.outcome)], maxRetries)
  {
    var sent := w.(posts := w.posts + Copies(CallOf(r), call.dispatched));
    PostedInv(w, r, call.dispatched, maxRetries);
    PostsInv(w, r, call.dispatched, sent, maxRetries);
    OutcomeInv(sent, r, call.outcome, maxRetries);
    ConcatInv(PostStates(w, CallOf(r), call.dispatched), [SubmitOutcome(sent, r, call.outcome)], maxRetries);
  }

  lemma DispatchInv(w: World, r: Request, maxRetries: int, script: Script)
    requires WorldInv(w, maxRetries) && maxRetries <= |script|
    requires r.intentId in w.records && w.records[r.intentId].request == r && w.records[r.intentId].lifecycle == Prepared
    ensures AllInv(DispatchTrace(w, r, maxRetries, script), maxRetries)
  {
    var w1, w2 := AnnounceInv(w, r, maxRetries);
    var call := HttpClient.From(maxRetries, script, 1);
    SentInv(w2, r, call, maxRetries);
    var sent := w2.(posts := w2.posts + Copies(CallOf(r), call.dispatched));
    var rest := PostStates(w2, CallOf(r), call.dispatched) + [SubmitOutcome(sent, r, call.outcome)];
    ConcatInv([w1, w2], rest, maxRetries);
    DispatchParts(w, r, maxRetries, script, [w1, w2], PostStates(w2, CallOf(r), call.dispatched),
                  [SubmitOutcome(sent, r, call.outcome)]);
  }

  lemma DispatchParts(w: World, r: Request, maxRetries: int, script: Script,
                      announced: seq<World>, posted: seq<World>, ended: seq<World>)
    requires r.intentId in w.records && maxRetries <= |script|
    requires DispatchTrace(w, r, maxRetries, script) == announced + posted + ended
    ensures DispatchTrace(w, r, maxRetries, script) == announced + (posted + ended)
  {
    assert announced + posted + ended == announced + (posted + ended);
  }

  lemma SubmitInv(w: World, step: Step, maxRetries: int)
    requires WorldInv(w, maxRetries) && step.SubmitStep? && Runnable(step, maxRetries)
    ensures AllInv(TraceOf(w, step, maxRetries), maxRetries)
  {
    var prepared := Prepare(w.records, step.r, step.m, step.g, step.now);
    if prepared.Stored? && prepared.record.lifecycle == Prepared {
      if step.r.intentId in w.records {
        DispatchInv(w, step.r, maxRetries, step.script);
      } else {
        PutInv(w, prepared.record, maxRetries);
        DispatchInv(With(w, prepared.record), step.r, maxRetries, step.script);
      }
    }
  }

  /** A durable state of submit: the new record alone (j = -1), or state j of the dispatch from the stored one. */
  lemma SubmitPasses(w: World, step: Step, maxRetries: int, k: nat) returns (from: World, j: int)
    requires step.SubmitStep? && Runnable(step, maxRetries) && k < |TraceOf(w, step, maxRetries)|
    ensures from == if step.r.intentId in w.records then w
                    else With(w, ExecutionRecord(step.r, Prepared, None, None, None, None))
    ensures step.r.intentId in from.records && from.records[step.r.intentId].lifecycle == Prepared
    ensures from.records[step.r.intentId].request == step.r
    ensures -1 <= j < |DispatchTrace(from, step.r, maxRetries, step.script)|
    ensures j == -1 ==> step.r.intentId !in w.records
    ensures TraceOf(w, step, maxRetries)[k]
            == if j == -1 then from else DispatchTrace(from, step.r, maxRetries, step.script)[j]
    ensures |TraceOf(w, step, maxRetries)| - k == |DispatchTrace(from, step.r, maxRetries, step.script)| - j
  {
    var prepared := ExecutionRecord(step.r, Prepared, None, None, None, None);
    from := if step.r.intentId in w.records then w else With(w, prepared);
    j := if step.r.intentId in w.records then k else k - 1;
  }

  // ---------------------------------------------------------------- reconciliation and close

  lemma AfterPositionsInv(w: World, id: int, c: Confirmation, positions: Reply<seq<Position>>, maxRetries: int)
    requires WorldInv(w, maxRetries) && id in w.records && w.records[id].lifecycle == ConfirmedAccepted
    requires w.records[id].confirmation == Some(c)
    ensures WorldInv(AfterPositions(w, id, c, positions), maxRetries)
  {
    if positions.Returns? {
      var matches := MatchingPositions(positions.value, c, w.records[id].request);
      if |matches| == 1 {
        assert matches[0] in matches;
      }
    }
    RewriteInv(w, AfterPositions(w, id, c, positions), id, maxRetries);
  }

  lemma JudgeInv(w: World, id: int, c: Confirmation, positions: Reply<seq<Position>>, maxRetries: int)
    requires WorldInv(w, maxRetries) && id in w.records
    requires w.records[id].lifecycle == Submitted || w.records[id].lifecycle == Ambiguous
             || w.records[id].lifecycle == ConfirmedAccepted
    ensures AllInv(JudgeTrace(w, id, c, positions), maxRetries)
  {
    var trace := JudgeTrace(w, id, c, positions);
    if c.dealStatus == Rejected {
      RewriteInv(w, trace[0], id, maxRetries);
    } else if !AcceptedMatches(w.records[id].request, c) {
      MovedInv(w, id, FailedSafe, maxRetries);
    } else {
      RewriteInv(w, trace[0], id, maxRetries);
      AfterPositionsInv(trace[0], id, c, positions, maxRetries);
    }
  }

  lemma OpenInv(w: World, step: Step, maxRetries: int)
    requires WorldInv(w, maxRetries) && step.OpenStep?
    ensures AllInv(TraceOf(w, step, maxRetries), maxRetries)
  {
    if TraceOf(w, step, maxRetries) != [] {
      if step.confirmation.Raises? || step.confirmation.value.None? {
        MovedInv(w, step.id, Ambiguous, maxRetries);
      } else {
        JudgeInv(w, step.id, step.confirmation.value.value, step.positions, maxRetries);
      }
    }
  }

  lemma CloseOutcomeInv(w: World, id: int, reply: Reply<Submission>, maxRetries: int)
    requires WorldInv(w, maxRetries) && id in w.records && w.records[id].lifecycle == OpenReconciled
    requires w.unwritten[id] > 0
    ensures WorldInv(CloseOutcome(w, id, reply), maxRetries)
  {
    RewriteInv(w, CloseOutcome(w, id, reply), id, maxRetries);
  }

  lemma CloseInv(w: World, step: Step, maxRetries: int)
    requires WorldInv(w, maxRetries) && step.CloseStep?
    ensures AllInv(TraceOf(w, step, maxRetries), maxRetries)
  {
    if CloseGuard(w.records, step.id, step.g).None? {
      var w1 := w.(closes := w.closes + multiset{step.id}, unwritten := w.unwritten + multiset{step.id});
      assert w1.records == w.records[step.id := w1.records[step.id]];
      RewriteInv(w, w1, step.id, maxRetries);
      CloseOutcomeInv(w1, step.id, step.reply, maxRetries);
    }
  }

  lemma ClosedInv(w: World, id: int, c: Confirmation, maxRetries: int)
    requires WorldInv(w, maxRetries) && id in w.records && w.records[id].lifecycle == CloseRequested
    requires CloseMatches(w.records[id], c)
    ensures WorldInv(w.(records := w.records[id := w.records[id].(lifecycle := ClosedReconciled, confirmation := Some(c))]),
                     maxRetries)
  {
    var e := w.records[id].(lifecycle := ClosedReconciled, confirmation := Some(c));
    RewriteInv(w, w.(records := w.records[id := e]), id, maxRetries);
  }

  lemma CloseReconcileInv(w: World, step: Step, maxRetries: int)
    requires WorldInv(w, maxRetries) && step.CloseReconcileStep?
    ensures AllInv(TraceOf(w, step, maxRetries), maxRetries)
  {
    var trace := TraceOf(w, step, maxRetries);
    if trace != [] {
      if trace[0].records[step.id].lifecycle == ClosedReconciled {
        ClosedInv(w, step.id, step.confirmation.value.value, maxRetries);
      } else {
        MovedInv(w, step.id, trace[0].records[step.id].lifecycle, maxRetries);
      }
    }
  }

  /** The request of the record the operation is about. */
  function RequestOf(w: World, step: Step): Option<Request> {
    if step.SubmitStep? then Some(step.r) else if step.id in w.records then Some(w.records[step.id].request) else None
  }

  lemma DispatchKeepsRequest(w: World, r: Request, maxRetries: int, script: Script, k: nat)
    requires r.intentId in w.records && maxRetries <= |script| && k < |DispatchTrace(w, r, maxRetries, script)|
    ensures var n := DispatchTrace(w, r, maxRetries, script)[k];
            r.intentId in n.records && n.records[r.intentId].request == w.records[r.intentId].request
  {
    var call := HttpClient.From(maxRetries, script, 1);
    if k < 2 + call.dispatched {
      assert DispatchTrace(w, r, maxRetries, script)[k].records == Moved(w, r.intentId, Submitting).records;
    }
  }

  lemma TraceKeepsRequest(w: World, step: Step, maxRetries: int, k: nat)
    requires Runnable(step, maxRetries) && k < |TraceOf(w, step, maxRetries)|
    ensures var n := TraceOf(w, step, maxRetries)[k];
            Target(step) in n.records && Some(n.records[Target(step)].request) == RequestOf(w, step)
  {
    if step.SubmitStep? {
      var from, j := SubmitPasses(w, step, maxRetries, k);
      if j >= 0 {
        DispatchKeepsRequest(from, step.r, maxRetries, step.script, j);
      }
    }
  }

  /** Lifecycles that an operation may still be working on between two of its durable effects. */
  predicate Midway(l: Lifecycle) {
    l == Prepared || l == Submitting || l == ConfirmedAccepted || l == OpenReconciled
  }

  lemma DispatchMidway(w: World, r: Request, maxRetries: int, script: Script, k: nat)
    requires r.intentId in w.records && maxRetries <= |script|
    requires k + 1 < |DispatchTrace(w, r, maxRetries, script)|
    ensures var n := DispatchTrace(w, r, maxRetries, script)[k];
            r.intentId in n.records && n.records[r.intentId].lifecycle == Submitting
  {
    var n := DispatchTrace(w, r, maxRetries, script)[k];
    assert n.records == Moved(w, r.intentId, Submitting).records;
  }

  /** Before its last durable effect an operation leaves its record in such a lifecycle. */
  lemma MidwayBeforeLast(w: World, step: Step, maxRetries: int, k: nat)
    requires Runnable(step, maxRetries) && k + 1 < |TraceOf(w, step, maxRetries)|
    ensures var n := TraceOf(w, step, maxRetries)[k];
            Target(step) in n.records && Midway(n.records[Target(step)].lifecycle)
  {
    if step.SubmitStep? {
      var from, j := SubmitPasses(w, step, maxRetries, k);
      if j >= 0 {
        DispatchMidway(from, step.r, maxRetries, step.script, j);
      }
    }
  }

  lemma TraceInv(w: World, step: Step, maxRetries: int)
    requires WorldInv(w, maxRetries) && Runnable(step, maxRetries)
    ensures AllInv(TraceOf(w, step, maxRetries), maxRetries)
  {
    match step
    case SubmitStep(_, _, _, _, _, _) => SubmitInv(w, step, maxRetries);
    case OpenStep(_, _, _, _) => OpenInv(w, step, maxRetries);
    case CloseStep(_, _, _, _) => CloseInv(w, step, maxRetries);
    case CloseReconcileStep(_, _, _, _) => CloseReconcileInv(w, step, maxRetries);
  }

  lemma StoppedWithin(w: World, trace: seq<World>, effects: nat) returns (taken: nat)
    ensures taken <= |trace|
    ensures Stopped(w, trace, effects) == if taken == 0 then w else trace[taken - 1]
  {
    taken := if effects < |trace| then effects else |trace|;
  }

  lemma StoppedInv(w: World, trace: seq<World>, effects: nat, maxRetries: int)
    requires WorldInv(w, maxRetries) && AllInv(trace, maxRetries)
    ensures WorldInv(Stopped(w, trace, effects), maxRetries)
  {
    var taken := StoppedWithin(w, trace, effects);
    assert taken > 0 ==> WorldInv(trace[taken - 1], maxRetries);
  }

  /** Every durable state a step passes through, and the one it is stopped in, keeps the invariant. */
  lemma StepInv(w: World, step: Step, maxRetries: int)
    requires WorldInv(w, maxRetries) && Runnable(step, maxRetries)
    ensures AllInv(TraceOf(w, step, maxRetries), maxRetries)
    ensures WorldInv(After(w, step, maxRetries), maxRetries)
  {
    TraceInv(w, step, maxRetries);
    StoppedInv(w, TraceOf(w, step, maxRetries), step.effects, maxRetries);
  }

  lemma {:induction false} RunInv(run: seq<World>, steps: seq<Step>, maxRetries: int, i: nat)
    requires IsRun(run, steps, maxRetries) && i < |run|
    ensures WorldInv(run[i], maxRetries)
  {
    if i > 0 {
      RunInv(run, steps, maxRetries, i - 1);
      LeadsAt(run, steps, maxRetries, i - 1);
      StepInv(run[i - 1], steps[i - 1], maxRetries);
    }
  }

  // ---------------------------------------------------------------- theorems over every run

  /** A state the store can be found in: at a call boundary or after any durable effect inside a call. */
  ghost predicate DurableAt(run: seq<World>, steps: seq<Step>, maxRetries: int, i: nat, w: World) {
    && IsRun(run, steps, maxRetries) && i < |run|
    && (w == run[i] || (i < |steps| && Runnable(steps[i], maxRetries) && w in TraceOf(run[i], steps[i], maxRetries)))
  }

  lemma DurableInv(run: seq<World>, steps: seq<Step>, maxRetries: int, i: nat, w: World)
    requires DurableAt(run, steps, maxRetries, i, w)
    ensures WorldInv(w, maxRetries)
  {
    RunInv(run, steps, maxRetries, i);
    if i < |steps| {
      LeadsAt(run, steps, maxRetries, i);
      StepInv(run[i], steps[i], maxRetries);
    }
  }

  lemma {:induction false} CycleOfOneIntent(posts: seq<CreateCall>, cycle: int, id: int)
    requires forall k :: 0 <= k < |posts| && posts[k].cycleId == cycle ==> posts[k].intentId == id
    ensures CountInCycle(posts, cycle) <= CountFor(posts, id)
  {
    if posts != [] {
      CycleOfOneIntent(posts[..|posts| - 1], cycle, id);
    }
  }

  /** At most one create call per intent and per cycle, and at most max_retries POSTs, all with its reference. */
  lemma CreateAtMostOnce(run: seq<World>, steps: seq<Step>, maxRetries: int, i: nat, w: World, id: int, cycle: int)
    requires DurableAt(run, steps, maxRetries, i, w)
    ensures forall k, l :: 0 <= k < l < |w.creates| ==>
              w.creates[k].intentId != w.creates[l].intentId && w.creates[k].cycleId != w.creates[l].cycleId
    ensures forall k :: 0 <= k < |w.posts| ==> w.posts[k] in w.creates
    ensures CountFor(w.posts, id) <= if maxRetries > 0 then maxRetries else 0
    ensures CountInCycle(w.posts, cycle) <= if maxRetries > 0 then maxRetries else 0
  {
    DurableInv(run, steps, maxRetries, i, w);
    var owner := if exists k :: 0 <= k < |w.posts| && w.posts[k].cycleId == cycle
                 then (var k :| 0 <= k < |w.posts| && w.posts[k].cycleId == cycle; w.posts[k].intentId) else id;
    CycleOfOneIntent(w.posts, cycle, owner);
  }

  function Signed(direction: Direction, size: real): real {
    if direction == Buy then size else -size
  }

  /** An accepted confirmation of this request and a position with its exact economics. */
  ghost predicate OpenProven(e: ExecutionRecord) {
    && e.confirmation.Some? && e.confirmation.value.dealStatus == Accepted
    && e.confirmation.value.dealReference == e.request.dealReference
    && e.position.Some? && e.confirmation.value.dealId == Some(e.position.value.dealId)
    && e.position.value.epic == e.request.epic && e.position.value.direction == e.request.direction
    && e.position.value.size == e.request.size
  }

  /** An accepted fill of the same deal, under the close reference, that nets the request to nothing. */
  ghost predicate ClosedFlat(e: ExecutionRecord) {
    && e.position.Some? && e.closeSubmission.Some? && e.confirmation.Some?
    && e.confirmation.value.dealStatus == Accepted
    && e.confirmation.value.dealId == Some(e.position.value.dealId)
    && e.confirmation.value.dealReference == e.closeSubmission.value.dealReference
    && e.confirmation.value.epic == Some(e.request.epic)
    && e.confirmation.value.direction.Some? && e.confirmation.value.size.Some?
    && Signed(e.request.direction, e.request.size)
       + Signed(e.confirmation.value.direction.value, e.confirmation.value.size.value) == 0.0
  }

  lemma EvidenceInEveryState(run: seq<World>, steps: seq<Step>, maxRetries: int, i: nat, w: World, id: int)
    requires DurableAt(run, steps, maxRetries, i, w) && id in w.records
    ensures w.records[id].request.intentId == id
    ensures w.records[id].lifecycle == OpenReconciled ==> OpenProven(w.records[id])
    ensures w.records[id].lifecycle == ClosedReconciled ==> ClosedFlat(w.records[id])
  {
    DurableInv(run, steps, maxRetries, i, w);
    assert Evidenced(w.records[id]);
  }

  /** Final lifecycles, and the SUBMITTING a crash leaves behind, which no operation resumes. */
  predicate Frozen(l: Lifecycle) {
    l == ConfirmedRejected || l == FailedSafe || l == ClosedReconciled || l == Submitting
  }

  ghost predicate Untouched(w: World, n: World, id: int) {
    && id in w.records && id in n.records && n.records[id] == w.records[id]
    && CountFor(n.creates, id) == CountFor(w.creates, id) && CountFor(n.posts, id) == CountFor(w.posts, id)
    && n.closes[id] == w.closes[id]
  }

  /** A state that differs in one record and in that intent's calls only. */
  lemma OthersUntouched(w: World, n: World, r: Request, id: int, sent: nat)
    requires id in w.records && id != r.intentId && id in n.records && n.records[id] == w.records[id]
    requires n.creates == w.creates || n.creates == w.creates + [CallOf(r)]
    requires n.posts == w.posts + Copies(CallOf(r), sent) && n.closes == w.closes
    ensures Untouched(w, n, id)
  {
    assert (w.creates + [CallOf(r)])[..|w.creates|] == w.creates;
    CountCopies(w.posts, CallOf(r), sent, id);
  }

  lemma DispatchLeavesOthers(w: World, r: Request, maxRetries: int, script: Script, id: int, k: nat)
    requires r.intentId in w.records && maxRetries <= |script| && id in w.records && id != r.intentId
    requires k < |DispatchTrace(w, r, maxRetries, script)|
    ensures Untouched(w, DispatchTrace(w, r, maxRetries, script)[k], id)
  {
    var call := HttpClient.From(maxRetries, script, 1);
    var sent := if k < 2 then 0 else if k < 2 + call.dispatched then k - 1 else call.dispatched;
    assert w.posts + Copies(CallOf(r), 0) == w.posts;
    OthersUntouched(w, DispatchTrace(w, r, maxRetries, script)[k], r, id, sent);
  }

  lemma SubmitLeavesFrozen(w: World, step: Step, maxRetries: int, id: int, k: nat)
    requires step.SubmitStep? && Runnable(step, maxRetries)
    requires id in w.records && Frozen(w.records[id].lifecycle) && k < |TraceOf(w, step, maxRetries)|
    ensures Untouched(w, TraceOf(w, step, maxRetries)[k], id)
  {
    var from, j := SubmitPasses(w, step, maxRetries, k);
    assert id != step.r.intentId && Untouched(w, from, id);
    if j >= 0 {
      DispatchLeavesOthers(from, step.r, maxRetries, step.script, id, j);
      UntouchedAgain(w, from, TraceOf(w, step, maxRetries)[k], id);
    }
  }

  lemma OpenLeavesFrozen(w: World, id: int, confirmation: Reply<Option<Confirmation>>,
                         positions: Reply<seq<Position>>, frozen: int, k: nat)
    requires id in w.records ==> w.records[id].request.intentId == id
    requires frozen in w.records && Frozen(w.records[frozen].lifecycle) && k < |OpenTrace(w, id, confirmation, positions)|
    ensures Untouched(w, OpenTrace(w, id, confirmation, positions)[k], frozen)
  {
    assert id != frozen;
  }

  lemma CloseLeavesFrozen(w: World, id: int, g: Gate, reply: Reply<Submission>, frozen: int, k: nat)
    requires id in w.records ==> w.records[id].request.intentId == id
    requires frozen in w.records && Frozen(w.records[frozen].lifecycle) && k < |CloseTrace(w, id, g, reply)|
    ensures Untouched(w, CloseTrace(w, id, g, reply)[k], frozen)
  {
    assert id != frozen;
  }

  lemma CloseReconcileLeavesFrozen(w: World, id: int, confirmation: Reply<Option<Confirmation>>,
                                   positions: Reply<seq<Position>>, frozen: int, k: nat)
    requires id in w.records ==> w.records[id].request.intentId == id
    requires frozen in w.records && Frozen(w.records[frozen].lifecycle) && k < |CloseReconcileTrace(w, id, confirmation, positions)|
    ensures Untouched(w, CloseReconcileTrace(w, id, confirmation, positions)[k], frozen)
  {
    assert id != frozen;
  }

  lemma FrozenUntouched(w: World, step: Step, maxRetries: int, id: int, k: nat)
    requires RecordsInv(w.records) && Runnable(step, maxRetries)
    requires id in w.records && Frozen(w.records[id].lifecycle) && k < |TraceOf(w, step, maxRetries)|
    ensures Untouched(w, TraceOf(w, step, maxRetries)[k], id)
  {
    match step
    case SubmitStep(_, _, _, _, _, _) => SubmitLeavesFrozen(w, step, maxRetries, id, k);
    case OpenStep(other, confirmation, positions, _) => OpenLeavesFrozen(w, other, confirmation, positions, id, k);
    case CloseStep(other, g, reply, _) => CloseLeavesFrozen(w, other, g, reply, id, k);
    case CloseReconcileStep(other, confirmation, positions, _) =>
      CloseReconcileLeavesFrozen(w, other, confirmation, positions, id, k);
  }

  /** How many of its durable states a step passes through. */
  lemma Taken(w: World, step: Step, maxRetries: int) returns (taken: nat)
    requires Runnable(step, maxRetries)
    ensures taken <= |TraceOf(w, step, maxRetries)|
    ensures After(w, step, maxRetries) == if taken == 0 then w else TraceOf(w, step, maxRetries)[taken - 1]
  {
    taken := StoppedWithin(w, TraceOf(w, step, maxRetries), step.effects);
  }

  lemma FrozenAfter(w: World, step: Step, maxRetries: int, id: int)
    requires RecordsInv(w.records) && Runnable(step, maxRetries)
    requires id in w.records && Frozen(w.records[id].lifecycle)
    ensures Untouched(w, After(w, step, maxRetries), id)
  {
    FrozenPasses(w, step, maxRetries, id);
    UntouchedWhenStopped(w, TraceOf(w, step, maxRetries), step.effects, id);
  }

  ghost predicate UntouchedAll(w: World, trace: seq<World>, id: int) {
    forall k :: 0 <= k < |trace| ==> Untouched(w, trace[k], id)
  }

  lemma FrozenPasses(w: World, step: Step, maxRetries: int, id: int)
    requires RecordsInv(w.records) && Runnable(step, maxRetries)
    requires id in w.records && Frozen(w.records[id].lifecycle)
    ensures UntouchedAll(w, TraceOf(w, step, maxRetries), id)
  {
    var trace := TraceOf(w, step, maxRetries);
    forall k | 0 <= k < |trace|
      ensures Untouched(w, trace[k], id)
    {
      FrozenUntouched(w, step, maxRetries, id, k);
    }
  }

  lemma UntouchedWhenStopped(w: World, trace: seq<World>, effects: nat, id: int)
    requires id in w.records && UntouchedAll(w, trace, id)
    ensures Untouched(w, Stopped(w, trace, effects), id)
  {
    var taken := StoppedWithin(w, trace, effects);
  }

  lemma FrozenStep(run: seq<World>, steps: seq<Step>, maxRetries: int, j: nat, id: int)
    requires IsRun(run, steps, maxRetries) && j < |steps|
    requires id in run[j].records && Frozen(run[j].records[id].lifecycle)
    ensures Untouched(run[j], run[j + 1], id)
  {
    RunInv(run, steps, maxRetries, j);
    LeadsAt(run, steps, maxRetries, j);
    FrozenAfter(run[j], steps[j], maxRetries, id);
  }

  lemma UntouchedAgain(a: World, b: World, c: World, id: int)
    requires Untouched(a, b, id) && Untouched(b, c, id)
    ensures Untouched(a, c, id)
  {
  }

  /** From a frozen record on, nothing in the run changes it or calls the broker for it again. */
  lemma {:induction false} FrozenForever(run: seq<World>, steps: seq<Step>, maxRetries: int, i: nat, j: nat, id: int)
    requires IsRun(run, steps, maxRetries) && i <= j < |run|
    requires id in run[i].records && Frozen(run[i].records[id].lifecycle)
    ensures Untouched(run[i], run[j], id)
  {
    if i < j {
      FrozenForever(run, steps, maxRetries, i, j - 1, id);
      FrozenStep(run, steps, maxRetries, j - 1, id);
      UntouchedAgain(run[i], run[j - 1], run[j], id);
    }
  }

  // ---------------------------------------------------------------- authority

  lemma SubmitKeepsCloses(w: World, step: Step, maxRetries: int)
    requires step.SubmitStep? && Runnable(step, maxRetries)
    ensures forall k :: 0 <= k < |TraceOf(w, step, maxRetries)| ==> TraceOf(w, step, maxRetries)[k].closes == w.closes
  {
  }

  ghost predicate SameCalls(w: World, trace: seq<World>) {
    forall k :: 0 <= k < |trace| ==> trace[k].creates == w.creates && trace[k].posts == w.posts
  }

  lemma OpenKeepsCalls(w: World, id: int, confirmation: Reply<Option<Confirmation>>, positions: Reply<seq<Position>>)
    ensures SameCalls(w, OpenTrace(w, id, confirmation, positions))
  {
  }

  lemma CloseKeepsCalls(w: World, id: int, g: Gate, reply: Reply<Submission>)
    ensures SameCalls(w, CloseTrace(w, id, g, reply))
  {
  }

  lemma CloseReconcileKeepsCalls(w: World, id: int, confirmation: Reply<Option<Confirmation>>,
                                 positions: Reply<seq<Position>>)
    ensures SameCalls(w, CloseReconcileTrace(w, id, confirmation, positions))
  {
  }

  lemma OtherStepsKeepCalls(w: World, step: Step, maxRetries: int)
    requires !step.SubmitStep?
    ensures SameCalls(w, TraceOf(w, step, maxRetries))
  {
    match step
    case OpenStep(id, confirmation, positions, _) => OpenKeepsCalls(w, id, confirmation, positions);
    case CloseStep(id, g, reply, _) => CloseKeepsCalls(w, id, g, reply);
    case CloseReconcileStep(id, confirmation, positions, _) => CloseReconcileKeepsCalls(w, id, confirmation, positions);
  }
}
