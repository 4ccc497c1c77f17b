/** Nothing in a stored record is invented: what it says of the broker, the broker said in an earlier call. */
module DemoProvenance {
  import opened Outcomes
  import opened DemoExecution
  import opened DemoSafety
  import HttpClient

  predicate Confirms(step: Step, c: Confirmation) {
    || (step.OpenStep? && step.confirmation == Returns(Some(c)))
    || (step.CloseReconcileStep? && step.confirmation == Returns(Some(c)))
  }

  predicate Acknowledges(step: Step, s: Submission) {
    step.SubmitStep? && HttpClient.Response(Some(s)) in step.script
  }

  predicate AcknowledgesClose(step: Step, s: Submission) {
    step.CloseStep? && step.reply == Returns(s)
  }

  predicate Lists(step: Step, p: Position) {
    step.OpenStep? && step.positions.Returns? && p in step.positions.value
  }

  /** Each broker fact of the record is the one stored before, or an answer in this step. */
  ghost predicate FactsFrom(before: Option<ExecutionRecord>, e: ExecutionRecord, step: Step) {
    && (e.confirmation.Some? && !(before.Some? && before.value.confirmation == e.confirmation) ==>
          Confirms(step, e.confirmation.value))
    && (e.submission.Some? && !(before.Some? && before.value.submission == e.submission) ==>
          Acknowledges(step, e.submission.value))
    && (e.closeSubmission.Some? && !(before.Some? && before.value.closeSubmission == e.closeSubmission) ==>
          AcknowledgesClose(step, e.closeSubmission.value))
    && (e.position.Some? && !(before.Some? && before.value.position == e.position) ==>
          Lists(step, e.position.value))
  }

  function Stored(w: World, id: int): Option<ExecutionRecord> {
    if id in w.records then Some(w.records[id]) else None
  }

  ghost predicate AllFrom(w: World, n: World, step: Step) {
    forall id :: id in n.records ==> FactsFrom(Stored(w, id), n.records[id], step)
  }

  // ---------------------------------------------------------------- one step

  lemma SameFacts(w: World, n: World, step: Step, id: int)
    requires id in w.records && id in n.records && n.records == w.records[id := n.records[id]]
    requires FactsFrom(Some(w.records[id]), n.records[id], step)
    ensures AllFrom(w, n, step)
  {
  }

  lemma DispatchFacts(w: World, r: Request, step: Step, maxRetries: int, k: nat)
    requires step.SubmitStep? && maxRetries <= |step.script| && r.intentId in w.records
    requires k < |DispatchTrace(w, r, maxRetries, step.script)|
    ensures AllFrom(w, DispatchTrace(w, r, maxRetries, step.script)[k], step)
  {
    var n := DispatchTrace(w, r, maxRetries, step.script)[k];
    var call := HttpClient.From(maxRetries, step.script, 1);
    if k < 2 + call.dispatched {
      assert n.records == Moved(w, r.intentId, Submitting).records;
    } else {
      var w1 := Moved(w, r.intentId, Submitting);
      var sent := w1.(creates := w1.creates + [CallOf(r)], posts := w1.posts + Copies(CallOf(r), call.dispatched));
      assert n == SubmitOutcome(sent, r, call.outcome);
      if call.outcome.Some? && call.outcome.value.Some? {
        assert HttpClient.Response(call.outcome.value) in step.script;
      }
    }
    SameFacts(w, n, step, r.intentId);
  }

  lemma SubmitFacts(w: World, step: Step, maxRetries: int, k: nat)
    requires step.SubmitStep? && Runnable(step, maxRetries) && k < |TraceOf(w, step, maxRetries)|
    ensures AllFrom(w, TraceOf(w, step, maxRetries)[k], step)
  {
    var from, j := SubmitPasses(w, step, maxRetries, k);
    if j >= 0 {
      DispatchFacts(from, step.r, step, maxRetries, j);
      if from != w {
        FreshAdds(w, step.r, TraceOf(w, step, maxRetries)[k], step);
      }
    }
  }

  /** A new record has no facts of its own. */
  lemma FreshAdds(w: World, r: Request, n: World, step: Step)
    requires AllFrom(With(w, ExecutionRecord(r, Prepared, None, None, None, None)), n, step) && r.intentId !in w.records
    ensures AllFrom(w, n, step)
  {
    var from := With(w, ExecutionRecord(r, Prepared, None, None, None, None));
    forall id | id in n.records
      ensures FactsFrom(Stored(w, id), n.records[id], step)
    {
      assert FactsFrom(Stored(from, id), n.records[id], step);
    }
  }

  lemma OpenFacts(w: World, step: Step, maxRetries: int, k: nat)
    requires step.OpenStep? && k < |TraceOf(w, step, maxRetries)|
    ensures AllFrom(w, TraceOf(w, step, maxRetries)[k], step)
  {
    var n := TraceOf(w, step, maxRetries)[k];
    if step.positions.Returns? && step.confirmation.Returns? && step.confirmation.value.Some? {
      var matches := MatchingPositions(step.positions.value, step.confirmation.value.value, w.records[step.id].request);
      assert |matches| == 1 ==> matches[0] in matches;
    }
    SameFacts(w, n, step, step.id);
  }

  lemma CloseFacts(w: World, step: Step, maxRetries: int, k: nat)
    requires step.CloseStep? && k < |TraceOf(w, step, maxRetries)|
    ensures AllFrom(w, TraceOf(w, step, maxRetries)[k], step)
  {
    var n := TraceOf(w, step, maxRetries)[k];
    if k == 0 {
      assert n.records == w.records;
    } else {
      SameFacts(w, n, step, step.id);
    }
  }

  lemma CloseReconcileFacts(w: World, step: Step, maxRetries: int, k: nat)
    requires step.CloseReconcileStep? && k < |TraceOf(w, step, maxRetries)|
    ensures AllFrom(w, TraceOf(w, step, maxRetries)[k], step)
  {
    var n := TraceOf(w, step, maxRetries)[k];
    SameFacts(w, n, step, step.id);
  }

  lemma TraceFacts(w: World, step: Step, maxRetries: int, k: nat)
    requires Runnable(step, maxRetries) && k < |TraceOf(w, step, maxRetries)|
    ensures AllFrom(w, TraceOf(w, step, maxRetries)[k], step)
  {
    match step
    case SubmitStep(_, _, _, _, _, _) => SubmitFacts(w, step, maxRetries, k);
    case OpenStep(_, _, _, _) => OpenFacts(w, step, maxRetries, k);
    case CloseStep(_, _, _, _) => CloseFacts(w, step, maxRetries, k);
    case CloseReconcileStep(_, _, _, _) => CloseReconcileFacts(w, step, maxRetries, k);
  }

  // ---------------------------------------------------------------- whole runs

  ghost predicate Told(steps: seq<Step>, n: nat, e: ExecutionRecord)
    requires n <= |steps|
  {
    && (e.confirmation.Some? ==> exists k :: 0 <= k < n && Confirms(steps[k], e.confirmation.value))
    && (e.submission.Some? ==> exists k :: 0 <= k < n && Acknowledges(steps[k], e.submission.value))
    && (e.closeSubmission.Some? ==> exists k :: 0 <= k < n && AcknowledgesClose(steps[k], e.closeSubmission.value))
    && (e.position.Some? ==> exists k :: 0 <= k < n && Lists(steps[k], e.position.value))
  }

  lemma ToldNext(steps: seq<Step>, n: nat, before: Option<ExecutionRecord>, e: ExecutionRecord)
    requires n < |steps| && FactsFrom(before, e, steps[n])
    requires before.Some? ==> Told(steps, n, before.value)
    ensures Told(steps, n + 1, e)
  {
  }

  ghost predicate AllTold(steps: seq<Step>, n: nat, w: World)
    requires n <= |steps|
  {
    forall id :: id in w.records ==> Told(steps, n, w.records[id])
  }

  lemma AllToldNext(steps: seq<Step>, n: nat, w: World, after: World)
    requires n < |steps| && AllTold(steps, n, w) && (after == w || AllFrom(w, after, steps[n]))
    ensures AllTold(steps, n + 1, after)
  {
    forall id | id in after.records
      ensures Told(steps, n + 1, after.records[id])
    {
      if after == w {
        assert FactsFrom(Stored(w, id), after.records[id], steps[n]);
      }
      ToldNext(steps, n, Stored(w, id), after.records[id]);
    }
  }

  lemma RunToldNext(run: seq<World>, steps: seq<Step>, maxRetries: int, i: nat)
    requires IsRun(run, steps, maxRetries) && i < |steps| && AllTold(steps, i, run[i])
    ensures AllTold(steps, i + 1, run[i + 1])
  {
    LeadsAt(run, steps, maxRetries, i);
    var taken := Taken(run[i], steps[i], maxRetries);
    if taken > 0 {
      TraceFacts(run[i], steps[i], maxRetries, taken - 1);
    }
    AllToldNext(steps, i, run[i], run[i + 1]);
  }

  lemma {:induction false} RunTold(run: seq<World>, steps: seq<Step>, maxRetries: int, i: nat)
    requires IsRun(run, steps, maxRetries) && i < |run|
    ensures AllTold(steps, i, run[i])
  {
    if i > 0 {
      RunTold(run, steps, maxRetries, i - 1);
      RunToldNext(run, steps, maxRetries, i - 1);
    }
  }

  /**
   In every durable state of every run, each confirmation, submission, close submission and position
   in a record is one that a call of the run had returned by then.
   */
  lemma EvidenceIsTheBrokers(run: seq<World>, steps: seq<Step>, maxRetries: int, i: nat, w: World, id: int)
    requires DurableAt(run, steps, maxRetries, i, w) && id in w.records
    ensures Told(steps, if i < |steps| then i + 1 else i, w.records[id])
  {
    RunTold(run, steps, maxRetries, i);
    if i < |steps| {
      LeadsAt(run, steps, maxRetries, i);
      if w != run[i] {
        var k :| 0 <= k < |TraceOf(run[i], steps[i], maxRetries)| && TraceOf(run[i], steps[i], maxRetries)[k] == w;
        TraceFacts(run[i], steps[i], maxRetries, k);
      }
      AllToldNext(steps, i, run[i], w);
    }
  }
}
