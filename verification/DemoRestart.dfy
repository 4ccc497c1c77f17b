/** What a restart finds: in every durable state the records that matter for recovery can be read back. */
module DemoRestart {
  import opened Outcomes
  import opened DemoExecution
  import opened DemoSafety
  import opened DemoCodec
  import opened DemoStore
  import opened DemoCloses
  import opened DemoProvenance
  import opened DemoTransport
  import HttpClient

  /** Every submitted request was constructed, so it passed its own validation. */
  ghost predicate ShapesValid(steps: seq<Step>) {
    forall k :: 0 <= k < |steps| ==> StepShaped(steps[k])
  }

  ghost predicate StepShaped(step: Step) {
    step.SubmitStep? ==> ShapeValid(step.r)
  }

  predicate RequestReadable(r: Request) {
    ShapeValid(r) && r.risk.configuration != ""
  }

  /** Readable, except that a rejection's own texts are stored as the broker sent them. */
  predicate Recoverable(e: ExecutionRecord) {
    && RequestReadable(e.request)
    && SubmissionReadable(e.submission) && SubmissionReadable(e.closeSubmission) && PositionReadable(e.position)
    && (e.lifecycle != ConfirmedRejected ==> ConfirmationReadable(e.confirmation))
  }

  ghost predicate AllRecoverable(records: map<int, ExecutionRecord>) {
    forall id :: id in records ==> Recoverable(records[id])
  }

  ghost predicate PassesRecoverable(trace: seq<World>) {
    forall k :: 0 <= k < |trace| ==> AllRecoverable(trace[k].records)
  }

  // ---------------------------------------------------------------- one record at a time

  lemma RewriteRecoverable(records: map<int, ExecutionRecord>, id: int, e: ExecutionRecord)
    requires AllRecoverable(records) && Recoverable(e)
    ensures AllRecoverable(records[id := e])
  {
  }

  lemma MovedRecoverable(w: World, id: int, to: Lifecycle)
    requires AllRecoverable(w.records) && id in w.records
    requires w.records[id].lifecycle != ConfirmedRejected && to != ConfirmedRejected
    ensures AllRecoverable(Moved(w, id, to).records)
  {
    RewriteRecoverable(w.records, id, w.records[id].(lifecycle := to));
  }

  lemma OutcomeRecoverable(w: World, r: Request, answer: Option<Option<Submission>>)
    requires AllRecoverable(w.records) && r.intentId in w.records && w.records[r.intentId].lifecycle == Submitting
    requires w.records[r.intentId].request == r
    ensures AllRecoverable(SubmitOutcome(w, r, answer).records)
  {
    ShapeIsReadable(r);
    var n := SubmitOutcome(w, r, answer);
    RewriteRecoverable(w.records, r.intentId, n.records[r.intentId]);
  }

  lemma DispatchRecoverable(w: World, r: Request, maxRetries: int, script: Script)
    requires AllRecoverable(w.records) && maxRetries <= |script|
    requires r.intentId in w.records && w.records[r.intentId].request == r && w.records[r.intentId].lifecycle == Prepared
    ensures PassesRecoverable(DispatchTrace(w, r, maxRetries, script))
  {
    var trace := DispatchTrace(w, r, maxRetries, script);
    var w1 := Moved(w, r.intentId, Submitting);
    var call := HttpClient.From(maxRetries, script, 1);
    var sent := w1.(creates := w1.creates + [CallOf(r)], posts := w1.posts + Copies(CallOf(r), call.dispatched));
    MovedRecoverable(w, r.intentId, Submitting);
    OutcomeRecoverable(sent, r, call.outcome);
    forall k | 0 <= k < |trace|
      ensures AllRecoverable(trace[k].records)
    {
      if k < 2 + call.dispatched {
        assert trace[k].records == w1.records;
      } else {
        assert trace[k] == SubmitOutcome(sent, r, call.outcome);
      }
    }
  }

  lemma SubmitRecoverable(w: World, step: Step, maxRetries: int)
    requires AllRecoverable(w.records) && step.SubmitStep? && Runnable(step, maxRetries) && StepShaped(step)
    ensures PassesRecoverable(TraceOf(w, step, maxRetries))
  {
    var prepared := Prepare(w.records, step.r, step.m, step.g, step.now);
    if prepared.Stored? && prepared.record.lifecycle == Prepared {
      var from := if step.r.intentId in w.records then w else With(w, prepared.record);
      ShapeIsReadable(step.r);
      if step.r.intentId !in w.records {
        RewriteRecoverable(w.records, step.r.intentId, prepared.record);
      }
      DispatchRecoverable(from, step.r, maxRetries, step.script);
    }
  }

  // ---------------------------------------------------------------- reconciliation and close

  lemma PositionsRecoverable(w: World, id: int, c: Confirmation, positions: Reply<seq<Position>>)
    requires AllRecoverable(w.records) && id in w.records && w.records[id].lifecycle == ConfirmedAccepted
    requires AcceptedMatches(w.records[id].request, c)
    ensures AllRecoverable(AfterPositions(w, id, c, positions).records)
  {
    var n := AfterPositions(w, id, c, positions);
    ShapeIsReadable(w.records[id].request);
    if positions.Returns? {
      var matches := MatchingPositions(positions.value, c, w.records[id].request);
      assert |matches| == 1 ==> matches[0] in matches;
    }
    RewriteRecoverable(w.records, id, n.records[id]);
  }

  lemma JudgeRecoverable(w: World, id: int, c: Confirmation, positions: Reply<seq<Position>>)
    requires AllRecoverable(w.records) && id in w.records && w.records[id].lifecycle != ConfirmedRejected
    ensures PassesRecoverable(JudgeTrace(w, id, c, positions))
  {
    var trace := JudgeTrace(w, id, c, positions);
    ShapeIsReadable(w.records[id].request);
    RewriteRecoverable(w.records, id, trace[0].records[id]);
    if c.dealStatus == Accepted && AcceptedMatches(w.records[id].request, c) {
      PositionsRecoverable(trace[0], id, c, positions);
    }
  }

  lemma OpenRecoverable(w: World, step: Step, maxRetries: int)
    requires AllRecoverable(w.records) && step.OpenStep?
    ensures PassesRecoverable(TraceOf(w, step, maxRetries))
  {
    if TraceOf(w, step, maxRetries) != [] {
      if step.confirmation.Raises? || step.confirmation.value.None? {
        MovedRecoverable(w, step.id, Ambiguous);
      } else {
        JudgeRecoverable(w, step.id, step.confirmation.value.value, step.positions);
      }
    }
  }

  lemma CloseRecoverable(w: World, step: Step, maxRetries: int)
    requires AllRecoverable(w.records) && step.CloseStep?
    ensures PassesRecoverable(TraceOf(w, step, maxRetries))
  {
    var trace := TraceOf(w, step, maxRetries);
    if trace != [] {
      assert trace[0].records == w.records;
      RewriteRecoverable(w.records, step.id, trace[1].records[step.id]);
    }
  }

  lemma CloseReconcileRecoverable(w: World, step: Step, maxRetries: int)
    requires AllRecoverable(w.records) && step.CloseReconcileStep?
    ensures PassesRecoverable(TraceOf(w, step, maxRetries))
  {
    var trace := TraceOf(w, step, maxRetries);
    if trace != [] {
      RewriteRecoverable(w.records, step.id, trace[0].records[step.id]);
    }
  }

  lemma TraceRecoverable(w: World, step: Step, maxRetries: int)
    requires AllRecoverable(w.records) && Runnable(step, maxRetries) && StepShaped(step)
    ensures PassesRecoverable(TraceOf(w, step, maxRetries))
  {
    match step
    case SubmitStep(_, _, _, _, _, _) => SubmitRecoverable(w, step, maxRetries);
    case OpenStep(_, _, _, _) => OpenRecoverable(w, step, maxRetries);
    case CloseStep(_, _, _, _) => CloseRecoverable(w, step, maxRetries);
    case CloseReconcileStep(_, _, _, _) => CloseReconcileRecoverable(w, step, maxRetries);
  }

  lemma StepRecoverable(w: World, step: Step, maxRetries: int)
    requires AllRecoverable(w.records) && Runnable(step, maxRetries) && StepShaped(step)
    ensures AllRecoverable(After(w, step, maxRetries).records)
  {
    TraceRecoverable(w, step, maxRetries);
    var taken := Taken(w, step, maxRetries);
    assert taken > 0 ==> AllRecoverable(TraceOf(w, step, maxRetries)[taken - 1].records);
  }

  // ---------------------------------------------------------------- whole runs

  lemma RecoverableNext(run: seq<World>, steps: seq<Step>, maxRetries: int, i: nat)
    requires IsRun(run, steps, maxRetries) && ShapesValid(steps) && i < |steps| && AllRecoverable(run[i].records)
    ensures AllRecoverable(run[i + 1].records)
  {
    LeadsAt(run, steps, maxRetries, i);
    assert StepShaped(steps[i]);
    StepRecoverable(run[i], steps[i], maxRetries);
  }

  lemma {:induction false} RunRecoverable(run: seq<World>, steps: seq<Step>, maxRetries: int, i: nat)
    requires IsRun(run, steps, maxRetries) && ShapesValid(steps) && i < |run|
    ensures AllRecoverable(run[i].records)
  {
    if i > 0 {
      RunRecoverable(run, steps, maxRetries, i - 1);
      RecoverableNext(run, steps, maxRetries, i - 1);
    }
  }

  lemma DurableRecoverable(run: seq<World>, steps: seq<Step>, maxRetries: int, i: nat, w: World)
    requires DurableAt(run, steps, maxRetries, i, w) && ShapesValid(steps)
    ensures AllRecoverable(w.records)
  {
    RunRecoverable(run, steps, maxRetries, i);
    if i < |steps| {
      LeadsAt(run, steps, maxRetries, i);
      assert StepShaped(steps[i]);
      TraceRecoverable(run[i], steps[i], maxRetries);
    }
  }

  /**
   In every durable state of every run of constructed requests, a record reads back unless it is a
   rejection whose status or reference the broker sent empty.
   */
  lemma ReadsBackIff(run: seq<World>, steps: seq<Step>, maxRetries: int, i: nat, w: World, id: int, t: Texts)
    requires DurableAt(run, steps, maxRetries, i, w) && ShapesValid(steps) && id in w.records && Faithful(t)
    ensures var e := w.records[id];
            && (Reload(e, t).Err? <==> e.lifecycle == ConfirmedRejected && !ConfirmationReadable(e.confirmation))
            && (Reload(e, t).Ok? ==> Reload(e, t).value == Clean(e))
  {
    DurableRecoverable(run, steps, maxRetries, i, w);
    ReloadKeepsRequest(w.records[id], t);
    assert Recoverable(w.records[id]);
  }

  /** So the restart query never fails, and lists exactly the restart-sensitive records. */
  lemma RestartQueryNeverFails(run: seq<World>, steps: seq<Step>, maxRetries: int, i: nat, w: World, t: Texts)
    requires DurableAt(run, steps, maxRetries, i, w) && ShapesValid(steps) && Faithful(t)
    ensures AllOk(Reloads(w.records, t))
  {
    forall key | key in Reloads(w.records, t)
      ensures Reloads(w.records, t)[key].Ok?
    {
      ReadsBackIff(run, steps, maxRetries, i, w, OwnerOf(w.records, t, key), t);
    }
  }

  // ---------------------------------------------------------------- with the transport's own texts

  /** A confirmation in the answers has a status and a reference. */
  ghost predicate ToldPlainly(step: Step) {
    forall c :: Confirms(step, c) ==> c.dealReference != "" && c.status != ""
  }

  /** Every answer has the texts that the transport gives it. */
  ghost predicate PlainAnswers(step: Step) {
    && (forall c :: Confirms(step, c) ==> PlainConfirmation(c))
    && (forall s :: Acknowledges(step, s) ==> PlainSubmission(s))
    && (forall s :: AcknowledgesClose(step, s) ==> PlainSubmission(s))
  }

  /** If every confirmation has a status and a reference, every record of every durable state reads back. */
  lemma AllReadBack(run: seq<World>, steps: seq<Step>, maxRetries: int, i: nat, w: World, id: int, t: Texts)
    requires DurableAt(run, steps, maxRetries, i, w) && ShapesValid(steps) && id in w.records && Faithful(t)
    requires forall k :: 0 <= k < |steps| ==> ToldPlainly(steps[k])
    ensures Reload(w.records[id], t) == Ok(Clean(w.records[id]))
  {
    EvidenceIsTheBrokers(run, steps, maxRetries, i, w, id);
    ReadsBackIff(run, steps, maxRetries, i, w, id, t);
  }

  /** And over the transport of this repository it reads back as exactly itself. */
  lemma TransportRecordsKept(run: seq<World>, steps: seq<Step>, maxRetries: int, i: nat, w: World, id: int, t: Texts)
    requires DurableAt(run, steps, maxRetries, i, w) && ShapesValid(steps) && id in w.records && Faithful(t)
    requires forall k :: 0 <= k < |steps| ==> PlainAnswers(steps[k])
    ensures Reload(w.records[id], t) == Ok(w.records[id])
  {
    EvidenceIsTheBrokers(run, steps, maxRetries, i, w, id);
    PlainHasNoBlank(steps, if i < |steps| then i + 1 else i, w.records[id]);
    AllReadBack(run, steps, maxRetries, i, w, id, t);
  }

  lemma PlainHasNoBlank(steps: seq<Step>, n: nat, e: ExecutionRecord)
    requires n <= |steps| && Told(steps, n, e) && forall k :: 0 <= k < |steps| ==> PlainAnswers(steps[k])
    ensures forall k :: 0 <= k < |steps| ==> ToldPlainly(steps[k])
    ensures Clean(e) == e
  {
    forall k | 0 <= k < |steps|
      ensures ToldPlainly(steps[k])
    {
      assert PlainAnswers(steps[k]);
    }
    CleanIffNoBlank(e);
  }

  /** A rejection without a status, which another transport could hand on. */
  function SilentRejection(): Confirmation {
    Fill().(dealStatus := Rejected, status := "")
  }

  function Rejecting(): Step {
    OpenStep(1, Returns(Some(SilentRejection())), Raises, 1)
  }

  function Silenced(): ExecutionRecord {
    ExecutionRecord(Order(), ConfirmedRejected, Some(Submission("REF", None)), Some(SilentRejection()), None, None)
  }

  lemma RejectionStored()
    ensures After(Sent(), Rejecting(), 1) == Sent().(records := map[1 := Silenced()])
  {
    assert After(Sent(), Rejecting(), 1).records == map[1 := Silenced()];
  }

  lemma OrderIsShaped()
    ensures ShapeValid(Order())
  {
    var r := Order();
    assert r.epic[0] != ' ' && r.expiry[0] != ' ' && r.currencyCode[0] != ' ' && r.configuration[0] != ' ';
  }

  lemma SilencedIsUnreadable()
    ensures !Readable(Silenced())
  {
  }

  lemma RejectingShapes(steps: seq<Step>)
    requires steps == [SubmitOnce()] + [Rejecting()]
    ensures ShapesValid(steps)
  {
    OrderIsShaped();
    assert StepShaped(SubmitOnce());
    assert StepShaped(Rejecting());
  }

  lemma SentRun() returns (run: seq<World>, steps: seq<Step>)
    ensures IsRun(run, steps, 1) && steps == [SubmitOnce()] && run[1] == Sent()
  {
    SubmitSends();
    run, steps := Extended([EMPTY], [], 1, SubmitOnce(), Sent());
  }

  lemma RejectingRun() returns (run: seq<World>, steps: seq<Step>)
    ensures IsRun(run, steps, 1) && steps == [SubmitOnce()] + [Rejecting()]
    ensures 1 in run[|steps|].records && !Readable(run[|steps|].records[1])
  {
    run, steps := SentRun();
    RejectionStored();
    run, steps := Extended(run, steps, 1, Rejecting(), Sent().(records := map[1 := Silenced()]));
    SilencedIsUnreadable();
  }

  /** A run from the empty store that ends with a record that cannot be read back. */
  lemma SilentRejectionIsUnreadable(t: Texts) returns (run: seq<World>, steps: seq<Step>)
    requires Faithful(t)
    ensures IsRun(run, steps, 1) && ShapesValid(steps)
    ensures 1 in run[|steps|].records && Reload(run[|steps|].records[1], t).Err?
  {
    run, steps := RejectingRun();
    RejectingShapes(steps);
    UnreadableReload(run[|steps|].records[1], t);
  }

  lemma UnreadableReload(e: ExecutionRecord, t: Texts)
    requires Faithful(t) && !Readable(e)
    ensures Reload(e, t).Err?
  {
    ReloadKeepsRequest(e, t);
  }

  // ---------------------------------------------------------------- evidence after a restart

  /** Dropping blank optional texts takes no evidence away. */
  lemma CleanKeepsEvidence(e: ExecutionRecord)
    requires Readable(e) && Evidenced(e)
    ensures Evidenced(Clean(e))
  {
    ShapeIsReadable(e.request);
  }

  /** After a restart at any durable state of any run, a record that reads back still has the evidence behind its lifecycle. */
  lemma RestartKeepsEvidence(run: seq<World>, steps: seq<Step>, maxRetries: int, i: nat, w: World, id: int, t: Texts)
    requires DurableAt(run, steps, maxRetries, i, w) && id in w.records && Faithful(t)
    requires Reload(w.records[id], t).Ok?
    ensures var e := Reload(w.records[id], t).value;
            && e.request == w.records[id].request && e.lifecycle == w.records[id].lifecycle
            && (e.lifecycle == OpenReconciled ==> OpenProven(e))
            && (e.lifecycle == ClosedReconciled ==> ClosedFlat(e))
  {
    DurableInv(run, steps, maxRetries, i, w);
    ReloadKeepsRequest(w.records[id], t);
    CleanKeepsEvidence(w.records[id]);
  }
}
