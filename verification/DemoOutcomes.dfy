/** Where each operation of the dealing core leaves its record, for every answer of the broker, and the lifecycle graph. */
module DemoOutcomes {
  import opened Outcomes
  import opened Strings
  import opened Decimals
  import opened DemoExecution
  import opened DemoSafety
  import HttpClient

  // ---------------------------------------------------------------- the facts

  ghost predicate PositiveIfGiven(x: Option<Decimal>) {
    x.None? || x.value > 0.0
  }

  /** The broker reports an accepted fill under this reference and deal, of exactly these economics. */
  ghost predicate Fills(c: Confirmation, reference: string, epic: string, direction: Direction, size: Decimal) {
    && c.dealStatus == Accepted && c.dealReference == reference && NonBlank(c.status)
    && c.epic == Some(epic) && c.direction == Some(direction) && c.size == Some(size)
    && PositiveIfGiven(c.level) && PositiveIfGiven(c.stopLevel) && PositiveIfGiven(c.limitLevel)
  }

  ghost predicate OpeningFill(r: Request, c: Confirmation) {
    Fills(c, r.dealReference, r.epic, r.direction, r.size) && c.dealId.Some? && |c.dealId.value| > 0
  }

  ghost predicate ClosingFill(e: ExecutionRecord, c: Confirmation)
    requires e.position.Some? && e.closeSubmission.Some?
  {
    var p := e.position.value;
    && Fills(c, e.closeSubmission.value.dealReference, p.epic, if p.direction == Buy then Sell else Buy, p.size)
    && c.dealId == Some(p.dealId)
  }

  /** Position i of the list is the confirmed deal, with the economics of the request. */
  ghost predicate IsTheDeal(ps: seq<Position>, i: int, r: Request, c: Confirmation) {
    && 0 <= i < |ps| && Some(ps[i].dealId) == c.dealId
    && ps[i].epic == r.epic && ps[i].direction == r.direction && ps[i].size == r.size
  }

  /** Exactly one entry of the list is. */
  ghost predicate OneDeal(ps: seq<Position>, r: Request, c: Confirmation) {
    exists i :: IsTheDeal(ps, i, r, c) && forall j :: IsTheDeal(ps, j, r, c) ==> j == i
  }

  lemma {:induction false} NoMatch(ps: seq<Position>, c: Confirmation, r: Request)
    ensures MatchingPositions(ps, c, r) == [] <==> forall j :: !IsTheDeal(ps, j, r, c)
  {
    if ps != [] {
      NoMatch(ps[1..], c, r);
      forall j
        ensures IsTheDeal(ps[1..], j, r, c) <==> j >= 0 && IsTheDeal(ps, j + 1, r, c)
      {
      }
      if MatchingPositions(ps, c, r) == [] {
        assert forall j :: IsTheDeal(ps, j, r, c) ==> j == 0 || IsTheDeal(ps[1..], j - 1, r, c);
      } else if !PositionMatches(ps[0], c, r) {
        var j :| IsTheDeal(ps[1..], j, r, c);
        assert IsTheDeal(ps, j + 1, r, c);
      } else {
        assert IsTheDeal(ps, 0, r, c);
      }
    }
  }

  lemma {:induction false} OneMatchIs(ps: seq<Position>, c: Confirmation, r: Request) returns (i: int)
    requires |MatchingPositions(ps, c, r)| == 1
    ensures IsTheDeal(ps, i, r, c) && MatchingPositions(ps, c, r) == [ps[i]]
    ensures forall j :: IsTheDeal(ps, j, r, c) ==> j == i
  {
    var rest := ps[1..];
    assert forall j :: IsTheDeal(ps, j, r, c) ==> j == 0 || IsTheDeal(rest, j - 1, r, c);
    if PositionMatches(ps[0], c, r) {
      i := 0;
      NoMatch(rest, c, r);
    } else {
      i := OneMatchIs(rest, c, r);
      i := i + 1;
    }
  }

  lemma {:induction false} IsOneMatch(ps: seq<Position>, c: Confirmation, r: Request, i: int)
    requires IsTheDeal(ps, i, r, c) && forall j :: IsTheDeal(ps, j, r, c) ==> j == i
    ensures MatchingPositions(ps, c, r) == [ps[i]]
  {
    forall j | IsTheDeal(ps[1..], j, r, c)
      ensures j + 1 == i
    {
      assert IsTheDeal(ps, j + 1, r, c);
    }
    if i == 0 {
      NoMatch(ps[1..], c, r);
    } else {
      assert !PositionMatches(ps[0], c, r) by {
        assert !IsTheDeal(ps, 0, r, c);
      }
      assert IsTheDeal(ps[1..], i - 1, r, c);
      IsOneMatch(ps[1..], c, r, i - 1);
    }
  }

  /** The list of matches counts entries: a repeated entry is two. */
  lemma OneMatch(ps: seq<Position>, c: Confirmation, r: Request)
    ensures |MatchingPositions(ps, c, r)| == 1 <==> OneDeal(ps, r, c)
    ensures |MatchingPositions(ps, c, r)| == 1 ==>
              exists i :: IsTheDeal(ps, i, r, c) && MatchingPositions(ps, c, r) == [ps[i]]
  {
    if |MatchingPositions(ps, c, r)| == 1 {
      var i := OneMatchIs(ps, c, r);
    } else if OneDeal(ps, r, c) {
      var i :| IsTheDeal(ps, i, r, c) && forall j :: IsTheDeal(ps, j, r, c) ==> j == i;
      IsOneMatch(ps, c, r, i);
    }
  }

  /** Nothing but one record's fields beside its request moved. */
  ghost predicate OnlyRecord(w: World, n: World, id: int) {
    id in w.records && id in n.records && n.records == w.records[id := n.records[id]]
    && n.records[id].request == w.records[id].request
  }

  // ---------------------------------------------------------------- submit

  /** An answer that is a submission under the reference asked for. */
  ghost predicate Acknowledges(answer: Option<Option<Submission>>, r: Request) {
    answer.Some? && answer.value.Some? && answer.value.value.dealReference == r.dealReference
  }

  ghost predicate AnswersOther(answer: Option<Option<Submission>>, r: Request) {
    answer.Some? && answer.value.Some? && answer.value.value.dealReference != r.dealReference
  }

  /** What the dispatch of a PREPARED record ends in: one create call, its POSTs, and a lifecycle for each answer. */
  lemma DispatchEnds(w: World, r: Request, maxRetries: int, script: Script)
    requires r.intentId in w.records && w.records[r.intentId].request == r && maxRetries <= |script|
    ensures var n := Final(w, DispatchTrace(w, r, maxRetries, script));
            var call := HttpClient.From(maxRetries, script, 1);
            && OnlyRecord(w, n, r.intentId)
            && n.creates == w.creates + [CallOf(r)] && n.posts == w.posts + Copies(CallOf(r), call.dispatched)
            && n.closes == w.closes
            && (n.records[r.intentId].lifecycle == Submitted <==> Acknowledges(call.outcome, r))
            && (n.records[r.intentId].lifecycle == FailedSafe <==> AnswersOther(call.outcome, r))
            && (n.records[r.intentId].lifecycle == Ambiguous <==> call.outcome.None? || call.outcome.value.None?)
            && n.records[r.intentId].submission
               == (if Acknowledges(call.outcome, r) then call.outcome.value else w.records[r.intentId].submission)
            && n.records[r.intentId].confirmation == w.records[r.intentId].confirmation
            && n.records[r.intentId].position == w.records[r.intentId].position
  {
    var trace := DispatchTrace(w, r, maxRetries, script);
    var call := HttpClient.From(maxRetries, script, 1);
    assert trace[2 + call.dispatched] == Final(w, trace);
  }

  // ---------------------------------------------------------------- reconciliation of an opening

  ghost predicate Waiting(l: Lifecycle) {
    l == Submitted || l == Ambiguous || l == ConfirmedAccepted
  }

  ghost predicate Heard(c: Reply<Option<Confirmation>>) {
    c.Returns? && c.value.Some?
  }

  /** Open reconciliation: each lifecycle exactly for its answers, and the evidence that is kept. */
  lemma ReconciledOpenEnds(w: World, id: int, confirmation: Reply<Option<Confirmation>>, positions: Reply<seq<Position>>)
    requires id in w.records && Waiting(w.records[id].lifecycle)
    ensures var n := Final(w, OpenTrace(w, id, confirmation, positions));
            var e, r := w.records[id], w.records[id].request;
            && OnlyRecord(w, n, id)
            && n.creates == w.creates && n.posts == w.posts && n.closes == w.closes
            && n.records[id].submission == e.submission && n.records[id].closeSubmission == e.closeSubmission
            && var filled := Heard(confirmation) && OpeningFill(r, confirmation.value.value);
            && var judged := Heard(confirmation) && (filled || confirmation.value.value.dealStatus == Rejected);
            && (n.records[id].lifecycle == ConfirmedRejected <==> judged && !filled)
            && (n.records[id].lifecycle == OpenReconciled <==>
                  filled && positions.Returns? && OneDeal(positions.value, r, confirmation.value.value))
            && (n.records[id].lifecycle == Ambiguous <==> !Heard(confirmation) || (filled && positions.Raises?))
            && (n.records[id].lifecycle == FailedSafe <==>
                  Heard(confirmation) &&
                  if filled then positions.Returns? && !OneDeal(positions.value, r, confirmation.value.value) else !judged)
            && n.records[id].confirmation == (if judged then confirmation.value else e.confirmation)
            && (n.records[id].lifecycle == OpenReconciled ==>
                  && n.openings == w.openings + multiset{id}
                  && exists i :: IsTheDeal(positions.value, i, r, confirmation.value.value)
                                 && n.records[id].position == Some(positions.value[i]))
            && (n.records[id].lifecycle != OpenReconciled ==>
                  n.openings == w.openings && n.records[id].position == e.position)
  {
    if Heard(confirmation) && positions.Returns? {
      OneMatch(positions.value, confirmation.value.value, w.records[id].request);
    }
  }

  /** In every other lifecycle it changes nothing. */
  lemma OthersAreNotReconciled(w: World, id: int, confirmation: Reply<Option<Confirmation>>,
                               positions: Reply<seq<Position>>)
    ensures id !in w.records || !Waiting(w.records[id].lifecycle) ==> OpenTrace(w, id, confirmation, positions) == []
    ensures id !in w.records || w.records[id].lifecycle != CloseRequested
            || w.records[id].position.None? || w.records[id].closeSubmission.None? ==>
              CloseReconcileTrace(w, id, confirmation, positions) == []
  {
  }

  // ---------------------------------------------------------------- closing

  /** A close that is due: one close call, and a lifecycle for each answer. */
  lemma RequestedCloseEnds(w: World, id: int, g: Gate, reply: Reply<Submission>)
    requires CloseGuard(w.records, id, g).None?
    ensures var n := Final(w, CloseTrace(w, id, g, reply));
            var e := w.records[id];
            && OnlyRecord(w, n, id)
            && n.closes == w.closes + multiset{id} && n.creates == w.creates && n.posts == w.posts
            && n.openings == w.openings
            && var asked := CloseReference(e.request, e.position.value.dealId);
            && (n.records[id].lifecycle == Ambiguous <==> reply.Raises?)
            && (n.records[id].lifecycle == CloseRequested <==> reply.Returns? && reply.value.dealReference == asked)
            && (n.records[id].lifecycle == FailedSafe <==> reply.Returns? && reply.value.dealReference != asked)
            && n.records[id].closeSubmission
               == (if reply.Returns? && reply.value.dealReference == asked then Some(reply.value) else e.closeSubmission)
            && n.records[id].confirmation == e.confirmation && n.records[id].position == e.position
            && n.records[id].submission == e.submission
  {
  }

  /** Close reconciliation: closed exactly by the opposite fill of a deal that the positions no longer list. */
  lemma ReconciledCloseEnds(w: World, id: int, confirmation: Reply<Option<Confirmation>>, positions: Reply<seq<Position>>)
    requires id in w.records && w.records[id].lifecycle == CloseRequested
    requires w.records[id].position.Some? && w.records[id].closeSubmission.Some?
    ensures var n := Final(w, CloseReconcileTrace(w, id, confirmation, positions));
            var e := w.records[id];
            && OnlyRecord(w, n, id)
            && n.creates == w.creates && n.posts == w.posts && n.closes == w.closes && n.openings == w.openings
            && var filled := Heard(confirmation) && ClosingFill(e, confirmation.value.value);
            && var listed := positions.Returns? && exists i :: 0 <= i < |positions.value|
                                                           && positions.value[i].dealId == e.position.value.dealId;
            && (n.records[id].lifecycle == ClosedReconciled <==> filled && positions.Returns? && !listed)
            && (n.records[id].lifecycle == Ambiguous <==> !Heard(confirmation) || (filled && positions.Raises?))
            && (n.records[id].lifecycle == FailedSafe <==> Heard(confirmation) && (filled ==> listed))
            && n.records[id].confirmation
               == (if n.records[id].lifecycle == ClosedReconciled then confirmation.value else e.confirmation)
            && n.records[id].position == e.position && n.records[id].closeSubmission == e.closeSubmission
            && n.records[id].submission == e.submission
  {
    var e := w.records[id];
    if positions.Returns? {
      assert (exists p :: p in positions.value && p.dealId == e.position.value.dealId)
             <==> exists i :: 0 <= i < |positions.value| && positions.value[i].dealId == e.position.value.dealId;
    }
  }

  // ---------------------------------------------------------------- the lifecycle graph

  /** Where one durable effect can take a record. */
  predicate Edge(from: Lifecycle, to: Lifecycle) {
    match from
    case Prepared => to == Submitting
    case Submitting => to == Submitted || to == FailedSafe || to == Ambiguous
    case Submitted => to == ConfirmedAccepted || to == ConfirmedRejected || to == FailedSafe || to == Ambiguous
    case Ambiguous => to == ConfirmedAccepted || to == ConfirmedRejected || to == FailedSafe
    case ConfirmedAccepted => to == OpenReconciled || to == ConfirmedRejected || to == FailedSafe || to == Ambiguous
    case OpenReconciled => to == CloseRequested || to == FailedSafe || to == Ambiguous
    case CloseRequested => to == ClosedReconciled || to == FailedSafe || to == Ambiguous
    case _ => false
  }

  /** No record moves but along an edge, and none appears but as PREPARED. */
  ghost predicate Follows(w: World, n: World) {
    && (forall id :: id in w.records ==>
          && id in n.records
          && (n.records[id].lifecycle == w.records[id].lifecycle || Edge(w.records[id].lifecycle, n.records[id].lifecycle)))
    && (forall id :: id in n.records && id !in w.records ==> n.records[id].lifecycle == Prepared)
  }

  function Prior(w: World, trace: seq<World>, k: nat): World
    requires k < |trace|
  {
    if k == 0 then w else trace[k - 1]
  }

  lemma DispatchFollows(w: World, r: Request, maxRetries: int, script: Script, k: nat)
    requires r.intentId in w.records && w.records[r.intentId].lifecycle == Prepared && maxRetries <= |script|
    requires k < |DispatchTrace(w, r, maxRetries, script)|
    ensures Follows(Prior(w, DispatchTrace(w, r, maxRetries, script), k), DispatchTrace(w, r, maxRetries, script)[k])
  {
    var trace := DispatchTrace(w, r, maxRetries, script);
    var submitting := Moved(w, r.intentId, Submitting).records;
    if k > 0 {
      assert trace[k - 1].records == submitting;
    }
    if k + 1 < |trace| {
      assert trace[k].records == submitting;
    }
  }

  lemma SubmitFollows(w: World, step: Step, maxRetries: int, k: nat)
    requires step.SubmitStep? && Runnable(step, maxRetries) && k < |TraceOf(w, step, maxRetries)|
    ensures Follows(Prior(w, TraceOf(w, step, maxRetries), k), TraceOf(w, step, maxRetries)[k])
  {
    var from, j := SubmitPasses(w, step, maxRetries, k);
    if j >= 0 {
      DispatchFollows(from, step.r, maxRetries, step.script, j);
      if k > 0 {
        var from', j' := SubmitPasses(w, step, maxRetries, k - 1);
      }
    }
  }

  lemma OpenFollows(w: World, id: int, confirmation: Reply<Option<Confirmation>>, positions: Reply<seq<Position>>, k: nat)
    requires k < |OpenTrace(w, id, confirmation, positions)|
    ensures Follows(Prior(w, OpenTrace(w, id, confirmation, positions), k), OpenTrace(w, id, confirmation, positions)[k])
  {
  }

  lemma CloseFollows(w: World, id: int, g: Gate, reply: Reply<Submission>, k: nat)
    requires k < |CloseTrace(w, id, g, reply)|
    ensures Follows(Prior(w, CloseTrace(w, id, g, reply), k), CloseTrace(w, id, g, reply)[k])
  {
    assert CloseTrace(w, id, g, reply)[0].records == w.records;
  }

  lemma CloseReconcileFollows(w: World, id: int, confirmation: Reply<Option<Confirmation>>,
                              positions: Reply<seq<Position>>, k: nat)
    requires k < |CloseReconcileTrace(w, id, confirmation, positions)|
    ensures Follows(Prior(w, CloseReconcileTrace(w, id, confirmation, positions), k),
                    CloseReconcileTrace(w, id, confirmation, positions)[k])
  {
  }

  /** Every durable effect of every operation follows the lifecycle graph. */
  lemma EffectsFollowTheGraph(w: World, step: Step, maxRetries: int, k: nat)
    requires Runnable(step, maxRetries) && k < |TraceOf(w, step, maxRetries)|
    ensures Follows(Prior(w, TraceOf(w, step, maxRetries), k), TraceOf(w, step, maxRetries)[k])
  {
    match step
    case SubmitStep(_, _, _, _, _, _) => SubmitFollows(w, step, maxRetries, k);
    case OpenStep(id, confirmation, positions, _) => OpenFollows(w, id, confirmation, positions, k);
    case CloseStep(id, g, reply, _) => CloseFollows(w, id, g, reply, k);
    case CloseReconcileStep(id, confirmation, positions, _) => CloseReconcileFollows(w, id, confirmation, positions, k);
  }
}
