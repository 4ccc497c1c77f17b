/** What the broker is asked, and the life of one deal with a broker that does what it is asked. */
module DemoLives {
  import opened Outcomes
  import opened Strings
  import opened Decimals
  import opened DemoExecution
  import opened DemoSafety
  import opened DemoOutcomes
  import opened DemoAuthority
  import HttpClient

  // ---------------------------------------------------------------- what the broker is asked

  /** The order states the request's terms, with the one form of stop and limit that the request has. */
  ghost predicate States(o: OpenOrder, r: Request) {
    && o.dealReference == r.dealReference && o.epic == r.epic && o.direction == r.direction && o.size == r.size
    && o.currencyCode == r.currencyCode && o.expiry == r.expiry && o.orderType == r.orderType
    && o.forceOpen == r.forceOpen && o.guaranteedStop == r.guaranteedStop
    && (r.stopDistance.Some? ==> o.stop == AtDistance(r.stopDistance.value))
    && (r.stopDistance.None? && r.stopLevel.Some? ==> o.stop == AtLevel(r.stopLevel.value))
    && (r.limitDistance.Some? ==> o.limit == AtDistance(r.limitDistance.value))
    && (r.limitDistance.None? && r.limitLevel.Some? ==> o.limit == AtLevel(r.limitLevel.value))
  }

  /** In every durable state every create call and every POST asks for what the stored request states. */
  lemma OrdersStateTheRequest(run: seq<World>, steps: seq<Step>, maxRetries: int, i: nat, w: World, k: nat)
    requires DurableAt(run, steps, maxRetries, i, w)
    ensures k < |w.creates| ==>
              && w.creates[k].intentId in w.records
              && w.creates[k].cycleId == w.records[w.creates[k].intentId].request.cycleId
              && States(w.creates[k].order, w.records[w.creates[k].intentId].request)
    ensures k < |w.posts| ==>
              && w.posts[k].intentId in w.records
              && States(w.posts[k].order, w.records[w.posts[k].intentId].request)
  {
    DurableInv(run, steps, maxRetries, i, w);
    if k < |w.posts| {
      assert w.posts[k] in w.creates;
      var l :| 0 <= l < |w.creates| && w.creates[l] == w.posts[k];
    }
  }

  /** In every durable state the close order of an open record is for its confirmed deal and nets its opening order to nothing. */
  lemma CloseOrdersNet(run: seq<World>, steps: seq<Step>, maxRetries: int, i: nat, w: World, id: int)
    requires DurableAt(run, steps, maxRetries, i, w) && id in w.records && w.records[id].lifecycle == OpenReconciled
    ensures var e := w.records[id];
            && e.position.Some? && e.confirmation.Some?
            && var closing, opening := CloseOrderOf(e), OrderOf(e.request);
            && Some(closing.dealId) == e.confirmation.value.dealId
            && Signed(opening.direction, opening.size) + Signed(closing.direction, closing.size) == 0.0
  {
    DurableInv(run, steps, maxRetries, i, w);
    assert Evidenced(w.records[id]);
  }

  /** Close references tell openings and deals of one opening apart. */
  lemma CloseReferencesDiffer(r: Request, a: string, b: string)
    ensures CloseReference(r, a) == CloseReference(r, b) <==> a == b
  {
    var head := "DQ01C_" + r.dealReference + "|";
    assert CloseReference(r, a) == head + (a + "|CLOSE") && CloseReference(r, b) == head + (b + "|CLOSE");
    if CloseReference(r, a) == CloseReference(r, b) {
      assert (head + (a + "|CLOSE"))[|head|..] == a + "|CLOSE";
      assert (head + (b + "|CLOSE"))[|head|..] == b + "|CLOSE";
      assert (a + "|CLOSE")[..|a|] == a && (b + "|CLOSE")[..|b|] == b;
    }
  }

  // ---------------------------------------------------------------- a broker that does what it is asked

  function Filled(o: OpenOrder, deal: string, status: string): Confirmation {
    Confirmation(o.dealReference, Some(deal), Accepted, status, Some(o.epic), Some(o.direction), Some(o.size), None, None, None)
  }

  function Listed(o: OpenOrder, deal: string): Position {
    Position(deal, o.epic, o.direction, o.size)
  }

  function ClosedOut(o: CloseOrder, epic: string, status: string): Confirmation {
    Confirmation(o.dealReference, Some(o.dealId), Accepted, status, Some(epic), Some(o.direction), Some(o.size), None, None, None)
  }

  /** The last create call asked for this. */
  function Asked(w: World): OpenOrder
    requires w.creates != []
  {
    w.creates[|w.creates| - 1].order
  }

  /** An admissible request, its gates, and a broker that answers the first request. */
  ghost predicate Opportunity(w: World, step: Step, closing: Gate, maxRetries: int, deal: string, status: string) {
    && OwnIds(w.records) && step.SubmitStep? && maxRetries >= 1 && Runnable(step, maxRetries)
    && MarketFacts(step.m, step.r, step.now) && OpeningFacts(step.g, step.r) && Admissible(w.records, step.r)
    && ClosingFacts(closing, step.r) && |deal| > 0 && NonBlank(status)
    && step.script[0] == HttpClient.Response(Some(Submission(step.r.dealReference, None)))
  }

  lemma Submits(w: World, step: Step, closing: Gate, maxRetries: int, deal: string, status: string) returns (n: World)
    requires Opportunity(w, step, closing, maxRetries, deal, status)
    ensures n == Final(w, TraceOf(w, step, maxRetries))
    ensures step.r.intentId in n.records && n.records[step.r.intentId].request == step.r
    ensures n.records[step.r.intentId].lifecycle == Submitted
    ensures n.creates == w.creates + [CallOf(step.r)] && |n.posts| == |w.posts| + 1 && n.closes == w.closes
    ensures n.openings == w.openings
    ensures forall id :: id in w.records && id != step.r.intentId ==> id in n.records && n.records[id] == w.records[id]
  {
    n := Final(w, TraceOf(w, step, maxRetries));
    ContinuesIff(w, step);
    var from := if step.r.intentId in w.records then w
                else With(w, ExecutionRecord(step.r, Prepared, None, None, None, None));
    var trace := DispatchTrace(from, step.r, maxRetries, step.script);
    assert n == Final(from, trace);
    HttpClient.CallMeans(maxRetries, step.script, 0, 1);
    DispatchEnds(from, step.r, maxRetries, step.script);
    DispatchOpenings(from, step.r, maxRetries, step.script);
  }

  lemma DispatchOpenings(w: World, r: Request, maxRetries: int, script: Script)
    requires r.intentId in w.records && maxRetries <= |script|
    ensures Final(w, DispatchTrace(w, r, maxRetries, script)).openings == w.openings
  {
    var call := HttpClient.From(maxRetries, script, 1);
    var trace := DispatchTrace(w, r, maxRetries, script);
    assert trace[2 + call.dispatched] == Final(w, trace);
  }

  lemma OpensAsAsked(w: World, id: int, deal: string, status: string) returns (n: World)
    requires id in w.records && w.records[id].lifecycle == Submitted && |deal| > 0 && NonBlank(status)
    requires w.creates != [] && w.creates[|w.creates| - 1] == CallOf(w.records[id].request)
    ensures n == Final(w, OpenTrace(w, id, Returns(Some(Filled(Asked(w), deal, status))), Returns([Listed(Asked(w), deal)])))
    ensures OnlyRecord(w, n, id) && n.records[id].lifecycle == OpenReconciled
    ensures n.records[id].position == Some(Listed(Asked(w), deal))
    ensures n.creates == w.creates && n.posts == w.posts && n.closes == w.closes && n.openings == w.openings + multiset{id}
  {
    var c, ps := Filled(Asked(w), deal, status), [Listed(Asked(w), deal)];
    n := Final(w, OpenTrace(w, id, Returns(Some(c)), Returns(ps)));
    ReconciledOpenEnds(w, id, Returns(Some(c)), Returns(ps));
    assert OpeningFill(w.records[id].request, c);
    assert IsTheDeal(ps, 0, w.records[id].request, c);
    assert OneDeal(ps, w.records[id].request, c);
  }

  lemma ClosesAsAsked(w: World, id: int, g: Gate, status: string) returns (m: World, n: World)
    requires id in w.records && w.records[id].lifecycle == OpenReconciled && w.records[id].position.Some?
    requires ClosingFacts(g, w.records[id].request) && NonBlank(status)
    ensures var order := CloseOrderOf(w.records[id]);
            && m == Final(w, CloseTrace(w, id, g, Returns(Submission(order.dealReference, None))))
            && n == Final(m, CloseReconcileTrace(m, id, Returns(Some(ClosedOut(order, w.records[id].position.value.epic, status))),
                                                 Returns([])))
    ensures OnlyRecord(w, m, id) && m.records[id].lifecycle == CloseRequested && m.closes == w.closes + multiset{id}
    ensures OnlyRecord(m, n, id) && n.records[id].lifecycle == ClosedReconciled
    ensures n.creates == w.creates && n.posts == w.posts && n.closes == m.closes && n.openings == w.openings
  {
    var order := CloseOrderOf(w.records[id]);
    GateMeans(g, w.records[id].request);
    RequestedCloseEnds(w, id, g, Returns(Submission(order.dealReference, None)));
    m := Final(w, CloseTrace(w, id, g, Returns(Submission(order.dealReference, None))));
    var c := ClosedOut(order, w.records[id].position.value.epic, status);
    n := Final(m, CloseReconcileTrace(m, id, Returns(Some(c)), Returns([])));
    ReconciledCloseEnds(m, id, Returns(Some(c)), Returns([]));
    assert ClosingFill(m.records[id], c);
  }

  /** Nothing but the records of one intent changed, and that record is this request's in this lifecycle. */
  ghost predicate Reaches(w: World, n: World, r: Request, to: Lifecycle) {
    && r.intentId in n.records && n.records[r.intentId].request == r && n.records[r.intentId].lifecycle == to
    && forall other :: other in w.records && other != r.intentId ==>
         other in n.records && n.records[other] == w.records[other]
  }

  lemma Opens(w: World, step: Step, closing: Gate, maxRetries: int, deal: string, status: string)
    returns (sent: World, open: World)
    requires Opportunity(w, step, closing, maxRetries, deal, status)
    ensures sent == Final(w, TraceOf(w, step, maxRetries)) && sent.creates != []
    ensures var id, asked := step.r.intentId, Asked(sent);
            && open == Final(sent, OpenTrace(sent, id, Returns(Some(Filled(asked, deal, status))), Returns([Listed(asked, deal)])))
            && asked == OrderOf(step.r)
            && id in open.records && open.records[id].position == Some(Listed(asked, deal))
    ensures Reaches(w, sent, step.r, Submitted) && Reaches(w, open, step.r, OpenReconciled)
    ensures open.creates == w.creates + [CallOf(step.r)] && |open.posts| == |w.posts| + 1
    ensures open.closes == w.closes && open.openings == w.openings + multiset{step.r.intentId}
  {
    sent := Submits(w, step, closing, maxRetries, deal, status);
    open := OpensAsAsked(sent, step.r.intentId, deal, status);
  }

  lemma ReachesOn(w: World, n: World, m: World, r: Request, from: Lifecycle)
    requires Reaches(w, n, r, from) && OnlyRecord(n, m, r.intentId)
    ensures Reaches(w, m, r, m.records[r.intentId].lifecycle)
  {
  }

  /**
   An admissible request under open gates, with a broker that acknowledges it, fills exactly what the
   create call asked, lists the deal, fills exactly what the close order asks and lists it no more: the
   record is submitted, opened, close-requested and closed, by one create call, one POST and one close
   call, and no other record changes.
   */
  lemma WholeLife(w: World, step: Step, closing: Gate, maxRetries: int, deal: string, status: string)
    returns (sent: World, open: World, asked: World, closed: World)
    requires Opportunity(w, step, closing, maxRetries, deal, status)
    ensures sent == Final(w, TraceOf(w, step, maxRetries)) && sent.creates != []
    ensures open == Final(sent, OpenTrace(sent, step.r.intentId, Returns(Some(Filled(Asked(sent), deal, status))),
                                          Returns([Listed(Asked(sent), deal)])))
    ensures step.r.intentId in open.records && open.records[step.r.intentId].position.Some?
    ensures var order := CloseOrderOf(open.records[step.r.intentId]);
            && asked == Final(open, CloseTrace(open, step.r.intentId, closing, Returns(Submission(order.dealReference, None))))
            && closed == Final(asked, CloseReconcileTrace(asked, step.r.intentId,
                                                          Returns(Some(ClosedOut(order, step.r.epic, status))), Returns([])))
            && order.dealId == deal
            && Signed(Asked(sent).direction, Asked(sent).size) + Signed(order.direction, order.size) == 0.0
    ensures Reaches(w, sent, step.r, Submitted) && Reaches(w, open, step.r, OpenReconciled)
    ensures Reaches(w, asked, step.r, CloseRequested) && Reaches(w, closed, step.r, ClosedReconciled)
    ensures closed.creates == w.creates + [CallOf(step.r)] && |closed.posts| == |w.posts| + 1
    ensures closed.closes == w.closes + multiset{step.r.intentId}
    ensures closed.openings == w.openings + multiset{step.r.intentId}
  {
    var id := step.r.intentId;
    sent, open := Opens(w, step, closing, maxRetries, deal, status);
    asked, closed := ClosesAsAsked(open, id, closing, status);
    ReachesOn(w, open, asked, step.r, OpenReconciled);
    ReachesOn(w, asked, closed, step.r, CloseRequested);
  }
}
