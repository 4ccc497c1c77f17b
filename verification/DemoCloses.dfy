/**
 Close calls over whole runs: each follows its own opening, unless a crash fell between an earlier
 close call and the write of its outcome.
 */
module DemoCloses {
  import opened Outcomes
  import opened Decimals
  import opened DemoExecution
  import opened DemoSafety
  import HttpClient

  // ---------------------------------------------------------------- crashes inside request_close

  /** The step makes a close call on this record, if it gets as far. */
  predicate CloseDue(w: World, step: Step, id: int) {
    step.CloseStep? && step.id == id && CloseGuard(w.records, id, step.g).None?
  }

  /** The step makes a close call and stops before the write of its outcome. */
  predicate CrashedClose(w: World, step: Step, id: int) {
    CloseDue(w, step, id) && step.effects == 1
  }

  /** How many of the first i steps did. */
  ghost function Crashes(run: seq<World>, steps: seq<Step>, i: nat, id: int): nat
    requires i <= |steps| && |run| == |steps| + 1
  {
    if i == 0 then 0
    else Crashes(run, steps, i - 1, id) + if CrashedClose(run[i - 1], steps[i - 1], id) then 1 else 0
  }

  /** The state between the close call of step i and the write of its outcome. */
  ghost predicate Between(run: seq<World>, steps: seq<Step>, i: nat, w: World, id: int)
    requires |run| == |steps| + 1
  {
    && i < |steps| && CloseDue(run[i], steps[i], id)
    && w == CloseTrace(run[i], id, steps[i].g, steps[i].reply)[0]
  }

  lemma SubmitKeepsUnwritten(w: World, step: Step, maxRetries: int, k: nat)
    requires step.SubmitStep? && Runnable(step, maxRetries) && k < |TraceOf(w, step, maxRetries)|
    ensures TraceOf(w, step, maxRetries)[k].unwritten == w.unwritten
  {
  }

  /** Inside one step, an outcome is unwritten exactly between a close call and the write after it. */
  lemma TraceUnwritten(w: World, step: Step, maxRetries: int, k: nat, id: int)
    requires Runnable(step, maxRetries) && k < |TraceOf(w, step, maxRetries)|
    ensures TraceOf(w, step, maxRetries)[k].unwritten[id]
            == w.unwritten[id] + if CloseDue(w, step, id) && k == 0 then 1 else 0
  {
    if step.SubmitStep? {
      SubmitKeepsUnwritten(w, step, maxRetries, k);
    }
  }

  /** A step that makes a close call has two durable effects; stopped after one, it crashed in between. */
  lemma CloseHasTwo(w: World, step: Step, maxRetries: int, id: int)
    requires Runnable(step, maxRetries) && CloseDue(w, step, id)
    ensures var trace := TraceOf(w, step, maxRetries);
            && |trace| == 2
            && After(w, step, maxRetries) == if step.effects == 0 then w else if step.effects == 1 then trace[0] else trace[1]
  {
  }

  lemma DueUnwritten(w: World, step: Step, maxRetries: int, id: int)
    requires Runnable(step, maxRetries) && CloseDue(w, step, id)
    ensures After(w, step, maxRetries).unwritten[id] == w.unwritten[id] + if step.effects == 1 then 1 else 0
  {
    CloseHasTwo(w, step, maxRetries, id);
    TraceUnwritten(w, step, maxRetries, 0, id);
    TraceUnwritten(w, step, maxRetries, 1, id);
  }

  lemma OtherUnwritten(w: World, step: Step, maxRetries: int, id: int)
    requires Runnable(step, maxRetries) && !CloseDue(w, step, id)
    ensures After(w, step, maxRetries).unwritten[id] == w.unwritten[id]
  {
    var taken := Taken(w, step, maxRetries);
    if taken > 0 {
      TraceUnwritten(w, step, maxRetries, taken - 1, id);
    }
  }

  lemma StepUnwritten(w: World, step: Step, maxRetries: int, id: int)
    requires Runnable(step, maxRetries)
    ensures After(w, step, maxRetries).unwritten[id] == w.unwritten[id] + if CrashedClose(w, step, id) then 1 else 0
  {
    if CloseDue(w, step, id) {
      DueUnwritten(w, step, maxRetries, id);
    } else {
      OtherUnwritten(w, step, maxRetries, id);
    }
  }

  ghost predicate CrashCounted(w: World, step: Step, n: World, id: int) {
    n.unwritten[id] == w.unwritten[id] + if CrashedClose(w, step, id) then 1 else 0
  }

  lemma {:induction false} CrashesAddUp(run: seq<World>, steps: seq<Step>, i: nat, id: int)
    requires i <= |steps| && |run| == |steps| + 1 && run[0].unwritten[id] == 0
    requires forall k :: 0 <= k < i ==> CrashCounted(run[k], steps[k], run[k + 1], id)
    ensures run[i].unwritten[id] == Crashes(run, steps, i, id)
  {
    if i > 0 {
      CrashesAddUp(run, steps, i - 1, id);
      assert CrashCounted(run[i - 1], steps[i - 1], run[i - 1 + 1], id);
    }
  }

  lemma RunUnwritten(run: seq<World>, steps: seq<Step>, maxRetries: int, i: nat, id: int)
    requires IsRun(run, steps, maxRetries) && i < |run|
    ensures run[i].unwritten[id] == Crashes(run, steps, i, id)
  {
    forall k | 0 <= k < i
      ensures CrashCounted(run[k], steps[k], run[k + 1], id)
    {
      LeadsAt(run, steps, maxRetries, k);
      StepUnwritten(run[k], steps[k], maxRetries, id);
    }
    CrashesAddUp(run, steps, i, id);
  }

  lemma PassedUnwritten(w: World, step: Step, maxRetries: int, n: World, id: int)
    requires Runnable(step, maxRetries) && n in TraceOf(w, step, maxRetries)
    ensures n.unwritten[id] == w.unwritten[id]
            + if CloseDue(w, step, id) && n == CloseTrace(w, id, step.g, step.reply)[0] then 1 else 0
  {
    var k :| 0 <= k < |TraceOf(w, step, maxRetries)| && TraceOf(w, step, maxRetries)[k] == n;
    TraceUnwritten(w, step, maxRetries, k, id);
    if CloseDue(w, step, id) {
      TraceUnwritten(w, step, maxRetries, 0, id);
      CloseHasTwo(w, step, maxRetries, id);
    }
  }

  lemma DurableUnwritten(run: seq<World>, steps: seq<Step>, maxRetries: int, i: nat, w: World, id: int)
    requires DurableAt(run, steps, maxRetries, i, w)
    ensures w.unwritten[id] == Crashes(run, steps, i, id) + if Between(run, steps, i, w, id) then 1 else 0
  {
    RunUnwritten(run, steps, maxRetries, i, id);
    if i < |steps| {
      LeadsAt(run, steps, maxRetries, i);
      if w in TraceOf(run[i], steps[i], maxRetries) {
        PassedUnwritten(run[i], steps[i], maxRetries, w, id);
      } else if CloseDue(run[i], steps[i], id) {
        CloseHasTwo(run[i], steps[i], maxRetries, id);
      }
    }
  }

  /**
   In every durable state of every run, close calls are openings less what is still open, plus the
   close calls whose outcome was never written; and those are the steps that crashed between the two,
   with the call now in progress.
   */
  lemma ClosesFollowOpenings(run: seq<World>, steps: seq<Step>, maxRetries: int, i: nat, w: World, id: int)
    requires DurableAt(run, steps, maxRetries, i, w)
    ensures w.closes[id] == w.openings[id] - IsOpen(w, id) + w.unwritten[id]
    ensures w.unwritten[id] == Crashes(run, steps, i, id) + if Between(run, steps, i, w, id) then 1 else 0
  {
    DurableInv(run, steps, maxRetries, i, w);
    DurableUnwritten(run, steps, maxRetries, i, w, id);
  }

  /** Without such a crash there is never a close call without its opening, and every outcome is written. */
  lemma CloseCallsNeverExceed(run: seq<World>, steps: seq<Step>, maxRetries: int, i: nat, w: World, id: int)
    requires DurableAt(run, steps, maxRetries, i, w)
    requires forall k :: 0 <= k < i ==> !CrashedClose(run[k], steps[k], id)
    ensures w.closes[id] <= w.openings[id]
    ensures !Between(run, steps, i, w, id) ==>
              w.unwritten[id] == 0 && w.closes[id] + IsOpen(w, id) == w.openings[id]
  {
    ClosesFollowOpenings(run, steps, maxRetries, i, w, id);
    NoCrashes(run, steps, i, id);
    if Between(run, steps, i, w, id) {
      assert w.records == run[i].records;
    }
  }

  lemma {:induction false} NoCrashes(run: seq<World>, steps: seq<Step>, i: nat, id: int)
    requires i <= |steps| && |run| == |steps| + 1
    requires forall k :: 0 <= k < i ==> !CrashedClose(run[k], steps[k], id)
    ensures Crashes(run, steps, i, id) == 0
  {
    if i > 0 {
      NoCrashes(run, steps, i - 1, id);
    }
  }

  // ---------------------------------------------------------------- the order of openings and close calls

  lemma OutcomeNeverOpens(w: World, r: Request, answer: Option<Option<Submission>>, id: int)
    requires r.intentId in w.records
    ensures IsOpen(SubmitOutcome(w, r, answer), id) <= IsOpen(w, id)
  {
  }

  lemma DispatchNeverOpens(w: World, r: Request, maxRetries: int, script: Script, k: nat, id: int)
    requires r.intentId in w.records && maxRetries <= |script| && k < |DispatchTrace(w, r, maxRetries, script)|
    ensures IsOpen(DispatchTrace(w, r, maxRetries, script)[k], id) <= IsOpen(w, id)
  {
    var w1 := Moved(w, r.intentId, Submitting);
    var call := HttpClient.From(maxRetries, script, 1);
    var sent := w1.(creates := w1.creates + [CallOf(r)], posts := w1.posts + Copies(CallOf(r), call.dispatched));
    OutcomeNeverOpens(sent, r, call.outcome, id);
    assert IsOpen(w1, id) <= IsOpen(w, id);
    if k < 2 + call.dispatched {
      assert DispatchTrace(w, r, maxRetries, script)[k].records == w1.records;
    }
  }

  lemma SubmitNeverOpens(w: World, step: Step, maxRetries: int, k: nat, id: int)
    requires step.SubmitStep? && Runnable(step, maxRetries) && k < |TraceOf(w, step, maxRetries)|
    ensures IsOpen(TraceOf(w, step, maxRetries)[k], id) <= IsOpen(w, id)
  {
    var from, j := SubmitPasses(w, step, maxRetries, k);
    assert IsOpen(from, id) <= IsOpen(w, id);
    if j >= 0 {
      DispatchNeverOpens(from, step.r, maxRetries, step.script, j, id);
    }
  }

  lemma CloseNeverOpens(w: World, step: Step, maxRetries: int, k: nat, id: int)
    requires (step.CloseStep? || step.CloseReconcileStep?) && k < |TraceOf(w, step, maxRetries)|
    ensures IsOpen(TraceOf(w, step, maxRetries)[k], id) <= IsOpen(w, id)
  {
  }

  lemma ReconciliationOpens(w: World, step: Step, maxRetries: int, k: nat, id: int)
    requires step.OpenStep? && k < |TraceOf(w, step, maxRetries)|
    ensures var n := TraceOf(w, step, maxRetries)[k];
            IsOpen(n, id) > IsOpen(w, id) ==> step.id == id && n.openings[id] == w.openings[id] + 1
  {
  }

  /** A record becomes OPEN_RECONCILED only in an open reconciliation of its own, which counts an opening. */
  lemma OpensOnlyByReconciliation(w: World, step: Step, maxRetries: int, id: int)
    requires Runnable(step, maxRetries) && IsOpen(w, id) < IsOpen(After(w, step, maxRetries), id)
    ensures step.OpenStep? && step.id == id
    ensures After(w, step, maxRetries).openings[id] == w.openings[id] + 1
  {
    var taken := Taken(w, step, maxRetries);
    assert taken > 0;
    match step
    case SubmitStep(_, _, _, _, _, _) => SubmitNeverOpens(w, step, maxRetries, taken - 1, id);
    case OpenStep(_, _, _, _) => ReconciliationOpens(w, step, maxRetries, taken - 1, id);
    case _ => CloseNeverOpens(w, step, maxRetries, taken - 1, id);
  }

  /** A step that reconciles this record's opening. */
  ghost predicate Opens(run: seq<World>, steps: seq<Step>, c: nat, id: int) {
    && c < |steps| && |run| == |steps| + 1 && steps[c].OpenStep? && steps[c].id == id
    && run[c + 1].openings[id] == run[c].openings[id] + 1
  }

  lemma OpensAt(run: seq<World>, steps: seq<Step>, maxRetries: int, c: nat, id: int)
    requires IsRun(run, steps, maxRetries) && c < |steps| && IsOpen(run[c], id) < IsOpen(run[c + 1], id)
    ensures Opens(run, steps, c, id)
  {
    LeadsAt(run, steps, maxRetries, c);
    OpensOnlyByReconciliation(run[c], steps[c], maxRetries, id);
  }

  /** Where a sequence that ends higher rises. */
  lemma {:induction false} Rises(values: seq<int>, from: nat, b: nat) returns (c: nat)
    requires from <= b < |values| && values[from] < values[b]
    ensures from <= c < b && values[c] < values[c + 1]
    decreases b
  {
    c := b - 1;
    if values[c] >= values[b] {
      c := Rises(values, from, b - 1);
    }
  }

  lemma OpeningBefore(run: seq<World>, steps: seq<Step>, maxRetries: int, from: nat, b: nat, id: int) returns (c: nat)
    requires IsRun(run, steps, maxRetries) && from <= b < |run|
    requires IsOpen(run[from], id) < IsOpen(run[b], id)
    ensures from <= c < b && Opens(run, steps, c, id)
  {
    c := Rises(seq(|run|, i requires 0 <= i < |run| => IsOpen(run[i], id)), from, b);
    OpensAt(run, steps, maxRetries, c, id);
  }

  lemma DueIsOpen(w: World, step: Step, id: int)
    requires CloseDue(w, step, id)
    ensures IsOpen(w, id) == 1
  {
  }

  lemma WrittenIsNotOpen(run: seq<World>, steps: seq<Step>, maxRetries: int, a: nat, id: int)
    requires IsRun(run, steps, maxRetries) && a < |steps| && CloseDue(run[a], steps[a], id) && steps[a].effects >= 2
    ensures IsOpen(run[a + 1], id) == 0
  {
    LeadsAt(run, steps, maxRetries, a);
    CloseHasTwo(run[a], steps[a], maxRetries, id);
  }

  /**
   Each close call has its own opening: before the first (a = -1) there is an open reconciliation of
   that record, and between any two, unless the earlier one crashed before its outcome was written.
   */
  lemma EachCloseHasItsOpening(run: seq<World>, steps: seq<Step>, maxRetries: int, a: int, b: nat, id: int)
    returns (c: nat)
    requires IsRun(run, steps, maxRetries) && -1 <= a < b < |steps| && CloseDue(run[b], steps[b], id)
    requires a >= 0 ==> CloseDue(run[a], steps[a], id) && steps[a].effects >= 2
    ensures a < c < b && Opens(run, steps, c, id)
  {
    DueIsOpen(run[b], steps[b], id);
    if a >= 0 {
      WrittenIsNotOpen(run, steps, maxRetries, a, id);
    }
    c := OpeningBefore(run, steps, maxRetries, a + 1, b, id);
  }

  // ---------------------------------------------------------------- one opening, two close calls

  const ONE: Decimal := (assert FitsDecimalPlaces(1.0, 0); 1.0)

  function Order(): Request {
    Request(1, 1, "EPIC", Buy, ONE, "EUR", "DFB", Market, true, false, Some(ONE), None, Some(ONE), None,
            "REF", "policy", RiskApproval("policy", true, 0), 1, 0)
  }

  function OpenMarket(): Metadata {
    Metadata("EPIC", Some("EUR"), Some("DFB"), Some(ONE), Some(0), Some(ONE), Some(ONE), Some(false),
             Some("TRADEABLE"), Some(0))
  }

  function OpenGate(): Gate {
    Gate(true, true, Some("IG_DEMO"), Some("Z"), Some("Z"), true, Some(1), Some(0), Some(1), {"EPIC"}, true)
  }

  function Fill(): Confirmation {
    Confirmation("REF", Some("DEAL"), Accepted, "OPEN", Some("EPIC"), Some(Buy), Some(ONE), None, None, None)
  }

  function Held(): Position {
    Position("DEAL", "EPIC", Buy, ONE)
  }

  lemma OrderPasses()
    ensures MetadataAllows(Some(OpenMarket()), Order(), 0)
    ensures GateAllows(OpenGate(), Order(), true) && GateAllows(OpenGate(), Order(), false)
    ensures AcceptedMatches(Order(), Fill())
  {
    assert FitsDecimalPlaces(1.0, 0);
    assert OpenMarket().epic[0] != ' ' && OpenGate().expectedAccount.value[0] != ' ' && Fill().status[0] != ' ';
  }

  /** Submitted, then reconciled open, then a close call made and, after the restart, made again. */
  function Sent(): World {
    World(map[1 := ExecutionRecord(Order(), Submitted, Some(Submission("REF", None)), None, None, None)],
          [CallOf(Order())], [CallOf(Order())], multiset{}, multiset{}, multiset{})
  }

  function Opened(): World {
    Sent().(records := map[1 := ExecutionRecord(Order(), OpenReconciled, Some(Submission("REF", None)),
                                                Some(Fill()), Some(Held()), None)],
            openings := multiset{1})
  }

  function Interrupted(): World {
    Opened().(closes := multiset{1}, unwritten := multiset{1})
  }

  function SubmitOnce(): Step {
    SubmitStep(Order(), Some(OpenMarket()), OpenGate(), 0, [HttpClient.Response(Some(Submission("REF", None)))], 5)
  }

  function ReconcileOnce(): Step {
    OpenStep(1, Returns(Some(Fill())), Returns([Held()]), 2)
  }

  lemma SubmitSends()
    ensures After(EMPTY, SubmitOnce(), 1) == Sent()
  {
    OrderPasses();
    var e := ExecutionRecord(Order(), Prepared, None, None, None, None);
    assert Prepare(EMPTY.records, Order(), Some(OpenMarket()), OpenGate(), 0) == Stored(e);
    DispatchSends(With(EMPTY, e));
    var rest := DispatchTrace(With(EMPTY, e), Order(), 1, SubmitOnce().script);
    assert TraceOf(EMPTY, SubmitOnce(), 1) == [With(EMPTY, e)] + rest;
  }

  lemma DispatchSends(w: World)
    requires w.records == map[1 := ExecutionRecord(Order(), Prepared, None, None, None, None)]
    requires w.creates == [] && w.posts == [] && w.closes == w.openings == w.unwritten == multiset{}
    ensures var trace := DispatchTrace(w, Order(), 1, SubmitOnce().script); |trace| == 4 && trace[3] == Sent()
  {
    assert HttpClient.From(1, SubmitOnce().script, 1) == HttpClient.Call(1, Some(Some(Submission("REF", None))));
    assert [] + Copies(CallOf(Order()), 1) == [CallOf(Order())];
    assert DispatchTrace(w, Order(), 1, SubmitOnce().script)[3].records == Sent().records;
  }

  lemma ReconcileOpens()
    ensures After(Sent(), ReconcileOnce(), 1) == Opened()
  {
    OrderPasses();
    assert MatchingPositions([Held()], Fill(), Order()) == [Held()];
    assert After(Sent(), ReconcileOnce(), 1).records == Opened().records;
  }

  lemma CloseInterrupted()
    ensures After(Opened(), CloseStep(1, OpenGate(), Raises, 1), 1) == Interrupted()
    ensures CrashedClose(Opened(), CloseStep(1, OpenGate(), Raises, 1), 1)
    ensures var again := After(Interrupted(), CloseStep(1, OpenGate(), Raises, 2), 1);
            again.closes[1] == 2 && again.openings[1] == 1
  {
    OrderPasses();
  }

  lemma OpenedRun() returns (run: seq<World>, steps: seq<Step>)
    ensures IsRun(run, steps, 1) && |steps| == 2 && run[2] == Opened()
    ensures !steps[0].CloseStep? && !steps[1].CloseStep?
  {
    SubmitSends();
    run, steps := Extended([EMPTY], [], 1, SubmitOnce(), Sent());
    ReconcileOpens();
    run, steps := Extended(run, steps, 1, ReconcileOnce(), Opened());
  }

  /** A run from the empty store, with one crash, in which one opening carries two close calls. */
  lemma InterruptedCloseRepeats() returns (run: seq<World>, steps: seq<Step>)
    ensures IsRun(run, steps, 1) && |steps| == 4 && Crashes(run, steps, 4, 1) == 1
    ensures run[4].closes[1] == 2 && run[4].openings[1] == 1
  {
    var repeated := CloseStep(1, OpenGate(), Raises, 2);
    CloseInterrupted();
    run, steps := InterruptedRun();
    run, steps := Extended(run, steps, 1, repeated, After(Interrupted(), repeated, 1));
    CountOne(run, steps);
  }

  lemma InterruptedRun() returns (run: seq<World>, steps: seq<Step>)
    ensures IsRun(run, steps, 1) && |steps| == 3 && run[3] == Interrupted() && CrashedClose(run[2], steps[2], 1)
    ensures !steps[0].CloseStep? && !steps[1].CloseStep?
  {
    var crashed := CloseStep(1, OpenGate(), Raises, 1);
    CloseInterrupted();
    run, steps := OpenedRun();
    run, steps := Extended(run, steps, 1, crashed, Interrupted());
  }

  lemma CountOne(run: seq<World>, steps: seq<Step>)
    requires |steps| == 4 && |run| == 5 && CrashedClose(run[2], steps[2], 1)
    requires !steps[0].CloseStep? && !steps[1].CloseStep? && steps[3].CloseStep? && steps[3].effects != 1
    ensures Crashes(run, steps, 4, 1) == 1
  {
    assert Crashes(run, steps, 1, 1) == 0;
    assert Crashes(run, steps, 2, 1) == 0;
    assert Crashes(run, steps, 3, 1) == 1;
  }
}
