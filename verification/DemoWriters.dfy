/**
 Several writers over one dealing store, their operations interleaved effect by effect. An operation
 reads its record when it begins and works on that copy; a write replaces whatever is stored by then.
 Nothing in the store or in the worker registry keeps two operations apart.
 */
module DemoWriters {
  import opened Outcomes
  import opened DemoExecution
  import opened DemoSafety
  import opened DemoCloses
  import opened Runs
  import HttpClient

  /** An operation under way: the state it began in, its durable effects as planned there, and how many have happened. */
  datatype Ongoing = Ongoing(base: World, step: Step, plan: seq<World>, done: nat)

  datatype Shared = Shared(world: World, ongoing: map<nat, Ongoing>)

  /** Stop ends an operation, finished or crashed. */
  datatype Move = Begin(writer: nat, step: Step) | Proceed(writer: nat) | Stop(writer: nat)

  function Rest<T(==)>(a: seq<T>, b: seq<T>): seq<T> {
    if a <= b then b[|a|..] else []
  }

  /** The effect that leads from prev to next, in the world as it is by then. */
  function Merged(w: World, prev: World, next: World, id: int): World {
    World(if id in next.records && next.records != prev.records then w.records[id := next.records[id]] else w.records,
          w.creates + Rest(prev.creates, next.creates), w.posts + Rest(prev.posts, next.posts),
          w.closes + (next.closes - prev.closes), w.openings + (next.openings - prev.openings),
          w.unwritten + (next.unwritten - prev.unwritten) - (prev.unwritten - next.unwritten))
  }

  /** The state the operation believes it is in. */
  function Before(o: Ongoing): World
    requires o.done <= |o.plan|
  {
    if o.done == 0 then o.base else o.plan[o.done - 1]
  }

  datatype Turn = Goes(world: World) | Ends

  /** One effect: a put finds the intent known or its reference taken, a replace needs the same request, or the call ends. */
  function Effect(w: World, prev: World, next: World, id: int): Turn {
    if id in prev.records then
      if next.records != prev.records && id in next.records
         && (id !in w.records || w.records[id].request != next.records[id].request) then Ends
      else Goes(Merged(w, prev, next, id))
    else if id in w.records then
      if id in next.records && w.records[id].request == next.records[id].request && w.records[id].lifecycle == Prepared
      then Goes(w) else Ends
    else if id in next.records && ReferenceTaken(w.records, next.records[id].request) then Ends
    else Goes(Merged(w, prev, next, id))
  }

  function Turned(s: Shared, p: nat, turn: Turn): Shared
    requires p in s.ongoing
  {
    match turn
    case Ends => s.(ongoing := s.ongoing - {p})
    case Goes(w) => Shared(w, s.ongoing[p := s.ongoing[p].(done := s.ongoing[p].done + 1)])
  }

  predicate Sound(s: Shared) {
    forall p :: p in s.ongoing ==> s.ongoing[p].done <= |s.ongoing[p].plan|
  }

  function Proceeded(s: Shared, p: nat): Shared
    requires p in s.ongoing && s.ongoing[p].done <= |s.ongoing[p].plan|
  {
    var o := s.ongoing[p];
    if o.done == |o.plan| then s else Turned(s, p, Effect(s.world, Before(o), o.plan[o.done], Target(o.step)))
  }

  predicate Enabled(s: Shared, move: Move, maxRetries: int) {
    match move
    case Begin(p, step) => p !in s.ongoing && Runnable(step, maxRetries)
    case Proceed(p) => p in s.ongoing
    case Stop(p) => p in s.ongoing
  }

  function Started(s: Shared, step: Step, maxRetries: int): Ongoing
    requires Runnable(step, maxRetries)
  {
    Ongoing(s.world, step, TraceOf(s.world, step, maxRetries), 0)
  }

  function Next(s: Shared, move: Move, maxRetries: int): (n: Shared)
    requires Sound(s) && Enabled(s, move, maxRetries)
    ensures Sound(n)
  {
    match move
    case Begin(p, step) => s.(ongoing := s.ongoing[p := Started(s, step, maxRetries)])
    case Stop(p) => s.(ongoing := s.ongoing - {p})
    case Proceed(p) => Proceeded(s, p)
  }

  ghost predicate Moves(s: Shared, move: Move, n: Shared, maxRetries: int) {
    Sound(s) && Enabled(s, move, maxRetries) && n == Next(s, move, maxRetries)
  }

  ghost function MovesBy(maxRetries: int): (Shared, Move, Shared) -> bool {
    (s, move, n) => Moves(s, move, n, maxRetries)
  }

  ghost predicate IsSharedRun(run: seq<Shared>, moves: seq<Move>, maxRetries: int) {
    Chained(run, moves, MovesBy(maxRetries)) && run[0] == Shared(EMPTY, map[])
  }

  lemma MovesAt(run: seq<Shared>, moves: seq<Move>, maxRetries: int, i: nat)
    requires IsSharedRun(run, moves, maxRetries) && i < |moves|
    ensures Moves(run[i], moves[i], run[i + 1], maxRetries)
  {
    assert MovesBy(maxRetries)(run[i], moves[i], run[i + 1]);
  }

  ghost predicate AtMostAtOnce(run: seq<Shared>, limit: nat) {
    forall i :: 0 <= i < |run| ==> |run[i].ongoing| <= limit
  }

  // ---------------------------------------------------------------- what one effect changes

  /** From one durable state of an operation to the next, histories grow and no record but its own changes. */
  ghost predicate OneEffect(prev: World, next: World, id: int) {
    && id in next.records
    && (next.records == prev.records || next.records == prev.records[id := next.records[id]])
    && prev.creates <= next.creates && prev.posts <= next.posts
    && prev.closes <= next.closes && prev.openings <= next.openings
  }

  lemma MergedInTurn(prev: World, next: World, id: int)
    requires OneEffect(prev, next, id)
    ensures Merged(prev, prev, next, id) == next
  {
    assert prev.creates + next.creates[|prev.creates|..] == next.creates;
    assert prev.posts + next.posts[|prev.posts|..] == next.posts;
    assert prev.closes + (next.closes - prev.closes) == next.closes;
    assert prev.openings + (next.openings - prev.openings) == next.openings;
    assert prev.unwritten + (next.unwritten - prev.unwritten) - (prev.unwritten - next.unwritten) == next.unwritten;
  }

  lemma PostsGrow(posts: seq<CreateCall>, c: CreateCall, a: nat, b: nat)
    requires a <= b
    ensures posts + Copies(c, a) <= posts + Copies(c, b)
    ensures posts <= posts + Copies(c, a)
  {
  }

  lemma DispatchEffect(w: World, r: Request, maxRetries: int, script: Script, k: nat)
    requires r.intentId in w.records && maxRetries <= |script| && k < |DispatchTrace(w, r, maxRetries, script)|
    ensures OneEffect(if k == 0 then w else DispatchTrace(w, r, maxRetries, script)[k - 1],
                      DispatchTrace(w, r, maxRetries, script)[k], r.intentId)
  {
    var w1 := Moved(w, r.intentId, Submitting);
    var w2 := w1.(creates := w1.creates + [CallOf(r)]);
    var call := HttpClient.From(maxRetries, script, 1);
    var sent := w2.(posts := w2.posts + Copies(CallOf(r), call.dispatched));
    var trace := DispatchTrace(w, r, maxRetries, script);
    PostsGrow(w2.posts, CallOf(r), if 2 <= k < 2 + call.dispatched then k - 2 else 0,
              if 2 <= k < 2 + call.dispatched then k - 1 else 0);
    if k == 2 + call.dispatched {
      assert trace[k] == SubmitOutcome(sent, r, call.outcome);
      assert trace[k - 1] == sent by {
        assert w2.posts + Copies(CallOf(r), 0) == w2.posts;
      }
    }
  }

  lemma SubmitEffect(w: World, step: Step, maxRetries: int, k: nat)
    requires step.SubmitStep? && Runnable(step, maxRetries) && k < |TraceOf(w, step, maxRetries)|
    ensures OneEffect(if k == 0 then w else TraceOf(w, step, maxRetries)[k - 1], TraceOf(w, step, maxRetries)[k], Target(step))
  {
    var from, j := SubmitPasses(w, step, maxRetries, k);
    if j >= 0 {
      DispatchEffect(from, step.r, maxRetries, step.script, j);
      if k > 0 {
        var from', j' := SubmitPasses(w, step, maxRetries, k - 1);
      }
    }
  }

  lemma OpenEffect(w: World, step: Step, maxRetries: int, k: nat)
    requires step.OpenStep? && k < |TraceOf(w, step, maxRetries)|
    ensures OneEffect(if k == 0 then w else TraceOf(w, step, maxRetries)[k - 1], TraceOf(w, step, maxRetries)[k], Target(step))
  {
  }

  lemma CloseEffect(w: World, step: Step, maxRetries: int, k: nat)
    requires step.CloseStep? && k < |TraceOf(w, step, maxRetries)|
    ensures OneEffect(if k == 0 then w else TraceOf(w, step, maxRetries)[k - 1], TraceOf(w, step, maxRetries)[k], Target(step))
  {
  }

  lemma CloseReconcileEffect(w: World, step: Step, maxRetries: int, k: nat)
    requires step.CloseReconcileStep? && k < |TraceOf(w, step, maxRetries)|
    ensures OneEffect(if k == 0 then w else TraceOf(w, step, maxRetries)[k - 1], TraceOf(w, step, maxRetries)[k], Target(step))
  {
  }

  lemma TraceEffect(w: World, step: Step, maxRetries: int, k: nat)
    requires Runnable(step, maxRetries) && k < |TraceOf(w, step, maxRetries)|
    ensures OneEffect(if k == 0 then w else TraceOf(w, step, maxRetries)[k - 1], TraceOf(w, step, maxRetries)[k], Target(step))
  {
    match step
    case SubmitStep(_, _, _, _, _, _) => SubmitEffect(w, step, maxRetries, k);
    case OpenStep(_, _, _, _) => OpenEffect(w, step, maxRetries, k);
    case CloseStep(_, _, _, _) => CloseEffect(w, step, maxRetries, k);
    case CloseReconcileStep(_, _, _, _) => CloseReconcileEffect(w, step, maxRetries, k);
  }

  // ---------------------------------------------------------------- one writer at a time

  /** The plan is what the core does from the base. */
  ghost predicate Planned(o: Ongoing, maxRetries: int) {
    Runnable(o.step, maxRetries) && o.plan == TraceOf(o.base, o.step, maxRetries) && o.done <= |o.plan|
  }

  /** The operation is the only one, and the world is where it believes to be. */
  ghost predicate InTurn(s: Shared, maxRetries: int) {
    forall p :: p in s.ongoing ==>
      |s.ongoing| == 1 && Planned(s.ongoing[p], maxRetries) && s.world == Before(s.ongoing[p])
  }

  /** A put in its turn finds neither the intent nor its reference. */
  lemma PutIsNew(w: World, step: Step, maxRetries: int)
    requires Runnable(step, maxRetries) && TraceOf(w, step, maxRetries) != [] && Target(step) !in w.records
    ensures step.SubmitStep? && !ReferenceTaken(w.records, step.r)
  {
  }

  lemma EffectOnItsOwn(prev: World, next: World, id: int)
    requires OneEffect(prev, next, id)
    requires id in prev.records ==> prev.records[id].request == next.records[id].request
    requires id !in prev.records ==> !ReferenceTaken(prev.records, next.records[id].request)
    ensures Effect(prev, prev, next, id) == Goes(next)
  {
    MergedInTurn(prev, next, id);
  }

  lemma RequestStays(o: Ongoing, maxRetries: int)
    requires Planned(o, maxRetries) && o.done < |o.plan|
    ensures var id := Target(o.step);
            && id in o.plan[o.done].records
            && (id in Before(o).records ==> Before(o).records[id].request == o.plan[o.done].records[id].request)
            && (id !in Before(o).records ==>
                  && o.done == 0 && o.step.SubmitStep?
                  && o.plan[o.done].records[id].request == o.step.r && !ReferenceTaken(o.base.records, o.step.r))
  {
    TraceKeepsRequest(o.base, o.step, maxRetries, o.done);
    if o.done > 0 {
      TraceKeepsRequest(o.base, o.step, maxRetries, o.done - 1);
    } else if Target(o.step) in o.base.records {
      if o.step.SubmitStep? {
        var from, j := SubmitPasses(o.base, o.step, maxRetries, 0);
      }
    } else {
      PutIsNew(o.base, o.step, maxRetries);
    }
  }

  lemma PlannedEffect(o: Ongoing, maxRetries: int)
    requires Planned(o, maxRetries) && o.done < |o.plan|
    ensures OneEffect(Before(o), o.plan[o.done], Target(o.step))
  {
    TraceEffect(o.base, o.step, maxRetries, o.done);
  }

  lemma EffectInTurn(o: Ongoing, maxRetries: int)
    requires Planned(o, maxRetries) && o.done < |o.plan|
    ensures Effect(Before(o), Before(o), o.plan[o.done], Target(o.step)) == Goes(o.plan[o.done])
  {
    PlannedEffect(o, maxRetries);
    RequestStays(o, maxRetries);
    EffectOnItsOwn(Before(o), o.plan[o.done], Target(o.step));
  }

  lemma Alone<V>(m: map<nat, V>, a: nat)
    requires a in m && |m| <= 1
    ensures m.Keys == {a} && |m| == 1
  {
    assert {a} <= m.Keys;
    assert |m.Keys - {a}| == |m.Keys| - |{a}|;
    assert m.Keys - {a} == {};
  }

  /** The state after the next effect of an operation in its turn. */
  function Advanced(o: Ongoing, p: nat): Shared
    requires o.done < |o.plan|
  {
    Shared(o.plan[o.done], map[p := o.(done := o.done + 1)])
  }

  lemma AdvancedInTurn(o: Ongoing, p: nat, maxRetries: int)
    requires Planned(o, maxRetries) && o.done < |o.plan|
    ensures InTurn(Advanced(o, p), maxRetries)
  {
    assert |map[p := o.(done := o.done + 1)]| == 1;
  }

  lemma TurnedAlone(s: Shared, p: nat, w: World)
    requires s.ongoing.Keys == {p}
    ensures Turned(s, p, Goes(w)) == Shared(w, map[p := s.ongoing[p].(done := s.ongoing[p].done + 1)])
  {
  }

  lemma ProceededInTurn(s: Shared, p: nat, maxRetries: int)
    requires s.ongoing.Keys == {p} && Planned(s.ongoing[p], maxRetries) && s.world == Before(s.ongoing[p])
    requires s.ongoing[p].done < |s.ongoing[p].plan|
    ensures Proceeded(s, p) == Advanced(s.ongoing[p], p)
  {
    EffectInTurn(s.ongoing[p], maxRetries);
    TurnedAlone(s, p, s.ongoing[p].plan[s.ongoing[p].done]);
  }

  lemma BeginInTurn(s: Shared, p: nat, step: Step, n: Shared, maxRetries: int)
    requires Moves(s, Begin(p, step), n, maxRetries) && |n.ongoing| <= 1
    ensures InTurn(n, maxRetries) && n.world == s.world
  {
    Alone(n.ongoing, p);
  }

  lemma StopInTurn(s: Shared, p: nat, n: Shared, maxRetries: int)
    requires Moves(s, Stop(p), n, maxRetries) && InTurn(s, maxRetries)
    ensures InTurn(n, maxRetries) && n.world == s.world
  {
    Alone(s.ongoing, p);
  }

  lemma ProceedInTurn(s: Shared, p: nat, n: Shared, maxRetries: int)
    requires Moves(s, Proceed(p), n, maxRetries) && InTurn(s, maxRetries)
    ensures InTurn(n, maxRetries)
    ensures n == s || (s.ongoing[p].done < |s.ongoing[p].plan| && n == Advanced(s.ongoing[p], p))
  {
    if s.ongoing[p].done < |s.ongoing[p].plan| {
      Alone(s.ongoing, p);
      ProceededInTurn(s, p, maxRetries);
      AdvancedInTurn(s.ongoing[p], p, maxRetries);
    }
  }

  lemma MoveInTurn(s: Shared, move: Move, n: Shared, maxRetries: int)
    requires Moves(s, move, n, maxRetries) && InTurn(s, maxRetries) && |n.ongoing| <= 1
    ensures InTurn(n, maxRetries)
  {
    match move
    case Begin(p, step) => BeginInTurn(s, p, step, n, maxRetries);
    case Stop(p) => StopInTurn(s, p, n, maxRetries);
    case Proceed(p) => ProceedInTurn(s, p, n, maxRetries);
  }

  lemma InTurnNext(run: seq<Shared>, moves: seq<Move>, maxRetries: int, i: nat)
    requires IsSharedRun(run, moves, maxRetries) && AtMostAtOnce(run, 1) && i < |moves| && InTurn(run[i], maxRetries)
    ensures InTurn(run[i + 1], maxRetries)
  {
    MovesAt(run, moves, maxRetries, i);
    MoveInTurn(run[i], moves[i], run[i + 1], maxRetries);
  }

  lemma {:induction false} InTurnAt(run: seq<Shared>, moves: seq<Move>, maxRetries: int, i: nat)
    requires IsSharedRun(run, moves, maxRetries) && AtMostAtOnce(run, 1) && i < |run|
    ensures InTurn(run[i], maxRetries)
  {
    if i > 0 {
      InTurnAt(run, moves, maxRetries, i - 1);
      InTurnNext(run, moves, maxRetries, i - 1);
    }
  }

  // ---------------------------------------------------------------- final records

  predicate Final(l: Lifecycle) {
    l == ConfirmedRejected || l == FailedSafe || l == ClosedReconciled
  }

  ghost predicate FinalAt(w: World, id: int) {
    id in w.records && Final(w.records[id].lifecycle)
  }

  ghost predicate Kept(w: World, n: World, id: int) {
    id in w.records && id in n.records && n.records[id] == w.records[id]
  }

  /** A final record stays what it is. */
  ghost predicate FinalStays(run: seq<Shared>) {
    forall i, j, id :: 0 <= i <= j < |run| && FinalAt(run[i].world, id) ==> Kept(run[i].world, run[j].world, id)
  }

  lemma FinalIsIdle(w: World, step: Step, maxRetries: int)
    requires Runnable(step, maxRetries) && FinalAt(w, Target(step))
    ensures TraceOf(w, step, maxRetries) == []
  {
  }

  lemma OtherKept(prev: World, next: World, target: int, id: int)
    requires OneEffect(prev, next, target) && id in prev.records && id != target
    ensures Kept(prev, next, id)
  {
  }

  lemma FinalIsNotTarget(o: Ongoing, maxRetries: int, id: int)
    requires Planned(o, maxRetries) && o.done < |o.plan| && FinalAt(Before(o), id)
    ensures id != Target(o.step)
  {
    if o.done > 0 {
      MidwayBeforeLast(o.base, o.step, maxRetries, o.done - 1);
    } else if Target(o.step) == id {
      FinalIsIdle(o.base, o.step, maxRetries);
    }
  }

  /** An operation in its turn leaves a final record alone. */
  lemma FinalPassed(o: Ongoing, maxRetries: int, id: int)
    requires Planned(o, maxRetries) && o.done < |o.plan| && FinalAt(Before(o), id)
    ensures Kept(Before(o), o.plan[o.done], id)
  {
    PlannedEffect(o, maxRetries);
    FinalIsNotTarget(o, maxRetries, id);
    OtherKept(Before(o), o.plan[o.done], Target(o.step), id);
  }

  lemma FinalNext(s: Shared, move: Move, n: Shared, maxRetries: int, id: int)
    requires Moves(s, move, n, maxRetries) && InTurn(s, maxRetries) && FinalAt(s.world, id)
    ensures Kept(s.world, n.world, id)
  {
    if move.Proceed? {
      ProceedInTurn(s, move.writer, n, maxRetries);
      if n != s {
        FinalPassed(s.ongoing[move.writer], maxRetries, id);
      }
    }
  }

  lemma FinalAtNext(run: seq<Shared>, moves: seq<Move>, maxRetries: int, i: nat, id: int)
    requires IsSharedRun(run, moves, maxRetries) && AtMostAtOnce(run, 1) && i < |moves| && FinalAt(run[i].world, id)
    ensures Kept(run[i].world, run[i + 1].world, id)
  {
    InTurnAt(run, moves, maxRetries, i);
    MovesAt(run, moves, maxRetries, i);
    FinalNext(run[i], moves[i], run[i + 1], maxRetries, id);
  }

  lemma {:induction false} SerialFinalStays(run: seq<Shared>, moves: seq<Move>, maxRetries: int, i: nat, j: nat, id: int)
    requires IsSharedRun(run, moves, maxRetries) && AtMostAtOnce(run, 1) && i <= j < |run| && FinalAt(run[i].world, id)
    ensures Kept(run[i].world, run[j].world, id)
  {
    if i < j {
      SerialFinalStays(run, moves, maxRetries, i, j - 1, id);
      FinalAtNext(run, moves, maxRetries, j - 1, id);
    }
  }

  // ---------------------------------------------------------------- any number of writers

  /** No operation on this record has an effect to come. */
  ghost predicate Quiet(s: Shared, id: int) {
    forall p :: p in s.ongoing && Target(s.ongoing[p].step) == id ==> s.ongoing[p].done == |s.ongoing[p].plan|
  }

  lemma EffectOfAnother(w: World, prev: World, next: World, target: int, id: int)
    requires target != id && id in w.records && Effect(w, prev, next, target).Goes?
    ensures Kept(w, Effect(w, prev, next, target).world, id)
  {
  }

  lemma ProceedQuiet(s: Shared, p: nat, id: int)
    requires Sound(s) && p in s.ongoing && id in s.world.records && Quiet(s, id)
    ensures Quiet(Proceeded(s, p), id) && Kept(s.world, Proceeded(s, p).world, id)
  {
    var o := s.ongoing[p];
    if o.done < |o.plan| && Effect(s.world, Before(o), o.plan[o.done], Target(o.step)).Goes? {
      EffectOfAnother(s.world, Before(o), o.plan[o.done], Target(o.step), id);
    }
  }

  lemma QuietNext(s: Shared, move: Move, n: Shared, maxRetries: int, id: int)
    requires Moves(s, move, n, maxRetries) && FinalAt(s.world, id) && Quiet(s, id)
    ensures Quiet(n, id) && Kept(s.world, n.world, id)
  {
    match move
    case Begin(p, step) =>
      if Target(step) == id {
        FinalIsIdle(s.world, step, maxRetries);
      }
    case Stop(p) =>
    case Proceed(p) => ProceedQuiet(s, p, id);
  }

  lemma QuietAtNext(run: seq<Shared>, moves: seq<Move>, maxRetries: int, i: nat, id: int)
    requires IsSharedRun(run, moves, maxRetries) && i < |moves|
    requires FinalAt(run[i].world, id) && Quiet(run[i], id)
    ensures Kept(run[i].world, run[i + 1].world, id) && Quiet(run[i + 1], id)
  {
    MovesAt(run, moves, maxRetries, i);
    QuietNext(run[i], moves[i], run[i + 1], maxRetries, id);
  }

  /** However many writers there are: once no operation on a final record has an effect to come, it stays what it is. */
  lemma {:induction false} QuietFinalStays(run: seq<Shared>, moves: seq<Move>, maxRetries: int, i: nat, j: nat, id: int)
    requires IsSharedRun(run, moves, maxRetries) && i <= j < |run| && FinalAt(run[i].world, id)
    requires Quiet(run[i], id)
    ensures Kept(run[i].world, run[j].world, id) && Quiet(run[j], id)
  {
    if i < j {
      QuietFinalStays(run, moves, maxRetries, i, j - 1, id);
      QuietAtNext(run, moves, maxRetries, j - 1, id);
    }
  }

  // ---------------------------------------------------------------- serial runs are the runs of the core

  function Stepped(o: Ongoing): Step {
    o.step.(effects := o.done)
  }

  lemma EffectsDoNotPlan(w: World, step: Step, n: nat, maxRetries: int)
    requires Runnable(step, maxRetries)
    ensures Runnable(step.(effects := n), maxRetries)
    ensures TraceOf(w, step.(effects := n), maxRetries) == TraceOf(w, step, maxRetries)
  {
  }

  lemma StoppedAt(w: World, trace: seq<World>, n: nat)
    requires n <= |trace|
    ensures Stopped(w, trace, n) == if n == 0 then w else trace[n - 1]
  {
  }

  /** An operation that stops after its effects so far is a step of the core. */
  lemma StoppedIsStep(o: Ongoing, maxRetries: int)
    requires Planned(o, maxRetries)
    ensures Leads(o.base, Stepped(o), Before(o), maxRetries)
  {
    EffectsDoNotPlan(o.base, o.step, o.done, maxRetries);
    StoppedAt(o.base, o.plan, o.done);
  }

  /** The core's run so far, up to the operation under way. */
  ghost predicate Mirrors(s: Shared, run: seq<World>, steps: seq<Step>, maxRetries: int) {
    && IsRun(run, steps, maxRetries)
    && (s.ongoing == map[] ==> s.world == run[|steps|])
    && (forall p :: p in s.ongoing ==> s.ongoing[p].base == run[|steps|])
  }

  lemma StopMirrors(s: Shared, p: nat, n: Shared, run: seq<World>, steps: seq<Step>, maxRetries: int)
    returns (run': seq<World>, steps': seq<Step>)
    requires Moves(s, Stop(p), n, maxRetries) && InTurn(s, maxRetries) && Mirrors(s, run, steps, maxRetries)
    ensures Mirrors(n, run', steps', maxRetries)
  {
    Alone(s.ongoing, p);
    StoppedIsStep(s.ongoing[p], maxRetries);
    run', steps' := Extended(run, steps, maxRetries, Stepped(s.ongoing[p]), s.world);
  }

  lemma MoveMirrors(s: Shared, move: Move, n: Shared, run: seq<World>, steps: seq<Step>, maxRetries: int)
    returns (run': seq<World>, steps': seq<Step>)
    requires Moves(s, move, n, maxRetries) && InTurn(s, maxRetries) && |n.ongoing| <= 1
    requires Mirrors(s, run, steps, maxRetries)
    ensures Mirrors(n, run', steps', maxRetries)
  {
    run', steps' := run, steps;
    match move
    case Begin(p, step) =>
      Alone(n.ongoing, p);
      assert s.ongoing == map[];
    case Stop(p) => run', steps' := StopMirrors(s, p, n, run, steps, maxRetries);
    case Proceed(p) => ProceedInTurn(s, p, n, maxRetries);
  }

  lemma MirrorsNext(run: seq<Shared>, moves: seq<Move>, maxRetries: int, i: nat, core: seq<World>, steps: seq<Step>)
    returns (core': seq<World>, steps': seq<Step>)
    requires IsSharedRun(run, moves, maxRetries) && AtMostAtOnce(run, 1) && i < |moves|
    requires Mirrors(run[i], core, steps, maxRetries)
    ensures Mirrors(run[i + 1], core', steps', maxRetries)
  {
    InTurnAt(run, moves, maxRetries, i);
    MovesAt(run, moves, maxRetries, i);
    core', steps' := MoveMirrors(run[i], moves[i], run[i + 1], core, steps, maxRetries);
  }

  lemma {:induction false} SerialMirrors(run: seq<Shared>, moves: seq<Move>, maxRetries: int, i: nat)
    returns (core: seq<World>, steps: seq<Step>)
    requires IsSharedRun(run, moves, maxRetries) && AtMostAtOnce(run, 1) && i < |run|
    ensures Mirrors(run[i], core, steps, maxRetries)
  {
    if i == 0 {
      core, steps := [EMPTY], [];
    } else {
      core, steps := SerialMirrors(run, moves, maxRetries, i - 1);
      core, steps := MirrorsNext(run, moves, maxRetries, i - 1, core, steps);
    }
  }

  /** Every state of a run with one operation at a time is a durable state of a run of the core. */
  lemma SerialIsDurable(run: seq<Shared>, moves: seq<Move>, maxRetries: int, i: nat)
    returns (core: seq<World>, steps: seq<Step>, k: nat)
    requires IsSharedRun(run, moves, maxRetries) && AtMostAtOnce(run, 1) && i < |run|
    ensures DurableAt(core, steps, maxRetries, k, run[i].world)
  {
    core, steps := SerialMirrors(run, moves, maxRetries, i);
    InTurnAt(run, moves, maxRetries, i);
    if run[i].ongoing != map[] {
      var p :| p in run[i].ongoing;
      StoppedIsStep(run[i].ongoing[p], maxRetries);
      core, steps := Extended(core, steps, maxRetries, Stepped(run[i].ongoing[p]), run[i].world);
    }
    k := |steps|;
  }

  ghost predicate CreatesOnce(w: World) {
    forall k, l :: 0 <= k < l < |w.creates| ==> w.creates[k].intentId != w.creates[l].intentId
  }

  lemma SerialCreatesOnce(run: seq<Shared>, moves: seq<Move>, maxRetries: int, i: nat)
    requires IsSharedRun(run, moves, maxRetries) && AtMostAtOnce(run, 1) && i < |run|
    ensures CreatesOnce(run[i].world)
  {
    var core, steps, k := SerialIsDurable(run, moves, maxRetries, i);
    CreateAtMostOnce(core, steps, maxRetries, k, run[i].world, 0, 0);
  }

  // ---------------------------------------------------------------- and the core's runs are serial runs

  lemma MoreMoves(run: seq<Shared>, moves: seq<Move>, maxRetries: int, limit: nat, move: Move, n: Shared)
    returns (run': seq<Shared>, moves': seq<Move>)
    requires IsSharedRun(run, moves, maxRetries) && AtMostAtOnce(run, limit)
    requires Moves(run[|moves|], move, n, maxRetries) && |n.ongoing| <= limit
    ensures run' == run + [n] && moves' == moves + [move]
    ensures IsSharedRun(run', moves', maxRetries) && AtMostAtOnce(run', limit)
  {
    run', moves' := run + [n], moves + [move];
    Longer(run, moves, MovesBy(maxRetries), move, n);
  }

  lemma ProceedMoves(o: Ongoing, maxRetries: int)
    requires Planned(o, maxRetries) && o.done < |o.plan|
    ensures Moves(Shared(Before(o), map[0 := o]), Proceed(0), Advanced(o, 0), maxRetries)
  {
    ProceededInTurn(Shared(Before(o), map[0 := o]), 0, maxRetries);
  }

  lemma ProceedsOnce(run: seq<Shared>, moves: seq<Move>, maxRetries: int, o: Ongoing)
    returns (run': seq<Shared>, moves': seq<Move>)
    requires IsSharedRun(run, moves, maxRetries) && AtMostAtOnce(run, 1)
    requires Planned(o, maxRetries) && o.done < |o.plan| && run[|moves|] == Shared(Before(o), map[0 := o])
    ensures IsSharedRun(run', moves', maxRetries) && AtMostAtOnce(run', 1)
    ensures run'[|moves'|] == Advanced(o, 0)
  {
    ProceedMoves(o, maxRetries);
    run', moves' := MoreMoves(run, moves, maxRetries, 1, Proceed(0), Advanced(o, 0));
  }

  /** Some effects of the operation under way. */
  lemma {:induction false} Proceeds(run: seq<Shared>, moves: seq<Move>, maxRetries: int, o: Ongoing, taken: nat)
    returns (run': seq<Shared>, moves': seq<Move>)
    requires IsSharedRun(run, moves, maxRetries) && AtMostAtOnce(run, 1)
    requires Planned(o, maxRetries) && o.done == 0 && taken <= |o.plan| && run[|moves|] == Shared(o.base, map[0 := o])
    ensures IsSharedRun(run', moves', maxRetries) && AtMostAtOnce(run', 1)
    ensures run'[|moves'|] == Shared(Before(o.(done := taken)), map[0 := o.(done := taken)])
  {
    run', moves' := run, moves;
    if taken > 0 {
      run', moves' := Proceeds(run, moves, maxRetries, o, taken - 1);
      run', moves' := ProceedsOnce(run', moves', maxRetries, o.(done := taken - 1));
    }
  }

  lemma BeginMoves(w: World, step: Step, maxRetries: int)
    requires Runnable(step, maxRetries)
    ensures Moves(Shared(w, map[]), Begin(0, step), Shared(w, map[0 := Started(Shared(w, map[]), step, maxRetries)]), maxRetries)
  {
  }

  lemma StopMoves(o: Ongoing, maxRetries: int)
    requires o.done <= |o.plan|
    ensures Moves(Shared(Before(o), map[0 := o]), Stop(0), Shared(Before(o), map[]), maxRetries)
  {
    assert map[0 := o] - {0} == map[];
  }

  /** One step of the core, effect by effect. */
  lemma StepByEffects(run: seq<Shared>, moves: seq<Move>, maxRetries: int, step: Step, n: World)
    returns (run': seq<Shared>, moves': seq<Move>)
    requires IsSharedRun(run, moves, maxRetries) && AtMostAtOnce(run, 1) && run[|moves|].ongoing == map[]
    requires Leads(run[|moves|].world, step, n, maxRetries)
    ensures IsSharedRun(run', moves', maxRetries) && AtMostAtOnce(run', 1) && run'[|moves'|] == Shared(n, map[])
  {
    var base := run[|moves|].world;
    var taken := DemoSafety.Taken(base, step, maxRetries);
    var o := Started(run[|moves|], step, maxRetries);
    BeginMoves(base, step, maxRetries);
    run', moves' := MoreMoves(run, moves, maxRetries, 1, Begin(0, step), Shared(base, map[0 := o]));
    run', moves' := TakesEffects(run', moves', maxRetries, o, taken);
  }

  lemma TakesEffects(run: seq<Shared>, moves: seq<Move>, maxRetries: int, o: Ongoing, taken: nat)
    returns (run': seq<Shared>, moves': seq<Move>)
    requires IsSharedRun(run, moves, maxRetries) && AtMostAtOnce(run, 1)
    requires Planned(o, maxRetries) && o.done == 0 && taken <= |o.plan| && run[|moves|] == Shared(o.base, map[0 := o])
    ensures IsSharedRun(run', moves', maxRetries) && AtMostAtOnce(run', 1)
    ensures run'[|moves'|] == Shared(Before(o.(done := taken)), map[])
  {
    var done := o.(done := taken);
    run', moves' := Proceeds(run, moves, maxRetries, o, taken);
    StopMoves(done, maxRetries);
    run', moves' := MoreMoves(run', moves', maxRetries, 1, Stop(0), Shared(Before(done), map[]));
  }

  lemma SerialNext(core: seq<World>, steps: seq<Step>, maxRetries: int, i: nat, run: seq<Shared>, moves: seq<Move>)
    returns (run': seq<Shared>, moves': seq<Move>)
    requires IsRun(core, steps, maxRetries) && i < |steps|
    requires IsSharedRun(run, moves, maxRetries) && AtMostAtOnce(run, 1) && run[|moves|] == Shared(core[i], map[])
    ensures IsSharedRun(run', moves', maxRetries) && AtMostAtOnce(run', 1) && run'[|moves'|] == Shared(core[i + 1], map[])
  {
    LeadsAt(core, steps, maxRetries, i);
    run', moves' := StepByEffects(run, moves, maxRetries, steps[i], core[i + 1]);
  }

  lemma {:induction false} CoreIsSerial(core: seq<World>, steps: seq<Step>, maxRetries: int, i: nat)
    returns (run: seq<Shared>, moves: seq<Move>)
    requires IsRun(core, steps, maxRetries) && i < |core|
    ensures IsSharedRun(run, moves, maxRetries) && AtMostAtOnce(run, 1)
    ensures run[|moves|] == Shared(core[i], map[])
  {
    if i == 0 {
      run, moves := [Shared(EMPTY, map[])], [];
    } else {
      run, moves := CoreIsSerial(core, steps, maxRetries, i - 1);
      run, moves := SerialNext(core, steps, maxRetries, i - 1, run, moves);
    }
  }

  // ---------------------------------------------------------------- two writers: a stale replace

  function CloseAccepted(): Submission {
    Submission(CloseReference(Order(), "DEAL"), None)
  }

  function Requesting(): Step {
    CloseStep(1, OpenGate(), Returns(CloseAccepted()), 2)
  }

  /** Opened, and the close call acknowledged and written. */
  function Requested(): World {
    Opened().(records := map[1 := ExecutionRecord(Order(), CloseRequested, Some(Submission("REF", None)), Some(Fill()),
                                                  Some(Held()), Some(CloseAccepted()))],
              closes := multiset{1})
  }

  function OppositeFill(): Confirmation {
    Confirmation(CloseReference(Order(), "DEAL"), Some("DEAL"), Accepted, "CLOSED", Some("EPIC"), Some(Sell), Some(ONE),
                 None, None, None)
  }

  /** One reconciliation of the close that the broker answers, and one that it does not. */
  function Answered(): Step {
    CloseReconcileStep(1, Returns(Some(OppositeFill())), Returns([]), 1)
  }

  function Unanswered(): Step {
    CloseReconcileStep(1, Raises, Raises, 1)
  }

  lemma CloseIsRequested()
    ensures After(Opened(), Requesting(), 1) == Requested()
  {
    OrderPasses();
    assert After(Opened(), Requesting(), 1).records == Requested().records;
    assert multiset{1} + multiset{} - multiset{1} == multiset{};
  }

  function Closed(): World {
    Requested().(records := map[1 := Requested().records[1].(lifecycle := ClosedReconciled, confirmation := Some(OppositeFill()))])
  }

  lemma Reconciliations()
    ensures TraceOf(Requested(), Answered(), 1) == [Closed()]
    ensures TraceOf(Requested(), Unanswered(), 1) == [Moved(Requested(), 1, Ambiguous)]
  {
    assert OppositeFill().status[0] != ' ';
    assert CloseMatches(Requested().records[1], OppositeFill());
    assert TraceOf(Requested(), Answered(), 1)[0].records == Closed().records;
  }

  lemma RequestedRun() returns (run: seq<Shared>, moves: seq<Move>)
    ensures IsSharedRun(run, moves, 1) && AtMostAtOnce(run, 1) && run[|moves|] == Shared(Requested(), map[])
  {
    var core, steps := OpenedRun();
    CloseIsRequested();
    core, steps := Extended(core, steps, 1, Requesting(), Requested());
    run, moves := CoreIsSerial(core, steps, 1, 3);
  }

  function ToClose(done: nat): Ongoing {
    Ongoing(Requested(), Answered(), [Closed()], done)
  }

  function ToGiveUp(done: nat): Ongoing {
    Ongoing(Requested(), Unanswered(), [Moved(Requested(), 1, Ambiguous)], done)
  }

  /** The closed record, overwritten with what the other operation had read. */
  function Overwritten(): World {
    Closed().(records := Moved(Requested(), 1, Ambiguous).records)
  }

  lemma BothBegin()
    ensures Moves(Shared(Requested(), map[]), Begin(0, Answered()), Shared(Requested(), map[0 := ToClose(0)]), 1)
    ensures Moves(Shared(Requested(), map[0 := ToClose(0)]), Begin(1, Unanswered()),
                  Shared(Requested(), map[0 := ToClose(0), 1 := ToGiveUp(0)]), 1)
  {
    Reconciliations();
    assert map[0 := ToClose(0)][1 := ToGiveUp(0)] == map[0 := ToClose(0), 1 := ToGiveUp(0)];
  }

  lemma FirstCloses()
    ensures Moves(Shared(Requested(), map[0 := ToClose(0), 1 := ToGiveUp(0)]), Proceed(0),
                  Shared(Closed(), map[0 := ToClose(1), 1 := ToGiveUp(0)]), 1)
  {
    var w := Requested();
    assert OneEffect(w, Closed(), 1);
    EffectOnItsOwn(w, Closed(), 1);
    assert map[0 := ToClose(0), 1 := ToGiveUp(0)][0 := ToClose(1)] == map[0 := ToClose(1), 1 := ToGiveUp(0)];
  }

  lemma SecondOverwrites()
    ensures Moves(Shared(Closed(), map[0 := ToClose(1), 1 := ToGiveUp(0)]), Proceed(1),
                  Shared(Overwritten(), map[0 := ToClose(1), 1 := ToGiveUp(1)]), 1)
  {
    var w, next := Requested(), Moved(Requested(), 1, Ambiguous);
    assert Merged(Closed(), w, next, 1).records == Overwritten().records;
    assert Merged(Closed(), w, next, 1) == Overwritten();
    assert map[0 := ToClose(1), 1 := ToGiveUp(0)][1 := ToGiveUp(1)] == map[0 := ToClose(1), 1 := ToGiveUp(1)];
  }

  /** Two reconciliations of one close that overlap: CLOSED_RECONCILED is overwritten, without a crash. */
  lemma StaleReplaceRun() returns (run: seq<Shared>, moves: seq<Move>)
    ensures IsSharedRun(run, moves, 1) && AtMostAtOnce(run, 2) && !FinalStays(run)
  {
    run, moves := RequestedRun();
    var i := |moves| + 3;
    BothBegin();
    FirstCloses();
    SecondOverwrites();
    run, moves := MoreMoves(run, moves, 1, 2, Begin(0, Answered()), Shared(Requested(), map[0 := ToClose(0)]));
    run, moves := MoreMoves(run, moves, 1, 2, Begin(1, Unanswered()), Shared(Requested(), map[0 := ToClose(0), 1 := ToGiveUp(0)]));
    run, moves := MoreMoves(run, moves, 1, 2, Proceed(0), Shared(Closed(), map[0 := ToClose(1), 1 := ToGiveUp(0)]));
    run, moves := MoreMoves(run, moves, 1, 2, Proceed(1), Shared(Overwritten(), map[0 := ToClose(1), 1 := ToGiveUp(1)]));
    assert FinalAt(run[i].world, 1) && !Kept(run[i].world, run[i + 1].world, 1);
  }

  // ---------------------------------------------------------------- two writers: one intent, two create calls

  function Fresh(): ExecutionRecord {
    ExecutionRecord(Order(), Prepared, None, None, None, None)
  }

  function Put(): World {
    With(EMPTY, Fresh())
  }

  function Announced(): World {
    Moved(Put(), 1, Submitting)
  }

  function Called(n: nat): World {
    Announced().(creates := seq(n, _ => CallOf(Order())))
  }

  lemma SubmitPlan() returns (rest: seq<World>)
    ensures TraceOf(EMPTY, SubmitOnce(), 1) == [Put(), Announced(), Called(1)] + rest
  {
    OrderPasses();
    assert Prepare(EMPTY.records, Order(), Some(OpenMarket()), OpenGate(), 0) == Stored(Fresh());
    var trace := TraceOf(EMPTY, SubmitOnce(), 1);
    assert trace == [Put()] + DispatchTrace(Put(), Order(), 1, SubmitOnce().script);
    assert Announced().creates + [CallOf(Order())] == Called(1).creates;
    rest := trace[3..];
    assert trace[0] == Put() && trace[1] == Announced() && trace[2] == Called(1);
    assert trace == trace[..3] + rest;
  }

  function Sending(plan: seq<World>, done: nat): Ongoing {
    Ongoing(EMPTY, SubmitOnce(), plan, done)
  }

  ghost predicate SendingPlan(plan: seq<World>) {
    |plan| >= 3 && plan[0] == Put() && plan[1] == Announced() && plan[2] == Called(1)
    && TraceOf(EMPTY, SubmitOnce(), 1) == plan
  }

  function Two(w: World, plan: seq<World>, a: nat, b: nat): Shared {
    Shared(w, map[0 := Sending(plan, a), 1 := Sending(plan, b)])
  }

  lemma BothSubmit(plan: seq<World>)
    requires SendingPlan(plan)
    ensures Moves(Shared(EMPTY, map[]), Begin(0, SubmitOnce()), Shared(EMPTY, map[0 := Sending(plan, 0)]), 1)
    ensures Moves(Shared(EMPTY, map[0 := Sending(plan, 0)]), Begin(1, SubmitOnce()), Two(EMPTY, plan, 0, 0), 1)
  {
    assert map[0 := Sending(plan, 0)][1 := Sending(plan, 0)] == map[0 := Sending(plan, 0), 1 := Sending(plan, 0)];
  }

  /** Writer 0 and then writer 1 do effect k, in worlds where it has the stated result. */
  lemma FirstGoes(plan: seq<World>, w: World, a: nat, b: nat, n: World)
    requires a < |plan| && b <= |plan|
    requires Effect(w, if a == 0 then EMPTY else plan[a - 1], plan[a], 1) == Goes(n)
    ensures Moves(Two(w, plan, a, b), Proceed(0), Two(n, plan, a + 1, b), 1)
  {
    var m := Two(w, plan, a, b).ongoing;
    assert m[0 := Sending(plan, a + 1)] == Two(n, plan, a + 1, b).ongoing;
  }

  lemma SecondGoes(plan: seq<World>, w: World, a: nat, b: nat, n: World)
    requires a <= |plan| && b < |plan|
    requires Effect(w, if b == 0 then EMPTY else plan[b - 1], plan[b], 1) == Goes(n)
    ensures Moves(Two(w, plan, a, b), Proceed(1), Two(n, plan, a, b + 1), 1)
  {
    var m := Two(w, plan, a, b).ongoing;
    assert m[1 := Sending(plan, b + 1)] == Two(n, plan, a, b + 1).ongoing;
  }

  lemma SubmitEffects()
    ensures Effect(EMPTY, EMPTY, Put(), 1) == Goes(Put())
    ensures Effect(Put(), EMPTY, Put(), 1) == Goes(Put())
    ensures Effect(Put(), Put(), Announced(), 1) == Goes(Announced())
    ensures Effect(Announced(), Announced(), Called(1), 1) == Goes(Called(1))
    ensures Effect(Called(1), Put(), Announced(), 1) == Goes(Called(1))
    ensures Effect(Called(1), Announced(), Called(1), 1) == Goes(Called(2))
  {
    EffectOnItsOwn(EMPTY, Put(), 1);
    assert OneEffect(Put(), Announced(), 1);
    EffectOnItsOwn(Put(), Announced(), 1);
    assert Announced().creates <= Called(1).creates;
    EffectOnItsOwn(Announced(), Called(1), 1);
    assert Called(1).records[1 := Announced().records[1]] == Called(1).records;
    assert Rest(Announced().creates, Called(1).creates) == Called(1).creates;
    assert Called(1).creates + Called(1).creates == Called(2).creates;
    assert Merged(Called(1), Announced(), Called(1), 1) == Called(2);
    assert Merged(Called(1), Put(), Announced(), 1) == Called(1);
  }

  lemma FirstSends(run: seq<Shared>, moves: seq<Move>, plan: seq<World>, w: World, a: nat, b: nat, n: World)
    returns (run': seq<Shared>, moves': seq<Move>)
    requires IsSharedRun(run, moves, 1) && AtMostAtOnce(run, 2) && a < |plan| && b <= |plan|
    requires run[|moves|] == Two(w, plan, a, b)
    requires Effect(w, if a == 0 then EMPTY else plan[a - 1], plan[a], 1) == Goes(n)
    ensures IsSharedRun(run', moves', 1) && AtMostAtOnce(run', 2) && run'[|moves'|] == Two(n, plan, a + 1, b)
  {
    FirstGoes(plan, w, a, b, n);
    run', moves' := MoreMoves(run, moves, 1, 2, Proceed(0), Two(n, plan, a + 1, b));
  }

  lemma SecondSends(run: seq<Shared>, moves: seq<Move>, plan: seq<World>, w: World, a: nat, b: nat, n: World)
    returns (run': seq<Shared>, moves': seq<Move>)
    requires IsSharedRun(run, moves, 1) && AtMostAtOnce(run, 2) && a <= |plan| && b < |plan|
    requires run[|moves|] == Two(w, plan, a, b)
    requires Effect(w, if b == 0 then EMPTY else plan[b - 1], plan[b], 1) == Goes(n)
    ensures IsSharedRun(run', moves', 1) && AtMostAtOnce(run', 2) && run'[|moves'|] == Two(n, plan, a, b + 1)
  {
    SecondGoes(plan, w, a, b, n);
    run', moves' := MoreMoves(run, moves, 1, 2, Proceed(1), Two(n, plan, a, b + 1));
  }

  lemma BothStarted(plan: seq<World>) returns (run: seq<Shared>, moves: seq<Move>)
    requires SendingPlan(plan)
    ensures IsSharedRun(run, moves, 1) && AtMostAtOnce(run, 2) && run[|moves|] == Two(EMPTY, plan, 0, 0)
  {
    BothSubmit(plan);
    run, moves := [Shared(EMPTY, map[])], [];
    run, moves := MoreMoves(run, moves, 1, 2, Begin(0, SubmitOnce()), Shared(EMPTY, map[0 := Sending(plan, 0)]));
    run, moves := MoreMoves(run, moves, 1, 2, Begin(1, SubmitOnce()), Two(EMPTY, plan, 0, 0));
  }

  /** Both have put the record, and the first has called the broker. */
  lemma FirstCalled() returns (run: seq<Shared>, moves: seq<Move>, plan: seq<World>)
    ensures SendingPlan(plan)
    ensures IsSharedRun(run, moves, 1) && AtMostAtOnce(run, 2) && run[|moves|] == Two(Called(1), plan, 3, 1)
  {
    var rest := SubmitPlan();
    plan := TraceOf(EMPTY, SubmitOnce(), 1);
    SubmitEffects();
    run, moves := BothStarted(plan);
    run, moves := FirstSends(run, moves, plan, EMPTY, 0, 0, Put());
    run, moves := SecondSends(run, moves, plan, Put(), 1, 0, Put());
    run, moves := FirstSends(run, moves, plan, Put(), 1, 1, Announced());
    run, moves := FirstSends(run, moves, plan, Announced(), 2, 1, Called(1));
  }

  /** Two submits of one intent that overlap: the second put finds the record still PREPARED, and both call the broker. */
  lemma DoubleCreateRun() returns (run: seq<Shared>, moves: seq<Move>)
    ensures IsSharedRun(run, moves, 1) && AtMostAtOnce(run, 2) && !CreatesOnce(run[|moves|].world)
  {
    var plan;
    run, moves, plan := FirstCalled();
    SubmitEffects();
    run, moves := SecondSends(run, moves, plan, Called(1), 3, 1, Called(1));
    run, moves := SecondSends(run, moves, plan, Called(1), 3, 2, Called(2));
    assert Called(2).creates[0].intentId == Called(2).creates[1].intentId;
  }

  // ---------------------------------------------------------------- exactly when writers do not overlap

  ghost predicate AlwaysFinal(limit: nat) {
    forall run: seq<Shared>, moves: seq<Move>, maxRetries: int ::
      IsSharedRun(run, moves, maxRetries) && AtMostAtOnce(run, limit) ==> FinalStays(run)
  }

  ghost predicate AlwaysCreatesOnce(limit: nat) {
    forall run: seq<Shared>, moves: seq<Move>, maxRetries: int ::
      IsSharedRun(run, moves, maxRetries) && AtMostAtOnce(run, limit) ==> CreatesOnce(run[|run| - 1].world)
  }

  lemma FewerAtOnce(run: seq<Shared>, a: nat, b: nat)
    requires AtMostAtOnce(run, a) && a <= b
    ensures AtMostAtOnce(run, b)
  {
  }

  /** Final records stay what they are in every run if and only if operations never overlap. */
  lemma FinalNeedsOneAtATime(limit: nat)
    ensures AlwaysFinal(limit) <==> limit <= 1
  {
    if limit <= 1 {
      forall run: seq<Shared>, moves: seq<Move>, maxRetries: int
        | IsSharedRun(run, moves, maxRetries) && AtMostAtOnce(run, limit)
        ensures FinalStays(run)
      {
        FewerAtOnce(run, limit, 1);
        forall i, j, id | 0 <= i <= j < |run| && FinalAt(run[i].world, id)
          ensures Kept(run[i].world, run[j].world, id)
        {
          SerialFinalStays(run, moves, maxRetries, i, j, id);
        }
      }
    } else {
      var run, moves := StaleReplaceRun();
      FewerAtOnce(run, 2, limit);
    }
  }

  /** At most one create call per intent in every run if and only if operations never overlap. */
  lemma CreateOnceNeedsOneAtATime(limit: nat)
    ensures AlwaysCreatesOnce(limit) <==> limit <= 1
  {
    if limit <= 1 {
      forall run: seq<Shared>, moves: seq<Move>, maxRetries: int
        | IsSharedRun(run, moves, maxRetries) && AtMostAtOnce(run, limit)
        ensures CreatesOnce(run[|run| - 1].world)
      {
        FewerAtOnce(run, limit, 1);
        SerialCreatesOnce(run, moves, maxRetries, |run| - 1);
      }
    } else {
      var run, moves := DoubleCreateRun();
      FewerAtOnce(run, 2, limit);
      assert run[|moves|] == run[|run| - 1];
    }
  }
}
