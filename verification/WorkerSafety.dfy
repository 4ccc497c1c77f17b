/**
 Whole runs over the control row: any number of starters, workers and operators, each transaction
 atomic, any process dying at any moment, and no process id used twice.
 */
module WorkerSafety {
  import opened Outcomes
  import opened DemoOperator

  /**
   starters are processes between a successful acquire_start and the end of their start; launched is
   each starter's child; handed are the workers a row was ever handed to; finished are the
   processes that reported themselves stopped.
   */
  datatype System = System(
    row: Row, live: set<int>, used: set<int>, starters: set<int>, launched: map<int, int>,
    workers: set<int>, handed: set<int>, finished: set<int>)

  datatype Step =
    | Spawn(p: int)
    | Die(p: int)
    | Start(s: int, now: int)
    | Launch(s: int, child: int)
    | Assign(s: int, now: int)
    | FailStart(s: int, now: int)
    | Beat(p: int, now: int)
    | Finish(p: int, error: Option<string>, now: int)
    | Stop(now: int)
    | PauseEntries(now: int)
    | ResumeEntries(now: int)
    | Kill(now: int)
    | Release(now: int)

  predicate Enabled(s: System, step: Step) {
    match step
    case Spawn(p) => p > 0 && p !in s.used
    case Die(p) => p in s.live
    case Start(p, _) => p in s.live && p !in s.workers
    case Launch(p, child) => p in s.starters && p !in s.launched && child > 0 && child !in s.used
    case Assign(p, _) => p in s.starters && p in s.launched
    case FailStart(p, _) => p in s.starters
    case Beat(p, _) => p in s.live && p in s.workers
    case Finish(p, _, _) => p in s.live && p in s.workers
    case _ => true
  }

  function Next(s: System, step: Step): System
    requires Enabled(s, step)
  {
    match step
    case Spawn(p) => s.(live := s.live + {p}, used := s.used + {p})
    case Die(p) => s.(live := s.live - {p}, starters := s.starters - {p}, launched := s.launched - {p})
    case Start(p, now) =>
      var after := AcquireStart(s.row, p, now, s.live);
      if after.None? then s else s.(row := after.value, starters := s.starters + {p})
    case Launch(p, child) =>
      s.(live := s.live + {child}, used := s.used + {child}, workers := s.workers + {child},
         launched := s.launched[p := child])
    case Assign(p, now) =>
      var after := SetWorkerPid(s.row, s.launched[p], now);
      if after.None? then s
      else s.(row := after.value, starters := s.starters - {p}, handed := s.handed + {s.launched[p]},
              launched := s.launched - {p})
    case FailStart(p, now) =>
      s.(row := StoppedBy(s.row, p, Some("worker launch failed"), now),
         starters := s.starters - {p}, launched := s.launched - {p})
    case Beat(p, now) => s.(row := Kept(s.row, Heartbeat(s.row, p, now)))
    case Finish(p, error, now) => s.(row := StoppedBy(s.row, p, error, now), finished := s.finished + {p})
    case Stop(now) => s.(row := RequestStop(s.row, now))
    case PauseEntries(now) => s.(row := Kept(s.row, Pause(s.row, now)))
    case ResumeEntries(now) => s.(row := Kept(s.row, Resume(s.row, now, s.live)))
    case Kill(now) => s.(row := EmergencyKill(s.row, now))
    case Release(now) => s.(row := Kept(s.row, ReleaseKill(s.row, now, s.live)))
  }

  ghost predicate Initial(s: System) {
    && s.row == Row(Stopped, None, None, false, None, None)
    && s.live == s.used == s.starters == s.workers == s.handed == s.finished == {} && s.launched == map[]
  }

  ghost predicate Leads(s: System, step: Step, n: System) {
    Enabled(s, step) && n == Next(s, step)
  }

  ghost predicate IsRun(run: seq<System>, steps: seq<Step>) {
    && |run| == |steps| + 1 && Initial(run[0])
    && forall i {:trigger steps[i]} :: 0 <= i < |steps| ==> Leads(run[i], steps[i], run[i + 1])
  }

  /** A worker the row was handed to, alive and not stopped. */
  predicate Working(s: System, p: int) {
    p in s.handed && p in s.live && p !in s.finished
  }

  ghost predicate RowInv(r: Row) {
    && (Active(r.state) ==> r.pid.Some? && r.heartbeat.Some? && !r.killBlocking)
    && (!Active(r.state) && !r.killBlocking ==> r.pid.None?)
    && (r.pid.Some? ==> r.pid.value > 0)
  }

  ghost predicate Inv(s: System) {
    && RowInv(s.row)
    && (forall p :: p in s.live ==> p > 0 && p in s.used)
    && s.workers <= s.used && s.handed <= s.workers && s.finished <= s.workers
    && (forall p :: p in s.starters ==> p in s.live && p !in s.workers && s.row.pid == Some(p))
    && s.launched.Keys <= s.starters
    && (forall p :: p in s.launched ==> s.launched[p] in s.workers && s.launched[p] !in s.handed && s.launched[p] > 0)
    && (forall p :: Working(s, p) ==> s.row.pid == Some(p))
    && (s.row.pid.Some? && s.row.pid.value in s.workers ==> s.row.pid.value in s.handed)
    && (s.row.pid.Some? ==> s.row.pid.value in s.used)
  }

  lemma AssignInv(s: System, p: int, now: int)
    requires Inv(s) && Enabled(s, Assign(p, now))
    ensures Inv(Next(s, Assign(p, now)))
  {
  }

  lemma StartInv(s: System, p: int, now: int)
    requires Inv(s) && Enabled(s, Start(p, now))
    ensures Inv(Next(s, Start(p, now)))
  {
  }

  lemma OperatorInv(s: System, step: Step)
    requires Inv(s) && (step.Stop? || step.PauseEntries? || step.ResumeEntries? || step.Kill? || step.Release?)
    ensures Inv(Next(s, step))
  {
    var n := Next(s, step);
    assert RowInv(n.row);
    assert n.row.pid == s.row.pid || (n.row.pid.None? && (s.row.pid.Some? ==> s.row.pid.value !in s.live));
  }

  lemma LeavingInv(s: System, step: Step)
    requires Inv(s) && Enabled(s, step) && (step.FailStart? || step.Finish? || step.Beat?)
    ensures Inv(Next(s, step))
  {
    assert RowInv(Next(s, step).row);
  }

  lemma ProcessInv(s: System, step: Step)
    requires Inv(s) && Enabled(s, step) && (step.Spawn? || step.Die? || step.Launch?)
    ensures Inv(Next(s, step))
  {
  }

  lemma StepInv(s: System, step: Step)
    requires Inv(s) && Enabled(s, step)
    ensures Inv(Next(s, step))
  {
    if step.Start? {
      StartInv(s, step.s, step.now);
    } else if step.Assign? {
      AssignInv(s, step.s, step.now);
    } else if step.FailStart? || step.Finish? || step.Beat? {
      LeavingInv(s, step);
    } else if step.Spawn? || step.Die? || step.Launch? {
      ProcessInv(s, step);
    } else {
      OperatorInv(s, step);
    }
  }

  lemma {:induction false} RunInv(run: seq<System>, steps: seq<Step>, i: nat)
    requires IsRun(run, steps) && i < |run|
    ensures Inv(run[i])
  {
    if i > 0 {
      RunInv(run, steps, i - 1);
      assert Leads(run[i - 1], steps[i - 1], run[i]);
      StepInv(run[i - 1], steps[i - 1]);
    }
  }

  predicate Passes(s: System, step: Step, p: int) {
    step.Beat? && step.p == p && Heartbeat(s.row, p, step.now).Some?
  }

  lemma {:induction false} HandedStays(run: seq<System>, steps: seq<Step>, i: nat, j: nat)
    requires IsRun(run, steps) && i <= j < |run|
    ensures run[i].handed <= run[j].handed
  {
    if i < j {
      HandedStays(run, steps, i, j - 1);
      assert Leads(run[j - 1], steps[j - 1], run[j]);
    }
  }

  /** At any moment at most one process that has ever owned the row is alive and unstopped. */
  lemma OneWorker(run: seq<System>, steps: seq<Step>, i: nat, p: int, q: int)
    requires IsRun(run, steps) && i < |run| && Working(run[i], p) && Working(run[i], q)
    ensures p == q
  {
    RunInv(run, steps, i);
  }

  /** Once another process passes heartbeat, the one that passed before is dead or has stopped. */
  lemma HeartbeatPassesOnce(run: seq<System>, steps: seq<Step>, i: nat, j: nat, p: int, q: int)
    requires IsRun(run, steps) && i <= j < |steps|
    requires Passes(run[i], steps[i], p) && Passes(run[j], steps[j], q) && p != q
    ensures p !in run[j].live || p in run[j].finished
  {
    RunInv(run, steps, i);
    RunInv(run, steps, j);
    HandedStays(run, steps, i, j);
    assert Leads(run[i], steps[i], run[i + 1]);
    if p in run[j].live && p !in run[j].finished {
      assert Working(run[j], p);
    }
  }

  /** The two ways the row passes from one process to another. */
  ghost predicate LegitimateHandOver(s: System, step: Step, n: System) {
    || (step.Assign? && Some(step.s) == s.row.pid && step.s in s.launched && n.row.pid == Some(s.launched[step.s]))
    || (step.Start? && n.row.pid == Some(step.s) && s.row.pid.Some? && s.row.pid.value !in s.live
        && s.row.heartbeat.Some? && step.now - s.row.heartbeat.value > HEARTBEAT_MAX_AGE)
  }

  lemma StartTakesOver(s: System, p: int, now: int)
    requires Inv(s) && AcquireStart(s.row, p, now, s.live).Some? && s.row.pid.Some?
    ensures s.row.pid.value !in s.live
    ensures s.row.heartbeat.Some? && now - s.row.heartbeat.value > HEARTBEAT_MAX_AGE
  {
    assert RowInv(s.row) && Active(s.row.state);
  }

  lemma StepHandsOver(s: System, step: Step)
    requires Inv(s) && Enabled(s, step)
    requires s.row.pid.Some? && Next(s, step).row.pid.Some? && s.row.pid != Next(s, step).row.pid
    ensures LegitimateHandOver(s, step, Next(s, step))
  {
    assert step.Start? || step.Assign?;
    if step.Start? {
      StartTakesOver(s, step.s, step.now);
    }
  }

  /**
   The row passes from one process to another only from a starter to its own child, or from a dead
   process whose heartbeat is over the limit to a starter.
   */
  lemma HandOver(run: seq<System>, steps: seq<Step>, i: nat)
    requires IsRun(run, steps) && i < |steps|
    requires run[i].row.pid.Some? && run[i + 1].row.pid.Some? && run[i].row.pid != run[i + 1].row.pid
    ensures LegitimateHandOver(run[i], steps[i], run[i + 1])
  {
    RunInv(run, steps, i);
    assert Leads(run[i], steps[i], run[i + 1]);
    StepHandsOver(run[i], steps[i]);
  }

  /** No start succeeds while any earlier worker or starter is alive and unstopped. */
  lemma StartNeedsSilence(run: seq<System>, steps: seq<Step>, i: nat, p: int)
    requires IsRun(run, steps) && i < |steps| && steps[i].Start?
    requires AcquireStart(run[i].row, steps[i].s, steps[i].now, run[i].live).Some?
    ensures !Working(run[i], p) && p !in run[i].starters
  {
    RunInv(run, steps, i);
    if Working(run[i], p) || p in run[i].starters {
      assert run[i].row.pid == Some(p) && Alive(p, run[i].live);
    }
  }

  predicate Halted(r: Row) {
    r.killBlocking && (r.state == SafeStop || r.state == Stopped)
  }

  lemma HaltedStep(s: System, step: Step)
    requires Enabled(s, step) && Halted(s.row)
    requires step.Release? ==> ReleaseKill(s.row, step.now, s.live).None?
    ensures Halted(Next(s, step).row)
    ensures forall p :: !Passes(s, step, p)
    ensures step.Start? || step.Assign? || step.PauseEntries? || step.ResumeEntries? ==> Next(s, step) == s
  {
  }

  lemma KillHalts(s: System, step: Step)
    requires step.Kill?
    ensures Halted(Next(s, step).row)
  {
  }

  predicate Releases(s: System, step: Step) {
    step.Release? && ReleaseKill(s.row, step.now, s.live).Some?
  }

  lemma {:induction false} KillHolds(run: seq<System>, steps: seq<Step>, i: nat, j: nat)
    requires IsRun(run, steps) && i < j < |run| && steps[i].Kill?
    requires forall k {:trigger steps[k]} :: i < k < j ==> !Releases(run[k], steps[k])
    ensures Halted(run[j].row)
  {
    var w, step := run[j - 1], steps[j - 1];
    assert Leads(w, step, run[j]);
    if i < j - 1 {
      KillHolds(run, steps, i, j - 1);
      assert !Releases(w, step);
      HaltedStep(w, step);
    } else {
      KillHalts(w, step);
    }
  }

  /**
   After Emergency Kill, only a successful release leaves SAFE_STOP or STOPPED; until then no start,
   assignment, pause or resume changes anything and no process passes heartbeat.
   */
  lemma KillSticks(run: seq<System>, steps: seq<Step>, i: nat, j: nat, p: int)
    requires IsRun(run, steps) && i < j < |steps| && steps[i].Kill?
    requires forall k {:trigger steps[k]} :: i < k <= j ==> !Releases(run[k], steps[k])
    ensures Halted(run[j].row) && Halted(run[j + 1].row)
    ensures !Passes(run[j], steps[j], p)
    ensures steps[j].Start? || steps[j].Assign? || steps[j].PauseEntries? || steps[j].ResumeEntries? ==>
              run[j + 1] == run[j]
  {
    KillHolds(run, steps, i, j);
    assert Leads(run[j], steps[j], run[j + 1]);
    HaltedStep(run[j], steps[j]);
  }
}
