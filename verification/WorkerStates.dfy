/** What the state of the control row means over whole runs: how each state is entered and left. */
module WorkerStates {
  import opened Outcomes
  import opened DemoOperator
  import opened WorkerSafety

  // ---------------------------------------------------------------- the ways out of a working state

  /** The process in the row reports that it stopped, or that its start failed. */
  predicate OwnerEnds(s: System, step: Step) {
    (step.Finish? && s.row.pid == Some(step.p)) || (step.FailStart? && s.row.pid == Some(step.s))
  }

  /** No owner that is alive, and no heartbeat within the limit: nothing forbids another start. */
  ghost predicate Abandoned(s: System, now: int) {
    && (s.row.pid.Some? ==> s.row.pid.value !in s.live)
    && (s.row.heartbeat.Some? ==> now - s.row.heartbeat.value > 20)
  }

  /** A start that is let through: no kill, and the row is idle or abandoned. */
  ghost predicate Starts(s: System, step: Step) {
    step.Start? && !s.row.killBlocking && (Active(s.row.state) ==> Abandoned(s, step.now))
  }

  /** A release for recovery that is let through: the process in the row is gone. */
  ghost predicate Recovers(s: System, step: Step) {
    step.Release? && (s.row.pid.Some? ==> s.row.pid.value !in s.live)
  }

  /** The ends of any working state: its owner ends, a kill, a recovery, or a takeover from a dead owner. */
  ghost predicate Ends(s: System, step: Step) {
    step.Kill? || OwnerEnds(s, step) || Recovers(s, step) || Starts(s, step)
  }

  predicate Hands(s: System, step: Step) {
    step.Assign? && s.row.state == Starting
  }

  predicate AsksToStop(s: System, step: Step) {
    step.Stop? && (s.row.state == Starting || s.row.state == Running || s.row.state == Paused)
  }

  predicate Pauses(s: System, step: Step) {
    step.PauseEntries? && s.row.state == Running
  }

  /** A resume needs a live owner that beat within the limit. */
  predicate Resumes(s: System, step: Step) {
    && step.ResumeEntries? && s.row.state == Paused
    && s.row.pid.Some? && s.row.pid.value in s.live
    && s.row.heartbeat.Some? && step.now - s.row.heartbeat.value <= 20
  }

  /** Processes appear and disappear only as such; a start is a live process's that is no worker, a beat or report a live worker's. */
  lemma ProcessesMove(s: System, step: Step)
    requires Enabled(s, step)
    ensures var n := Next(s, step);
            && n.live == (if step.Spawn? then s.live + {step.p} else if step.Launch? then s.live + {step.child}
                          else if step.Die? then s.live - {step.p} else s.live)
            && n.used == (if step.Spawn? then s.used + {step.p} else if step.Launch? then s.used + {step.child} else s.used)
            && n.workers == (if step.Launch? then s.workers + {step.child} else s.workers)
            && n.finished == (if step.Finish? then s.finished + {step.p} else s.finished)
    ensures step.Start? ==> step.s in s.live && step.s !in s.workers
    ensures step.Beat? || step.Finish? ==> step.p in s.live && step.p in s.workers
    ensures step.Spawn? ==> step.p !in s.used
    ensures step.Launch? ==> step.child !in s.used && step.s in s.starters
  {
  }

  /** Which transactions are let through. */
  lemma GrantsMean(s: System, step: Step)
    requires Inv(s) && Enabled(s, step)
    ensures step.Start? ==> (AcquireStart(s.row, step.s, step.now, s.live).Some? <==> Starts(s, step))
    ensures step.Assign? ==> (SetWorkerPid(s.row, s.launched[step.s], step.now).Some? <==> Hands(s, step))
    ensures step.PauseEntries? ==> (Pause(s.row, step.now).Some? <==> Pauses(s, step))
    ensures step.ResumeEntries? ==> (Resume(s.row, step.now, s.live).Some? <==> Resumes(s, step))
    ensures step.Release? ==> (ReleaseKill(s.row, step.now, s.live).Some? <==> Recovers(s, step))
  {
    assert RowInv(s.row);
    assert s.row.pid.Some? ==> s.row.pid.value > 0;
  }

  /** How STARTING is entered and left. */
  lemma StartMoves(s: System, step: Step)
    requires Inv(s) && Enabled(s, step)
    ensures var before, after := s.row.state, Next(s, step).row.state;
            after == Starting <==>
              Starts(s, step) || (before == Starting && !Ends(s, step) && !Hands(s, step) && !AsksToStop(s, step))
  {
    GrantsMean(s, step);
  }

  /** How RUNNING is entered and left. */
  lemma WorkMoves(s: System, step: Step)
    requires Inv(s) && Enabled(s, step)
    ensures var before, after := s.row.state, Next(s, step).row.state;
            after == Running <==>
              || Hands(s, step) || Resumes(s, step)
              || (before == Running && !Ends(s, step) && !AsksToStop(s, step) && !Pauses(s, step))
  {
    GrantsMean(s, step);
  }

  /** How PAUSED is entered and left. */
  lemma PauseMoves(s: System, step: Step)
    requires Inv(s) && Enabled(s, step)
    ensures var before, after := s.row.state, Next(s, step).row.state;
            after == Paused <==>
              Pauses(s, step) || (before == Paused && !Ends(s, step) && !AsksToStop(s, step) && !Resumes(s, step))
  {
    GrantsMean(s, step);
  }

  /** How STOP_REQUESTED is entered and left. */
  lemma StopMoves(s: System, step: Step)
    requires Inv(s) && Enabled(s, step)
    ensures var before, after := s.row.state, Next(s, step).row.state;
            after == StopRequested <==> AsksToStop(s, step) || (before == StopRequested && !Ends(s, step))
  {
    GrantsMean(s, step);
  }

  /** How the row comes to rest: by what a stopping owner reports, a recovery, or a kill. */
  lemma RestMoves(s: System, step: Step)
    requires Inv(s) && Enabled(s, step)
    ensures var n := Next(s, step);
            && (step.Kill? ==> n.row.state == SafeStop)
            && (step.Finish? && OwnerEnds(s, step) ==>
                  && n.row.pid.None?
                  && n.row.state == (if step.error.Some? && |step.error.value| > 0 then SafeStop else Stopped))
            && (step.FailStart? && OwnerEnds(s, step) ==> n.row.pid.None? && n.row.state == SafeStop)
            && (Recovers(s, step) ==> n.row.pid.None? && n.row.state == Stopped)
            && (!Active(s.row.state) && !Ends(s, step) ==> n.row == s.row)
  {
    GrantsMean(s, step);
  }

  /** Only a kill engages the switch and only a recovery releases it. */
  lemma SwitchMoves(s: System, step: Step)
    requires Inv(s) && Enabled(s, step)
    ensures Next(s, step).row.killBlocking <==> step.Kill? || (s.row.killBlocking && !Recovers(s, step))
  {
    GrantsMean(s, step);
  }

  /** The steps that may write the row, and their clock. */
  predicate Timed(step: Step) {
    !step.Spawn? && !step.Die? && !step.Launch?
  }

  /**
   Every write of the row is stamped with its time; a start sets the start time and the others keep it or
   fill it in; a start, a hand-over, a resume and a recovery clear the error.
   */
  lemma WritesAreStamped(s: System, step: Step)
    requires Inv(s) && Enabled(s, step) && Next(s, step).row != s.row
    ensures Timed(step)
    ensures var n := Next(s, step);
            && n.row.heartbeat == Some(step.now)
            && n.row.started == (if Starts(s, step) || s.row.started.None? then Some(step.now) else s.row.started)
            && (Starts(s, step) || Hands(s, step) || Resumes(s, step) || Recovers(s, step) ==> n.row.error.None?)
            && (step.Kill? || Pauses(s, step) ==> n.row.error.Some?)
            && (AsksToStop(s, step) ==> n.row.error == s.row.error)
            && (step.Finish? ==> n.row.error == step.error)
  {
    GrantsMean(s, step);
  }

  /** A heartbeat passes exactly for the row's process in a working state, and writes its time and a missing start time. */
  lemma BeatsOnlyBeat(s: System, p: int, now: int)
    requires Inv(s) && Enabled(s, Beat(p, now))
    ensures var n := Next(s, Beat(p, now));
            && (Passes(s, Beat(p, now), p) <==>
                  s.row.pid == Some(p) && (s.row.state == Running || s.row.state == Paused || s.row.state == StopRequested))
            && (!Passes(s, Beat(p, now), p) ==> n == s)
            && n.row.state == s.row.state && n.row.pid == s.row.pid && n.row.killBlocking == s.row.killBlocking
            && n.row.error == s.row.error
            && (Passes(s, Beat(p, now), p) ==>
                  n.row.heartbeat == Some(now) && n.row.started == (if s.row.started.Some? then s.row.started else Some(now)))
            && n == s.(row := n.row)
  {
  }

  // ---------------------------------------------------------------- over whole runs

  ghost predicate NoneEnds(run: seq<System>, steps: seq<Step>, i: nat, j: nat)
    requires |run| == |steps| + 1
  {
    forall k {:trigger steps[k]} :: i <= k < j && k < |steps| ==> !Ends(run[k], steps[k])
  }

  /** The owner changes only when a working state ends or a starter hands over. */
  lemma OwnerStays(s: System, step: Step)
    requires Inv(s) && Enabled(s, step) && !Ends(s, step) && !Hands(s, step)
    ensures Next(s, step).row.pid == s.row.pid
  {
    GrantsMean(s, step);
  }

  /**
   A requested stop stays requested, whoever beats, pauses or resumes, until the owner ends, a kill, a
   recovery or a takeover; every heartbeat that passes meanwhile is the owner's and sees it, and the
   owner's report then stops the row.
   */
  lemma {:induction false} StopSticks(run: seq<System>, steps: seq<Step>, i: nat, j: nat)
    requires IsRun(run, steps) && i < j <= |steps| && AsksToStop(run[i], steps[i]) && NoneEnds(run, steps, i + 1, j)
    ensures run[j].row.state == StopRequested && run[j].row.pid == run[i].row.pid && run[j].row.pid.Some?
    ensures j < |steps| && steps[j].Beat? && Passes(run[j], steps[j], steps[j].p) ==>
              Some(steps[j].p) == run[i].row.pid && run[j + 1].row.state == StopRequested
    ensures j < |steps| && steps[j].Finish? && Some(steps[j].p) == run[i].row.pid && steps[j].error.None? ==>
              run[j + 1].row.state == Stopped && run[j + 1].row.pid.None?
    decreases j
  {
    RunInv(run, steps, j - 1);
    assert Leads(run[j - 1], steps[j - 1], run[j]);
    StopMoves(run[j - 1], steps[j - 1]);
    if i + 1 < j {
      StopSticks(run, steps, i, j - 1);
      OwnerStays(run[j - 1], steps[j - 1]);
    } else {
      assert RowInv(run[i].row);
    }
    if j < |steps| {
      RunInv(run, steps, j);
      assert Leads(run[j], steps[j], run[j + 1]);
      RestMoves(run[j], steps[j]);
      if steps[j].Beat? {
        BeatsOnlyBeat(run[j], steps[j].p, steps[j].now);
      }
    }
  }

  ghost predicate NoneResumesOrStops(run: seq<System>, steps: seq<Step>, i: nat, j: nat)
    requires |run| == |steps| + 1
  {
    forall k {:trigger steps[k]} :: i <= k < j && k < |steps| ==>
      !Resumes(run[k], steps[k]) && !AsksToStop(run[k], steps[k])
  }

  /** A pause lasts until a resume, a stop request, or the end of the working state; the owner is meanwhile the same. */
  lemma {:induction false} PauseSticks(run: seq<System>, steps: seq<Step>, i: nat, j: nat)
    requires IsRun(run, steps) && i < j <= |steps| && Pauses(run[i], steps[i])
    requires NoneEnds(run, steps, i + 1, j) && NoneResumesOrStops(run, steps, i + 1, j)
    ensures run[j].row.state == Paused && run[j].row.pid == run[i].row.pid && run[j].row.pid.Some?
    decreases j
  {
    RunInv(run, steps, j - 1);
    assert Leads(run[j - 1], steps[j - 1], run[j]);
    PauseMoves(run[j - 1], steps[j - 1]);
    if i + 1 < j {
      PauseSticks(run, steps, i, j - 1);
      OwnerStays(run[j - 1], steps[j - 1]);
    } else {
      assert RowInv(run[i].row);
    }
  }
}
