/** What each step of the replicas does to a process, to the open transaction and to the statements in flight. */
module LeaseSteps {
  import opened Outcomes
  import opened ExecutionLease
  import opened LeaseFencing
  import opened LeaseDuration

  /** A process may start a call exactly when it awaits neither an acquire nor the end of its transaction. */
  lemma FreeToCall(s: System, p: nat)
    requires p < |s.processes|
    ensures Idle(s, p) <==> s.processes[p].waiting.None? && !HoldsLock(s, p)
  {
  }

  /** The process whose answer the step is, or whose call it starts or ends. */
  ghost predicate Concerns(s: System, step: Step, q: nat) {
    && q < |s.processes|
    && match step
       case Tick(_) | RejectCallback | RunLate(_) => false
       case ConcludeAcquire(token, _) => s.processes[q].waiting == Some(token)
       case FailFenced | GiveUpCommit => HoldsLock(s, q)
       case CommitFenced(acknowledged) => !acknowledged && HoldsLock(s, q)
       case _ => step.p == q
  }

  /** No step changes a process it does not concern: not a late effect, nor another's crash, failure or answer. */
  lemma OthersStay(s: System, step: Step, q: nat)
    requires Inv(s) && Enabled(s, step) && q < |s.processes| && !Concerns(s, step, q)
    ensures q < |Next(s, step).processes| && Next(s, step).processes[q] == s.processes[q]
  {
  }

  /** The answers after which a process is authorized. */
  ghost predicate Grants(s: System, step: Step, q: nat)
    requires q < |s.processes|
  {
    match step
    case Renew(_, _, delivered) => Renews(s, step) && delivered
    case ConcludeAcquire(_, delivered) => Installs(s, step) && delivered && s.processes[q].c.enabled
    case BeginFenced(_, reachable) =>
      && reachable && s.processes[q].c.Authorized()
      && RowCurrent(s.db, s.processes[q].c.lease.value.holder, s.processes[q].c.lease.value.token, s.now)
    case DrawTicket(_) => s.processes[q].c.Authorized()
    case _ => false
  }

  /** A process that a step concerns is authorized after it exactly by a delivered grant; any other answer, and silence, ends its authority. */
  lemma OnlyAnswersAuthorize(s: System, step: Step, q: nat)
    requires Inv(s) && Enabled(s, step) && Concerns(s, step, q)
    ensures q < |Next(s, step).processes|
    ensures Next(s, step).processes[q].c.Authorized() <==> Grants(s, step, q)
  {
    assert ProcessInv(s.db, s.processes[q]);
  }

  /** A process awaits an acquire from its draw to its conclusion, its own giving up or its crash. */
  lemma WaitingMoves(s: System, step: Step, q: nat)
    requires Inv(s) && Enabled(s, step) && q < |s.processes| && q < |Next(s, step).processes|
    ensures Next(s, step).processes[q].waiting
            == if step == DrawTicket(q) then Some(s.db.lastToken + 1)
               else if step == AbandonAcquire(q) || step == Crash(q)
                       || (step.ConcludeAcquire? && s.processes[q].waiting == Some(step.token)) then None
               else s.processes[q].waiting
  {
  }

  /** A transaction holds the row from a fence check that passes to its end; a crash ends only the process's own, if it still awaits it. */
  lemma LockMoves(s: System, step: Step)
    requires Inv(s) && Enabled(s, step)
    ensures var n := Next(s, step).db.lock;
            match step
            case BeginFenced(p, _) =>
              n == if Grants(s, step, p) then Some(Transaction(p, s.processes[p].c.lease.value.token, false)) else s.db.lock
            case FailFenced | RejectCallback | CommitFenced(_) => n.None?
            case GiveUpCommit => n == Some(Transaction(s.db.lock.value.process, s.db.lock.value.token, true))
            case Crash(p) => n == if HoldsLock(s, p) then None else s.db.lock
            case _ => n == s.db.lock
  {
  }

  /** The statement a process gives up on stays in flight, once, and takes effect once. */
  lemma LateMoves(s: System, step: Step)
    requires Inv(s) && Enabled(s, step)
    ensures var n := Next(s, step).db.late;
            match step
            case GiveUpRenew(p) =>
              var q := s.processes[p];
              n == s.db.late + multiset{LateRenewal(q.c.instance, q.c.lease.value.token, q.ttl)}
            case GiveUpRelease(p) =>
              var q := s.processes[p];
              n == s.db.late + multiset{LateRelease(q.c.instance, q.c.lease.value.token)}
            case RunLate(x) => n[x] + 1 == s.db.late[x] && forall y :: y != x ==> n[y] == s.db.late[y]
            case _ => n == s.db.late
  {
    if step.GiveUpRenew? || step.GiveUpRelease? {
      assert ProcessInv(s.db, s.processes[step.p]);
    }
  }

  /** Only a commit writes, and it writes one entry, acknowledged or not. */
  lemma LogMoves(s: System, step: Step)
    requires Inv(s) && Enabled(s, step)
    ensures if step.CommitFenced? then
              var t := s.db.lock.value;
              && |Next(s, step).db.log| == |s.db.log| + 1 && s.db.log <= Next(s, step).db.log
              && Next(s, step).db.log[|s.db.log|]
                 == Commit(t.process, s.processes[t.process].c.instance, t.token, |s.db.installed| - 1)
            else Next(s, step).db.log == s.db.log
  {
  }
}
