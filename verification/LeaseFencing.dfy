/**
 Any number of coordinators against the one lease row, interleaved step by step.

 The SQL of the lease functions fixes the steps. An acquire statement first evaluates its VALUES
 row, which draws the next token and computes the expiry, and only then waits for the row; the two
 halves are separate steps here. A fenced transaction locks the row from its fence check to its
 commit or rollback. A client may lose any reply, and any process may crash. A client may also give up
 on a statement that takes effect later: an acquire, a renewal, a release, or the commit of an open
 transaction.
 */
module LeaseFencing {
  import opened Outcomes
  import opened ExecutionLease

  datatype LeaseRow = LeaseRow(owner: string, token: nat, acquiredAt: int, heartbeatAt: int, leaseUntil: int)

  /** An acquire statement that has drawn its token and has not yet met the row. */
  datatype Ticket = Ticket(owner: string, drawnAt: int, leaseUntil: int)

  /** The open fenced transaction, which holds the row lock; abandoned once its client gave up on the commit. */
  datatype Transaction = Transaction(process: nat, token: nat, abandoned: bool)

  /** A statement in flight whose client has given up on it. */
  datatype Statement = LateRenewal(owner: string, token: nat, ttl: nat) | LateRelease(owner: string, token: nat)

  /** A committed fenced write; generation counts the leases installed before it, less one. */
  datatype Commit = Commit(process: nat, owner: string, token: nat, generation: nat)

  datatype Database = Database(
    row: Option<LeaseRow>,
    lastToken: nat,
    pending: map<nat, Ticket>,
    lock: Option<Transaction>,
    installed: seq<nat>,
    log: seq<Commit>,
    late: multiset<Statement>)

  /** waiting is the token of the acquire statement whose reply the process awaits. */
  datatype Process = Process(c: Coordinator, ttl: nat, waiting: Option<nat>)

  datatype System = System(now: int, db: Database, processes: seq<Process>)

  datatype Step =
    | Tick(elapsed: nat)
    | DrawTicket(p: nat)
    | ConcludeAcquire(token: nat, delivered: bool)
    | AbandonAcquire(p: nat)
    | Renew(p: nat, reached: bool, delivered: bool)
    | Release(p: nat, reached: bool, delivered: bool)
    | BeginFenced(p: nat, reachable: bool)
    | FailFenced
    | RejectCallback
    | CommitFenced(acknowledged: bool)
    | GiveUpRenew(p: nat)
    | GiveUpRelease(p: nat)
    | GiveUpCommit
    | RunLate(x: Statement)
    | Crash(p: nat)

  predicate RowCurrent(db: Database, owner: string, token: nat, now: int) {
    && db.row.Some? && db.row.value.owner == owner && db.row.value.token == token
    && db.row.value.leaseUntil > now
  }

  function AsRecord(row: LeaseRow): LeaseRecord {
    LeaseRecord(row.owner, row.token, row.acquiredAt, row.heartbeatAt, row.leaseUntil)
  }

  function Max(a: int, b: int): int { if a < b then b else a }

  /** A process runs one store call at a time. */
  predicate Idle(s: System, p: nat) {
    && p < |s.processes| && s.processes[p].waiting.None?
    && (s.db.lock.Some? ==> s.db.lock.value.process != p || s.db.lock.value.abandoned)
  }

  predicate Enabled(s: System, step: Step) {
    match step
    case Tick(_) => true
    case DrawTicket(p) => Idle(s, p) && s.processes[p].c.enabled
    case ConcludeAcquire(token, _) => token in s.db.pending && s.db.lock.None?
    case AbandonAcquire(p) => p < |s.processes| && s.processes[p].waiting.Some?
    case Renew(p, reached, _) => Idle(s, p) && (reached ==> s.db.lock.None?)
    case Release(p, reached, _) => Idle(s, p) && (reached ==> s.db.lock.None?)
    case BeginFenced(p, reachable) => Idle(s, p) && (reachable ==> s.db.lock.None?)
    case FailFenced => s.db.lock.Some? && s.db.lock.value.process < |s.processes|
    case RejectCallback => s.db.lock.Some? && !s.db.lock.value.abandoned
    case GiveUpRenew(p) => Idle(s, p) && s.processes[p].c.Authorized()
    case GiveUpRelease(p) => Idle(s, p) && s.processes[p].c.lease.Some?
    case GiveUpCommit => s.db.lock.Some? && !s.db.lock.value.abandoned && s.db.lock.value.process < |s.processes|
    case RunLate(x) => x in s.db.late && s.db.lock.None?
    case CommitFenced(_) => s.db.lock.Some? && s.db.lock.value.process < |s.processes|
    case Crash(p) => p < |s.processes|
  }

  function WithProcess(s: System, p: nat, process: Process): System
    requires p < |s.processes|
  {
    s.(processes := s.processes[p := process])
  }

  /** The upsert: a free slot or an expired row takes the drawn values, anything else answers no row. */
  function Conclude(s: System, token: nat): (Database, Option<LeaseRecord>)
    requires token in s.db.pending
  {
    var ticket := s.db.pending[token];
    var db := s.db.(pending := s.db.pending - {token});
    if s.db.row.None? || s.db.row.value.leaseUntil <= s.now then
      var row := LeaseRow(ticket.owner, token, ticket.drawnAt, ticket.drawnAt, ticket.leaseUntil);
      (db.(row := Some(row), installed := s.db.installed + [token]), Some(AsRecord(row)))
    else
      (db, None)
  }

  /** Reply delivery to whichever process still waits for this token. */
  function Delivered(processes: seq<Process>, token: nat, reply: StoreReply<Option<LeaseRecord>>): (r: seq<Process>)
    ensures |r| == |processes|
    ensures forall i :: 0 <= i < |processes| ==>
              r[i] == if processes[i].waiting == Some(token)
                      then processes[i].(waiting := None, c := AfterAcquire(processes[i].c, reply))
                      else processes[i]
  {
    if processes == [] then []
    else
      var last := processes[|processes| - 1];
      Delivered(processes[..|processes| - 1], token, reply)
      + [if last.waiting == Some(token)
         then last.(waiting := None, c := AfterAcquire(last.c, reply)) else last]
  }

  function RowAfterRenew(s: System, lease: LeaseRecord, ttl: nat): Option<LeaseRow>
    requires RowCurrent(s.db, lease.holder, lease.token, s.now)
  {
    Some(s.db.row.value.(heartbeatAt := s.now, leaseUntil := s.now + ttl))
  }

  function StepRenew(s: System, p: nat, reached: bool, delivered: bool): System
    requires p < |s.processes|
  {
    var q := s.processes[p];
    if !q.c.Authorized() || !reached then
      WithProcess(s, p, q.(c := AfterRenew(q.c, Unavailable)))
    else
      var lease := q.c.lease.value;
      if RowCurrent(s.db, lease.holder, lease.token, s.now) then
        var row := RowAfterRenew(s, lease, q.ttl);
        var reply := if delivered then Answered(Some(AsRecord(row.value))) else Unavailable;
        WithProcess(s, p, q.(c := AfterRenew(q.c, reply))).(db := s.db.(row := row))
      else
        WithProcess(s, p, q.(c := AfterRenew(q.c, if delivered then Answered(None) else Unavailable)))
  }

  function StepRelease(s: System, p: nat, reached: bool, delivered: bool): System
    requires p < |s.processes|
  {
    var q := s.processes[p];
    if q.c.lease.None? || !reached then
      WithProcess(s, p, q.(c := AfterRelease(q.c, Unavailable)))
    else
      var lease := q.c.lease.value;
      var matches := s.db.row.Some? && s.db.row.value.owner == lease.holder && s.db.row.value.token == lease.token;
      var row := if matches
                 then Some(s.db.row.value.(heartbeatAt := s.now,
                                           leaseUntil := Max(s.now, s.db.row.value.acquiredAt + 1)))
                 else s.db.row;
      WithProcess(s, p, q.(c := AfterRelease(q.c, if delivered then Answered(matches) else Unavailable)))
        .(db := s.db.(row := row))
  }

  function RejectedBy(q: Process): Process
    requires q.c.Authorized()
  {
    q.(c := AfterFenced(q.c, FenceFailed))
  }

  function StepBegin(s: System, p: nat, reachable: bool): System
    requires p < |s.processes|
  {
    var q := s.processes[p];
    if !q.c.Authorized() then s
    else
      var lease := q.c.lease.value;
      if reachable && RowCurrent(s.db, lease.holder, lease.token, s.now) then
        s.(db := s.db.(lock := Some(Transaction(p, lease.token, false))))
      else
        WithProcess(s, p, RejectedBy(q))
  }

  function FailLockHolder(s: System): System
    requires s.db.lock.Some? && s.db.lock.value.process < |s.processes|
  {
    var p := s.db.lock.value.process;
    var q := s.processes[p];
    if s.db.lock.value.abandoned || !q.c.Authorized() then s else WithProcess(s, p, RejectedBy(q))
  }

  /** A renewal or release that takes effect when it reaches the row. */
  function AfterLate(row: Option<LeaseRow>, x: Statement, now: int): Option<LeaseRow> {
    if row.None? || row.value.owner != x.owner || row.value.token != x.token then row
    else match x
      case LateRenewal(_, _, ttl) =>
        if row.value.leaseUntil > now then Some(row.value.(heartbeatAt := now, leaseUntil := now + ttl)) else row
      case LateRelease(_, _) =>
        Some(row.value.(heartbeatAt := now, leaseUntil := Max(now, row.value.acquiredAt + 1)))
  }

  function Next(s: System, step: Step): System
    requires Enabled(s, step)
  {
    match step
    case Tick(elapsed) => s.(now := s.now + elapsed)
    case DrawTicket(p) =>
      var q := s.processes[p];
      var token := s.db.lastToken + 1;
      var ticket := Ticket(q.c.instance, s.now, s.now + q.ttl);
      WithProcess(s, p, q.(waiting := Some(token)))
        .(db := s.db.(lastToken := token, pending := s.db.pending[token := ticket]))
    case ConcludeAcquire(token, delivered) =>
      var (db, answer) := Conclude(s, token);
      System(s.now, db, Delivered(s.processes, token, if delivered then Answered(answer) else Unavailable))
    case AbandonAcquire(p) =>
      var q := s.processes[p];
      WithProcess(s, p, q.(waiting := None, c := AfterAcquire(q.c, Unavailable)))
    case Renew(p, reached, delivered) => StepRenew(s, p, reached, delivered)
    case Release(p, reached, delivered) => StepRelease(s, p, reached, delivered)
    case BeginFenced(p, reachable) => StepBegin(s, p, reachable)
    case FailFenced => FailLockHolder(s).(db := s.db.(lock := None))
    case RejectCallback => s.(db := s.db.(lock := None))
    case CommitFenced(acknowledged) =>
      var entry := Commit(s.db.lock.value.process, s.processes[s.db.lock.value.process].c.instance,
                          s.db.lock.value.token, if s.db.installed == [] then 0 else |s.db.installed| - 1);
      (if acknowledged then s else FailLockHolder(s))
        .(db := s.db.(lock := None, log := s.db.log + [entry]))
    case GiveUpRenew(p) =>
      var q := s.processes[p];
      WithProcess(s, p, q.(c := AfterRenew(q.c, Unavailable)))
        .(db := s.db.(late := s.db.late + multiset{LateRenewal(q.c.lease.value.holder, q.c.lease.value.token, q.ttl)}))
    case GiveUpRelease(p) =>
      var q := s.processes[p];
      WithProcess(s, p, q.(c := AfterRelease(q.c, Unavailable)))
        .(db := s.db.(late := s.db.late + multiset{LateRelease(q.c.lease.value.holder, q.c.lease.value.token)}))
    case GiveUpCommit =>
      FailLockHolder(s).(db := s.db.(lock := Some(s.db.lock.value.(abandoned := true))))
    case RunLate(x) =>
      s.(db := s.db.(row := AfterLate(s.db.row, x, s.now), late := s.db.late - multiset{x}))
    case Crash(p) =>
      var q := s.processes[p];
      var rollsBack := s.db.lock.Some? && s.db.lock.value.process == p && !s.db.lock.value.abandoned;
      WithProcess(s, p, Process(Fresh(q.c.instance, q.c.enabled), q.ttl, None))
        .(db := if rollsBack then s.db.(lock := None) else s.db)
  }

  ghost predicate Initial(s: System) {
    && s.db == Database(None, 0, map[], None, [], [], multiset{})
    && forall i :: 0 <= i < |s.processes| ==>
         var q := s.processes[i];
         q.c == Fresh(q.c.instance, q.c.enabled) && q.waiting.None?
  }

  ghost predicate Leads(s: System, step: Step, n: System) {
    Enabled(s, step) && n == Next(s, step)
  }

  ghost predicate IsRun(run: seq<System>, steps: seq<Step>) {
    && |run| == |steps| + 1 && Initial(run[0])
    && forall i {:trigger steps[i]} :: 0 <= i < |steps| ==> Leads(run[i], steps[i], run[i + 1])
  }

  // ---------------------------------------------------------------- invariant

  ghost predicate DatabaseInv(db: Database) {
    && (forall t :: t in db.pending ==> 0 < t <= db.lastToken && t !in db.installed)
    && (forall i :: 0 <= i < |db.installed| ==> 0 < db.installed[i] <= db.lastToken)
    && (forall i, j :: 0 <= i < j < |db.installed| ==> db.installed[i] != db.installed[j])
    && (db.row.Some? <==> db.installed != [])
    && (db.row.Some? ==> db.row.value.token == db.installed[|db.installed| - 1])
    && (forall k :: 0 <= k < |db.log| ==>
          db.log[k].generation < |db.installed| && db.installed[db.log[k].generation] == db.log[k].token)
    && (forall k, l :: 0 <= k < l < |db.log| ==> db.log[k].generation <= db.log[l].generation)
  }

  ghost predicate ProcessInv(db: Database, q: Process) {
    && q.c.Coherent()
    && (q.c.lease.Some? ==> q.c.lease.value.token in db.installed && q.c.lease.value.holder == q.c.instance)
    && (q.waiting.Some? ==>
          q.c.enabled && q.waiting.value in db.pending && db.pending[q.waiting.value].owner == q.c.instance)
    && (q.c.lease.Some? && q.waiting.Some? ==> q.c.lease.value.token < q.waiting.value)
  }

  ghost predicate LockInv(s: System) {
    s.db.lock.Some? ==>
      var t := s.db.lock.value;
      && t.process < |s.processes| && s.db.row.Some? && s.db.row.value.token == t.token
      && s.processes[t.process].c.instance == s.db.row.value.owner
      && (!t.abandoned ==>
            && s.processes[t.process].c.lease.Some? && s.processes[t.process].c.lease.value.token == t.token
            && s.processes[t.process].waiting.None?)
  }

  ghost predicate Private(a: Process, b: Process) {
    && (a.c.lease.Some? && b.c.lease.Some? ==> a.c.lease.value.token != b.c.lease.value.token)
    && (a.waiting.Some? ==> a.waiting != b.waiting)
  }

  ghost predicate Inv(s: System) {
    && DatabaseInv(s.db)
    && LockInv(s)
    && (forall i :: 0 <= i < |s.processes| ==> ProcessInv(s.db, s.processes[i]))
    && (forall i, j :: 0 <= i < j < |s.processes| ==> Private(s.processes[i], s.processes[j]))
  }

  lemma InitialInv(s: System)
    requires Initial(s)
    ensures Inv(s)
  {
  }

  lemma ConcludeDatabase(s: System, token: nat)
    requires DatabaseInv(s.db) && token in s.db.pending && s.db.lock.None?
    ensures DatabaseInv(Conclude(s, token).0)
    ensures forall t :: t in s.db.installed ==> t in Conclude(s, token).0.installed
    ensures Conclude(s, token).1.Some? ==>
              && Conclude(s, token).1.value.token == token && token in Conclude(s, token).0.installed
              && Conclude(s, token).1.value.holder == s.db.pending[token].owner
  {
    var db := Conclude(s, token).0;
    assert forall i :: 0 <= i < |s.db.installed| ==> db.installed[i] == s.db.installed[i];
    if db.installed != s.db.installed {
      assert db.installed[|s.db.installed|] == token;
    }
  }

  lemma ConcludeProcess(s: System, token: nat, answer: Option<LeaseRecord>, delivered: bool, q: Process, n: Process)
    requires DatabaseInv(s.db) && ProcessInv(s.db, q) && token in s.db.pending && s.db.lock.None?
    requires answer == Conclude(s, token).1
    requires n == if q.waiting == Some(token)
                  then q.(waiting := None, c := AfterAcquire(q.c, if delivered then Answered(answer) else Unavailable))
                  else q
    ensures ProcessInv(Conclude(s, token).0, n)
  {
    ConcludeDatabase(s, token);
  }

  lemma ConcludePrivate(s: System, token: nat, reply: StoreReply<Option<LeaseRecord>>, i: nat, j: nat)
    requires Inv(s) && token in s.db.pending && i < j < |s.processes|
    requires reply.Answered? && reply.value.Some? ==> reply.value.value.token == token
    ensures Private(Delivered(s.processes, token, reply)[i], Delivered(s.processes, token, reply)[j])
  {
    assert Private(s.processes[i], s.processes[j]);
    assert ProcessInv(s.db, s.processes[i]) && ProcessInv(s.db, s.processes[j]);
  }

  lemma ConcludeInv(s: System, token: nat, delivered: bool)
    requires Inv(s) && Enabled(s, ConcludeAcquire(token, delivered))
    ensures Inv(Next(s, ConcludeAcquire(token, delivered)))
  {
    var n := Next(s, ConcludeAcquire(token, delivered));
    var answer := Conclude(s, token).1;
    ConcludeDatabase(s, token);
    forall i | 0 <= i < |n.processes|
      ensures ProcessInv(n.db, n.processes[i])
    {
      ConcludeProcess(s, token, answer, delivered, s.processes[i], n.processes[i]);
    }
    forall i, j | 0 <= i < j < |n.processes|
      ensures Private(n.processes[i], n.processes[j])
    {
      ConcludePrivate(s, token, if delivered then Answered(answer) else Unavailable, i, j);
    }
  }

  /** A step that touches one process and never installs a lease. */
  lemma OneProcessInv(s: System, n: System, p: nat)
    requires Inv(s) && p < |s.processes| && |n.processes| == |s.processes|
    requires forall i :: 0 <= i < |s.processes| && i != p ==> n.processes[i] == s.processes[i]
    requires DatabaseInv(n.db) && LockInv(n) && ProcessInv(n.db, n.processes[p])
    requires s.db.installed == n.db.installed && s.db.lastToken <= n.db.lastToken
    requires forall t :: t in s.db.pending ==> t in n.db.pending && n.db.pending[t] == s.db.pending[t]
    requires n.processes[p].c.lease.Some? ==>
               s.processes[p].c.lease.Some? && s.processes[p].c.lease.value.token == n.processes[p].c.lease.value.token
    requires n.processes[p].waiting.Some? ==>
               n.processes[p].waiting == s.processes[p].waiting || n.processes[p].waiting.value !in s.db.pending
    ensures Inv(n)
  {
    forall i | 0 <= i < |n.processes|
      ensures ProcessInv(n.db, n.processes[i])
    {
      assert ProcessInv(s.db, s.processes[i]);
    }
    forall i, j | 0 <= i < j < |n.processes|
      ensures Private(n.processes[i], n.processes[j])
    {
      assert Private(s.processes[i], s.processes[j]);
      assert ProcessInv(s.db, s.processes[i]) && ProcessInv(s.db, s.processes[j]);
    }
  }

  lemma DrawInv(s: System, p: nat)
    requires Inv(s) && Enabled(s, DrawTicket(p))
    ensures Inv(Next(s, DrawTicket(p)))
  {
    assert ProcessInv(s.db, s.processes[p]);
    OneProcessInv(s, Next(s, DrawTicket(p)), p);
  }

  lemma AbandonInv(s: System, p: nat)
    requires Inv(s) && Enabled(s, AbandonAcquire(p))
    ensures Inv(Next(s, AbandonAcquire(p)))
  {
    assert ProcessInv(s.db, s.processes[p]);
    OneProcessInv(s, Next(s, AbandonAcquire(p)), p);
  }

  lemma RenewInv(s: System, p: nat, reached: bool, delivered: bool)
    requires Inv(s) && Enabled(s, Renew(p, reached, delivered))
    ensures Inv(Next(s, Renew(p, reached, delivered)))
  {
    assert ProcessInv(s.db, s.processes[p]);
    var n := StepRenew(s, p, reached, delivered);
    assert DatabaseInv(n.db) && LockInv(n);
    assert ProcessInv(n.db, n.processes[p]);
    OneProcessInv(s, n, p);
  }

  lemma ReleaseInv(s: System, p: nat, reached: bool, delivered: bool)
    requires Inv(s) && Enabled(s, Release(p, reached, delivered))
    ensures Inv(Next(s, Release(p, reached, delivered)))
  {
    assert ProcessInv(s.db, s.processes[p]);
    OneProcessInv(s, Next(s, Release(p, reached, delivered)), p);
  }

  lemma BeginInv(s: System, p: nat, reachable: bool)
    requires Inv(s) && Enabled(s, BeginFenced(p, reachable))
    ensures Inv(Next(s, BeginFenced(p, reachable)))
  {
    assert ProcessInv(s.db, s.processes[p]);
    OneProcessInv(s, Next(s, BeginFenced(p, reachable)), p);
  }

  lemma FailInv(s: System)
    requires Inv(s) && Enabled(s, FailFenced)
    ensures Inv(FailLockHolder(s).(db := s.db.(lock := None)))
  {
    var p := s.db.lock.value.process;
    assert ProcessInv(s.db, s.processes[p]);
    OneProcessInv(s, FailLockHolder(s).(db := s.db.(lock := None)), p);
  }

  lemma GiveUpRenewInv(s: System, p: nat)
    requires Inv(s) && Enabled(s, GiveUpRenew(p))
    ensures Inv(Next(s, GiveUpRenew(p)))
  {
    assert ProcessInv(s.db, s.processes[p]);
    OneProcessInv(s, Next(s, GiveUpRenew(p)), p);
  }

  lemma GiveUpReleaseInv(s: System, p: nat)
    requires Inv(s) && Enabled(s, GiveUpRelease(p))
    ensures Inv(Next(s, GiveUpRelease(p)))
  {
    assert ProcessInv(s.db, s.processes[p]);
    OneProcessInv(s, Next(s, GiveUpRelease(p)), p);
  }

  lemma GiveUpCommitInv(s: System)
    requires Inv(s) && Enabled(s, GiveUpCommit)
    ensures Inv(Next(s, GiveUpCommit))
  {
    var p := s.db.lock.value.process;
    assert ProcessInv(s.db, s.processes[p]);
    OneProcessInv(s, Next(s, GiveUpCommit), p);
  }

  /** A late statement leaves owner and token of the row as they are. */
  lemma RunLateInv(s: System, x: Statement)
    requires Inv(s) && Enabled(s, RunLate(x))
    ensures Inv(Next(s, RunLate(x)))
  {
    var n := Next(s, RunLate(x));
    forall i | 0 <= i < |n.processes|
      ensures ProcessInv(n.db, n.processes[i])
    {
      assert ProcessInv(s.db, s.processes[i]);
    }
  }

  lemma UnlockInv(s: System)
    requires Inv(s)
    ensures Inv(s.(db := s.db.(lock := None)))
  {
  }

  lemma AppendCommitInv(s: System, entry: Commit)
    requires Inv(s) && s.db.installed != []
    requires entry.generation == |s.db.installed| - 1 && entry.token == s.db.installed[entry.generation]
    ensures Inv(s.(db := s.db.(log := s.db.log + [entry])))
  {
    var n := s.(db := s.db.(log := s.db.log + [entry]));
    forall i | 0 <= i < |n.processes|
      ensures ProcessInv(n.db, n.processes[i])
    {
      assert ProcessInv(s.db, s.processes[i]);
    }
  }

  lemma CommitInv(s: System, acknowledged: bool)
    requires Inv(s) && Enabled(s, CommitFenced(acknowledged))
    ensures Inv(Next(s, CommitFenced(acknowledged)))
  {
    var n := Next(s, CommitFenced(acknowledged));
    var m := (if acknowledged then s else FailLockHolder(s)).(db := s.db.(lock := None));
    if acknowledged {
      UnlockInv(s);
    } else {
      FailInv(s);
    }
    AppendCommitInv(m, n.db.log[|s.db.log|]);
    assert n == m.(db := m.db.(log := n.db.log));
  }

  lemma CrashInv(s: System, p: nat)
    requires Inv(s) && Enabled(s, Crash(p))
    ensures Inv(Next(s, Crash(p)))
  {
    assert ProcessInv(s.db, s.processes[p]);
    OneProcessInv(s, Next(s, Crash(p)), p);
  }

  lemma StepInv(s: System, step: Step)
    requires Inv(s) && Enabled(s, step)
    ensures Inv(Next(s, step))
  {
    match step
    case Tick(_) =>
    case DrawTicket(p) => DrawInv(s, p);
    case ConcludeAcquire(token, delivered) => ConcludeInv(s, token, delivered);
    case AbandonAcquire(p) => AbandonInv(s, p);
    case Renew(p, reached, delivered) => RenewInv(s, p, reached, delivered);
    case Release(p, reached, delivered) => ReleaseInv(s, p, reached, delivered);
    case BeginFenced(p, reachable) => BeginInv(s, p, reachable);
    case FailFenced => FailInv(s);
    case RejectCallback =>
    case CommitFenced(acknowledged) => CommitInv(s, acknowledged);
    case GiveUpRenew(p) => GiveUpRenewInv(s, p);
    case GiveUpRelease(p) => GiveUpReleaseInv(s, p);
    case GiveUpCommit => GiveUpCommitInv(s);
    case RunLate(x) => RunLateInv(s, x);
    case Crash(p) => CrashInv(s, p);
  }

  lemma {:induction false} RunInv(run: seq<System>, steps: seq<Step>, i: nat)
    requires IsRun(run, steps) && i < |run|
    ensures Inv(run[i])
  {
    if i == 0 {
      InitialInv(run[0]);
    } else {
      RunInv(run, steps, i - 1);
      assert Leads(run[i - 1], steps[i - 1], run[i]);
      StepInv(run[i - 1], steps[i - 1]);
    }
  }

  // ---------------------------------------------------------------- theorems over every run

  lemma {:induction false} HistoryGrows(run: seq<System>, steps: seq<Step>, i: nat, j: nat)
    requires IsRun(run, steps) && i <= j < |run|
    ensures run[i].db.installed <= run[j].db.installed
    ensures run[i].db.log <= run[j].db.log
    ensures |run[i].processes| == |run[j].processes|
    ensures forall k :: |run[i].db.log| <= k < |run[j].db.log| ==>
              run[j].db.log[k].generation + 1 >= |run[i].db.installed|
  {
    if i < j {
      HistoryGrows(run, steps, i, j - 1);
      assert Leads(run[j - 1], steps[j - 1], run[j]);
    }
  }

  /** Once another lease has been installed, no write under the old token commits, whoever holds it. */
  lemma SupersededNeverCommits(run: seq<System>, steps: seq<Step>, i: nat, j: nat, token: nat, k: nat)
    requires IsRun(run, steps) && i <= j < |run|
    requires token in run[i].db.installed && token != run[i].db.installed[|run[i].db.installed| - 1]
    requires |run[i].db.log| <= k < |run[j].db.log|
    ensures run[j].db.log[k].token != token
  {
    HistoryGrows(run, steps, i, j);
    RunInv(run, steps, j);
    var installed := run[i].db.installed;
    var m :| 0 <= m < |installed| && installed[m] == token;
    assert run[j].db.installed[m] == token && m < run[j].db.log[k].generation;
  }

  /** The transaction that now holds the lock was opened, by its process and under this row, in step k. */
  ghost predicate OpenedAt(run: seq<System>, steps: seq<Step>, i: nat, k: nat)
    requires k < i < |run| && |run| == |steps| + 1
  {
    && run[i].db.lock.Some?
    && var t := run[i].db.lock.value;
    && steps[k] == BeginFenced(t.process, true) && t.process < |run[k].processes|
    && run[k].processes[t.process].c.Authorized() && run[k].processes[t.process].c.lease.value.token == t.token
    && RowCurrent(run[k].db, run[k].processes[t.process].c.lease.value.holder, t.token, run[k].now)
    && run[i].db.row == run[k].db.row
  }

  lemma OpenedBy(s: System, step: Step)
    requires Enabled(s, step) && Next(s, step).db.lock.Some? && s.db.lock.None?
    ensures var t := Next(s, step).db.lock.value;
            && step == BeginFenced(t.process, true) && t.process < |s.processes|
            && s.processes[t.process].c.Authorized() && s.processes[t.process].c.lease.value.token == t.token
            && RowCurrent(s.db, s.processes[t.process].c.lease.value.holder, t.token, s.now)
            && Next(s, step).db.row == s.db.row
  {
  }

  lemma StaysLocked(s: System, step: Step)
    requires Enabled(s, step) && Next(s, step).db.lock.Some? && s.db.lock.Some?
    ensures Next(s, step).db.lock.value.process == s.db.lock.value.process
    ensures Next(s, step).db.lock.value.token == s.db.lock.value.token
    ensures Next(s, step).db.row == s.db.row
  {
  }

  lemma {:induction false} LockWasOpened(run: seq<System>, steps: seq<Step>, i: nat) returns (k: nat)
    requires IsRun(run, steps) && i < |run| && run[i].db.lock.Some?
    ensures k < i && OpenedAt(run, steps, i, k)
  {
    assert i > 0;
    assert Leads(run[i - 1], steps[i - 1], run[i]);
    if run[i - 1].db.lock.None? {
      k := i - 1;
      OpenedBy(run[k], steps[k]);
    } else {
      k := LockWasOpened(run, steps, i - 1);
      StaysLocked(run[i - 1], steps[i - 1]);
    }
  }

  /**
   A write commits only while its token is the row's and its process is the row's owner. Its process
   was authorized when the transaction began, and the row has not changed since; it may have given up
   in between, and the commit then takes effect without it.
   */
  lemma CommitsUnderTheRow(run: seq<System>, steps: seq<Step>, i: nat) returns (k: nat)
    requires IsRun(run, steps) && i < |steps| && steps[i].CommitFenced?
    ensures |run[i + 1].db.log| == |run[i].db.log| + 1
    ensures var entry := run[i + 1].db.log[|run[i].db.log|];
            && run[i].db.row.Some? && entry.token == run[i].db.row.value.token
            && entry.owner == run[i].db.row.value.owner
            && k < i && steps[k] == BeginFenced(entry.process, true) && entry.process < |run[k].processes|
            && run[k].processes[entry.process].c.Authorized()
            && run[k].processes[entry.process].c.lease.value.token == entry.token
            && run[k].db.row == run[i].db.row
  {
    RunInv(run, steps, i);
    assert Leads(run[i], steps[i], run[i + 1]);
    k := LockWasOpened(run, steps, i);
  }

  /** Process p holds no token, and awaits none, up to this one. */
  ghost predicate Barred(s: System, p: nat, token: nat) {
    && p < |s.processes| && token <= s.db.lastToken
    && (s.processes[p].c.lease.Some? ==> s.processes[p].c.lease.value.token > token)
    && (s.processes[p].waiting.Some? ==> s.processes[p].waiting.value > token)
  }

  /** How one step can change the token a process holds or awaits. */
  ghost predicate TokensMove(before: Process, after: Process, lastToken: nat) {
    && (after.c.lease.Some? ==>
          || (before.c.lease.Some? && before.c.lease.value.token == after.c.lease.value.token)
          || before.waiting == Some(after.c.lease.value.token))
    && (after.waiting.Some? ==> after.waiting == before.waiting || after.waiting.value > lastToken)
  }

  lemma ConcludeMoves(s: System, token: nat, delivered: bool, p: nat)
    requires Inv(s) && Enabled(s, ConcludeAcquire(token, delivered)) && p < |s.processes|
    ensures var n := Next(s, ConcludeAcquire(token, delivered));
            n.db.lastToken == s.db.lastToken && TokensMove(s.processes[p], n.processes[p], s.db.lastToken)
  {
  }

  lemma RenewMoves(s: System, q: nat, reached: bool, delivered: bool, p: nat)
    requires Inv(s) && Enabled(s, Renew(q, reached, delivered)) && p < |s.processes|
    ensures var n := Next(s, Renew(q, reached, delivered));
            && p < |n.processes| && n.db.lastToken == s.db.lastToken
            && TokensMove(s.processes[p], n.processes[p], s.db.lastToken)
  {
  }

  lemma ReleaseMoves(s: System, q: nat, reached: bool, delivered: bool, p: nat)
    requires Inv(s) && Enabled(s, Release(q, reached, delivered)) && p < |s.processes|
    ensures var n := Next(s, Release(q, reached, delivered));
            && p < |n.processes| && n.db.lastToken == s.db.lastToken
            && TokensMove(s.processes[p], n.processes[p], s.db.lastToken)
  {
  }

  lemma BeginMoves(s: System, q: nat, reachable: bool, p: nat)
    requires Inv(s) && Enabled(s, BeginFenced(q, reachable)) && p < |s.processes|
    ensures var n := Next(s, BeginFenced(q, reachable));
            && p < |n.processes| && n.db.lastToken == s.db.lastToken
            && TokensMove(s.processes[p], n.processes[p], s.db.lastToken)
  {
  }

  lemma StepMoves(s: System, step: Step, p: nat)
    requires Inv(s) && Enabled(s, step) && p < |s.processes|
    ensures var n := Next(s, step);
            && p < |n.processes| && s.db.lastToken <= n.db.lastToken
            && TokensMove(s.processes[p], n.processes[p], s.db.lastToken)
  {
    match step
    case ConcludeAcquire(token, delivered) => ConcludeMoves(s, token, delivered, p);
    case Renew(q, reached, delivered) => RenewMoves(s, q, reached, delivered, p);
    case Release(q, reached, delivered) => ReleaseMoves(s, q, reached, delivered, p);
    case BeginFenced(q, reachable) => BeginMoves(s, q, reachable, p);
    case _ =>
  }

  lemma LossBars(s: System, step: Step, p: nat)
    requires Inv(s) && Enabled(s, step) && p < |s.processes| && p < |Next(s, step).processes|
    requires s.processes[p].c.Authorized() && !Next(s, step).processes[p].c.Authorized()
    ensures Barred(Next(s, step), p, s.processes[p].c.lease.value.token)
  {
    StepInv(s, step);
    StepMoves(s, step, p);
    var n := Next(s, step);
    assert ProcessInv(s.db, s.processes[p]);
    assert ProcessInv(n.db, n.processes[p]);
  }

  lemma BarredStays(s: System, step: Step, p: nat, token: nat)
    requires Inv(s) && Enabled(s, step) && Barred(s, p, token)
    ensures Barred(Next(s, step), p, token)
  {
    StepMoves(s, step, p);
  }

  /** A process that loses its authority, for whatever reason, regains one only with a strictly newer token. */
  lemma {:induction false} LostAuthorityNeedsNewerToken(run: seq<System>, steps: seq<Step>, i: nat, j: nat, p: nat)
    requires IsRun(run, steps) && i < j < |run| && p < |run[i].processes| && p < |run[i + 1].processes|
    requires run[i].processes[p].c.Authorized() && !run[i + 1].processes[p].c.Authorized()
    ensures Barred(run[j], p, run[i].processes[p].c.lease.value.token)
    ensures run[j].processes[p].c.Authorized() ==>
              run[j].processes[p].c.lease.value.token > run[i].processes[p].c.lease.value.token
    decreases j
  {
    RunInv(run, steps, j - 1);
    assert Leads(run[j - 1], steps[j - 1], run[j]);
    if i + 1 == j {
      LossBars(run[i], steps[i], p);
    } else {
      LostAuthorityNeedsNewerToken(run, steps, i, j - 1, p);
      BarredStays(run[j - 1], steps[j - 1], p, run[i].processes[p].c.lease.value.token);
    }
  }

  /** The transaction of process p is open and it still awaits its end. */
  predicate HoldsLock(s: System, p: nat) {
    s.db.lock.Some? && s.db.lock.value.process == p && !s.db.lock.value.abandoned
  }

  /**
   The fence refuses process p: its check meets another or an expired row or no database, its open
   transaction fails, or the commit of that transaction is not acknowledged, before or after it
   takes effect.
   */
  ghost predicate Rejecting(s: System, step: Step, p: nat) {
    && p < |s.processes|
    && match step
       case BeginFenced(q, reachable) =>
         && q == p && s.processes[p].c.Authorized()
         && !(reachable && RowCurrent(s.db, s.processes[p].c.lease.value.holder, s.processes[p].c.lease.value.token, s.now))
       case FailFenced => HoldsLock(s, p)
       case CommitFenced(acknowledged) => !acknowledged && HoldsLock(s, p)
       case GiveUpCommit => HoldsLock(s, p)
       case _ => false
  }

  lemma RejectionDemotes(s: System, step: Step, p: nat)
    requires Inv(s) && Enabled(s, step) && Rejecting(s, step, p)
    ensures s.processes[p].c.Authorized() && !Next(s, step).processes[p].c.Authorized()
    ensures Next(s, step).db.row == s.db.row && Next(s, step).db.installed == s.db.installed
    ensures !step.CommitFenced? ==> Next(s, step).db.log == s.db.log
  {
    assert ProcessInv(s.db, s.processes[p]);
  }

  /**
   A holder that the fence refuses loses its authority at once and regains one only with a strictly
   newer token; unless the refusal is a lost acknowledgement, that step wrote nothing.
   */
  lemma RejectedNeedsNewerToken(run: seq<System>, steps: seq<Step>, i: nat, j: nat, p: nat)
    requires IsRun(run, steps) && i < j < |run| && Rejecting(run[i], steps[i], p)
    ensures p < |run[i + 1].processes| && p < |run[j].processes|
    ensures run[i].processes[p].c.Authorized() && !run[i + 1].processes[p].c.Authorized()
    ensures run[i + 1].db.row == run[i].db.row && run[i + 1].db.installed == run[i].db.installed
    ensures !steps[i].CommitFenced? ==> run[i + 1].db.log == run[i].db.log
    ensures run[j].processes[p].c.Authorized() ==>
              run[j].processes[p].c.lease.value.token > run[i].processes[p].c.lease.value.token
  {
    RunInv(run, steps, i);
    assert Leads(run[i], steps[i], run[i + 1]);
    RejectionDemotes(run[i], steps[i], p);
    LostAuthorityNeedsNewerToken(run, steps, i, j, p);
  }

  /** No two processes ever hold the same token, however many believe themselves authorized. */
  lemma TokensAreExclusive(run: seq<System>, steps: seq<Step>, i: nat, p: nat, q: nat)
    requires IsRun(run, steps) && i < |run| && p < |run[i].processes| && q < |run[i].processes|
    requires run[i].processes[p].c.Authorized() && run[i].processes[q].c.Authorized()
    requires run[i].processes[p].c.lease.value.token == run[i].processes[q].c.lease.value.token
    ensures p == q
  {
    RunInv(run, steps, i);
    assert p < q ==> Private(run[i].processes[p], run[i].processes[q]);
    assert q < p ==> Private(run[i].processes[q], run[i].processes[p]);
  }

  // ---------------------------------------------------------------- token order

  ghost predicate TokensNeverDecrease(log: seq<Commit>) {
    forall k, l :: 0 <= k < l < |log| ==> log[k].token <= log[l].token
  }

  /** Every acquire statement still in flight will install a newer token than all before it. */
  ghost predicate DrawnInOrder(db: Database) {
    && (forall i, j :: 0 <= i < j < |db.installed| ==> db.installed[i] < db.installed[j])
    && (forall i, t :: 0 <= i < |db.installed| && t in db.pending ==> db.installed[i] < t)
  }

  ghost predicate AtMostInFlight(run: seq<System>, limit: nat) {
    forall i :: 0 <= i < |run| ==> |run[i].db.pending| <= limit
  }

  lemma OnlyOnePending(pending: map<nat, Ticket>, a: nat, b: nat)
    requires a in pending && b in pending && |pending| <= 1
    ensures a == b
  {
    var both := {a, b};
    assert both <= pending.Keys;
    assert |pending.Keys - both| == |pending.Keys| - |both|;
    assert a != b ==> |both| == 2;
  }

  lemma StepKeepsOrder(s: System, step: Step)
    requires Enabled(s, step) && DatabaseInv(s.db) && DrawnInOrder(s.db) && |s.db.pending| <= 1
    ensures DrawnInOrder(Next(s, step).db)
  {
    var db, n := s.db, Next(s, step).db;
    if step.ConcludeAcquire? {
      forall t | t in n.pending
        ensures false
      {
        OnlyOnePending(db.pending, t, step.token);
      }
      assert forall k :: 0 <= k < |db.installed| ==> n.installed[k] == db.installed[k];
    }
  }

  lemma {:induction false} SerialAcquiresKeepOrder(run: seq<System>, steps: seq<Step>, i: nat)
    requires IsRun(run, steps) && AtMostInFlight(run, 1) && i < |run|
    ensures DrawnInOrder(run[i].db)
  {
    if i > 0 {
      SerialAcquiresKeepOrder(run, steps, i - 1);
      RunInv(run, steps, i - 1);
      assert Leads(run[i - 1], steps[i - 1], run[i]);
      StepKeepsOrder(run[i - 1], steps[i - 1]);
    }
  }

  ghost predicate AlwaysOrdered(limit: nat) {
    forall run: seq<System>, steps: seq<Step> :: IsRun(run, steps) && AtMostInFlight(run, limit) ==>
      TokensNeverDecrease(run[|run| - 1].db.log)
  }

  /** One acquire in flight at a time: the tokens of committed writes never go back. */
  lemma SerialAcquiresOrdered()
    ensures AlwaysOrdered(1)
  {
    forall run: seq<System>, steps: seq<Step> | IsRun(run, steps) && AtMostInFlight(run, 1)
      ensures TokensNeverDecrease(run[|run| - 1].db.log)
    {
      SerialAcquiresKeepOrder(run, steps, |run| - 1);
      RunInv(run, steps, |run| - 1);
    }
  }

  const TTL: nat := 15_000_000

  function TwoReplicas(): System {
    System(0, Database(None, 0, map[], None, [], [], multiset{}),
           [Process(Fresh("a", true), TTL, None), Process(Fresh("b", true), TTL, None)])
  }

  function Holding(instance: string, token: nat, at: int): Process {
    Process(AfterAcquire(Fresh(instance, true),
                         Answered(Some(LeaseRecord(instance, token, at, at, at + TTL)))), TTL, None)
  }

  /** Appends one enabled step to a run. */
  lemma Extend(run: seq<System>, steps: seq<Step>, limit: nat, step: Step) returns (longer: seq<System>, more: seq<Step>)
    requires IsRun(run, steps) && AtMostInFlight(run, limit) && Enabled(run[|run| - 1], step)
    requires |Next(run[|run| - 1], step).db.pending| <= limit
    ensures IsRun(longer, more) && AtMostInFlight(longer, limit)
    ensures longer == run + [Next(run[|run| - 1], step)] && more == steps + [step]
  {
    longer, more := run + [Next(run[|run| - 1], step)], steps + [step];
    forall i {:trigger more[i]} | 0 <= i < |more|
      ensures Leads(longer[i], more[i], longer[i + 1])
    {
      if i < |steps| {
        assert Leads(run[i], steps[i], run[i + 1]);
      }
    }
  }

  function FirstLeads(): System {
    System(0, Database(Some(LeaseRow("a", 1, 0, 0, TTL)), 1, map[], None, [1], [], multiset{}),
           [Holding("a", 1, 0), TwoReplicas().processes[1]])
  }

  lemma FirstReplicaLeads() returns (run: seq<System>, steps: seq<Step>)
    ensures IsRun(run, steps) && AtMostInFlight(run, 1) && run[|run| - 1] == FirstLeads()
  {
    run, steps := Extend([TwoReplicas()], [], 1, DrawTicket(0));
    run, steps := Extend(run, steps, 1, ConcludeAcquire(1, true));
    assert run[2].processes == FirstLeads().processes && run[2].db.pending == map[];
  }

  /** Expiry alone leaves two replicas believing they lead; the row still belongs to only one. */
  lemma TwoLeadersAtOnce() returns (run: seq<System>, steps: seq<Step>)
    ensures IsRun(run, steps) && AtMostInFlight(run, 1)
    ensures var s := run[|run| - 1];
            && |s.processes| == 2 && s.processes[0].c.Authorized() && s.processes[1].c.Authorized()
            && Rejecting(s, BeginFenced(0, true), 0) && !Rejecting(s, BeginFenced(1, true), 1)
  {
    run, steps := FirstReplicaLeads();
    run, steps := Extend(run, steps, 1, Tick(TTL));
    run, steps := Extend(run, steps, 1, DrawTicket(1));
    run, steps := Extend(run, steps, 1, ConcludeAcquire(2, true));
    var s := run[|run| - 1];
    assert s.processes == [Holding("a", 1, 0), Holding("b", 2, TTL)];
    assert s.db.row == Some(LeaseRow("b", 2, TTL, TTL, TTL + TTL));
  }

  /** A commit whose client had given up on it, and was no longer authorized when it took effect. */
  lemma LateCommit() returns (run: seq<System>, steps: seq<Step>)
    ensures IsRun(run, steps) && AtMostInFlight(run, 1) && steps != [] && steps[|steps| - 1].CommitFenced?
    ensures run[|steps|].db.log == [Commit(0, "a", 1, 0)]
    ensures |run[|steps| - 1].processes| == 2 && !run[|steps| - 1].processes[0].c.Authorized()
  {
    run, steps := FirstReplicaLeads();
    run, steps := Extend(run, steps, 1, BeginFenced(0, true));
    run, steps := Extend(run, steps, 1, GiveUpCommit);
    run, steps := Extend(run, steps, 1, CommitFenced(false));
  }

  function LateB(): Process {
    Process(Fresh("b", true).Demoted(Released), TTL, None)
  }

  /** The state after the later draw has installed, written and released. */
  function Overtaken(): System {
    System(1, Database(Some(LeaseRow("b", 2, 0, 0, 1)), 2, map[1 := Ticket("a", 0, TTL)], None, [2],
                       [Commit(1, "b", 2, 0)], multiset{}),
           [Process(Fresh("a", true), TTL, Some(1)), LateB()])
  }

  function LaterLeads(): System {
    System(0, Database(Some(LeaseRow("b", 2, 0, 0, TTL)), 2, Overtaken().db.pending, None, [2], [], multiset{}),
           [Overtaken().processes[0], Holding("b", 2, 0)])
  }

  function BothDrawn(): System {
    System(0, Database(None, 2, map[1 := Ticket("a", 0, TTL), 2 := Ticket("b", 0, TTL)], None, [], [], multiset{}),
           [Overtaken().processes[0], Process(Fresh("b", true), TTL, Some(2))])
  }

  lemma LaterConcludes()
    ensures Enabled(BothDrawn(), ConcludeAcquire(2, true))
    ensures Next(BothDrawn(), ConcludeAcquire(2, true)) == LaterLeads()
  {
    var n := Next(BothDrawn(), ConcludeAcquire(2, true));
    assert n.processes == LaterLeads().processes && n.db.pending == LaterLeads().db.pending;
  }

  lemma LaterDrawInstallsFirst() returns (run: seq<System>, steps: seq<Step>)
    ensures IsRun(run, steps) && AtMostInFlight(run, 2) && run[|run| - 1] == LaterLeads()
  {
    run, steps := Extend([TwoReplicas()], [], 2, DrawTicket(0));
    run, steps := Extend(run, steps, 2, DrawTicket(1));
    assert run[2] == BothDrawn() by {
      assert run[2].processes == BothDrawn().processes;
    }
    LaterConcludes();
    run, steps := Extend(run, steps, 2, ConcludeAcquire(2, true));
  }

  lemma LaterDrawWritesFirst() returns (run: seq<System>, steps: seq<Step>)
    ensures IsRun(run, steps) && AtMostInFlight(run, 2) && run[|run| - 1] == Overtaken()
  {
    run, steps := LaterDrawInstallsFirst();
    run, steps := Extend(run, steps, 2, BeginFenced(1, true));
    run, steps := Extend(run, steps, 2, CommitFenced(true));
    run, steps := Extend(run, steps, 2, Release(1, true, true));
    assert run[|run| - 1].processes == Overtaken().processes;
    run, steps := Extend(run, steps, 2, Tick(1));
  }

  /** Two acquires in flight: the earlier draw installs last, and the committed tokens go back. */
  lemma OvertakenAcquire() returns (run: seq<System>, steps: seq<Step>)
    ensures IsRun(run, steps) && AtMostInFlight(run, 2)
    ensures !TokensNeverDecrease(run[|run| - 1].db.log)
  {
    run, steps := LaterDrawWritesFirst();
    run, steps := Extend(run, steps, 2, ConcludeAcquire(1, true));
    assert run[|run| - 1].processes == [Holding("a", 1, 0), LateB()];
    run, steps := Extend(run, steps, 2, BeginFenced(0, true));
    run, steps := Extend(run, steps, 2, CommitFenced(true));
    var log := run[|run| - 1].db.log;
    assert log == [Commit(1, "b", 2, 0), Commit(0, "a", 1, 1)];
    assert log[0].token == 2 && log[1].token == 1;
  }

  /** The order of committed tokens holds in every run exactly when acquires never overlap. */
  lemma TokenOrderNeedsSerialAcquires(limit: nat)
    ensures AlwaysOrdered(limit) <==> limit <= 1
  {
    if limit <= 1 {
      SerialAcquiresOrdered();
      forall run: seq<System>, steps: seq<Step> | IsRun(run, steps) && AtMostInFlight(run, limit)
        ensures AtMostInFlight(run, 1)
      {
      }
    } else {
      var run, steps := OvertakenAcquire();
      assert AtMostInFlight(run, limit);
    }
  }
}
