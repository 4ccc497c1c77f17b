/** How long a lease protects its holder, and when another may be installed. */
module LeaseDuration {
  import opened Outcomes
  import opened ExecutionLease
  import opened LeaseFencing

  // ---------------------------------------------------------------- the statements that meet the row

  /** An acquire that takes effect. */
  predicate Installs(s: System, step: Step) {
    step.ConcludeAcquire? && (s.db.row.None? || s.db.row.value.leaseUntil <= s.now)
  }

  /** A renewal that takes effect, its client waiting or not. */
  predicate Renews(s: System, step: Step) {
    match step
    case Renew(p, reached, _) =>
      && p < |s.processes| && reached && s.processes[p].c.Authorized()
      && RowCurrent(s.db, s.processes[p].c.lease.value.holder, s.processes[p].c.lease.value.token, s.now)
    case RunLate(x) => x.LateRenewal? && RowCurrent(s.db, x.owner, x.token, s.now)
    case _ => false
  }

  /** The duration the renewal asks for. */
  function RenewalTtl(s: System, step: Step): nat
    requires Renews(s, step)
  {
    if step.Renew? then s.processes[step.p].ttl else step.x.ttl
  }

  predicate IsRow(db: Database, owner: string, token: nat) {
    db.row.Some? && db.row.value.owner == owner && db.row.value.token == token
  }

  /** A release that takes effect, its client waiting or not. */
  predicate Releases(s: System, step: Step) {
    match step
    case Release(p, reached, _) =>
      && p < |s.processes| && reached && s.processes[p].c.lease.Some?
      && IsRow(s.db, s.processes[p].c.lease.value.holder, s.processes[p].c.lease.value.token)
    case RunLate(x) => x.LateRelease? && IsRow(s.db, x.owner, x.token)
    case _ => false
  }

  /** Nothing else changes the row, and the two that keep its owner and token write these times. */
  lemma RowMoves(s: System, step: Step)
    requires Enabled(s, step)
    ensures var n := Next(s, step);
            && s.now <= n.now
            && (step.ConcludeAcquire? ==> n.now == s.now)
            && (Installs(s, step) <==> n.db.installed != s.db.installed)
            && (Renews(s, step) ==>
                  && s.db.row.Some? && n.now == s.now
                  && n.db.row == Some(s.db.row.value.(heartbeatAt := s.now, leaseUntil := s.now + RenewalTtl(s, step))))
            && (Releases(s, step) ==>
                  && s.db.row.Some? && n.now == s.now && n.db.row.Some?
                  && n.db.row.value.owner == s.db.row.value.owner && n.db.row.value.token == s.db.row.value.token
                  && n.db.row.value.acquiredAt == s.db.row.value.acquiredAt && n.db.row.value.heartbeatAt == s.now
                  && n.db.row.value.leaseUntil
                     == (if s.now > s.db.row.value.acquiredAt then s.now else s.db.row.value.acquiredAt + 1))
            && (!Installs(s, step) && !Renews(s, step) && !Releases(s, step) ==> n.db.row == s.db.row)
  {
    if Installs(s, step) {
      assert |Next(s, step).db.installed| == |s.db.installed| + 1;
    }
  }

  // ---------------------------------------------------------------- tickets

  /** Step d draws this token at time t, for this owner and duration. */
  ghost predicate DrawnAt(run: seq<System>, steps: seq<Step>, d: nat, token: nat, owner: string, t: int, ttl: nat)
    requires |run| == |steps| + 1
  {
    && d < |steps| && steps[d].DrawTicket? && steps[d].p < |run[d].processes|
    && token == run[d].db.lastToken + 1 && t == run[d].now
    && owner == run[d].processes[steps[d].p].c.instance && ttl == run[d].processes[steps[d].p].ttl
  }

  lemma TicketStays(s: System, step: Step, token: nat)
    requires Inv(s) && Enabled(s, step) && token in Next(s, step).db.pending
    ensures if token in s.db.pending then Next(s, step).db.pending[token] == s.db.pending[token]
            else && step.DrawTicket? && token == s.db.lastToken + 1
                 && var q := s.processes[step.p];
                    Next(s, step).db.pending[token] == Ticket(q.c.instance, s.now, s.now + q.ttl)
  {
  }

  /** Every acquire in flight was drawn by some step, and its times count from there. */
  lemma {:induction false} TicketWasDrawn(run: seq<System>, steps: seq<Step>, i: nat, token: nat) returns (d: nat)
    requires IsRun(run, steps) && i < |run| && token in run[i].db.pending
    ensures d < i && run[d].now <= run[i].now
    ensures var x := run[i].db.pending[token];
            x.drawnAt <= x.leaseUntil && DrawnAt(run, steps, d, token, x.owner, x.drawnAt, x.leaseUntil - x.drawnAt)
  {
    assert i > 0;
    var s, step := run[i - 1], steps[i - 1];
    assert Leads(s, step, run[i]);
    RunInv(run, steps, i - 1);
    RowMoves(s, step);
    TicketStays(s, step, token);
    if token in s.db.pending {
      d := TicketWasDrawn(run, steps, i - 1, token);
    } else {
      d := i - 1;
    }
  }

  // ---------------------------------------------------------------- a token belongs to one process

  /** Only process p holds or awaits the token, and late renewals of it ask for p's duration. */
  ghost predicate Belongs(s: System, token: nat, p: nat) {
    && p < |s.processes| && token <= s.db.lastToken
    && (forall q :: 0 <= q < |s.processes| ==>
          && (s.processes[q].waiting == Some(token) ==> q == p)
          && (s.processes[q].c.lease.Some? && s.processes[q].c.lease.value.token == token ==> q == p))
    && (forall x :: x in s.db.late && x.LateRenewal? && x.token == token ==> x.ttl == s.processes[p].ttl)
  }

  ghost predicate LateKnown(s: System) {
    forall x :: x in s.db.late ==> x.token <= s.db.lastToken
  }

  lemma LateStaysKnown(s: System, step: Step)
    requires Inv(s) && Enabled(s, step) && LateKnown(s)
    ensures LateKnown(Next(s, step))
  {
    if step.GiveUpRenew? || step.GiveUpRelease? {
      assert ProcessInv(s.db, s.processes[step.p]);
    }
  }

  lemma DurationsStay(s: System, step: Step)
    requires Enabled(s, step)
    ensures |Next(s, step).processes| == |s.processes|
    ensures forall q :: 0 <= q < |s.processes| ==>
              Next(s, step).processes[q].ttl == s.processes[q].ttl
              && Next(s, step).processes[q].c.instance == s.processes[q].c.instance
  {
  }

  lemma LateBelongs(s: System, step: Step, token: nat, p: nat)
    requires Enabled(s, step) && Belongs(s, token, p)
    ensures |Next(s, step).processes| == |s.processes|
    ensures forall x :: x in Next(s, step).db.late && x.LateRenewal? && x.token == token ==> x.ttl == s.processes[p].ttl
  {
    DurationsStay(s, step);
  }

  lemma BelongsStays(s: System, step: Step, token: nat, p: nat)
    requires Inv(s) && Enabled(s, step) && Belongs(s, token, p)
    ensures Belongs(Next(s, step), token, p)
  {
    var n := Next(s, step);
    DurationsStay(s, step);
    LateBelongs(s, step, token, p);
    StepMoves(s, step, p);
    forall q | 0 <= q < |n.processes|
      ensures n.processes[q].waiting == Some(token) ==> q == p
      ensures n.processes[q].c.lease.Some? && n.processes[q].c.lease.value.token == token ==> q == p
    {
      StepMoves(s, step, q);
    }
  }

  lemma DrawBelongs(s: System, p: nat)
    requires Inv(s) && LateKnown(s) && Enabled(s, DrawTicket(p))
    ensures Belongs(Next(s, DrawTicket(p)), s.db.lastToken + 1, p)
  {
    forall q | 0 <= q < |s.processes|
      ensures s.processes[q].waiting != Some(s.db.lastToken + 1)
      ensures s.processes[q].c.lease.Some? ==> s.processes[q].c.lease.value.token <= s.db.lastToken
    {
      assert ProcessInv(s.db, s.processes[q]);
    }
  }

  lemma {:induction false} RunLateKnown(run: seq<System>, steps: seq<Step>, i: nat)
    requires IsRun(run, steps) && i < |run|
    ensures LateKnown(run[i])
  {
    if i > 0 {
      RunLateKnown(run, steps, i - 1);
      RunInv(run, steps, i - 1);
      assert Leads(run[i - 1], steps[i - 1], run[i]);
      LateStaysKnown(run[i - 1], steps[i - 1]);
    }
  }

  lemma {:induction false} DrawnBelongs(run: seq<System>, steps: seq<Step>, d: nat, i: nat, token: nat, owner: string,
                                        t: int, ttl: nat)
    requires IsRun(run, steps) && d < i < |run| && DrawnAt(run, steps, d, token, owner, t, ttl)
    ensures Belongs(run[i], token, steps[d].p) && run[i].processes[steps[d].p].ttl == ttl
    decreases i
  {
    RunInv(run, steps, i - 1);
    assert Leads(run[i - 1], steps[i - 1], run[i]);
    DurationsStay(run[i - 1], steps[i - 1]);
    if d == i - 1 {
      RunLateKnown(run, steps, d);
      DrawBelongs(run[d], steps[d].p);
    } else {
      DrawnBelongs(run, steps, d, i - 1, token, owner, t, ttl);
      BelongsStays(run[i - 1], steps[i - 1], token, steps[d].p);
    }
  }

  /** The row's token belongs to the process that drew it. */
  lemma {:induction false} RowBelongs(run: seq<System>, steps: seq<Step>, i: nat) returns (p: nat)
    requires IsRun(run, steps) && i < |run| && run[i].db.row.Some?
    ensures Belongs(run[i], run[i].db.row.value.token, p)
  {
    assert i > 0;
    var s, step := run[i - 1], steps[i - 1];
    RunInv(run, steps, i - 1);
    assert Leads(s, step, run[i]);
    RowMoves(s, step);
    if Installs(s, step) {
      var d := TicketWasDrawn(run, steps, i - 1, step.token);
      p := steps[d].p;
      var x := s.db.pending[step.token];
      DrawnBelongs(run, steps, d, i, step.token, x.owner, x.drawnAt, x.leaseUntil - x.drawnAt);
    } else {
      p := RowBelongs(run, steps, i - 1);
      BelongsStays(s, step, s.db.row.value.token, p);
    }
  }

  // ---------------------------------------------------------------- grants

  /** Step i grants this lease: it installs a ticket drawn at t, or renews the row at t, for ttl. */
  ghost predicate Grants(run: seq<System>, steps: seq<Step>, i: nat, token: nat, owner: string, t: int, ttl: nat)
    requires |run| == |steps| + 1
  {
    && i < |steps|
    && if Renews(run[i], steps[i]) then
         IsRow(run[i].db, owner, token) && t == run[i].now && ttl == RenewalTtl(run[i], steps[i])
       else
         && Installs(run[i], steps[i]) && token == steps[i].token
         && exists d: nat :: d < i && DrawnAt(run, steps, d, token, owner, t, ttl)
  }

  lemma {:induction false} TimeForward(run: seq<System>, steps: seq<Step>, i: nat, j: nat)
    requires IsRun(run, steps) && i <= j < |run|
    ensures run[i].now <= run[j].now
  {
    if i < j {
      TimeForward(run, steps, i, j - 1);
      assert Leads(run[j - 1], steps[j - 1], run[j]);
      RowMoves(run[j - 1], steps[j - 1]);
    }
  }

  /** Tokens are drawn once. */
  lemma DrawnOnce(run: seq<System>, steps: seq<Step>, d: nat, e: nat)
    requires IsRun(run, steps) && d < |steps| && e < |steps| && steps[d].DrawTicket? && steps[e].DrawTicket?
    requires run[d].db.lastToken == run[e].db.lastToken
    ensures d == e
  {
    assert Leads(run[d], steps[d], run[d + 1]) && Leads(run[e], steps[e], run[e + 1]);
    if d < e {
      TokensGrow(run, steps, d + 1, e);
    } else if e < d {
      TokensGrow(run, steps, e + 1, d);
    }
  }

  lemma {:induction false} TokensGrow(run: seq<System>, steps: seq<Step>, i: nat, j: nat)
    requires IsRun(run, steps) && i <= j < |run|
    ensures run[i].db.lastToken <= run[j].db.lastToken
  {
    if i < j {
      TokensGrow(run, steps, i, j - 1);
      assert Leads(run[j - 1], steps[j - 1], run[j]);
    }
  }

  /** Whatever installs or renews grants, and then the row is the owner's until t + ttl, in the name of one process. */
  lemma GrantWrites(run: seq<System>, steps: seq<Step>, i: nat, token: nat, owner: string, t: int, ttl: nat) returns (p: nat)
    requires IsRun(run, steps) && Grants(run, steps, i, token, owner, t, ttl)
    ensures t <= run[i].now && IsRow(run[i + 1].db, owner, token)
    ensures run[i + 1].db.row.value.leaseUntil == t + ttl
    ensures run[i + 1].db.row.value.heartbeatAt == t
    ensures Belongs(run[i + 1], token, p) && run[i + 1].processes[p].ttl == ttl
  {
    assert Leads(run[i], steps[i], run[i + 1]);
    RunInv(run, steps, i);
    RowMoves(run[i], steps[i]);
    if Renews(run[i], steps[i]) {
      p := RowBelongs(run, steps, i);
      BelongsStays(run[i], steps[i], token, p);
      DurationsStay(run[i], steps[i]);
      if steps[i].Renew? {
        assert ProcessInv(run[i].db, run[i].processes[steps[i].p]);
      }
    } else {
      var d: nat :| d < i && DrawnAt(run, steps, d, token, owner, t, ttl);
      var e := TicketWasDrawn(run, steps, i, token);
      DrawnOnce(run, steps, d, e);
      TimeForward(run, steps, d, i);
      p := steps[d].p;
      DrawnBelongs(run, steps, d, i + 1, token, owner, t, ttl);
    }
  }

  /** Every acquire or renewal that takes effect is a grant. */
  lemma EffectsGrant(run: seq<System>, steps: seq<Step>, i: nat) returns (token: nat, owner: string, t: int, ttl: nat)
    requires IsRun(run, steps) && i < |steps| && (Installs(run[i], steps[i]) || Renews(run[i], steps[i]))
    ensures Grants(run, steps, i, token, owner, t, ttl)
  {
    assert Leads(run[i], steps[i], run[i + 1]);
    if Renews(run[i], steps[i]) {
      token, owner, t, ttl := run[i].db.row.value.token, run[i].db.row.value.owner, run[i].now, RenewalTtl(run[i], steps[i]);
    } else {
      var d := TicketWasDrawn(run, steps, i, steps[i].token);
      var x := run[i].db.pending[steps[i].token];
      token, owner, t, ttl := steps[i].token, x.owner, x.drawnAt, x.leaseUntil - x.drawnAt;
    }
  }

  // ---------------------------------------------------------------- how long it holds

  ghost predicate NoneReleases(run: seq<System>, steps: seq<Step>, i: nat, j: nat)
    requires |run| == |steps| + 1
  {
    forall k {:trigger steps[k]} :: i <= k < j && k < |steps| ==> !Releases(run[k], steps[k])
  }

  /** The row is still this owner's, for at least until. */
  ghost predicate HeldUntil(s: System, owner: string, token: nat, until: int) {
    IsRow(s.db, owner, token) && s.db.row.value.leaseUntil >= until
  }

  lemma HoldsOn(s: System, step: Step, owner: string, token: nat, p: nat, t: int, ttl: nat)
    requires Inv(s) && Enabled(s, step) && Belongs(s, token, p) && s.processes[p].ttl == ttl
    requires HeldUntil(s, owner, token, t + ttl) && t <= s.now < t + ttl && !Releases(s, step)
    ensures HeldUntil(Next(s, step), owner, token, t + ttl) && Next(s, step).db.installed == s.db.installed
  {
    RowMoves(s, step);
    if Renews(s, step) && step.Renew? {
      assert ProcessInv(s.db, s.processes[step.p]);
    }
  }

  lemma {:induction false} HoldsOver(run: seq<System>, steps: seq<Step>, i: nat, j: nat, owner: string, token: nat,
                                     p: nat, t: int, ttl: nat)
    requires IsRun(run, steps) && i <= j < |run| && t <= run[i].now && run[j].now < t + ttl
    requires HeldUntil(run[i], owner, token, t + ttl) && Belongs(run[i], token, p) && run[i].processes[p].ttl == ttl
    requires NoneReleases(run, steps, i, j)
    ensures HeldUntil(run[j], owner, token, t + ttl) && run[j].db.installed == run[i].db.installed
    ensures Belongs(run[j], token, p) && run[j].processes[p].ttl == ttl
  {
    if i < j {
      var s, step := run[j - 1], steps[j - 1];
      assert Leads(s, step, run[j]);
      RunInv(run, steps, j - 1);
      RowMoves(s, step);
      TimeForward(run, steps, i, j - 1);
      HoldsOver(run, steps, i, j - 1, owner, token, p, t, ttl);
      HoldsOn(s, step, owner, token, p, t, ttl);
      BelongsStays(s, step, token, p);
      DurationsStay(s, step);
    }
  }

  /**
   A lease granted at t for ttl, by an acquire drawn then or by a renewal, is current until t + ttl
   unless a release of it takes effect; no other lease is installed before.
   */
  lemma LeaseProtects(run: seq<System>, steps: seq<Step>, i: nat, j: nat, token: nat, owner: string, t: int, ttl: nat)
    requires IsRun(run, steps) && i < j < |run| && Grants(run, steps, i, token, owner, t, ttl)
    requires NoneReleases(run, steps, i + 1, j) && run[j].now < t + ttl
    ensures RowCurrent(run[j].db, owner, token, run[j].now)
    ensures run[j].db.installed == run[i + 1].db.installed
  {
    var p := GrantWrites(run, steps, i, token, owner, t, ttl);
    TimeForward(run, steps, i, i + 1);
    HoldsOver(run, steps, i + 1, j, owner, token, p, t, ttl);
  }

  ghost predicate RowUntouched(run: seq<System>, steps: seq<Step>, i: nat, j: nat)
    requires |run| == |steps| + 1
  {
    forall k {:trigger steps[k]} :: i <= k < j && k < |steps| ==>
      !Installs(run[k], steps[k]) && !Renews(run[k], steps[k]) && !Releases(run[k], steps[k])
  }

  lemma {:induction false} RowStays(run: seq<System>, steps: seq<Step>, i: nat, j: nat)
    requires IsRun(run, steps) && i <= j < |run| && RowUntouched(run, steps, i, j)
    ensures run[j].db.row == run[i].db.row && run[j].db.installed == run[i].db.installed
  {
    if i < j {
      RowStays(run, steps, i, j - 1);
      assert Leads(run[j - 1], steps[j - 1], run[j]);
      RowMoves(run[j - 1], steps[j - 1]);
    }
  }

  /** If nothing meets the row since, an acquire that concludes is installed exactly from t + ttl on. */
  lemma LeaseEndsOnTime(run: seq<System>, steps: seq<Step>, i: nat, j: nat, token: nat, owner: string, t: int, ttl: nat)
    requires IsRun(run, steps) && i < j < |steps| && Grants(run, steps, i, token, owner, t, ttl)
    requires RowUntouched(run, steps, i + 1, j) && steps[j].ConcludeAcquire?
    ensures if run[j].now < t + ttl then run[j + 1].db.row == run[j].db.row && run[j + 1].db.installed == run[j].db.installed
            else && run[j + 1].db.installed == run[j].db.installed + [steps[j].token]
                 && run[j + 1].db.row.Some? && run[j + 1].db.row.value.token == steps[j].token
  {
    var p := GrantWrites(run, steps, i, token, owner, t, ttl);
    RowStays(run, steps, i + 1, j);
    assert Leads(run[j], steps[j], run[j + 1]);
  }

  /**
   If nothing meets the row since, the fence of its holder passes exactly until t + ttl; from then on it
   refuses, and the holder loses its authority.
   */
  lemma FenceFollowsTheLease(run: seq<System>, steps: seq<Step>, i: nat, j: nat, token: nat, owner: string, t: int, ttl: nat)
    requires IsRun(run, steps) && i < j < |steps| && Grants(run, steps, i, token, owner, t, ttl)
    requires RowUntouched(run, steps, i + 1, j) && steps[j].BeginFenced? && steps[j].reachable
    requires var p := steps[j].p;
             && p < |run[j].processes| && run[j].processes[p].c.Authorized()
             && run[j].processes[p].c.lease.value.token == token && run[j].processes[p].c.instance == owner
    ensures steps[j].p < |run[j + 1].processes|
    ensures run[j + 1].db.lock.Some? <==> run[j].now < t + ttl
    ensures run[j + 1].processes[steps[j].p].c.Authorized() <==> run[j].now < t + ttl
  {
    var p := GrantWrites(run, steps, i, token, owner, t, ttl);
    RowStays(run, steps, i + 1, j);
    RunInv(run, steps, j);
    assert Leads(run[j], steps[j], run[j + 1]);
    assert ProcessInv(run[j].db, run[j].processes[steps[j].p]);
  }

  /** The lease a process learns of is the row as it was just written. */
  ghost predicate Learns(q: Process, row: LeaseRow) {
    q.c.lease == Some(LeaseRecord(row.owner, row.token, row.acquiredAt, row.heartbeatAt, row.leaseUntil))
  }

  lemma RepliesTellTheRow(s: System, step: Step, p: nat)
    requires Inv(s) && Enabled(s, step) && p < |s.processes| && p < |Next(s, step).processes|
    ensures Installs(s, step) && step.delivered && s.processes[p].waiting == Some(step.token) ==>
              Next(s, step).db.row.Some? && Learns(Next(s, step).processes[p], Next(s, step).db.row.value)
    ensures step.Renew? && step.p == p && Renews(s, step) && step.delivered ==>
              Next(s, step).db.row.Some? && Learns(Next(s, step).processes[p], Next(s, step).db.row.value)
  {
    assert ProcessInv(s.db, s.processes[p]);
  }

  // ---------------------------------------------------------------- releases

  /** A lease that is over: its row is expired or another's, for good. */
  ghost predicate Over(s: System, token: nat) {
    && token in s.db.installed
    && s.db.row.Some? && (s.db.row.value.token == token ==> s.db.row.value.acquiredAt < s.now && s.db.row.value.leaseUntil <= s.now)
  }

  lemma StaysOver(s: System, step: Step, token: nat)
    requires Inv(s) && Enabled(s, step) && Over(s, token)
    ensures Over(Next(s, step), token)
  {
    RowMoves(s, step);
    if Installs(s, step) {
      assert step.token !in s.db.installed;
      assert Next(s, step).db.installed == s.db.installed + [step.token];
      assert Next(s, step).db.row.value.token == step.token;
    }
  }

  lemma {:induction false} OverForGood(run: seq<System>, steps: seq<Step>, i: nat, j: nat, token: nat)
    requires IsRun(run, steps) && i <= j < |run| && Over(run[i], token)
    ensures Over(run[j], token)
  {
    if i < j {
      OverForGood(run, steps, i, j - 1, token);
      RunInv(run, steps, j - 1);
      assert Leads(run[j - 1], steps[j - 1], run[j]);
      StaysOver(run[j - 1], steps[j - 1], token);
    }
  }

  /**
   A release that takes effect ends its lease for good, at once, unless it comes in the very instant
   of the acquisition, when the lease stays current for one more microsecond.
   */
  lemma ReleaseEnds(run: seq<System>, steps: seq<Step>, i: nat, j: nat, owner: string)
    requires IsRun(run, steps) && i < j < |run| && Releases(run[i], steps[i])
    ensures var row := run[i].db.row.value;
            && (RowCurrent(run[i + 1].db, row.owner, row.token, run[i + 1].now) <==> run[i].now <= row.acquiredAt)
            && (run[i].now > row.acquiredAt ==>
                  && !RowCurrent(run[j].db, owner, row.token, run[j].now)
                  && (j < |steps| && steps[j].ConcludeAcquire? && run[j].db.installed == run[i].db.installed ==>
                        run[j + 1].db.installed == run[j].db.installed + [steps[j].token]))
  {
    var token := run[i].db.row.value.token;
    RunInv(run, steps, i);
    assert Leads(run[i], steps[i], run[i + 1]);
    RowMoves(run[i], steps[i]);
    if run[i].now > run[i].db.row.value.acquiredAt {
      assert Over(run[i + 1], token);
      OverForGood(run, steps, i + 1, j, token);
      RunInv(run, steps, j);
      if j < |steps| {
        assert Leads(run[j], steps[j], run[j + 1]);
      }
    }
  }
}
