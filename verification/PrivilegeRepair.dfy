/** Repairing the runtime role's privileges through a temporary membership of the durable owner. */
module PrivilegeRepair {
  import opened Outcomes
  import opened Privileges
  import opened Sets

  datatype RepairError =
    | WrongIdentity
    | AuditFailed(error: AuditError)
    | ProhibitedPresent
    | UnexpectedDrift
    | UnsupportedGrant
    | SqlFailed
    | CommitFailed
    | CleanupFailed
    | MembershipRemains
    | NotClean

  /** A commit is acknowledged, or raises; a commit that raises may still have been applied. */
  datatype CommitFate = Acknowledged | Lost(applied: bool)

  predicate Applies(fate: CommitFate) {
    fate.Acknowledged? || fate.applied
  }

  /** One open transaction: its working view of the catalogue, and how many more statements will succeed. */
  class Session {
    var working: Catalogue
    var budget: nat

    constructor (working: Catalogue, budget: nat)
      ensures this.working == working && this.budget == budget
    {
      this.working, this.budget := working, budget;
    }

    method Execute() returns (ok: bool)
      modifies this`budget
      ensures ok <==> old(budget) > 0
      ensures budget == if ok then old(budget) - 1 else 0
    {
      ok := budget > 0;
      if ok {
        budget := budget - 1;
      }
    }

    method Grant(l: Label) returns (ok: bool)
      modifies this
      ensures ok <==> old(budget) > 0
      ensures budget == if ok then old(budget) - 1 else 0
      ensures working == if ok then WithGrants(old(working), {l}) else old(working)
    {
      ok := Execute();
      if ok {
        working := working.(held := working.held + {l});
      }
    }

    method GrantIfMissing(l: Label, missing: set<Label>) returns (ok: bool, left: set<Label>)
      modifies this
      ensures ok <==> l !in missing || old(budget) > 0
      ensures left == if ok then missing - {l} else missing
      ensures working == if ok && l in missing then WithGrants(old(working), {l}) else old(working)
      ensures budget == if ok && l in missing then old(budget) - 1 else old(budget)
    {
      ok, left := true, missing;
      if l in missing {
        ok := Grant(l);
        if ok {
          left := left - {l};
        }
      }
    }

    /** Grants those of the labels that are missing and takes them off the missing set. */
    method GrantEach(labels: seq<Label>, missing: set<Label>) returns (ok: bool, left: set<Label>)
      requires NoneTwice(labels)
      modifies this
      ensures ok <==> old(budget) >= |missing * LabelsOf(labels)|
      ensures ok ==> Progress(old(working), old(budget), missing, LabelsOf(labels), working, budget, left)
    {
      ok, left := true, missing;
      NothingYet(working, budget, missing);
      assert labels[..0] == [];
      for i := 0 to |labels|
        invariant Progress(old(working), old(budget), missing, LabelsOf(labels[..i]), working, budget, left)
      {
        OneMoreLabel(missing, labels, i);
        ghost var held, fuel, earlier := working, budget, left;
        ok, left := GrantIfMissing(labels[i], left);
        if !ok {
          return;
        }
        ProgressNext(old(working), old(budget), missing, LabelsOf(labels[..i]), held, fuel, earlier, labels[i]);
      }
      assert labels[..|labels|] == labels;
    }

    /** Under the owner's role, takes the excess privilege back from PUBLIC, and the default that would grant it again. */
    method Revoke() returns (ok: bool)
      modifies this
      ensures var needed := DriftStatements(old(working)) - 1;
              && (ok <==> old(budget) >= needed)
              && (ok ==> budget == old(budget) - needed && working == Revoked(old(working)))
    {
      var switched := Execute();
      var revoked := Execute();
      var hardened := true;
      if working.publicDefault {
        hardened := Execute();
      }
      var reset := Execute();
      working := Revoked(working);
      ok := switched && revoked && hardened && reset;
    }

    method GrantTables(missing: set<Label>) returns (ok: bool, left: set<Label>)
      modifies this
      ensures ok <==> old(budget) >= |missing * AllTableLabels(TABLES)|
      ensures ok ==> Progress(old(working), old(budget), missing, AllTableLabels(TABLES), working, budget, left)
    {
      ok, left := true, missing;
      NothingYet(working, budget, missing);
      assert LabelsOf([]) == AllTableLabels(TABLES[..0]);
      for i := 0 to |TABLES|
        invariant Progress(old(working), old(budget), missing, AllTableLabels(TABLES[..i]), working, budget, left)
      {
        var labels := TableLabels(TABLES[i]);
        ghost var covered := AllTableLabels(TABLES[..i]);
        ghost var held, fuel, earlier := working, budget, left;
        TablesGrow(i);
        ok, left := GrantEach(labels, left);
        if !ok {
          TooFew(old(working), old(budget), missing, covered, held, fuel, earlier, LabelsOf(labels), AllTableLabels(TABLES));
          return;
        }
        ProgressJoins(old(working), old(budget), missing, covered, held, earlier, fuel, LabelsOf(labels), working, budget, left);
      }
      assert TABLES[..|TABLES|] == TABLES;
    }

    method GrantSequenceAndRoutines(missing: set<Label>) returns (ok: bool, left: set<Label>)
      modifies this
      ensures ok <==> old(budget) >= |missing * LateLabels()|
      ensures ok ==> Progress(old(working), old(budget), missing, LateLabels(), working, budget, left)
    {
      ghost var start, fuel, sequence := working, budget, LabelsOf(SEQUENCE_LABELS);
      ok, left := GrantEach(SEQUENCE_LABELS, missing);
      if !ok {
        SubsetSize(missing * sequence, missing * LateLabels());
        return;
      }
      ghost var held, between, earlier := working, budget, left;
      ok, left := GrantEach(ROUTINE_LABELS, left);
      if !ok {
        TooFew(start, fuel, missing, sequence, held, between, earlier, LabelsOf(ROUTINE_LABELS), LateLabels());
        return;
      }
      ProgressJoins(start, fuel, missing, sequence, held, earlier, between, LabelsOf(ROUTINE_LABELS), working, budget, left);
    }

    method GrantUsageAndTables(missing: set<Label>) returns (ok: bool, left: set<Label>)
      modifies this
      ensures ok <==> old(budget) >= |missing * EarlyLabels()|
      ensures ok ==> Progress(old(working), old(budget), missing, EarlyLabels(), working, budget, left)
    {
      ghost var start, fuel, usage := working, budget, LabelsOf([SchemaUsage]);
      ok, left := GrantEach([SchemaUsage], missing);
      if !ok {
        SubsetSize(missing * usage, missing * EarlyLabels());
        return;
      }
      ghost var held, between, earlier := working, budget, left;
      ok, left := GrantTables(left);
      if !ok {
        TooFew(start, fuel, missing, usage, held, between, earlier, AllTableLabels(TABLES), EarlyLabels());
        return;
      }
      ProgressJoins(start, fuel, missing, usage, held, earlier, between, AllTableLabels(TABLES), working, budget, left);
    }

    /** What is granted under the durable owner's role: the schema, the tables, the sequence and the functions. */
    method GrantObjects(missing: set<Label>) returns (ok: bool, left: set<Label>)
      modifies this
      ensures ok <==> old(budget) >= |missing * ObjectLabels()|
      ensures ok ==> Progress(old(working), old(budget), missing, ObjectLabels(), working, budget, left)
    {
      ghost var start, fuel := working, budget;
      ok, left := GrantUsageAndTables(missing);
      if !ok {
        SubsetSize(missing * EarlyLabels(), missing * ObjectLabels());
        return;
      }
      ghost var held, between, earlier := working, budget, left;
      ok, left := GrantSequenceAndRoutines(left);
      if !ok {
        TooFew(start, fuel, missing, EarlyLabels(), held, between, earlier, LateLabels(), ObjectLabels());
        return;
      }
      ProgressJoins(start, fuel, missing, EarlyLabels(), held, earlier, between, LateLabels(), working, budget, left);
    }

    /**
     The repair's grants. With enough working statements every supported missing label is granted and
     the repair role is a member of the durable owner; the unsupported-grant error is raised exactly
     when a missing label is none of those.
     */
    method GrantMissing(audit: Audit) returns (failure: Option<RepairError>)
      modifies this
      ensures var wanted := audit.missing * Supported();
              if old(budget) < |wanted| + 3 then failure == Some(SqlFailed)
              else
                && failure == (if audit.missing <= Supported() then None else Some(UnsupportedGrant))
                && working == WithGrants(old(working), wanted).(ownerMember := true)
    {
      ghost var start, fuel := working, budget;
      ghost var first := LabelsOf([DatabaseConnect]);
      var ok, left := GrantEach([DatabaseConnect], audit.missing);
      SupportedSplits(audit.missing);
      if !ok {
        return Some(SqlFailed);
      }
      var entered := Execute();
      if !entered {
        return Some(SqlFailed);
      }
      working := working.(ownerMember := true);
      entered := Execute();
      if !entered {
        return Some(SqlFailed);
      }
      ghost var now := working;
      ok, left := GrantObjects(left);
      if !ok {
        return Some(SqlFailed);
      }
      var reset := Execute();
      if !reset {
        return Some(SqlFailed);
      }
      AllGranted(start, audit.missing, now, working, left);
      if left != {} {
        return Some(UnsupportedGrant);
      }
      return None;
    }
  }

  function EarlyLabels(): set<Label> {
    LabelsOf([SchemaUsage]) + AllTableLabels(TABLES)
  }

  function LateLabels(): set<Label> {
    LabelsOf(SEQUENCE_LABELS) + LabelsOf(ROUTINE_LABELS)
  }

  function ObjectLabels(): set<Label> {
    EarlyLabels() + LateLabels()
  }

  lemma TablesGrow(i: nat)
    requires i < |TABLES|
    ensures AllTableLabels(TABLES[..i + 1]) == AllTableLabels(TABLES[..i]) + LabelsOf(TableLabels(TABLES[i]))
    ensures AllTableLabels(TABLES[..i + 1]) <= AllTableLabels(TABLES)
    ensures NoneTwice(TableLabels(TABLES[i]))
  {
    assert TABLES[..i + 1][..i] == TABLES[..i];
    forall l | l in AllTableLabels(TABLES[..i + 1])
      ensures l in AllTableLabels(TABLES)
    {
      AllTableLabelsAre(TABLES[..i + 1], l);
      AllTableLabelsAre(TABLES, l);
    }
  }

  /** The statements left do not cover the next labels, so those at the start did not cover them all. */
  lemma TooFew(start: Catalogue, fuel: nat, missing: set<Label>, covered: set<Label>, now: Catalogue, budget: nat,
               left: set<Label>, next: set<Label>, all: set<Label>)
    requires Progress(start, fuel, missing, covered, now, budget, left)
    requires covered + next <= all && budget < |left * next|
    ensures fuel < |missing * all|
  {
    var a, b := missing * covered, left * next;
    assert a !! b;
    assert |a + b| == |a| + |b|;
    SubsetSize(a + b, missing * all);
  }

  lemma SupportedSplits(missing: set<Label>)
    ensures var connect := LabelsOf([DatabaseConnect]);
            && |missing * Supported()| == |missing * connect| + |(missing - connect) * ObjectLabels()|
            && missing * Supported() == missing * connect + (missing - connect) * ObjectLabels()
            && missing - Supported() == missing - connect - ObjectLabels()
  {
    var connect := LabelsOf([DatabaseConnect]);
    assert connect == {DatabaseConnect};
    SupportedIs();
    var a, b := missing * connect, (missing - connect) * ObjectLabels();
    assert missing * Supported() == a + b;
    assert a !! b;
  }

  lemma SupportedIs()
    ensures Supported() == {DatabaseConnect} + ObjectLabels()
  {
    assert LabelsOf([SchemaUsage]) == {SchemaUsage};
  }

  lemma AllGranted(start: Catalogue, missing: set<Label>, mid: Catalogue, now: Catalogue, left: set<Label>)
    requires mid == WithGrants(start, missing * LabelsOf([DatabaseConnect])).(ownerMember := true)
    requires now == WithGrants(mid, (missing - LabelsOf([DatabaseConnect])) * ObjectLabels())
    requires left == missing - LabelsOf([DatabaseConnect]) - ObjectLabels()
    ensures now == WithGrants(start, missing * Supported()).(ownerMember := true)
    ensures left == {} <==> missing <= Supported()
  {
    SupportedSplits(missing);
    var a, b := missing * LabelsOf([DatabaseConnect]), (missing - LabelsOf([DatabaseConnect])) * ObjectLabels();
    assert start.held + a + b == start.held + (a + b);
    assert left == missing - Supported();
  }

  ghost predicate NoneTwice(labels: seq<Label>) {
    forall i :: 0 <= i < |labels| ==> labels[i] !in labels[..i]
  }

  /** Of the missing labels, those covered so far have been granted at one statement each, and nothing else changed. */
  ghost predicate Progress(start: Catalogue, fuel: nat, missing: set<Label>, covered: set<Label>,
                           now: Catalogue, budget: nat, left: set<Label>)
  {
    && left == missing - covered
    && budget + |missing * covered| == fuel
    && now == WithGrants(start, missing * covered)
  }

  lemma NothingYet(start: Catalogue, fuel: nat, missing: set<Label>)
    ensures Progress(start, fuel, missing, LabelsOf([]), start, fuel, missing)
  {
    assert missing * LabelsOf([]) == {};
  }

  lemma ProgressNext(start: Catalogue, fuel: nat, missing: set<Label>, covered: set<Label>,
                     now: Catalogue, budget: nat, left: set<Label>, l: Label)
    requires Progress(start, fuel, missing, covered, now, budget, left) && l !in covered
    ensures l in left && budget > 0 ==>
      Progress(start, fuel, missing, covered + {l}, WithGrants(now, {l}), budget - 1, left - {l})
    ensures l !in left ==> Progress(start, fuel, missing, covered + {l}, now, budget, left - {l})
  {
    var done := missing * covered;
    assert left - {l} == missing - (covered + {l});
    if l in left {
      assert missing * (covered + {l}) == done + {l};
      assert start.held + done + {l} == start.held + (done + {l});
    } else {
      assert missing * (covered + {l}) == done;
    }
  }

  lemma ProgressJoins(start: Catalogue, fuel: nat, missing: set<Label>, first: set<Label>, mid: Catalogue, left: set<Label>,
                      budget: nat, second: set<Label>, now: Catalogue, after: nat, rest: set<Label>)
    requires Progress(start, fuel, missing, first, mid, budget, left)
    requires Progress(mid, budget, left, second, now, after, rest)
    ensures Progress(start, fuel, missing, first + second, now, after, rest)
  {
    var a, b := missing * first, left * second;
    assert missing * (first + second) == a + b;
    assert a !! b;
    assert start.held + a + b == start.held + (a + b);
    assert rest == missing - (first + second);
  }

  lemma OneMoreLabel(missing: set<Label>, labels: seq<Label>, i: nat)
    requires i < |labels| && NoneTwice(labels)
    ensures LabelsOf(labels[..i + 1]) == LabelsOf(labels[..i]) + {labels[i]}
    ensures labels[i] !in LabelsOf(labels[..i])
    ensures labels[i] in missing ==> |missing * LabelsOf(labels)| > |missing * LabelsOf(labels[..i])|
    ensures |missing * LabelsOf(labels)| >= |missing * LabelsOf(labels[..i])|
  {
    assert labels[..i + 1] == labels[..i] + [labels[i]];
    assert LabelsOf(labels[..i + 1]) == LabelsOf(labels[..i]) + {labels[i]};
    var done := missing * LabelsOf(labels[..i]);
    SubsetSize(done, missing * LabelsOf(labels));
    if labels[i] in missing {
      SubsetSize(done + {labels[i]}, missing * LabelsOf(labels));
    }
  }

  // ---------------------------------------------------------------- the jobs

  /**
   What goes wrong: whether the connections carry the right identity, how many statements of the
   repair transaction succeed, how its commit and that of the cleanup end, and whether the closing reads succeed.
   */
  datatype Faults = Faults(identity: bool, statements: nat, commit: CommitFate, cleanup: CommitFate, rereads: bool)

  /** The repair transaction is applied. */
  predicate RepairApplied(c: Catalogue, f: Faults) {
    && f.identity
    && AuditRuntime(c).Ok?
    && var audit := AuditRuntime(c).value;
    audit.prohibited == {} && f.statements >= |audit.missing| + 3 && Applies(f.commit)
  }

  const REJECT_EXECUTE := OnRoutine(RejectAppendOnlyMutation)

  /** The drift repair's preconditions; publicOnly says that PUBLIC is the only source of the excess privilege. */
  predicate DriftExpected(c: Catalogue, f: Faults, publicOnly: bool) {
    && f.identity
    && AuditRuntime(c).Ok?
    && var audit := AuditRuntime(c).value;
    audit.prohibited == {REJECT_EXECUTE} && publicOnly && |audit.missing| == 28
  }

  /** The statements of the drift repair before its grants: membership, role, revocation, default, reset. */
  function DriftStatements(c: Catalogue): nat {
    if c.publicDefault then 5 else 4
  }

  predicate DriftApplied(c: Catalogue, f: Faults, publicOnly: bool) {
    DriftExpected(c, f, publicOnly) && f.statements >= DriftStatements(c) + 28 + 3 && Applies(f.commit)
  }

  function Revoked(c: Catalogue): Catalogue {
    c.(held := c.held - {REJECT_EXECUTE}, publicDefault := false)
  }

  lemma MissingSupported(c: Catalogue)
    requires AuditRuntime(c).Ok?
    ensures AuditRuntime(c).value.missing * Supported() == AuditRuntime(c).value.missing
    ensures AuditRuntime(c).value.missing <= Supported()
  {
    GrantsComplete(c, true);
  }

  lemma DriftCleared(c: Catalogue, member: bool)
    requires AuditRuntime(c).Ok? && AuditRuntime(c).value.prohibited == {REJECT_EXECUTE}
    ensures var missing := AuditRuntime(c).value.missing;
            AuditRuntime(WithGrants(Revoked(c), missing).(ownerMember := member)) == Ok(Audit({}, {}))
  {
    var audit, bare := AuditRuntime(c).value, Revoked(c);
    SupportedAre(REJECT_EXECUTE);
    forall l
      ensures Needed(l, bare) <==> Needed(l, c)
      ensures Prohibited(l, bare) <==> Prohibited(l, c)
    {
    }
    assert AuditRuntime(bare).Ok?;
    assert AuditRuntime(bare).value.missing == audit.missing;
    assert RoleDefects(bare) == RoleDefects(c);
    assert forall l :: l in RoleDefects(c) ==> l in audit.prohibited && l != REJECT_EXECUTE;
    assert RoleDefects(c) == {};
    assert forall l :: l in c.held && Prohibited(l, c) ==> l in audit.prohibited;
    assert (set l | l in bare.held && Prohibited(l, bare)) == {};
    assert AuditRuntime(bare).value.prohibited == {};
    GrantsComplete(bare, member);
  }

  class Server {
    var durable: Catalogue

    constructor (durable: Catalogue)
      ensures this.durable == durable
    {
      this.durable := durable;
    }

    /** Removes the temporary membership in a connection of its own. */
    method CleanUp(fate: CommitFate) returns (ok: bool)
      modifies this
      ensures ok <==> fate.Acknowledged?
      ensures durable == if Applies(fate) then old(durable).(ownerMember := false) else old(durable)
    {
      if Applies(fate) {
        durable := durable.(ownerMember := false);
      }
      ok := fate.Acknowledged?;
    }

    /** The closing reads: no membership, and a clean audit. */
    method CheckRepaired(rereads: bool) returns (failure: Option<RepairError>)
      ensures failure.None? <==> rereads && !durable.ownerMember && AuditRuntime(durable) == Ok(Audit({}, {}))
      ensures failure.Some? && rereads && !durable.ownerMember && AuditRuntime(durable).Ok? ==> failure.value == NotClean
      ensures !rereads ==> failure == Some(SqlFailed)
    {
      if !rereads {
        return Some(SqlFailed);
      }
      if durable.ownerMember {
        return Some(MembershipRemains);
      }
      var after := AuditRuntime(durable);
      if after.Err? {
        return Some(AuditFailed(after.error));
      }
      if after.value.missing != {} || after.value.prohibited != {} {
        return Some(NotClean);
      }
      return None;
    }

    /** The transaction of the repair, up to the outcome of its commit. */
    method RepairTransaction(f: Faults) returns (r: Result<set<Label>, RepairError>, acknowledged: bool)
      modifies this
      ensures durable == if RepairApplied(old(durable), f)
                         then WithGrants(old(durable), AuditRuntime(old(durable)).value.missing).(ownerMember := true)
                         else old(durable)
      ensures acknowledged <==> RepairApplied(old(durable), f) && f.commit.Acknowledged?
      ensures r.Ok? <==> acknowledged
      ensures r.Ok? ==> r.value == AuditRuntime(old(durable)).value.missing
      ensures r.Err? ==> r.error !in {UnsupportedGrant, NotClean, MembershipRemains}
    {
      acknowledged := false;
      if !f.identity {
        return Err(WrongIdentity), false;
      }
      var before := AuditRuntime(durable);
      if before.Err? {
        return Err(AuditFailed(before.error)), false;
      }
      if before.value.prohibited != {} {
        return Err(ProhibitedPresent), false;
      }
      MissingSupported(durable);
      var session := new Session(durable, f.statements);
      var failure := session.GrantMissing(before.value);
      if failure.Some? {
        return Err(failure.value), false;
      }
      if Applies(f.commit) {
        durable := session.working;
      }
      if f.commit.Lost? {
        return Err(CommitFailed), false;
      }
      return Ok(before.value.missing), true;
    }

    /**
     Grants exactly what is missing and nothing when anything is prohibited; the unsupported-grant
     error, an unclean second audit and a remaining membership after a reported success never occur.
     The temporary membership outlives a run exactly when the grants were applied and either the
     commit was not acknowledged or the cleanup was not applied.
     */
    method RunPrivilegeRepair(f: Faults) returns (r: Result<set<Label>, RepairError>)
      modifies this
      ensures r.Ok? <==> RepairApplied(old(durable), f) && f.commit.Acknowledged? && f.cleanup.Acknowledged? && f.rereads
      ensures r.Ok? ==> r.value == AuditRuntime(old(durable)).value.missing
      ensures r.Ok? ==> AuditRuntime(durable) == Ok(Audit({}, {})) && !durable.ownerMember
      ensures r.Err? ==> r.error !in {UnsupportedGrant, NotClean, MembershipRemains}
      ensures if RepairApplied(old(durable), f)
              then durable == WithGrants(old(durable), AuditRuntime(old(durable)).value.missing)
                   .(ownerMember := !(f.commit.Acknowledged? && Applies(f.cleanup)))
              else durable == old(durable)
    {
      var acknowledged;
      r, acknowledged := RepairTransaction(f);
      if acknowledged {
        var cleaned := CleanUp(f.cleanup);
        if !cleaned {
          return Err(CleanupFailed);
        }
        GrantsComplete(old(durable), false);
        var failure := CheckRepaired(f.rereads);
        if failure.Some? {
          return Err(failure.value);
        }
      }
    }

    /** The transaction of the drift repair; entered says that its membership statement succeeded. */
    method DriftTransaction(f: Faults, publicOnly: bool) returns (r: Result<set<Label>, RepairError>, entered: bool)
      modifies this
      ensures entered <==> DriftExpected(old(durable), f, publicOnly) && f.statements > 0
      ensures durable == if DriftApplied(old(durable), f, publicOnly)
                         then WithGrants(Revoked(old(durable)), AuditRuntime(old(durable)).value.missing).(ownerMember := true)
                         else old(durable)
      ensures r.Ok? <==> DriftApplied(old(durable), f, publicOnly) && f.commit.Acknowledged?
      ensures r.Ok? ==> r.value == AuditRuntime(old(durable)).value.missing
      ensures r.Err? ==> r.error !in {UnsupportedGrant, NotClean, MembershipRemains}
    {
      entered := false;
      if !f.identity {
        return Err(WrongIdentity), false;
      }
      var before := AuditRuntime(durable);
      if before.Err? {
        return Err(AuditFailed(before.error)), false;
      }
      if before.value.prohibited != {REJECT_EXECUTE} || !publicOnly || |before.value.missing| != 28 {
        return Err(UnexpectedDrift), false;
      }
      var session := new Session(durable, f.statements);
      entered := session.Execute();
      if !entered {
        return Err(SqlFailed), false;
      }
      var revoked := session.Revoke();
      if !revoked {
        return Err(SqlFailed), true;
      }
      MissingSupported(durable);
      var failure := session.GrantMissing(before.value);
      if failure.Some? {
        return Err(failure.value), true;
      }
      if Applies(f.commit) {
        durable := session.working;
      }
      if f.commit.Lost? {
        return Err(CommitFailed), true;
      }
      return Ok(before.value.missing), true;
    }

    /**
     Also takes back the one known excess privilege. Its cleanup runs whenever the membership
     statement succeeded, so a membership that outlives the run means that the cleanup was not applied.
     */
    method RunPrivilegeDriftRepair(f: Faults, publicOnly: bool) returns (r: Result<set<Label>, RepairError>)
      modifies this
      ensures r.Ok? <==>
              DriftApplied(old(durable), f, publicOnly) && f.commit.Acknowledged? && f.cleanup.Acknowledged? && f.rereads
      ensures r.Ok? ==> AuditRuntime(durable) == Ok(Audit({}, {})) && !durable.ownerMember && !durable.publicDefault
      ensures r.Err? ==> r.error !in {UnsupportedGrant, NotClean, MembershipRemains}
      ensures var entered := DriftExpected(old(durable), f, publicOnly) && f.statements > 0;
              var repaired := if DriftApplied(old(durable), f, publicOnly)
                              then WithGrants(Revoked(old(durable)), AuditRuntime(old(durable)).value.missing).(ownerMember := true)
                              else old(durable);
              durable == if entered && Applies(f.cleanup) then repaired.(ownerMember := false) else repaired
    {
      var entered;
      r, entered := DriftTransaction(f, publicOnly);
      if entered {
        var cleaned := CleanUp(f.cleanup);
        if !cleaned {
          return Err(CleanupFailed);
        }
        if r.Ok? {
          DriftCleared(old(durable), false);
          var failure := CheckRepaired(f.rereads);
          if failure.Some? {
            return Err(failure.value);
          }
        }
      }
    }
  }
}
