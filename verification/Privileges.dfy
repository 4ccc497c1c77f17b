/** Auditing the runtime role's privileges. */
module Privileges {
  import opened Outcomes

  datatype Table =
    | SchemaMigrations
    | WorkerLeases
    | ExecutionCycleClaims
    | TradeIntents
    | LifecycleEvents
    | BrokerReferences
    | PositionState
    | ShadowPositionState
    | ReconciliationState
    | EvidenceMetadata
    | OtherTable(name: string)

  datatype Privilege = Select | Insert | Update | Delete | Usage

  datatype Sequence = LifecycleEventsSequence | OtherSequence(name: string)

  datatype Routine =
    | AcquireLease
    | RenewLease
    | ReleaseLease
    | AssertFence
    | RequireCurrentFence
    | RejectAppendOnlyMutation
    | OtherRoutine(signature: string)

  datatype Label =
    | DatabaseConnect
    | DatabaseCreate
    | SchemaUsage
    | SchemaCreate
    | OnTable(table: Table, privilege: Privilege)
    | OnSequence(sequence: Sequence, privilege: Privilege)
    | OnRoutine(routine: Routine)
    | RoleAttribute(name: string)
    | RoleMembership(role: string)
    | OwnedObjects(count: nat)

  /**
   What the catalogue says about the runtime role, whether the repair role is a member of the durable
   owner, and whether functions the owner creates later are executable by PUBLIC.
   */
  datatype Catalogue = Catalogue(
    roleExists: bool,
    schemaExists: bool,
    tables: set<Table>,
    sequences: set<Sequence>,
    routines: set<Routine>,
    held: set<Label>,
    attributes: set<string>,
    memberships: set<string>,
    owned: nat,
    ownerMember: bool,
    publicDefault: bool)

  const TABLES: seq<Table> :=
    [SchemaMigrations, WorkerLeases, ExecutionCycleClaims, TradeIntents, LifecycleEvents, BrokerReferences, PositionState,
     ShadowPositionState, ReconciliationState, EvidenceMetadata]

  const ROUTINES: seq<Routine> := [AcquireLease, RenewLease, ReleaseLease, AssertFence, RequireCurrentFence]

  function Required(t: Table): set<Privilege> {
    match t
    case SchemaMigrations => {Select}
    case WorkerLeases => {Select}
    case LifecycleEvents => {Select, Insert}
    case BrokerReferences => {Select, Insert}
    case EvidenceMetadata => {Select, Insert}
    case OtherTable(_) => {}
    case _ => {Select, Insert, Update}
  }

  /** The labels one object needs, in the order they are granted. */
  function TableLabels(t: Table): seq<Label> {
    (if Insert in Required(t) then [OnTable(t, Insert)] else [])
    + (if Select in Required(t) then [OnTable(t, Select)] else [])
    + (if Update in Required(t) then [OnTable(t, Update)] else [])
  }

  const SEQUENCE_LABELS: seq<Label> :=
    [OnSequence(LifecycleEventsSequence, Select), OnSequence(LifecycleEventsSequence, Usage)]

  const ROUTINE_LABELS: seq<Label> :=
    [OnRoutine(AcquireLease), OnRoutine(RenewLease), OnRoutine(ReleaseLease), OnRoutine(AssertFence),
     OnRoutine(RequireCurrentFence)]

  /** The role must hold this privilege. */
  predicate Needed(l: Label, c: Catalogue) {
    match l
    case DatabaseConnect => true
    case SchemaUsage => true
    case OnTable(t, p) => t in c.tables && p in Required(t)
    case OnSequence(s, p) => s in c.sequences && s == LifecycleEventsSequence && (p == Usage || p == Select)
    case OnRoutine(r) => r in ROUTINES
    case _ => false
  }

  /** The role must not hold this privilege. */
  predicate Prohibited(l: Label, c: Catalogue) {
    match l
    case DatabaseCreate => true
    case SchemaCreate => true
    case OnTable(t, p) => t in c.tables && p != Usage && p !in Required(t)
    case OnSequence(s, p) =>
      s in c.sequences && p in {Usage, Select, Update} && (s != LifecycleEventsSequence || p == Update)
    case OnRoutine(r) => r in c.routines && r !in ROUTINES
    case _ => false
  }

  function LabelsOf(ls: seq<Label>): set<Label> {
    set l | l in ls
  }

  function AllTableLabels(ts: seq<Table>): set<Label> {
    if ts == [] then {} else AllTableLabels(ts[..|ts| - 1]) + LabelsOf(TableLabels(ts[|ts| - 1]))
  }

  /** Everything the repair knows how to grant. */
  function Supported(): set<Label> {
    {DatabaseConnect, SchemaUsage} + AllTableLabels(TABLES) + LabelsOf(SEQUENCE_LABELS) + LabelsOf(ROUTINE_LABELS)
  }

  function RoleDefects(c: Catalogue): set<Label> {
    (set a | a in c.attributes :: RoleAttribute(a))
    + (set r | r in c.memberships :: RoleMembership(r))
    + (if c.owned > 0 then {OwnedObjects(c.owned)} else {})
  }

  datatype AuditError = IdentityMismatch | SchemaDrift

  datatype Audit = Audit(missing: set<Label>, prohibited: set<Label>)

  function AuditRuntime(c: Catalogue): Result<Audit, AuditError> {
    if !c.roleExists then Err(IdentityMismatch)
    else if !c.schemaExists || c.tables != (set t | t in TABLES) || !(forall r :: r in ROUTINES ==> r in c.routines) then
      Err(SchemaDrift)
    else
      Ok(Audit(
           set l | l in Supported() && Needed(l, c) && l !in c.held,
           (set l | l in c.held && Prohibited(l, c)) + RoleDefects(c)))
  }

  // ---------------------------------------------------------------- facts about the labels

  lemma TableLabelsAre(t: Table, l: Label)
    ensures l in TableLabels(t) <==> l.OnTable? && l.table == t && l.privilege in Required(t)
  {
  }

  lemma {:induction false} AllTableLabelsAre(ts: seq<Table>, l: Label)
    ensures l in AllTableLabels(ts) <==> l.OnTable? && l.table in ts && l.privilege in Required(l.table)
  {
    if ts != [] {
      var n := |ts| - 1;
      assert ts == ts[..n] + [ts[n]];
      AllTableLabelsAre(ts[..n], l);
      TableLabelsAre(ts[n], l);
    }
  }

  lemma OtherLabelsAre(l: Label)
    ensures l in LabelsOf(SEQUENCE_LABELS)
            <==> l.OnSequence? && l.sequence == LifecycleEventsSequence && (l.privilege == Usage || l.privilege == Select)
    ensures l in LabelsOf(ROUTINE_LABELS) <==> l.OnRoutine? && l.routine in ROUTINES
  {
  }

  lemma SupportedAre(l: Label)
    ensures l in Supported() <==>
            || l == DatabaseConnect
            || l == SchemaUsage
            || (l.OnTable? && l.table in TABLES && l.privilege in Required(l.table))
            || (l.OnSequence? && l.sequence == LifecycleEventsSequence && (l.privilege == Usage || l.privilege == Select))
            || (l.OnRoutine? && l.routine in ROUTINES)
  {
    AllTableLabelsAre(TABLES, l);
    OtherLabelsAre(l);
  }

  /** Every privilege the role needs on an audited catalogue is one the repair can grant. */
  lemma NeededIsSupported(c: Catalogue, l: Label)
    requires AuditRuntime(c).Ok? && Needed(l, c)
    ensures l in Supported()
  {
    SupportedAre(l);
  }

  lemma SupportedIsAllowed(c: Catalogue, l: Label)
    requires AuditRuntime(c).Ok? && l in Supported()
    ensures !Prohibited(l, c)
  {
    SupportedAre(l);
  }

  /** A clean audit means that the role holds every needed privilege, no prohibited one, and has no defect of its own. */
  lemma CleanIff(c: Catalogue)
    requires AuditRuntime(c).Ok?
    ensures AuditRuntime(c).value == Audit({}, {}) <==>
            && (forall l :: Needed(l, c) ==> l in c.held)
            && (forall l :: Prohibited(l, c) ==> l !in c.held)
            && c.attributes == {} && c.memberships == {} && c.owned == 0
  {
    var audit := AuditRuntime(c).value;
    forall l | Needed(l, c)
      ensures l in Supported()
    {
      NeededIsSupported(c, l);
    }
    assert forall l :: l in audit.missing <==> Needed(l, c) && l !in c.held;
    assert forall l :: l in c.held && Prohibited(l, c) ==> l in audit.prohibited;
    assert forall a :: a in c.attributes ==> RoleAttribute(a) in audit.prohibited;
    assert forall r :: r in c.memberships ==> RoleMembership(r) in audit.prohibited;
    assert c.owned > 0 ==> OwnedObjects(c.owned) in audit.prohibited;
  }

  // ---------------------------------------------------------------- the audit, object by object

  const APPEND_ONLY: set<Table> := {LifecycleEvents, BrokerReferences, EvidenceMetadata}

  const MUTABLE: set<Table> := {ExecutionCycleClaims, TradeIntents, PositionState, ShadowPositionState, ReconciliationState}

  const READ_ONLY: set<Table> := {SchemaMigrations, WorkerLeases}

  /** Read everything, append to the event tables, update the state tables, delete nothing. */
  ghost predicate TablesExact(c: Catalogue) {
    forall t :: t in c.tables ==>
      && OnTable(t, Select) in c.held
      && (OnTable(t, Insert) in c.held <==> t in APPEND_ONLY || t in MUTABLE)
      && (OnTable(t, Update) in c.held <==> t in MUTABLE)
      && OnTable(t, Delete) !in c.held
  }

  /** Use and read the event sequence, if it exists, and nothing else on any sequence. */
  ghost predicate SequencesExact(c: Catalogue) {
    forall s, p :: s in c.sequences && p in {Usage, Select, Update} ==>
      (OnSequence(s, p) in c.held <==> s == LifecycleEventsSequence && p != Update)
  }

  /** Execute the five lease functions and no other. */
  ghost predicate RoutinesExact(c: Catalogue) {
    && (forall r :: r in {AcquireLease, RenewLease, ReleaseLease, AssertFence, RequireCurrentFence} ==> OnRoutine(r) in c.held)
    && (forall r :: r in c.routines && r !in {AcquireLease, RenewLease, ReleaseLease, AssertFence, RequireCurrentFence} ==>
          OnRoutine(r) !in c.held)
  }

  lemma RoutinesAre(r: Routine)
    ensures r in ROUTINES <==> r in {AcquireLease, RenewLease, ReleaseLease, AssertFence, RequireCurrentFence}
  {
    assert ROUTINES[0] == AcquireLease && ROUTINES[1] == RenewLease && ROUTINES[2] == ReleaseLease;
    assert ROUTINES[3] == AssertFence && ROUTINES[4] == RequireCurrentFence;
  }

  lemma TablesAre(t: Table)
    ensures t in TABLES <==> t in READ_ONLY || t in APPEND_ONLY || t in MUTABLE
  {
    assert TABLES[0] == SchemaMigrations && TABLES[1] == WorkerLeases && TABLES[2] == ExecutionCycleClaims;
    assert TABLES[3] == TradeIntents && TABLES[4] == LifecycleEvents && TABLES[5] == BrokerReferences;
    assert TABLES[6] == PositionState && TABLES[7] == ShadowPositionState && TABLES[8] == ReconciliationState;
    assert TABLES[9] == EvidenceMetadata;
  }

  lemma TablePrivilegesMean(c: Catalogue, t: Table)
    requires t in TABLES && t in c.tables
    ensures (forall p :: Needed(OnTable(t, p), c) ==> OnTable(t, p) in c.held)
            && (forall p :: Prohibited(OnTable(t, p), c) ==> OnTable(t, p) !in c.held)
            <==> && OnTable(t, Select) in c.held
                 && (OnTable(t, Insert) in c.held <==> t in APPEND_ONLY || t in MUTABLE)
                 && (OnTable(t, Update) in c.held <==> t in MUTABLE)
                 && OnTable(t, Delete) !in c.held
  {
    TablesAre(t);
    assert Needed(OnTable(t, Select), c);
    assert Needed(OnTable(t, Insert), c) <==> t in APPEND_ONLY || t in MUTABLE;
    assert Needed(OnTable(t, Update), c) <==> t in MUTABLE;
    assert Prohibited(OnTable(t, Insert), c) <==> !(t in APPEND_ONLY || t in MUTABLE);
    assert Prohibited(OnTable(t, Update), c) <==> t !in MUTABLE;
    assert Prohibited(OnTable(t, Delete), c);
  }

  lemma SequencePrivilegesMean(c: Catalogue, s: Sequence)
    requires s in c.sequences
    ensures (forall p :: Needed(OnSequence(s, p), c) ==> OnSequence(s, p) in c.held)
            && (forall p :: Prohibited(OnSequence(s, p), c) ==> OnSequence(s, p) !in c.held)
            <==> forall p :: p in {Usage, Select, Update} ==>
                   (OnSequence(s, p) in c.held <==> s == LifecycleEventsSequence && p != Update)
  {
  }

  lemma RoutinePrivilegesMean(c: Catalogue)
    ensures (forall r :: Needed(OnRoutine(r), c) ==> OnRoutine(r) in c.held)
            && (forall r :: Prohibited(OnRoutine(r), c) ==> OnRoutine(r) !in c.held)
            <==> RoutinesExact(c)
  {
    forall r
      ensures Needed(OnRoutine(r), c) <==> r in {AcquireLease, RenewLease, ReleaseLease, AssertFence, RequireCurrentFence}
    {
      RoutinesAre(r);
    }
  }

  ghost predicate HoldsNeeded(c: Catalogue) {
    forall l :: Needed(l, c) ==> l in c.held
  }

  ghost predicate HoldsNoProhibited(c: Catalogue) {
    forall l :: Prohibited(l, c) ==> l !in c.held
  }

  ghost predicate BasicsExact(c: Catalogue) {
    DatabaseConnect in c.held && SchemaUsage in c.held && DatabaseCreate !in c.held && SchemaCreate !in c.held
  }

  lemma ExactIsClean(c: Catalogue)
    requires forall t :: t in c.tables <==> t in TABLES
    requires BasicsExact(c) && TablesExact(c) && SequencesExact(c) && RoutinesExact(c)
    ensures HoldsNeeded(c) && HoldsNoProhibited(c)
  {
    RoutinePrivilegesMean(c);
    forall l: Label
      ensures Needed(l, c) ==> l in c.held
      ensures Prohibited(l, c) ==> l !in c.held
    {
      if l.OnTable? && l.table in c.tables {
        TablePrivilegesMean(c, l.table);
      } else if l.OnSequence? && l.sequence in c.sequences {
        SequencePrivilegesMean(c, l.sequence);
      }
    }
  }

  lemma CleanIsExact(c: Catalogue)
    requires forall t :: t in c.tables <==> t in TABLES
    requires HoldsNeeded(c) && HoldsNoProhibited(c)
    ensures BasicsExact(c) && TablesExact(c) && SequencesExact(c) && RoutinesExact(c)
  {
    assert Needed(DatabaseConnect, c) && Needed(SchemaUsage, c) && Prohibited(DatabaseCreate, c) && Prohibited(SchemaCreate, c);
    RoutinePrivilegesMean(c);
    forall t | t in c.tables
      ensures OnTable(t, Select) in c.held && OnTable(t, Delete) !in c.held
      ensures OnTable(t, Insert) in c.held <==> t in APPEND_ONLY || t in MUTABLE
      ensures OnTable(t, Update) in c.held <==> t in MUTABLE
    {
      TablePrivilegesMean(c, t);
    }
    forall s, p | s in c.sequences && p in {Usage, Select, Update}
      ensures OnSequence(s, p) in c.held <==> s == LifecycleEventsSequence && p != Update
    {
      SequencePrivilegesMean(c, s);
    }
  }

  /**
   A clean audit, object by object: connect and schema usage without create; on the ten tables reading
   everything, appending to eight, updating five and deleting from none; the event sequence used and
   read; the five lease functions and no others; no attribute, membership or ownership.
   */
  lemma CleanIsExactly(c: Catalogue)
    requires AuditRuntime(c).Ok?
    ensures AuditRuntime(c).value == Audit({}, {}) <==>
            && BasicsExact(c) && TablesExact(c) && SequencesExact(c) && RoutinesExact(c)
            && c.attributes == {} && c.memberships == {} && c.owned == 0
  {
    CleanIff(c);
    assert forall t :: t in c.tables <==> t in TABLES;
    assert HoldsNeeded(c) <==> forall l :: Needed(l, c) ==> l in c.held;
    assert HoldsNoProhibited(c) <==> forall l :: Prohibited(l, c) ==> l !in c.held;
    if HoldsNeeded(c) && HoldsNoProhibited(c) {
      CleanIsExact(c);
    }
    if BasicsExact(c) && TablesExact(c) && SequencesExact(c) && RoutinesExact(c) {
      ExactIsClean(c);
    }
  }

  lemma TenTables()
    ensures (set t | t in TABLES) == READ_ONLY + APPEND_ONLY + MUTABLE
  {
    forall t
      ensures t in TABLES <==> t in READ_ONLY + APPEND_ONLY + MUTABLE
    {
      TablesAre(t);
    }
  }

  lemma FiveRoutines(routines: set<Routine>)
    ensures (forall r :: r in ROUTINES ==> r in routines)
            <==> && AcquireLease in routines && RenewLease in routines && ReleaseLease in routines
                 && AssertFence in routines && RequireCurrentFence in routines
  {
    RoutinesAre(AcquireLease);
    RoutinesAre(RenewLease);
    RoutinesAre(ReleaseLease);
    RoutinesAre(AssertFence);
    RoutinesAre(RequireCurrentFence);
    forall r | r in ROUTINES
      ensures r in {AcquireLease, RenewLease, ReleaseLease, AssertFence, RequireCurrentFence}
    {
      RoutinesAre(r);
    }
  }

  /** An audit needs the role, the schema, exactly the ten tables and the five functions; without the role the error is another. */
  lemma AuditedIff(c: Catalogue)
    ensures AuditRuntime(c) == Err(IdentityMismatch) <==> !c.roleExists
    ensures AuditRuntime(c).Ok? <==>
            && c.roleExists && c.schemaExists && c.tables == READ_ONLY + APPEND_ONLY + MUTABLE
            && AcquireLease in c.routines && RenewLease in c.routines && ReleaseLease in c.routines
            && AssertFence in c.routines && RequireCurrentFence in c.routines
  {
    TenTables();
    FiveRoutines(c.routines);
  }

  /** The same objects, under a role that may hold other privileges. */
  predicate SameObjects(c: Catalogue, d: Catalogue) {
    d == c.(held := d.held, attributes := d.attributes, memberships := d.memberships, owned := d.owned)
  }

  /** A clean audit that gives the role nothing on the event sequence. */
  ghost predicate CleanWithoutSequence(d: Catalogue) {
    && AuditRuntime(d) == Ok(Audit({}, {}))
    && forall p :: OnSequence(LifecycleEventsSequence, p) !in d.held
  }

  /** Over the same objects the audit can be clean without the event sequence's privileges exactly when it is absent. */
  lemma CleanWithoutSequenceIffAbsent(c: Catalogue)
    requires AuditRuntime(c).Ok?
    ensures LifecycleEventsSequence !in c.sequences <==> exists d :: SameObjects(c, d) && CleanWithoutSequence(d)
  {
    if LifecycleEventsSequence !in c.sequences {
      var held := Supported() - LabelsOf(SEQUENCE_LABELS);
      var d := c.(held := held, attributes := {}, memberships := {}, owned := 0);
      forall l: Label
        ensures Needed(l, d) ==> l in held
        ensures l in held ==> !Prohibited(l, d)
      {
        SupportedAre(l);
        OtherLabelsAre(l);
      }
      CleanIff(d);
      forall p
        ensures OnSequence(LifecycleEventsSequence, p) !in held
      {
        SupportedAre(OnSequence(LifecycleEventsSequence, p));
        OtherLabelsAre(OnSequence(LifecycleEventsSequence, p));
      }
      assert SameObjects(c, d) && CleanWithoutSequence(d);
    }
    if d :| SameObjects(c, d) && CleanWithoutSequence(d) {
      CleanIff(d);
      assert Needed(OnSequence(LifecycleEventsSequence, Usage), d) <==> LifecycleEventsSequence in c.sequences;
    }
  }

  function WithGrants(c: Catalogue, labels: set<Label>): Catalogue {
    c.(held := c.held + labels)
  }

  /** Granting what an audit found missing leaves nothing missing and adds nothing prohibited. */
  lemma GrantsComplete(c: Catalogue, member: bool)
    requires AuditRuntime(c).Ok?
    ensures var audit := AuditRuntime(c).value;
            && audit.missing <= Supported()
            && AuditRuntime(WithGrants(c, audit.missing).(ownerMember := member)) == Ok(Audit({}, audit.prohibited))
  {
    var audit := AuditRuntime(c).value;
    var after := WithGrants(c, audit.missing).(ownerMember := member);
    forall l | l in audit.missing
      ensures !Prohibited(l, c)
    {
      SupportedIsAllowed(c, l);
    }
    forall l
      ensures Needed(l, after) <==> Needed(l, c)
      ensures Prohibited(l, after) <==> Prohibited(l, c)
    {
    }
    assert (set l | l in after.held && Prohibited(l, after)) == (set l | l in c.held && Prohibited(l, c));
    assert AuditRuntime(after).value.missing == {};
    assert RoleDefects(after) == RoleDefects(c);
  }
}
