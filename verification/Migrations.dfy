/** Which database states a migration plan accepts, and how applying it survives a stop after any commit. */
module Migrations {
  import opened Outcomes

  datatype Migration = Migration(version: string, checksum: string, markers: set<string>)

  datatype MigrationState = Absent | Complete | PartialDrifted

  /** The catalogue markers and the migration ledger that an inspection sees. */
  datatype Snapshot = Snapshot(markers: set<string>, ledger: map<string, string>)

  datatype Drift = UnexpectedObjects | PartiallyPresent | ChecksumMissing | LedgerDisagrees | OrderInvalid | PlanUnmatched

  /** Three reviewed migrations with their own versions and their own, non-empty markers. */
  ghost predicate Reviewed(ms: seq<Migration>) {
    && |ms| == 3
    && (forall i :: 0 <= i < 3 ==> ms[i].markers != {})
    && (forall i, j :: 0 <= i < j < 3 ==> ms[i].version != ms[j].version && ms[i].markers !! ms[j].markers)
  }

  function StateOf(s: Snapshot, m: Migration): MigrationState {
    var present := s.markers * m.markers;
    if present == {} then Absent else if present == m.markers then Complete else PartialDrifted
  }

  function Known(ms: seq<Migration>): set<string> {
    if ms == [] then {} else Known(ms[..|ms| - 1]) + ms[|ms| - 1].markers
  }

  function Versions(ms: seq<Migration>): set<string> {
    set i | 0 <= i < |ms| :: ms[i].version
  }

  /** The first objection to one migration, if any. */
  function Objection(s: Snapshot, m: Migration): Option<Drift> {
    var recorded := m.version in s.ledger;
    match StateOf(s, m)
    case PartialDrifted => Some(PartiallyPresent)
    case Complete => if recorded && s.ledger[m.version] == m.checksum then None else Some(ChecksumMissing)
    case Absent => if recorded then Some(LedgerDisagrees) else None
  }

  function FirstObjection(s: Snapshot, ms: seq<Migration>): Option<Drift> {
    if ms == [] then None
    else if Objection(s, ms[0]).Some? then Objection(s, ms[0])
    else FirstObjection(s, ms[1..])
  }

  function PlanMigrations(ms: seq<Migration>, s: Snapshot): Result<seq<Migration>, Drift>
    requires |ms| == 3
  {
    if s.markers - Known(ms) != {} || s.ledger.Keys - Versions(ms) != {} then Err(UnexpectedObjects)
    else if FirstObjection(s, ms).Some? then Err(FirstObjection(s, ms).value)
    else
      var first, second, third := StateOf(s, ms[0]), StateOf(s, ms[1]), StateOf(s, ms[2]);
      if first == Absent && second != Absent then Err(OrderInvalid)
      else if second == Absent && third != Absent then Err(OrderInvalid)
      else if first == Absent then Ok(ms)
      else if second == Absent then Ok([ms[1], ms[2]])
      else if third == Absent then Ok([ms[2]])
      else Ok([])
  }

  datatype SchemaClass = Blank | FirstOnly | FirstAndSecond | AllComplete

  function ClassifySchema(ms: seq<Migration>, s: Snapshot): Result<SchemaClass, Drift>
    requires |ms| == 3
  {
    match PlanMigrations(ms, s)
    case Err(drift) => Err(drift)
    case Ok(planned) =>
      if planned == ms then Ok(Blank)
      else if planned == [ms[1], ms[2]] then Ok(FirstOnly)
      else if planned == [ms[2]] then Ok(FirstAndSecond)
      else if planned == [] then Ok(AllComplete)
      else Err(PlanUnmatched)
  }

  // ---------------------------------------------------------------- what a plan accepts

  function Ledger(ms: seq<Migration>): map<string, string> {
    if ms == [] then map[] else Ledger(ms[..|ms| - 1])[ms[|ms| - 1].version := ms[|ms| - 1].checksum]
  }

  /** The state in which exactly the first k migrations are in place and recorded. */
  function Prefix(ms: seq<Migration>, k: nat): Snapshot
    requires k <= |ms|
  {
    Snapshot(Known(ms[..k]), Ledger(ms[..k]))
  }

  lemma PrefixFacts(ms: seq<Migration>)
    requires Reviewed(ms)
    ensures Prefix(ms, 0) == Snapshot({}, map[])
    ensures Prefix(ms, 1) == Snapshot(ms[0].markers, map[ms[0].version := ms[0].checksum])
    ensures Prefix(ms, 2) == Snapshot(ms[0].markers + ms[1].markers,
                                      map[ms[0].version := ms[0].checksum, ms[1].version := ms[1].checksum])
    ensures Prefix(ms, 3) == Snapshot(ms[0].markers + ms[1].markers + ms[2].markers,
                                      map[ms[0].version := ms[0].checksum, ms[1].version := ms[1].checksum,
                                          ms[2].version := ms[2].checksum])
    ensures Known(ms) == ms[0].markers + ms[1].markers + ms[2].markers
    ensures Versions(ms) == {ms[0].version, ms[1].version, ms[2].version}
  {
    assert ms[..0] == [] && ms[..1][..0] == [] && ms[..2][..1] == ms[..1] && ms[..3] == ms && ms[..3][..2] == ms[..2];
    assert forall v :: v in Versions(ms) <==> v == ms[0].version || v == ms[1].version || v == ms[2].version;
  }

  lemma ObjectionFree(s: Snapshot, ms: seq<Migration>)
    requires |ms| == 3
    ensures FirstObjection(s, ms).None? <==>
            Objection(s, ms[0]).None? && Objection(s, ms[1]).None? && Objection(s, ms[2]).None?
  {
    assert ms[1..][0] == ms[1] && ms[1..][1..][0] == ms[2] && ms[1..][1..][1..] == [];
    assert FirstObjection(s, ms[1..][1..]) == if Objection(s, ms[2]).Some? then Objection(s, ms[2]) else None;
  }

  /** How far the accepted states go. */
  function Reached(s: Snapshot, ms: seq<Migration>): nat
    requires |ms| == 3
    ensures Reached(s, ms) <= 3
  {
    if StateOf(s, ms[0]) != Complete then 0
    else if StateOf(s, ms[1]) != Complete then 1
    else if StateOf(s, ms[2]) != Complete then 2
    else 3
  }

  lemma PrefixPlanned(ms: seq<Migration>, k: nat)
    requires Reviewed(ms) && k <= 3
    ensures PlanMigrations(ms, Prefix(ms, k)) == Ok(ms[k..])
    ensures forall i :: 0 <= i < 3 ==> StateOf(Prefix(ms, k), ms[i]) == if i < k then Complete else Absent
  {
    var s := Prefix(ms, k);
    PrefixFacts(ms);
    PrefixStates(ms, k);
    ObjectionFree(s, ms);
    assert s.markers - Known(ms) == {};
    assert s.ledger.Keys - Versions(ms) == {};
    assert ms[3..] == [] && ms[2..] == [ms[2]] && ms[1..] == [ms[1], ms[2]] && ms[0..] == ms;
  }

  lemma PrefixStates(ms: seq<Migration>, k: nat)
    requires Reviewed(ms) && k <= 3
    ensures forall i :: 0 <= i < 3 ==> StateOf(Prefix(ms, k), ms[i]) == if i < k then Complete else Absent
    ensures forall i :: 0 <= i < 3 ==> Objection(Prefix(ms, k), ms[i]).None?
  {
    PrefixFacts(ms);
    forall i | 0 <= i < 3
      ensures StateOf(Prefix(ms, k), ms[i]) == if i < k then Complete else Absent
      ensures Objection(Prefix(ms, k), ms[i]).None?
    {
      var present := Prefix(ms, k).markers * ms[i].markers;
      assert ms[0].markers !! ms[1].markers && ms[0].markers !! ms[2].markers && ms[1].markers !! ms[2].markers;
      assert present == if i < k then ms[i].markers else {};
    }
  }

  lemma PlannedLedger(ms: seq<Migration>, s: Snapshot)
    requires Reviewed(ms) && PlanMigrations(ms, s).Ok?
    ensures s.ledger == Prefix(ms, Reached(s, ms)).ledger
  {
    PrefixFacts(ms);
    ObjectionFree(s, ms);
    assert forall v :: v in s.ledger ==> v in Versions(ms) by {
      assert forall v :: v in s.ledger.Keys && v !in Versions(ms) ==> v in s.ledger.Keys - Versions(ms);
    }
  }

  lemma PlannedMarkers(ms: seq<Migration>, s: Snapshot)
    requires Reviewed(ms) && PlanMigrations(ms, s).Ok?
    ensures s.markers == Prefix(ms, Reached(s, ms)).markers
  {
    PrefixFacts(ms);
    ObjectionFree(s, ms);
    MarkersAre(ms, s);
  }

  lemma PlannedIsPrefix(ms: seq<Migration>, s: Snapshot)
    requires Reviewed(ms) && PlanMigrations(ms, s).Ok?
    ensures s == Prefix(ms, Reached(s, ms))
  {
    PlannedLedger(ms, s);
    PlannedMarkers(ms, s);
  }

  lemma MarkersAre(ms: seq<Migration>, s: Snapshot)
    requires Reviewed(ms) && s.markers - Known(ms) == {}
    ensures s.markers == s.markers * ms[0].markers + s.markers * ms[1].markers + s.markers * ms[2].markers
  {
    PrefixFacts(ms);
    assert forall x :: x in s.markers && x !in Known(ms) ==> x in s.markers - Known(ms);
  }

  /** A plan accepts exactly the states where a prefix is complete and recorded, and returns the remaining migrations. */
  lemma AcceptedIffPrefix(ms: seq<Migration>, s: Snapshot, rest: seq<Migration>)
    requires Reviewed(ms)
    ensures PlanMigrations(ms, s) == Ok(rest) <==> exists k :: 0 <= k <= 3 && s == Prefix(ms, k) && rest == ms[k..]
  {
    if PlanMigrations(ms, s) == Ok(rest) {
      PlannedIsPrefix(ms, s);
      PrefixPlanned(ms, Reached(s, ms));
    }
    forall k | 0 <= k <= 3 && s == Prefix(ms, k) && rest == ms[k..]
      ensures PlanMigrations(ms, s) == Ok(rest)
    {
      PrefixPlanned(ms, k);
    }
  }

  function Class(k: nat): SchemaClass {
    if k == 0 then Blank else if k == 1 then FirstOnly else if k == 2 then FirstAndSecond else AllComplete
  }

  /** Classification names the prefix, and never fails on a state the plan accepts. */
  lemma ClassNamesPrefix(ms: seq<Migration>, s: Snapshot, k: nat)
    requires Reviewed(ms) && k <= 3
    ensures ClassifySchema(ms, s) == Ok(Class(k)) <==> s == Prefix(ms, k)
    ensures ClassifySchema(ms, s).Ok? <==> PlanMigrations(ms, s).Ok?
  {
    PrefixPlanned(ms, k);
    if PlanMigrations(ms, s).Ok? {
      PlannedIsPrefix(ms, s);
      PrefixPlanned(ms, Reached(s, ms));
    }
    assert |ms[k..]| == 3 - k;
  }

  // ---------------------------------------------------------------- what a plan refuses

  ghost predicate Touched(s: Snapshot, m: Migration) {
    exists x :: x in m.markers && x in s.markers
  }

  ghost predicate All(s: Snapshot, m: Migration) {
    forall x :: x in m.markers ==> x in s.markers
  }

  /** What one migration is found to be, and the objection to it. */
  lemma ObjectionMeans(s: Snapshot, m: Migration)
    requires m.markers != {}
    ensures Objection(s, m) == Some(PartiallyPresent) <==> Touched(s, m) && !All(s, m)
    ensures Objection(s, m) == Some(ChecksumMissing) <==>
            All(s, m) && !(m.version in s.ledger && s.ledger[m.version] == m.checksum)
    ensures Objection(s, m) == Some(LedgerDisagrees) <==> !Touched(s, m) && m.version in s.ledger
    ensures Objection(s, m).None? <==>
            if m.version in s.ledger then All(s, m) && s.ledger[m.version] == m.checksum else !Touched(s, m)
  {
    var present := s.markers * m.markers;
    assert forall x :: x in present <==> x in m.markers && x in s.markers;
    assert present == {} <==> !Touched(s, m);
    assert present == m.markers <==> All(s, m);
    var x :| x in m.markers;
  }

  /** Unknown objects are refused first, then the first migration objected to, then a hole in the order. */
  lemma RefusalsMean(ms: seq<Migration>, s: Snapshot)
    requires Reviewed(ms)
    ensures var known := ms[0].markers + ms[1].markers + ms[2].markers;
            var versions := {ms[0].version, ms[1].version, ms[2].version};
            var familiar := s.markers <= known && s.ledger.Keys <= versions;
            && (PlanMigrations(ms, s) == Err(UnexpectedObjects) <==> !familiar)
            && (familiar && Objection(s, ms[0]).Some? ==> PlanMigrations(ms, s) == Err(Objection(s, ms[0]).value))
            && (familiar && Objection(s, ms[0]).None? && Objection(s, ms[1]).Some? ==>
                  PlanMigrations(ms, s) == Err(Objection(s, ms[1]).value))
            && (familiar && Objection(s, ms[0]).None? && Objection(s, ms[1]).None? && Objection(s, ms[2]).Some? ==>
                  PlanMigrations(ms, s) == Err(Objection(s, ms[2]).value))
            && (PlanMigrations(ms, s) == Err(OrderInvalid) <==>
                  && familiar && (forall i :: 0 <= i < 3 ==> Objection(s, ms[i]).None?)
                  && ((!All(s, ms[0]) && All(s, ms[1])) || (!All(s, ms[1]) && All(s, ms[2]))))
  {
    PrefixFacts(ms);
    assert s.markers - Known(ms) == {} <==> s.markers <= Known(ms);
    assert s.ledger.Keys - Versions(ms) == {} <==> s.ledger.Keys <= Versions(ms);
    forall i | 0 <= i < 3
      ensures Objection(s, ms[i]).None? ==> (StateOf(s, ms[i]) == Absent <==> !All(s, ms[i]))
      ensures Objection(s, ms[i]).Some? ==> Objection(s, ms[i]).value in {PartiallyPresent, ChecksumMissing, LedgerDisagrees}
    {
      ObjectionMeans(s, ms[i]);
      assert s.markers * ms[i].markers == ms[i].markers <==> All(s, ms[i]);
    }
    FirstOfThree(s, ms);
  }

  lemma FirstOfThree(s: Snapshot, ms: seq<Migration>)
    requires |ms| == 3
    ensures FirstObjection(s, ms)
            == if Objection(s, ms[0]).Some? then Objection(s, ms[0])
               else if Objection(s, ms[1]).Some? then Objection(s, ms[1]) else Objection(s, ms[2])
  {
    assert ms[1..][0] == ms[1] && ms[1..][1..][0] == ms[2] && ms[1..][1..][1..] == [];
    assert FirstObjection(s, ms[1..][1..]) == if Objection(s, ms[2]).Some? then Objection(s, ms[2]) else None;
  }

  // ---------------------------------------------------------------- applying

  /** The effect of a migration's SQL on the markers; None when the SQL fails. */
  type Script = set<string> -> Option<set<string>>

  datatype Failure = Drifted(drift: Drift) | SourceMissing | SqlFailed | VerificationFailed

  /** What a migration's transaction would commit. */
  function Committed(sources: map<string, Script>, m: Migration, s: Snapshot): Result<Snapshot, Failure> {
    if m.version !in sources then Err(SourceMissing)
    else
      var effect := sources[m.version](s.markers);
      if effect.None? || m.version in s.ledger then Err(SqlFailed)
      else Ok(Snapshot(effect.value, s.ledger[m.version := m.checksum]))
  }

  predicate InPlace(s: Snapshot, m: Migration) {
    StateOf(s, m) == Complete && m.version in s.ledger && s.ledger[m.version] == m.checksum
  }

  /** One migration: the state it commits, if any, and why it stopped the job, if it did. */
  function Step(sources: map<string, Script>, m: Migration, s: Snapshot): (Option<Failure>, seq<Snapshot>) {
    match Committed(sources, m, s)
    case Err(failure) => (Some(failure), [])
    case Ok(next) => (if InPlace(next, m) then None else Some(VerificationFailed), [next])
  }

  /** The committed states of applying the planned migrations in turn, and the failure that stopped it, if any. */
  function ApplyPlanned(sources: map<string, Script>, planned: seq<Migration>, s: Snapshot)
    : (Option<Failure>, seq<Snapshot>)
  {
    if planned == [] then (None, [])
    else
      var (failure, commits) := Step(sources, planned[0], s);
      if failure.Some? then (failure, commits)
      else
        var (later, rest) := ApplyPlanned(sources, planned[1..], LastOf(s, commits));
        (later, commits + rest)
  }

  function LastOf(s: Snapshot, commits: seq<Snapshot>): Snapshot {
    if commits == [] then s else commits[|commits| - 1]
  }

  function VersionsOf(ms: seq<Migration>): (vs: seq<string>)
    ensures |vs| == |ms| && forall i :: 0 <= i < |ms| ==> vs[i] == ms[i].version
  {
    seq(|ms|, i requires 0 <= i < |ms| => ms[i].version)
  }

  /** The answer of a whole job and every state it commits, in order. */
  function Apply(ms: seq<Migration>, sources: map<string, Script>, s: Snapshot)
    : (Result<seq<string>, Failure>, seq<Snapshot>)
    requires |ms| == 3
  {
    match PlanMigrations(ms, s)
    case Err(drift) => (Err(Drifted(drift)), [])
    case Ok(planned) =>
      var (failure, commits) := ApplyPlanned(sources, planned, s);
      if failure.Some? then (Err(failure.value), commits)
      else
        match PlanMigrations(ms, LastOf(s, commits))
        case Err(drift) => (Err(Drifted(drift)), commits)
        case Ok(_) => (Ok(VersionsOf(planned)), commits)
  }

  /** The script runs, and the migration is not recorded yet. */
  ghost predicate Runs(sources: map<string, Script>, m: Migration, s: Snapshot) {
    m.version in sources && sources[m.version](s.markers).Some? && m.version !in s.ledger
  }

  /**
   One migration commits once or not at all: its source is missing, its SQL fails, or it is committed with
   its record, and the job goes on exactly if all its objects are then there.
   */
  lemma StepMeans(sources: map<string, Script>, m: Migration, s: Snapshot)
    requires m.markers != {}
    ensures var (failure, commits) := Step(sources, m, s);
            && (failure == Some(SourceMissing) <==> m.version !in sources)
            && (failure == Some(SqlFailed) <==> m.version in sources && !Runs(sources, m, s))
            && (commits != [] <==> Runs(sources, m, s))
            && (commits != [] ==>
                  && commits == [Snapshot(sources[m.version](s.markers).value, s.ledger[m.version := m.checksum])]
                  && (failure == Some(VerificationFailed) <==> !All(commits[0], m))
                  && (failure.None? <==> All(commits[0], m)))
  {
    if Runs(sources, m, s) {
      var next := Snapshot(sources[m.version](s.markers).value, s.ledger[m.version := m.checksum]);
      assert next.markers * m.markers == m.markers <==> All(next, m);
    }
  }

  /** The first migration that fails stops the job, with what was committed until then. */
  lemma {:induction false} FirstFailureStops(sources: map<string, Script>, planned: seq<Migration>, s: Snapshot, n: nat,
                                             commits: seq<Snapshot>)
    requires n < |planned| && ApplyPlanned(sources, planned[..n], s) == (None, commits)
    requires Step(sources, planned[n], LastOf(s, commits)).0.Some?
    ensures ApplyPlanned(sources, planned, s)
            == (Step(sources, planned[n], LastOf(s, commits)).0, commits + Step(sources, planned[n], LastOf(s, commits)).1)
    decreases n
  {
    if n == 0 {
      assert commits + Step(sources, planned[0], s).1 == Step(sources, planned[0], s).1;
    } else {
      assert planned[..n][0] == planned[0] && planned[..n][1..] == planned[1..][..n - 1];
      var (failure, first) := Step(sources, planned[0], s);
      var next := LastOf(s, first);
      var rest := ApplyPlanned(sources, planned[1..][..n - 1], next).1;
      assert LastOf(s, first + rest) == LastOf(next, rest);
      FirstFailureStops(sources, planned[1..], next, n - 1, rest);
      var last := Step(sources, planned[n], LastOf(s, commits)).1;
      assert first + (rest + last) == (first + rest) + last;
    }
  }

  function After(added: seq<Snapshot>, rest: (Option<Failure>, seq<Snapshot>)): (Option<Failure>, seq<Snapshot>) {
    (rest.0, added + rest.1)
  }

  lemma OneStep(sources: map<string, Script>, planned: seq<Migration>, i: nat, s: Snapshot, added: seq<Snapshot>)
    requires i < |planned|
    ensures var (failure, commits) := Step(sources, planned[i], s);
            After(added, ApplyPlanned(sources, planned[i..], s))
            == if failure.Some? then (failure, added + commits)
               else After(added + commits, ApplyPlanned(sources, planned[i + 1..], LastOf(s, commits)))
    ensures Step(sources, planned[i], s).0.None? ==> Step(sources, planned[i], s).1 != []
  {
    assert planned[i..][0] == planned[i] && planned[i..][1..] == planned[i + 1..];
    var (failure, commits) := Step(sources, planned[i], s);
    if failure.None? {
      var rest := ApplyPlanned(sources, planned[i + 1..], LastOf(s, commits)).1;
      assert added + (commits + rest) == (added + commits) + rest;
    }
  }

  class Database {
    var markers: set<string>
    var ledger: map<string, string>
    ghost var commits: seq<Snapshot>

    ghost function View(): Snapshot
      reads this
    {
      Snapshot(markers, ledger)
    }

    /** The committed state is the last one of the history. */
    ghost predicate Valid()
      reads this
    {
      commits != [] && commits[|commits| - 1] == View()
    }

    constructor (start: Snapshot)
      ensures Valid() && View() == start && commits == [start]
    {
      markers, ledger := start.markers, start.ledger;
      commits := [start];
    }

    method InspectSchema() returns (s: Snapshot)
      ensures s == View()
    {
      s := Snapshot(markers, ledger);
    }

    /** Runs one migration and its ledger entry in a transaction; nothing changes unless it commits. */
    method CommitMigration(sources: map<string, Script>, m: Migration) returns (failure: Option<Failure>)
      requires Valid()
      modifies this
      ensures Valid()
      ensures match Committed(sources, m, old(View()))
              case Err(e) => failure == Some(e) && View() == old(View()) && commits == old(commits)
              case Ok(next) => failure == None && View() == next && commits == old(commits) + [next]
    {
      if m.version !in sources {
        return Some(SourceMissing);
      }
      var effect := sources[m.version](markers);
      if effect.None? || m.version in ledger {
        return Some(SqlFailed);
      }
      markers := effect.value;
      ledger := ledger[m.version := m.checksum];
      commits := commits + [View()];
      return None;
    }

    /** A migration is committed and then read back. */
    method ApplyOne(sources: map<string, Script>, m: Migration) returns (failure: Option<Failure>)
      requires Valid()
      modifies this
      ensures Valid()
      ensures (failure, commits) == After(old(commits), Step(sources, m, old(View())))
    {
      failure := CommitMigration(sources, m);
      if failure.Some? {
        assert commits + [] == commits;
        return;
      }
      var snapshot := InspectSchema();
      if StateOf(snapshot, m) != Complete || m.version !in snapshot.ledger || snapshot.ledger[m.version] != m.checksum {
        failure := Some(VerificationFailed);
      }
    }

    /** The first planned migration that fails or does not verify stops the job. */
    method ApplyEach(sources: map<string, Script>, planned: seq<Migration>)
      returns (failure: Option<Failure>, actions: seq<string>)
      requires Valid()
      modifies this
      ensures Valid()
      ensures (failure, commits) == After(old(commits), ApplyPlanned(sources, planned, old(View())))
      ensures failure.None? ==> actions == VersionsOf(planned)
    {
      actions := [];
      ghost var whole := After(commits, ApplyPlanned(sources, planned, View()));
      assert planned[0..] == planned;
      for i := 0 to |planned|
        invariant Valid()
        invariant actions == VersionsOf(planned[..i])
        invariant whole == After(commits, ApplyPlanned(sources, planned[i..], View()))
      {
        OneStep(sources, planned, i, View(), commits);
        failure := ApplyOne(sources, planned[i]);
        if failure.Some? {
          return;
        }
        actions := actions + [planned[i].version];
        assert planned[..i + 1] == planned[..i] + [planned[i]];
      }
      assert planned[|planned|..] == [] && planned[..|planned|] == planned;
      assert commits + [] == commits;
      failure := None;
    }

    method ApplyRequiredMigrations(ms: seq<Migration>, sources: map<string, Script>)
      returns (r: Result<seq<string>, Failure>)
      requires Valid() && |ms| == 3
      modifies this
      ensures Valid()
      ensures var (answer, added) := Apply(ms, sources, old(View()));
              r == answer && commits == old(commits) + added
    {
      var before := InspectSchema();
      var plan := PlanMigrations(ms, before);
      if plan.Err? {
        assert commits == old(commits) + [];
        return Err(Drifted(plan.error));
      }
      ghost var added := ApplyPlanned(sources, plan.value, before).1;
      var failure, actions := ApplyEach(sources, plan.value);
      assert View() == LastOf(before, added);
      if failure.Some? {
        return Err(failure.value);
      }
      var after := InspectSchema();
      var last := PlanMigrations(ms, after);
      if last.Err? {
        return Err(Drifted(last.error));
      }
      return Ok(actions);
    }
  }

  // ---------------------------------------------------------------- stopping and resuming

  /** Each script adds exactly its migration's markers to the state its predecessors left. */
  ghost predicate Faithful(ms: seq<Migration>, sources: map<string, Script>) {
    forall i :: 0 <= i < |ms| ==>
      && ms[i].version in sources
      && sources[ms[i].version](Known(ms[..i])) == Some(Known(ms[..i + 1]))
  }

  function PrefixesFrom(ms: seq<Migration>, k: nat): (ps: seq<Snapshot>)
    requires k <= |ms|
    ensures |ps| == |ms| - k && forall i :: 0 <= i < |ps| ==> ps[i] == Prefix(ms, k + i + 1)
    decreases |ms| - k
  {
    if k == |ms| then [] else [Prefix(ms, k + 1)] + PrefixesFrom(ms, k + 1)
  }

  lemma OneCommit(ms: seq<Migration>, sources: map<string, Script>, k: nat)
    requires Reviewed(ms) && Faithful(ms, sources) && k < 3
    ensures Committed(sources, ms[k], Prefix(ms, k)) == Ok(Prefix(ms, k + 1))
    ensures InPlace(Prefix(ms, k + 1), ms[k])
  {
    PrefixStates(ms, k);
    PrefixStates(ms, k + 1);
    assert Objection(Prefix(ms, k), ms[k]).None?;
    assert Objection(Prefix(ms, k + 1), ms[k]).None?;
    assert ms[..k + 1][..k] == ms[..k];
  }

  lemma {:induction false} CommitsPrefixes(ms: seq<Migration>, sources: map<string, Script>, k: nat)
    requires Reviewed(ms) && Faithful(ms, sources) && k <= 3
    ensures ApplyPlanned(sources, ms[k..], Prefix(ms, k)) == (None, PrefixesFrom(ms, k))
    decreases 3 - k
  {
    if k < 3 {
      OneCommit(ms, sources, k);
      CommitsPrefixes(ms, sources, k + 1);
      assert ms[k..][0] == ms[k] && ms[k..][1..] == ms[k + 1..];
    }
  }

  /**
   From any accepted state the job commits one longer prefix after another and ends complete; a stop
   after any commit leaves an accepted state, from which the same holds again; once complete it is a no-op.
   */
  lemma JobCompletes(ms: seq<Migration>, sources: map<string, Script>, k: nat)
    requires Reviewed(ms) && Faithful(ms, sources) && k <= 3
    ensures Apply(ms, sources, Prefix(ms, k)) == (Ok(VersionsOf(ms[k..])), PrefixesFrom(ms, k))
  {
    PrefixPlanned(ms, k);
    CommitsPrefixes(ms, sources, k);
    PrefixPlanned(ms, 3);
    var commits := PrefixesFrom(ms, k);
    assert LastOf(Prefix(ms, k), commits) == Prefix(ms, 3);
  }

  lemma LastPrefix(ms: seq<Migration>, k: nat, stop: nat)
    requires |ms| == 3 && k <= 3 && stop <= 3 - k
    ensures LastOf(Prefix(ms, k), PrefixesFrom(ms, k)[..stop]) == Prefix(ms, k + stop)
    ensures PrefixesFrom(ms, k)[..stop] + PrefixesFrom(ms, k + stop) == PrefixesFrom(ms, k)
  {
  }

  lemma StopAndResume(ms: seq<Migration>, sources: map<string, Script>, start: Snapshot, stop: nat)
    requires Reviewed(ms) && Faithful(ms, sources) && PlanMigrations(ms, start).Ok?
    requires stop <= |Apply(ms, sources, start).1|
    ensures var commits := Apply(ms, sources, start).1;
            var stopped := LastOf(start, commits[..stop]);
            && PlanMigrations(ms, stopped).Ok?
            && Apply(ms, sources, stopped).0.Ok?
            && commits[..stop] + Apply(ms, sources, stopped).1 == commits
            && Apply(ms, sources, LastOf(start, commits)) == (Ok([]), [])
  {
    PlannedIsPrefix(ms, start);
    var k := Reached(start, ms);
    JobCompletes(ms, sources, k);
    LastPrefix(ms, k, stop);
    PrefixPlanned(ms, k + stop);
    JobCompletes(ms, sources, k + stop);
    LastPrefix(ms, k, 3 - k);
    var commits := PrefixesFrom(ms, k);
    assert commits[..3 - k] == commits;
    JobCompletes(ms, sources, 3);
    assert VersionsOf(ms[3..]) == [];
  }

  lemma {:induction false} AppliedRecords(sources: map<string, Script>, planned: seq<Migration>, s: Snapshot)
    requires ApplyPlanned(sources, planned, s).0.None?
    ensures var last := LastOf(s, ApplyPlanned(sources, planned, s).1);
            && (forall m :: m in planned ==> m.version in last.ledger)
            && (forall v :: v in s.ledger ==> v in last.ledger)
  {
    if planned != [] {
      var next := Committed(sources, planned[0], s).value;
      AppliedRecords(sources, planned[1..], next);
      assert planned == [planned[0]] + planned[1..];
    }
  }

  /** Whatever the scripts did, a job that reports success leaves everything complete and nothing to plan. */
  lemma SuccessIsComplete(ms: seq<Migration>, sources: map<string, Script>, s: Snapshot)
    requires Reviewed(ms) && Apply(ms, sources, s).0.Ok?
    ensures LastOf(s, Apply(ms, sources, s).1) == Prefix(ms, 3)
  {
    PlannedIsPrefix(ms, s);
    var k := Reached(s, ms);
    PrefixPlanned(ms, k);
    AppliedRecords(sources, ms[k..], s);
    var last := LastOf(s, Apply(ms, sources, s).1);
    PlannedIsPrefix(ms, last);
    PrefixFacts(ms);
    assert ms[2].version in last.ledger by {
      assert k < 3 ==> ms[k..][2 - k] == ms[2];
    }
    assert Reached(last, ms) == 3;
  }
}
