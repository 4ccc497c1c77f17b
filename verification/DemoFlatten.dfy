/** Flattening: closing every broker position through the dealing core, one after another. */
module DemoFlatten {
  import opened Outcomes
  import opened DemoExecution

  datatype FlattenError = OwnershipUnknown | CloseRefused(error: Error) | CloseAmbiguous

  /** What the gate and the broker answer while one position is closed. */
  datatype Replies = Replies(
    gate: Gate, close: Reply<Submission>, confirmation: Reply<Option<Confirmation>>, positions: Reply<seq<Position>>)

  predicate Ownable(e: ExecutionRecord) {
    e.lifecycle == OpenReconciled && e.position.Some?
  }

  /** The open record of each deal; a later record with the same deal replaces an earlier one. */
  function Owners(all: seq<ExecutionRecord>): (owners: map<string, int>)
    ensures forall deal :: deal in owners ==> exists e :: e in all && Owns(e, deal, owners[deal])
  {
    if all == [] then map[]
    else
      var n := |all| - 1;
      assert all == all[..n] + [all[n]];
      if Ownable(all[n]) then
        assert Owns(all[n], all[n].position.value.dealId, all[n].request.intentId);
        Owners(all[..n])[all[n].position.value.dealId := all[n].request.intentId]
      else Owners(all[..n])
  }

  ghost predicate Owns(e: ExecutionRecord, deal: string, id: int) {
    Ownable(e) && e.position.value.dealId == deal && e.request.intentId == id
  }

  /** An open record with this deal. */
  ghost predicate OpenDeal(e: ExecutionRecord, deal: string) {
    e.lifecycle == OpenReconciled && e.position.Some? && e.position.value.dealId == deal
  }

  /** The record at this place is open with this deal, and no later one is. */
  ghost predicate LastOpen(all: seq<ExecutionRecord>, deal: string, i: nat) {
    i < |all| && OpenDeal(all[i], deal) && forall j :: i < j < |all| ==> !OpenDeal(all[j], deal)
  }

  lemma OwnersSplit(all: seq<ExecutionRecord>)
    requires all != []
    ensures var n := |all| - 1;
            Owners(all) == if Ownable(all[n]) then Owners(all[..n])[all[n].position.value.dealId := all[n].request.intentId]
                           else Owners(all[..n])
  {
  }

  lemma LastOpenGrows(all: seq<ExecutionRecord>, deal: string, i: nat)
    requires all != [] && LastOpen(all[..|all| - 1], deal, i) && !OpenDeal(all[|all| - 1], deal)
    ensures LastOpen(all, deal, i) && all[i] == all[..|all| - 1][i]
  {
    assert forall j :: 0 <= j < |all| - 1 ==> all[..|all| - 1][j] == all[j];
  }

  /** A deal is owned exactly if some record is open with it, and by the last such record. */
  lemma {:induction false} OwnersAre(all: seq<ExecutionRecord>, deal: string) returns (i: nat)
    ensures deal !in Owners(all) ==> forall e :: e in all ==> !OpenDeal(e, deal)
    ensures deal in Owners(all) ==> LastOpen(all, deal, i) && Owners(all)[deal] == all[i].request.intentId
  {
    i := 0;
    if all != [] {
      var n := |all| - 1;
      OwnersSplit(all);
      if OpenDeal(all[n], deal) {
        i := n;
      } else {
        i := OwnersAre(all[..n], deal);
        if deal in Owners(all[..n]) {
          LastOpenGrows(all, deal, i);
        } else {
          assert all == all[..n] + [all[n]];
        }
      }
    }
  }

  function Ids(ps: seq<Position>, owners: map<string, int>): (ids: seq<int>)
    requires forall p :: p in ps ==> p.dealId in owners
    ensures |ids| == |ps| && forall i :: 0 <= i < |ps| ==> ids[i] == owners[ps[i].dealId]
  {
    seq(|ps|, i requires 0 <= i < |ps| => assert ps[i] in ps; owners[ps[i].dealId])
  }

  /** The listed records are those of the store. */
  ghost predicate Listed(all: seq<ExecutionRecord>, records: map<int, ExecutionRecord>) {
    forall e :: e in all ==> e.request.intentId in records && records[e.request.intentId] == e
  }

  // ---------------------------------------------------------------- one close

  /** Nothing but this record, this close call and its bookkeeping changed. */
  ghost predicate OnlyThis(w: World, n: World, id: int) {
    id in w.records && id in n.records && n.records == w.records[id := n.records[id]]
    && n.records[id].request == w.records[id].request
  }

  lemma CloseOnly(w: World, id: int, g: Gate, reply: Reply<Submission>)
    requires id in w.records
    ensures var n := Final(w, CloseTrace(w, id, g, reply));
            && OnlyThis(w, n, id)
            && n.closes == w.closes + (if CloseGuard(w.records, id, g).None? then multiset{id} else multiset{})
            && (n.records[id].lifecycle == CloseRequested && w.records[id].lifecycle == OpenReconciled
                ==> CloseGuard(w.records, id, g).None?)
            && (CloseGuard(w.records, id, g).None? ==> w.records[id].lifecycle == OpenReconciled)
            && (CloseGuard(w.records, id, g).Some? ==> n == w)
            && (n.records[id].lifecycle == CloseRequested || n.records[id] == w.records[id]
                || n.records[id].lifecycle == Ambiguous || n.records[id].lifecycle == FailedSafe)
  {
    assert w.records == w.records[id := w.records[id]];
  }

  lemma ReconcileOnly(w: World, id: int, confirmation: Reply<Option<Confirmation>>, positions: Reply<seq<Position>>)
    requires id in w.records
    ensures var n := Final(w, CloseReconcileTrace(w, id, confirmation, positions));
            && OnlyThis(w, n, id) && n.closes == w.closes
            && (n.records[id].lifecycle == ClosedReconciled && w.records[id].lifecycle == CloseRequested ==>
                  && n.records[id].confirmation.Some? && CloseMatches(w.records[id], n.records[id].confirmation.value)
                  && positions.Returns?
                  && forall p :: p in positions.value ==> w.records[id].position.Some? && p.dealId != w.records[id].position.value.dealId)
  {
    assert w.records == w.records[id := w.records[id]];
  }

  /** The records of some positions are closed and reconciled, each by one close call; every other record is as before. */
  ghost predicate Flattened(before: World, now: World, ids: seq<int>) {
    && (forall i, j :: 0 <= i < j < |ids| ==> ids[i] != ids[j])
    && (forall id :: id in ids ==> id in now.records && now.records[id].lifecycle == ClosedReconciled)
    && now.records.Keys == before.records.Keys
    && (forall id :: id in before.records ==> now.records[id].request == before.records[id].request)
    && (forall id :: id in before.records && id !in ids ==> now.records[id] == before.records[id])
    && now.closes == before.closes + multiset(ids)
  }

  lemma FlattenedNext(before: World, now: World, ids: seq<int>, mid: World, next: World, id: int)
    requires Flattened(before, now, ids) && id in before.records && id !in ids
    requires OnlyThis(now, mid, id) && mid.closes == now.closes + multiset{id}
    requires OnlyThis(mid, next, id) && next.closes == mid.closes && next.records[id].lifecycle == ClosedReconciled
    ensures Flattened(before, next, ids + [id])
  {
    assert multiset(ids + [id]) == multiset(ids) + multiset{id};
  }

  function Requested(w: World, id: int, r: Replies): World {
    Final(w, CloseTrace(w, id, r.gate, r.close))
  }

  function Reconciled(w: World, id: int, r: Replies): World {
    Final(w, CloseReconcileTrace(w, id, r.confirmation, r.positions))
  }

  predicate RefusedFor(w: World, id: int, g: Gate) {
    CloseGuard(w.records, id, g).Some? && CloseGuard(w.records, id, g).value.Refused?
  }

  method CloseOne(core: DemoExecutionCore, id: int, r: Replies) returns (failure: Option<FlattenError>)
    requires id in core.records && core.records[id].request.intentId == id
    modifies core
    ensures RefusedFor(old(core.Now()), id, r.gate) ==>
              core.Now() == Requested(old(core.Now()), id, r) && failure.Some? && failure.value != OwnershipUnknown
    ensures !RefusedFor(old(core.Now()), id, r.gate) ==>
              var mid := Requested(old(core.Now()), id, r);
              && core.Now() == Reconciled(mid, id, r)
              && id in mid.records && id in core.records
              && (failure.None? <==> mid.records[id].lifecycle == CloseRequested && core.records[id].lifecycle == ClosedReconciled)
              && failure != Some(OwnershipUnknown)
  {
    ghost var w := core.Now();
    CloseOnly(w, id, r.gate, r.close);
    var requested := core.RequestClose(id, r.gate, r.close);
    if requested.Refused? {
      return Some(CloseRefused(requested.error));
    }
    ghost var mid := core.Now();
    ReconcileOnly(mid, id, r.confirmation, r.positions);
    var reconciled := core.ReconcileClose(id, r.confirmation, r.positions);
    if requested.record.lifecycle != CloseRequested || reconciled.record.lifecycle != ClosedReconciled {
      return Some(CloseAmbiguous);
    }
    return None;
  }

  /** After some positions were flattened, one more was attempted and nothing else happened. */
  ghost predicate Attempted(before: World, w: World, now: World, ids: seq<int>, id: int) {
    && Flattened(before, w, ids)
    && OnlyThis(w, now, id)
    && (now.closes == w.closes || (id !in ids && now.closes == w.closes + multiset{id}))
  }

  lemma OneClose(before: World, w: World, ids: seq<int>, id: int, r: Replies)
    requires Flattened(before, w, ids) && id in before.records && before.records[id].lifecycle == OpenReconciled
    ensures var mid := Requested(w, id, r);
            && id in mid.records
            && Attempted(before, w, mid, ids, id)
            && Attempted(before, w, Reconciled(mid, id, r), ids, id)
            && (mid.records[id].lifecycle == CloseRequested && Reconciled(mid, id, r).records[id].lifecycle == ClosedReconciled
                ==> Flattened(before, Reconciled(mid, id, r), ids + [id]))
  {
    CloseOnly(w, id, r.gate, r.close);
    var mid := Requested(w, id, r);
    ReconcileOnly(mid, id, r.confirmation, r.positions);
    var next := Reconciled(mid, id, r);
    assert OnlyThis(w, next, id);
    assert id in ids ==> w.records[id].lifecycle == ClosedReconciled;
    if mid.records[id].lifecycle == CloseRequested && next.records[id].lifecycle == ClosedReconciled {
      FlattenedNext(before, w, ids, mid, next, id);
    }
  }

  ghost predicate OwnIds(records: map<int, ExecutionRecord>) {
    forall id :: id in records ==> records[id].request.intentId == id
  }

  lemma OwnerIsOpen(all: seq<ExecutionRecord>, records: map<int, ExecutionRecord>, deal: string)
    requires Listed(all, records) && deal in Owners(all)
    ensures var id := Owners(all)[deal];
            id in records && records[id].lifecycle == OpenReconciled && records[id].position.Some?
            && records[id].position.value.dealId == deal
  {
    var e :| e in all && Owns(e, deal, Owners(all)[deal]);
  }

  method CloseNext(core: DemoExecutionCore, ghost before: World, ghost closed: seq<int>, id: int, r: Replies)
    returns (failure: Option<FlattenError>)
    requires Flattened(before, core.Now(), closed) && OwnIds(before.records)
    requires id in before.records && before.records[id].lifecycle == OpenReconciled
    modifies core
    ensures failure.None? ==> Flattened(before, core.Now(), closed + [id])
    ensures failure.Some? ==> Attempted(before, old(core.Now()), core.Now(), closed, id)
    ensures failure != Some(OwnershipUnknown)
  {
    OneClose(before, core.Now(), closed, id, r);
    failure := CloseOne(core, id, r);
  }

  /** Closes in order; the first that is refused or not proven closed stops the rest. */
  method CloseInOrder(core: DemoExecutionCore, ids: seq<int>, replies: seq<Replies>)
    returns (failure: Option<FlattenError>, ghost done: nat, ghost w: World)
    requires |replies| == |ids| && OwnIds(core.records)
    requires forall id :: id in ids ==> id in core.records && core.records[id].lifecycle == OpenReconciled
    modifies core
    ensures failure.None? ==> Flattened(old(core.Now()), core.Now(), ids)
    ensures failure.Some? ==> done < |ids| && Attempted(old(core.Now()), w, core.Now(), ids[..done], ids[done])
    ensures failure != Some(OwnershipUnknown)
  {
    ghost var before := core.Now();
    done, w := 0, before;
    for i := 0 to |ids|
      invariant Flattened(before, core.Now(), ids[..i])
    {
      done, w := i, core.Now();
      failure := CloseNext(core, before, ids[..i], ids[i], replies[i]);
      if failure.Some? {
        return;
      }
      assert ids[..i + 1] == ids[..i] + [ids[i]];
    }
    assert ids[..|ids|] == ids;
    failure := None;
  }

  lemma OwnersAreOpen(all: seq<ExecutionRecord>, records: map<int, ExecutionRecord>, ps: seq<Position>)
    requires Listed(all, records) && forall p :: p in ps ==> p.dealId in Owners(all)
    ensures forall id :: id in Ids(ps, Owners(all)) ==> id in records && records[id].lifecycle == OpenReconciled
  {
    var ids := Ids(ps, Owners(all));
    forall id | id in ids
      ensures id in records && records[id].lifecycle == OpenReconciled
    {
      var i :| 0 <= i < |ids| && ids[i] == id;
      assert ps[i] in ps;
      OwnerIsOpen(all, records, ps[i].dealId);
    }
  }

  /**
   An unowned broker position blocks everything before the first close. Otherwise the positions are
   closed in order, one close call each; the first that is refused or not proven closed stops the rest.
   */
  method CloseAllDemoPositions(core: DemoExecutionCore, all: seq<ExecutionRecord>, ps: seq<Position>, replies: seq<Replies>)
    returns (r: Result<nat, FlattenError>, ghost done: nat, ghost w: World)
    requires |replies| == |ps| && Listed(all, core.records) && OwnIds(core.records)
    modifies core
    ensures r == Err(OwnershipUnknown) <==> exists p :: p in ps && p.dealId !in Owners(all)
    ensures r == Err(OwnershipUnknown) <==> exists p :: p in ps && forall e :: e in all ==> !OpenDeal(e, p.dealId)
    ensures r == Err(OwnershipUnknown) ==> core.Now() == old(core.Now())
    ensures r.Ok? ==> r.value == |ps| && Flattened(old(core.Now()), core.Now(), Ids(ps, Owners(all)))
    ensures r.Err? && r.error != OwnershipUnknown ==>
              && done < |ps|
              && var ids := Ids(ps, Owners(all));
              Attempted(old(core.Now()), w, core.Now(), ids[..done], ids[done])
  {
    var owners := Owners(all);
    forall deal: string
      ensures deal in owners <==> exists e :: e in all && OpenDeal(e, deal)
    {
      var i := OwnersAre(all, deal);
    }
    if exists i :: 0 <= i < |ps| && ps[i].dealId !in owners {
      return Err(OwnershipUnknown), 0, core.Now();
    }
    assert forall p :: p in ps ==> p.dealId in owners;
    OwnersAreOpen(all, core.records, ps);
    var failure;
    failure, done, w := CloseInOrder(core, Ids(ps, owners), replies);
    r := if failure.Some? then Err(failure.value) else Ok(|ps|);
  }
}
