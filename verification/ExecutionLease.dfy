/** One replica's view of the execution lease. */
module ExecutionLease {
  import opened Outcomes

  datatype RuntimeRole = Leader | Standby | NoExecution

  datatype LeaseState = Disabled | Acquired | Standby | Lost | Released | DatabaseUnavailable

  datatype HeartbeatState = Disabled | NotStarted | Healthy | Failed

  datatype LeaseRecord = LeaseRecord(
    holder: string, token: nat, acquiredAt: int, heartbeatAt: int, expiresAt: int)

  /** A store call either raises the lease database error or answers. */
  datatype StoreReply<T> = Unavailable | Answered(value: T)

  /** How a fenced transaction ended, as the coordinator sees it. */
  datatype FencedOutcome = Completed | CallbackRejected | FenceFailed

  datatype StateChange = Prohibited | DomainRejected | Done

  /** The fields a coordinator updates, as one value. */
  datatype Coordinator = Coordinator(
    instance: string,
    enabled: bool,
    lease: Option<LeaseRecord>,
    role: RuntimeRole,
    leaseState: LeaseState,
    heartbeat: HeartbeatState)
  {
    predicate Authorized() {
      enabled && role == Leader && lease.Some?
    }

    function Demoted(state: LeaseState): Coordinator {
      this.(lease := None,
            role := if enabled then RuntimeRole.Standby else NoExecution,
            leaseState := if enabled then state else LeaseState.Disabled,
            heartbeat := if !enabled then HeartbeatState.Disabled
                         else if state == Lost || state == DatabaseUnavailable then Failed
                         else NotStarted)
    }

    /** LEADER with a proven generation, or fail-closed without one; nothing in between. */
    ghost predicate Coherent() {
      && (lease.Some? <==> role == Leader)
      && (lease.Some? ==> enabled && leaseState == Acquired && heartbeat == Healthy)
      && (lease.None? && enabled ==>
            && role == RuntimeRole.Standby && leaseState != Acquired && leaseState != LeaseState.Disabled
            && heartbeat == (if leaseState == Lost || leaseState == DatabaseUnavailable then Failed else NotStarted))
      && (!enabled ==> role == NoExecution && leaseState == LeaseState.Disabled && heartbeat == HeartbeatState.Disabled)
    }
  }

  function Fresh(instance: string, enabled: bool): Coordinator {
    Coordinator(instance, enabled, None,
                if enabled then RuntimeRole.Standby else NoExecution,
                if enabled then LeaseState.Standby else LeaseState.Disabled,
                if enabled then NotStarted else HeartbeatState.Disabled)
  }

  function AfterAcquire(c: Coordinator, reply: StoreReply<Option<LeaseRecord>>): Coordinator {
    if !c.enabled then c
    else match reply
      case Unavailable => c.Demoted(DatabaseUnavailable)
      case Answered(None) => c.Demoted(LeaseState.Standby)
      case Answered(Some(record)) =>
        c.(lease := Some(record), role := Leader, leaseState := Acquired, heartbeat := Healthy)
  }

  function AfterRenew(c: Coordinator, reply: StoreReply<Option<LeaseRecord>>): Coordinator {
    if !c.Authorized() then c.Demoted(Lost)
    else match reply
      case Unavailable => c.Demoted(DatabaseUnavailable)
      case Answered(None) => c.Demoted(Lost)
      case Answered(Some(record)) => c.(lease := Some(record), heartbeat := Healthy)
  }

  function AfterRelease(c: Coordinator, reply: StoreReply<bool>): Coordinator {
    if c.lease.None? then c.Demoted(Released)
    else match reply
      case Unavailable => c.Demoted(DatabaseUnavailable)
      case Answered(_) => c.Demoted(Released)
  }

  /** A callback rejection keeps leadership; any other failure of the fenced transaction demotes. */
  function AfterFenced(c: Coordinator, outcome: FencedOutcome): Coordinator {
    if c.Authorized() && outcome == FenceFailed then c.Demoted(Lost) else c
  }

  lemma StepsKeepCoherent(c: Coordinator, reply: StoreReply<Option<LeaseRecord>>, released: StoreReply<bool>,
                          outcome: FencedOutcome)
    requires c.Coherent()
    ensures AfterAcquire(c, reply).Coherent()
    ensures AfterRenew(c, reply).Coherent()
    ensures AfterRelease(c, released).Coherent()
    ensures AfterFenced(c, outcome).Coherent()
    ensures Fresh(c.instance, c.enabled).Coherent() && Fresh(c.instance, c.enabled).lease.None?
    ensures c.Authorized() <==> c.lease.Some?
  {
  }

  /** What each answer of the lease store, and each end of a fenced transaction, leaves of the lease. */
  lemma AnswersMean(c: Coordinator, reply: StoreReply<Option<LeaseRecord>>, released: StoreReply<bool>,
                    outcome: FencedOutcome)
    requires c.Coherent() && c.enabled
    ensures var n := AfterAcquire(c, reply);
            && n.lease == (if reply.Answered? then reply.value else None)
            && n.leaseState == (if reply.Unavailable? then DatabaseUnavailable
                                else if reply.value.Some? then Acquired else LeaseState.Standby)
    ensures var n := AfterRenew(c, reply);
            && n.lease == (if c.lease.Some? && reply.Answered? then reply.value else None)
            && n.leaseState == (if n.lease.Some? then Acquired
                                else if c.lease.Some? && reply.Unavailable? then DatabaseUnavailable else Lost)
    ensures var n := AfterRelease(c, released);
            && n.lease.None?
            && n.leaseState == (if c.lease.Some? && released.Unavailable? then DatabaseUnavailable else Released)
    ensures var n := AfterFenced(c, outcome);
            && n.lease == (if outcome == FenceFailed then None else c.lease)
            && n.leaseState == (if c.lease.Some? && outcome == FenceFailed then Lost else c.leaseState)
  {
  }

  /** A replica without the feature takes no lease from any answer. */
  lemma DisabledStays(c: Coordinator, reply: StoreReply<Option<LeaseRecord>>, released: StoreReply<bool>, outcome: FencedOutcome)
    requires c.Coherent() && !c.enabled
    ensures AfterAcquire(c, reply) == AfterRenew(c, reply) == AfterRelease(c, released) == AfterFenced(c, outcome) == c
    ensures c == Fresh(c.instance, false) && !c.Authorized()
  {
  }

  class ExecutionLeaseCoordinator {
    const instance: string
    const enabled: bool
    var lease: Option<LeaseRecord>
    var role: RuntimeRole
    var leaseState: LeaseState
    var heartbeat: HeartbeatState

    function View(): (c: Coordinator)
      reads this
    {
      Coordinator(instance, enabled, lease, role, leaseState, heartbeat)
    }

    constructor (instance: string, enabled: bool)
      ensures View() == Fresh(instance, enabled) && View().Coherent()
    {
      this.instance, this.enabled := instance, enabled;
      lease := None;
      role := if enabled then RuntimeRole.Standby else NoExecution;
      leaseState := if enabled then LeaseState.Standby else LeaseState.Disabled;
      heartbeat := if enabled then NotStarted else HeartbeatState.Disabled;
    }

    method Demote(state: LeaseState)
      modifies this
      ensures View() == old(View()).Demoted(state)
    {
      lease := None;
      role := if enabled then RuntimeRole.Standby else NoExecution;
      leaseState := if enabled then state else LeaseState.Disabled;
      if !enabled {
        heartbeat := HeartbeatState.Disabled;
      } else if state == Lost || state == DatabaseUnavailable {
        heartbeat := Failed;
      } else {
        heartbeat := NotStarted;
      }
    }

    method TryAcquire(reply: StoreReply<Option<LeaseRecord>>) returns (acquired: bool)
      requires View().Coherent()
      modifies this
      ensures View() == AfterAcquire(old(View()), reply) && View().Coherent()
      ensures acquired <==> enabled && reply.Answered? && reply.value.Some? && lease == reply.value
    {
      if !enabled {
        return false;
      }
      if reply.Unavailable? {
        Demote(DatabaseUnavailable);
        return false;
      }
      if reply.value.None? {
        Demote(LeaseState.Standby);
        return false;
      }
      lease, role, leaseState, heartbeat := reply.value, Leader, Acquired, Healthy;
      return true;
    }

    method Renew(reply: StoreReply<Option<LeaseRecord>>) returns (renewed: bool)
      requires View().Coherent()
      modifies this
      ensures View() == AfterRenew(old(View()), reply) && View().Coherent()
      ensures renewed ==> old(View()).Authorized() && View().Authorized()
      ensures !renewed ==> !View().Authorized()
    {
      if !View().Authorized() {
        Demote(Lost);
        return false;
      }
      if reply.Unavailable? {
        Demote(DatabaseUnavailable);
        return false;
      }
      if reply.value.None? {
        Demote(Lost);
        return false;
      }
      lease, heartbeat := reply.value, Healthy;
      return true;
    }

    method Release(reply: StoreReply<bool>) returns (released: bool)
      requires View().Coherent()
      modifies this
      ensures View() == AfterRelease(old(View()), reply) && View().Coherent()
      ensures !View().Authorized()
      ensures released <==> old(lease).Some? && reply == Answered(true)
    {
      if lease.None? {
        Demote(Released);
        return false;
      }
      if reply.Unavailable? {
        Demote(DatabaseUnavailable);
        return false;
      }
      Demote(Released);
      return reply.value;
    }

    method RunStateChange(outcome: FencedOutcome) returns (result: StateChange)
      requires View().Coherent()
      modifies this
      ensures View() == AfterFenced(old(View()), outcome) && View().Coherent()
      ensures result == Done <==> old(View()).Authorized() && outcome == Completed
      ensures result == DomainRejected ==> View() == old(View()) && View().Authorized()
    {
      if !View().Authorized() {
        return Prohibited;
      }
      match outcome
      case Completed => return Done;
      case CallbackRejected => return DomainRejected;
      case FenceFailed =>
        Demote(Lost);
        return Prohibited;
    }
  }
}
