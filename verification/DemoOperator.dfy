/** The single control row that starters, workers and operators share. */
module DemoOperator {
  import opened Outcomes

  datatype RobotState = Stopped | Starting | Running | Paused | StopRequested | SafeStop

  datatype Row = Row(
    state: RobotState, pid: Option<int>, heartbeat: Option<int>, killBlocking: bool,
    started: Option<int>, error: Option<string>)

  const HEARTBEAT_MAX_AGE: int := 20

  predicate Active(s: RobotState) {
    s == Starting || s == Running || s == Paused || s == StopRequested
  }

  predicate Alive(pid: int, live: set<int>) {
    pid > 0 && pid in live
  }

  predicate Recent(heartbeat: Option<int>, now: int) {
    heartbeat.Some? && now - heartbeat.value <= HEARTBEAT_MAX_AGE
  }

  function StartedOr(row: Row, now: int): Option<int> {
    if row.started.Some? then row.started else Some(now)
  }

  function Written(row: Row, state: RobotState, pid: Option<int>, now: int, started: Option<int>, error: Option<string>): Row {
    Row(state, pid, Some(now), row.killBlocking, started, error)
  }

  // ---------------------------------------------------------------- the transactions; None is a rollback

  function AcquireStart(row: Row, owner: int, now: int, live: set<int>): Option<Row> {
    if row.killBlocking then None
    else if Active(row.state) && row.pid.Some? && Alive(row.pid.value, live) then None
    else if Active(row.state) && Recent(row.heartbeat, now) then None
    else Some(Written(row, Starting, Some(owner), now, Some(now), None))
  }

  function SetWorkerPid(row: Row, worker: int, now: int): Option<Row> {
    if worker <= 0 || row.state != Starting || row.killBlocking then None
    else Some(Written(row, Running, Some(worker), now, StartedOr(row, now), None))
  }

  function Heartbeat(row: Row, worker: int, now: int): Option<Row> {
    if row.pid != Some(worker) || !(row.state == Running || row.state == Paused || row.state == StopRequested) then None
    else Some(Written(row, row.state, Some(worker), now, StartedOr(row, now), row.error))
  }

  function RequestStop(row: Row, now: int): Row {
    if row.state == Running || row.state == Paused || row.state == Starting
    then Written(row, StopRequested, row.pid, now, StartedOr(row, now), row.error) else row
  }

  function Pause(row: Row, now: int): Option<Row> {
    if row.killBlocking || row.state != Running then None
    else Some(Written(row, Paused, row.pid, now, StartedOr(row, now),
                      Some("New entries paused; reconciliation remains active.")))
  }

  function Resume(row: Row, now: int, live: set<int>): Option<Row> {
    if row.killBlocking || row.state != Paused || row.pid.None? || !Alive(row.pid.value, live)
       || !Recent(row.heartbeat, now) then None
    else Some(Written(row, Running, row.pid, now, StartedOr(row, now), None))
  }

  function EmergencyKill(row: Row, now: int): Row {
    Written(row, SafeStop, row.pid, now, StartedOr(row, now),
            Some("Emergency Kill activated; new orders and modifications are blocked.")).(killBlocking := true)
  }

  function ReleaseKill(row: Row, now: int, live: set<int>): Option<Row> {
    if row.pid.Some? && Alive(row.pid.value, live) then None
    else Some(Written(row, Stopped, None, now, StartedOr(row, now), None).(killBlocking := false))
  }

  function StoppedBy(row: Row, pid: int, error: Option<string>, now: int): Row {
    if row.pid != Some(pid) then row
    else Written(row, if error.Some? && error.value != "" then SafeStop else Stopped, None, now, StartedOr(row, now), error)
  }

  function Kept(row: Row, after: Option<Row>): Row {
    if after.Some? then after.value else row
  }

  class SQLiteWorkerRegistry {
    var row: Row

    constructor ()
      ensures row == Row(Stopped, None, None, false, None, None)
    {
      row := Row(Stopped, None, None, false, None, None);
    }

    method Write(state: RobotState, pid: Option<int>, now: int, started: Option<int>, error: Option<string>)
      modifies this
      ensures row == Written(old(row), state, pid, now, started, error)
    {
      row := Row(state, pid, Some(now), row.killBlocking, started, error);
    }

    /** Every refusal raises inside the transaction, so even the SAFE_STOP write before one is undone. */
    method AcquireStartFor(owner: int, now: int, live: set<int>) returns (started: bool)
      modifies this
      ensures row == Kept(old(row), AcquireStart(old(row), owner, now, live))
      ensures started <==> AcquireStart(old(row), owner, now, live).Some?
    {
      var begin := row;
      if row.killBlocking {
        return false;
      }
      if Active(row.state) {
        if row.pid.Some? && Alive(row.pid.value, live) {
          if row.heartbeat.None? || now - row.heartbeat.value <= HEARTBEAT_MAX_AGE {
            return false;
          }
          Write(SafeStop, row.pid, now, Some(now), Some("worker heartbeat is stale"));
          row := begin;
          return false;
        }
        if row.heartbeat.Some? && now - row.heartbeat.value <= HEARTBEAT_MAX_AGE {
          return false;
        }
      }
      Write(Starting, Some(owner), now, Some(now), None);
      return true;
    }

    method AssignWorker(worker: int, now: int) returns (handed: bool)
      modifies this
      ensures row == Kept(old(row), SetWorkerPid(old(row), worker, now))
      ensures handed <==> SetWorkerPid(old(row), worker, now).Some?
    {
      if worker <= 0 || row.state != Starting || row.killBlocking {
        return false;
      }
      Write(Running, Some(worker), now, StartedOr(row, now), None);
      return true;
    }

    method Beat(worker: int, now: int) returns (owned: bool)
      modifies this
      ensures row == Kept(old(row), Heartbeat(old(row), worker, now))
      ensures owned <==> Heartbeat(old(row), worker, now).Some?
    {
      if row.pid != Some(worker) || !(row.state == Running || row.state == Paused || row.state == StopRequested) {
        return false;
      }
      Write(row.state, Some(worker), now, StartedOr(row, now), row.error);
      return true;
    }

    method AskToStop(now: int)
      modifies this
      ensures row == RequestStop(old(row), now)
    {
      if row.state == Running || row.state == Paused || row.state == Starting {
        Write(StopRequested, row.pid, now, StartedOr(row, now), row.error);
      }
    }

    method PauseNewEntries(now: int) returns (paused: bool)
      modifies this
      ensures row == Kept(old(row), Pause(old(row), now))
      ensures paused <==> Pause(old(row), now).Some?
    {
      if row.killBlocking || row.state != Running {
        return false;
      }
      Write(Paused, row.pid, now, StartedOr(row, now), Some("New entries paused; reconciliation remains active."));
      return true;
    }

    method ResumeNewEntries(now: int, live: set<int>) returns (resumed: bool)
      modifies this
      ensures row == Kept(old(row), Resume(old(row), now, live))
      ensures resumed <==> Resume(old(row), now, live).Some?
    {
      if row.killBlocking || row.state != Paused {
        return false;
      }
      if row.pid.None? || !Alive(row.pid.value, live) || !Recent(row.heartbeat, now) {
        return false;
      }
      Write(Running, row.pid, now, StartedOr(row, now), None);
      return true;
    }

    method Kill(now: int)
      modifies this
      ensures row == EmergencyKill(old(row), now)
    {
      Write(SafeStop, row.pid, now, StartedOr(row, now),
            Some("Emergency Kill activated; new orders and modifications are blocked."));
      row := row.(killBlocking := true);
    }

    method ReleaseKillForRecovery(now: int, live: set<int>) returns (released: bool)
      modifies this
      ensures row == Kept(old(row), ReleaseKill(old(row), now, live))
      ensures released <==> ReleaseKill(old(row), now, live).Some?
    {
      if row.pid.Some? && Alive(row.pid.value, live) {
        return false;
      }
      Write(Stopped, None, now, StartedOr(row, now), None);
      row := row.(killBlocking := false);
      return true;
    }

    method ReportStopped(pid: int, error: Option<string>, now: int)
      modifies this
      ensures row == StoppedBy(old(row), pid, error, now)
    {
      if row.pid != Some(pid) {
        return;
      }
      Write(if error.Some? && error.value != "" then SafeStop else Stopped, None, now, StartedOr(row, now), error);
    }
  }
}
