/**
 runWithServers itself: the variables the closures share, the runtime object they update, and the
 loop. Every method is proved to do what the state functions of SupervisorModel say.
 */
module SupervisorLoop {
  import opened Wrappers
  import opened SupervisorModel

  class RuntimeInstance {
    const id: nat
    const cfg: Config
    var ready: bool
    var serving: bool
    var rollbackCause: Option<Failure>
    var finished: bool
    var runErr: Option<Failure>

    function View(): Runtime
      reads this
    {
      Runtime(id, cfg, ready, serving, rollbackCause, finished, runErr)
    }

    constructor (id: nat, cfg: Config, cause: Option<Failure>)
      ensures View() == Runtime(id, cfg, false, false, cause, false, None)
    {
      this.id, this.cfg := id, cfg;
      ready, serving, finished := false, false, false;
      rollbackCause, runErr := cause, None;
    }

    method MarkFinished(err: Option<Failure>)
      modifies this
      ensures View() == old(View()).(finished := true, runErr := err)
    {
      runErr := err;
      finished := true;
    }

    /** stop: cancel, wait for the result unless it was consumed, and return it. */
    method Stop(result: Option<Failure>) returns (err: Option<Failure>)
      modifies this
      ensures finished && err == if old(finished) then old(runErr) else result
      ensures err == runErr && serving == old(serving) && rollbackCause == old(rollbackCause) && ready == old(ready)
    {
      if !finished {
        MarkFinished(result);
      }
      err := runErr;
    }
  }

  class Supervisor {
    const foreground: bool
    const shutdownAt: nat
    var current: RuntimeInstance?
    var lastGood: Option<Config>
    var polls: nat
    // history
    var launches: nat
    var configs: seq<Config>
    var validReloads: nat
    var commits: seq<Commit>
    var looks: seq<nat>
    var log: seq<Entry>

    function Cur(): set<object>
      reads this
    {
      if current == null then {} else {current}
    }

    function View(): Sup
      reads this, Cur()
    {
      Sup(foreground, shutdownAt, if current == null then None else Some(current.View()), lastGood, polls,
          launches, configs, validReloads, commits, looks, log)
    }

    constructor (foreground: bool, shutdownAt: nat)
      ensures View() == Sup(foreground, shutdownAt, None, None, 0, 0, [], 0, [], [], []) && fresh(Cur())
    {
      this.foreground, this.shutdownAt := foreground, shutdownAt;
      current, lastGood, polls := null, None, 0;
      launches, configs, validReloads, commits, looks, log := 0, [], 0, [], [], [];
    }

    /** ctx.Err() != nil. */
    method Cancelled() returns (done: bool)
      modifies this`polls
      ensures done == Done(old(View())) && View() == Look(old(View()))
    {
      done := polls >= shutdownAt;
      polls := polls + 1;
    }

    /** The server of the current runtime calls its ready callback. */
    method Callback(ready: bool)
      modifies Cur()
      ensures View() == Signal(old(View()), ready)
    {
      if current != null && ready {
        current.ready := true;
      }
    }

    method StopCurrent(result: Option<Failure>) returns (err: Option<Failure>)
      modifies this, Cur()
      ensures (View(), err) == SupervisorModel.StopCurrent(old(View()), result)
      ensures Cur() == {}
    {
      if current == null {
        return None;
      }
      if !current.finished {
        log := log + [Drained(current.id)];
      }
      err := current.Stop(result);
      current := null;
    }

    method ObserveReadiness()
      modifies this, Cur()
      ensures View() == SupervisorModel.ObserveReadiness(old(View()))
      ensures Cur() == old(Cur())
    {
      if current == null || current.serving {
        return;
      }
      var look := polls;
      var cancelled := Cancelled();
      if cancelled {
        return;
      }
      if current.ready {
        current.serving := true;
        current.rollbackCause := None;
        lastGood := Some(current.cfg);
        commits := commits + [Commit(current.id, current.cfg)];
        looks := looks + [look];
      }
    }

    method Start(cfg: Config, cause: Option<Failure>, result: Option<Failure>) returns (err: Option<Failure>)
      modifies this, Cur()
      ensures (View(), err) == SupervisorModel.Start(old(View()), cfg, cause, result)
      ensures fresh(Cur() - old(Cur()))
    {
      var stopErr := StopCurrent(result);
      var cancelled := Cancelled();
      if cancelled {
        return stopErr;
      }
      current := new RuntimeInstance(launches, cfg, cause);
      log := log + [Launched(launches, cfg)];
      configs := configs + [cfg];
      launches := launches + 1;
      return None;
    }

    method LoadConfiguration(initial: bool, load: Load) returns (err: Option<Failure>)
      modifies this, Cur()
      ensures (View(), err) == SupervisorModel.LoadConfiguration(old(View()), initial, load)
      ensures fresh(Cur() - old(Cur()))
    {
      var cancelled := Cancelled();
      if cancelled {
        err := StopCurrent(load.result);
        return;
      }
      cancelled := Cancelled();
      if cancelled {
        err := StopCurrent(load.result);
        return;
      }
      Callback(load.ready);
      ObserveReadiness();
      err := Activate(initial, load);
    }

    /** What loadConfiguration does once the file has been read. */
    method Activate(initial: bool, load: Load) returns (err: Option<Failure>)
      modifies this, Cur()
      ensures (View(), err) == SupervisorModel.Activate(old(View()), initial, load)
      ensures fresh(Cur() - old(Cur()))
    {
      if load.loaded.Ok? {
        if !initial {
          validReloads := validReloads + 1;
        }
        err := Start(load.loaded.value, None, load.result);
        return;
      }
      var e := load.loaded.error;
      if current == null {
        return if lastGood == None && foreground then Some(e) else None;
      }
      if !current.serving && current.rollbackCause == None && lastGood.Some? {
        err := Start(lastGood.value, Some(e), load.result);
        return;
      }
      return None;
    }

    /** The completion arm; `stop` tells the loop to return `err`. */
    method Completed(ended: Option<Failure>) returns (stop: bool, err: Option<Failure>)
      requires current != null
      modifies this, Cur()
      ensures Ended(old(View()), ended) == if stop then Returned(View(), err) else Running(View())
      ensures fresh(Cur() - old(Cur()))
    {
      var state, rollbackCause := State(Some(current.View())), current.rollbackCause;
      log := log + [Drained(current.id)];
      current.MarkFinished(ended);
      var cancelled := Cancelled();
      if cancelled {
        err := StopCurrent(None);
        return true, err;
      }
      current := null;
      var runtimeErr := if ended.Some? then ended.value else StoppedUnexpectedly;
      if state == Starting && lastGood.Some? {
        err := Start(lastGood.value, Some(runtimeErr), None);
        return err.Some?, err;
      }
      if state == RollingBack {
        runtimeErr := Joined(rollbackCause.value, runtimeErr);
      }
      if foreground || IsListenerFailure(runtimeErr) {
        return true, Some(runtimeErr);
      }
      return false, None;
    }

    method TakeArm(arm: Arm) returns (stop: bool, err: Option<Failure>)
      requires ArmReady(View(), arm)
      modifies this, Cur()
      ensures Select(old(View()), arm) == if stop then Returned(View(), err) else Running(View())
      ensures fresh(Cur() - old(Cur()))
    {
      match arm
      case ShutdownArm(result) =>
        err := StopCurrent(result);
        return true, err;
      case ReloadArm(load) =>
        err := LoadConfiguration(false, load);
        return err.Some?, err;
      case ReadyArm =>
        return false, None;
      case DoneArm(ended, ready) =>
        Callback(ready);
        ObserveReadiness();
        stop, err := Completed(ended);
    }

    /** The body of the loop. */
    method TakeTurn(turn: Turn) returns (stop: bool, err: Option<Failure>)
      requires TurnReady(View(), turn)
      modifies this, Cur()
      ensures Iterate(old(View()), turn) == if stop then Returned(View(), err) else Running(View())
      ensures fresh(Cur() - old(Cur()))
    {
      var cancelled := Cancelled();
      if cancelled {
        err := StopCurrent(turn.result);
        return true, err;
      }
      Callback(turn.ready);
      ObserveReadiness();
      Callback(turn.arrives);
      stop, err := TakeArm(turn.arm);
    }

    /** runWithServers, for as many turns of the loop as the environment drives. */
    method Run(load: Load, turns: seq<Turn>) returns (stop: bool, err: Option<Failure>)
      requires View() == Sup(foreground, shutdownAt, None, None, 0, 0, [], 0, [], [], [])
      requires IsRun(Boot(foreground, shutdownAt, load), turns)
      modifies this, Cur()
      ensures Exec(Boot(foreground, shutdownAt, load), turns) == if stop then Returned(View(), err) else Running(View())
    {
      ghost var boot := Boot(foreground, shutdownAt, load);
      hide SupervisorModel.LoadConfiguration, Iterate, TurnReady;
      err := LoadConfiguration(true, load);
      stop := err.Some?;
      var i := 0;
      while !stop && i < |turns|
        invariant 0 <= i <= |turns|
        invariant fresh(Cur() - old(Cur()))
        invariant var o := if stop then Returned(View(), err) else Running(View());
                  IsRun(o, turns[i..]) && Exec(boot, turns) == Exec(o, turns[i..])
      {
        assert turns[i..][1..] == turns[i + 1..];
        stop, err := TakeTurn(turns[i]);
        i := i + 1;
      }
    }
  }
}
