/**
 The reload, rollback and shutdown supervisor of internal/app/app.go, as functions on its state.

 The shutdown request is an oracle: it becomes visible to the supervisor at its `shutdownAt`-th look at
 the context, so that every theorem ranges over a request arriving between any two looks. Which arm
 a select takes, what config.Load returns, when a runtime becomes ready and what it ends with are
 choices carried by the events.
 */
module SupervisorModel {
  import opened Wrappers

  type Config = nat

  datatype Failure =
    | LoadFailure(n: nat)
    | RunFailure(listener: bool, n: nat)
    | StoppedUnexpectedly
    | Joined(first: Failure, second: Failure)

  /** errors.Is(err, proxy.ErrListenerFailure). */
  predicate IsListenerFailure(e: Failure) {
    match e
    case RunFailure(listener, _) => listener
    case Joined(a, b) => IsListenerFailure(a) || IsListenerFailure(b)
    case _ => false
  }

  datatype Runtime = Runtime(
    id: nat,
    cfg: Config,
    ready: bool,
    serving: bool,
    rollbackCause: Option<Failure>,
    finished: bool,
    runErr: Option<Failure>)

  datatype Phase = Idle | Starting | RollingBack | Serving

  /** A readiness the supervisor acted on. */
  datatype Commit = Commit(id: nat, cfg: Config)

  datatype Entry = Launched(id: nat, cfg: Config) | Drained(id: nat)

  datatype Sup = Sup(
    foreground: bool,
    shutdownAt: nat,
    current: Option<Runtime>,
    lastGood: Option<Config>,
    polls: nat,
    // history
    launches: nat,
    configs: seq<Config>,
    validReloads: nat,
    commits: seq<Commit>,
    looks: seq<nat>,   // the number of the look at the context that came with each commit
    log: seq<Entry>)

  /** What a handler leaves: the loop goes on, or runWithServers returns. */
  datatype Outcome = Running(sup: Sup) | Returned(sup: Sup, err: Option<Failure>)

  function State(r: Option<Runtime>): Phase {
    if r == None then Idle
    else if r.value.serving then Serving
    else if r.value.rollbackCause.Some? then RollingBack
    else Starting
  }

  /** Whether the next look at the context finds it done. */
  predicate Done(s: Sup) {
    s.polls >= s.shutdownAt
  }

  function Look(s: Sup): Sup {
    s.(polls := s.polls + 1)
  }

  /** The current runtime's server called back before the supervisor looks. */
  function Signal(s: Sup, ready: bool): Sup {
    if s.current.Some? && ready then s.(current := Some(s.current.value.(ready := true))) else s
  }

  /** stopCurrent: cancels the runtime and waits for its result, unless that was consumed already. */
  function StopCurrent(s: Sup, result: Option<Failure>): (Sup, Option<Failure>) {
    match s.current
    case None => (s, None)
    case Some(r) =>
      if r.finished then (s.(current := None), r.runErr)
      else (s.(current := None, log := s.log + [Drained(r.id)]), result)
  }

  /** The supervisor acts on the readiness of a runtime that is not serving yet. */
  function Committed(s: Sup): Sup
    requires s.current.Some?
  {
    var r := s.current.value;
    Look(s).(current := Some(r.(serving := true, rollbackCause := None)),
             lastGood := Some(r.cfg),
             commits := s.commits + [Commit(r.id, r.cfg)],
             looks := s.looks + [s.polls])
  }

  function ObserveReadiness(s: Sup): Sup {
    if State(s.current) == Idle || State(s.current) == Serving then s
    else if Done(s) || !s.current.value.ready then Look(s)
    else Committed(s)
  }

  function Launch(s: Sup, cfg: Config, cause: Option<Failure>): Sup {
    s.(current := Some(Runtime(s.launches, cfg, false, false, cause, false, None)),
       launches := s.launches + 1,
       configs := s.configs + [cfg],
       log := s.log + [Launched(s.launches, cfg)])
  }

  function Start(s: Sup, cfg: Config, cause: Option<Failure>, result: Option<Failure>): (Sup, Option<Failure>) {
    var (stopped, stopErr) := StopCurrent(s, result);
    if Done(stopped) then (Look(stopped), stopErr) else (Launch(Look(stopped), cfg, cause), None)
  }

  /** What config.Load returned, and what happened to the runtime meanwhile. */
  datatype Load = Load(loaded: Result<Config, Failure>, ready: bool, result: Option<Failure>)

  function LoadConfiguration(s: Sup, initial: bool, load: Load): (Sup, Option<Failure>) {
    if Done(s) then StopCurrent(Look(s), load.result)
    else if Done(Look(s)) then StopCurrent(Look(Look(s)), load.result)
    else Activate(ObserveReadiness(Signal(Look(Look(s)), load.ready)), initial, load)
  }

  function Activate(s: Sup, initial: bool, load: Load): (Sup, Option<Failure>) {
    match load.loaded
    case Ok(candidate) =>
      Start(if initial then s else s.(validReloads := s.validReloads + 1), candidate, None, load.result)
    case Err(e) =>
      match State(s.current)
      case Starting => if s.lastGood.Some? then Start(s, s.lastGood.value, Some(e), load.result) else (s, None)
      case Idle => if s.lastGood == None && s.foreground then (s, Some(e)) else (s, None)
      case _ => (s, None)
  }

  /** One arm of the select. */
  datatype Arm =
    | ShutdownArm(result: Option<Failure>)
    | ReloadArm(load: Load)
    | ReadyArm
    | DoneArm(ended: Option<Failure>, ready: bool)

  predicate ArmReady(s: Sup, arm: Arm) {
    match arm
    case ShutdownArm(_) => Done(s)
    case ReloadArm(_) => true
    case ReadyArm => s.current.Some? && State(s.current) != Serving && s.current.value.ready
    case DoneArm(_, _) => s.current.Some?
  }

  function Returns(r: (Sup, Option<Failure>)): Outcome {
    Returned(r.0, r.1)
  }

  /** A handler's error ends the supervisor; without one the loop goes on. */
  function ReturnsOnError(r: (Sup, Option<Failure>)): Outcome {
    if r.1.Some? then Returned(r.0, r.1) else Running(r.0)
  }

  function Select(s: Sup, arm: Arm): Outcome
    requires ArmReady(s, arm)
  {
    match arm
    case ShutdownArm(result) => Returns(StopCurrent(s, result))
    case ReloadArm(load) => ReturnsOnError(LoadConfiguration(s, false, load))
    case ReadyArm => Running(s)
    case DoneArm(ended, ready) => Ended(ObserveReadiness(Signal(s, ready)), ended)
  }

  /** The completion arm, after readiness has been observed. */
  function Ended(s: Sup, ended: Option<Failure>): Outcome
    requires s.current.Some?
  {
    var r := s.current.value;
    var state := State(s.current);
    var finished := s.(current := Some(r.(finished := true, runErr := ended)), log := s.log + [Drained(r.id)]);
    if Done(finished) then Returns(StopCurrent(Look(finished), None))
    else
      var idle := Look(finished).(current := None);
      var err := if ended.Some? then ended.value else StoppedUnexpectedly;
      if state == Starting && idle.lastGood.Some? then
        ReturnsOnError(Start(idle, idle.lastGood.value, Some(err), None))
      else
        var reported := if state == RollingBack then Joined(r.rollbackCause.value, err) else err;
        if s.foreground || IsListenerFailure(reported) then Returned(idle, Some(reported)) else Running(idle)
  }

  /** One turn of the loop: the shutdown check, the readiness commit, the wait, and the arm the select took. */
  datatype Turn = Turn(ready: bool, arrives: bool, result: Option<Failure>, arm: Arm)

  /** The state the select finds its arm in: readiness may arrive while it waits, after the commit. */
  function AtSelect(s: Sup, turn: Turn): Sup {
    Signal(ObserveReadiness(Signal(Look(s), turn.ready)), turn.arrives)
  }

  predicate TurnReady(s: Sup, turn: Turn) {
    Done(s) || ArmReady(AtSelect(s, turn), turn.arm)
  }

  function Iterate(s: Sup, turn: Turn): Outcome
    requires TurnReady(s, turn)
  {
    if Done(s) then Returns(StopCurrent(Look(s), turn.result)) else Select(AtSelect(s, turn), turn.arm)
  }

  function Boot(foreground: bool, shutdownAt: nat, load: Load): Outcome {
    ReturnsOnError(LoadConfiguration(Sup(foreground, shutdownAt, None, None, 0, 0, [], 0, [], [], []), true, load))
  }

  /** The turns can all be taken, one after the other, from `o`. */
  predicate IsRun(o: Outcome, turns: seq<Turn>)
    decreases |turns|
  {
    turns == [] || (o.Running? && TurnReady(o.sup, turns[0]) && IsRun(Iterate(o.sup, turns[0]), turns[1..]))
  }

  function Exec(o: Outcome, turns: seq<Turn>): Outcome
    requires IsRun(o, turns)
    decreases |turns|
  {
    if turns == [] then o else Exec(Iterate(o.sup, turns[0]), turns[1..])
  }
}
