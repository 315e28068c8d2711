/** What the supervisor guarantees over every run. */
module SupervisorProperties {
  import opened Wrappers
  import opened SupervisorModel

  /** Runtimes are drained before the next one is launched. */
  function DrainedLog(configs: seq<Config>): seq<Entry> {
    if configs == [] then []
    else
      var n := |configs| - 1;
      DrainedLog(configs[..n]) + [Launched(n, configs[n]), Drained(n)]
  }

  function ExpectedLog(s: Sup): seq<Entry> {
    if s.current.Some? && !s.current.value.finished && s.configs != [] then
      var n := |s.configs| - 1;
      DrainedLog(s.configs[..n]) + [Launched(n, s.configs[n])]
    else DrainedLog(s.configs)
  }

  ghost predicate Exclusive(s: Sup) {
    && |s.configs| == s.launches
    && (s.current.Some? ==>
          s.launches > 0 && s.current.value.id == s.launches - 1 && s.current.value.cfg == s.configs[s.launches - 1])
    && s.log == ExpectedLog(s)
  }

  /** A readiness is that of a launch with this configuration, and came with a look that saw no shutdown. */
  ghost predicate CommitsOk(configs: seq<Config>, shutdownAt: nat, commits: seq<Commit>, looks: seq<nat>) {
    && |looks| == |commits|
    && (forall i | 0 <= i < |commits| ::
          looks[i] < shutdownAt && commits[i].id < |configs| && configs[commits[i].id] == commits[i].cfg)
  }

  lemma CommitsGrow(configs: seq<Config>, shutdownAt: nat, commits: seq<Commit>, looks: seq<nat>, cfg: Config)
    requires CommitsOk(configs, shutdownAt, commits, looks)
    ensures CommitsOk(configs + [cfg], shutdownAt, commits, looks)
  {
  }

  lemma CommitAdded(configs: seq<Config>, shutdownAt: nat, commits: seq<Commit>, looks: seq<nat>, c: Commit, look: nat)
    requires CommitsOk(configs, shutdownAt, commits, looks)
    requires look < shutdownAt && c.id < |configs| && configs[c.id] == c.cfg
    ensures CommitsOk(configs, shutdownAt, commits + [c], looks + [look])
  {
  }

  /** lastGood is the last configuration committed, and the phases that imply a good one run it. */
  ghost predicate LastGood(s: Sup) {
    && CommitsOk(s.configs, s.shutdownAt, s.commits, s.looks)
    && s.lastGood == (if s.commits == [] then None else Some(s.commits[|s.commits| - 1].cfg))
    && (s.current.Some? && s.current.value.serving ==>
          s.current.value.rollbackCause == None && s.current.value.ready
          && s.commits != [] && s.commits[|s.commits| - 1].id == s.current.value.id)
    && (State(s.current) == Serving || State(s.current) == RollingBack ==> s.lastGood == Some(s.current.value.cfg))
  }

  /** One launch is still due for a candidate that can be rolled back. */
  function Potential(s: Sup): nat {
    if State(s.current) == Starting && s.lastGood.Some? then 1 else 0
  }

  ghost predicate Bounded(s: Sup) {
    s.launches + Potential(s) <= 1 + 2 * s.validReloads
  }

  ghost predicate Inv(s: Sup) {
    Exclusive(s) && LastGood(s) && Bounded(s)
  }

  ghost predicate Live(s: Sup) {
    Inv(s) && (s.current.Some? ==> !s.current.value.finished)
  }

  lemma SignalKeeps(s: Sup, ready: bool)
    requires Live(s)
    ensures Live(Signal(s, ready))
  {
  }

  lemma CommitKeeps(s: Sup)
    requires Live(s) && s.current.Some? && s.current.value.ready && !Done(s)
    ensures Live(Committed(s))
  {
    CommitAdded(s.configs, s.shutdownAt, s.commits, s.looks,
                Commit(s.current.value.id, s.current.value.cfg), s.polls);
    hide CommitsOk, DrainedLog;
  }

  lemma ObserveKeeps(s: Sup, ready: bool)
    requires Live(s)
    ensures Live(ObserveReadiness(Signal(s, ready)))
  {
    var t := Signal(s, ready);
    SignalKeeps(s, ready);
    LookKeeps(t);
    if t.current.Some? && t.current.value.ready && !Done(t) { CommitKeeps(t); }
    hide Live, Signal;
  }

  /** What holds between stopping one runtime and launching the next. */
  ghost predicate Base(s: Sup) {
    Exclusive(s) && LastGood(s) && s.launches <= 1 + 2 * s.validReloads
  }

  lemma LiveIsBase(s: Sup)
    requires Live(s)
    ensures Base(s) && Inv(s) && s.launches <= 1 + 2 * s.validReloads
    ensures State(s.current) == Starting && s.lastGood.Some? ==> s.launches + 1 <= 1 + 2 * s.validReloads
  {
    hide Exclusive, LastGood;
  }

  lemma StopKeeps(s: Sup, result: Option<Failure>)
    requires Base(s)
    ensures Live(StopCurrent(s, result).0) && StopCurrent(s, result).0.current == None
  {
    hide CommitsOk;
  }

  lemma LookKeeps(s: Sup)
    requires Live(s)
    ensures Live(Look(s))
  {
    hide CommitsOk, DrainedLog;
  }

  lemma LaunchKeeps(s: Sup, cfg: Config, cause: Option<Failure>)
    requires Base(s) && s.current == None
    requires s.launches + (if cause == None && s.lastGood.Some? then 2 else 1) <= 1 + 2 * s.validReloads
    requires cause.Some? ==> s.lastGood == Some(cfg)
    ensures Live(Launch(s, cfg, cause))
  {
    CommitsGrow(s.configs, s.shutdownAt, s.commits, s.looks, cfg);
    assert (s.configs + [cfg])[..|s.configs|] == s.configs;
    hide CommitsOk, DrainedLog;
  }

  lemma StartKeeps(s: Sup, cfg: Config, cause: Option<Failure>, result: Option<Failure>)
    requires Base(s)
    requires s.launches + (if cause == None && s.lastGood.Some? then 2 else 1) <= 1 + 2 * s.validReloads
    requires cause.Some? ==> s.lastGood == Some(cfg)
    ensures Live(Start(s, cfg, cause, result).0) && Inv(Start(s, cfg, cause, result).0)
  {
    hide Live, Inv, Base;
    StopKeeps(s, result);
    var stopped := StopCurrent(s, result).0;
    LookKeeps(stopped);
    LiveIsBase(Look(stopped));
    if !Done(stopped) {
      LaunchKeeps(Look(stopped), cfg, cause);
      LiveIsBase(Launch(Look(stopped), cfg, cause));
    }
  }

  lemma ReloadCounts(s: Sup)
    requires Live(s)
    ensures Base(s.(validReloads := s.validReloads + 1))
  {
    hide CommitsOk, DrainedLog;
  }

  /** The initial load may launch because nothing has been, and a reload because it counts. */
  lemma ActivateKeeps(s: Sup, initial: bool, load: Load)
    requires Live(s) && (initial ==> s.launches == 0 && s.lastGood == None)
    ensures Live(Activate(s, initial, load).0)
  {
    hide Live, Inv, Base, Start;
    LiveIsBase(s);
    match load.loaded
    case Ok(candidate) =>
      ReloadCounts(s);
      StartKeeps(if initial then s else s.(validReloads := s.validReloads + 1), candidate, None, load.result);
    case Err(e) =>
      if State(s.current) == Starting && s.lastGood.Some? {
        StartKeeps(s, s.lastGood.value, Some(e), load.result);
      }
  }

  /** While no shutdown is seen, a load fails the supervisor exactly when the foreground has nothing to run. */
  lemma ActivateOutcome(s: Sup, initial: bool, load: Load)
    ensures var (s', err) := Activate(s, initial, load);
            && (err.Some? && !Done(s') ==> s.foreground && s'.current == None)
            && (err.Some? && Done(s') ==> s'.current == None)
            && (s.foreground && err == None && !Done(s') ==> s'.current.Some? || s.lastGood.Some?)
            && (s.current.Some? && !Done(s') ==> s'.current.Some?)
            && s'.foreground == s.foreground
  {
  }

  /** The foreground loop has something to wait for, unless the next look sees the shutdown. */
  ghost predicate Busy(s: Sup) {
    s.foreground && !Done(s) ==> s.current.Some?
  }

  /** What runWithServers promises whoever calls it. */
  ghost predicate OutcomeOk(o: Outcome) {
    match o
    case Running(s) => Live(s) && Busy(s)
    case Returned(s, err) =>
      && Inv(s) && s.current == None
      && (!s.foreground && !Done(s) ==> err.Some? && IsListenerFailure(err.value))
  }

  /** Draining the runtime once shutdown is visible ends the loop, or leaves a loop that sees shutdown at once. */
  lemma StoppedOk(s: Sup, result: Option<Failure>)
    requires Live(s) && Done(s)
    ensures OutcomeOk(Returns(StopCurrent(s, result))) && OutcomeOk(ReturnsOnError(StopCurrent(s, result)))
  {
    LiveIsBase(s);
    StopKeeps(s, result);
    LiveIsBase(StopCurrent(s, result).0);
    hide Live, Inv, Base, IsListenerFailure;
  }

  lemma ActivateOk(s: Sup, initial: bool, load: Load)
    requires Live(s) && (initial ==> s.launches == 0 && s.current == None && s.lastGood == None)
    requires !initial ==> Busy(s)
    ensures OutcomeOk(ReturnsOnError(Activate(s, initial, load)))
  {
    ActivateKeeps(s, initial, load);
    ActivateOutcome(s, initial, load);
    LiveIsBase(Activate(s, initial, load).0);
    ActivateLeavesSomething(s, initial, load);
    hide Live, Inv, Activate, IsListenerFailure;
  }

  /** In the foreground a load that does not fail leaves a runtime, unless shutdown is visible. */
  lemma ActivateLeavesSomething(s: Sup, initial: bool, load: Load)
    requires initial ==> s.lastGood == None
    requires !initial ==> Busy(s)
    ensures Activate(s, initial, load).1 == None ==> Busy(Activate(s, initial, load).0)
  {
  }

  /** Observing readiness neither brings a runtime nor takes it away. */
  lemma ObserveLeaves(s: Sup, ready: bool)
    ensures var t := ObserveReadiness(Signal(s, ready));
            && t.current.Some? == s.current.Some? && t.launches == s.launches && t.foreground == s.foreground
            && (s.current == None ==> t.lastGood == s.lastGood) && t.polls >= s.polls && t.shutdownAt == s.shutdownAt
  {
  }

  lemma LoadKeeps(s: Sup, initial: bool, load: Load)
    requires Live(s) && (initial ==> s.launches == 0 && s.current == None && s.lastGood == None)
    requires !initial ==> Busy(s)
    ensures OutcomeOk(ReturnsOnError(LoadConfiguration(s, initial, load)))
  {
    hide Live, Inv, OutcomeOk, Activate, ObserveReadiness, Signal;
    LookKeeps(s);
    LookKeeps(Look(s));
    if Done(s) {
      StoppedOk(Look(s), load.result);
    } else if Done(Look(s)) {
      StoppedOk(Look(Look(s)), load.result);
    } else {
      ObserveKeeps(Look(Look(s)), load.ready);
      ObserveLeaves(Look(Look(s)), load.ready);
      ActivateOk(ObserveReadiness(Signal(Look(Look(s)), load.ready)), initial, load);
    }
  }

  /** The finished runtime is gone, and its completion is on the log. */
  function Retired(s: Sup): Sup
    requires s.current.Some?
  {
    Look(s).(current := None, log := s.log + [Drained(s.current.value.id)])
  }

  lemma RetiredKeeps(s: Sup)
    requires Live(s) && s.current.Some?
    ensures Live(Retired(s))
  {
    hide CommitsOk;
  }

  lemma EndedKeeps(s: Sup, ended: Option<Failure>)
    requires Live(s) && s.current.Some?
    ensures OutcomeOk(Ended(s, ended))
  {
    hide Live, Inv, Base, IsListenerFailure, Start;
    RetiredKeeps(s);
    LiveIsBase(s);
    LiveIsBase(Retired(s));
    if State(s.current) == Starting && s.lastGood.Some? && !Done(s) {
      var err := if ended.Some? then ended.value else StoppedUnexpectedly;
      StartKeeps(Retired(s), s.lastGood.value, Some(err), None);
      StartOutcome(Retired(s), s.lastGood.value, Some(err), None);
    } else if Done(s) {
      StoppedWhenDone(s, ended);
    }
  }

  /** Starting leaves a runtime, unless shutdown is visible; then it may fail. */
  lemma StartOutcome(s: Sup, cfg: Config, cause: Option<Failure>, result: Option<Failure>)
    requires s.current == None
    ensures var (s', err) := Start(s, cfg, cause, result);
            && s'.foreground == s.foreground && err == None
            && (s'.current == None ==> Done(s'))
  {
  }

  lemma StoppedWhenDone(s: Sup, ended: Option<Failure>)
    requires s.current.Some? && Done(s)
    ensures Ended(s, ended) == Returned(Retired(s), ended)
  {
  }

  /** Up to its select a turn commits readiness at most; a runtime is there or not as before. */
  lemma WaitKeeps(s: Sup, turn: Turn)
    requires Live(s) && Busy(s) && !Done(s)
    ensures Live(AtSelect(s, turn)) && Busy(AtSelect(s, turn))
  {
    LookKeeps(s);
    ObserveKeeps(Look(s), turn.ready);
    ObserveLeaves(Look(s), turn.ready);
    SignalKeeps(ObserveReadiness(Signal(Look(s), turn.ready)), turn.arrives);
    hide Live, ObserveReadiness;
  }

  /** Whichever arm the select takes. */
  lemma SelectKeeps(s: Sup, arm: Arm)
    requires Live(s) && Busy(s) && ArmReady(s, arm)
    ensures OutcomeOk(Select(s, arm))
  {
    hide Live, LoadConfiguration, Ended, ObserveReadiness, Signal;
    match arm
    case ShutdownArm(result) =>
      hide OutcomeOk;
      StoppedOk(s, result);
    case ReloadArm(load) =>
      hide OutcomeOk;
      LoadKeeps(s, false, load);
    case ReadyArm =>
    case DoneArm(ended, ready) =>
      hide OutcomeOk;
      ObserveKeeps(s, ready);
      ObserveLeaves(s, ready);
      EndedKeeps(ObserveReadiness(Signal(s, ready)), ended);
  }

  lemma IterateKeeps(s: Sup, turn: Turn)
    requires Live(s) && Busy(s) && TurnReady(s, turn)
    ensures OutcomeOk(Iterate(s, turn))
  {
    hide Live, Busy, AtSelect, Select, OutcomeOk;
    if Done(s) {
      LookKeeps(s);
      StoppedOk(Look(s), turn.result);
    } else {
      WaitKeeps(s, turn);
      SelectKeeps(AtSelect(s, turn), turn.arm);
    }
  }

  lemma {:induction false} RunKeeps(o: Outcome, turns: seq<Turn>)
    requires OutcomeOk(o) && IsRun(o, turns)
    ensures OutcomeOk(Exec(o, turns))
    decreases |turns|
  {
    if turns != [] {
      IterateKeeps(o.sup, turns[0]);
      RunKeeps(Iterate(o.sup, turns[0]), turns[1..]);
    }
  }

  /** A run of runWithServers: the initial load, then turns of the loop. */
  ghost predicate Reachable(o: Outcome) {
    exists foreground, shutdownAt, load, turns ::
      IsRun(Boot(foreground, shutdownAt, load), turns) && Exec(Boot(foreground, shutdownAt, load), turns) == o
  }

  lemma ReachableOk(o: Outcome)
    requires Reachable(o)
    ensures OutcomeOk(o)
  {
    var foreground, shutdownAt, load, turns :|
      IsRun(Boot(foreground, shutdownAt, load), turns) && Exec(Boot(foreground, shutdownAt, load), turns) == o;
    LoadKeeps(Sup(foreground, shutdownAt, None, None, 0, 0, [], 0, [], [], []), true, load);
    RunKeeps(Boot(foreground, shutdownAt, load), turns);
  }

  // ------------------------------------------------------------------ over every run

  /** A candidate gets at most one rollback, and a failed rollback starts nothing. */
  lemma BoundedLaunches(o: Outcome)
    requires Reachable(o)
    ensures o.sup.launches <= 1 + 2 * o.sup.validReloads
  {
    ReachableOk(o);
  }

  lemma {:induction false} DrainedLogAt(configs: seq<Config>, k: nat)
    requires k < |configs|
    ensures |DrainedLog(configs)| == 2 * |configs|
    ensures DrainedLog(configs)[2 * k] == Launched(k, configs[k]) && DrainedLog(configs)[2 * k + 1] == Drained(k)
    decreases |configs|
  {
    var n := |configs| - 1;
    if k < n {
      DrainedLogAt(configs[..n], k);
    } else if n > 0 {
      DrainedLogAt(configs[..n], 0);
    }
  }

  /** Where each launch stands in the log. */
  lemma LaunchInLog(s: Sup, k: nat)
    requires Exclusive(s) && k < s.launches
    ensures |s.log| == 2 * s.launches - if s.current.Some? && !s.current.value.finished then 1 else 0
    ensures 2 * k < |s.log| && s.log[2 * k] == Launched(k, s.configs[k])
    ensures 2 * k + 1 < |s.log| ==> s.log[2 * k + 1] == Drained(k)
  {
    var n := |s.configs| - 1;
    DrainedLogAt(s.configs, k);
    if n > 0 { DrainedLogAt(s.configs[..n], if k < n then k else 0); }
  }

  /** Each runtime is drained before the next is launched, and the last one before any return. */
  lemma OneRuntimeAtATime(o: Outcome, k: nat)
    requires Reachable(o) && k < o.sup.launches
    ensures 2 * k < |o.sup.log| && o.sup.log[2 * k].Launched? && o.sup.log[2 * k].id == k
    ensures k + 1 < o.sup.launches || o.Returned? || o.sup.current == None ==>
              2 * k + 1 < |o.sup.log| && o.sup.log[2 * k + 1] == Drained(k)
    ensures |o.sup.log| == 2 * o.sup.launches - if o.sup.current.Some? then 1 else 0
  {
    ReachableOk(o);
    LaunchInLog(o.sup, k);
  }

  predicate LaunchedAt(log: seq<Entry>, id: nat, cfg: Config) {
    2 * id < |log| && log[2 * id] == Launched(id, cfg)
  }

  /**
   lastGood is nil or the configuration of a launched runtime that was seen ready with a look at the
   context that did not see shutdown.
   */
  lemma LastGoodIntegrity(o: Outcome)
    requires Reachable(o)
    ensures o.sup.lastGood.Some? ==>
              exists i :: 0 <= i < |o.sup.commits| && 0 <= i < |o.sup.looks| && o.sup.looks[i] < o.sup.shutdownAt
                          && LaunchedAt(o.sup.log, o.sup.commits[i].id, o.sup.lastGood.value)
    ensures o.Running? && State(o.sup.current) in {Serving, RollingBack} ==>
              o.sup.lastGood == Some(o.sup.current.value.cfg)
    ensures o.Running? && State(o.sup.current) == Serving ==>
              o.sup.current.value.ready && o.sup.current.value.rollbackCause == None
  {
    ReachableOk(o);
    if o.sup.commits != [] {
      var i := |o.sup.commits| - 1;
      LaunchInLog(o.sup, o.sup.commits[i].id);
      assert LaunchedAt(o.sup.log, o.sup.commits[i].id, o.sup.lastGood.value);
    }
  }

  /** In foreground mode the select always has a runtime to wait for. */
  lemma ForegroundNeverIdle(o: Outcome, turn: Turn)
    requires Reachable(o) && o.Running? && o.sup.foreground && !Done(o.sup)
    ensures AtSelect(o.sup, turn).current.Some?
  {
    ReachableOk(o);
  }

  /** A managed service that was not asked to stop returns only terminal listener failures. */
  lemma ManagedReturnsListenerFailures(o: Outcome)
    requires Reachable(o) && o.Returned? && !o.sup.foreground && !Done(o.sup)
    ensures o.err.Some? && IsListenerFailure(o.err.value)
  {
    ReachableOk(o);
  }

  /** Once shutdown is visible, no arm launches a runtime or records a configuration as good. */
  lemma DoneArms(s: Sup, arm: Arm)
    requires Done(s) && ArmReady(s, arm)
    ensures var s' := Select(s, arm).sup;
            s'.launches == s.launches && s'.lastGood == s.lastGood && s'.commits == s.commits && Done(s')
  {
  }

  /** From when shutdown is visible, every run takes at most one more turn, which launches and commits nothing. */
  lemma ShutdownFreezes(o: Outcome, turns: seq<Turn>)
    requires Reachable(o) && Done(o.sup) && IsRun(o, turns)
    ensures |turns| <= 1
    ensures var o' := Exec(o, turns);
            && o'.sup.launches == o.sup.launches && o'.sup.lastGood == o.sup.lastGood && o'.sup.commits == o.sup.commits
            && (turns != [] ==> o'.Returned? && o'.sup.current == None)
  {
    if turns != [] {
      var o' := Iterate(o.sup, turns[0]);
      assert o'.Returned?;
      assert IsRun(o', turns[1..]);
    }
  }

  /** Equal but for the number of looks at the context. */
  predicate SameUpToLooks(a: Outcome, b: Outcome) {
    && a.Running? == b.Running? && a.sup == b.sup.(polls := a.sup.polls, looks := a.sup.looks)
    && (a.Returned? ==> a.err == b.err)
  }

  ghost predicate Twins(a: Sup, b: Sup) {
    a == b.(polls := a.polls, looks := a.looks) && a.shutdownAt > a.polls + 2 && b.shutdownAt > b.polls + 2
  }

  lemma ActivateTwins(a: Sup, b: Sup, load: Load)
    requires Twins(a, b)
    ensures SameUpToLooks(ReturnsOnError(Activate(a, false, load)), ReturnsOnError(Activate(b, false, load)))
  {
    match load.loaded
    case Ok(candidate) =>
      StartTwins(a.(validReloads := a.validReloads + 1), b.(validReloads := b.validReloads + 1),
                 candidate, None, load.result);
      hide Start;
    case Err(e) =>
      if State(a.current) == Starting && a.lastGood.Some? { StartTwins(a, b, a.lastGood.value, Some(e), load.result); }
      hide Start;
  }

  lemma StartTwins(a: Sup, b: Sup, cfg: Config, cause: Option<Failure>, result: Option<Failure>)
    requires Twins(a, b)
    ensures SameUpToLooks(ReturnsOnError(Start(a, cfg, cause, result)), ReturnsOnError(Start(b, cfg, cause, result)))
  {
  }

  lemma EndedTwins(a: Sup, b: Sup, ended: Option<Failure>)
    requires Twins(a, b) && a.current.Some?
    ensures SameUpToLooks(Ended(a, ended), Ended(b, ended))
  {
    hide IsListenerFailure;
  }

  /** Readiness is committed once; a second look at it changes nothing. */
  lemma CommitOnce(s: Sup, early: bool, waiting: bool, late: bool)
    requires s.shutdownAt > s.polls + 8
    requires ArmReady(s, ReadyArm)
    ensures var once := Signal(ObserveReadiness(Signal(Look(s), early)), waiting);
            var again := ObserveReadiness(Signal(once, late));
            State(once.current) == Serving && Twins(ObserveReadiness(Signal(s, late)), again)
            && Twins(ObserveReadiness(Signal(Look(Look(s)), late)), ObserveReadiness(Signal(Look(Look(once)), late)))
  {
  }

  /**
   select picks at random among arms that are ready. When the runtime's readiness competes with its
   completion or with a reload, taking readiness first leads where the other arm leads directly.
   */
  lemma ArmsConfluent(s: Sup, turn: Turn)
    requires s.shutdownAt > s.polls + 8
    requires ArmReady(s, ReadyArm) && (turn.arm.DoneArm? || turn.arm.ReloadArm?)
    ensures Select(s, ReadyArm) == Running(s) && TurnReady(s, turn) && ArmReady(s, turn.arm)
    ensures SameUpToLooks(Select(s, turn.arm), Iterate(s, turn))
  {
    hide Activate, ObserveReadiness, Signal, Twins, SameUpToLooks, Ended, IsListenerFailure;
    var waiting := AtSelect(s, turn);
    WaitedOn(s, turn);
    match turn.arm
    case ReloadArm(load) =>
      CommitOnce(s, turn.ready, turn.arrives, load.ready);
      hide AtSelect;
      ActivateTwins(ObserveReadiness(Signal(Look(Look(s)), load.ready)),
                    ObserveReadiness(Signal(Look(Look(waiting)), load.ready)), load);
    case DoneArm(ended, ready) =>
      CommitOnce(s, turn.ready, turn.arrives, ready);
      EndedTwins(ObserveReadiness(Signal(s, ready)), ObserveReadiness(Signal(waiting, ready)), ended);
  }

  lemma WaitedOn(s: Sup, turn: Turn)
    ensures AtSelect(s, turn).current.Some? == s.current.Some?
    ensures AtSelect(s, turn).shutdownAt == s.shutdownAt && AtSelect(s, turn).polls <= s.polls + 2
    ensures forall ready :: ObserveReadiness(Signal(s, ready)).current.Some? == s.current.Some?
  {
  }

  /**
   So in every run: where a turn finds readiness and another arm open, taking readiness and then, in
   the next turn, the other arm has the same outcome as taking the other arm at once.
   */
  lemma SelectConfluence(o: Outcome, turn: Turn, next: Turn)
    requires Reachable(o) && o.Running? && TurnReady(o.sup, turn) && turn.arm.ReadyArm?
    requires o.sup.shutdownAt > o.sup.polls + 10
    requires next.arm.DoneArm? || next.arm.ReloadArm?
    ensures IsRun(o, [turn, next]) && TurnReady(o.sup, turn.(arm := next.arm))
    ensures SameUpToLooks(Exec(o, [turn.(arm := next.arm)]), Exec(o, [turn, next]))
  {
    hide ArmReady, Select, ObserveReadiness, Signal, Reachable, SameUpToLooks;
    var s, direct := AtSelect(o.sup, turn), turn.(arm := next.arm);
    WaitedOn(o.sup, turn);
    ArmsConfluent(s, next);
    assert AtSelect(o.sup, direct) == s;
    hide AtSelect;
    assert Iterate(o.sup, turn) == Running(s) && Iterate(o.sup, direct) == Select(s, next.arm);
    OneTurn(o, direct);
    OneTurn(Running(s), next);
    assert [turn, next][1..] == [next];
  }

  lemma OneTurn(o: Outcome, turn: Turn)
    requires o.Running? && TurnReady(o.sup, turn)
    ensures IsRun(o, [turn]) && Exec(o, [turn]) == Iterate(o.sup, turn)
  {
    hide TurnReady, Iterate;
    assert [turn][1..] == [];
    var next := Iterate(o.sup, turn);
    assert IsRun(next, []) && Exec(next, []) == next;
  }

  /** A runtime that becomes ready while the loop waits is in such a run: the hypotheses are met. */
  lemma ReadinessCompetes(foreground: bool, shutdownAt: nat) returns (o: Outcome, turn: Turn)
    requires shutdownAt > 20
    ensures Reachable(o) && o.Running? && TurnReady(o.sup, turn) && turn.arm.ReadyArm?
    ensures o.sup.foreground == foreground && o.sup.shutdownAt == shutdownAt && shutdownAt > o.sup.polls + 10
  {
    var load := Load(Ok(0), false, None);
    o, turn := Boot(foreground, shutdownAt, load), Turn(false, true, None, ReadyArm);
    assert IsRun(Boot(foreground, shutdownAt, load), []) && Exec(Boot(foreground, shutdownAt, load), []) == o;
  }
}
