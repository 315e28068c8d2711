/**
 The four-state machine that the nil-ness of `current`, `serving` and `rollbackCause` encode, and
 the proof that the supervisor refines it.
 */
module SupervisorSpec {
  import opened Wrappers
  import opened SupervisorModel

  datatype Life =
    | Resting
    | Trying(cfg: Config)
    | Restoring(cfg: Config, cause: Failure)
    | Accepted(cfg: Config)

  datatype Machine = Machine(life: Life, lastGood: Option<Config>)

  datatype Event =
    | BecameReady
    | Candidate(cfg: Config)
    | Rejected(err: Failure)
    | Stopped(err: Failure)
    | ShutdownSeen

  /** A candidate that does not make it is replaced by the last good configuration, once. */
  function Step(m: Machine, e: Event): Machine {
    match e
    case BecameReady =>
      if m.life.Trying? || m.life.Restoring? then Machine(Accepted(m.life.cfg), Some(m.life.cfg)) else m
    case Candidate(cfg) => m.(life := Trying(cfg))
    case Rejected(err) => if m.life.Trying? && m.lastGood.Some? then m.(life := Restoring(m.lastGood.value, err)) else m
    case Stopped(err) =>
      if m.life.Trying? && m.lastGood.Some? then m.(life := Restoring(m.lastGood.value, err)) else m.(life := Resting)
    case ShutdownSeen => m.(life := Resting)
  }

  function Steps(m: Machine, events: seq<Event>): Machine
    decreases |events|
  {
    if events == [] then m else Steps(Step(m, events[0]), events[1..])
  }

  /** The machine state the three nilable fields stand for. */
  function View(s: Sup): Machine {
    var life := match s.current
                case None => Resting
                case Some(r) =>
                  if r.serving then Accepted(r.cfg)
                  else if r.rollbackCause.Some? then Restoring(r.cfg, r.rollbackCause.value)
                  else Trying(r.cfg);
    Machine(life, s.lastGood)
  }

  /** Readiness is committed with a look at the context that sees no shutdown. */
  function Readiness(s: Sup, ready: bool): seq<Event> {
    var signaled := Signal(s, ready);
    if signaled.current.Some? && signaled.current.value.ready && !signaled.current.value.serving && !Done(s)
    then [BecameReady]
    else []
  }

  /** A candidate that does not make it would be replaced, which takes one more look at the context. */
  predicate Replaceable(s: Sup) {
    State(s.current) == Starting && s.lastGood.Some?
  }

  function LoadMeaning(s: Sup, loaded: Result<Config, Failure>): Event {
    match loaded
    case Ok(cfg) => if Done(s) then ShutdownSeen else Candidate(cfg)
    case Err(e) => if Done(s) && Replaceable(s) then ShutdownSeen else Rejected(e)
  }

  function EndMeaning(s: Sup, ended: Option<Failure>): Event {
    if Done(s) || (Done(Look(s)) && Replaceable(s)) then ShutdownSeen
    else Stopped(if ended.Some? then ended.value else StoppedUnexpectedly)
  }

  function ArmMeaning(s: Sup, arm: Arm): seq<Event> {
    match arm
    case ShutdownArm(_) => [ShutdownSeen]
    case ReadyArm => []
    case ReloadArm(load) =>
      var looked := Look(Look(s));
      if Done(s) || Done(Look(s)) then [ShutdownSeen]
      else Readiness(looked, load.ready) + [LoadMeaning(ObserveReadiness(Signal(looked, load.ready)), load.loaded)]
    case DoneArm(ended, ready) =>
      Readiness(s, ready) + [EndMeaning(ObserveReadiness(Signal(s, ready)), ended)]
  }

  /** What one turn of the loop means to the machine. */
  function Meaning(s: Sup, turn: Turn): seq<Event> {
    if Done(s) then [ShutdownSeen]
    else Readiness(Look(s), turn.ready) + ArmMeaning(AtSelect(s, turn), turn.arm)
  }

  lemma ObserveRefines(s: Sup, ready: bool)
    ensures View(ObserveReadiness(Signal(s, ready))) == Steps(View(s), Readiness(s, ready))
    ensures ObserveReadiness(Signal(s, ready)).current.Some? == s.current.Some?
  {
  }

  lemma StopRefines(s: Sup, result: Option<Failure>)
    ensures View(StopCurrent(s, result).0) == Step(View(s), ShutdownSeen)
  {
  }

  lemma StartRefines(s: Sup, cfg: Config, cause: Option<Failure>, result: Option<Failure>)
    ensures View(Start(s, cfg, cause, result).0)
            == if Done(s) then Step(View(s), ShutdownSeen)
               else View(s).(life := if cause.Some? then Restoring(cfg, cause.value) else Trying(cfg))
  {
  }

  lemma ActivateRefines(s: Sup, load: Load)
    ensures View(Activate(s, false, load).0) == Step(View(s), LoadMeaning(s, load.loaded))
  {
    match load.loaded
    case Ok(cfg) =>
      StartRefines(s.(validReloads := s.validReloads + 1), cfg, None, load.result);
      hide Start;
    case Err(e) =>
      if Replaceable(s) { StartRefines(s, s.lastGood.value, Some(e), load.result); }
      hide Start;
  }

  lemma EndedRefines(s: Sup, ended: Option<Failure>)
    requires s.current.Some?
    ensures View(Ended(s, ended).sup) == Step(View(s), EndMeaning(s, ended))
  {
    hide IsListenerFailure;
  }

  lemma {:induction false} StepsAppend(m: Machine, es: seq<Event>, fs: seq<Event>)
    ensures Steps(m, es + fs) == Steps(Steps(m, es), fs)
    decreases |es|
  {
    if es == [] {
      assert es + fs == fs;
    } else {
      assert (es + fs)[1..] == es[1..] + fs;
      StepsAppend(Step(m, es[0]), es[1..], fs);
    }
  }

  lemma LoadRefines(s: Sup, load: Load)
    ensures View(LoadConfiguration(s, false, load).0) == Steps(View(s), ArmMeaning(s, ReloadArm(load)))
  {
    hide Activate, ObserveReadiness, Signal, Readiness, LoadMeaning, StopCurrent;
    var looked := Look(Look(s));
    var observed := ObserveReadiness(Signal(looked, load.ready));
    assert View(Look(s)) == View(looked) == View(s);
    StopRefines(Look(s), load.result);
    StopRefines(looked, load.result);
    ObserveRefines(looked, load.ready);
    ActivateRefines(observed, load);
    hide View, Step;
    StepsAppend(View(s), Readiness(looked, load.ready), [LoadMeaning(observed, load.loaded)]);
  }

  lemma CompletionRefines(s: Sup, ended: Option<Failure>, ready: bool)
    requires s.current.Some?
    ensures ObserveReadiness(Signal(s, ready)).current.Some?
    ensures View(Ended(ObserveReadiness(Signal(s, ready)), ended).sup)
            == Steps(View(s), ArmMeaning(s, DoneArm(ended, ready)))
  {
    hide Ended, ObserveReadiness, Signal, Readiness, EndMeaning;
    ObserveRefines(s, ready);
    EndedRefines(ObserveReadiness(Signal(s, ready)), ended);
    hide View, Step;
    StepsAppend(View(s), Readiness(s, ready), [EndMeaning(ObserveReadiness(Signal(s, ready)), ended)]);
  }

  lemma ArmRefines(s: Sup, arm: Arm)
    requires ArmReady(s, arm)
    ensures View(Select(s, arm).sup) == Steps(View(s), ArmMeaning(s, arm))
  {
    hide Ended, ObserveReadiness, Signal, LoadConfiguration, StopCurrent, View, Step;
    match arm
    case ShutdownArm(result) => StopRefines(s, result);
    case ReloadArm(load) =>
      hide ArmMeaning;
      LoadRefines(s, load);
    case ReadyArm =>
    case DoneArm(ended, ready) =>
      hide ArmMeaning;
      CompletionRefines(s, ended, ready);
  }

  /** Readiness that arrives while the loop waits is no event until it is committed. */
  lemma WaitRefines(s: Sup, turn: Turn)
    ensures View(AtSelect(s, turn)) == Steps(View(s), Readiness(Look(s), turn.ready))
  {
    ObserveRefines(Look(s), turn.ready);
    assert View(Look(s)) == View(s);
    hide ObserveReadiness, Readiness;
  }

  /** Every turn of the loop does to the machine what the turn means, and shutdown may become visible anywhere in it. */
  lemma TurnRefinesMachine(s: Sup, turn: Turn)
    requires TurnReady(s, turn)
    ensures View(Iterate(s, turn).sup) == Steps(View(s), Meaning(s, turn))
  {
    hide AtSelect, ArmReady, Select, ArmMeaning, StopCurrent, View, Step, Readiness;
    if Done(s) {
      StopRefines(Look(s), turn.result);
      LookRefines(s);
    } else {
      WaitRefines(s, turn);
      ArmRefines(AtSelect(s, turn), turn.arm);
      StepsAppend(View(s), Readiness(Look(s), turn.ready), ArmMeaning(AtSelect(s, turn), turn.arm));
    }
  }

  lemma LookRefines(s: Sup)
    ensures View(Look(s)) == View(s)
  {
  }

  lemma ReadinessIsNoShutdown(s: Sup, ready: bool)
    ensures ShutdownSeen !in Readiness(s, ready)
  {
  }

  lemma LoadSees(s: Sup, load: Load)
    ensures LoadMeaning(s, load.loaded) == ShutdownSeen ==> Done(Activate(s, false, load).0)
  {
  }

  lemma EndSees(s: Sup, ended: Option<Failure>)
    requires s.current.Some?
    ensures EndMeaning(s, ended) == ShutdownSeen ==> Done(Ended(s, ended).sup)
  {
    hide IsListenerFailure;
  }

  lemma StopSees(s: Sup, result: Option<Failure>)
    ensures Done(StopCurrent(s, result).0) == Done(s)
  {
  }

  lemma ArmSees(s: Sup, arm: Arm)
    requires ArmReady(s, arm) && ShutdownSeen in ArmMeaning(s, arm)
    ensures Done(Select(s, arm).sup)
  {
    hide Ended, Activate, ObserveReadiness, Signal, Readiness, LoadMeaning, EndMeaning, StopCurrent;
    match arm
    case ShutdownArm(result) => StopSees(s, result);
    case ReloadArm(load) =>
      var looked := Look(Look(s));
      StopSees(Look(s), load.result);
      StopSees(looked, load.result);
      ReadinessIsNoShutdown(looked, load.ready);
      LoadSees(ObserveReadiness(Signal(looked, load.ready)), load);
    case DoneArm(ended, ready) =>
      ObserveRefines(s, ready);
      ReadinessIsNoShutdown(s, ready);
      EndSees(ObserveReadiness(Signal(s, ready)), ended);
  }

  /** The machine sees shutdown only in a turn by whose end it has become visible. */
  lemma ShutdownIsSeen(s: Sup, turn: Turn)
    requires TurnReady(s, turn) && ShutdownSeen in Meaning(s, turn)
    ensures Done(Iterate(s, turn).sup)
  {
    hide AtSelect, ArmReady, Select, ArmMeaning, StopCurrent, Readiness;
    if Done(s) {
      StopSees(Look(s), turn.result);
    } else {
      ReadinessIsNoShutdown(Look(s), turn.ready);
      ArmSees(AtSelect(s, turn), turn.arm);
    }
  }

  function RunMeaning(o: Outcome, turns: seq<Turn>): seq<Event>
    requires IsRun(o, turns)
    decreases |turns|
  {
    if turns == [] then []
    else Meaning(o.sup, turns[0]) + RunMeaning(Iterate(o.sup, turns[0]), turns[1..])
  }

  /** So every run of the supervisor is a run of the machine. */
  lemma {:induction false} RunRefinesMachine(o: Outcome, turns: seq<Turn>)
    requires IsRun(o, turns)
    ensures View(Exec(o, turns).sup) == Steps(View(o.sup), RunMeaning(o, turns))
    decreases |turns|
  {
    hide Iterate, Meaning, TurnReady, View, Step;
    if turns != [] {
      var next := Iterate(o.sup, turns[0]);
      TurnRefinesMachine(o.sup, turns[0]);
      RunRefinesMachine(next, turns[1..]);
      StepsAppend(View(o.sup), Meaning(o.sup, turns[0]), RunMeaning(next, turns[1..]));
    }
  }

  // ------------------------------------------------------------------ the bound on launches is met

  const RELOAD := Turn(true, false, None, ReloadArm(Load(Ok(2), false, None)))
  const FAIL := Turn(false, false, None, DoneArm(Some(RunFailure(false, 0)), false))

  function Boots(shutdownAt: nat): Outcome {
    Boot(false, shutdownAt, Load(Ok(1), false, None))
  }

  /** After `n` reloads that were rolled back, with a runtime that can become ready. */
  ghost predicate Cycled(o: Outcome, n: nat, looks: nat) {
    && o.Running? && o.sup.validReloads == n && o.sup.launches == 1 + 2 * n
    && o.sup.current.Some? && !o.sup.current.value.serving && o.sup.polls + looks < o.sup.shutdownAt
  }

  ghost predicate CandidateRuns(s: Sup, n: nat, looks: nat) {
    && s.validReloads == n + 1 && s.launches == 2 + 2 * n && s.lastGood.Some? && s.polls + looks < s.shutdownAt
    && State(s.current) == Starting && !s.current.value.ready
  }

  /** The runtime becomes ready, and the reload replaces it by a candidate. */
  lemma ReloadLaunches(o: Outcome, n: nat, looks: nat)
    requires Cycled(o, n, looks + 10)
    ensures TurnReady(o.sup, RELOAD) && Iterate(o.sup, RELOAD).Running?
    ensures CandidateRuns(Iterate(o.sup, RELOAD).sup, n, looks + 5)
  {
  }

  /** The candidate ends, and is rolled back. */
  lemma FailureRollsBack(s: Sup, n: nat, looks: nat)
    requires CandidateRuns(s, n, looks + 5)
    ensures TurnReady(s, FAIL) && Cycled(Iterate(s, FAIL), n + 1, looks)
  {
  }

  /** One more cycle at the end of a run. */
  lemma {:induction false} RunsOn(o: Outcome, turns: seq<Turn>, last: Turn)
    requires IsRun(o, turns) && Exec(o, turns).Running? && TurnReady(Exec(o, turns).sup, last)
    ensures IsRun(o, turns + [last]) && Exec(o, turns + [last]) == Iterate(Exec(o, turns).sup, last)
    decreases |turns|
  {
    hide TurnReady, Iterate;
    var all := turns + [last];
    if turns == [] {
      assert all[1..] == [];
      var next := Iterate(o.sup, last);
      assert IsRun(next, []) && Exec(next, []) == next;
    } else {
      assert all[1..] == turns[1..] + [last];
      RunsOn(Iterate(o.sup, turns[0]), turns[1..], last);
    }
  }

  /** For every number of reloads there is a run in which each costs two launches: the bound cannot be lowered. */
  lemma {:induction false} Cycles(shutdownAt: nat, n: nat, looks: nat) returns (turns: seq<Turn>)
    requires shutdownAt > 10 * n + looks + 10
    ensures IsRun(Boots(shutdownAt), turns) && Cycled(Exec(Boots(shutdownAt), turns), n, looks)
    decreases n
  {
    var o := Boots(shutdownAt);
    if n == 0 {
      turns := [];
      assert IsRun(o, []) && Exec(o, []) == o;
    } else {
      hide TurnReady, Iterate, Boots, CandidateRuns, Cycled;
      turns := Cycles(shutdownAt, n - 1, looks + 10);
      ReloadLaunches(Exec(o, turns), n - 1, looks);
      RunsOn(o, turns, RELOAD) by { CycledRuns(Exec(o, turns), n - 1, looks + 10); }
      turns := turns + [RELOAD];
      FailureRollsBack(Exec(o, turns).sup, n - 1, looks);
      RunsOn(o, turns, FAIL);
      turns := turns + [FAIL];
    }
  }

  lemma CycledRuns(o: Outcome, n: nat, looks: nat)
    requires Cycled(o, n, looks)
    ensures o.Running?
  {
  }

  lemma LaunchBoundIsMet(n: nat) returns (shutdownAt: nat, turns: seq<Turn>)
    ensures IsRun(Boots(shutdownAt), turns)
    ensures var s := Exec(Boots(shutdownAt), turns).sup; s.validReloads == n && s.launches == 1 + 2 * n
  {
    shutdownAt := 10 * n + 20;
    turns := Cycles(shutdownAt, n, 0);
    hide Exec, IsRun, Boots;
  }
}
