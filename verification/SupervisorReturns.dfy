/** When runWithServers returns, and with which error: decided by the mode, the phase and how the runtime ended. */
module SupervisorReturns {
  import opened Wrappers
  import opened SupervisorModel
  import opened SupervisorProperties

  /** No look at the context has found it done so far. */
  predicate NotSeen(s: Sup) {
    s.polls <= s.shutdownAt
  }

  /** The runtime has become ready, at the latest when the supervisor looks after it has ended. */
  predicate CameUp(r: Runtime, turn: Turn)
    requires turn.arm.DoneArm?
  {
    r.serving || r.ready || turn.ready || turn.arrives || turn.arm.ready
  }

  function ErrorOf(ended: Option<Failure>): Failure {
    if ended.Some? then ended.value else StoppedUnexpectedly
  }

  /** A runtime that serves has been ready, and restores nothing. */
  predicate Sound(s: Sup) {
    s.current.Some? && s.current.value.serving ==> s.current.value.ready && s.current.value.rollbackCause == None
  }

  /** What becomes of the runtime `r` once it has been looked at; `up` when it was ready by then. */
  predicate Observed(s: Sup, s': Sup, up: bool)
    requires s.current.Some?
  {
    && s'.current.Some? && s.polls <= s'.polls && s'.shutdownAt == s.shutdownAt
    && s'.foreground == s.foreground && s'.launches == s.launches
    && (NotSeen(s') ==>
          var r, r' := s.current.value, s'.current.value;
          && r'.cfg == r.cfg && r'.serving == up && (r'.serving ==> r'.ready)
          && r'.rollbackCause == (if up then None else r.rollbackCause)
          && s'.lastGood == (if up && !r.serving then Some(r.cfg) else s.lastGood))
  }

  lemma ObservedOnce(s: Sup, ready: bool)
    requires s.current.Some? && Sound(s)
    ensures var r := s.current.value;
            Observed(s, ObserveReadiness(Signal(s, ready)), r.serving || r.ready || ready)
    ensures Sound(ObserveReadiness(Signal(s, ready)))
    ensures var s' := ObserveReadiness(Signal(s, ready));
            NotSeen(s') && s'.current.Some? && !s'.current.value.serving ==> !s'.current.value.ready
  {
  }

  /** What the supervisor finds once a runtime has ended, up to the looks it takes. */
  lemma FoundEnded(s: Sup, turn: Turn)
    requires s.current.Some? && turn.arm.DoneArm? && Sound(s)
    ensures Observed(s, ObserveReadiness(Signal(AtSelect(s, turn), turn.arm.ready)), CameUp(s.current.value, turn))
  {
    hide ObserveReadiness;
    ObservedOnce(Look(s), turn.ready);
    var waiting := AtSelect(s, turn);
    ObservedOnce(waiting, turn.arm.ready);
  }

  lemma EndDecided(s: Sup, ended: Option<Failure>)
    requires s.current.Some? && NotSeen(Ended(s, ended).sup)
    ensures NotSeen(s)
    ensures var r, o, err := s.current.value, Ended(s, ended), ErrorOf(ended);
            if State(s.current) == Starting && s.lastGood.Some? then
              && o.Running? && o.sup.current.Some? && o.sup.launches == s.launches + 1
              && o.sup.current.value.cfg == s.lastGood.value && o.sup.current.value.rollbackCause == Some(err)
            else
              var restoring := State(s.current) == RollingBack;
              && o.sup.current == None && o.sup.launches == s.launches
              && (o.Returned? <==>
                    || s.foreground || IsListenerFailure(err)
                    || (restoring && IsListenerFailure(r.rollbackCause.value)))
              && (o.Returned? ==> o.err == Some(if restoring then Joined(r.rollbackCause.value, err) else err))
  {
  }

  /**
   While shutdown is not visible, a runtime that ends before it was ever ready, and was no restoration
   itself, is replaced by the last good configuration if there is one. Any other end makes
   runWithServers return if and only if it runs in the foreground or a listener failure is among the
   causes: its own error and, when it was restoring, the error it was restoring from. What is
   returned is those causes; otherwise the supervisor goes on with nothing running.
   */
  lemma CompletionDecided(o: Outcome, turn: Turn)
    requires Reachable(o) && o.Running? && TurnReady(o.sup, turn) && turn.arm.DoneArm?
    requires NotSeen(Iterate(o.sup, turn).sup)
    ensures o.sup.current.Some?
    ensures var r, o', err := o.sup.current.value, Iterate(o.sup, turn), ErrorOf(turn.arm.ended);
            if !CameUp(r, turn) && r.rollbackCause == None && o.sup.lastGood.Some? then
              && o'.Running? && o'.sup.current.Some? && o'.sup.launches == o.sup.launches + 1
              && o'.sup.current.value.cfg == o.sup.lastGood.value && o'.sup.current.value.rollbackCause == Some(err)
            else
              var restoring := !CameUp(r, turn) && r.rollbackCause.Some?;
              && o'.sup.current == None && o'.sup.launches == o.sup.launches
              && (o'.Returned? <==>
                    || o.sup.foreground || IsListenerFailure(err)
                    || (restoring && IsListenerFailure(r.rollbackCause.value)))
              && (o'.Returned? ==> o'.err == Some(if restoring then Joined(r.rollbackCause.value, err) else err))
  {
    ReachableOk(o);
    hide Reachable, Exclusive, Bounded, IsListenerFailure;
    var s := o.sup;
    EndedIsSeen(s, turn);
    FoundEnded(s, turn);
    EndDecided(ObserveReadiness(Signal(AtSelect(s, turn), turn.arm.ready)), turn.arm.ended);
    hide ObserveReadiness, Signal, AtSelect, Ended;
  }

  /** Shutdown that is visible at the top of a turn stays visible. */
  lemma EndedIsSeen(s: Sup, turn: Turn)
    requires TurnReady(s, turn) && turn.arm.DoneArm? && NotSeen(Iterate(s, turn).sup)
    ensures !Done(s) && AtSelect(s, turn).current.Some? && s.current.Some?
  {
    WaitedOn(s, turn);
  }

  /** A load that finds a runtime returns an error only when it has drained that runtime for the shutdown. */
  lemma LoadFails(s: Sup, load: Load)
    requires s.current.Some? && !s.current.value.finished && LoadConfiguration(s, false, load).1.Some?
    ensures !NotSeen(LoadConfiguration(s, false, load).0) && LoadConfiguration(s, false, load).1 == load.result
  {
  }

  /** The select finds the runtime the turn began with. */
  lemma SelectFinds(s: Sup, turn: Turn)
    ensures var w := AtSelect(s, turn);
            && w.current.Some? == s.current.Some?
            && (s.current.Some? ==> w.current.value.finished == s.current.value.finished)
  {
  }

  /** In every run a foreground load after the first finds a runtime. */
  lemma LoadFinds(o: Outcome, turn: Turn)
    requires Reachable(o) && o.Running?
    ensures o.sup.current.Some? ==> !o.sup.current.value.finished
    ensures o.sup.foreground && !Done(o.sup) ==> o.sup.current.Some?
    ensures o.sup.current == None && turn.arm.ReloadArm? ==>
              LoadConfiguration(AtSelect(o.sup, turn), false, turn.arm.load).1 == None
              || (o.sup.foreground && Done(o.sup))
  {
    ReachableOk(o);
    hide Reachable, Inv;
    SelectFinds(o.sup, turn);
    if o.sup.current == None && turn.arm.ReloadArm? { IdleLoad(AtSelect(o.sup, turn), turn.arm.load); }
    SelectForeground(o.sup, turn);
    hide AtSelect, LoadConfiguration;
  }

  lemma SelectForeground(s: Sup, turn: Turn)
    ensures AtSelect(s, turn).foreground == s.foreground
  {
  }

  lemma IdleLoad(s: Sup, load: Load)
    requires s.current == None
    ensures LoadConfiguration(s, false, load).1.Some? ==> s.foreground
  {
  }

  /** A reload or a readiness never ends the supervisor while shutdown is not visible. */
  lemma OthersGoOn(o: Outcome, turn: Turn)
    requires Reachable(o) && o.Running? && TurnReady(o.sup, turn) && (turn.arm.ReloadArm? || turn.arm.ReadyArm?)
    requires NotSeen(Iterate(o.sup, turn).sup)
    ensures Iterate(o.sup, turn).Running?
  {
    LoadFinds(o, turn);
    SelectFinds(o.sup, turn);
    StopLooks(o.sup, turn.result);
    hide Reachable, AtSelect, LoadConfiguration, StopCurrent;
    if turn.arm.ReloadArm? && !Done(o.sup) && o.sup.current.Some?
       && LoadConfiguration(AtSelect(o.sup, turn), false, turn.arm.load).1.Some? {
      LoadFails(AtSelect(o.sup, turn), turn.arm.load);
    }
  }

  lemma StopLooks(s: Sup, result: Option<Failure>)
    ensures var s' := StopCurrent(Look(s), result).0; s'.polls == s.polls + 1 && s'.shutdownAt == s.shutdownAt
  {
  }

  /** At the start, the foreground alone gives up on a configuration it cannot load. */
  lemma BootDecided(foreground: bool, shutdownAt: nat, load: Load)
    requires NotSeen(Boot(foreground, shutdownAt, load).sup)
    ensures var o := Boot(foreground, shutdownAt, load);
            && (o.Returned? <==> foreground && load.loaded.Err?)
            && (o.Returned? ==> o.err == Some(load.loaded.error))
            && (load.loaded.Ok? <==> o.sup.current.Some?) && o.sup.launches == (if load.loaded.Ok? then 1 else 0)
            && (load.loaded.Ok? ==> o.sup.current.value.cfg == load.loaded.value)
  {
  }

  /** Shutdown that is visible at the top of a turn, or while it waits, ends it with the result of the runtime. */
  lemma ShutdownReturns(o: Outcome, turn: Turn)
    requires Reachable(o) && o.Running? && TurnReady(o.sup, turn) && (Done(o.sup) || turn.arm.ShutdownArm?)
    ensures var o' := Iterate(o.sup, turn);
            && o'.Returned? && o'.sup.current == None
            && o'.err == if o.sup.current == None then None else if Done(o.sup) then turn.result else turn.arm.result
  {
    LoadFinds(o, turn);
    SelectFinds(o.sup, turn);
    hide Reachable, AtSelect;
  }

  lemma EndFails(s: Sup, ended: Option<Failure>)
    requires s.current.Some? && Ended(s, ended).Returned? && !NotSeen(Ended(s, ended).sup)
    ensures Ended(s, ended).err == ended
  {
  }

  /** Whenever it returns after a look found the context done, the error is that of the runtime drained in this turn. */
  lemma OvertakenReturnsItsResult(o: Outcome, turn: Turn)
    requires Reachable(o) && o.Running? && TurnReady(o.sup, turn) && !Done(o.sup)
    requires Iterate(o.sup, turn).Returned? && !NotSeen(Iterate(o.sup, turn).sup)
    ensures var err := Iterate(o.sup, turn).err;
            match turn.arm
            case ReloadArm(load) => o.sup.current.Some? && err == load.result && err.Some?
            case DoneArm(ended, _) => err == ended
            case ShutdownArm(result) => err == if o.sup.current == None then None else result
            case ReadyArm => false
  {
    LoadFinds(o, turn);
    SelectFinds(o.sup, turn);
    hide Reachable, AtSelect, LoadConfiguration, Ended;
    if turn.arm.ShutdownArm? { ShutdownReturns(o, turn); }
    if turn.arm.ReloadArm? && o.sup.current.Some? { LoadFails(AtSelect(o.sup, turn), turn.arm.load); }
    if turn.arm.DoneArm? { EndFails(ObserveReadiness(Signal(AtSelect(o.sup, turn), turn.arm.ready)), turn.arm.ended); }
    hide StopCurrent, ObserveReadiness, Signal;
  }
  /** A reload that shutdown overtakes returns the error of the runtime it drained, and goes on if that had none. */
  lemma OvertakenReload(o: Outcome, turn: Turn)
    requires Reachable(o) && o.Running? && TurnReady(o.sup, turn) && !Done(o.sup) && turn.arm.ReloadArm?
    requires o.sup.current.Some? && Iterate(o.sup, turn).sup.current == None
    ensures Iterate(o.sup, turn).Returned? <==> turn.arm.load.result.Some?
    ensures Iterate(o.sup, turn).Returned? ==> Iterate(o.sup, turn).err == turn.arm.load.result
  {
    LoadFinds(o, turn);
    SelectFinds(o.sup, turn);
    hide Reachable, AtSelect, LoadConfiguration;
    LoadDrains(AtSelect(o.sup, turn), turn.arm.load);
  }

  lemma LoadDrains(s: Sup, load: Load)
    requires s.current.Some? && !s.current.value.finished
    ensures LoadConfiguration(s, false, load).0.current == None ==> LoadConfiguration(s, false, load).1 == load.result
  {
  }

  // ------------------------------------------------------------------ what a listener failure is

  /** The failure is `part`, or has it among the failures it joins. */
  predicate Among(part: Failure, e: Failure) {
    e == part || (e.Joined? && (Among(part, e.first) || Among(part, e.second)))
  }

  lemma {:induction false} ListenerFailureIsAmong(e: Failure)
    ensures IsListenerFailure(e) <==> exists n :: Among(RunFailure(true, n), e)
  {
    if e.Joined? {
      ListenerFailureIsAmong(e.first);
      ListenerFailureIsAmong(e.second);
      assert forall n :: Among(RunFailure(true, n), e.first) ==> Among(RunFailure(true, n), e);
      assert forall n :: Among(RunFailure(true, n), e.second) ==> Among(RunFailure(true, n), e);
    } else if e.RunFailure? {
      assert Among(e, e);
    }
  }

  // ------------------------------------------------------------------ the loop does not spin

  function ReadyTurns(turns: seq<Turn>): nat {
    if turns == [] then 0 else (if turns[0].arm.ReadyArm? then 1 else 0) + ReadyTurns(turns[1..])
  }

  /** The current runtime may still wake the loop by becoming ready. */
  function ToWake(s: Sup): nat {
    if s.current.Some? && !s.current.value.serving && !s.current.value.ready then 1 else 0
  }

/** Waiting wakes nobody a second time: whoever is found ready and not serving was not ready before. */
  lemma SelectWakes(s: Sup, turn: Turn)
    requires Sound(s)
    ensures var w := AtSelect(s, turn);
            && w.launches == s.launches && w.shutdownAt == s.shutdownAt && s.polls < w.polls && Sound(w)
            && (NotSeen(w) ==> ToWake(w) + (if ArmReady(w, ReadyArm) then 1 else 0) <= ToWake(s))
  {
    hide ObserveReadiness;
    if s.current.Some? { ObservedOnce(Look(s), turn.ready); } else { NobodyToObserve(Look(s), turn.ready); }
  }

  lemma NobodyToObserve(s: Sup, ready: bool)
    requires s.current == None
    ensures ObserveReadiness(Signal(s, ready)) == s
  {
  }

  lemma ObservingWakes(s: Sup, ready: bool)
    requires Sound(s)
    ensures var s' := ObserveReadiness(Signal(s, ready));
            && s'.launches == s.launches && s.polls <= s'.polls && s'.shutdownAt == s.shutdownAt && Sound(s')
            && (NotSeen(s') ==> ToWake(s') <= ToWake(s))
            && s'.current.Some? == s.current.Some?
  {
    hide ObserveReadiness;
    if s.current.Some? { ObservedOnce(s, ready); } else { NobodyToObserve(s, ready); }
  }

  lemma ActivateWakes(s: Sup, load: Load)
    ensures var s' := Activate(s, false, load).0;
            && ToWake(s') + s.launches <= s'.launches + ToWake(s)
            && s.polls <= s'.polls && s'.shutdownAt == s.shutdownAt
  {
  }

  lemma LoadWakes(s: Sup, load: Load)
    requires Sound(s)
    ensures var s' := LoadConfiguration(s, false, load).0;
            && (NotSeen(s') ==> ToWake(s') + s.launches <= s'.launches + ToWake(s))
            && s.polls <= s'.polls && s'.shutdownAt == s.shutdownAt
  {
    hide Activate, ObserveReadiness, Signal;
    ObservingWakes(Look(Look(s)), load.ready);
    ActivateWakes(ObserveReadiness(Signal(Look(Look(s)), load.ready)), load);
  }

  lemma EndWakes(s: Sup, ended: Option<Failure>)
    requires s.current.Some?
    ensures var s' := Ended(s, ended).sup;
            ToWake(s') + s.launches <= s'.launches && s.polls <= s'.polls && s'.shutdownAt == s.shutdownAt
  {
    hide IsListenerFailure;
  }

  lemma ReadyWakesOnce(s: Sup, turn: Turn)
    requires Sound(s) && TurnReady(s, turn) && NotSeen(Iterate(s, turn).sup)
    ensures var s' := Iterate(s, turn).sup;
            (if turn.arm.ReadyArm? then 1 else 0) + ToWake(s') + s.launches <= s'.launches + ToWake(s)
    ensures NotSeen(s)
  {
    var w := AtSelect(s, turn);
    SelectWakes(s, turn);
    hide AtSelect, LoadConfiguration, Ended, ObserveReadiness, Signal, ToWake;
    StopWakes(Look(s), turn.result);
    if !Done(s) {
      match turn.arm
      case ReloadArm(load) => LoadWakes(w, load);
      case DoneArm(ended, ready) => ObservingWakes(w, ready); EndWakes(ObserveReadiness(Signal(w, ready)), ended);
      case ReadyArm =>
      case ShutdownArm(result) => StopWakes(w, result);
    }
  }

  lemma StopWakes(s: Sup, result: Option<Failure>)
    ensures var s' := StopCurrent(s, result).0;
            ToWake(s') == 0 && s'.launches == s.launches && s'.polls == s.polls && s'.shutdownAt == s.shutdownAt
  {
  }

  lemma {:induction false} RunWakes(o: Outcome, turns: seq<Turn>)
    requires OutcomeOk(o) && IsRun(o, turns) && NotSeen(Exec(o, turns).sup)
    ensures NotSeen(o.sup)
    ensures ReadyTurns(turns) + ToWake(Exec(o, turns).sup) + o.sup.launches
            <= Exec(o, turns).sup.launches + ToWake(o.sup)
    decreases |turns|
  {
    if turns != [] {
      var next := Iterate(o.sup, turns[0]);
      IterateKeeps(o.sup, turns[0]);
      assert Sound(o.sup);
      hide OutcomeOk, Iterate, TurnReady, NotSeen, ToWake;
      RunWakes(next, turns[1..]);
      ReadyWakesOnce(o.sup, turns[0]);
    }
  }

  /** Readiness wakes the loop once a launch: while no shutdown is seen there are no more such turns than launches. */
  lemma ReadinessWakesOnce(foreground: bool, shutdownAt: nat, load: Load, turns: seq<Turn>)
    requires IsRun(Boot(foreground, shutdownAt, load), turns)
    requires NotSeen(Exec(Boot(foreground, shutdownAt, load), turns).sup)
    ensures ReadyTurns(turns) <= Exec(Boot(foreground, shutdownAt, load), turns).sup.launches
  {
    var o := Boot(foreground, shutdownAt, load);
    LoadKeeps(Sup(foreground, shutdownAt, None, None, 0, 0, [], 0, [], [], []), true, load);
    assert ToWake(o.sup) <= o.sup.launches by { hide OutcomeOk; }
    hide LoadConfiguration;
    RunWakes(o, turns);
  }
}
