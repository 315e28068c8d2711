/** When a server run comes to its end, and why: a terminal accept failure, the context, or a failed start. */
module ServerReturns {
  import opened Wrappers
  import opened Server
  import opened ServerInvariant
  import opened ServerProperties

  // ------------------------------------------------------------------ it returns

  /** Every step is one that needs neither an answer from upstream nor anything from a client. */
  predicate AllForced(s: State, steps: seq<Step>)
    requires IsRun(s, steps)
    decreases |steps|
  {
    steps != [] ==> Forced(s, steps[0]) && AllForced(Next(s, steps[0]), steps[1..])
  }

  /** From `s` on, forced steps bring Run to return, for the reason it has now. */
  ghost predicate Comes(s: State) {
    exists steps :: IsRun(s, steps) && AllForced(s, steps)
                    && Exec(s, steps).main.Returned? && Exec(s, steps).ending == s.ending
  }

  lemma ComesAfter(s: State, step: Step)
    requires Enabled(s, step) && Forced(s, step) && Comes(Next(s, step)) && Next(s, step).ending == s.ending
    ensures Comes(s)
  {
    hide Enabled, Next, Forced;
    var rest :| IsRun(Next(s, step), rest) && AllForced(Next(s, step), rest)
                && Exec(Next(s, step), rest).main.Returned? && Exec(Next(s, step), rest).ending == s.ending;
    var all := [step] + rest;
    assert all[1..] == rest;
    assert IsRun(s, all) && AllForced(s, all) && Exec(s, all) == Exec(Next(s, step), rest);
  }

  /** The reason stays what it was once Run tears down. */
  lemma EndingStays(s: State, step: Step)
    requires Enabled(s, step) && TearingDown(s.main)
    ensures Next(s, step).ending == s.ending && TearingDown(Next(s, step).main)
  {
    hide StartClient, ResolverStep, TeardownStep;
  }

  lemma Drains(s: State)
    requires Inv(s) && s.registry.closing
    ensures Comes(s)
    decreases Work(s)
  {
    assert TearingDown(s.main);
    hide Inv, Work, Enabled, Forced, Next, Comes;
    if s.main.Returned? {
      AlreadyThere(s);
    } else {
      var step := DrainGoesOn(s);
      StepKeepsInv(s, step);
      WorkDrops(s, step) by { ForcedIsInside(s, step); }
      ForcedIsInside(s, step);
      ClosingStays(s, step);
      EndingStays(s, step);
      Drains(Next(s, step));
      ComesAfter(s, step);
    }
  }

  lemma AlreadyThere(s: State)
    requires s.main.Returned?
    ensures Comes(s)
  {
    assert IsRun(s, []) && AllForced(s, []) && Exec(s, []) == s;
  }

  lemma ForcedIsInside(s: State, step: Step)
    requires Enabled(s, step) && Forced(s, step)
    ensures !Outside(step)
  {
  }

  /**
   A server that serves, once an accept loop has failed for good or the context is done, can leave
   its select at once, and comes by forced steps to return.
   */
  lemma FailureEndsRun(s: State, ok: bool)
    requires Reachable(s) && s.main.Selecting? && (s.failures > 0 || CtxDone(s))
    ensures Enabled(s, Run(ok)) && Next(s, Run(ok)).main.Refusing? && Comes(Next(s, Run(ok)))
    ensures Next(s, Run(ok)).ending == ListenerFailed ==> s.failures > 0
    ensures Next(s, Run(ok)).ending == Cancelled ==> CtxDone(s)
    ensures Next(s, Run(ok)).ending in {ListenerFailed, Cancelled}
  {
    ReachableHasInv(s);
    StepKeepsInv(s, Run(ok));
    var refusing := Next(s, Run(ok));
    assert refusing.main.Refusing?;
    hide Inv, Comes;
    RefusingComes(refusing);
  }

  lemma RefusingComes(s: State)
    requires Inv(s) && s.main.Refusing?
    ensures Comes(s)
  {
    var step := Run(true);
    StepKeepsInv(s, step);
    assert Enabled(s, step) && Forced(s, step) && Next(s, step).registry.closing && Next(s, step).ending == s.ending;
    hide Inv, Comes, Next;
    Drains(Next(s, step));
    ComesAfter(s, step);
  }

  // ------------------------------------------------------------------ and why

  /** An accept loop fails for good: its listener is open and nobody has asked the server to stop. */
  predicate FailsForGood(s: State, step: Step)
    requires Enabled(s, step)
  {
    step.AcceptFails? && step.terminal && s.listener[step.listener] && !CtxDone(s)
  }

  function TerminalFailures(s: State, steps: seq<Step>): nat
    requires IsRun(s, steps)
    decreases |steps|
  {
    if steps == [] then 0
    else (if FailsForGood(s, steps[0]) then 1 else 0) + TerminalFailures(Next(s, steps[0]), steps[1..])
  }

  lemma StepCountsFailure(s: State, step: Step)
    requires Enabled(s, step)
    ensures Next(s, step).failures == s.failures + if FailsForGood(s, step) then 1 else 0
  {
    hide StartClient, ResolverStep, StartupStep, TeardownStep;
  }

  lemma {:induction false} FailuresCounted(s: State, steps: seq<Step>)
    requires IsRun(s, steps)
    ensures Exec(s, steps).failures == s.failures + TerminalFailures(s, steps)
    decreases |steps|
  {
    hide Enabled, Next, FailsForGood;
    if steps != [] {
      StepCountsFailure(s, steps[0]);
      FailuresCounted(Next(s, steps[0]), steps[1..]);
    }
  }

  /** What the reason for the teardown says about the run. */
  ghost predicate EndingOk(s: State) {
    && (s.ending.Pending? <==> !TearingDown(s.main))
    && (s.ending.Cancelled? ==> s.parentDone)
    && (s.ending.ListenerFailed? ==> s.bound && s.failures > 0)
    && (s.bound ==> s.main.Selecting? || s.ending.ListenerFailed? || s.ending.Cancelled?)
    && (s.main.Selecting? ==> s.bound)
  }

  lemma StartupEndsWell(s: State, ok: bool)
    requires EndingOk(s) && MainEnabled(s, ok) && !TearingDown(s.main) && (s.canceled ==> TearingDown(s.main))
    ensures EndingOk(StartupStep(s, ok))
  {
  }

  lemma EndingFrame(s: State, step: Step)
    requires EndingOk(s) && Enabled(s, step) && (!step.Run? || TearingDown(s.main))
    ensures EndingOk(Next(s, step))
  {
    StepCountsFailure(s, step);
    hide StartClient, ResolverStep, TeardownStep;
  }

  lemma OneStepEndsWell(s: State, step: Step)
    requires Inv(s) && EndingOk(s) && Enabled(s, step)
    ensures EndingOk(Next(s, step))
  {
    assert s.canceled ==> TearingDown(s.main);
    hide Inv, EndingOk;
    if step.Run? && !TearingDown(s.main) { StartupEndsWell(s, step.ok); } else { EndingFrame(s, step); }
    hide StartClient, ResolverStep, TeardownStep, StartupStep;
  }

  lemma {:induction false} RunEndsWell(s: State, steps: seq<Step>)
    requires Inv(s) && EndingOk(s) && IsRun(s, steps)
    ensures EndingOk(Exec(s, steps))
    decreases |steps|
  {
    hide Inv, EndingOk, Enabled, Next;
    if steps != [] {
      OneStepEndsWell(s, steps[0]);
      StepKeepsInv(s, steps[0]);
      RunEndsWell(Next(s, steps[0]), steps[1..]);
    }
  }

  /**
   Why Run goes on to its teardown: for a cancellation only when it was asked to stop, for a listener
   failure only when an accept loop failed for good, and one of the two if it had come to serve.
   */
  lemma EndsForItsReason(enabled: nat, steps: seq<Step>)
    requires IsRun(Init(enabled), steps) && TearingDown(Exec(Init(enabled), steps).main)
    ensures var s := Exec(Init(enabled), steps);
            && s.ending != Pending
            && (s.ending == Cancelled ==> s.parentDone)
            && (s.ending == ListenerFailed ==> s.bound && TerminalFailures(Init(enabled), steps) > 0)
            && (s.bound ==> s.ending == ListenerFailed || s.ending == Cancelled)
  {
    InitInv(enabled);
    RunEndsWell(Init(enabled), steps);
    FailuresCounted(Init(enabled), steps);
    hide IsRun, Exec, Inv;
  }

  /** A failure that is not for good, and one after the server was asked to stop, leave Run where it is. */
  lemma TemporaryFailureIsNothing(s: State, l: nat, terminal: bool)
    requires Enabled(s, AcceptFails(l, terminal)) && !FailsForGood(s, AcceptFails(l, terminal))
    ensures var s' := Next(s, AcceptFails(l, terminal));
            && s' == s.(accept := s'.accept) && (s.listener[l] && !CtxDone(s) ==> s' == s)
  {
  }
  // ------------------------------------------------------------------ the first failure is what Run returns

  /** The step of Run that fails, if it is one that can. */
  function FailureOf(s: State, step: Step): Option<Ending> {
    if step != Run(false) then None
    else if s.main.Locking? then Some(LocksFailed)
    else if s.main.Connecting? then Some(NoClient)
    else if s.main.Listening? then Some(BindFailed)
    else None
  }

  function FirstFailure(s: State, steps: seq<Step>): Option<Ending>
    requires IsRun(s, steps)
    decreases |steps|
  {
    if steps == [] then None
    else if FailureOf(s, steps[0]).Some? then FailureOf(s, steps[0])
    else FirstFailure(Next(s, steps[0]), steps[1..])
  }

  predicate SetupFailed(e: Ending) {
    e.LocksFailed? || e.NoClient? || e.BindFailed?
  }

  lemma StepFails(s: State, step: Step)
    requires Enabled(s, step) && (s.ending.Pending? <==> !TearingDown(s.main))
    ensures var s' := Next(s, step);
            if FailureOf(s, step).Some? then
              s'.ending == FailureOf(s, step).value && TearingDown(s'.main) && s'.locks == s.locks
            else s'.ending == s.ending || (s.ending.Pending? && !SetupFailed(s'.ending))
  {
    hide StartClient, ResolverStep;
    if step.Run? && TearingDown(s.main) { EndingStays(s, step); hide TeardownStep; }
  }

  lemma {:induction false} EndingIsFirstFailure(s: State, steps: seq<Step>)
    requires Inv(s) && EndingOk(s) && IsRun(s, steps) && !SetupFailed(s.ending)
    ensures if FirstFailure(s, steps).Some? then Exec(s, steps).ending == FirstFailure(s, steps).value
            else !SetupFailed(Exec(s, steps).ending)
    decreases |steps|
  {
    if steps != [] {
      var s' := Next(s, steps[0]);
      StepFails(s, steps[0]);
      StepKeepsInv(s, steps[0]);
      OneStepEndsWell(s, steps[0]);
      hide Inv, EndingOk, Enabled, Next, FailureOf, TearingDown;
      if FailureOf(s, steps[0]).Some? { EndingKept(s', steps[1..]); } else { EndingIsFirstFailure(s', steps[1..]); }
    }
  }

  lemma {:induction false} EndingKept(s: State, steps: seq<Step>)
    requires IsRun(s, steps) && TearingDown(s.main)
    ensures Exec(s, steps).ending == s.ending && TearingDown(Exec(s, steps).main)
    decreases |steps|
  {
    hide Enabled, Next, TearingDown;
    if steps != [] {
      EndingStays(s, steps[0]);
      EndingKept(Next(s, steps[0]), steps[1..]);
    }
  }

  /** Run gives up at its first failing operation and returns that failure; it returns none that did not happen. */
  lemma FailureIsReturned(enabled: nat, steps: seq<Step>)
    requires IsRun(Init(enabled), steps)
    ensures var first, s := FirstFailure(Init(enabled), steps), Exec(Init(enabled), steps);
            if first.Some? then s.ending == first.value && TearingDown(s.main) else !SetupFailed(s.ending)
  {
    InitInv(enabled);
    EndingIsFirstFailure(Init(enabled), steps);
    RunEndsWell(Init(enabled), steps);
    FailuresAreSetup(Init(enabled), steps);
    hide Inv, IsRun, Exec;
  }

  lemma {:induction false} FailuresAreSetup(s: State, steps: seq<Step>)
    requires IsRun(s, steps)
    ensures FirstFailure(s, steps).Some? ==> SetupFailed(FirstFailure(s, steps).value)
    decreases |steps|
  {
    if steps != [] { FailuresAreSetup(Next(s, steps[0]), steps[1..]); }
  }

  // ------------------------------------------------------------------ a start that is cancelled, or is for nothing

  /** Nothing has been taken, opened or started. */
  predicate Untouched(s: State) {
    && (s.main.Begin? || s.main.Idle? || TearingDown(s.main))
    && !s.locks && s.upstream == Absent && s.finishes == [] && s.resolver.Unborn? && s.listener == [] && !s.bound
  }

  /** A start that the context overtook: nothing more is to be served. */
  ghost predicate Overtaken(s: State, listeners: nat, accepts: nat) {
    CtxDone(s) && |s.accept| == accepts && |s.listener| + (if s.main.Listening? then 1 else 0) <= listeners
  }

  lemma OvertakenRuns(s: State, ok: bool, listeners: nat, accepts: nat)
    requires Overtaken(s, listeners, accepts) && MainEnabled(s, ok)
    ensures Overtaken(MainStep(s, ok), listeners, accepts)
  {
    if TearingDown(s.main) { hide StartupStep; } else { hide TeardownStep; }
  }

  lemma OvertakenStays(s: State, step: Step, listeners: nat, accepts: nat)
    requires Overtaken(s, listeners, accepts) && Enabled(s, step)
    ensures Overtaken(Next(s, step), listeners, accepts)
  {
    if step.Run? { OvertakenRuns(s, step.ok, listeners, accepts); }
    hide StartClient, ResolverStep, MainStep;
  }

  lemma UntouchedRuns(s: State, ok: bool)
    requires Untouched(s) && (CtxDone(s) || s.enabled == 0) && MainEnabled(s, ok)
    ensures Untouched(MainStep(s, ok))
  {
  }

  lemma UntouchedStays(s: State, step: Step)
    requires Untouched(s) && (CtxDone(s) || s.enabled == 0) && Enabled(s, step)
    ensures Untouched(Next(s, step)) && (CtxDone(Next(s, step)) || Next(s, step).enabled == 0)
  {
    if step.Run? { UntouchedRuns(s, step.ok); }
    hide StartClient, ResolverStep, StartupStep, TeardownStep;
  }

  lemma {:induction false} OvertakenOverRun(s: State, steps: seq<Step>, listeners: nat, accepts: nat)
    requires Overtaken(s, listeners, accepts) && IsRun(s, steps)
    ensures Overtaken(Exec(s, steps), listeners, accepts)
    decreases |steps|
  {
    hide Overtaken, Enabled, Next;
    if steps != [] {
      OvertakenStays(s, steps[0], listeners, accepts);
      OvertakenOverRun(Next(s, steps[0]), steps[1..], listeners, accepts);
    }
  }

  /** Once the context is done no further accept loop is started, and a socket only if it was being opened. */
  lemma CancelledStartStops(s: State, steps: seq<Step>)
    requires CtxDone(s) && IsRun(s, steps)
    ensures var s' := Exec(s, steps);
            |s'.accept| == |s.accept| && |s'.listener| <= |s.listener| + if s.main.Listening? then 1 else 0
  {
    OvertakenOverRun(s, steps, |s.listener| + (if s.main.Listening? then 1 else 0), |s.accept|);
  }

  lemma {:induction false} UntouchedOverRun(s: State, steps: seq<Step>)
    requires Untouched(s) && (CtxDone(s) || s.enabled == 0) && IsRun(s, steps)
    ensures Untouched(Exec(s, steps))
    decreases |steps|
  {
    hide Untouched, Enabled, Next, CtxDone;
    if steps != [] {
      UntouchedStays(s, steps[0]);
      UntouchedOverRun(Next(s, steps[0]), steps[1..]);
    }
  }

  /** With no group enabled, or the context done before it begins, Run takes no lock and opens nothing. */
  lemma NothingToServe(enabled: nat, done: bool, steps: seq<Step>)
    requires enabled == 0 || done
    requires IsRun(Init(enabled).(parentDone := done), steps)
    ensures var s := Exec(Init(enabled).(parentDone := done), steps);
            !s.locks && s.upstream == Absent && s.finishes == [] && s.listener == [] && !s.bound
  {
    UntouchedOverRun(Init(enabled).(parentDone := done), steps);
  }
}
