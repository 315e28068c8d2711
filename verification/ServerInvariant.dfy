/** The inductive invariant of a server run, and the proof that every step keeps it. */
module ServerInvariant {
  import opened Server

  /** How far the teardown has come. */
  function Stage(m: Main): nat {
    match m
    case Refusing => 1
    case ClosingListeners(_) => 2
    case Cancelling => 3
    case ClosingUpstream => 4
    case AwaitStartup => 5
    case Collecting => 6
    case Interrupting(_) => 7
    case AwaitClients => 8
    case Unlocking => 9
    case Returned => 10
    case _ => 0
  }

  /** Run has not taken the locks, has not started the resolver, or is binding and serving. */
  predicate Unlocked(m: Main) { m.Begin? || m.Idle? || m.Locking? }
  predicate Preparing(m: Main) { m.Connecting? || m.Claiming? || m.Spawning? }
  predicate Opening(m: Main) { m.Binding? || m.Listening? || m.Bound? || m.Selecting? }

  function Live(handler: map<Conn, Handler>): set<Conn> {
    set c | c in handler && !handler[c].Gone?
  }

  function Registered(handler: map<Conn, Handler>): set<Conn> {
    set c | c in handler && (handler[c].Serving? || handler[c].Leaving?)
  }

  /** The registry and the wait group count exactly the handlers that have not ended. */
  ghost predicate HandlersOk(s: State) {
    && s.registry.clients == Registered(s.handler)
    && s.registry.live == |Live(s.handler)|
    && s.handler.Keys <= s.seen
  }

  ghost predicate AcceptsOk(s: State) {
    && |s.accept| <= |s.listener| <= s.enabled
    && (s.accept == [] ==> s.handler.Keys == {})
    && (forall l | 0 <= l < |s.accept| && s.accept[l].Accepted? ::
          s.accept[l].conn in s.seen && s.accept[l].conn !in s.handler)
    && (forall l, m | 0 <= l < m < |s.accept| && s.accept[l].Accepted? && s.accept[m].Accepted? ::
          s.accept[l].conn != s.accept[m].conn)
  }

  /** Loops, claims and locks belong to their parts of the run. */
  ghost predicate PhaseOk(s: State) {
    && (Unlocked(s.main) || Preparing(s.main) ==> s.resolver.Unborn? && s.listener == [])
    && (Unlocked(s.main) ==> s.upstream == Absent && !s.locks)
    && (Preparing(s.main) || Opening(s.main) ==> s.locks)
    && (s.main.Connecting? ==> s.upstream == Absent)
    && (Opening(s.main) || s.main.Claiming? || s.main.Spawning? ==> s.upstream == Open)
    && (Opening(s.main) ==> !s.resolver.Unborn?)
    && (s.main.Bound? ==> |s.accept| < |s.listener|)
    && (s.main.Listening? ==> |s.listener| < s.enabled)
    && (!s.main.Returned? && (s.upstream != Absent || !s.resolver.Unborn? || s.listener != []) ==> s.locks)
    && (s.main.Returned? ==> !s.locks)
  }

  /** A startup refresh is finished when the resolver has passed it, and only then. */
  ghost predicate ClaimsOk(s: State) {
    && (s.resolver.Unborn? && !s.main.Claiming? && !s.main.Spawning? ==> s.finishes == [])
    && (s.main.Claiming? ==> |s.finishes| <= s.enabled)
    && (s.main.Spawning? || !s.resolver.Unborn? ==> |s.finishes| == s.enabled)
    && (s.resolver.Finishing? ==> s.resolver.next <= |s.finishes|)
    && (forall k | 0 <= k < |s.finishes| ::
          s.finishes[k] == if s.resolver.Resolved? || (s.resolver.Finishing? && k < s.resolver.next) then 1 else 0)
  }

  ghost predicate TeardownOk(s: State) {
    && (s.registry.closing <==> Stage(s.main) >= 2)
    && (s.main.ClosingListeners? ==> forall l | 0 <= l < s.main.next && l < |s.listener| :: !s.listener[l])
    && (Stage(s.main) >= 3 ==> forall l | 0 <= l < |s.listener| :: !s.listener[l])
    && (s.canceled <==> Stage(s.main) >= 4)
    && (Stage(s.main) >= 5 ==> s.upstream != Open)
    && (Stage(s.main) >= 6 ==> Settled(s.resolver))
  }

  /** From the snapshot on, the connection of every client still served is closed or about to be. */
  ghost predicate InterruptsOk(s: State) {
    && (s.main.Interrupting? ==>
          forall c | c in s.handler && s.handler[c].Serving? :: c in s.closed || c in s.main.rest)
    && (Stage(s.main) >= 8 ==> forall c | c in s.handler && s.handler[c].Serving? :: c in s.closed)
    && (Stage(s.main) >= 9 ==> s.registry.live == 0)
  }

  ghost predicate Inv(s: State) {
    HandlersOk(s) && AcceptsOk(s) && PhaseOk(s) && ClaimsOk(s) && TeardownOk(s) && InterruptsOk(s)
  }

  lemma InitInv(enabled: nat)
    ensures Inv(Init(enabled))
  {
  }

  // ------------------------------------------------------------------ what a step leaves alone

  /** Only Run changes how far it is, what it holds and what it has opened. */
  lemma OthersLeaveRun(s: State, step: Step)
    requires Enabled(s, step) && !step.Run?
    ensures var s' := Next(s, step);
            && s'.enabled == s.enabled && s'.locks == s.locks && s'.upstream == s.upstream && s'.canceled == s.canceled
            && s'.listener == s.listener
            && if step.Interrupt? then s.main.Interrupting? && s'.main == Interrupting(s.main.rest - {step.conn})
               else s'.main == s.main
  {
    hide ResolverStep, StartClient;
  }

  /** Accept loops stay, and only the resolver finishes refreshes. */
  lemma OthersLeaveLoops(s: State, step: Step)
    requires Enabled(s, step) && !step.Run?
    ensures var s' := Next(s, step);
            && |s'.accept| == |s.accept| && s'.registry.closing == s.registry.closing
            && (!step.Resolve? ==> s'.resolver == s.resolver && s'.finishes == s.finishes)
            && (s'.resolver.Unborn? <==> s.resolver.Unborn?) && s.closed <= s'.closed && s.seen <= s'.seen
  {
    hide ResolverStep, StartClient;
  }

  // ------------------------------------------------------------------ handlers

  lemma HandlerStart(s: State, l: nat)
    requires HandlersOk(s) && AcceptsOk(s) && Enabled(s, Start(l))
    ensures HandlersOk(StartClient(s, l))
  {
    var s' := StartClient(s, l);
    var c := s.accept[l].conn;
    if c in s'.handler {
      assert Live(s'.handler) == Live(s.handler) + {c};
      assert Registered(s'.handler) == Registered(s.handler) + {c};
    } else {
      assert s'.handler == s.handler;
    }
  }

  lemma HandlerMoves(s: State, s': State, c: Conn, to: Handler)
    requires HandlersOk(s) && c in s.handler && s'.handler == s.handler[c := to] && s'.seen == s.seen
    requires match s.handler[c]
             case Serving => to.Leaving? && s'.registry == s.registry
             case Leaving => to.Deleted? && s'.registry == Forget(s.registry, c)
             case Deleted => to.Gone? && s'.registry == SignOff(s.registry)
             case Gone => false
    ensures HandlersOk(s')
  {
    assert c in Live(s.handler);
    assert Live(s'.handler) == if to.Gone? then Live(s.handler) - {c} else Live(s.handler);
    assert Registered(s'.handler) == if to.Deleted? then Registered(s.handler) - {c} else Registered(s.handler);
  }

  lemma KeepsHandlers(s: State, step: Step)
    requires HandlersOk(s) && AcceptsOk(s) && Enabled(s, step)
    ensures HandlersOk(Next(s, step))
  {
    match step
    case Start(l) => HandlerStart(s, l);
    case Leave(c) => hide HandlersOk; HandlerMoves(s, Next(s, step), c, Leaving);
    case Delete(c) => hide HandlersOk; HandlerMoves(s, Next(s, step), c, Deleted);
    case Done(c) => hide HandlersOk; HandlerMoves(s, Next(s, step), c, Gone);
    case Run(_) => hide StartupStep, TeardownStep;
    case _ => hide ResolverStep;
  }

  // ------------------------------------------------------------------ accept loops

  lemma AcceptsFrame(s: State, s': State)
    requires AcceptsOk(s) && s'.accept == s.accept && s'.handler.Keys == s.handler.Keys && s.seen <= s'.seen
    requires |s.listener| <= |s'.listener| <= s'.enabled
    ensures AcceptsOk(s')
  {
  }

  /** One accept loop moves; its connection was not taken by any other. */
  lemma AcceptMoves(s: State, s': State, l: nat, to: Accept)
    requires AcceptsOk(s) && l < |s.accept| && s'.accept == s.accept[l := to] && s.seen <= s'.seen
    requires s'.listener == s.listener && s'.enabled == s.enabled
    requires s'.handler.Keys <= s.handler.Keys + (if s.accept[l].Accepted? then {s.accept[l].conn} else {})
    requires s.handler.Keys <= s.seen
    requires to.Accepted? ==> s.accept[l].Accepting? && to.conn !in s.seen && to.conn in s'.seen
    ensures AcceptsOk(s')
  {
  }

  lemma AcceptsRun(s: State, ok: bool)
    requires AcceptsOk(s) && PhaseOk(s) && MainEnabled(s, ok)
    ensures AcceptsOk(MainStep(s, ok))
  {
    if TearingDown(s.main) {
      hide TeardownStep, PhaseOk;
      AcceptsFrame(s, MainStep(s, ok));
    } else {
      AcceptsStartup(s, ok);
    }
  }

  lemma AcceptsStartup(s: State, ok: bool)
    requires AcceptsOk(s) && PhaseOk(s) && MainEnabled(s, ok) && !TearingDown(s.main)
    ensures AcceptsOk(StartupStep(s, ok))
  {
    if s.main.Bound? {
      assert |s.accept| < |s.listener|;
      hide PhaseOk;
    } else {
      assert s.main.Listening? ==> |s.listener| < s.enabled;
      assert |s.listener| <= |StartupStep(s, ok).listener| <= s.enabled by { hide PhaseOk; }
      assert StartupStep(s, ok).accept == s.accept by { hide PhaseOk, AcceptsOk; }
      hide PhaseOk, AcceptsOk, StartupStep;
      AcceptsFrame(s, StartupStep(s, ok));
    }
  }

  lemma KeepsAccepts(s: State, step: Step)
    requires HandlersOk(s) && AcceptsOk(s) && PhaseOk(s) && Enabled(s, step)
    ensures AcceptsOk(Next(s, step))
  {
    var s' := Next(s, step);
    if step.Run? {
      AcceptsRun(s, step.ok);
    } else if step.Arrive? || step.AcceptFails? || step.Start? {
      assert s.handler.Keys <= s.seen;
      hide AcceptsOk, PhaseOk, HandlersOk;
      AcceptMoves(s, s', step.listener, s'.accept[step.listener]);
    } else {
      hide PhaseOk;
      OthersLeaveRun(s, step);
      OthersLeaveLoops(s, step);
      AcceptsFrame(s, s');
    }
  }

  // ------------------------------------------------------------------ phases

  lemma PhaseFrame(s: State, s': State)
    requires PhaseOk(s) && s'.locks == s.locks && s'.upstream == s.upstream && s'.enabled == s.enabled
    requires s'.listener == s.listener && |s'.accept| == |s.accept| && (s'.resolver.Unborn? <==> s.resolver.Unborn?)
    requires s'.main == s.main || (s.main.Interrupting? && s'.main.Interrupting?)
    ensures PhaseOk(s')
  {
  }

  lemma PhaseStartup(s: State, ok: bool)
    requires PhaseOk(s) && AcceptsOk(s) && MainEnabled(s, ok) && !TearingDown(s.main)
    ensures PhaseOk(StartupStep(s, ok))
  {
    assert |s.accept| <= |s.listener|;
    hide AcceptsOk;
  }

  lemma TeardownHolds(s: State)
    requires TearingDown(s.main)
    ensures var s' := TeardownStep(s);
            && (s'.upstream != Absent ==> s.upstream != Absent)
            && (s'.main.Returned? ==> !s'.locks)
            && (!s'.main.Returned? ==> s'.locks == s.locks && !s.main.Returned?)
  {
  }

  lemma PhaseTeardown(s: State)
    requires PhaseOk(s) && TearingDown(s.main)
    ensures PhaseOk(TeardownStep(s))
  {
    hide TeardownStep;
    TeardownHolds(s);
  }

  lemma KeepsPhase(s: State, step: Step)
    requires PhaseOk(s) && AcceptsOk(s) && Enabled(s, step)
    ensures PhaseOk(Next(s, step))
  {
    hide PhaseOk, AcceptsOk, TeardownStep, StartupStep;
    if step.Run? {
      if TearingDown(s.main) { PhaseTeardown(s); } else { PhaseStartup(s, step.ok); }
    } else {
      OthersLeaveRun(s, step);
      OthersLeaveLoops(s, step);
      PhaseFrame(s, Next(s, step));
    }
  }

  // ------------------------------------------------------------------ claims

  lemma ClaimsStartup(s: State, ok: bool)
    requires ClaimsOk(s) && PhaseOk(s) && MainEnabled(s, ok) && !TearingDown(s.main)
    ensures ClaimsOk(StartupStep(s, ok))
  {
    hide CtxDone;
  }

  lemma ClaimsTeardown(s: State)
    requires ClaimsOk(s) && TearingDown(s.main)
    ensures ClaimsOk(TeardownStep(s))
  {
    hide TeardownStep;
  }

  lemma ClaimsResolve(s: State)
    requires ClaimsOk(s) && Enabled(s, Resolve)
    ensures ClaimsOk(ResolverStep(s))
  {
  }

  lemma ClaimsFrame(s: State, s': State)
    requires ClaimsOk(s) && s'.finishes == s.finishes && s'.resolver == s.resolver && s'.enabled == s.enabled
    requires s'.main == s.main || (s.main.Interrupting? && s'.main.Interrupting?)
    ensures ClaimsOk(s')
  {
  }

  lemma KeepsClaims(s: State, step: Step)
    requires ClaimsOk(s) && PhaseOk(s) && Enabled(s, step)
    ensures ClaimsOk(Next(s, step))
  {
    hide ClaimsOk, PhaseOk, StartupStep, TeardownStep, ResolverStep;
    if step.Run? { if TearingDown(s.main) { ClaimsTeardown(s); } else { ClaimsStartup(s, step.ok); } }
    else if step.Resolve? { ClaimsResolve(s); }
    else {
      OthersLeaveRun(s, step);
      OthersLeaveLoops(s, step);
      ClaimsFrame(s, Next(s, step));
    }
  }

  // ------------------------------------------------------------------ teardown

  lemma TeardownFrame(s: State, s': State)
    requires TeardownOk(s) && s'.registry.closing == s.registry.closing && s'.listener == s.listener
    requires s'.canceled == s.canceled && s'.upstream == s.upstream
    requires Settled(s.resolver) ==> Settled(s'.resolver)
    requires s'.main == s.main || (s.main.Interrupting? && s'.main.Interrupting?)
    ensures TeardownOk(s')
  {
  }

  lemma TeardownStartup(s: State, ok: bool)
    requires TeardownOk(s) && MainEnabled(s, ok) && !TearingDown(s.main)
    ensures TeardownOk(StartupStep(s, ok))
  {
    assert Stage(s.main) == 0 && Stage(StartupStep(s, ok).main) <= 1;
    hide StartupStep;
  }

  lemma TeardownAdvances(s: State)
    requires TeardownOk(s) && TearingDown(s.main) && MainEnabled(s, true)
    ensures TeardownOk(TeardownStep(s))
  {
  }

  lemma KeepsTeardown(s: State, step: Step)
    requires TeardownOk(s) && Enabled(s, step)
    ensures TeardownOk(Next(s, step))
  {
    hide TeardownOk, TeardownStep, StartupStep;
    if step.Run? {
      if TearingDown(s.main) { TeardownAdvances(s); } else { TeardownStartup(s, step.ok); }
    } else {
      OthersLeaveRun(s, step);
      OthersLeaveLoops(s, step);
      TeardownFrame(s, Next(s, step));
    }
  }

  // ------------------------------------------------------------------ interrupts

  lemma InterruptsTeardown(s: State)
    requires InterruptsOk(s) && HandlersOk(s) && TearingDown(s.main) && MainEnabled(s, true)
    ensures InterruptsOk(TeardownStep(s))
  {
    if s.main.Collecting? {
      assert forall c | c in s.handler && s.handler[c].Serving? :: c in Registered(s.handler);
    }
    hide HandlersOk;
    var stage := Stage(TeardownStep(s).main);
    assert stage == 7 ==> s.main.Collecting?;
    assert stage == 8 ==> s.main.Interrupting?;
    assert stage == 9 ==> s.main.AwaitClients?;
    assert stage == 10 ==> Stage(s.main) >= 9;
    assert s.main.Collecting? ==> TeardownStep(s).main == Interrupting(s.registry.clients);
    hide TeardownStep;
  }

  lemma InterruptsStartup(s: State, ok: bool)
    requires MainEnabled(s, ok) && !TearingDown(s.main)
    ensures InterruptsOk(StartupStep(s, ok))
  {
    assert Stage(StartupStep(s, ok).main) <= 1;
    hide StartupStep;
  }

  /** Once new clients are refused nobody is admitted, so nobody more is ever served. */
  lemma NoneAdmitted(s: State, step: Step)
    requires Enabled(s, step) && s.registry.closing
    ensures var s' := Next(s, step);
            && s'.handler.Keys == s.handler.Keys
            && (forall c | c in s'.handler && s'.handler[c].Serving? :: s.handler[c].Serving?)
            && s'.registry.live <= s.registry.live
  {
    hide StartupStep, TeardownStep, ResolverStep;
    if step.Start? {
      assert StartClient(s, step.listener).handler == s.handler && StartClient(s, step.listener).registry == s.registry;
    }
    hide StartClient;
  }

  lemma ClosingStays(s: State, step: Step)
    requires Enabled(s, step) && s.registry.closing
    ensures Next(s, step).registry.closing
  {
    hide StartupStep, TeardownStep, ResolverStep, StartClient;
  }

  lemma KeepsInterrupts(s: State, step: Step)
    requires InterruptsOk(s) && HandlersOk(s) && TeardownOk(s) && Enabled(s, step)
    ensures InterruptsOk(Next(s, step))
  {
    hide StartupStep, TeardownStep;
    if step.Run? {
      hide InterruptsOk, HandlersOk, TeardownOk;
      if TearingDown(s.main) { InterruptsTeardown(s); } else { InterruptsStartup(s, step.ok); }
    } else {
      OthersLeaveRun(s, step);
      OthersLeaveLoops(s, step);
      if Stage(s.main) >= 2 { NoneAdmitted(s, step); }
      var s' := Next(s, step);
      assert step.Interrupt? ==> s'.closed == s.closed + {step.conn};
      assert Stage(s'.main) == Stage(s.main);
      hide Next, HandlersOk, TeardownOk;
    }
  }

  lemma StepKeepsInv(s: State, step: Step)
    requires Inv(s) && Enabled(s, step)
    ensures Inv(Next(s, step)) && Next(s, step).enabled == s.enabled
  {
    KeepsHandlers(s, step);
    KeepsAccepts(s, step);
    KeepsPhase(s, step);
    KeepsClaims(s, step);
    KeepsTeardown(s, step);
    KeepsInterrupts(s, step);
    hide HandlersOk, AcceptsOk, PhaseOk, ClaimsOk, TeardownOk, InterruptsOk;
    hide StartupStep, TeardownStep, ResolverStep;
    if !step.Run? { OthersLeaveRun(s, step); OthersLeaveLoops(s, step); }
  }

  lemma {:induction false} RunKeepsInv(s: State, steps: seq<Step>)
    requires Inv(s) && IsRun(s, steps)
    ensures Inv(Exec(s, steps)) && Exec(s, steps).enabled == s.enabled
    decreases |steps|
  {
    if steps != [] {
      StepKeepsInv(s, steps[0]);
      RunKeepsInv(Next(s, steps[0]), steps[1..]);
    }
  }
}
