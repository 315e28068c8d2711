/** Which client connections are admitted, and what becomes of every one that arrives. */
module ServerConnections {
  import opened Server
  import opened ServerProperties

  /** Nobody is to be admitted any more. */
  predicate Shut(s: State) {
    s.registry.closing || CtxDone(s)
  }

  lemma StepKeepsShut(s: State, step: Step)
    requires Enabled(s, step) && Shut(s)
    ensures Shut(Next(s, step)) && Next(s, step).handler.Keys == s.handler.Keys
  {
    hide StartupStep, TeardownStep, ResolverStep;
    if step.Run? {
      RunKeepsShut(s, step.ok);
    } else if step.Start? {
      assert StartClient(s, step.listener).handler == s.handler;
    }
    hide MainStep;
  }

  lemma RunKeepsShut(s: State, ok: bool)
    requires MainEnabled(s, ok) && Shut(s)
    ensures Shut(MainStep(s, ok)) && MainStep(s, ok).handler == s.handler
  {
    hide StartupStep;
  }

  /** From when the context is done, or new clients are refused, no client is admitted, however the run goes on. */
  lemma {:induction false} NobodyOnceShut(s: State, steps: seq<Step>)
    requires Shut(s) && IsRun(s, steps)
    ensures Shut(Exec(s, steps)) && Exec(s, steps).handler.Keys == s.handler.Keys
    decreases |steps|
  {
    hide Shut, Enabled, Next;
    if steps != [] {
      StepKeepsShut(s, steps[0]);
      NobodyOnceShut(Next(s, steps[0]), steps[1..]);
    }
  }

  // ------------------------------------------------------------------ no connection is forgotten

  /** An accept loop has the connection in hand. */
  ghost predicate InLoop(s: State, c: Conn) {
    exists l :: 0 <= l < |s.accept| && s.accept[l] == Accepted(c)
  }

  /** Every connection that came is in an accept loop's hands, served, or closed. */
  ghost predicate AccountedFor(s: State) {
    forall c | c in s.seen :: InLoop(s, c) || (c in s.handler && s.handler[c].Serving?) || c in s.closed
  }

  lemma LoopsStay(s: State, step: Step, c: Conn)
    requires Enabled(s, step) && InLoop(s, c)
    ensures InLoop(Next(s, step), c) || (step.Start? && s.accept[step.listener] == Accepted(c))
  {
    var l :| 0 <= l < |s.accept| && s.accept[l] == Accepted(c);
    hide StartClient, ResolverStep;
    if step.Run? { LoopsStayInRun(s, step.ok); }
    hide MainStep;
    if !(step.Start? && s.accept[step.listener] == Accepted(c)) {
      assert 0 <= l < |Next(s, step).accept| && Next(s, step).accept[l] == Accepted(c);
    }
  }

  lemma LoopsStayInRun(s: State, ok: bool)
    requires MainEnabled(s, ok)
    ensures s.accept <= MainStep(s, ok).accept
  {
    hide StartupStep, TeardownStep;
  }

  /** A connection that is taken from its accept loop is served or closed. */
  lemma StartedIsAccounted(s: State, l: nat)
    requires Enabled(s, Start(l))
    ensures var s', c := Next(s, Start(l)), s.accept[l].conn;
            (c in s'.handler && s'.handler[c].Serving?) || c in s'.closed
  {
  }

  /** A client that is served leaves with its connection closed, and closed connections stay closed. */
  lemma ServedStays(s: State, step: Step, c: Conn)
    requires Enabled(s, step)
    ensures s.closed <= Next(s, step).closed
    ensures c in s.handler && s.handler[c].Serving? ==>
              (c in Next(s, step).handler && Next(s, step).handler[c].Serving?) || c in Next(s, step).closed
  {
    hide StartupStep, TeardownStep, ResolverStep;
  }

  lemma ArrivalsAreInLoops(s: State, step: Step, c: Conn)
    requires Enabled(s, step) && c in Next(s, step).seen && c !in s.seen
    ensures InLoop(Next(s, step), c)
  {
    hide StartupStep, TeardownStep, ResolverStep, StartClient;
    assert step.Arrive? && step.conn == c && Next(s, step).accept[step.listener] == Accepted(c);
  }

  lemma StepAccounts(s: State, step: Step)
    requires AccountedFor(s) && Enabled(s, step)
    ensures AccountedFor(Next(s, step))
  {
    var s' := Next(s, step);
    hide Next, Enabled, InLoop;
    forall c | c in s'.seen
      ensures InLoop(s', c) || (c in s'.handler && s'.handler[c].Serving?) || c in s'.closed
    {
      ServedStays(s, step, c);
      if c !in s.seen {
        ArrivalsAreInLoops(s, step, c);
      } else if InLoop(s, c) {
        LoopsStay(s, step, c);
        if step.Start? && s.accept[step.listener] == Accepted(c) { StartedIsAccounted(s, step.listener); }
      }
    }
  }

  lemma {:induction false} RunAccounts(s: State, steps: seq<Step>)
    requires AccountedFor(s) && IsRun(s, steps)
    ensures AccountedFor(Exec(s, steps))
    decreases |steps|
  {
    hide AccountedFor, Enabled, Next;
    if steps != [] {
      StepAccounts(s, steps[0]);
      RunAccounts(Next(s, steps[0]), steps[1..]);
    }
  }

  /** No connection is forgotten: when Run has returned, each that came is closed, or still with its accept loop. */
  lemma NoConnectionForgotten(s: State, c: Conn)
    requires Reachable(s) && c in s.seen
    ensures InLoop(s, c) || (c in s.handler && s.handler[c].Serving?) || c in s.closed
    ensures s.main.Returned? ==> InLoop(s, c) || c in s.closed
  {
    var enabled, steps :| IsRun(Init(enabled), steps) && Exec(Init(enabled), steps) == s;
    RunAccounts(Init(enabled), steps);
    hide InLoop, IsRun, Exec;
    if s.main.Returned? { CloseClientsDrains(s); }
  }

  /** And the accept loop that has it in hand when Run has returned can only close it. */
  lemma LateConnectionIsClosed(s: State, l: nat)
    requires Reachable(s) && Shut(s) && Enabled(s, Start(l))
    ensures s.accept[l].conn in Next(s, Start(l)).closed && s.accept[l].conn !in Next(s, Start(l)).handler
  {
    ReachableHasInv(s);
    hide Reachable;
  }

  // ------------------------------------------------------------------ the initial list

  /** The initial list has begun. */
  predicate ListBegun(s: State) {
    !s.resolver.Unborn? && !s.resolver.AwaitBound?
  }

  lemma ListWaitsOneStep(s: State, step: Step)
    requires Enabled(s, step) && (ListBegun(s) ==> s.bound || CtxDone(s))
    ensures ListBegun(Next(s, step)) ==> Next(s, step).bound || CtxDone(Next(s, step))
  {
    hide StartClient;
  }

  lemma {:induction false} ListWaitsOverRun(s: State, steps: seq<Step>)
    requires IsRun(s, steps) && (ListBegun(s) ==> s.bound || CtxDone(s))
    ensures ListBegun(Exec(s, steps)) ==> Exec(s, steps).bound || CtxDone(Exec(s, steps))
    decreases |steps|
  {
    hide Enabled, Next, ListBegun, CtxDone;
    if steps != [] {
      ListWaitsOneStep(s, steps[0]);
      ListWaitsOverRun(Next(s, steps[0]), steps[1..]);
    }
  }

  /** Upstream is listed for the start only once every socket is bound, or the context is done. */
  lemma ListsAfterBinding(s: State)
    requires Reachable(s) && ListBegun(s)
    ensures s.bound || CtxDone(s)
  {
    var enabled, steps :| IsRun(Init(enabled), steps) && Exec(Init(enabled), steps) == s;
    ListWaitsOverRun(Init(enabled), steps);
  }
}
