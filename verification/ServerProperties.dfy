/** What a server run guarantees in every interleaving and on every way out. */
module ServerProperties {
  import opened Server
  import opened ServerInvariant

  ghost predicate Reachable(s: State) {
    exists enabled, steps :: IsRun(Init(enabled), steps) && Exec(Init(enabled), steps) == s
  }

  lemma ReachableHasInv(s: State)
    requires Reachable(s)
    ensures Inv(s)
  {
    var enabled, steps :| IsRun(Init(enabled), steps) && Exec(Init(enabled), steps) == s;
    InitInv(enabled);
    RunKeepsInv(Init(enabled), steps);
  }

  // ------------------------------------------------------------------ startup refreshes

  /** No startup refresh is finished twice; when Run returns, each that was claimed is finished. */
  lemma FinishedExactlyOnce(s: State, k: nat)
    requires Reachable(s) && k < |s.finishes|
    ensures s.finishes[k] <= 1
    ensures s.main.Returned? ==> s.finishes[k] == 1
    ensures s.main.Returned? ==> |s.finishes| == s.enabled
  {
    ReachableHasInv(s);
  }

  /** Run never returns before the resolver it has started. */
  lemma ResolverDoesNotOutliveRun(s: State)
    requires Reachable(s) && s.main.Returned?
    ensures Settled(s.resolver)
    ensures s.resolver.Unborn? ==> s.finishes == [] && s.accept == [] && s.handler.Keys == {}
  {
    ReachableHasInv(s);
    assert s.resolver.Unborn? ==> s.finishes == [];
    if s.resolver.Unborn? { NoListenersWithoutResolver(s); }
  }

  ghost predicate ListenersNeedResolver(s: State) {
    s.resolver.Unborn? ==> s.listener == []
  }

  lemma {:induction false} NoListenersOverRun(s: State, steps: seq<Step>)
    requires Inv(s) && ListenersNeedResolver(s) && IsRun(s, steps)
    ensures ListenersNeedResolver(Exec(s, steps))
    decreases |steps|
  {
    if steps != [] {
      StepKeepsInv(s, steps[0]);
      NoListenersOneStep(s, steps[0]);
      NoListenersOverRun(Next(s, steps[0]), steps[1..]);
    }
  }

  lemma NoListenersOneStep(s: State, step: Step)
    requires Inv(s) && ListenersNeedResolver(s) && Enabled(s, step)
    ensures ListenersNeedResolver(Next(s, step))
  {
    assert Opening(s.main) ==> !s.resolver.Unborn?;
    hide Inv;
    if step.Run? {
      if TearingDown(s.main) { hide TeardownStep; }
    } else {
      OthersLeaveRun(s, step);
      OthersLeaveLoops(s, step);
      hide Next;
    }
  }

  lemma NoListenersWithoutResolver(s: State)
    requires Reachable(s)
    ensures ListenersNeedResolver(s)
  {
    var enabled, steps :| IsRun(Init(enabled), steps) && Exec(Init(enabled), steps) == s;
    InitInv(enabled);
    NoListenersOverRun(Init(enabled), steps);
  }

  /** No socket exists before every group's startup refresh is claimed. */
  lemma ClaimedBeforeListening(s: State)
    requires Reachable(s) && (s.listener != [] || s.handler.Keys != {})
    ensures |s.finishes| == s.enabled
  {
    ReachableHasInv(s);
    NoListenersWithoutResolver(s);
  }

  // ------------------------------------------------------------------ clients

  /** After refuseNewClients no further client is ever admitted, however long the run goes on. */
  lemma {:induction false} NobodyAfterRefusal(s: State, steps: seq<Step>)
    requires s.registry.closing && IsRun(s, steps)
    ensures Exec(s, steps).handler.Keys == s.handler.Keys && Exec(s, steps).registry.closing
    decreases |steps|
  {
    if steps != [] {
      NoneAdmitted(s, steps[0]);
      ClosingStays(s, steps[0]);
      NobodyAfterRefusal(Next(s, steps[0]), steps[1..]);
    }
  }

  /** The wait group counts the live handlers, and a client is registered for as long as it is served. */
  lemma LiveIsCounted(s: State)
    requires Reachable(s)
    ensures s.registry.live == |Live(s.handler)|
    ensures forall c | c in s.handler && s.handler[c].Serving? :: c in s.registry.clients
    ensures forall c | c in s.handler && s.handler[c].Deleted? :: s.registry.live > 0
  {
    ReachableHasInv(s);
    forall c | c in s.handler && s.handler[c].Deleted?
      ensures s.registry.live > 0
    {
      assert c in Live(s.handler);
    }
    forall c | c in s.handler && s.handler[c].Serving?
      ensures c in s.registry.clients
    {
      assert c in Registered(s.handler);
    }
  }

  /** closeClients returns only when no handler is left, and waits only for clients it has interrupted. */
  lemma CloseClientsDrains(s: State)
    requires Reachable(s)
    ensures s.main.Unlocking? || s.main.Returned? ==> forall c | c in s.handler :: s.handler[c].Gone?
    ensures s.main.AwaitClients? ==> forall c | c in s.handler && s.handler[c].Serving? :: c in s.closed
  {
    ReachableHasInv(s);
    if s.main.Unlocking? || s.main.Returned? {
      assert Live(s.handler) == {};
      forall c | c in s.handler
        ensures s.handler[c].Gone?
      {
        assert c !in Live(s.handler);
      }
    }
  }

  // ------------------------------------------------------------------ locks last

  /** While anything that Run has opened is still in use, Run holds its socket locks. */
  lemma LocksOutlastAll(s: State)
    requires Reachable(s) && !s.locks
    ensures s.upstream != Open && Settled(s.resolver)
    ensures forall l | 0 <= l < |s.listener| :: !s.listener[l]
    ensures forall c | c in s.handler :: s.handler[c].Gone?
  {
    ReachableHasInv(s);
    if s.main.Returned? {
      CloseClientsDrains(s);
    } else {
      assert s.handler.Keys == {};
    }
  }

  /** Every run that returns has released its locks and closed its listeners and its upstream. */
  lemma ReturnedIsClean(s: State)
    requires Reachable(s) && s.main.Returned?
    ensures !s.locks && s.upstream != Open && s.canceled && s.registry.closing
    ensures forall l | 0 <= l < |s.listener| :: !s.listener[l]
  {
    ReachableHasInv(s);
  }

  // ------------------------------------------------------------------ it does serve

  predicate AllRun(steps: seq<Step>) {
    forall i | 0 <= i < |steps| :: steps[i].Run?
  }

  /** Run gets from `s` to `t` by itself, whatever the other goroutines leave undone. */
  ghost predicate Leads(s: State, t: State) {
    exists steps :: AllRun(steps) && IsRun(s, steps) && Exec(s, steps) == t
  }

  lemma LeadsOn(s: State, step: Step, t: State)
    requires Enabled(s, step) && step.Run? && Leads(Next(s, step), t)
    ensures Leads(s, t)
  {
    var steps :| AllRun(steps) && IsRun(Next(s, step), steps) && Exec(Next(s, step), steps) == t;
    var all := [step] + steps;
    assert all[0] == step && all[1..] == steps;
    assert AllRun(all) && IsRun(s, all) && Exec(s, all) == t;
  }

  lemma LeadsToItself(s: State)
    ensures Leads(s, s)
  {
    assert AllRun([]) && IsRun(s, []) && Exec(s, []) == s;
  }

  /** Every group has an open socket and an accept loop, and the startup resolver has begun or can begin. */
  predicate Serves(s: State) {
    && s.main.Selecting? && s.bound && s.locks && s.upstream == Open
    && |s.listener| == |s.accept| == |s.finishes| == s.enabled
    && (forall l | 0 <= l < s.enabled :: s.listener[l] && s.accept[l].Accepting?)
  }

  lemma {:induction false} BindsAll(s: State) returns (t: State)
    requires s.main.Binding? && !CtxDone(s) && s.locks && s.upstream == Open && |s.finishes| == s.enabled
    requires |s.accept| == |s.listener| <= s.enabled
    requires forall l | 0 <= l < |s.listener| :: s.listener[l] && s.accept[l].Accepting?
    ensures t.enabled == s.enabled && Serves(t) && Leads(s, t)
    decreases s.enabled - |s.listener|
  {
    var s1 := Next(s, Run(true));
    hide Leads, IsRun, Exec;
    if |s.listener| == s.enabled {
      t := s1;
      LeadsToItself(t);
    } else {
      var s2 := Next(s1, Run(true));
      var s3 := Next(s2, Run(true));
      assert s3 == s.(listener := s.listener + [true], accept := s.accept + [Accepting]);
      t := BindsAll(s3);
      LeadsOn(s2, Run(true), t);
      LeadsOn(s1, Run(true), t);
    }
    LeadsOn(s, Run(true), t);
  }

  lemma {:induction false} ClaimsAll(s: State) returns (t: State)
    requires s.main.Claiming? && !CtxDone(s) && s.locks && s.upstream == Open && |s.finishes| <= s.enabled
    requires s.listener == [] && s.accept == []
    ensures t.enabled == s.enabled && Serves(t) && Leads(s, t)
    decreases s.enabled - |s.finishes|
  {
    var s1 := Next(s, Run(true));
    hide Leads, IsRun, Exec;
    if |s.finishes| < s.enabled {
      t := ClaimsAll(s1);
    } else {
      t := BindsAll(Next(s1, Run(true)));
      LeadsOn(s1, Run(true), t);
    }
    LeadsOn(s, Run(true), t);
  }

  /** With nothing going wrong, Run comes to serve every group by its own steps: binding waits for no upstream. */
  lemma ComesToServe(enabled: nat) returns (t: State)
    requires enabled > 0
    ensures t.enabled == enabled && Leads(Init(enabled), t) && Serves(t)
  {
    var s0 := Init(enabled);
    var s1 := Next(s0, Run(true));
    var s2 := Next(s1, Run(true));
    var s3 := Next(s2, Run(true));
    t := ClaimsAll(s3);
    hide Next;
    LeadsOn(s2, Run(true), t);
    LeadsOn(s1, Run(true), t);
    LeadsOn(s0, Run(true), t);
  }

  // ------------------------------------------------------------------ the drain always ends

  /** A step that needs neither an answer from upstream nor anything from a client. */
  predicate Forced(s: State, step: Step) {
    match step
    case Run(_) => MainEnabled(s, step.ok)
    case Interrupt(_) => true
    case Resolve => s.resolver.Listing? ==> s.upstream != Open
    case Leave(c) => c in s.closed && s.upstream != Open && Settled(s.resolver)
    case Delete(_) => true
    case Done(_) => true
    case _ => false
  }

  /** From the first step of the teardown on, Run is never stuck. */
  lemma DrainNeverStuck(s: State)
    requires Reachable(s) && TearingDown(s.main) && !s.main.Returned?
    ensures exists step :: Enabled(s, step) && Forced(s, step)
  {
    ReachableHasInv(s);
    hide Inv, Reachable;
    var step := DrainGoesOn(s);
  }

  lemma DrainGoesOn(s: State) returns (step: Step)
    requires Inv(s) && TearingDown(s.main) && !s.main.Returned?
    ensures Enabled(s, step) && Forced(s, step)
  {
    if MainEnabled(s, true) {
      step := Run(true);
    } else if s.main.AwaitStartup? {
      assert s.upstream != Open && s.canceled;
      step := Resolve;
    } else if s.main.Interrupting? {
      var c :| c in s.main.rest;
      step := Interrupt(c);
    } else {
      var c :| c in Live(s.handler);
      assert s.upstream != Open && Settled(s.resolver);
      if s.handler[c].Serving? { step := Leave(c); }
      else if s.handler[c].Leaving? { step := Delete(c); }
      else { step := Done(c); }
    }
  }

  // ------------------------------------------------------------------ and it ends in bounded time

  function Served(handler: map<Conn, Handler>): set<Conn> {
    set c | c in handler && handler[c].Serving?
  }

  function ResolverWork(r: Resolver, claims: nat): nat {
    match r
    case AwaitBound => claims + 3
    case Listing => claims + 2
    case Finishing(k) => if k <= claims then claims - k + 1 else 1
    case _ => 0
  }

  function MainWork(m: Main, listeners: nat, registered: nat): nat {
    match m
    case Refusing => listeners + registered + 9
    case ClosingListeners(k) => (if k <= listeners then listeners - k else 0) + registered + 8
    case Cancelling => registered + 7
    case ClosingUpstream => registered + 6
    case AwaitStartup => registered + 5
    case Collecting => registered + 4
    case Interrupting(rest) => |rest| + 3
    case AwaitClients => 2
    case Unlocking => 1
    case _ => 0
  }

  /** What is left to do once new clients are refused. */
  function Work(s: State): nat {
    MainWork(s.main, |s.listener|, |s.registry.clients|) + ResolverWork(s.resolver, |s.finishes|)
    + |Served(s.handler)| + |Registered(s.handler)| + |Live(s.handler)|
  }

  /** A step of an accept loop or of the parent context. */
  predicate Outside(step: Step) {
    step.ParentCancels? || step.Arrive? || step.AcceptFails? || step.Start?
  }

  lemma SmallerSet(a: set<Conn>, b: set<Conn>, c: Conn)
    requires a == b - {c} && c in b
    ensures |a| < |b|
  {
    assert b == a + {c};
  }

  lemma LeaveWork(handler: map<Conn, Handler>, c: Conn)
    requires c in handler && handler[c].Serving?
    ensures var after := handler[c := Leaving];
            |Served(after)| < |Served(handler)|
            && Registered(after) == Registered(handler) && Live(after) == Live(handler)
  {
    SmallerSet(Served(handler[c := Leaving]), Served(handler), c);
  }

  lemma DeleteWork(handler: map<Conn, Handler>, c: Conn)
    requires c in handler && handler[c].Leaving?
    ensures var after := handler[c := Deleted];
            Served(after) == Served(handler)
            && |Registered(after)| < |Registered(handler)| && Live(after) == Live(handler)
  {
    SmallerSet(Registered(handler[c := Deleted]), Registered(handler), c);
  }

  lemma DoneWork(handler: map<Conn, Handler>, c: Conn)
    requires c in handler && handler[c].Deleted?
    ensures var after := handler[c := Gone];
            Served(after) == Served(handler)
            && Registered(after) == Registered(handler) && |Live(after)| < |Live(handler)|
  {
    SmallerSet(Live(handler[c := Gone]), Live(handler), c);
  }

  lemma HandlerWork(s: State, step: Step)
    requires HandlersOk(s) && Enabled(s, step) && (step.Leave? || step.Delete? || step.Done?)
    ensures Work(Next(s, step)) < Work(s)
  {
    match step
    case Leave(c) => LeaveWork(s.handler, c);
    case Delete(c) => DeleteWork(s.handler, c); FewerRegistered(s, c);
    case Done(c) => DoneWork(s.handler, c);
    hide Served, Registered, Live, HandlersOk;
  }

  lemma FewerRegistered(s: State, c: Conn)
    ensures |s.registry.clients - {c}| <= |s.registry.clients|
  {
    if c in s.registry.clients { SmallerSet(s.registry.clients - {c}, s.registry.clients, c); }
    else { assert s.registry.clients - {c} == s.registry.clients; }
  }

  lemma MainWorkDrops(s: State)
    requires TearingDown(s.main) && MainEnabled(s, true)
    ensures MainWork(TeardownStep(s).main, |s.listener|, |s.registry.clients|)
            < MainWork(s.main, |s.listener|, |s.registry.clients|)
  {
    if s.main.ClosingListeners? {
      assert s.main.next < |s.listener| ==> TeardownStep(s).main == ClosingListeners(s.main.next + 1);
    } else {
      TeardownGoes(s);
      hide TeardownStep;
    }
  }

  lemma TeardownGoes(s: State)
    requires TearingDown(s.main) && !s.main.ClosingListeners?
    ensures TeardownStep(s).main == match s.main
                                    case Refusing => ClosingListeners(0)
                                    case Cancelling => ClosingUpstream
                                    case ClosingUpstream => AwaitStartup
                                    case AwaitStartup => Collecting
                                    case Collecting => Interrupting(s.registry.clients)
                                    case Interrupting(_) => AwaitClients
                                    case AwaitClients => Unlocking
                                    case _ => Returned
  {
  }

  lemma TeardownWork(s: State)
    requires TearingDown(s.main) && MainEnabled(s, true)
    ensures Work(TeardownStep(s)) < Work(s)
  {
    MainWorkDrops(s);
    hide TeardownStep, MainWork, MainEnabled;
  }

  lemma InterruptWork(s: State, c: Conn)
    requires Enabled(s, Interrupt(c))
    ensures Work(Next(s, Interrupt(c))) < Work(s)
  {
    SmallerSet(s.main.rest - {c}, s.main.rest, c);
    hide Served, Registered, Live;
  }

  lemma ResolveWork(s: State)
    requires Enabled(s, Resolve)
    ensures Work(Next(s, Resolve)) < Work(s)
  {
    hide Served, Registered, Live, MainWork;
  }

  /** Arrivals are not admitted any more, and leave nothing to do. */
  lemma OutsideWork(s: State, step: Step)
    requires Enabled(s, step) && s.registry.closing && Outside(step)
    ensures Work(Next(s, step)) == Work(s)
  {
    hide Served, Registered, Live, MainWork, ResolverWork;
  }

  /** Every step of Run, of the resolver and of a handler leaves less to do. */
  lemma WorkDrops(s: State, step: Step)
    requires Inv(s) && s.registry.closing && Enabled(s, step)
    ensures Work(Next(s, step)) <= Work(s)
    ensures !Outside(step) ==> Work(Next(s, step)) < Work(s)
  {
    assert TearingDown(s.main);
    if step.Run? { TeardownWork(s); }
    else if step.Leave? || step.Delete? || step.Done? { HandlerWork(s, step); }
    else if step.Interrupt? { InterruptWork(s, step.conn); }
    else if step.Resolve? { ResolveWork(s); }
    else { OutsideWork(s, step); }
    hide Work, Next;
  }

  function InsideSteps(steps: seq<Step>): nat {
    if steps == [] then 0 else (if Outside(steps[0]) then 0 else 1) + InsideSteps(steps[1..])
  }

  /** However it goes on, the drain takes no more steps than there is work when clients are refused. */
  lemma {:induction false} DrainIsBounded(s: State, steps: seq<Step>)
    requires Inv(s) && s.registry.closing && IsRun(s, steps)
    ensures InsideSteps(steps) <= Work(s)
    decreases |steps|
  {
    if steps != [] {
      WorkDrops(s, steps[0]);
      StepKeepsInv(s, steps[0]);
      ClosingStays(s, steps[0]);
      hide Work, Inv;
      DrainIsBounded(Next(s, steps[0]), steps[1..]);
    }
  }
}
