/**
 One run of the proxy server and its teardown (Server.Run, startClient, refuseNewClients and
 closeClients of internal/proxy/server.go), with the goroutines it starts: the startup resolver, one
 accept loop a listener, and one handler a client. One step is one section under the clients mutex,
 one wait, or one operation of Run.
 */
module Server {

  type Conn = nat

  // ------------------------------------------------------------------ the clients mutex

  /** The fields under clientsMu, and the wait group of the handlers. */
  datatype Registry = Registry(clients: set<Conn>, closing: bool, live: nat)

  /** startClient: whether the connection is admitted, decided under the mutex. */
  function Admit(r: Registry, conn: Conn, done: bool): Registry {
    if r.closing || done then r else r.(clients := r.clients + {conn}, live := r.live + 1)
  }

  function Refuse(r: Registry): Registry {
    r.(closing := true)
  }

  /** The two halves of a handler's end; the wait group must not drop below zero. */
  function Forget(r: Registry, conn: Conn): Registry {
    r.(clients := r.clients - {conn})
  }

  function SignOff(r: Registry): Registry {
    r.(live := if r.live > 0 then r.live - 1 else 0)
  }

  // ------------------------------------------------------------------ the run

  datatype Main =
    | Begin
    | Idle
    | Locking
    | Connecting
    | Claiming
    | Spawning
    | Binding
    | Listening
    | Bound
    | Selecting
    | Refusing
    | ClosingListeners(next: nat)
    | Cancelling
    | ClosingUpstream
    | AwaitStartup
    | Collecting
    | Interrupting(rest: set<Conn>)
    | AwaitClients
    | Unlocking
    | Returned

  /** Why Run goes on to its teardown; a cancellation is reported as no error. */
  datatype Ending = Pending | Cancelled | LocksFailed | NoClient | BindFailed | ListenerFailed

  datatype Upstream = Absent | Open | Shut

  datatype Resolver = Unborn | AwaitBound | Listing | Finishing(next: nat) | Resolved

  datatype Accept = Accepting | Accepted(conn: Conn) | Stopped

  datatype Handler = Serving | Leaving | Deleted | Gone

  datatype State = State(
    enabled: nat,
    main: Main,
    ending: Ending,
    parentDone: bool,
    canceled: bool,
    locks: bool,
    upstream: Upstream,
    finishes: seq<nat>,
    resolver: Resolver,
    bound: bool,
    listener: seq<bool>,
    accept: seq<Accept>,
    failures: nat,
    registry: Registry,
    handler: map<Conn, Handler>,
    closed: set<Conn>,
    seen: set<Conn>)

  datatype Step =
    | ParentCancels
    | Run(ok: bool)
    | Interrupt(conn: Conn)
    | Resolve
    | Arrive(listener: nat, conn: Conn)
    | AcceptFails(listener: nat, terminal: bool)
    | Start(listener: nat)
    | Leave(conn: Conn)
    | Delete(conn: Conn)
    | Done(conn: Conn)

  function Init(enabled: nat): State {
    State(enabled, Begin, Pending, false, false, false, Absent, [], Unborn, false, [], [], 0,
          Registry({}, false, 0), map[], {}, {})
  }

  predicate CtxDone(s: State) {
    s.parentDone || s.canceled
  }

  predicate Settled(r: Resolver) {
    r.Unborn? || r.Resolved?
  }

  predicate Enabled(s: State, step: Step) {
    match step
    case ParentCancels => true
    case Run(ok) => MainEnabled(s, ok)
    case Interrupt(c) => s.main.Interrupting? && c in s.main.rest
    case Resolve => !Settled(s.resolver) && (s.resolver.AwaitBound? ==> s.bound || CtxDone(s))
    case Arrive(l, c) => l < |s.accept| && l < |s.listener| && s.accept[l].Accepting? && s.listener[l] && c !in s.seen
    case AcceptFails(l, _) => l < |s.accept| && l < |s.listener| && s.accept[l].Accepting?
    case Start(l) => l < |s.accept| && s.accept[l].Accepted?
    case Leave(c) => c in s.handler && s.handler[c].Serving?
    case Delete(c) => c in s.handler && s.handler[c].Leaving?
    case Done(c) => c in s.handler && s.handler[c].Deleted?
  }

  predicate MainEnabled(s: State, ok: bool) {
    match s.main
    case Idle => CtxDone(s)
    case Selecting => CtxDone(s) || s.failures > 0
    case AwaitStartup => Settled(s.resolver)
    case Interrupting(rest) => rest == {}
    case AwaitClients => s.registry.live == 0
    case Returned => false
    case _ => true
  }

  function Next(s: State, step: Step): State
    requires Enabled(s, step)
  {
    match step
    case ParentCancels => s.(parentDone := true)
    case Run(ok) => MainStep(s, ok)
    case Interrupt(c) => s.(closed := s.closed + {c}, main := Interrupting(s.main.rest - {c}))
    case Resolve => ResolverStep(s)
    case Arrive(l, c) => s.(accept := s.accept[l := Accepted(c)], seen := s.seen + {c})
    case AcceptFails(l, terminal) =>
      if CtxDone(s) || !s.listener[l] then s.(accept := s.accept[l := Stopped])
      else if terminal then s.(accept := s.accept[l := Stopped], failures := s.failures + 1)
      else s
    case Start(l) => StartClient(s, l)
    case Leave(c) => s.(handler := s.handler[c := Leaving], closed := s.closed + {c})
    case Delete(c) => s.(handler := s.handler[c := Deleted], registry := Forget(s.registry, c))
    case Done(c) => s.(handler := s.handler[c := Gone], registry := SignOff(s.registry))
  }

  /** A connection that is not admitted is closed. */
  function StartClient(s: State, l: nat): (r: State)
    requires Enabled(s, Start(l))
    ensures r == s.(accept := s.accept[l := Accepting], handler := r.handler,
                   registry := r.registry, closed := r.closed)
    ensures s.closed <= r.closed && r.registry.closing == s.registry.closing
  {
    var c := s.accept[l].conn;
    var t := s.(accept := s.accept[l := Accepting], registry := Admit(s.registry, c, CtxDone(s)));
    if s.registry.closing || CtxDone(s) then t.(closed := s.closed + {c}) else t.(handler := s.handler[c := Serving])
  }

  /** The goroutine that lists upstream once and finishes every startup refresh with the result. */
  function ResolverStep(s: State): (r: State)
    requires Enabled(s, Resolve)
    ensures r == s.(finishes := r.finishes, resolver := r.resolver) && |r.finishes| == |s.finishes|
            && !r.resolver.Unborn?
  {
    match s.resolver
    case AwaitBound => s.(resolver := Listing)
    case Listing => s.(resolver := Finishing(0))
    case Finishing(k) =>
      if k < |s.finishes| then s.(finishes := s.finishes[k := s.finishes[k] + 1], resolver := Finishing(k + 1))
      else s.(resolver := Resolved)
  }

  predicate TearingDown(m: Main) {
    m.Refusing? || m.ClosingListeners? || m.Cancelling? || m.ClosingUpstream? || m.AwaitStartup?
    || m.Collecting? || m.Interrupting? || m.AwaitClients? || m.Unlocking? || m.Returned?
  }

  function MainStep(s: State, ok: bool): State
    requires MainEnabled(s, ok)
  {
    if TearingDown(s.main) then TeardownStep(s) else StartupStep(s, ok)
  }

  /** The body of Run, up to the point where it returns; at the final select `ok` favours the context. */
  function StartupStep(s: State, ok: bool): (r: State)
    requires MainEnabled(s, ok) && !TearingDown(s.main)
    ensures r == s.(main := r.main, ending := r.ending, locks := r.locks, upstream := r.upstream,
                    finishes := r.finishes, resolver := r.resolver, bound := r.bound,
                    listener := r.listener, accept := r.accept)
    ensures s.listener <= r.listener && s.accept <= r.accept
  {
    match s.main
    case Begin =>
      if s.enabled == 0 then s.(main := Idle)
      else if CtxDone(s) then s.(main := Refusing, ending := Cancelled)
      else s.(main := Locking)
    case Idle => s.(main := Refusing, ending := Cancelled)
    case Locking => if ok then s.(locks := true, main := Connecting) else s.(main := Refusing, ending := LocksFailed)
    case Connecting => if ok then s.(upstream := Open, main := Claiming) else s.(main := Refusing, ending := NoClient)
    case Claiming => if |s.finishes| < s.enabled then s.(finishes := s.finishes + [0]) else s.(main := Spawning)
    case Spawning => s.(resolver := AwaitBound, main := Binding)
    case Binding =>
      if |s.listener| >= s.enabled then s.(bound := true, main := Selecting)
      else if CtxDone(s) then s.(main := Refusing, ending := Cancelled)
      else s.(main := Listening)
    case Listening =>
      if ok then s.(listener := s.listener + [true], main := Bound) else s.(main := Refusing, ending := BindFailed)
    case Bound =>
      if CtxDone(s) then s.(main := Refusing, ending := Cancelled)
      else s.(accept := s.accept + [Accepting], main := Binding)
    case _ =>
      s.(main := Refusing, ending := if CtxDone(s) && (ok || s.failures == 0) then Cancelled else ListenerFailed)
  }

  /** The deferred teardown. */
  function TeardownStep(s: State): (r: State)
    requires TearingDown(s.main)
    ensures r == s.(main := r.main, registry := s.registry.(closing := r.registry.closing), listener := r.listener,
                    canceled := r.canceled, upstream := r.upstream, locks := r.locks)
    ensures TearingDown(r.main) && |r.listener| == |s.listener| && (s.registry.closing ==> r.registry.closing)
  {
    match s.main
    case Refusing => s.(registry := Refuse(s.registry), main := ClosingListeners(0))
    case ClosingListeners(k) =>
      if k < |s.listener| then s.(listener := s.listener[k := false], main := ClosingListeners(k + 1))
      else s.(main := Cancelling)
    case Cancelling => s.(canceled := true, main := ClosingUpstream)
    case ClosingUpstream => s.(upstream := if s.upstream.Open? then Shut else s.upstream, main := AwaitStartup)
    case AwaitStartup => s.(main := Collecting)
    case Collecting => s.(main := Interrupting(s.registry.clients))
    case Interrupting(_) => s.(main := AwaitClients)
    case AwaitClients => s.(main := Unlocking)
    case _ => s.(locks := false, main := Returned)
  }

  predicate IsRun(s: State, steps: seq<Step>)
    decreases |steps|
  {
    steps == [] || (Enabled(s, steps[0]) && IsRun(Next(s, steps[0]), steps[1..]))
  }

  function Exec(s: State, steps: seq<Step>): State
    requires IsRun(s, steps)
    decreases |steps|
  {
    if steps == [] then s else Exec(Next(s, steps[0]), steps[1..])
  }

  // ------------------------------------------------------------------ the sections of the code

  /** The part of Server that its clients share; `closedConns` is what has been closed here. */
  class Clients {
    var clients: set<Conn>
    var clientsClosing: bool
    var clientWG: nat
    var closedConns: set<Conn>

    constructor ()
      ensures View() == Registry({}, false, 0) && closedConns == {}
    {
      clients, clientsClosing, clientWG, closedConns := {}, false, 0, {};
    }

    function View(): Registry
      reads this
    {
      Registry(clients, clientsClosing, clientWG)
    }

    /** Reports whether a handler is to be started. */
    method StartClient(conn: Conn, done: bool) returns (admitted: bool)
      modifies this
      ensures View() == Admit(old(View()), conn, done)
      ensures admitted <==> !old(clientsClosing) && !done
      ensures closedConns == if admitted then old(closedConns) else old(closedConns) + {conn}
    {
      if clientsClosing || done {
        closedConns := closedConns + {conn};
        return false;
      }
      clients := clients + {conn};
      clientWG := clientWG + 1;
      admitted := true;
    }

    method RefuseNewClients()
      modifies this`clientsClosing
      ensures View() == Refuse(old(View()))
    {
      clientsClosing := true;
    }

    /** The deferred end of a handler. */
    method EndHandler(conn: Conn)
      requires clientWG > 0
      modifies this`clients, this`clientWG
      ensures View() == SignOff(Forget(old(View()), conn))
    {
      clients := clients - {conn};
      clientWG := clientWG - 1;
    }

    /** Interrupts every registered client; the wait for the handlers follows. */
    method InterruptClients()
      modifies this`closedConns
      ensures closedConns == old(closedConns) + clients
    {
      var rest := clients;
      while rest != {}
        invariant rest <= clients && closedConns == old(closedConns) + (clients - rest)
        decreases rest
      {
        var conn :| conn in rest;
        closedConns := closedConns + {conn};
        rest := rest - {conn};
      }
    }
  }
}
