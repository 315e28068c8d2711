/**
 The shared upstream connection of internal/proxy/upstream.go.

 Any number of callers run concurrently: requests (List, Sign and the operations that go through
 withConnection), watchdog goroutines that drop a connection, and calls of Close. A `Pc` is the
 point a caller has reached; one step of a caller is one access to shared memory, one dial, one
 wire request or one close. The mutex is a holder id, so a watchdog drop, which never takes it,
 can fall between any two steps of a caller that does.
 */
module Upstream {
  import opened Wrappers

  /** A connection, numbered in dial order. */
  type Conn = nat

  /** A caller: a goroutine that runs one request, one watchdog drop or one Close. */
  type Caller = nat

  datatype Op = ListOp | SignOp | OtherOp

  /** Why connection() is called: first for the request, then by List to find the replacement. */
  datatype Use = First(op: Op) | Retry(broken: Conn)

  /** What a wire request comes back with. Only a ClientError carries the transport prefix. */
  datatype Outcome = Reply | AgentFailure | ClientError

  datatype Pc =
    // connection()
    | Load(use: Use)
    | Lock(use: Use)
    | Check(use: Use)
    | Reload(use: Use)
    | Dial(use: Use)
    | Dialed(use: Use, made: Conn)
    | Abandon(use: Use, made: Conn)
    | Store(use: Use, made: Conn)
    | Count(use: Use, made: Conn)
    | Unlock(use: Use, found: Option<Conn>)
    // one attempt on the wire, and what the caller makes of its error
    | Request(use: Use, conn: Conn, armed: bool)
    | Judge(op: Op, conn: Conn)
    | JudgeAgain(op: Op, conn: Conn)
    // reconnect(conn)
    | RcLock(op: Op, conn: Conn)
    | RcCheck(op: Op, conn: Conn)
    | RcLoad(op: Op, conn: Conn)
    | RcDial(op: Op, conn: Conn)
    | RcDialed(op: Op, conn: Conn, made: Conn)
    | RcAbandon(op: Op, conn: Conn, made: Conn)
    | RcSwap(op: Op, conn: Conn, made: Conn)
    | RcCount(op: Op, conn: Conn, prior: Option<Conn>)
    | RcCloseOld(op: Op, conn: Conn, prior: Option<Conn>)
    | RcUnlock(op: Op, conn: Conn, usable: bool)
    // drop(conn)
    | DropMark(conn: Conn)
    | DropSwap(conn: Conn)
    | DropClose(conn: Conn)
    // Close()
    | CloseCancel
    | CloseLock
    | CloseLoad
    | CloseConn(conn: Conn)
    | CloseUnlock(failed: bool)
    | CloseDone(failed: bool)
    // a request has returned with its last answer, or without one because there was no connection
    | Told(answer: Option<Outcome>)
    | Finished

  /** Who answers for closing a connection. */
  datatype Holder =
    | InHand(dialer: Caller)    // dialed, not yet published
    | Live                      // the current pointer refers to it
    | Owed(remover: Caller)     // taken out of the pointer, its remover has not closed it yet
    | Retired                   // closed by the caller that took it out of the pointer
    | Discarded                 // closed by its dialer without ever being published

  /** One successful swap of reconnect: the connection it was called for, and the one it displaced. */
  datatype Swap = Swap(failed: Conn, prior: Option<Conn>)

  /** The memory all callers share: the fields of the client and of its connections, and the history. */
  datatype Shared = Shared(
    watchdog: bool,
    cur: Option<Conn>,
    closed: bool,
    closeFailed: bool,
    canceled: bool,
    connected: bool,
    reconnects: nat,
    mu: Option<Caller>,
    failed: set<Conn>,
    unanswered: set<Conn>,
    // history
    holder: seq<Holder>,
    published: seq<Conn>,
    ownerCloses: multiset<Conn>,
    shutdownCloses: multiset<Conn>,
    settled: bool,     // the first Close is past its critical work
    counting: bool,    // the last publication is not yet in `connected` and `reconnects`
    drops: nat,        // connections cleared by the watchdog
    refills: nat,      // publications after the first that found the pointer nil
    swaps: seq<Swap>)

  datatype State = State(sh: Shared, pc: map<Caller, Pc>)

  function Place(s: State, t: Caller, pc: Pc): State {
    s.(pc := s.pc[t := pc])
  }

  datatype Step =
    | Begin(caller: Caller, op: Op)
    | BeginClose(caller: Caller)
    | ParentCancel
    | IoFailure(conn: Conn)
    | Fire(caller: Caller, watcher: Caller)
    | Answer(caller: Caller, outcome: Outcome)
    | Act(caller: Caller, ok: bool)

  function Init(watchdog: bool): State {
    State(Shared(watchdog, None, false, false, false, false, 0, None, {}, {},
                 [], [], multiset{}, multiset{}, false, false, 0, 0, []), map[])
  }

  predicate TakesLock(pc: Pc) {
    pc.Lock? || pc.RcLock? || pc.CloseLock?
  }

  predicate InReconnect(pc: Pc) {
    || pc.RcLock? || pc.RcCheck? || pc.RcLoad? || pc.RcDial? || pc.RcDialed? || pc.RcAbandon? || pc.RcSwap?
    || pc.RcCount? || pc.RcCloseOld? || pc.RcUnlock?
  }

  predicate InDrop(pc: Pc) {
    pc.DropMark? || pc.DropSwap? || pc.DropClose?
  }

  predicate InClose(pc: Pc) {
    pc.CloseCancel? || pc.CloseLock? || pc.CloseLoad? || pc.CloseConn? || pc.CloseUnlock?
  }

  predicate HoldsLock(pc: Pc) {
    || pc.Check? || pc.Reload? || pc.Dial? || pc.Dialed? || pc.Abandon? || pc.Store? || pc.Count? || pc.Unlock?
    || (InReconnect(pc) && !pc.RcLock?)
    || pc.CloseLoad? || pc.CloseConn? || pc.CloseUnlock?
  }

  predicate Ended(pc: Pc) {
    pc.Finished? || pc.CloseDone? || pc.Told?
  }

  predicate Enabled(s: State, step: Step) {
    match step
    case Begin(t, _) => t !in s.pc
    case BeginClose(t) => t !in s.pc
    case ParentCancel => true
    case IoFailure(_) => true
    case Fire(t, w) => t in s.pc && s.pc[t].Request? && s.pc[t].armed && w !in s.pc
    case Answer(t, _) => t in s.pc && s.pc[t].Request?
    case Act(t, _) =>
      && t in s.pc && !s.pc[t].Request? && !Ended(s.pc[t])
      && (TakesLock(s.pc[t]) ==> s.sh.mu == None)
  }

  function Next(s: State, step: Step): State
    requires Enabled(s, step)
  {
    match step
    case Begin(t, op) => Place(s, t, Load(First(op)))
    case BeginClose(t) => Place(s, t, CloseCancel)
    case ParentCancel => s.(sh := s.sh.(canceled := true))
    case IoFailure(c) => s.(sh := s.sh.(failed := s.sh.failed + {c}))
    case Fire(t, w) => Place(Place(s, t, s.pc[t].(armed := false)), w, DropMark(s.pc[t].conn))
    case Answer(t, outcome) => Place(s, t, Answered(s.pc[t], outcome))
    case Act(t, ok) =>
      var (sh, pc) := Move(s.sh, t, s.pc[t], ok);
      State(sh, s.pc[t := pc])
  }

  /** List, Sign and SignWithFlags look at a transport error; a List already retried does not. */
  function Answered(pc: Pc, outcome: Outcome): Pc
    requires pc.Request?
  {
    if outcome == ClientError && pc.use.First? && pc.use.op != OtherOp then Judge(pc.use.op, pc.conn)
    else Told(Some(outcome))
  }

  /** A request without a connection fails for that, a second attempt with the error of the first. */
  function Unserved(use: Use): Option<Outcome> {
    if use.First? then None else Some(ClientError)
  }

  /** One step of caller `t` at `pc`; `ok` is the result of a dial or of the close in Close. */
  function Move(sh: Shared, t: Caller, pc: Pc, ok: bool): (Shared, Pc) {
    if InReconnect(pc) then ReconnectMove(sh, t, pc, ok)
    else if InDrop(pc) then DropMove(sh, t, pc)
    else if InClose(pc) then CloseMove(sh, t, pc, ok)
    else ConnectionMove(sh, t, pc, ok)
  }

  /** connection(), and the reading of a transport error by List, Sign and SignWithFlags. */
  function ConnectionMove(sh: Shared, t: Caller, pc: Pc, ok: bool): (Shared, Pc) {
    match pc
    case Load(u) => (sh, if sh.cur.Some? then Request(u, sh.cur.value, sh.watchdog) else Lock(u))
    case Lock(u) => (sh.(mu := Some(t)), Check(u))
    case Check(u) => (sh, if sh.closed || sh.canceled then Unlock(u, None) else Reload(u))
    case Reload(u) => (sh, if sh.cur.Some? then Unlock(u, sh.cur) else Dial(u))
    case Dial(u) => if ok then (DialedBy(sh, t), Dialed(u, |sh.holder|)) else (sh, Unlock(u, None))
    case Dialed(u, c) => (sh, if sh.canceled then Abandon(u, c) else Store(u, c))
    case Abandon(u, c) => (ClosedByOwner(sh, c, Discarded), Unlock(u, None))
    case Store(u, c) => (Stored(sh, c), Count(u, c))
    case Count(u, c) =>
      (if sh.connected then sh.(reconnects := sh.reconnects + 1, counting := false)
       else sh.(connected := true, counting := false), Unlock(u, Some(c)))
    case Unlock(u, found) =>
      (sh.(mu := None), if found.Some? then Request(u, found.value, sh.watchdog) else Told(Unserved(u)))
    case Judge(op, c) =>
      (sh, if c in sh.failed && c !in sh.unanswered then JudgeAgain(op, c) else Told(Some(ClientError)))
    case JudgeAgain(op, c) => (sh, if c in sh.unanswered then Told(Some(ClientError)) else RcLock(op, c))
    case _ => (sh, pc)
  }

  /** reconnect(failed), entered with the connection the request failed on. */
  function ReconnectMove(sh: Shared, t: Caller, pc: Pc, ok: bool): (Shared, Pc) {
    match pc
    case RcLock(op, f) => (sh.(mu := Some(t)), RcCheck(op, f))
    case RcCheck(op, f) => (sh, if sh.closed || sh.canceled then RcUnlock(op, f, false) else RcLoad(op, f))
    case RcLoad(op, f) =>
      (sh, if sh.cur != Some(f) && sh.cur.Some? then RcUnlock(op, f, true) else RcDial(op, f))
    case RcDial(op, f) =>
      if ok then (DialedBy(sh, t), RcDialed(op, f, |sh.holder|)) else (sh, RcUnlock(op, f, false))
    case RcDialed(op, f, c) => (sh, if sh.canceled then RcAbandon(op, f, c) else RcSwap(op, f, c))
    case RcAbandon(op, f, c) => (ClosedByOwner(sh, c, Discarded), RcUnlock(op, f, false))
    case RcSwap(op, f, c) => (Swapped(sh, t, f, c), RcCount(op, f, sh.cur))
    case RcCount(op, f, prior) =>
      (sh.(connected := true, reconnects := sh.reconnects + 1, counting := false), RcCloseOld(op, f, prior))
    case RcCloseOld(op, f, prior) =>
      (if prior.Some? then ClosedByOwner(sh, prior.value, Retired) else sh, RcUnlock(op, f, true))
    case RcUnlock(op, f, usable) =>
      (sh.(mu := None), if usable && op == ListOp then Load(Retry(f)) else Told(Some(ClientError)))
    case _ => (sh, pc)
  }

  /** drop(current): lock-free, started by the watchdog timer of one request. */
  function DropMove(sh: Shared, t: Caller, pc: Pc): (Shared, Pc) {
    match pc
    case DropMark(c) =>
      if c in sh.unanswered then (sh, Finished) else (sh.(unanswered := sh.unanswered + {c}), DropSwap(c))
    case DropSwap(c) => if sh.cur == Some(c) then (Dropped(sh, t, c), DropClose(c)) else (sh, Finished)
    case DropClose(c) => (ClosedByOwner(sh, c, Retired), Finished)
    case _ => (sh, pc)
  }

  /** Close(): `closed` is guarded by the mutex, so taking it and setting the flag are one step. */
  function CloseMove(sh: Shared, t: Caller, pc: Pc, ok: bool): (Shared, Pc) {
    match pc
    case CloseCancel => (sh.(canceled := true), CloseLock)
    case CloseLock =>
      if sh.closed then (sh.(mu := Some(t)), CloseUnlock(sh.closeFailed))
      else (sh.(mu := Some(t), closed := true), CloseLoad)
    case CloseLoad =>
      if sh.cur.Some? then (sh, CloseConn(sh.cur.value)) else (sh.(settled := true), CloseUnlock(false))
    case CloseConn(c) =>
      (sh.(shutdownCloses := sh.shutdownCloses + multiset{c}, closeFailed := !ok, settled := true), CloseUnlock(!ok))
    case CloseUnlock(failed) => (sh.(mu := None), CloseDone(failed))
    case _ => (sh, pc)
  }

  // ------------------------------------------------------------------ updates of the shared memory

  /** Records who answers for `c` from now on. */
  function Assign(holder: seq<Holder>, c: Conn, h: Holder): (r: seq<Holder>)
    ensures |r| == |holder|
    ensures forall d | 0 <= d < |holder| :: r[d] == if d == c then h else holder[d]
  {
    if c < |holder| then holder[c := h] else holder
  }

  function DialedBy(sh: Shared, t: Caller): Shared {
    sh.(holder := sh.holder + [InHand(t)])
  }

  function ClosedByOwner(sh: Shared, c: Conn, h: Holder): Shared {
    sh.(holder := Assign(sh.holder, c, h), ownerCloses := sh.ownerCloses + multiset{c})
  }

  /** The blind store of connection(). */
  function Stored(sh: Shared, c: Conn): Shared {
    sh.(cur := Some(c),
        holder := Assign(sh.holder, c, Live),
        published := sh.published + [c],
        counting := true,
        refills := if |sh.published| > 0 then sh.refills + 1 else sh.refills)
  }

  /** The swap of reconnect: whatever it displaces becomes the caller's to close. */
  function Swapped(sh: Shared, t: Caller, f: Conn, c: Conn): Shared {
    var displaced := if sh.cur.Some? then Assign(sh.holder, sh.cur.value, Owed(t)) else sh.holder;
    sh.(cur := Some(c),
        holder := Assign(displaced, c, Live),
        published := sh.published + [c],
        counting := true,
        refills := if sh.cur == None then sh.refills + 1 else sh.refills,
        swaps := sh.swaps + [Swap(f, sh.cur)])
  }

  function Dropped(sh: Shared, t: Caller, c: Conn): Shared {
    sh.(cur := None, holder := Assign(sh.holder, c, Owed(t)), drops := sh.drops + 1)
  }

  // ------------------------------------------------------------------ runs

  /** A run: every step is enabled in the state the steps before it lead to. */
  predicate IsRun(s: State, steps: seq<Step>)
    decreases |steps|
  {
    steps == [] || (Enabled(s, steps[0]) && IsRun(Next(s, steps[0]), steps[1..]))
  }

  function Exec(s: State, steps: seq<Step>): State
    requires IsRun(s, steps)
    decreases |steps|
  {
    if steps == [] then s else Exec(Next(s, steps[0]), steps[1..])
  }
}
