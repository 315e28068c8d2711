/** The inductive invariant of the connection protocol, and the proof that every step keeps it. */
module UpstreamInvariant {
  import opened Wrappers
  import opened Upstream

  ghost predicate HeldBy(sh: Shared, c: Conn, h: Holder) {
    c < |sh.holder| && sh.holder[c] == h
  }

  /** Published at some time. */
  ghost predicate Known(sh: Shared, c: Conn) {
    c < |sh.holder| && !sh.holder[c].InHand? && !sh.holder[c].Discarded?
  }

  /** Published once and no longer current. */
  ghost predicate Gone(sh: Shared, c: Conn) {
    c < |sh.holder| && (sh.holder[c].Owed? || sh.holder[c].Retired?)
  }

  ghost predicate PointerAgrees(sh: Shared) {
    && (sh.cur.Some? ==> HeldBy(sh, sh.cur.value, Live))
    && (forall c | 0 <= c < |sh.holder| && sh.holder[c].Live? :: sh.cur == Some(c))
  }

  /** Every dialed connection has one holder, and the pointer agrees with it. */
  ghost predicate Ownership(sh: Shared) {
    && PointerAgrees(sh)
    && (forall c: Conn :: sh.ownerCloses[c] ==
          if c < |sh.holder| && (sh.holder[c].Retired? || sh.holder[c].Discarded?) then 1 else 0)
  }

  ghost predicate Publications(sh: Shared) {
    && (forall c: Conn :: c in sh.published <==> Known(sh, c))
    && (forall i, j | 0 <= i < j < |sh.published| :: sh.published[i] != sh.published[j])
  }

  ghost predicate Counters(sh: Shared) {
    var told := |sh.published| - if sh.counting then 1 else 0;
    && told >= 0
    && sh.connected == (told >= 1)
    && sh.reconnects == (if told >= 1 then told - 1 else 0)
    && sh.drops == sh.refills + (if sh.cur == None && |sh.published| > 0 then 1 else 0)
  }

  ghost predicate Shutdown(sh: Shared) {
    && (forall c: Conn :: c in sh.shutdownCloses ==> Known(sh, c))
    && |sh.shutdownCloses| <= 1
    && (sh.settled ==> sh.closed)
    && (!sh.settled ==> sh.shutdownCloses == multiset{} && !sh.closeFailed)
    && (sh.settled && sh.cur.Some? ==> sh.cur.value in sh.shutdownCloses)
  }

  ghost predicate Swaps(sh: Shared) {
    && (forall i | 0 <= i < |sh.swaps| :: sh.swaps[i].prior == None || sh.swaps[i].prior == Some(sh.swaps[i].failed))
    && (forall i | 0 <= i < |sh.swaps| && sh.swaps[i].prior.Some? :: Gone(sh, sh.swaps[i].failed))
    && (forall i, j | 0 <= i < j < |sh.swaps| && sh.swaps[i].prior.Some? :: sh.swaps[i].prior != sh.swaps[j].prior)
    && NilSwaps(sh.swaps) <= sh.refills
  }

  /** The swaps that found the pointer already cleared. */
  function NilSwaps(swaps: seq<Swap>): (n: nat) {
    if swaps == [] then 0
    else NilSwaps(swaps[..|swaps| - 1]) + if swaps[|swaps| - 1].prior == None then 1 else 0
  }

  ghost predicate SharedInv(sh: Shared) {
    Ownership(sh) && Publications(sh) && Counters(sh) && Shutdown(sh) && Swaps(sh)
  }

  // What a program point says about the shared memory, one aspect at a time.

  /** A connection that was current and has been replaced or dropped. */
  function Broken(pc: Pc): Option<Conn> {
    match pc
    case RcCount(_, f, _) => Some(f)
    case RcCloseOld(_, f, _) => Some(f)
    case RcUnlock(_, f, usable) => if usable then Some(f) else None
    case _ => if HasUse(pc) && pc.use.Retry? then Some(pc.use.broken) else None
  }

  predicate HasUse(pc: Pc) {
    || pc.Load? || pc.Lock? || pc.Check? || pc.Reload? || pc.Dial? || pc.Dialed? || pc.Abandon? || pc.Store?
    || pc.Count? || pc.Unlock? || pc.Request?
  }

  /** A published connection the caller works with. */
  function Serving(pc: Pc): Option<Conn> {
    match pc
    case Count(_, c) => Some(c)
    case Unlock(_, found) => found
    case Request(_, c, _) => Some(c)
    case Judge(_, c) => Some(c)
    case JudgeAgain(_, c) => Some(c)
    case RcLock(_, f) => Some(f)
    case RcCheck(_, f) => Some(f)
    case RcLoad(_, f) => Some(f)
    case RcDial(_, f) => Some(f)
    case RcDialed(_, f, _) => Some(f)
    case RcAbandon(_, f, _) => Some(f)
    case RcSwap(_, f, _) => Some(f)
    case RcUnlock(_, f, usable) => if usable then None else Some(f)
    case DropMark(c) => Some(c)
    case DropSwap(c) => Some(c)
    case CloseConn(c) => Some(c)
    case _ => None
  }

  /** The connection a caller dialed and has not handed over. */
  function Carries(pc: Pc): Option<Conn> {
    match pc
    case Dialed(_, c) => Some(c)
    case Abandon(_, c) => Some(c)
    case Store(_, c) => Some(c)
    case RcDialed(_, _, c) => Some(c)
    case RcAbandon(_, _, c) => Some(c)
    case RcSwap(_, _, c) => Some(c)
    case _ => None
  }

  /** The connection a caller removed from the pointer and has not closed. */
  function Removed(pc: Pc): Option<Conn> {
    match pc
    case RcCount(_, _, prior) => prior
    case RcCloseOld(_, _, prior) => prior
    case DropClose(c) => Some(c)
    case _ => None
  }

  predicate BeforeClose(pc: Pc) {
    || pc.Reload? || pc.Dial? || pc.Dialed? || pc.Abandon? || pc.Store? || pc.Count?
    || pc.RcLoad? || pc.RcDial? || pc.RcDialed? || pc.RcAbandon? || pc.RcSwap? || pc.RcCount?
  }

  predicate SawNil(pc: Pc) {
    pc.Dial? || pc.Dialed? || pc.Abandon? || pc.Store?
  }

  predicate SawServing(pc: Pc) {
    pc.RcDial? || pc.RcDialed? || pc.RcAbandon? || pc.RcSwap? || pc.CloseConn?
  }

  ghost predicate PcOk(sh: Shared, pc: Pc) {
    && (Broken(pc).Some? ==> Gone(sh, Broken(pc).value) && Broken(pc) != Serving(pc))
    && (Serving(pc).Some? ==> Known(sh, Serving(pc).value))
    && (BeforeClose(pc) ==> !sh.closed)
    && (SawNil(pc) ==> sh.cur == None)
    && (SawServing(pc) ==> sh.cur == None || sh.cur == Serving(pc))
    && (HoldsLock(pc) ==> sh.counting == (pc.Count? || pc.RcCount?))
    && (pc.RcCount? ==> sh.connected)
    && (HoldsLock(pc) && !pc.CloseLoad? && !pc.CloseConn? && sh.closed ==> sh.settled)
    && (pc.CloseLoad? || pc.CloseConn? ==> sh.closed && !sh.settled && !sh.closeFailed)
    && (pc.CloseUnlock? || pc.CloseDone? ==> sh.settled && pc.failed == sh.closeFailed)
  }

  /** What caller `t` answers for is what its program point is about to hand over or close. */
  ghost predicate Debts(sh: Shared, t: Caller, pc: Pc) {
    && (forall c: Conn :: HeldBy(sh, c, InHand(t)) <==> Carries(pc) == Some(c))
    && (forall c: Conn :: HeldBy(sh, c, Owed(t)) <==> Removed(pc) == Some(c))
  }

  ghost predicate Mutex(s: State) {
    && (s.sh.mu.Some? ==> s.sh.mu.value in s.pc)
    && (forall t | t in s.pc :: HoldsLock(s.pc[t]) <==> s.sh.mu == Some(t))
    && (s.sh.mu == None ==> !s.sh.counting && (s.sh.closed ==> s.sh.settled))
  }

  /** A caller that has not begun holds nothing. */
  ghost predicate Callers(s: State) {
    && (forall t | t in s.pc :: PcOk(s.sh, s.pc[t]) && Debts(s.sh, t, s.pc[t]))
    && (forall t | t !in s.pc :: Debts(s.sh, t, Finished))
  }

  ghost predicate Inv(s: State) {
    SharedInv(s.sh) && Mutex(s) && Callers(s)
  }

  // ------------------------------------------------------------------ every step keeps the invariant

  /** What no step undoes. */
  ghost predicate Advances(sh: Shared, sh': Shared) {
    && (forall c: Conn :: Known(sh, c) ==> Known(sh', c))
    && (forall c: Conn :: Gone(sh, c) ==> Gone(sh', c))
    && sh.published <= sh'.published
    && (sh.closed ==> sh'.closed && sh'.published == sh.published)
  }

  /** What a step of `t` leaves the other callers. */
  ghost predicate Rely(sh: Shared, sh': Shared, t: Caller) {
    && Advances(sh, sh')
    && (forall c: Conn, u | u != t :: HeldBy(sh, c, InHand(u)) <==> HeldBy(sh', c, InHand(u)))
    && (forall c: Conn, u | u != t :: HeldBy(sh, c, Owed(u)) <==> HeldBy(sh', c, Owed(u)))
    && (sh.settled ==> sh'.settled && sh'.closeFailed == sh.closeFailed)
    && (sh.mu != None && sh.mu != Some(t) ==>
          && sh'.mu == sh.mu && sh'.closed == sh.closed
          && sh'.settled == sh.settled && sh'.closeFailed == sh.closeFailed
          && sh'.counting == sh.counting && sh'.connected == sh.connected
          && (sh'.cur == sh.cur || sh'.cur == None))
  }

  lemma InitInv(watchdog: bool)
    ensures Inv(Init(watchdog))
  {
  }

  lemma OtherKeepsItsPoint(sh: Shared, sh': Shared, t: Caller, u: Caller, pc: Pc)
    requires Rely(sh, sh', t) && u != t
    requires PcOk(sh, pc)
    requires HoldsLock(pc) ==> sh.mu == Some(u)
    ensures PcOk(sh', pc)
  {
  }

  lemma OtherKeepsItsDebts(sh: Shared, sh': Shared, t: Caller, u: Caller, pc: Pc)
    requires Rely(sh, sh', t) && u != t && Debts(sh, u, pc)
    ensures Debts(sh', u, pc)
  {
  }

  lemma DialKeeps(sh: Shared, t: Caller)
    requires SharedInv(sh)
    ensures SharedInv(DialedBy(sh, t)) && Rely(sh, DialedBy(sh, t), t)
  {
  }

  lemma DiscardKeeps(sh: Shared, t: Caller, c: Conn)
    requires SharedInv(sh) && HeldBy(sh, c, InHand(t))
    ensures SharedInv(ClosedByOwner(sh, c, Discarded)) && Rely(sh, ClosedByOwner(sh, c, Discarded), t)
  {
  }

  lemma RetireKeeps(sh: Shared, t: Caller, c: Conn)
    requires SharedInv(sh) && HeldBy(sh, c, Owed(t))
    ensures SharedInv(ClosedByOwner(sh, c, Retired)) && Rely(sh, ClosedByOwner(sh, c, Retired), t)
  {
  }

  lemma StoreKeeps(sh: Shared, t: Caller, u: Use, c: Conn)
    requires SharedInv(sh) && PcOk(sh, Store(u, c)) && HeldBy(sh, c, InHand(t)) && sh.mu == Some(t)
    ensures SharedInv(Stored(sh, c)) && Rely(sh, Stored(sh, c), t)
  {
    assert c !in sh.published;
  }

  lemma SwapKeepsOwners(sh: Shared, t: Caller, op: Op, f: Conn, c: Conn)
    requires SharedInv(sh) && PcOk(sh, RcSwap(op, f, c)) && HeldBy(sh, c, InHand(t)) && sh.mu == Some(t)
    ensures Ownership(Swapped(sh, t, f, c)) && Rely(sh, Swapped(sh, t, f, c), t)
  {
  }

  lemma SwapKeepsHistory(sh: Shared, t: Caller, op: Op, f: Conn, c: Conn)
    requires SharedInv(sh) && PcOk(sh, RcSwap(op, f, c)) && HeldBy(sh, c, InHand(t))
    ensures var sh' := Swapped(sh, t, f, c); Publications(sh') && Counters(sh') && Shutdown(sh')
  {
    assert c !in sh.published && f in sh.published;
  }

  /** One more swap, of a connection that goes with it. */
  lemma SwapsGrow(sh: Shared, sh': Shared, last: Swap)
    requires Swaps(sh) && sh'.swaps == sh.swaps + [last] && (forall d: Conn | Gone(sh, d) :: Gone(sh', d))
    requires last.prior == None || (last.prior == Some(last.failed) && !Gone(sh, last.failed) && Gone(sh', last.failed))
    requires sh'.refills == sh.refills + if last.prior == None then 1 else 0
    ensures Swaps(sh')
  {
    NilSwapsNext(sh.swaps, last);
    hide Gone, NilSwaps;
  }

  lemma SwapKeepsSwaps(sh: Shared, t: Caller, op: Op, f: Conn, c: Conn)
    requires SharedInv(sh) && PcOk(sh, RcSwap(op, f, c)) && HeldBy(sh, c, InHand(t))
    ensures Swaps(Swapped(sh, t, f, c))
  {
    var sh' := Swapped(sh, t, f, c);
    assert sh.cur.Some? ==> sh.cur == Some(f) && !Gone(sh, f) && f != c;
    assert forall d: Conn | Gone(sh, d) :: Gone(sh', d);
    assert sh.cur.Some? ==> Gone(sh', f);
    hide Swaps, Ownership, Publications, Counters, Shutdown, PcOk, Gone, HeldBy;
    SwapsGrow(sh, sh', Swap(f, sh.cur));
  }

  lemma NilSwapsNext(swaps: seq<Swap>, last: Swap)
    ensures NilSwaps(swaps + [last]) == NilSwaps(swaps) + if last.prior == None then 1 else 0
  {
    assert (swaps + [last])[..|swaps|] == swaps;
  }

  lemma SwapKeeps(sh: Shared, t: Caller, op: Op, f: Conn, c: Conn)
    requires SharedInv(sh) && PcOk(sh, RcSwap(op, f, c)) && HeldBy(sh, c, InHand(t)) && sh.mu == Some(t)
    ensures SharedInv(Swapped(sh, t, f, c)) && Rely(sh, Swapped(sh, t, f, c), t)
  {
    hide Rely;
    SwapKeepsOwners(sh, t, op, f, c);
    SwapKeepsHistory(sh, t, op, f, c);
    SwapKeepsSwaps(sh, t, op, f, c);
  }

  lemma DropKeeps(sh: Shared, t: Caller, c: Conn)
    requires SharedInv(sh) && sh.cur == Some(c)
    ensures SharedInv(Dropped(sh, t, c)) && Rely(sh, Dropped(sh, t, c), t)
  {
    assert c in sh.published;
  }

  lemma CountKeeps(sh: Shared, t: Caller, u: Use, c: Conn)
    requires SharedInv(sh) && PcOk(sh, Count(u, c)) && sh.mu == Some(t)
    ensures var sh' := if sh.connected then sh.(reconnects := sh.reconnects + 1, counting := false)
                       else sh.(connected := true, counting := false);
            SharedInv(sh') && Rely(sh, sh', t)
  {
  }

  lemma ReportKeeps(sh: Shared, t: Caller, op: Op, f: Conn, prior: Option<Conn>)
    requires SharedInv(sh) && PcOk(sh, RcCount(op, f, prior)) && sh.mu == Some(t)
    ensures var sh' := sh.(connected := true, reconnects := sh.reconnects + 1, counting := false);
            SharedInv(sh') && Rely(sh, sh', t)
  {
  }

  /** The steps that only take or release the mutex, or set flags nothing depends on. */
  ghost predicate Plain(sh: Shared, sh': Shared, t: Caller) {
    && sh' == sh.(mu := sh'.mu, canceled := sh'.canceled, unanswered := sh'.unanswered, failed := sh'.failed)
    && (sh.mu != None && sh.mu != Some(t) ==> sh'.mu == sh.mu)
  }

  lemma PlainKeeps(sh: Shared, sh': Shared, t: Caller)
    requires SharedInv(sh) && Plain(sh, sh', t)
    ensures SharedInv(sh') && Rely(sh, sh', t)
  {
  }

  lemma ShutdownKeeps(sh: Shared, t: Caller, ok: bool)
    requires SharedInv(sh) && sh.closed && !sh.settled && sh.mu == Some(t)
    ensures sh.cur == None ==> var sh' := sh.(settled := true); SharedInv(sh') && Rely(sh, sh', t)
    ensures forall c | Known(sh, c) && (sh.cur == None || sh.cur == Some(c)) ::
              var sh' := sh.(shutdownCloses := sh.shutdownCloses + multiset{c}, closeFailed := !ok, settled := true);
              SharedInv(sh') && Rely(sh, sh', t)
  {
  }

  lemma CloseLockKeeps(sh: Shared, t: Caller)
    requires SharedInv(sh) && !sh.closed && sh.mu == None
    ensures var sh' := sh.(mu := Some(t), closed := true); SharedInv(sh') && Rely(sh, sh', t)
  {
  }

  ghost predicate LockFree(sh: Shared) {
    sh.mu == None ==> !sh.counting && (sh.closed ==> sh.settled)
  }

  /** Caller `t` holds the mutex where its program point says so, and pays the debts it has. */
  ghost predicate Entitled(sh: Shared, t: Caller, pc: Pc) {
    && (HoldsLock(pc) <==> sh.mu == Some(t))
    && (TakesLock(pc) ==> sh.mu == None)
    && (Carries(pc).Some? ==> HeldBy(sh, Carries(pc).value, InHand(t)))
    && (Removed(pc).Some? ==> HeldBy(sh, Removed(pc).value, Owed(t)))
  }

  lemma PlainConnection(sh: Shared, t: Caller, pc: Pc, ok: bool)
    requires !pc.Dial? && !pc.Abandon? && !pc.Store? && !pc.Count? && Entitled(sh, t, pc)
    ensures Plain(sh, ConnectionMove(sh, t, pc, ok).0, t)
  {
  }

  lemma ConnectionKeeps(sh: Shared, t: Caller, pc: Pc, ok: bool)
    requires SharedInv(sh) && PcOk(sh, pc) && Entitled(sh, t, pc)
    ensures var (sh', pc') := ConnectionMove(sh, t, pc, ok); SharedInv(sh') && Rely(sh, sh', t)
  {
    PlainKeeps(sh, sh, t);
    hide SharedInv, Rely, PcOk;
    if pc.Dial? {
      DialKeeps(sh, t);
    } else if pc.Abandon? {
      DiscardKeeps(sh, t, pc.made);
    } else if pc.Store? {
      StoreKeeps(sh, t, pc.use, pc.made);
    } else if pc.Count? {
      CountKeeps(sh, t, pc.use, pc.made);
    } else {
      hide Entitled;
      PlainConnection(sh, t, pc, ok);
      PlainKeeps(sh, ConnectionMove(sh, t, pc, ok).0, t);
    }
  }

  lemma PlainReconnect(sh: Shared, t: Caller, pc: Pc, ok: bool)
    requires pc.RcLock? || pc.RcCheck? || pc.RcLoad? || pc.RcDialed? || pc.RcUnlock?
    requires Entitled(sh, t, pc)
    ensures Plain(sh, ReconnectMove(sh, t, pc, ok).0, t)
  {
  }

  lemma ReconnectKeeps(sh: Shared, t: Caller, pc: Pc, ok: bool)
    requires SharedInv(sh) && PcOk(sh, pc) && Entitled(sh, t, pc)
    requires pc.RcDial? || pc.RcAbandon? || pc.RcSwap?
    ensures var (sh', pc') := ReconnectMove(sh, t, pc, ok); SharedInv(sh') && Rely(sh, sh', t)
  {
    PlainKeeps(sh, sh, t);
    hide SharedInv, Rely, PcOk, Entitled;
    match pc
    case RcDial(_, _) => DialKeeps(sh, t);
    case RcAbandon(_, _, c) => DiscardKeeps(sh, t, c);
    case RcSwap(op, f, c) => SwapKeeps(sh, t, op, f, c);
  }

  lemma RcCloseKeeps(sh: Shared, t: Caller, pc: Pc, ok: bool)
    requires SharedInv(sh) && PcOk(sh, pc) && Entitled(sh, t, pc)
    requires pc.RcCount? || pc.RcCloseOld?
    ensures var (sh', pc') := ReconnectMove(sh, t, pc, ok); SharedInv(sh') && Rely(sh, sh', t)
  {
    PlainKeeps(sh, sh, t);
    hide SharedInv, Rely, PcOk, Entitled;
    if pc.RcCount? { ReportKeeps(sh, t, pc.op, pc.conn, pc.prior); }
    else if pc.prior.Some? { RetireKeeps(sh, t, pc.prior.value); }
  }

  lemma DropMoveKeeps(sh: Shared, t: Caller, pc: Pc)
    requires SharedInv(sh) && Entitled(sh, t, pc) && InDrop(pc)
    ensures var (sh', pc') := DropMove(sh, t, pc); SharedInv(sh') && Rely(sh, sh', t)
  {
    hide SharedInv, Rely;
    match pc
    case DropMark(c) => PlainKeeps(sh, sh, t); PlainKeeps(sh, sh.(unanswered := sh.unanswered + {c}), t);
    case DropSwap(c) => if sh.cur == Some(c) { DropKeeps(sh, t, c); } else { PlainKeeps(sh, sh, t); }
    case DropClose(c) => RetireKeeps(sh, t, c);
  }

  lemma PlainClose(sh: Shared, t: Caller, pc: Pc, ok: bool)
    requires pc.CloseCancel? || pc.CloseUnlock? || (pc.CloseLock? && sh.closed) || (pc.CloseLoad? && sh.cur.Some?)
    requires Entitled(sh, t, pc)
    ensures Plain(sh, CloseMove(sh, t, pc, ok).0, t)
  {
  }

  lemma CloseMoveKeeps(sh: Shared, t: Caller, pc: Pc, ok: bool)
    requires SharedInv(sh) && PcOk(sh, pc) && Entitled(sh, t, pc) && InClose(pc)
    ensures var (sh', pc') := CloseMove(sh, t, pc, ok); SharedInv(sh') && Rely(sh, sh', t)
  {
    hide SharedInv, Rely;
    if pc.CloseLock? && !sh.closed {
      CloseLockKeeps(sh, t);
    } else if pc.CloseConn? || (pc.CloseLoad? && sh.cur == None) {
      ShutdownKeeps(sh, t, ok);
    } else {
      PlainClose(sh, t, pc, ok);
      PlainKeeps(sh, CloseMove(sh, t, pc, ok).0, t);
    }
  }

  ghost predicate Arrives(sh: Shared, t: Caller, pc: Pc, sh': Shared, pc': Pc) {
    && PcOk(sh', pc') && LockFree(sh')
    && (if HoldsLock(pc') then sh'.mu == Some(t) else if HoldsLock(pc) then sh'.mu == None else sh'.mu == sh.mu)
  }

  /** What arriving at the next point depends on. */
  ghost predicate Poised(sh: Shared, t: Caller, pc: Pc) {
    PointerAgrees(sh) && PcOk(sh, pc) && LockFree(sh) && Entitled(sh, t, pc)
  }

  lemma LoadPoint(sh: Shared, t: Caller, pc: Pc, ok: bool)
    requires Poised(sh, t, pc) && pc.Load?
    ensures var (sh', pc') := ConnectionMove(sh, t, pc, ok); Arrives(sh, t, pc, sh', pc')
  {
  }

  lemma LockPoint(sh: Shared, t: Caller, pc: Pc, ok: bool)
    requires Poised(sh, t, pc) && pc.Lock?
    ensures var (sh', pc') := ConnectionMove(sh, t, pc, ok); Arrives(sh, t, pc, sh', pc')
  {
  }

  lemma CheckPoint(sh: Shared, t: Caller, pc: Pc, ok: bool)
    requires Poised(sh, t, pc) && pc.Check?
    ensures var (sh', pc') := ConnectionMove(sh, t, pc, ok); Arrives(sh, t, pc, sh', pc')
  {
  }

  lemma ReloadPoint(sh: Shared, t: Caller, pc: Pc, ok: bool)
    requires Poised(sh, t, pc) && pc.Reload?
    ensures var (sh', pc') := ConnectionMove(sh, t, pc, ok); Arrives(sh, t, pc, sh', pc')
  {
  }

  lemma DialPoint(sh: Shared, t: Caller, pc: Pc, ok: bool)
    requires Poised(sh, t, pc) && pc.Dial?
    ensures var (sh', pc') := ConnectionMove(sh, t, pc, ok); Arrives(sh, t, pc, sh', pc')
  {
  }

  lemma DialedPoint(sh: Shared, t: Caller, pc: Pc, ok: bool)
    requires Poised(sh, t, pc) && pc.Dialed?
    ensures var (sh', pc') := ConnectionMove(sh, t, pc, ok); Arrives(sh, t, pc, sh', pc')
  {
  }

  lemma AbandonPoint(sh: Shared, t: Caller, pc: Pc, ok: bool)
    requires Poised(sh, t, pc) && pc.Abandon?
    ensures var (sh', pc') := ConnectionMove(sh, t, pc, ok); Arrives(sh, t, pc, sh', pc')
  {
  }

  lemma StorePoint(sh: Shared, t: Caller, pc: Pc, ok: bool)
    requires Poised(sh, t, pc) && pc.Store?
    ensures var (sh', pc') := ConnectionMove(sh, t, pc, ok); Arrives(sh, t, pc, sh', pc')
  {
  }

  lemma CountPoint(sh: Shared, t: Caller, pc: Pc, ok: bool)
    requires Poised(sh, t, pc) && pc.Count?
    ensures var (sh', pc') := ConnectionMove(sh, t, pc, ok); Arrives(sh, t, pc, sh', pc')
  {
  }

  lemma JudgeArrives(sh: Shared, t: Caller, pc: Pc, ok: bool)
    requires Poised(sh, t, pc)
    requires pc.Judge? || pc.JudgeAgain?
    ensures var (sh', pc') := ConnectionMove(sh, t, pc, ok); Arrives(sh, t, pc, sh', pc')
  {
  }

  lemma RcLockPoint(sh: Shared, t: Caller, pc: Pc, ok: bool)
    requires Poised(sh, t, pc) && pc.RcLock?
    ensures var (sh', pc') := ReconnectMove(sh, t, pc, ok); Arrives(sh, t, pc, sh', pc')
  {
  }

  lemma RcCheckPoint(sh: Shared, t: Caller, pc: Pc, ok: bool)
    requires Poised(sh, t, pc) && pc.RcCheck?
    ensures var (sh', pc') := ReconnectMove(sh, t, pc, ok); Arrives(sh, t, pc, sh', pc')
  {
  }

  lemma RcLoadPoint(sh: Shared, t: Caller, pc: Pc, ok: bool)
    requires Poised(sh, t, pc) && pc.RcLoad?
    ensures var (sh', pc') := ReconnectMove(sh, t, pc, ok); Arrives(sh, t, pc, sh', pc')
  {
  }

  lemma RcDialPoint(sh: Shared, t: Caller, pc: Pc, ok: bool)
    requires Poised(sh, t, pc) && pc.RcDial?
    ensures var (sh', pc') := ReconnectMove(sh, t, pc, ok); Arrives(sh, t, pc, sh', pc')
  {
  }

  lemma RcDialedPoint(sh: Shared, t: Caller, pc: Pc, ok: bool)
    requires Poised(sh, t, pc) && pc.RcDialed?
    ensures var (sh', pc') := ReconnectMove(sh, t, pc, ok); Arrives(sh, t, pc, sh', pc')
  {
  }

  lemma RcAbandonPoint(sh: Shared, t: Caller, pc: Pc, ok: bool)
    requires Poised(sh, t, pc) && pc.RcAbandon?
    ensures var (sh', pc') := ReconnectMove(sh, t, pc, ok); Arrives(sh, t, pc, sh', pc')
  {
  }

  lemma RcSwapPoint(sh: Shared, t: Caller, pc: Pc, ok: bool)
    requires Poised(sh, t, pc) && pc.RcSwap? && sh.connected
    ensures var (sh', pc') := ReconnectMove(sh, t, pc, ok); Arrives(sh, t, pc, sh', pc')
  {
  }

  lemma RcCountPoint(sh: Shared, t: Caller, pc: Pc, ok: bool)
    requires Poised(sh, t, pc) && pc.RcCount?
    ensures var (sh', pc') := ReconnectMove(sh, t, pc, ok); Arrives(sh, t, pc, sh', pc')
  {
  }

  /** Closing a connection for good leaves everything but its holder alone. */
  lemma RetireFacts(sh: Shared, c: Conn, f: Conn)
    ensures var sh' := ClosedByOwner(sh, c, Retired);
            && sh' == sh.(holder := sh'.holder, ownerCloses := sh'.ownerCloses)
            && (Gone(sh, f) ==> Gone(sh', f))
  {
  }

  lemma RcCloseOldPoint(sh: Shared, t: Caller, pc: Pc, ok: bool)
    requires Poised(sh, t, pc) && pc.RcCloseOld?
    ensures var (sh', pc') := ReconnectMove(sh, t, pc, ok); Arrives(sh, t, pc, sh', pc')
  {
    hide ClosedByOwner, Gone, HeldBy, PointerAgrees;
    if pc.prior.Some? { RetireFacts(sh, pc.prior.value, pc.conn); }
  }

  lemma UnlockPoint(sh: Shared, t: Caller, pc: Pc, ok: bool)
    requires Poised(sh, t, pc) && pc.Unlock?
    ensures var (sh', pc') := ConnectionMove(sh, t, pc, ok); Arrives(sh, t, pc, sh', pc')
  {
  }

  lemma RcUnlockPoint(sh: Shared, t: Caller, pc: Pc, ok: bool)
    requires Poised(sh, t, pc) && pc.RcUnlock?
    ensures var (sh', pc') := ReconnectMove(sh, t, pc, ok); Arrives(sh, t, pc, sh', pc')
  {
  }

  lemma DropArrives(sh: Shared, t: Caller, pc: Pc)
    requires LockFree(sh) && Entitled(sh, t, pc) && InDrop(pc) && PcOk(sh, pc)
    ensures var (sh', pc') := DropMove(sh, t, pc); Arrives(sh, t, pc, sh', pc')
  {
    hide Entitled, PcOk;
    var (sh', pc') := DropMove(sh, t, pc);
    assert !HoldsLock(pc) && !HoldsLock(pc') && sh'.mu == sh.mu;
    if pc'.DropSwap? {
      SameServing(sh, sh', pc, pc');
    } else {
      NoClaims(sh', pc');
    }
  }

  /** A lock-free point that goes on with the same published connection. */
  lemma SameServing(sh: Shared, sh': Shared, pc: Pc, pc': Pc)
    requires PcOk(sh, pc) && pc.DropMark? && pc' == DropSwap(pc.conn) && sh'.holder == sh.holder
    ensures PcOk(sh', pc')
  {
  }

  /** Points that say nothing about the shared memory. */
  lemma NoClaims(sh: Shared, pc: Pc)
    requires pc.Finished? || pc.DropClose?
    ensures PcOk(sh, pc)
  {
  }

  lemma CancelArrives(sh: Shared, t: Caller, ok: bool)
    requires Poised(sh, t, CloseCancel)
    ensures var (sh', pc') := CloseMove(sh, t, CloseCancel, ok); Arrives(sh, t, CloseCancel, sh', pc')
  {
  }

  lemma CloseEnters(sh: Shared, t: Caller, ok: bool)
    requires Poised(sh, t, CloseLock)
    requires !sh.closed ==> !sh.settled && !sh.closeFailed
    ensures var (sh', pc') := CloseMove(sh, t, CloseLock, ok); Arrives(sh, t, CloseLock, sh', pc')
  {
  }

  lemma CloseLoadArrives(sh: Shared, t: Caller, ok: bool)
    requires Poised(sh, t, CloseLoad)
    ensures var (sh', pc') := CloseMove(sh, t, CloseLoad, ok); Arrives(sh, t, CloseLoad, sh', pc')
  {
  }

  lemma CloseConnArrives(sh: Shared, t: Caller, pc: Pc, ok: bool)
    requires Poised(sh, t, pc) && pc.CloseConn?
    ensures var (sh', pc') := CloseMove(sh, t, pc, ok); Arrives(sh, t, pc, sh', pc')
  {
  }

  lemma CloseUnlockPoint(sh: Shared, t: Caller, pc: Pc, ok: bool)
    requires Poised(sh, t, pc) && pc.CloseUnlock?
    ensures var (sh', pc') := CloseMove(sh, t, pc, ok); Arrives(sh, t, pc, sh', pc')
  {
  }

  lemma SameDebts(sh: Shared, sh': Shared, t: Caller, pc: Pc, pc': Pc)
    requires Debts(sh, t, pc)
    requires sh'.holder == sh.holder && Carries(pc') == Carries(pc) && Removed(pc') == Removed(pc)
    ensures Debts(sh', t, pc')
  {
  }

  /** A new connection is in the dialer's hand. */
  lemma DialSettles(sh: Shared, t: Caller, pc: Pc, pc': Pc)
    requires Debts(sh, t, pc) && Carries(pc) == None && Carries(pc') == Some(|sh.holder|) && Removed(pc') == Removed(pc)
    ensures Debts(DialedBy(sh, t), t, pc')
  {
  }

  /** A connection closed by its owner is no debt any more. */
  lemma ClosedSettles(sh: Shared, t: Caller, pc: Pc, c: Conn, h: Holder, pc': Pc)
    requires Debts(sh, t, pc) && (Carries(pc) == Some(c) || Removed(pc) == Some(c)) && (h.Retired? || h.Discarded?)
    requires Carries(pc) == None || Removed(pc) == None
    requires Carries(pc') == None && Removed(pc') == None
    ensures Debts(ClosedByOwner(sh, c, h), t, pc')
  {
  }

  lemma StoreSettles(sh: Shared, t: Caller, u: Use, c: Conn)
    requires Debts(sh, t, Store(u, c))
    ensures Debts(Stored(sh, c), t, Count(u, c))
  {
  }

  /** At most the mutex and the counters differ. */
  predicate BooksOnly(sh: Shared, sh': Shared) {
    sh' == sh.(mu := sh'.mu, connected := sh'.connected, reconnects := sh'.reconnects, counting := sh'.counting)
  }

  lemma IdleConnectionHolds(sh: Shared, t: Caller, pc: Pc, ok: bool)
    requires !pc.Dial? && !pc.Abandon? && !pc.Store?
    ensures BooksOnly(sh, ConnectionMove(sh, t, pc, ok).0)
  {
    hide Stored, DialedBy, ClosedByOwner;
  }

  lemma IdleConnectionOwes(sh: Shared, t: Caller, pc: Pc, ok: bool)
    requires !pc.Dial? && !pc.Abandon? && !pc.Store?
    ensures var pc' := ConnectionMove(sh, t, pc, ok).1; Carries(pc') == Carries(pc) && Removed(pc') == Removed(pc)
  {
    hide Stored, DialedBy, ClosedByOwner;
  }

  lemma IdleConnection(sh: Shared, t: Caller, pc: Pc, ok: bool)
    requires !pc.Dial? && !pc.Abandon? && !pc.Store?
    ensures var (sh', pc') := ConnectionMove(sh, t, pc, ok);
            sh'.holder == sh.holder && Carries(pc') == Carries(pc) && Removed(pc') == Removed(pc)
  {
    hide ConnectionMove, Carries, Removed;
    IdleConnectionHolds(sh, t, pc, ok);
    IdleConnectionOwes(sh, t, pc, ok);
  }

  lemma ConnectionSettles(sh: Shared, t: Caller, pc: Pc, ok: bool)
    requires Debts(sh, t, pc)
    ensures var (sh', pc') := ConnectionMove(sh, t, pc, ok); Debts(sh', t, pc')
  {
    hide Debts, DialedBy, ClosedByOwner, Stored;
    var (sh', pc') := ConnectionMove(sh, t, pc, ok);
    match pc
    case Dial(_) => if ok { DialSettles(sh, t, pc, pc'); } else { SameDebts(sh, sh', t, pc, pc'); }
    case Abandon(_, c) => ClosedSettles(sh, t, pc, c, Discarded, pc');
    case Store(u, c) => StoreSettles(sh, t, u, c);
    case _ =>
      hide ConnectionMove;
      IdleConnection(sh, t, pc, ok);
      SameDebts(sh, sh', t, pc, pc');
  }

  lemma SwapSettles(sh: Shared, t: Caller, op: Op, f: Conn, c: Conn)
    requires Debts(sh, t, RcSwap(op, f, c)) && PointerAgrees(sh)
    ensures Debts(Swapped(sh, t, f, c), t, RcCount(op, f, sh.cur))
  {
  }

  lemma ReconnectSettles(sh: Shared, t: Caller, pc: Pc, ok: bool)
    requires Debts(sh, t, pc) && (pc.RcDial? || pc.RcAbandon? || pc.RcCloseOld?)
    ensures var (sh', pc') := ReconnectMove(sh, t, pc, ok); Debts(sh', t, pc')
  {
    hide Debts, DialedBy, ClosedByOwner;
    var (sh', pc') := ReconnectMove(sh, t, pc, ok);
    match pc
    case RcDial(_, _) => if ok { DialSettles(sh, t, pc, pc'); } else { SameDebts(sh, sh', t, pc, pc'); }
    case RcAbandon(_, _, c) => ClosedSettles(sh, t, pc, c, Discarded, pc');
    case RcCloseOld(_, _, prior) =>
      if prior.Some? { ClosedSettles(sh, t, pc, prior.value, Retired, pc'); } else { SameDebts(sh, sh', t, pc, pc'); }
  }

  lemma IdleReconnectHolds(sh: Shared, t: Caller, pc: Pc, ok: bool)
    requires InReconnect(pc) && !pc.RcDial? && !pc.RcAbandon? && !pc.RcCloseOld? && !pc.RcSwap?
    ensures BooksOnly(sh, ReconnectMove(sh, t, pc, ok).0)
  {
    hide Swapped, DialedBy, ClosedByOwner;
  }

  lemma IdleReconnectOwes(sh: Shared, t: Caller, pc: Pc, ok: bool)
    requires InReconnect(pc) && !pc.RcDial? && !pc.RcAbandon? && !pc.RcCloseOld? && !pc.RcSwap?
    ensures var pc' := ReconnectMove(sh, t, pc, ok).1; Carries(pc') == Carries(pc) && Removed(pc') == Removed(pc)
  {
    hide Swapped, DialedBy, ClosedByOwner;
  }

  lemma IdleReconnect(sh: Shared, t: Caller, pc: Pc, ok: bool)
    requires InReconnect(pc) && !pc.RcDial? && !pc.RcAbandon? && !pc.RcCloseOld? && !pc.RcSwap?
    ensures var (sh', pc') := ReconnectMove(sh, t, pc, ok);
            sh'.holder == sh.holder && Carries(pc') == Carries(pc) && Removed(pc') == Removed(pc)
  {
    hide ReconnectMove, Carries, Removed;
    IdleReconnectHolds(sh, t, pc, ok);
    IdleReconnectOwes(sh, t, pc, ok);
  }

  lemma RcIdleSettles(sh: Shared, t: Caller, pc: Pc, ok: bool)
    requires Debts(sh, t, pc)
    requires InReconnect(pc) && !pc.RcDial? && !pc.RcAbandon? && !pc.RcCloseOld? && !pc.RcSwap?
    ensures var (sh', pc') := ReconnectMove(sh, t, pc, ok); Debts(sh', t, pc')
  {
    hide Debts, ReconnectMove;
    var (sh', pc') := ReconnectMove(sh, t, pc, ok);
    IdleReconnect(sh, t, pc, ok);
    SameDebts(sh, sh', t, pc, pc');
  }

  lemma DroppedSettles(sh: Shared, t: Caller, c: Conn)
    requires Debts(sh, t, DropSwap(c)) && PointerAgrees(sh) && sh.cur == Some(c)
    ensures Debts(Dropped(sh, t, c), t, DropClose(c))
  {
  }

  lemma MarkSettles(sh: Shared, t: Caller, c: Conn)
    requires Debts(sh, t, DropMark(c))
    ensures var (sh', pc') := DropMove(sh, t, DropMark(c)); Debts(sh', t, pc')
  {
    hide Debts;
    if c in sh.unanswered { SameDebts(sh, sh, t, DropMark(c), Finished); }
    else { SameDebts(sh, sh.(unanswered := sh.unanswered + {c}), t, DropMark(c), DropSwap(c)); }
  }

  lemma DropSwapSettles(sh: Shared, t: Caller, c: Conn)
    requires Debts(sh, t, DropSwap(c)) && PointerAgrees(sh)
    ensures var (sh', pc') := DropMove(sh, t, DropSwap(c)); Debts(sh', t, pc')
  {
    hide Debts, Dropped, PointerAgrees;
    if sh.cur == Some(c) { DroppedSettles(sh, t, c); } else { SameDebts(sh, sh, t, DropSwap(c), Finished); }
  }

  lemma DropSettles(sh: Shared, t: Caller, pc: Pc)
    requires Debts(sh, t, pc) && PointerAgrees(sh) && InDrop(pc)
    ensures var (sh', pc') := DropMove(sh, t, pc); Debts(sh', t, pc')
  {
    hide Debts, ClosedByOwner, PointerAgrees, Dropped;
    match pc
    case DropMark(c) =>
      hide DropMove;
      MarkSettles(sh, t, c);
    case DropSwap(c) =>
      hide DropMove;
      DropSwapSettles(sh, t, c);
    case DropClose(c) => ClosedSettles(sh, t, pc, c, Retired, Finished);
  }

  lemma CloseHolds(sh: Shared, t: Caller, pc: Pc, ok: bool)
    requires InClose(pc)
    ensures CloseMove(sh, t, pc, ok).0.holder == sh.holder
  {
    match pc
    case CloseCancel =>
    case CloseLock =>
    case CloseLoad =>
    case CloseConn(_) =>
    case CloseUnlock(_) =>
  }

  lemma CloseOwesNothing(sh: Shared, t: Caller, pc: Pc, ok: bool)
    requires InClose(pc)
    ensures var pc' := CloseMove(sh, t, pc, ok).1;
            Carries(pc') == Carries(pc) == None
            && Removed(pc') == Removed(pc) == None
  {
  }

  lemma CloseSettles(sh: Shared, t: Caller, pc: Pc, ok: bool)
    requires Debts(sh, t, pc) && InClose(pc)
    ensures var (sh', pc') := CloseMove(sh, t, pc, ok); Debts(sh', t, pc')
  {
    hide Debts, CloseMove, Carries, Removed;
    var (sh', pc') := CloseMove(sh, t, pc, ok);
    CloseHolds(sh, t, pc, ok);
    CloseOwesNothing(sh, t, pc, ok);
    SameDebts(sh, sh', t, pc, pc');
  }

  /** A published connection, counted: the client knows it has been connected before. */
  lemma KnownMeansConnected(sh: Shared, f: Conn)
    requires SharedInv(sh) && Known(sh, f) && !sh.counting
    ensures sh.connected
  {
    assert f in sh.published;
  }

  /** A step of one caller keeps the shared invariant and what every other caller relies on. */
  lemma MoveKeeps(sh: Shared, t: Caller, pc: Pc, ok: bool)
    requires SharedInv(sh) && PcOk(sh, pc) && Entitled(sh, t, pc)
    ensures var (sh', pc') := Move(sh, t, pc, ok); SharedInv(sh') && Rely(sh, sh', t)
  {
    hide SharedInv, Rely;
    if pc.RcLock? || pc.RcCheck? || pc.RcLoad? || pc.RcDialed? || pc.RcUnlock? {
      PlainReconnect(sh, t, pc, ok);
      PlainKeeps(sh, ReconnectMove(sh, t, pc, ok).0, t);
    }
    else if pc.RcCount? || pc.RcCloseOld? { RcCloseKeeps(sh, t, pc, ok); }
    else if InReconnect(pc) { ReconnectKeeps(sh, t, pc, ok); }
    else if InDrop(pc) { DropMoveKeeps(sh, t, pc); }
    else if InClose(pc) { CloseMoveKeeps(sh, t, pc, ok); }
    else { ConnectionKeeps(sh, t, pc, ok); }
  }

  lemma MoveSettles(sh: Shared, t: Caller, pc: Pc, ok: bool)
    requires Debts(sh, t, pc) && PointerAgrees(sh)
    ensures var (sh', pc') := Move(sh, t, pc, ok); Debts(sh', t, pc')
  {
    hide Debts, PointerAgrees;
    if pc.RcSwap? { SwapSettles(sh, t, pc.op, pc.conn, pc.made); }
    else if pc.RcDial? || pc.RcAbandon? || pc.RcCloseOld? { ReconnectSettles(sh, t, pc, ok); }
    else if InReconnect(pc) { RcIdleSettles(sh, t, pc, ok); }
    else if InDrop(pc) { DropSettles(sh, t, pc); }
    else if InClose(pc) { CloseSettles(sh, t, pc, ok); }
    else { ConnectionSettles(sh, t, pc, ok); }
  }

  lemma ReconnectMoveArrives(sh: Shared, t: Caller, pc: Pc, ok: bool)
    requires SharedInv(sh) && Poised(sh, t, pc) && InReconnect(pc)
    ensures var (sh', pc') := ReconnectMove(sh, t, pc, ok); Arrives(sh, t, pc, sh', pc')
  {
    if pc.RcSwap? { KnownMeansConnected(sh, pc.conn); }
    hide Arrives, Poised, ReconnectMove;
    match pc
    case RcLock(_, _) => RcLockPoint(sh, t, pc, ok);
    case RcCheck(_, _) => RcCheckPoint(sh, t, pc, ok);
    case RcLoad(_, _) => RcLoadPoint(sh, t, pc, ok);
    case RcDial(_, _) => RcDialPoint(sh, t, pc, ok);
    case RcDialed(_, _, _) => RcDialedPoint(sh, t, pc, ok);
    case RcAbandon(_, _, _) => RcAbandonPoint(sh, t, pc, ok);
    case RcSwap(_, _, _) => RcSwapPoint(sh, t, pc, ok);
    case RcCount(_, _, _) => RcCountPoint(sh, t, pc, ok);
    case RcCloseOld(_, _, _) => RcCloseOldPoint(sh, t, pc, ok);
    case RcUnlock(_, _, _) => RcUnlockPoint(sh, t, pc, ok);
  }

  lemma CloseMoveArrives(sh: Shared, t: Caller, pc: Pc, ok: bool)
    requires SharedInv(sh) && Poised(sh, t, pc) && InClose(pc)
    ensures var (sh', pc') := CloseMove(sh, t, pc, ok); Arrives(sh, t, pc, sh', pc')
  {
    assert !sh.closed ==> !sh.settled && !sh.closeFailed;
    hide Arrives, Poised, SharedInv, CloseMove;
    match pc
    case CloseCancel => CancelArrives(sh, t, ok);
    case CloseLock => CloseEnters(sh, t, ok);
    case CloseLoad => CloseLoadArrives(sh, t, ok);
    case CloseConn(_) => CloseConnArrives(sh, t, pc, ok);
    case CloseUnlock(_) => CloseUnlockPoint(sh, t, pc, ok);
  }

  lemma ConnectionMoveArrives(sh: Shared, t: Caller, pc: Pc, ok: bool)
    requires Poised(sh, t, pc)
    requires !pc.Request? && !Ended(pc) && !InReconnect(pc) && !InDrop(pc) && !InClose(pc)
    ensures var (sh', pc') := ConnectionMove(sh, t, pc, ok); Arrives(sh, t, pc, sh', pc')
  {
    hide Arrives, Poised, ConnectionMove;
    match pc
    case Load(_) => LoadPoint(sh, t, pc, ok);
    case Lock(_) => LockPoint(sh, t, pc, ok);
    case Check(_) => CheckPoint(sh, t, pc, ok);
    case Reload(_) => ReloadPoint(sh, t, pc, ok);
    case Dial(_) => DialPoint(sh, t, pc, ok);
    case Dialed(_, _) => DialedPoint(sh, t, pc, ok);
    case Abandon(_, _) => AbandonPoint(sh, t, pc, ok);
    case Store(_, _) => StorePoint(sh, t, pc, ok);
    case Count(_, _) => CountPoint(sh, t, pc, ok);
    case Unlock(_, _) => UnlockPoint(sh, t, pc, ok);
    case Judge(_, _) => JudgeArrives(sh, t, pc, ok);
    case JudgeAgain(_, _) => JudgeArrives(sh, t, pc, ok);
  }

  lemma MoveArrives(sh: Shared, t: Caller, pc: Pc, ok: bool)
    requires SharedInv(sh) && Poised(sh, t, pc) && !pc.Request? && !Ended(pc)
    ensures var (sh', pc') := Move(sh, t, pc, ok); Arrives(sh, t, pc, sh', pc')
  {
    if InDrop(pc) { assert LockFree(sh) && Entitled(sh, t, pc) && PcOk(sh, pc); }
    hide Arrives, Poised, SharedInv, PcOk, LockFree, Entitled;
    if InReconnect(pc) { ReconnectMoveArrives(sh, t, pc, ok); }
    else if InDrop(pc) { DropArrives(sh, t, pc); }
    else if InClose(pc) { CloseMoveArrives(sh, t, pc, ok); }
    else { ConnectionMoveArrives(sh, t, pc, ok); }
  }

  lemma CallersKept(s: State, t: Caller, sh': Shared, pc': Pc)
    requires Mutex(s) && Callers(s)
    requires Rely(s.sh, sh', t) && PcOk(sh', pc') && Debts(sh', t, pc')
    ensures Callers(State(sh', s.pc[t := pc']))
  {
    hide Rely, PcOk, Debts;
    forall u | u != t
      ensures u in s.pc ==> PcOk(sh', s.pc[u]) && Debts(sh', u, s.pc[u])
      ensures u !in s.pc ==> Debts(sh', u, Finished)
    {
      if u in s.pc {
        OtherKeepsItsPoint(s.sh, sh', t, u, s.pc[u]);
        OtherKeepsItsDebts(s.sh, sh', t, u, s.pc[u]);
      } else {
        OtherKeepsItsDebts(s.sh, sh', t, u, Finished);
      }
    }
  }

  lemma MutexKept(s: State, t: Caller, sh': Shared, pc': Pc)
    requires Mutex(s) && t in s.pc && Arrives(s.sh, t, s.pc[t], sh', pc')
    requires HoldsLock(pc') && !HoldsLock(s.pc[t]) ==> s.sh.mu == None
    ensures Mutex(State(sh', s.pc[t := pc']))
  {
  }

  lemma ActKeepsInv(s: State, t: Caller, ok: bool)
    requires Inv(s) && Enabled(s, Act(t, ok))
    ensures Inv(Next(s, Act(t, ok)))
  {
    var pc := s.pc[t];
    var (sh', pc') := Move(s.sh, t, pc, ok);
    MoveKeeps(s.sh, t, pc, ok);
    MoveSettles(s.sh, t, pc, ok);
    MoveArrives(s.sh, t, pc, ok);
    CallersKept(s, t, sh', pc');
    MutexKept(s, t, sh', pc');
  }

  /** Where a caller is; one that has not begun is nowhere, like one that has finished. */
  function Where(s: State, t: Caller): Pc {
    if t in s.pc then s.pc[t] else Finished
  }

  lemma DebtsFollow(s: State, t: Caller, pc': Pc)
    requires Callers(s) && Carries(pc') == Carries(Where(s, t)) && Removed(pc') == Removed(Where(s, t))
    ensures Debts(s.sh, t, pc')
  {
    assert Debts(s.sh, t, Where(s, t));
  }

  /** A caller that begins, or that only moves to another point. */
  lemma ReplacedKeepsInv(s: State, t: Caller, pc': Pc)
    requires Inv(s) && PcOk(s.sh, pc')
    requires Carries(pc') == Carries(Where(s, t)) && Removed(pc') == Removed(Where(s, t))
    requires HoldsLock(pc') == HoldsLock(Where(s, t))
    ensures Inv(Place(s, t, pc'))
  {
    hide Rely, PcOk, Debts;
    DebtsFollow(s, t, pc');
    PlainKeeps(s.sh, s.sh, t);
    CallersKept(s, t, s.sh, pc');
  }

  lemma FlagKeepsPoint(sh: Shared, sh': Shared, u: Caller, pc: Pc)
    requires sh' == sh.(canceled := sh'.canceled, failed := sh'.failed)
    requires Debts(sh, u, pc)
    ensures Debts(sh', u, pc) && (PcOk(sh, pc) ==> PcOk(sh', pc))
  {
    hide Debts;
    SameDebts(sh, sh', u, pc, pc);
  }

  lemma FlagKeepsInv(s: State, step: Step)
    requires Inv(s) && Enabled(s, step) && (step.ParentCancel? || step.IoFailure?)
    ensures Inv(Next(s, step))
  {
    var sh' := Next(s, step).sh;
    PlainKeeps(s.sh, sh', 0);
    forall u: Caller
      ensures u in s.pc ==> PcOk(sh', s.pc[u]) && Debts(sh', u, s.pc[u])
      ensures u !in s.pc ==> Debts(sh', u, Finished)
    {
      FlagKeepsPoint(s.sh, sh', u, Where(s, u));
    }
  }

  lemma RequestPoints(sh: Shared, pc: Pc, outcome: Outcome)
    requires pc.Request? && PcOk(sh, pc)
    ensures PcOk(sh, pc.(armed := false)) && PcOk(sh, DropMark(pc.conn)) && PcOk(sh, Answered(pc, outcome))
  {
  }

  lemma AnsweredIsIdle(pc: Pc, outcome: Outcome)
    requires pc.Request?
    ensures var pc' := Answered(pc, outcome);
            Carries(pc') == Carries(pc) && Removed(pc') == Removed(pc) && HoldsLock(pc') == HoldsLock(pc)
  {
  }

  lemma AnswerKeepsInv(s: State, t: Caller, outcome: Outcome)
    requires Inv(s) && t in s.pc && s.pc[t].Request?
    ensures Inv(Place(s, t, Answered(s.pc[t], outcome)))
  {
    RequestPoints(s.sh, s.pc[t], outcome);
    AnsweredIsIdle(s.pc[t], outcome);
    hide Inv, PcOk, Carries, Removed, HoldsLock, Answered;
    ReplacedKeepsInv(s, t, Answered(s.pc[t], outcome));
  }

  lemma FiredPoint(s: State, t: Caller)
    requires Inv(s) && t in s.pc && s.pc[t].Request?
    ensures PcOk(s.sh, s.pc[t].(armed := false))
  {
    assert PcOk(s.sh, s.pc[t]);
    hide Inv;
    RequestPoints(s.sh, s.pc[t], Reply);
  }

  lemma FiredKeepsInv(s: State, t: Caller)
    requires Inv(s) && t in s.pc && s.pc[t].Request?
    ensures Inv(Place(s, t, s.pc[t].(armed := false)))
  {
    hide Inv, PcOk;
    FiredPoint(s, t);
    ReplacedKeepsInv(s, t, s.pc[t].(armed := false));
  }

  lemma EntryPoints(sh: Shared, op: Op)
    ensures PcOk(sh, Load(First(op))) && PcOk(sh, CloseCancel)
  {
  }

  lemma BeginKeepsInv(s: State, t: Caller, pc: Pc)
    requires Inv(s) && t !in s.pc && PcOk(s.sh, pc)
    requires pc.CloseCancel? || pc.Load? || pc.DropMark?
    ensures Inv(Place(s, t, pc))
  {
    ReplacedKeepsInv(s, t, pc);
  }

  lemma FireKeepsInv(s: State, t: Caller, w: Caller)
    requires Inv(s) && Enabled(s, Fire(t, w))
    ensures Inv(Next(s, Fire(t, w)))
  {
    RequestPoints(s.sh, s.pc[t], Reply);
    FiredKeepsInv(s, t);
    BeginKeepsInv(Place(s, t, s.pc[t].(armed := false)), w, DropMark(s.pc[t].conn));
  }

  lemma StepKeepsInv(s: State, step: Step)
    requires Inv(s) && Enabled(s, step)
    ensures Inv(Next(s, step))
  {
    hide SharedInv, Mutex;
    match step
    case Begin(t, op) => EntryPoints(s.sh, op); BeginKeepsInv(s, t, Load(First(op)));
    case BeginClose(t) => EntryPoints(s.sh, OtherOp); BeginKeepsInv(s, t, CloseCancel);
    case ParentCancel => FlagKeepsInv(s, step);
    case IoFailure(_) => FlagKeepsInv(s, step);
    case Fire(t, w) => FireKeepsInv(s, t, w);
    case Answer(t, outcome) => AnswerKeepsInv(s, t, outcome);
    case Act(t, ok) => ActKeepsInv(s, t, ok);
  }

  lemma {:induction false} RunKeepsInv(s: State, steps: seq<Step>)
    requires Inv(s) && IsRun(s, steps)
    ensures Inv(Exec(s, steps))
    decreases |steps|
  {
    if steps != [] {
      StepKeepsInv(s, steps[0]);
      RunKeepsInv(Next(s, steps[0]), steps[1..]);
    }
  }
}
