/** Where a step leads its caller, and what it does to the pointer and to the record of closes. */
module UpstreamMoves {
  import opened Wrappers
  import opened Upstream
  import opened UpstreamInvariant

  // ------------------------------------------------------------------ the caller

  lemma ConnectionGoes(sh: Shared, t: Caller, pc: Pc, ok: bool)
    requires !InReconnect(pc) && !InDrop(pc) && !InClose(pc)
    ensures var pc' := ConnectionMove(sh, t, pc, ok).1;
            && !InClose(pc') && !InDrop(pc') && (pc'.Request? && !pc.Request? ==> pc'.armed == sh.watchdog)
            && (pc.Abandon? ==> Removed(pc') == None)
  {
    hide Stored, DialedBy, ClosedByOwner;
  }

  lemma ReconnectGoes(sh: Shared, t: Caller, pc: Pc, ok: bool)
    requires InReconnect(pc)
    ensures var pc' := ReconnectMove(sh, t, pc, ok).1;
            && !InClose(pc') && !InDrop(pc') && !pc'.Request?
            && (pc.RcAbandon? || pc.RcCloseOld? ==> Removed(pc') == None)
  {
    hide Swapped, DialedBy, ClosedByOwner;
  }

  lemma DropGoes(sh: Shared, t: Caller, pc: Pc)
    requires InDrop(pc)
    ensures var pc' := DropMove(sh, t, pc).1;
            !InClose(pc') && !pc'.Request? && (pc.DropClose? ==> Removed(pc') == None)
  {
    hide Dropped, ClosedByOwner;
  }

  lemma CloseGoes(sh: Shared, t: Caller, pc: Pc, ok: bool)
    requires InClose(pc)
    ensures var pc' := CloseMove(sh, t, pc, ok).1;
            !InDrop(pc') && !pc'.Request? && (pc'.CloseConn? ==> pc.CloseLoad? && sh.cur == Some(pc'.conn))
  {
  }

  /** The connection a caller is about to close for itself. */
  function AboutToClose(pc: Pc): Option<Conn> {
    match pc
    case Abandon(_, c) => Some(c)
    case RcAbandon(_, _, c) => Some(c)
    case RcCloseOld(_, _, prior) => prior
    case DropClose(c) => Some(c)
    case _ => None
  }

  lemma MoveGoes(sh: Shared, t: Caller, pc: Pc, ok: bool)
    ensures var pc' := Move(sh, t, pc, ok).1;
            && (InDrop(pc') ==> InDrop(pc))
            && (pc'.Request? && !pc.Request? ==> pc'.armed == sh.watchdog)
            && (pc'.CloseConn? ==> pc.CloseLoad? && sh.cur == Some(pc'.conn))
            && (AboutToClose(pc).Some? ==> Removed(pc') == None)
  {
    hide ConnectionMove, ReconnectMove, DropMove, CloseMove;
    if InReconnect(pc) { ReconnectGoes(sh, t, pc, ok); }
    else if InDrop(pc) { DropGoes(sh, t, pc); }
    else if InClose(pc) { CloseGoes(sh, t, pc, ok); }
    else { ConnectionGoes(sh, t, pc, ok); }
  }

  // ------------------------------------------------------------------ the shared memory

  /** The pointer, who has closed what, and the watchdog setting. */
  datatype Ledger = Ledger(
    cur: Option<Conn>,
    ownerCloses: multiset<Conn>,
    shutdownCloses: multiset<Conn>,
    watchdog: bool)

  function LedgerOf(sh: Shared): Ledger {
    Ledger(sh.cur, sh.ownerCloses, sh.shutdownCloses, sh.watchdog)
  }

  /** Two kinds of step set the pointer, one clears it, and five close a connection. */
  function AfterStep(l: Ledger, pc: Pc): Ledger {
    match pc
    case Store(_, c) => l.(cur := Some(c))
    case RcSwap(_, _, c) => l.(cur := Some(c))
    case DropSwap(c) => if l.cur == Some(c) then l.(cur := None) else l
    case CloseConn(c) => l.(shutdownCloses := l.shutdownCloses + multiset{c})
    case _ =>
      if AboutToClose(pc).Some? then l.(ownerCloses := l.ownerCloses + multiset{AboutToClose(pc).value}) else l
  }

  lemma UpdatesLeave(sh: Shared, t: Caller, d: Conn, h: Holder)
    ensures LedgerOf(DialedBy(sh, t)) == LedgerOf(sh)
    ensures LedgerOf(ClosedByOwner(sh, d, h)) == LedgerOf(sh).(ownerCloses := sh.ownerCloses + multiset{d})
    ensures LedgerOf(Stored(sh, d)) == LedgerOf(sh).(cur := Some(d))
    ensures LedgerOf(Dropped(sh, t, d)) == LedgerOf(sh).(cur := None)
  {
    hide Assign;
  }

  lemma SwapLeaves(sh: Shared, t: Caller, f: Conn, d: Conn)
    ensures LedgerOf(Swapped(sh, t, f, d)) == LedgerOf(sh).(cur := Some(d))
  {
    hide Assign;
  }

  lemma ConnectionLeaves(sh: Shared, t: Caller, pc: Pc, ok: bool)
    requires !InReconnect(pc) && !InDrop(pc) && !InClose(pc)
    ensures LedgerOf(ConnectionMove(sh, t, pc, ok).0) == AfterStep(LedgerOf(sh), pc)
  {
    hide Stored, DialedBy, ClosedByOwner;
    if pc.Store? || pc.Abandon? { UpdatesLeave(sh, t, pc.made, Discarded); } else { UpdatesLeave(sh, t, 0, Live); }
  }

  predicate RcUpdates(pc: Pc) {
    pc.RcDial? || pc.RcSwap? || pc.RcAbandon? || pc.RcCloseOld?
  }

  lemma RcPlainLeaves(sh: Shared, t: Caller, pc: Pc, ok: bool)
    requires InReconnect(pc) && !RcUpdates(pc)
    ensures LedgerOf(ReconnectMove(sh, t, pc, ok).0) == LedgerOf(sh)
  {
    hide Swapped, DialedBy, ClosedByOwner;
  }

  lemma RcSwapLeaves(sh: Shared, t: Caller, pc: Pc, ok: bool)
    requires pc.RcSwap? || pc.RcDial?
    ensures LedgerOf(ReconnectMove(sh, t, pc, ok).0) == AfterStep(LedgerOf(sh), pc)
  {
    hide Swapped, DialedBy, ClosedByOwner;
    if pc.RcSwap? { SwapLeaves(sh, t, pc.conn, pc.made); } else { UpdatesLeave(sh, t, 0, Live); }
  }

  lemma RcCloses(sh: Shared, t: Caller, pc: Pc, ok: bool)
    requires pc.RcAbandon? || pc.RcCloseOld?
    ensures LedgerOf(ReconnectMove(sh, t, pc, ok).0) == AfterStep(LedgerOf(sh), pc)
  {
    hide Swapped, DialedBy, ClosedByOwner;
    if pc.RcAbandon? { UpdatesLeave(sh, t, pc.made, Discarded); }
    else if pc.prior.Some? { UpdatesLeave(sh, t, pc.prior.value, Retired); }
  }

  lemma ReconnectLeaves(sh: Shared, t: Caller, pc: Pc, ok: bool)
    requires InReconnect(pc)
    ensures LedgerOf(ReconnectMove(sh, t, pc, ok).0) == AfterStep(LedgerOf(sh), pc)
  {
    hide ReconnectMove, LedgerOf;
    if pc.RcSwap? || pc.RcDial? { RcSwapLeaves(sh, t, pc, ok); }
    else if pc.RcAbandon? || pc.RcCloseOld? { RcCloses(sh, t, pc, ok); }
    else { RcPlainLeaves(sh, t, pc, ok); }
  }

  lemma DropLeaves(sh: Shared, t: Caller, pc: Pc)
    requires InDrop(pc)
    ensures LedgerOf(DropMove(sh, t, pc).0) == AfterStep(LedgerOf(sh), pc)
  {
    hide Dropped, ClosedByOwner;
    match pc
    case DropMark(_) =>
    case DropSwap(c) => UpdatesLeave(sh, t, c, Retired);
    case DropClose(c) => UpdatesLeave(sh, t, c, Retired);
  }

  lemma CloseLeaves(sh: Shared, t: Caller, pc: Pc, ok: bool)
    requires InClose(pc)
    ensures LedgerOf(CloseMove(sh, t, pc, ok).0) == AfterStep(LedgerOf(sh), pc)
  {
  }

  lemma MoveLeaves(sh: Shared, t: Caller, pc: Pc, ok: bool)
    ensures LedgerOf(Move(sh, t, pc, ok).0) == AfterStep(LedgerOf(sh), pc)
  {
    hide ConnectionMove, ReconnectMove, DropMove, CloseMove, AfterStep;
    if InReconnect(pc) { ReconnectLeaves(sh, t, pc, ok); }
    else if InDrop(pc) { DropLeaves(sh, t, pc); }
    else if InClose(pc) { CloseLeaves(sh, t, pc, ok); }
    else { ConnectionLeaves(sh, t, pc, ok); }
  }
}
