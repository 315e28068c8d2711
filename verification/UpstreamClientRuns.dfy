/**
 The calls of UpstreamClient are what the steps of a single caller do in module Upstream, when no
 other caller takes a step in between.
 */
module UpstreamClientRuns {
  import opened Wrappers
  import opened Upstream
  import opened UpstreamClient

  function CoreOf(sh: Shared): Core {
    Core(sh.cur, sh.closed, sh.closeFailed, sh.canceled, sh.connected, sh.reconnects, sh.unanswered,
         sh.ownerCloses + sh.shutdownCloses)
  }

  predicate OnlyBy(steps: seq<Step>, t: Caller) {
    forall k | 0 <= k < |steps| :: steps[k].Act? && steps[k].caller == t
  }

  /** The only caller gets from one point to the other by its own steps. */
  ghost predicate Alone(t: Caller, sh: Shared, pc: Pc, sh': Shared, pc': Pc) {
    exists steps :: OnlyBy(steps, t) && IsRun(State(sh, map[t := pc]), steps)
                    && Exec(State(sh, map[t := pc]), steps) == State(sh', map[t := pc'])
  }

  lemma AtRest(t: Caller, sh: Shared, pc: Pc)
    ensures Alone(t, sh, pc, sh, pc)
  {
    var s := State(sh, map[t := pc]);
    assert OnlyBy([], t) && IsRun(s, []) && Exec(s, []) == s;
  }

  /** A step, and then the rest of the way. */
  lemma Goes(t: Caller, sh: Shared, pc: Pc, ok: bool, sh1: Shared, pc1: Pc, sh': Shared, pc': Pc)
    requires !pc.Request? && !Ended(pc) && (TakesLock(pc) ==> sh.mu == None)
    requires Move(sh, t, pc, ok) == (sh1, pc1) && Alone(t, sh1, pc1, sh', pc')
    ensures Alone(t, sh, pc, sh', pc')
  {
    var s, step := State(sh, map[t := pc]), Act(t, ok);
    var next := State(sh1, map[t := pc1]);
    hide Move;
    assert map[t := pc][t := pc1] == map[t := pc1];
    assert Enabled(s, step) && Next(s, step) == next;
    var steps :| OnlyBy(steps, t) && IsRun(next, steps) && Exec(next, steps) == State(sh', map[t := pc']);
    var all := [step] + steps;
    assert all[0] == step && all[1..] == steps && OnlyBy(all, t);
    hide Enabled, Next;
    assert IsRun(s, all) && Exec(s, all) == Exec(next, steps);
  }

  // ------------------------------------------------------------------ connection()

  /** What the call ends with: a request on the connection found, or an error. */
  function Served(u: Use, found: Option<Conn>, watchdog: bool): Pc {
    if found.Some? then Request(u, found.value, watchdog) else Told(Unserved(u))
  }

  lemma DialFacts(sh: Shared, t: Caller)
    ensures var d := DialedBy(sh, t);
            && d.cur == sh.cur && d.closed == sh.closed && d.canceled == sh.canceled && d.mu == sh.mu
            && d.watchdog == sh.watchdog && CoreOf(d) == CoreOf(sh)
  {
  }

  lemma StoreFacts(sh: Shared, c: Conn)
    ensures var stored := Stored(sh, c);
            && stored.mu == sh.mu && stored.watchdog == sh.watchdog && stored.connected == sh.connected
            && CoreOf(stored) == CoreOf(sh).(current := Some(c))
  {
    hide Assign;
  }

  function Counted(sh: Shared): Shared {
    if sh.connected then sh.(reconnects := sh.reconnects + 1, counting := false)
    else sh.(connected := true, counting := false)
  }

  lemma CountsAlone(t: Caller, sh: Shared, u: Use, c: Conn)
    requires sh.mu == Some(t)
    ensures Alone(t, sh, Count(u, c), Counted(sh).(mu := None), Request(u, c, sh.watchdog))
  {
    hide Alone;
    var counted, end := Counted(sh), Request(u, c, sh.watchdog);
    AtRest(t, counted.(mu := None), end);
    Goes(t, counted, Unlock(u, Some(c)), true, counted.(mu := None), end, counted.(mu := None), end);
    Goes(t, sh, Count(u, c), true, counted, Unlock(u, Some(c)), counted.(mu := None), end);
  }

  /** Publishing a dialed connection and counting it. */
  lemma StoresAlone(t: Caller, sh: Shared, u: Use, c: Conn) returns (sh': Shared)
    requires sh.mu == Some(t) && !sh.closed && !sh.canceled && sh.cur == None
    ensures Alone(t, sh, Store(u, c), sh', Request(u, c, sh.watchdog))
    ensures CoreOf(sh') == AfterConnection(CoreOf(sh), Some(c)).0
  {
    hide Alone, Stored;
    StoreFacts(sh, c);
    var stored := Stored(sh, c);
    sh' := Counted(stored).(mu := None);
    CountsAlone(t, stored, u, c);
    Goes(t, sh, Store(u, c), true, stored, Count(u, c), sh', Request(u, c, sh.watchdog));
  }

  /** From under the mutex on, with no connection to return. */
  lemma DialsAlone(t: Caller, sh: Shared, u: Use, ok: bool) returns (sh': Shared)
    requires sh.mu == Some(t) && !sh.closed && !sh.canceled && sh.cur == None
    ensures Alone(t, sh, Dial(u), sh', Served(u, if ok then Some(|sh.holder|) else None, sh.watchdog))
    ensures CoreOf(sh') == AfterConnection(CoreOf(sh), if ok then Some(|sh.holder|) else None).0
  {
    hide Alone, DialedBy;
    if ok {
      var c := |sh.holder|;
      DialFacts(sh, t);
      var dialed := DialedBy(sh, t);
      sh' := StoresAlone(t, dialed, u, c);
      var end := Request(u, c, sh.watchdog);
      Goes(t, dialed, Dialed(u, c), ok, dialed, Store(u, c), sh', end);
      Goes(t, sh, Dial(u), ok, dialed, Dialed(u, c), sh', end);
    } else {
      sh' := sh.(mu := None);
      AtRest(t, sh', Told(Unserved(u)));
      Goes(t, sh, Unlock(u, None), ok, sh', Told(Unserved(u)), sh', Told(Unserved(u)));
      Goes(t, sh, Dial(u), ok, sh, Unlock(u, None), sh', Told(Unserved(u)));
    }
  }

  lemma FindsOver(t: Caller, sh: Shared, u: Use, ok: bool)
    requires sh.mu == None && sh.cur == None && (sh.closed || sh.canceled)
    ensures Alone(t, sh, Load(u), sh, Told(Unserved(u)))
  {
    hide Alone;
    var held := sh.(mu := Some(t));
    assert held.(mu := None) == sh;
    AtRest(t, sh, Told(Unserved(u)));
    Goes(t, held, Unlock(u, None), ok, sh, Told(Unserved(u)), sh, Told(Unserved(u)));
    Goes(t, held, Check(u), ok, held, Unlock(u, None), sh, Told(Unserved(u)));
    Goes(t, sh, Lock(u), ok, held, Check(u), sh, Told(Unserved(u)));
    Goes(t, sh, Load(u), ok, sh, Lock(u), sh, Told(Unserved(u)));
  }

  lemma ComesToDial(t: Caller, sh: Shared, u: Use, sh': Shared, end: Pc)
    requires sh.mu == None && sh.cur == None && !sh.closed && !sh.canceled
    requires Alone(t, sh.(mu := Some(t)), Dial(u), sh', end)
    ensures Alone(t, sh, Load(u), sh', end)
  {
    hide Alone;
    var held := sh.(mu := Some(t));
    Goes(t, held, Reload(u), true, held, Dial(u), sh', end);
    Goes(t, held, Check(u), true, held, Reload(u), sh', end);
    Goes(t, sh, Lock(u), true, held, Check(u), sh', end);
    Goes(t, sh, Load(u), true, sh, Lock(u), sh', end);
  }

  /** connection() as one caller runs it: the fields and the result are those of the method. */
  lemma ConnectionAlone(t: Caller, sh: Shared, u: Use, ok: bool) returns (sh': Shared)
    requires sh.mu == None
    ensures var (core, found) := AfterConnection(CoreOf(sh), if ok then Some(|sh.holder|) else None);
            CoreOf(sh') == core && Alone(t, sh, Load(u), sh', Served(u, found, sh.watchdog))
  {
    hide Alone, Move;
    if sh.cur.Some? {
      sh' := sh;
      var end := Request(u, sh.cur.value, sh.watchdog);
      AtRest(t, sh, end);
      Goes(t, sh, Load(u), ok, sh, end, sh, end) by { LoadFinds(t, sh, u, ok); }
    } else if sh.closed || sh.canceled {
      sh' := sh;
      FindsOver(t, sh, u, ok);
    } else {
      var held := sh.(mu := Some(t));
      sh' := DialsAlone(t, held, u, ok);
      ComesToDial(t, sh, u, sh', Served(u, if ok then Some(|sh.holder|) else None, sh.watchdog));
    }
  }

  lemma LoadFinds(t: Caller, sh: Shared, u: Use, ok: bool)
    requires sh.cur.Some?
    ensures Move(sh, t, Load(u), ok) == (sh, Request(u, sh.cur.value, sh.watchdog))
  {
  }

  // ------------------------------------------------------------------ reconnect(failed)

  /** List goes on when the result is usable. */
  function Retries(f: Conn, usable: bool): Pc {
    if usable then Load(Retry(f)) else Told(Some(ClientError))
  }

  lemma UnlocksAlone(t: Caller, sh: Shared, f: Conn, usable: bool)
    requires sh.mu == Some(t)
    ensures Alone(t, sh, RcUnlock(ListOp, f, usable), sh.(mu := None), Retries(f, usable))
  {
    hide Alone;
    var sh', end := sh.(mu := None), Retries(f, usable);
    AtRest(t, sh', end);
    Goes(t, sh, RcUnlock(ListOp, f, usable), true, sh', end, sh', end);
  }

  lemma SwapFacts(sh: Shared, t: Caller, f: Conn, c: Conn)
    ensures var swapped := Swapped(sh, t, f, c);
            swapped.mu == sh.mu && CoreOf(swapped) == CoreOf(sh).(current := Some(c))
  {
    hide Assign;
  }

  lemma CloseFacts(sh: Shared, c: Conn)
    ensures var closed := ClosedByOwner(sh, c, Retired);
            closed.mu == sh.mu && CoreOf(closed) == CoreOf(sh).(closes := CoreOf(sh).closes + multiset{c})
  {
    hide Assign;
    assert sh.ownerCloses + multiset{c} + sh.shutdownCloses == sh.ownerCloses + sh.shutdownCloses + multiset{c};
  }

  /** The displaced connection is closed, if there is one. */
  function Cleared(sh: Shared, prior: Option<Conn>): Shared {
    if prior.Some? then ClosedByOwner(sh, prior.value, Retired) else sh
  }

  lemma ClearsAlone(t: Caller, sh: Shared, f: Conn, prior: Option<Conn>)
    requires sh.mu == Some(t)
    ensures var counted := sh.(connected := true, reconnects := sh.reconnects + 1, counting := false);
            Alone(t, sh, RcCount(ListOp, f, prior), Cleared(counted, prior).(mu := None), Retries(f, true))
  {
    hide Alone, ClosedByOwner;
    var counted, end := sh.(connected := true, reconnects := sh.reconnects + 1, counting := false), Retries(f, true);
    var closed := Cleared(counted, prior);
    if prior.Some? { CloseFacts(counted, prior.value); }
    UnlocksAlone(t, closed, f, true);
    Goes(t, counted, RcCloseOld(ListOp, f, prior), true, closed, RcUnlock(ListOp, f, true), closed.(mu := None), end);
    Goes(t, sh, RcCount(ListOp, f, prior), true, counted, RcCloseOld(ListOp, f, prior), closed.(mu := None), end);
  }

  /** The swap, the count, the close of what was displaced, and the unlock. */
  lemma SwapsAlone(t: Caller, sh: Shared, f: Conn, c: Conn) returns (sh': Shared)
    requires sh.mu == Some(t) && !sh.closed && !sh.canceled && (sh.cur == None || sh.cur == Some(f))
    ensures Alone(t, sh, RcSwap(ListOp, f, c), sh', Retries(f, true))
    ensures CoreOf(sh') == AfterReconnect(CoreOf(sh), f, Some(c)).0
  {
    hide Alone, Swapped, ClosedByOwner;
    SwapFacts(sh, t, f, c);
    var swapped := Swapped(sh, t, f, c);
    var counted := swapped.(connected := true, reconnects := swapped.reconnects + 1, counting := false);
    CloseFacts(counted, f);
    sh' := Cleared(counted, sh.cur).(mu := None);
    ClearsAlone(t, swapped, f, sh.cur);
    Goes(t, sh, RcSwap(ListOp, f, c), true, swapped, RcCount(ListOp, f, sh.cur), sh', Retries(f, true));
  }

  lemma ReplacesAlone(t: Caller, sh: Shared, f: Conn) returns (sh': Shared)
    requires sh.mu == Some(t) && !sh.closed && !sh.canceled && (sh.cur == None || sh.cur == Some(f))
    ensures Alone(t, sh, RcDial(ListOp, f), sh', Retries(f, true))
    ensures CoreOf(sh') == AfterReconnect(CoreOf(sh), f, Some(|sh.holder|)).0
  {
    hide Alone, DialedBy;
    var c, end := |sh.holder|, Retries(f, true);
    DialFacts(sh, t);
    var dialed := DialedBy(sh, t);
    sh' := SwapsAlone(t, dialed, f, c);
    Goes(t, dialed, RcDialed(ListOp, f, c), true, dialed, RcSwap(ListOp, f, c), sh', end);
    Goes(t, sh, RcDial(ListOp, f), true, dialed, RcDialed(ListOp, f, c), sh', end);
  }

  /** The part of the call under the mutex. */
  lemma HeldAlone(t: Caller, sh: Shared, f: Conn, ok: bool) returns (sh': Shared)
    requires sh.mu == Some(t)
    ensures var (core, usable) := AfterReconnect(CoreOf(sh), f, if ok then Some(|sh.holder|) else None);
            CoreOf(sh') == core && Alone(t, sh, RcCheck(ListOp, f), sh', Retries(f, usable))
  {
    hide Alone;
    sh' := sh.(mu := None);
    if sh.closed || sh.canceled {
      UnlocksAlone(t, sh, f, false);
      Goes(t, sh, RcCheck(ListOp, f), ok, sh, RcUnlock(ListOp, f, false), sh', Told(Some(ClientError)));
    } else {
      var usable := sh.cur.Some? && sh.cur != Some(f);
      if usable {
        UnlocksAlone(t, sh, f, true);
        Goes(t, sh, RcLoad(ListOp, f), ok, sh, RcUnlock(ListOp, f, true), sh', Retries(f, true));
      } else {
        sh' := ReconnectsAlone(t, sh, f, ok);
        Goes(t, sh, RcLoad(ListOp, f), ok, sh, RcDial(ListOp, f), sh', Retries(f, ok));
      }
      Goes(t, sh, RcCheck(ListOp, f), ok, sh, RcLoad(ListOp, f), sh', Retries(f, usable || ok));
    }
  }

  lemma ReconnectsAlone(t: Caller, sh: Shared, f: Conn, ok: bool) returns (sh': Shared)
    requires sh.mu == Some(t) && !sh.closed && !sh.canceled && (sh.cur == None || sh.cur == Some(f))
    ensures Alone(t, sh, RcDial(ListOp, f), sh', Retries(f, ok))
    ensures CoreOf(sh') == AfterReconnect(CoreOf(sh), f, if ok then Some(|sh.holder|) else None).0
  {
    hide Alone;
    if ok {
      sh' := ReplacesAlone(t, sh, f);
    } else {
      sh' := sh.(mu := None);
      UnlocksAlone(t, sh, f, false);
      Goes(t, sh, RcDial(ListOp, f), ok, sh, RcUnlock(ListOp, f, false), sh', Retries(f, false));
    }
  }

  /** reconnect(failed) as one caller of List runs it. */
  lemma ReconnectAlone(t: Caller, sh: Shared, f: Conn, ok: bool) returns (sh': Shared)
    requires sh.mu == None
    ensures var (core, usable) := AfterReconnect(CoreOf(sh), f, if ok then Some(|sh.holder|) else None);
            CoreOf(sh') == core && Alone(t, sh, RcLock(ListOp, f), sh', Retries(f, usable))
  {
    hide Alone;
    var held := sh.(mu := Some(t));
    assert CoreOf(held) == CoreOf(sh);
    var usable := AfterReconnect(CoreOf(sh), f, if ok then Some(|sh.holder|) else None).1;
    sh' := HeldAlone(t, held, f, ok);
    hide AfterReconnect, CoreOf;
    Goes(t, sh, RcLock(ListOp, f), ok, held, RcCheck(ListOp, f), sh', Retries(f, usable));
  }

  // ------------------------------------------------------------------ drop and Close

  lemma DropFacts(sh: Shared, t: Caller, c: Conn)
    ensures CoreOf(Dropped(sh, t, c)) == CoreOf(sh).(current := None)
  {
    hide Assign;
  }

  lemma DropsAlone(t: Caller, sh: Shared, c: Conn) returns (sh': Shared)
    requires sh.cur == Some(c)
    ensures Alone(t, sh, DropSwap(c), sh', Finished)
    ensures CoreOf(sh') == CoreOf(sh).(current := None, closes := CoreOf(sh).closes + multiset{c})
  {
    hide Alone, Dropped, ClosedByOwner;
    var dropped := Dropped(sh, t, c);
    sh' := ClosedByOwner(dropped, c, Retired);
    DropFacts(sh, t, c);
    CloseFacts(dropped, c);
    AtRest(t, sh', Finished);
    Goes(t, dropped, DropClose(c), true, sh', Finished, sh', Finished);
    Goes(t, sh, DropSwap(c), true, dropped, DropClose(c), sh', Finished);
  }

  lemma DropAlone(t: Caller, sh: Shared, c: Conn) returns (sh': Shared)
    ensures CoreOf(sh') == AfterDrop(CoreOf(sh), c) && Alone(t, sh, DropMark(c), sh', Finished)
  {
    hide Alone, Dropped, ClosedByOwner;
    var marked := sh.(unanswered := sh.unanswered + {c});
    if c in sh.unanswered {
      sh' := sh;
      assert sh.unanswered + {c} == sh.unanswered;
      AtRest(t, sh, Finished);
      Goes(t, sh, DropMark(c), true, sh, Finished, sh, Finished);
    } else if sh.cur == Some(c) {
      sh' := DropsAlone(t, marked, c);
      Goes(t, sh, DropMark(c), true, marked, DropSwap(c), sh', Finished);
    } else {
      sh' := marked;
      AtRest(t, sh', Finished);
      Goes(t, marked, DropSwap(c), true, marked, Finished, sh', Finished);
      Goes(t, sh, DropMark(c), true, marked, DropSwap(c), sh', Finished);
    }
  }

  /** From the lock to the end, with what the section in between leaves. */
  lemma ClosesAlone(t: Caller, sh: Shared, ok: bool, at: Shared, failed: bool)
    requires sh.mu == None && at.mu == Some(t)
    requires Alone(t, sh.(canceled := true, mu := Some(t), closed := true),
                   if sh.closed then CloseUnlock(sh.closeFailed) else CloseLoad, at, CloseUnlock(failed))
    ensures Alone(t, sh, CloseCancel, at.(mu := None), CloseDone(failed))
  {
    hide Alone;
    var canceled := sh.(canceled := true);
    var held := canceled.(mu := Some(t), closed := true);
    var entry := if sh.closed then CloseUnlock(sh.closeFailed) else CloseLoad;
    assert Move(canceled, t, CloseLock, ok) == (held, entry);
    Goes(t, canceled, CloseLock, ok, held, entry, at, CloseUnlock(failed));
    Goes(t, sh, CloseCancel, ok, canceled, CloseLock, at, CloseUnlock(failed));
    AtRest(t, at.(mu := None), CloseDone(failed));
    Goes(t, at, CloseUnlock(failed), ok, at.(mu := None), CloseDone(failed), at.(mu := None), CloseDone(failed));
    Joins(t, sh, CloseCancel, at, CloseUnlock(failed), at.(mu := None), CloseDone(failed));
  }

  lemma Joins(t: Caller, sh: Shared, pc: Pc, sh1: Shared, pc1: Pc, sh': Shared, pc': Pc)
    requires Alone(t, sh, pc, sh1, pc1) && Alone(t, sh1, pc1, sh', pc')
    ensures Alone(t, sh, pc, sh', pc')
  {
    var first :| OnlyBy(first, t) && IsRun(State(sh, map[t := pc]), first)
                 && Exec(State(sh, map[t := pc]), first) == State(sh1, map[t := pc1]);
    var second :| OnlyBy(second, t) && IsRun(State(sh1, map[t := pc1]), second)
                  && Exec(State(sh1, map[t := pc1]), second) == State(sh', map[t := pc']);
    RunsJoin(State(sh, map[t := pc]), first, second);
    assert OnlyBy(first + second, t);
  }

  lemma {:induction false} RunsJoin(s: State, first: seq<Step>, second: seq<Step>)
    requires IsRun(s, first) && IsRun(Exec(s, first), second)
    ensures IsRun(s, first + second) && Exec(s, first + second) == Exec(Exec(s, first), second)
    decreases |first|
  {
    hide Enabled, Next;
    if first == [] {
      assert first + second == second;
    } else {
      assert (first + second)[0] == first[0] && (first + second)[1..] == first[1..] + second;
      RunsJoin(Next(s, first[0]), first[1..], second);
    }
  }

  /** The section of Close under the mutex, on a client not closed yet. */
  lemma ClosesCurrent(t: Caller, held: Shared, ok: bool) returns (at: Shared, failed: bool)
    requires held.mu == Some(t)
    ensures at.mu == Some(t) && Alone(t, held, CloseLoad, at, CloseUnlock(failed))
    ensures failed == (held.cur.Some? && !ok)
    ensures CoreOf(at) == if held.cur == None then CoreOf(held)
                          else CoreOf(held).(closeFailed := !ok,
                                               closes := CoreOf(held).closes + multiset{held.cur.value})
  {
    hide Alone;
    if held.cur.Some? {
      var c := held.cur.value;
      at := held.(shutdownCloses := held.shutdownCloses + multiset{c}, closeFailed := !ok, settled := true);
      failed := !ok;
      assert held.ownerCloses + (held.shutdownCloses + multiset{c})
             == held.ownerCloses + held.shutdownCloses + multiset{c};
      AtRest(t, at, CloseUnlock(failed));
      Goes(t, held, CloseConn(c), ok, at, CloseUnlock(failed), at, CloseUnlock(failed));
      Goes(t, held, CloseLoad, ok, held, CloseConn(c), at, CloseUnlock(failed));
    } else {
      at, failed := held.(settled := true), false;
      AtRest(t, at, CloseUnlock(failed));
      Goes(t, held, CloseLoad, ok, at, CloseUnlock(failed), at, CloseUnlock(failed));
    }
  }

  lemma CloseAlone(t: Caller, sh: Shared, ok: bool) returns (sh': Shared)
    requires sh.mu == None
    ensures var (core, failed) := AfterClose(CoreOf(sh), ok);
            CoreOf(sh') == core && Alone(t, sh, CloseCancel, sh', CloseDone(failed))
  {
    hide Alone, Move;
    var held := sh.(canceled := true, mu := Some(t), closed := true);
    var at, failed := held, sh.closeFailed;
    if sh.closed {
      AtRest(t, held, CloseUnlock(failed));
    } else {
      at, failed := ClosesCurrent(t, held, ok);
    }
    ClosesAlone(t, sh, ok, at, failed);
    sh' := at.(mu := None);
  }
}
