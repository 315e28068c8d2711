/** A dial that a shutdown overtook: what it brought is thrown away, whatever other callers do. */
module UpstreamOvertaken {
  import opened Wrappers
  import opened Upstream
  import opened UpstreamInvariant
  import opened UpstreamProperties
  import opened UpstreamProgress
  import opened UpstreamRecovery

  /** The caller has dialed `c` and not yet decided, or decided not, to publish it. */
  predicate Undecided(pc: Pc, c: Conn) {
    (pc.Dialed? || pc.Abandon? || pc.RcDialed? || pc.RcAbandon?) && pc.made == c
  }

  /** What the updates of the shared memory do to who answers for `c`. */
  lemma UpdatesHold(sh: Shared, t: Caller, d: Conn, f: Conn, h: Holder, c: Conn)
    requires c < |sh.holder|
    ensures c < |DialedBy(sh, t).holder| && DialedBy(sh, t).holder[c] == sh.holder[c]
    ensures c < |ClosedByOwner(sh, d, h).holder| && (d != c ==> ClosedByOwner(sh, d, h).holder[c] == sh.holder[c])
    ensures c < |Stored(sh, d).holder| && (d != c ==> Stored(sh, d).holder[c] == sh.holder[c])
    ensures c < |Swapped(sh, t, f, d).holder|
    ensures d != c && sh.cur != Some(c) ==> Swapped(sh, t, f, d).holder[c] == sh.holder[c]
    ensures c < |Dropped(sh, t, d).holder| && (d != c ==> Dropped(sh, t, d).holder[c] == sh.holder[c])
  {
    var displaced := if sh.cur.Some? then Assign(sh.holder, sh.cur.value, Owed(t)) else sh.holder;
    assert |displaced| == |sh.holder| && (sh.cur != Some(c) ==> displaced[c] == sh.holder[c]);
    hide Assign;
  }

  /** Only who carries a connection, or takes or has taken it out of the pointer, changes who answers for it. */
  predicate HolderKept(sh: Shared, sh': Shared, pc: Pc, c: Conn)
    requires c < |sh.holder|
  {
    && c < |sh'.holder|
    && (sh'.holder[c] != sh.holder[c] ==> Carries(pc) == Some(c) || Removed(pc) == Some(c) || sh.cur == Some(c))
  }

  lemma ConnectionHolders(sh: Shared, t: Caller, pc: Pc, ok: bool, c: Conn)
    requires c < |sh.holder| && !InReconnect(pc) && !InDrop(pc)
    ensures HolderKept(sh, ConnectionMove(sh, t, pc, ok).0, pc, c)
  {
    UpdatesHold(sh, t, if pc.Abandon? || pc.Store? then pc.made else 0, 0, Discarded, c);
    hide Stored, DialedBy, ClosedByOwner;
  }

  lemma ReconnectHolders(sh: Shared, t: Caller, pc: Pc, ok: bool, c: Conn)
    requires c < |sh.holder| && InReconnect(pc)
    ensures HolderKept(sh, ReconnectMove(sh, t, pc, ok).0, pc, c)
  {
    var d := if pc.RcAbandon? || pc.RcSwap? then pc.made
             else if pc.RcCloseOld? && pc.prior.Some? then pc.prior.value else 0;
    UpdatesHold(sh, t, d, pc.conn, if pc.RcAbandon? then Discarded else Retired, c);
    hide Stored, DialedBy, ClosedByOwner, Swapped;
  }

  lemma DropHolders(sh: Shared, t: Caller, pc: Pc, c: Conn)
    requires c < |sh.holder| && InDrop(pc)
    ensures HolderKept(sh, DropMove(sh, t, pc).0, pc, c)
  {
    UpdatesHold(sh, t, pc.conn, 0, Retired, c);
    hide Dropped, ClosedByOwner;
  }

  lemma CloseHolders(sh: Shared, t: Caller, pc: Pc, ok: bool, c: Conn)
    requires c < |sh.holder| && InClose(pc)
    ensures HolderKept(sh, CloseMove(sh, t, pc, ok).0, pc, c)
  {
  }

  lemma MoveHolders(sh: Shared, t: Caller, pc: Pc, ok: bool, c: Conn)
    requires c < |sh.holder|
    ensures HolderKept(sh, Move(sh, t, pc, ok).0, pc, c)
  {
    hide ConnectionMove, ReconnectMove, DropMove, CloseMove, HolderKept;
    if InReconnect(pc) { ReconnectHolders(sh, t, pc, ok, c); }
    else if InDrop(pc) { DropHolders(sh, t, pc, c); }
    else if InClose(pc) { CloseHolders(sh, t, pc, ok, c); }
    else { ConnectionHolders(sh, t, pc, ok, c); }
  }

  /** Cancelled, and `c` is its dialer's to throw away, or thrown away. */
  ghost predicate Doomed(s: State, t: Caller, c: Conn) {
    && s.sh.canceled && t in s.pc && c < |s.sh.holder|
    && if Undecided(s.pc[t], c) then s.sh.holder[c] == InHand(t) else s.sh.holder[c] == Discarded
  }

  lemma DialerDiscards(s: State, t: Caller, ok: bool, c: Conn)
    requires Doomed(s, t, c) && Enabled(s, Act(t, ok)) && Undecided(s.pc[t], c)
    ensures Doomed(Next(s, Act(t, ok)), t, c)
  {
  }

  /** No step of another caller is about a connection in hand, and no step at all about one thrown away. */
  lemma OthersLeaveDoomed(s: State, step: Step, t: Caller, c: Conn)
    requires Inv(s) && Doomed(s, t, c) && Enabled(s, step)
    requires step.Act? && (step.caller != t || !Undecided(s.pc[t], c))
    ensures c < |Next(s, step).sh.holder| && Next(s, step).sh.holder[c] == s.sh.holder[c]
  {
    var u := step.caller;
    assert Debts(s.sh, u, s.pc[u]) && PointerAgrees(s.sh);
    assert Carries(s.pc[u]) == Some(c) ==> HeldBy(s.sh, c, InHand(u));
    assert Removed(s.pc[u]) == Some(c) ==> HeldBy(s.sh, c, Owed(u));
    hide Inv, Debts, Move, Carries, Removed;
    MoveHolders(s.sh, u, s.pc[u], step.ok, c);
  }

  lemma NotUndecidedAgain(sh: Shared, t: Caller, pc: Pc, ok: bool, c: Conn)
    requires !Undecided(pc, c) && c < |sh.holder|
    ensures !Undecided(Move(sh, t, pc, ok).1, c)
  {
    hide Stored, DialedBy, ClosedByOwner, Swapped, Dropped;
  }

  /** Undecided is for who has just dialed, until its own next step. */
  lemma DecisionFollows(s: State, step: Step, t: Caller, c: Conn)
    requires Enabled(s, step) && t in s.pc && c < |s.sh.holder|
    ensures t in Next(s, step).pc
    ensures step != Act(t, step.Act? && step.ok) || !Undecided(s.pc[t], c) ==>
              Undecided(Next(s, step).pc[t], c) == Undecided(s.pc[t], c)
  {
    hide Move, Answered;
    if OwnStep(step, t) {
      if step.Act? {
        if !Undecided(s.pc[t], c) { NotUndecidedAgain(s.sh, t, s.pc[t], step.ok, c); }
      } else {
        AnswerDecides(s.pc[t], step.outcome, c);
      }
    } else {
      OthersLeave(s, step, t);
      hide Next;
    }
  }

  lemma AnswerDecides(pc: Pc, outcome: Outcome, c: Conn)
    requires pc.Request?
    ensures !Undecided(Answered(pc, outcome), c)
  {
  }

  lemma HolderStays(s: State, step: Step, t: Caller, c: Conn)
    requires Inv(s) && Doomed(s, t, c) && Enabled(s, step)
    requires step != Act(t, step.Act? && step.ok) || !Undecided(s.pc[t], c)
    ensures c < |Next(s, step).sh.holder| && Next(s, step).sh.holder[c] == s.sh.holder[c]
  {
    if step.Act? { OthersLeaveDoomed(s, step, t, c); }
    hide Inv, Move, Doomed;
  }

  lemma StepDooms(s: State, step: Step, t: Caller, c: Conn)
    requires Inv(s) && Doomed(s, t, c) && Enabled(s, step)
    ensures Doomed(Next(s, step), t, c)
  {
    hide Inv, Next, Enabled, Undecided;
    StepLatches(s, step);
    if step == Act(t, step.Act? && step.ok) && Undecided(s.pc[t], c) {
      DialerDiscards(s, t, step.ok, c);
    } else {
      DecisionFollows(s, step, t, c);
      HolderStays(s, step, t, c);
    }
  }

  lemma {:induction false} RunDooms(s: State, steps: seq<Step>, t: Caller, c: Conn)
    requires Inv(s) && Doomed(s, t, c) && IsRun(s, steps)
    ensures Inv(Exec(s, steps)) && Doomed(Exec(s, steps), t, c)
    decreases |steps|
  {
    hide Inv, Doomed, Enabled, Next;
    if steps != [] {
      StepDooms(s, steps[0], t, c);
      StepKeepsInv(s, steps[0]);
      RunDooms(Next(s, steps[0]), steps[1..], t, c);
    }
  }

  /**
   A connection whose dial ended after the client was cancelled is never published in any
   continuation, and its dialer closes it, once, before it goes on.
   */
  lemma OvertakenIsDiscarded(s: State, t: Caller, c: Conn, steps: seq<Step>)
    requires Reachable(s) && s.sh.canceled && IsRun(s, steps)
    requires t in s.pc && (s.pc[t].Dialed? || s.pc[t].RcDialed?) && s.pc[t].made == c
    ensures var s' := Exec(s, steps);
            && c !in s'.sh.published && s'.sh.cur != Some(c) && t in s'.pc
            && s'.sh.ownerCloses[c] == if Undecided(s'.pc[t], c) then 0 else 1
  {
    ReachableHasInv(s);
    assert Debts(s.sh, t, s.pc[t]) && HeldBy(s.sh, c, InHand(t));
    hide Inv, Debts, Reachable;
    RunDooms(s, steps, t, c);
    DoomedMeans(Exec(s, steps), t, c);
  }

  lemma DoomedMeans(s: State, t: Caller, c: Conn)
    requires Inv(s) && Doomed(s, t, c)
    ensures c !in s.sh.published && s.sh.cur != Some(c)
    ensures s.sh.ownerCloses[c] == if Undecided(s.pc[t], c) then 0 else 1
  {
    hide Counters, Swaps, Shutdown, Mutex, Callers;
  }
}
