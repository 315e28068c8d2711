/**
 What becomes of a request that the agent did not answer properly, whatever other callers do meanwhile:
 which errors make its caller replace the connection, and which leave everything as it was.
 */
module UpstreamRecovery {
  import opened Wrappers
  import opened Upstream
  import opened UpstreamInvariant
  import opened UpstreamMoves
  import opened UpstreamProperties
  import opened UpstreamProgress

  /** Caller `t` has a first List or Sign on the wire, on a connection that has failed at the socket. */
  predicate OnBrokenConn(s: State, t: Caller) {
    && t in s.pc && s.pc[t].Request? && s.pc[t].use.First? && s.pc[t].use.op != OtherOp
    && s.pc[t].conn in s.sh.failed
  }

  /** The client is over, or the watchdog has given the connection up: no replacement is due. */
  predicate Excused(sh: Shared, c: Conn) {
    sh.closed || sh.canceled || c in sh.unanswered
  }

  /** The steps of `t` stop short of a second answer, and its dials succeed. */
  predicate WithoutAnswer(steps: seq<Step>, t: Caller) {
    forall k | 0 <= k < |steps| :: !(steps[k].Answer? && steps[k].caller == t)
  }

  predicate DialsSucceed(steps: seq<Step>, t: Caller) {
    forall k | 0 <= k < |steps| :: steps[k].Act? && steps[k].caller == t ==> steps[k].ok
  }

  // ------------------------------------------------------------------ where the caller can be

  /** After the error of a request on `c`: judging it, replacing `c`, or, for List, looking for the replacement. */
  predicate After(pc: Pc, op: Op, c: Conn) {
    if pc.Judge? || pc.JudgeAgain? || InReconnect(pc) then pc.op == op && pc.conn == c
    else pc.Told? || (HasUse(pc) && pc.use == Retry(c) && op == ListOp)
  }

  /** The caller has not given up: it is done only when `c` is out of the pointer and no second attempt is due. */
  ghost predicate Succeeds(sh: Shared, pc: Pc, op: Op, c: Conn) {
    match pc
    case RcUnlock(_, _, usable) => usable
    case RcAbandon(_, _, _) => false
    case Unlock(_, found) => found.Some?
    case Abandon(_, _) => false
    case Told(_) => op != ListOp && Gone(sh, c)
    case _ => true
  }

  lemma ConnectionGoesOn(sh: Shared, t: Caller, pc: Pc, ok: bool, op: Op, c: Conn)
    requires HasUse(pc) && !pc.Request? && After(pc, op, c) && Succeeds(sh, pc, op, c)
    ensures var (sh', pc') := ConnectionMove(sh, t, pc, ok);
            After(pc', op, c) && (!Excused(sh, c) && ok ==> Succeeds(sh', pc', op, c))
  {
    hide Stored, DialedBy, ClosedByOwner;
  }

  lemma ConnectionStaysAfter(sh: Shared, t: Caller, pc: Pc, ok: bool, op: Op, c: Conn)
    requires !InReconnect(pc) && !InDrop(pc) && !InClose(pc) && !pc.Request? && After(pc, op, c)
    ensures After(ConnectionMove(sh, t, pc, ok).1, op, c)
  {
    hide Stored, DialedBy, ClosedByOwner;
  }

  lemma JudgeGoesOn(sh: Shared, t: Caller, pc: Pc, ok: bool, op: Op, c: Conn)
    requires (pc.Judge? || pc.JudgeAgain?) && After(pc, op, c) && c in sh.failed && !Excused(sh, c)
    ensures var (sh', pc') := ConnectionMove(sh, t, pc, ok); After(pc', op, c) && Succeeds(sh', pc', op, c)
  {
  }

  lemma ReconnectStaysAfter(sh: Shared, t: Caller, pc: Pc, ok: bool, op: Op, c: Conn)
    requires InReconnect(pc) && After(pc, op, c)
    ensures After(ReconnectMove(sh, t, pc, ok).1, op, c)
  {
    hide Swapped, DialedBy, ClosedByOwner;
  }

  lemma ReconnectGoesOn(sh: Shared, t: Caller, pc: Pc, op: Op, c: Conn)
    requires InReconnect(pc) && After(pc, op, c) && Succeeds(sh, pc, op, c) && PcOk(sh, pc) && !Excused(sh, c)
    ensures var (sh', pc') := ReconnectMove(sh, t, pc, true); Succeeds(sh', pc', op, c)
  {
    hide Swapped, DialedBy, ClosedByOwner;
  }

  /** An own step of the caller, from where it can be to where it can be. */
  lemma MoveGoesOn(sh: Shared, t: Caller, pc: Pc, ok: bool, op: Op, c: Conn)
    requires After(pc, op, c) && !pc.Request? && !Ended(pc) && c in sh.failed && PcOk(sh, pc)
    ensures var (sh', pc') := Move(sh, t, pc, ok);
            && After(pc', op, c)
            && (Succeeds(sh, pc, op, c) && !Excused(sh, c) && ok ==> Succeeds(sh', pc', op, c))
  {
    hide ConnectionMove, ReconnectMove, Succeeds, Excused, PcOk;
    if InReconnect(pc) {
      ReconnectStaysAfter(sh, t, pc, ok, op, c);
      if Succeeds(sh, pc, op, c) && !Excused(sh, c) && ok { ReconnectGoesOn(sh, t, pc, op, c); }
    } else {
      ConnectionStaysAfter(sh, t, pc, ok, op, c);
      if Succeeds(sh, pc, op, c) && !Excused(sh, c) && ok {
        if HasUse(pc) { ConnectionGoesOn(sh, t, pc, ok, op, c); } else { JudgeGoesOn(sh, t, pc, ok, op, c); }
      }
    }
  }

  // ------------------------------------------------------------------ over a run

  /** What no step takes back. */
  predicate Latched(sh: Shared, sh': Shared) {
    && (sh.closed ==> sh'.closed) && (sh.canceled ==> sh'.canceled)
    && sh.unanswered <= sh'.unanswered && sh.failed <= sh'.failed
  }

  lemma UpdatesLatch(sh: Shared, t: Caller, c: Conn, h: Holder)
    ensures Latched(sh, DialedBy(sh, t)) && Latched(sh, ClosedByOwner(sh, c, h)) && Latched(sh, Stored(sh, c))
    ensures Latched(sh, Dropped(sh, t, c))
  {
    hide Assign;
  }

  lemma SwapLatches(sh: Shared, t: Caller, c: Conn, f: Conn)
    ensures Latched(sh, sh) && Latched(sh, Swapped(sh, t, f, c))
  {
    hide Assign;
  }

  lemma PlainReconnectLatches(sh: Shared, t: Caller, pc: Pc, ok: bool)
    requires InReconnect(pc) && !RcUpdates(pc)
    ensures Latched(sh, ReconnectMove(sh, t, pc, ok).0)
  {
    hide Stored, DialedBy, ClosedByOwner, Swapped, Dropped;
  }

  lemma ReconnectLatches(sh: Shared, t: Caller, pc: Pc, ok: bool)
    requires InReconnect(pc)
    ensures Latched(sh, ReconnectMove(sh, t, pc, ok).0)
  {
    hide Stored, DialedBy, ClosedByOwner, Swapped, Dropped, Latched;
    if !RcUpdates(pc) {
      PlainReconnectLatches(sh, t, pc, ok);
    } else {
      var c := if pc.RcAbandon? || pc.RcSwap? then pc.made
               else if pc.RcCloseOld? && pc.prior.Some? then pc.prior.value else 0;
      UpdatesLatch(sh, t, c, if pc.RcAbandon? then Discarded else Retired);
      SwapLatches(sh, t, c, pc.conn);
    }
  }

  lemma DropLatches(sh: Shared, t: Caller, pc: Pc)
    requires InDrop(pc)
    ensures Latched(sh, DropMove(sh, t, pc).0)
  {
    UpdatesLatch(sh, t, pc.conn, Retired);
    hide Dropped, ClosedByOwner;
  }

  lemma PlainConnectionLatches(sh: Shared, t: Caller, pc: Pc, ok: bool)
    requires !pc.Dial? && !pc.Abandon? && !pc.Store?
    ensures Latched(sh, ConnectionMove(sh, t, pc, ok).0)
  {
    hide Stored, DialedBy, ClosedByOwner;
  }

  lemma ConnectionLatches(sh: Shared, t: Caller, pc: Pc, ok: bool)
    ensures Latched(sh, ConnectionMove(sh, t, pc, ok).0)
  {
    hide Stored, DialedBy, ClosedByOwner, Latched;
    if pc.Dial? || pc.Abandon? || pc.Store? {
      UpdatesLatch(sh, t, if pc.Dial? then 0 else pc.made, Discarded);
      SwapLatches(sh, t, 0, 0);
    } else {
      PlainConnectionLatches(sh, t, pc, ok);
    }
  }

  lemma CloseLatches(sh: Shared, t: Caller, pc: Pc, ok: bool)
    ensures Latched(sh, CloseMove(sh, t, pc, ok).0)
  {
  }

  lemma MoveLatches(sh: Shared, t: Caller, pc: Pc, ok: bool)
    ensures Latched(sh, Move(sh, t, pc, ok).0)
  {
    hide ConnectionMove, ReconnectMove, DropMove, CloseMove, Latched;
    if InReconnect(pc) { ReconnectLatches(sh, t, pc, ok); }
    else if InDrop(pc) { DropLatches(sh, t, pc); }
    else if InClose(pc) { CloseLatches(sh, t, pc, ok); }
    else { ConnectionLatches(sh, t, pc, ok); }
  }

  lemma StepLatches(s: State, step: Step)
    requires Enabled(s, step)
    ensures Latched(s.sh, Next(s, step).sh)
  {
    hide Move;
    if step.Act? { MoveLatches(s.sh, step.caller, s.pc[step.caller], step.ok); }
  }

  /** What holds from the error on, at every point of a run; `sure` when no dial of the caller fails. */
  ghost predicate Recovering(s: State, t: Caller, op: Op, c: Conn, sure: bool) {
    && t in s.pc && After(s.pc[t], op, c) && c in s.sh.failed
    && (sure ==> Excused(s.sh, c) || Succeeds(s.sh, s.pc[t], op, c))
  }

  lemma OthersLeave(s: State, step: Step, t: Caller)
    requires Enabled(s, step) && t in s.pc && !OwnStep(step, t)
    ensures t in Next(s, step).pc
    ensures Next(s, step).pc[t] == s.pc[t] || (s.pc[t].Request? && Next(s, step).pc[t] == s.pc[t].(armed := false))
  {
    hide Move, Answered;
  }

  lemma StaysThere(sh: Shared, sh': Shared, pc: Pc, pc': Pc, op: Op, c: Conn)
    requires After(pc, op, c) && Advances(sh, sh') && Latched(sh, sh')
    requires pc' == pc || (pc.Request? && pc' == pc.(armed := false))
    ensures After(pc', op, c) && (Succeeds(sh, pc, op, c) ==> Succeeds(sh', pc', op, c))
    ensures Excused(sh, c) ==> Excused(sh', c)
    ensures c in sh.failed ==> c in sh'.failed
  {
  }

  lemma StepGoesOn(s: State, step: Step, t: Caller, op: Op, c: Conn, sure: bool)
    requires Inv(s) && Enabled(s, step) && Recovering(s, t, op, c, sure)
    requires !(step.Answer? && step.caller == t) && (sure && step.Act? && step.caller == t ==> step.ok)
    ensures Recovering(Next(s, step), t, op, c, sure)
  {
    StepLatches(s, step);
    if OwnStep(step, t) {
      assert PcOk(s.sh, s.pc[t]);
      MoveGoesOn(s.sh, t, s.pc[t], step.ok, op, c);
      hide Inv, Move, PcOk, Succeeds, After;
    } else {
      hide Next, Inv, Advances, Latched, After, Succeeds, Excused;
      StepAdvances(s, step);
      OthersLeave(s, step, t);
      StaysThere(s.sh, Next(s, step).sh, s.pc[t], Next(s, step).pc[t], op, c);
    }
  }

  lemma {:induction false} RunGoesOn(s: State, steps: seq<Step>, t: Caller, op: Op, c: Conn, sure: bool)
    requires Inv(s) && IsRun(s, steps) && Recovering(s, t, op, c, sure)
    requires WithoutAnswer(steps, t) && (sure ==> DialsSucceed(steps, t))
    ensures Inv(Exec(s, steps)) && Recovering(Exec(s, steps), t, op, c, sure)
    decreases |steps|
  {
    hide Inv, Enabled, Next, Recovering;
    if steps != [] {
      StepGoesOn(s, steps[0], t, op, c, sure);
      StepKeepsInv(s, steps[0]);
      RunGoesOn(Next(s, steps[0]), steps[1..], t, op, c, sure);
    }
  }

  /** The caller's request is over, or its second attempt is on the wire. */
  predicate Decided(pc: Pc) {
    pc.Told? || pc.Request?
  }

  /** Connection `c` has been closed by its owner, or another caller is still to close it. */
  ghost predicate ClosedOrOwed(s: State, t: Caller, c: Conn) {
    s.sh.ownerCloses[c] == 1 || exists u :: u != t && u in s.pc && Removed(s.pc[u]) == Some(c)
  }

  lemma GoneIsClosed(s: State, t: Caller, c: Conn)
    requires Inv(s) && Gone(s.sh, c) && t in s.pc && Removed(s.pc[t]) == None
    ensures c in s.sh.published && s.sh.cur != Some(c) && ClosedOrOwed(s, t, c)
  {
    if s.sh.holder[c].Owed? {
      var u := s.sh.holder[c].remover;
      assert HeldBy(s.sh, c, Owed(u)) && Debts(s.sh, u, if u in s.pc then s.pc[u] else Finished);
    }
  }

  lemma ErrorIsJudged(s: State, t: Caller)
    requires OnBrokenConn(s, t)
    ensures Recovering(Next(s, Answer(t, ClientError)), t, s.pc[t].use.op, s.pc[t].conn, true)
  {
  }

  /**
   In every interleaving: a List or Sign whose connection broke at the socket ends with that
   connection out of the pointer and closed, and List alone goes on to a second attempt, unless the
   client was shut down, the watchdog had given the connection up, or the caller's dial failed.
   */
  lemma BrokenIsReplaced(s: State, t: Caller, steps: seq<Step>)
    requires Reachable(s) && OnBrokenConn(s, t)
    requires IsRun(Next(s, Answer(t, ClientError)), steps) && WithoutAnswer(steps, t)
    requires var s' := Exec(Next(s, Answer(t, ClientError)), steps); t in s'.pc && Decided(s'.pc[t])
    ensures var s', c, op := Exec(Next(s, Answer(t, ClientError)), steps), s.pc[t].conn, s.pc[t].use.op;
            && (s'.pc[t].Request? ==> op == ListOp && s'.pc[t].use == Retry(c))
            && (DialsSucceed(steps, t) && !Excused(s'.sh, c) ==>
                  && c in s'.sh.published && s'.sh.cur != Some(c) && ClosedOrOwed(s', t, c)
                  && (s'.pc[t].Request? <==> op == ListOp))
  {
    var s1, c, op := Next(s, Answer(t, ClientError)), s.pc[t].conn, s.pc[t].use.op;
    ReachableHasInv(s);
    StepKeepsInv(s, Answer(t, ClientError));
    ErrorIsJudged(s, t);
    hide Inv, Reachable, Enabled, Next, IsRun, Exec, ClosedOrOwed, Excused, After, Succeeds;
    RunGoesOn(s1, steps, t, op, c, DialsSucceed(steps, t));
    DecidedIsReplaced(Exec(s1, steps), t, op, c);
  }

  lemma DecidedIsReplaced(s: State, t: Caller, op: Op, c: Conn)
    requires Inv(s) && Recovering(s, t, op, c, false) && Decided(s.pc[t])
    ensures s.pc[t].Request? ==> op == ListOp && s.pc[t].use == Retry(c)
    ensures Recovering(s, t, op, c, true) && !Excused(s.sh, c) ==>
              && c in s.sh.published && s.sh.cur != Some(c) && ClosedOrOwed(s, t, c)
              && (s.pc[t].Request? <==> op == ListOp)
  {
    if Recovering(s, t, op, c, true) && !Excused(s.sh, c) {
      assert PcOk(s.sh, s.pc[t]);
      GoneIsClosed(s, t, c);
      hide Inv;
    }
  }

  // ------------------------------------------------------------------ and nothing else does

  /** The caller is still judging the error, or done; it looks twice only at a connection that has failed. */
  predicate Judging(sh: Shared, pc: Pc, c: Conn) {
    pc.Told? || ((pc.Judge? || pc.JudgeAgain?) && pc.conn == c && (pc.JudgeAgain? ==> c in sh.failed))
  }

  /** No step of the caller changes what the others see. */
  ghost predicate TouchesNothing(s: State, steps: seq<Step>, t: Caller)
    requires IsRun(s, steps)
    decreases |steps|
  {
    steps != [] ==>
      && (OwnStep(steps[0], t) ==> Next(s, steps[0]).sh == s.sh)
      && TouchesNothing(Next(s, steps[0]), steps[1..], t)
  }

  /** A reply, an agent failure, a second error and any error of another operation just end the call. */
  lemma OthersJustEnd(s: State, t: Caller, outcome: Outcome)
    requires Enabled(s, Answer(t, outcome))
    requires outcome != ClientError || s.pc[t].use.Retry? || s.pc[t].use.op == OtherOp
    ensures Next(s, Answer(t, outcome)) == State(s.sh, s.pc[t := Told(Some(outcome))])
  {
  }

  lemma StillJudging(s: State, step: Step, t: Caller, c: Conn)
    requires Enabled(s, step) && t in s.pc && Judging(s.sh, s.pc[t], c) && (c !in s.sh.failed || c in s.sh.unanswered)
    ensures t in Next(s, step).pc && Judging(Next(s, step).sh, Next(s, step).pc[t], c)
    ensures OwnStep(step, t) ==> Next(s, step).sh == s.sh
  {
    if OwnStep(step, t) {
      hide ReconnectMove, DropMove, CloseMove, Stored, DialedBy, ClosedByOwner;
    } else {
      StepLatches(s, step);
      OthersLeave(s, step, t);
      hide Next;
    }
  }

  lemma {:induction false} RunStillJudging(s: State, steps: seq<Step>, t: Caller, c: Conn)
    requires IsRun(s, steps) && t in s.pc && Judging(s.sh, s.pc[t], c)
    requires c !in Exec(s, steps).sh.failed || c in s.sh.unanswered
    ensures t in Exec(s, steps).pc && Judging(Exec(s, steps).sh, Exec(s, steps).pc[t], c) && TouchesNothing(s, steps, t)
    ensures s.sh.failed <= Exec(s, steps).sh.failed
    decreases |steps|
  {
    hide Enabled, Next, Judging;
    if steps != [] {
      StepLatches(s, steps[0]);
      FailuresStay(Next(s, steps[0]), steps[1..]);
      StillJudging(s, steps[0], t, c);
      RunStillJudging(Next(s, steps[0]), steps[1..], t, c);
    }
  }

  lemma {:induction false} FailuresStay(s: State, steps: seq<Step>)
    requires IsRun(s, steps)
    ensures s.sh.failed <= Exec(s, steps).sh.failed
    decreases |steps|
  {
    hide Enabled, Next;
    if steps != [] {
      StepLatches(s, steps[0]);
      FailuresStay(Next(s, steps[0]), steps[1..]);
    }
  }

  /**
   Nor does an error of the client alone: while the socket has not failed, or when the watchdog had
   given the connection up, the caller of a List or Sign makes no second attempt and changes nothing.
   */
  lemma SoundConnIsKept(s: State, t: Caller, steps: seq<Step>)
    requires Enabled(s, Answer(t, ClientError)) && IsRun(Next(s, Answer(t, ClientError)), steps)
    requires s.pc[t].use.First? && s.pc[t].use.op != OtherOp
    requires s.pc[t].conn !in Exec(Next(s, Answer(t, ClientError)), steps).sh.failed || s.pc[t].conn in s.sh.unanswered
    ensures var s1 := Next(s, Answer(t, ClientError));
            var pc' := Exec(s1, steps).pc;
            && s1.sh == s.sh && TouchesNothing(s1, steps, t)
            && t in pc' && (pc'[t].Judge? || pc'[t].JudgeAgain? || pc'[t].Told?)
  {
    RunStillJudging(Next(s, Answer(t, ClientError)), steps, t, s.pc[t].conn);
  }

  // ------------------------------------------------------------------ a caller left alone

  predicate OnlyBy(steps: seq<Step>, t: Caller) {
    forall k | 0 <= k < |steps| :: steps[k] == Act(t, true)
  }

  /** The caller's own steps change neither the flags nor what is marked. */
  predicate SameMarks(sh: Shared, sh': Shared) {
    sh'.closed == sh.closed && sh'.canceled == sh.canceled && sh'.unanswered == sh.unanswered
  }

  lemma ConnectionMarksNothing(sh: Shared, t: Caller, pc: Pc, ok: bool)
    ensures SameMarks(sh, ConnectionMove(sh, t, pc, ok).0)
  {
  }

  lemma ReconnectMarksNothing(sh: Shared, t: Caller, pc: Pc, ok: bool)
    ensures SameMarks(sh, ReconnectMove(sh, t, pc, ok).0)
  {
    hide Assign;
  }

  lemma OwnMoveMarksNothing(sh: Shared, t: Caller, pc: Pc, ok: bool, op: Op, c: Conn)
    requires After(pc, op, c)
    ensures SameMarks(sh, Move(sh, t, pc, ok).0)
  {
    hide ConnectionMove, ReconnectMove, DropMove, CloseMove, SameMarks;
    if InReconnect(pc) { ReconnectMarksNothing(sh, t, pc, ok); } else { ConnectionMarksNothing(sh, t, pc, ok); }
  }

  /** Nobody else holds the mutex. */
  predicate LockIsFree(s: State, t: Caller) {
    s.sh.mu == None || s.sh.mu == Some(t)
  }

  /** Caller `t` alone has moved, and the client is neither more closed nor has the watchdog marked anything. */
  ghost predicate OnlyMoves(s: State, s': State, t: Caller) {
    && SameMarks(s.sh, s'.sh) && s'.pc.Keys == s.pc.Keys
    && (forall u | u in s.pc && u != t :: s'.pc[u] == s.pc[u])
  }

  lemma OnlyMovesOn(s: State, s': State, s'': State, t: Caller)
    ensures OnlyMoves(s, s, t)
    ensures OnlyMoves(s, s', t) && OnlyMoves(s', s'', t) ==> OnlyMoves(s, s'', t)
  {
  }

  lemma AloneCanGoOn(s: State, t: Caller, op: Op, c: Conn)
    requires Inv(s) && t in s.pc && After(s.pc[t], op, c) && LockIsFree(s, t) && !Decided(s.pc[t])
    ensures Enabled(s, Act(t, true))
  {
    assert Mutex(s);
    hide Inv, Mutex;
    if TakesLock(s.pc[t]) { TakersHoldNothing(s.pc[t]); }
    hide HoldsLock;
  }

  lemma OthersKeepLockFree(s: State, s': State, t: Caller)
    requires Inv(s) && Inv(s') && LockIsFree(s, t) && OnlyMoves(s, s', t)
    ensures LockIsFree(s', t)
  {
    assert Mutex(s) && Mutex(s');
    hide Inv, HoldsLock;
  }

  lemma OwnMoveOnly(s: State, t: Caller, op: Op, c: Conn)
    requires Enabled(s, Act(t, true)) && After(s.pc[t], op, c)
    ensures OnlyMoves(s, Next(s, Act(t, true)), t)
  {
    hide Move, After, SameMarks;
    OwnMoveMarksNothing(s.sh, t, s.pc[t], true, op, c);
  }

  lemma AloneGoesOn(s: State, t: Caller, op: Op, c: Conn)
    requires Inv(s) && Recovering(s, t, op, c, true) && LockIsFree(s, t) && !Decided(s.pc[t])
    ensures Enabled(s, Act(t, true))
    ensures var s' := Next(s, Act(t, true));
            && Inv(s') && Recovering(s', t, op, c, true) && LockIsFree(s', t) && OnlyMoves(s, s', t)
            && Rank(s'.pc[t]) < Rank(s.pc[t])
  {
    hide Inv, LockIsFree, After, Succeeds, Excused, Next, Enabled, Rank, Decided, OnlyMoves;
    AloneCanGoOn(s, t, op, c);
    StepKeepsInv(s, Act(t, true));
    StepGoesOn(s, Act(t, true), t, op, c, true);
    StepShortens(s, Act(t, true), t);
    OwnMoveOnly(s, t, op, c);
    OthersKeepLockFree(s, Next(s, Act(t, true)), t);
  }

  /** Left alone, the caller gets to its decision. */
  lemma {:induction false} DecidesAlone(s: State, t: Caller, op: Op, c: Conn) returns (steps: seq<Step>)
    requires Inv(s) && Recovering(s, t, op, c, true) && LockIsFree(s, t)
    ensures OnlyBy(steps, t) && IsRun(s, steps)
    ensures var s' := Exec(s, steps);
            && Inv(s') && Recovering(s', t, op, c, true) && Decided(s'.pc[t]) && OnlyMoves(s, s', t)
    decreases Rank(s.pc[t])
  {
    assert t in s.pc;
    hide Inv, Recovering, LockIsFree, Rank, Decided, OnlyMoves, Enabled, Next, IsRun, Exec;
    if Decided(s.pc[t]) {
      steps := [];
      NoSteps(s);
      OnlyMovesOn(s, s, s, t);
    } else {
      AloneGoesOn(s, t, op, c);
      var rest := DecidesAlone(Next(s, Act(t, true)), t, op, c);
      StepFirst(s, Act(t, true), rest);
      steps := [Act(t, true)] + rest;
      OnlyMovesOn(s, Next(s, Act(t, true)), Exec(s, steps), t);
    }
  }

  lemma NoSteps(s: State)
    ensures IsRun(s, []) && Exec(s, []) == s
  {
  }

  lemma StepFirst(s: State, step: Step, rest: seq<Step>)
    requires Enabled(s, step) && IsRun(Next(s, step), rest)
    ensures IsRun(s, [step] + rest) && Exec(s, [step] + rest) == Exec(Next(s, step), rest)
  {
    hide Enabled, Next;
    assert ([step] + rest)[1..] == rest;
  }

  /**
   A caller left alone with a broken connection replaces it by its own steps, and closes it; if it
   lists, it then has its second request on the wire.
   */
  lemma ReplacesAlone(s: State, t: Caller) returns (steps: seq<Step>)
    requires Reachable(s) && OnBrokenConn(s, t) && !Excused(s.sh, s.pc[t].conn) && s.sh.mu == None
    requires forall u | u in s.pc && u != t :: Removed(s.pc[u]) != Some(s.pc[t].conn)
    ensures OnlyBy(steps, t) && IsRun(Next(s, Answer(t, ClientError)), steps)
    ensures var s', c, op := Exec(Next(s, Answer(t, ClientError)), steps), s.pc[t].conn, s.pc[t].use.op;
            && t in s'.pc && Decided(s'.pc[t]) && (s'.pc[t].Request? <==> op == ListOp)
            && s'.sh.cur != Some(c) && s'.sh.ownerCloses[c] == 1
  {
    hide Inv, Reachable, After, Succeeds, Recovering, Removed, OnlyMoves;
    var s1, c, op := Next(s, Answer(t, ClientError)), s.pc[t].conn, s.pc[t].use.op;
    ErrorLeavesRest(s, t);
    hide Next, Enabled;
    steps := DecidesAlone(s1, t, op, c);
    OnlyMovesOn(s, s1, Exec(s1, steps), t);
    AloneHasReplaced(s, Exec(s1, steps), t, op, c);
  }

  lemma ErrorLeavesRest(s: State, t: Caller)
    requires Reachable(s) && OnBrokenConn(s, t) && s.sh.mu == None
    ensures var s1 := Next(s, Answer(t, ClientError));
            Inv(s1) && Recovering(s1, t, s.pc[t].use.op, s.pc[t].conn, true) && OnlyMoves(s, s1, t) && s1.sh.mu == None
  {
    hide Inv, Reachable, After, Succeeds, Recovering, Answered;
    ReachableHasInv(s);
    StepKeepsInv(s, Answer(t, ClientError));
    ErrorIsJudged(s, t);
  }

  lemma AloneHasReplaced(s: State, s': State, t: Caller, op: Op, c: Conn)
    requires Inv(s') && Recovering(s', t, op, c, true) && Decided(s'.pc[t]) && OnlyMoves(s, s', t)
    requires !Excused(s.sh, c) && forall u | u in s.pc && u != t :: Removed(s.pc[u]) != Some(c)
    ensures (s'.pc[t].Request? <==> op == ListOp) && s'.sh.cur != Some(c) && s'.sh.ownerCloses[c] == 1
  {
    hide Inv, After, Succeeds, Removed;
    DecidedIsReplaced(s', t, op, c);
  }
}
