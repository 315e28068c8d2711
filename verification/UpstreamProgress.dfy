/** No call on the shared upstream connection is stuck behind the mutex, and each takes few steps of its own. */
module UpstreamProgress {
  import opened Wrappers
  import opened Upstream
  import opened UpstreamInvariant
  import opened UpstreamProperties

  // ------------------------------------------------------------------ the mutex

  /** A step of this caller, or upstream's answer to its request. */
  predicate OwnStep(step: Step, t: Caller) {
    (step.Act? || step.Answer?) && step.caller == t
  }

  /** Whoever holds the mutex can go on at once: its next step waits for nobody, whatever a dial or a close returns. */
  lemma HolderGoesOn(s: State, u: Caller, ok: bool)
    requires Reachable(s) && s.sh.mu == Some(u)
    ensures u in s.pc && HoldsLock(s.pc[u]) && Enabled(s, Act(u, ok))
  {
    hide Reachable, HoldsLock, Enabled;
    ReachableHasInv(s);
    assert Mutex(s);
    hide Inv, Mutex;
    HolderActs(s, u, ok);
  }

  lemma HolderActs(s: State, u: Caller, ok: bool)
    requires u in s.pc && HoldsLock(s.pc[u])
    ensures Enabled(s, Act(u, ok))
  {
  }

  /** A caller that cannot go on waits for the mutex, and its holder can go on. */
  lemma BlockedByHolder(s: State, t: Caller)
    requires Reachable(s) && t in s.pc && !Ended(s.pc[t]) && forall step | OwnStep(step, t) :: !Enabled(s, step)
    ensures TakesLock(s.pc[t]) && s.sh.mu.Some? && s.sh.mu != Some(t)
    ensures s.sh.mu.value in s.pc && HoldsLock(s.pc[s.sh.mu.value])
    ensures forall ok :: Enabled(s, Act(s.sh.mu.value, ok))
  {
    assert OwnStep(Act(t, true), t) && OwnStep(Answer(t, Reply), t);
    var u := s.sh.mu.value;
    forall ok
      ensures u in s.pc && HoldsLock(s.pc[u]) && Enabled(s, Act(u, ok))
    {
      HolderGoesOn(s, u, ok);
    }
    assert !HoldsLock(s.pc[t]) by { TakersHoldNothing(s.pc[t]); }
  }

  lemma TakersHoldNothing(pc: Pc)
    requires TakesLock(pc)
    ensures !HoldsLock(pc)
  {
  }

  // ------------------------------------------------------------------ the length of a call

  /** The steps a caller can still take at most: one look-up, one request, one reconnect, and for List once more. */
  function Rank(pc: Pc): nat {
    match pc
    case Load(u) => Later(u) + 11
    case Lock(u) => Later(u) + 10
    case Check(u) => Later(u) + 9
    case Reload(u) => Later(u) + 8
    case Dial(u) => Later(u) + 7
    case Dialed(u, _) => Later(u) + 6
    case Abandon(u, _) => Later(u) + 5
    case Store(u, _) => Later(u) + 5
    case Count(u, _) => Later(u) + 4
    case Unlock(u, _) => Later(u) + 3
    case Request(u, _, _) => Later(u) + 2
    case _ => RankOfRest(pc)
  }

  function RankOfRest(pc: Pc): nat {
    match pc
    case Judge(_, _) => 22
    case JudgeAgain(_, _) => 21
    case RcLock(_, _) => 20
    case RcCheck(_, _) => 19
    case RcLoad(_, _) => 18
    case RcDial(_, _) => 17
    case RcDialed(_, _, _) => 16
    case RcAbandon(_, _, _) => 15
    case RcSwap(_, _, _) => 15
    case RcCount(_, _, _) => 14
    case RcCloseOld(_, _, _) => 13
    case RcUnlock(_, _, _) => 12
    case DropMark(_) => 3
    case DropSwap(_) => 2
    case DropClose(_) => 1
    case CloseCancel => 5
    case CloseLock => 4
    case CloseLoad => 3
    case CloseConn(_) => 2
    case CloseUnlock(_) => 1
    case _ => 0
  }

  /** What comes after a first request, but not after a second. */
  function Later(u: Use): nat {
    if u.First? then 21 else 0
  }

  lemma ConnectionShortens(sh: Shared, t: Caller, pc: Pc, ok: bool)
    requires !InReconnect(pc) && !InDrop(pc) && !InClose(pc) && !pc.Request? && !Ended(pc)
    ensures Rank(ConnectionMove(sh, t, pc, ok).1) < Rank(pc)
  {
    hide Stored, DialedBy, ClosedByOwner;
  }

  lemma ReconnectShortens(sh: Shared, t: Caller, pc: Pc, ok: bool)
    requires InReconnect(pc)
    ensures Rank(ReconnectMove(sh, t, pc, ok).1) < Rank(pc)
  {
    hide Swapped, DialedBy, ClosedByOwner;
  }

  lemma DropShortens(sh: Shared, t: Caller, pc: Pc)
    requires InDrop(pc)
    ensures Rank(DropMove(sh, t, pc).1) < Rank(pc)
  {
    hide Dropped, ClosedByOwner;
  }

  lemma CloseShortens(sh: Shared, t: Caller, pc: Pc, ok: bool)
    requires InClose(pc)
    ensures Rank(CloseMove(sh, t, pc, ok).1) < Rank(pc)
  {
  }

  lemma MoveShortens(sh: Shared, t: Caller, pc: Pc, ok: bool)
    requires !pc.Request? && !Ended(pc)
    ensures Rank(Move(sh, t, pc, ok).1) < Rank(pc)
  {
    hide ConnectionMove, ReconnectMove, DropMove, CloseMove, Rank;
    if InReconnect(pc) { ReconnectShortens(sh, t, pc, ok); }
    else if InDrop(pc) { DropShortens(sh, t, pc); }
    else if InClose(pc) { CloseShortens(sh, t, pc, ok); }
    else { ConnectionShortens(sh, t, pc, ok); }
  }

  lemma AnswerShortens(pc: Pc, outcome: Outcome)
    requires pc.Request?
    ensures Rank(Answered(pc, outcome)) < Rank(pc)
  {
  }

  lemma TimerIsNoStep(pc: Pc)
    requires pc.Request?
    ensures Rank(pc.(armed := false)) == Rank(pc)
  {
  }

  /** A step of one's own leaves fewer to take, and a step of another leaves as many. */
  lemma StepShortens(s: State, step: Step, t: Caller)
    requires Enabled(s, step) && t in s.pc
    ensures t in Next(s, step).pc
    ensures if OwnStep(step, t) then Rank(Next(s, step).pc[t]) < Rank(s.pc[t])
            else Rank(Next(s, step).pc[t]) == Rank(s.pc[t])
  {
    hide Move, Answered, Rank;
    if step.Act? { MoveShortens(s.sh, step.caller, s.pc[step.caller], step.ok); }
    if step.Answer? { AnswerShortens(s.pc[step.caller], step.outcome); }
    if step.Fire? { TimerIsNoStep(s.pc[step.caller]); }
  }

  function OwnSteps(steps: seq<Step>, t: Caller): nat {
    if steps == [] then 0 else (if OwnStep(steps[0], t) then 1 else 0) + OwnSteps(steps[1..], t)
  }

  lemma {:induction false} RunShortens(s: State, steps: seq<Step>, t: Caller)
    requires IsRun(s, steps) && t in s.pc
    ensures t in Exec(s, steps).pc && OwnSteps(steps, t) + Rank(Exec(s, steps).pc[t]) <= Rank(s.pc[t])
    decreases |steps|
  {
    if steps != [] {
      StepShortens(s, steps[0], t);
      hide Rank, Enabled, Next;
      RunShortens(Next(s, steps[0]), steps[1..], t);
    }
  }

  /** In any run, and whatever the others do, a call takes at most 32 steps of its own, and a Close at most 5. */
  lemma CallIsBounded(s: State, begin: Step, steps: seq<Step>)
    requires (begin.Begin? || begin.BeginClose?) && Enabled(s, begin) && IsRun(Next(s, begin), steps)
    ensures OwnSteps(steps, begin.caller) <= if begin.Begin? then 32 else 5
  {
    RunShortens(Next(s, begin), steps, begin.caller);
  }

  /** A watchdog that has fired takes at most 3. */
  lemma DropIsBounded(s: State, fire: Step, steps: seq<Step>)
    requires fire.Fire? && Enabled(s, fire) && IsRun(Next(s, fire), steps)
    ensures OwnSteps(steps, fire.watcher) <= 3
  {
    RunShortens(Next(s, fire), steps, fire.watcher);
  }
}
