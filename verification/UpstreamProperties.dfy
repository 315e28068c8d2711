/** What the connection protocol guarantees over every run. */
module UpstreamProperties {
  import opened Wrappers
  import opened Upstream
  import opened UpstreamInvariant
  import opened UpstreamMoves

  lemma ReachableInv(watchdog: bool, steps: seq<Step>)
    requires IsRun(Init(watchdog), steps)
    ensures Inv(Exec(Init(watchdog), steps))
  {
    InitInv(watchdog);
    RunKeepsInv(Init(watchdog), steps);
  }

  lemma StepAdvances(s: State, step: Step)
    requires Inv(s) && Enabled(s, step)
    ensures Advances(s.sh, Next(s, step).sh)
  {
    if step.Act? {
      assert Debts(s.sh, step.caller, s.pc[step.caller]);
      MoveKeeps(s.sh, step.caller, s.pc[step.caller], step.ok);
    }
  }

  lemma {:induction false} RunAdvances(s: State, steps: seq<Step>)
    requires Inv(s) && IsRun(s, steps)
    ensures Advances(s.sh, Exec(s, steps).sh)
    decreases |steps|
  {
    if steps != [] {
      StepAdvances(s, steps[0]);
      StepKeepsInv(s, steps[0]);
      RunAdvances(Next(s, steps[0]), steps[1..]);
    }
  }

  ghost predicate Reachable(s: State) {
    exists watchdog, steps :: IsRun(Init(watchdog), steps) && Exec(Init(watchdog), steps) == s
  }

  lemma ReachableHasInv(s: State)
    requires Reachable(s)
    ensures Inv(s)
  {
    var watchdog, steps :| IsRun(Init(watchdog), steps) && Exec(Init(watchdog), steps) == s;
    ReachableInv(watchdog, steps);
  }

  /** A connection taken out of the pointer never gets back, whatever runs afterwards. */
  lemma RemovedNeverReturns(s: State, steps: seq<Step>, c: Conn)
    requires Reachable(s) && IsRun(s, steps)
    requires c in s.sh.published && s.sh.cur != Some(c)
    ensures var s' := Exec(s, steps);
            s'.sh.cur != Some(c) && multiset(s'.sh.published)[c] == 1
  {
    ReachableHasInv(s);
    RunKeepsInv(s, steps);
    RunAdvances(s, steps);
    var s' := Exec(s, steps);
    assert Gone(s.sh, c) && Gone(s'.sh, c) && c in s'.sh.published;
    DistinctCount(s'.sh.published, c);
  }

  lemma {:induction false} DistinctCount(q: seq<Conn>, c: Conn)
    requires forall i, j | 0 <= i < j < |q| :: q[i] != q[j]
    ensures multiset(q)[c] == if c in q then 1 else 0
    decreases |q|
  {
    if q != [] {
      var front := q[..|q| - 1];
      assert q == front + [q[|q| - 1]];
      DistinctCount(front, c);
    }
  }

  /**
   Every dialed connection is closed by exactly the caller that answers for it: the dialer of one
   never published, the remover of one taken out of the pointer. The count is 0 while that caller
   still has the close ahead of it, and 1 from then on.
   */
  lemma ClosedOnceByItsRemover(s: State, c: Conn)
    requires Reachable(s) && c < |s.sh.holder|
    ensures c in s.sh.published && s.sh.cur != Some(c) && s.sh.ownerCloses[c] != 1 ==>
              s.sh.ownerCloses[c] == 0 && exists t :: t in s.pc && Removed(s.pc[t]) == Some(c)
    ensures s.sh.ownerCloses[c] <= 1 && s.sh.shutdownCloses[c] <= 1
    ensures s.sh.cur == Some(c) ==> s.sh.ownerCloses[c] == 0
    ensures forall t, u | t in s.pc && u in s.pc && Removed(s.pc[t]) == Some(c) && Removed(s.pc[u]) == Some(c) :: t == u
  {
    ReachableHasInv(s);
    if s.sh.holder[c].Owed? {
      var t := s.sh.holder[c].remover;
      assert HeldBy(s.sh, c, Owed(t)) && Debts(s.sh, t, Where(s, t));
    }
    forall t | t in s.pc && Removed(s.pc[t]) == Some(c)
      ensures s.sh.holder[c] == Owed(t)
    {
      assert Debts(s.sh, t, s.pc[t]);
      assert HeldBy(s.sh, c, Owed(t));
    }
    assert s.sh.shutdownCloses[c] <= |s.sh.shutdownCloses|;
  }

  lemma OwnerClosesItsOwn(sh: Shared, t: Caller, pc: Pc, ok: bool, c: Conn)
    requires Move(sh, t, pc, ok).0.ownerCloses[c] != sh.ownerCloses[c]
    ensures Carries(pc) == Some(c) || Removed(pc) == Some(c)
    ensures Move(sh, t, pc, ok).0.ownerCloses[c] == sh.ownerCloses[c] + 1
    ensures Removed(Move(sh, t, pc, ok).1) == None
  {
    hide Move;
    MoveLeaves(sh, t, pc, ok);
    MoveGoes(sh, t, pc, ok);
    assert AboutToClose(pc) == Some(c);
  }

  /** The step that closes a published connection is taken by the caller that removed it, once. */
  lemma OnlyTheRemoverCloses(s: State, step: Step, c: Conn)
    requires Reachable(s) && Enabled(s, step) && c in s.sh.published
    requires Next(s, step).sh.ownerCloses[c] != s.sh.ownerCloses[c]
    ensures step.Act? && Removed(s.pc[step.caller]) == Some(c)
    ensures s.sh.ownerCloses[c] == 0 && Next(s, step).sh.ownerCloses[c] == 1
    ensures Removed(Next(s, step).pc[step.caller]) == None
  {
    ReachableHasInv(s);
    var t := step.caller;
    OwnerClosesItsOwn(s.sh, t, s.pc[t], step.ok, c);
    assert Debts(s.sh, t, s.pc[t]);
    assert Carries(s.pc[t]) == Some(c) ==> HeldBy(s.sh, c, InHand(t));
    assert Removed(s.pc[t]) == Some(c) ==> HeldBy(s.sh, c, Owed(t));
  }

  /** Once Close has taken the mutex no step of any caller publishes a connection. */
  lemma NothingPublishedAfterClose(s: State, steps: seq<Step>)
    requires Reachable(s) && s.sh.closed && IsRun(s, steps)
    ensures Exec(s, steps).sh.published == s.sh.published && Exec(s, steps).sh.closed
  {
    ReachableHasInv(s);
    RunAdvances(s, steps);
  }

  /** A connection that is dialed, not current and not closed by its owner is some caller's to close. */
  lemma DebtHasDebtor(s: State, c: Conn)
    requires Reachable(s) && c < |s.sh.holder| && (s.sh.holder[c].InHand? || s.sh.holder[c].Owed?)
    ensures exists t :: t in s.pc && (Carries(s.pc[t]) == Some(c) || Removed(s.pc[t]) == Some(c))
  {
    ReachableHasInv(s);
    var h := s.sh.holder[c];
    var t := if h.InHand? then h.dialer else h.remover;
    assert HeldBy(s.sh, c, h);
    assert Debts(s.sh, t, Where(s, t));
    assert t in s.pc;
  }

  lemma SettledByClose(s: State, closer: Caller)
    requires Inv(s) && closer in s.pc && s.pc[closer].CloseDone?
    ensures s.sh.settled && Ownership(s.sh) && Shutdown(s.sh)
  {
    assert PcOk(s.sh, s.pc[closer]);
  }

  /** After Close, what has no debtor has been closed by its owner, or is current and was closed by Close. */
  lemma SettledIsClosed(sh: Shared, c: Conn)
    requires sh.settled && Ownership(sh) && Shutdown(sh) &&
             c < |sh.holder| && !sh.holder[c].InHand? && !sh.holder[c].Owed?
    ensures sh.ownerCloses[c] + sh.shutdownCloses[c] >= 1
  {
  }

  /** When a Close has returned and every caller is done, every connection ever dialed has been closed. */
  lemma QuiescentAfterClose(s: State, closer: Caller)
    requires Reachable(s)
    requires closer in s.pc && s.pc[closer].CloseDone?
    requires forall t | t in s.pc :: Ended(s.pc[t])
    ensures forall c: Conn | c < |s.sh.holder| :: s.sh.ownerCloses[c] + s.sh.shutdownCloses[c] >= 1
  {
    ReachableHasInv(s);
    SettledByClose(s, closer);
    forall c: Conn | c < |s.sh.holder|
      ensures s.sh.ownerCloses[c] + s.sh.shutdownCloses[c] >= 1
    {
      if s.sh.holder[c].InHand? || s.sh.holder[c].Owed? { DebtHasDebtor(s, c); }
      SettledIsClosed(s.sh, c);
    }
    hide Reachable, Inv;
  }

  /** All calls of Close return the result of the one close the first of them made. */
  lemma ClosesAgree(s: State, t: Caller, u: Caller)
    requires Reachable(s) && t in s.pc && u in s.pc && s.pc[t].CloseDone? && s.pc[u].CloseDone?
    ensures s.pc[t].failed == s.pc[u].failed
  {
    ReachableHasInv(s);
    assert PcOk(s.sh, s.pc[t]) && PcOk(s.sh, s.pc[u]);
  }

  /** reconnect(failed) displaces `failed` or nothing, even when a drop falls between its check and its swap. */
  lemma SwapsOnlyFailedOrNil(s: State, i: nat)
    requires Reachable(s) && i < |s.sh.swaps|
    ensures s.sh.swaps[i].prior == None || s.sh.swaps[i].prior == Some(s.sh.swaps[i].failed)
  {
    ReachableHasInv(s);
  }

  /** Replacements dialed by callers that failed on `c`. */
  function Replacements(swaps: seq<Swap>, c: Conn): (n: nat) {
    if swaps == [] then 0
    else Replacements(swaps[..|swaps| - 1], c) + if swaps[|swaps| - 1].failed == c then 1 else 0
  }

  /** At most one replacement displaces `c` itself; any further one needs a pointer the watchdog cleared. */
  lemma {:induction false} ReplacementsCounted(swaps: seq<Swap>, c: Conn)
    requires forall i | 0 <= i < |swaps| :: swaps[i].prior == None || swaps[i].prior == Some(swaps[i].failed)
    requires forall i, j | 0 <= i < j < |swaps| && swaps[i].prior.Some? :: swaps[i].prior != swaps[j].prior
    ensures Replacements(swaps, c) <= NilSwaps(swaps) + if Swap(c, Some(c)) in swaps then 1 else 0
    decreases |swaps|
  {
    if swaps != [] {
      var front := swaps[..|swaps| - 1];
      assert swaps == front + [swaps[|swaps| - 1]];
      ReplacementsCounted(front, c);
    }
  }

  /** So without drops all the callers that failed on one connection cause one replacement dial between them. */
  lemma ReplacementBound(s: State, c: Conn)
    requires Reachable(s)
    ensures Replacements(s.sh.swaps, c) <= 1 + s.sh.drops
  {
    ReachableHasInv(s);
    ReplacementsCounted(s.sh.swaps, c);
  }

  /** A caller stands between its publication and counting it. */
  ghost predicate BetweenPublishingAndCounting(s: State) {
    exists t :: t in s.pc && (s.pc[t].Count? || s.pc[t].RcCount?)
  }

  lemma CountingHasCaller(s: State)
    requires Inv(s)
    ensures s.sh.counting <==> BetweenPublishingAndCounting(s)
  {
    if s.sh.counting {
      assert s.sh.mu.Some? && PcOk(s.sh, s.pc[s.sh.mu.value]);
    }
    forall t | t in s.pc && (s.pc[t].Count? || s.pc[t].RcCount?)
      ensures s.sh.counting
    {
      assert PcOk(s.sh, s.pc[t]) && HoldsLock(s.pc[t]);
    }
  }

  /**
   The reconnect counter is one less than the number of publications, or zero before the first, if
   and only if no caller is between publishing a later connection than the first and counting it.
   */
  lemma ReconnectCounter(s: State)
    requires Reachable(s)
    ensures s.sh.reconnects == (if s.sh.published == [] then 0 else |s.sh.published| - 1)
            <==> |s.sh.published| <= 1 || !BetweenPublishingAndCounting(s)
    ensures |s.sh.published| > 1 && BetweenPublishingAndCounting(s) ==> s.sh.reconnects == |s.sh.published| - 2
  {
    ReachableHasInv(s);
    CountingHasCaller(s);
    assert Counters(s.sh);
    hide Inv, BetweenPublishingAndCounting;
  }

  /** List never makes its second attempt on the connection its first attempt failed on. */
  lemma SecondAttemptElsewhere(s: State, t: Caller)
    requires Reachable(s) && t in s.pc && s.pc[t].Request? && s.pc[t].use.Retry?
    ensures s.pc[t].conn != s.pc[t].use.broken
    ensures s.sh.cur != Some(s.pc[t].use.broken)
  {
    ReachableHasInv(s);
    assert PcOk(s.sh, s.pc[t]);
  }

  lemma {:induction false} RunExtends(s: State, steps: seq<Step>, last: Step)
    requires IsRun(s, steps) && Enabled(Exec(s, steps), last)
    ensures IsRun(s, steps + [last]) && Exec(s, steps + [last]) == Next(Exec(s, steps), last)
    decreases |steps|
  {
    var all := steps + [last];
    if steps == [] {
      assert all == [last] && all[1..] == [];
    } else {
      assert all[0] == steps[0] && all[1..] == steps[1..] + [last];
      RunExtends(Next(s, steps[0]), steps[1..], last);
    }
  }

  lemma ReachableStep(s: State, step: Step)
    requires Reachable(s) && Enabled(s, step)
    ensures Reachable(Next(s, step))
  {
    var watchdog, steps :| IsRun(Init(watchdog), steps) && Exec(Init(watchdog), steps) == s;
    RunExtends(Init(watchdog), steps, step);
  }

  lemma ReachableAct(s: State, t: Caller, ok: bool, sh': Shared, pc': Pc)
    requires Reachable(s) && Enabled(s, Act(t, ok)) && Move(s.sh, t, s.pc[t], ok) == (sh', pc')
    ensures Reachable(State(sh', s.pc[t := pc']))
  {
    ReachableStep(s, Act(t, ok));
  }

  /** The only caller there is takes its next step. */
  lemma Follow(sh: Shared, pc: Pc, sh': Shared, pc': Pc)
    requires Reachable(State(sh, map[0 := pc])) && Enabled(State(sh, map[0 := pc]), Act(0, true))
    requires Move(sh, 0, pc, true) == (sh', pc')
    ensures Reachable(State(sh', map[0 := pc']))
  {
    ReachableAct(State(sh, map[0 := pc]), 0, true, sh', pc');
    assert map[0 := pc][0 := pc'] == map[0 := pc'];
  }

  /** A first request dials the first connection and has a watched List on the wire. */
  lemma FirstConnection() returns (sh: Shared)
    ensures Reachable(State(sh, map[0 := Request(First(ListOp), 0, true)]))
    ensures sh == Init(true).sh.(cur := Some(0), connected := true, holder := [Live], published := [0])
  {
    hide Reachable;
    var u := First(ListOp);
    sh := Init(true).sh;
    Starts();
    ReachableStep(Init(true), Begin(0, ListOp));
    assert Next(Init(true), Begin(0, ListOp)) == State(sh, map[0 := Load(u)]);
    FollowLookup(sh, u);
    FollowDial(sh.(mu := Some(0)), u);
    sh := sh.(cur := Some(0), connected := true, holder := [Live], published := [0]);
    Follow(sh.(mu := Some(0)), Unlock(u, Some(0)), sh, Request(u, 0, true));
  }

  lemma Starts()
    ensures Reachable(Init(true))
  {
    assert IsRun(Init(true), []) && Exec(Init(true), []) == Init(true);
  }

  lemma FollowLookup(sh: Shared, u: Use)
    requires Reachable(State(sh, map[0 := Load(u)])) && sh == Init(true).sh
    ensures Reachable(State(sh.(mu := Some(0)), map[0 := Dial(u)]))
  {
    hide Reachable;
    var held := sh.(mu := Some(0));
    Follow(sh, Load(u), sh, Lock(u));
    Follow(sh, Lock(u), held, Check(u));
    Follow(held, Check(u), held, Reload(u));
    Follow(held, Reload(u), held, Dial(u));
  }

  lemma FollowDial(sh: Shared, u: Use)
    requires Reachable(State(sh, map[0 := Dial(u)])) && sh == Init(true).sh.(mu := Some(0))
    ensures Reachable(State(sh.(cur := Some(0), connected := true, holder := [Live], published := [0]),
                            map[0 := Unlock(u, Some(0))]))
  {
    hide Reachable;
    var dialed := sh.(holder := [InHand(0)]);
    var stored := sh.(cur := Some(0), holder := [Live], published := [0], counting := true);
    var counted := sh.(cur := Some(0), connected := true, holder := [Live], published := [0]);
    assert DialedBy(sh, 0).holder == [InHand(0)];
    Follow(sh, Dial(u), dialed, Dialed(u, 0));
    Follow(dialed, Dialed(u, 0), dialed, Store(u, 0));
    assert Stored(dialed, 0).holder == [Live] && Stored(dialed, 0).published == [0];
    Follow(dialed, Store(u, 0), stored, Count(u, 0));
    Follow(stored, Count(u, 0), counted, Unlock(u, Some(0)));
  }

  /** The transport fails under the first request. */
  lemma FirstIsJudged() returns (sh: Shared)
    ensures Reachable(State(sh, map[0 := Judge(ListOp, 0)]))
    ensures sh == Init(true).sh.(cur := Some(0), connected := true, holder := [Live], published := [0], failed := {0})
  {
    hide Reachable;
    var before := FirstConnection();
    var r := Request(First(ListOp), 0, true);
    assert before.failed + {0} == {0};
    sh := before.(failed := {0});
    ReachableStep(State(before, map[0 := r]), IoFailure(0));
    ReachableStep(State(sh, map[0 := r]), Answer(0, ClientError));
    assert map[0 := r][0 := Judge(ListOp, 0)] == map[0 := Judge(ListOp, 0)];
  }

  /** It goes on to reconnect. */
  lemma FirstFails() returns (sh: Shared)
    ensures Reachable(State(sh, map[0 := RcDial(ListOp, 0)]))
    ensures sh.cur == Some(0) && sh.connected && !sh.canceled && sh.holder == [Live]
    ensures sh.published == [0] && sh.reconnects == 0
  {
    hide Reachable;
    sh := FirstIsJudged();
    var held := sh.(mu := Some(0));
    Follow(sh, Judge(ListOp, 0), sh, JudgeAgain(ListOp, 0));
    Follow(sh, JudgeAgain(ListOp, 0), sh, RcLock(ListOp, 0));
    Follow(sh, RcLock(ListOp, 0), held, RcCheck(ListOp, 0));
    Follow(held, RcCheck(ListOp, 0), held, RcLoad(ListOp, 0));
    Follow(held, RcLoad(ListOp, 0), held, RcDial(ListOp, 0));
    sh := held;
  }

  /** A reachable state in which the counter lags: the replacement is published and not yet counted. */
  lemma CounterLags() returns (s: State)
    ensures Reachable(s) && |s.sh.published| == 2 && s.sh.reconnects == 0 && BetweenPublishingAndCounting(s)
  {
    hide Reachable;
    var sh := FirstFails();
    var dialed := DialedBy(sh, 0);
    Follow(sh, RcDial(ListOp, 0), dialed, RcDialed(ListOp, 0, 1));
    Follow(dialed, RcDialed(ListOp, 0, 1), dialed, RcSwap(ListOp, 0, 1));
    var swapped := Swapped(dialed, 0, 0, 1);
    Follow(dialed, RcSwap(ListOp, 0, 1), swapped, RcCount(ListOp, 0, Some(0)));
    s := State(swapped, map[0 := RcCount(ListOp, 0, Some(0))]);
    assert s.pc[0].RcCount?;
  }

  lemma DropMarked() returns (sh: Shared)
    ensures Reachable(State(sh, map[0 := Request(First(ListOp), 0, false), 1 := DropSwap(0)]))
    ensures sh.cur == Some(0) && sh.holder == [Live] && sh.ownerCloses == sh.shutdownCloses == multiset{}
    ensures sh.mu == None && !sh.closed
  {
    hide Reachable;
    var r, spent := Request(First(ListOp), 0, true), Request(First(ListOp), 0, false);
    sh := FirstConnection();
    ReachableStep(State(sh, map[0 := r]), Fire(0, 1));
    assert Next(State(sh, map[0 := r]), Fire(0, 1)) == State(sh, map[0 := spent, 1 := DropMark(0)]);
    assert sh.unanswered + {0} == {0};
    ReachableAct(State(sh, map[0 := spent, 1 := DropMark(0)]), 1, true, sh.(unanswered := {0}), DropSwap(0));
    assert map[0 := spent, 1 := DropMark(0)][1 := DropSwap(0)] == map[0 := spent, 1 := DropSwap(0)];
    sh := sh.(unanswered := {0});
  }

  /** The watchdog of the request is past its first step when a Close is about to close the connection. */
  lemma DropMeetsClose() returns (sh: Shared)
    ensures Reachable(State(sh, map[0 := Request(First(ListOp), 0, false), 1 := DropSwap(0), 2 := CloseConn(0)]))
    ensures sh.cur == Some(0) && sh.holder == [Live] && sh.ownerCloses == sh.shutdownCloses == multiset{}
  {
    hide Reachable;
    var marked := DropMarked();
    var at := (pc: Pc) => map[0 := Request(First(ListOp), 0, false), 1 := DropSwap(0), 2 := pc];
    var before := map[0 := Request(First(ListOp), 0, false), 1 := DropSwap(0)];
    ReachableStep(State(marked, before), BeginClose(2));
    assert before[2 := CloseCancel] == at(CloseCancel);
    var canceled := marked.(canceled := true);
    ReachableAct(State(marked, at(CloseCancel)), 2, true, canceled, CloseLock);
    assert at(CloseCancel)[2 := CloseLock] == at(CloseLock);
    sh := canceled.(mu := Some(2), closed := true);
    ReachableAct(State(canceled, at(CloseLock)), 2, true, sh, CloseLoad);
    assert at(CloseLock)[2 := CloseLoad] == at(CloseLoad);
    ReachableAct(State(sh, at(CloseLoad)), 2, true, sh, CloseConn(0));
    assert at(CloseLoad)[2 := CloseConn(0)] == at(CloseConn(0));
  }

  /** Close leaves the pointer set, so a drop that comes late closes the same connection again. */
  lemma LateDropClosesAgain() returns (s: State)
    ensures Reachable(s)
    ensures s.sh.shutdownCloses[0] == 1 && s.sh.ownerCloses[0] == 1
  {
    hide Reachable;
    var sh := DropMeetsClose();
    var pcs := map[0 := Request(First(ListOp), 0, false), 1 := DropSwap(0), 2 := CloseConn(0)];
    var closed := sh.(shutdownCloses := multiset{0}, closeFailed := false, settled := true);
    assert sh.shutdownCloses + multiset{0} == multiset{0};
    ReachableAct(State(sh, pcs), 2, true, closed, CloseUnlock(false));
    var dropped := Dropped(closed, 1, 0);
    ReachableAct(State(closed, pcs[2 := CloseUnlock(false)]), 1, true, dropped, DropClose(0));
    var pcs' := pcs[2 := CloseUnlock(false)][1 := DropClose(0)];
    ReachableAct(State(dropped, pcs'), 1, true, ClosedByOwner(dropped, 0, Retired), Finished);
    s := State(ClosedByOwner(dropped, 0, Retired), pcs'[1 := Finished]);
  }
}
