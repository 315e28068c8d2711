/** How often a connection is closed: exactly when a second close of it happens, and when it cannot. */
module UpstreamClosing {
  import opened Wrappers
  import opened Upstream
  import opened UpstreamInvariant
  import opened UpstreamMoves
  import opened UpstreamProperties

  /** Close has chosen the connection: it is about to close it, or has. */
  ghost predicate Claimed(s: State, c: Conn) {
    c in s.sh.shutdownCloses || exists t :: t in s.pc && s.pc[t] == CloseConn(c)
  }

  /** The step clears the pointer of a connection that Close has chosen: the watchdog's swap comes late. */
  ghost predicate LateDrop(s: State, step: Step, c: Conn) {
    && step.Act? && step.caller in s.pc && s.pc[step.caller] == DropSwap(c)
    && s.sh.cur == Some(c) && Claimed(s, c)
  }

  /** Some step of the run is a late drop of the connection. */
  ghost predicate DropsLate(s: State, steps: seq<Step>, c: Conn)
    requires IsRun(s, steps)
    decreases |steps|
  {
    steps != [] && (LateDrop(s, steps[0], c) || DropsLate(Next(s, steps[0]), steps[1..], c))
  }

  function Closes(s: State, c: Conn): nat {
    s.sh.ownerCloses[c] + s.sh.shutdownCloses[c]
  }

  // ------------------------------------------------------------------ one step

  /** A claim is made by the load of the pointer in Close, and is then for good. */
  lemma ClaimSteps(sh: Shared, t: Caller, pc: Pc, ok: bool, c: Conn)
    ensures var (sh', pc') := Move(sh, t, pc, ok);
            && (pc' == CloseConn(c) ==> sh.cur == Some(c) && sh'.cur == sh.cur)
            && (c in sh'.shutdownCloses <==> c in sh.shutdownCloses || pc == CloseConn(c))
  {
    MoveLeaves(sh, t, pc, ok);
    MoveGoes(sh, t, pc, ok);
    hide Move;
  }

  /** Once `closed` is set, nothing but a watchdog's swap takes the connection out of the pointer. */
  lemma OnlyDropDisplaces(sh: Shared, t: Caller, pc: Pc, ok: bool, c: Conn)
    requires BeforeClose(pc) ==> !sh.closed
    requires sh.closed && sh.cur == Some(c)
    ensures Move(sh, t, pc, ok).0.cur == if pc == DropSwap(c) then None else sh.cur
  {
    MoveLeaves(sh, t, pc, ok);
    hide Move;
  }

  /** A claimed connection was published, and Close has set `closed`. */
  lemma ClaimedIsClosed(s: State, c: Conn)
    requires Inv(s) && Claimed(s, c)
    ensures s.sh.closed && Known(s.sh, c)
  {
    assert Shutdown(s.sh);
    if c !in s.sh.shutdownCloses {
      var t :| t in s.pc && s.pc[t] == CloseConn(c);
      assert PcOk(s.sh, s.pc[t]);
      ClosingIsClosed(s.sh, c);
    }
    hide Inv, PcOk;
  }

  lemma ClosingIsClosed(sh: Shared, c: Conn)
    requires PcOk(sh, CloseConn(c))
    ensures sh.closed && Known(sh, c)
  {
  }

  lemma ClaimStays(s: State, step: Step, c: Conn)
    requires Enabled(s, step) && Claimed(s, c)
    ensures Claimed(Next(s, step), c)
  {
    var s' := Next(s, step);
    if c !in s.sh.shutdownCloses {
      var t :| t in s.pc && s.pc[t] == CloseConn(c);
      if step.Act? && step.caller == t {
        ClaimSteps(s.sh, t, s.pc[t], step.ok, c);
      } else {
        assert s'.pc[t] == CloseConn(c);
      }
    } else if step.Act? {
      ClaimSteps(s.sh, step.caller, s.pc[step.caller], step.ok, c);
    }
  }

  /** A connection is current when it is claimed. */
  lemma ClaimedWhileCurrent(s: State, step: Step, c: Conn)
    requires Enabled(s, step) && !Claimed(s, c) && Claimed(Next(s, step), c)
    ensures Next(s, step).sh.cur == Some(c)
  {
    var s' := Next(s, step);
    if step.Act? {
      ClaimSteps(s.sh, step.caller, s.pc[step.caller], step.ok, c);
      hide Move;
    }
    if c !in s'.sh.shutdownCloses {
      var t :| t in s'.pc && s'.pc[t] == CloseConn(c);
      assert t !in s.pc || s.pc[t] != CloseConn(c);
    }
  }

  /** Claimed and no longer current comes about by a late drop, and by nothing else. */
  lemma LateIsByDrop(s: State, step: Step, c: Conn)
    requires Inv(s) && Enabled(s, step)
    ensures Claimed(Next(s, step), c) && Next(s, step).sh.cur != Some(c)
            <==> LateDrop(s, step, c) || (Claimed(s, c) && s.sh.cur != Some(c))
  {
    var s' := Next(s, step);
    if Claimed(s, c) {
      ClaimStays(s, step, c);
      ClaimedIsClosed(s, c);
      StepAdvances(s, step);
      StepKeepsInv(s, step);
      if s.sh.cur == Some(c) {
        if step.Act? {
          assert PcOk(s.sh, s.pc[step.caller]);
          OnlyDropDisplaces(s.sh, step.caller, s.pc[step.caller], step.ok, c);
        }
        hide Move;
      } else {
        assert Gone(s.sh, c);
        assert !Gone(s'.sh, c) || s'.sh.cur != Some(c);
      }
    } else if Claimed(s', c) {
      ClaimedWhileCurrent(s, step, c);
    }
  }

  // ------------------------------------------------------------------ over every run

  lemma {:induction false} LateOverRun(s: State, steps: seq<Step>, c: Conn)
    requires Inv(s) && IsRun(s, steps)
    ensures var s' := Exec(s, steps);
            Claimed(s', c) && s'.sh.cur != Some(c)
            <==> DropsLate(s, steps, c) || (Claimed(s, c) && s.sh.cur != Some(c))
    decreases |steps|
  {
    if steps != [] {
      LateIsByDrop(s, steps[0], c);
      StepKeepsInv(s, steps[0]);
      hide Inv, Claimed, LateDrop;
      LateOverRun(Next(s, steps[0]), steps[1..], c);
    }
  }

  /** A second close needs a late drop, and there is never a third. */
  lemma TwiceNeedsLateDrop(watchdog: bool, steps: seq<Step>, c: Conn)
    requires IsRun(Init(watchdog), steps)
    ensures Closes(Exec(Init(watchdog), steps), c) <= 2
    ensures Closes(Exec(Init(watchdog), steps), c) == 2 ==> DropsLate(Init(watchdog), steps, c)
  {
    var s := Exec(Init(watchdog), steps);
    InitInv(watchdog);
    ReachableInv(watchdog, steps);
    LateOverRun(Init(watchdog), steps, c);
    CloseCounts(s, c);
  }

  lemma CloseCounts(s: State, c: Conn)
    requires Inv(s)
    ensures s.sh.ownerCloses[c] <= 1 && s.sh.shutdownCloses[c] <= 1
    ensures s.sh.ownerCloses[c] == 1 ==> s.sh.cur != Some(c)
  {
    assert s.sh.shutdownCloses[c] <= |s.sh.shutdownCloses|;
  }

  /** Nobody is about to close the connection. */
  ghost predicate Undisturbed(s: State, c: Conn) {
    forall t | t in s.pc :: s.pc[t] != CloseConn(c) && Removed(s.pc[t]) != Some(c)
  }

  /**
   Once nobody is about to close the connection any more, it has been closed twice if and only if a
   watchdog cleared the pointer of it after Close had chosen it.
   */
  lemma TwiceIffLateDrop(watchdog: bool, steps: seq<Step>, c: Conn)
    requires IsRun(Init(watchdog), steps) && Undisturbed(Exec(Init(watchdog), steps), c)
    ensures Closes(Exec(Init(watchdog), steps), c) == 2 <==> DropsLate(Init(watchdog), steps, c)
    ensures Closes(Exec(Init(watchdog), steps), c) <= 1 <==> !DropsLate(Init(watchdog), steps, c)
  {
    var s := Exec(Init(watchdog), steps);
    TwiceNeedsLateDrop(watchdog, steps, c);
    InitInv(watchdog);
    ReachableInv(watchdog, steps);
    LateOverRun(Init(watchdog), steps, c);
    if DropsLate(Init(watchdog), steps, c) {
      ClaimedIsClosed(s, c);
      LateIsClosedTwice(s, c);
    }
  }

  /** A published connection that is not current has been closed once its remover is done. */
  lemma RemovedIsRetired(s: State, c: Conn)
    requires Inv(s) && Known(s.sh, c) && s.sh.cur != Some(c) && Undisturbed(s, c)
    ensures s.sh.ownerCloses[c] == 1
  {
    var h := s.sh.holder[c];
    hide Publications, Counters, Swaps, Shutdown, PcOk, Mutex;
    assert !h.Live? && (h.Owed? ==> HeldBy(s.sh, c, h) && Debts(s.sh, h.remover, Where(s, h.remover)));
    assert h.Retired?;
  }

  lemma LateIsClosedTwice(s: State, c: Conn)
    requires Inv(s) && Claimed(s, c) && Known(s.sh, c) && s.sh.cur != Some(c) && Undisturbed(s, c)
    ensures Closes(s, c) == 2
  {
    assert c in s.sh.shutdownCloses;
    hide Inv;
    RemovedIsRetired(s, c);
    CloseCounts(s, c);
  }

  // ------------------------------------------------------------------ without a watchdog

  /** No watchdog has been started, and none can be. */
  ghost predicate Unwatched(s: State) {
    !s.sh.watchdog && forall t | t in s.pc :: !InDrop(s.pc[t]) && (s.pc[t].Request? ==> !s.pc[t].armed)
  }

  lemma MoveUnwatched(sh: Shared, t: Caller, pc: Pc, ok: bool)
    requires !sh.watchdog && !InDrop(pc)
    ensures var (sh', pc') := Move(sh, t, pc, ok);
            !sh'.watchdog && !InDrop(pc') && (pc'.Request? && !pc.Request? ==> !pc'.armed)
  {
    MoveLeaves(sh, t, pc, ok);
    MoveGoes(sh, t, pc, ok);
    hide Move;
  }

  lemma StepUnwatched(s: State, step: Step)
    requires Unwatched(s) && Enabled(s, step)
    ensures Unwatched(Next(s, step))
  {
    if step.Act? {
      MoveUnwatched(s.sh, step.caller, s.pc[step.caller], step.ok);
      hide Move;
    }
  }

  lemma {:induction false} RunUnwatched(s: State, steps: seq<Step>, c: Conn)
    requires Unwatched(s) && IsRun(s, steps)
    ensures !DropsLate(s, steps, c)
    decreases |steps|
  {
    if steps != [] {
      StepUnwatched(s, steps[0]);
      assert !LateDrop(s, steps[0], c);
      RunUnwatched(Next(s, steps[0]), steps[1..], c);
    }
  }

  /** With a request timeout of zero there is no watchdog, and no connection is ever closed twice. */
  lemma OnceWithoutWatchdog(steps: seq<Step>, c: Conn)
    requires IsRun(Init(false), steps)
    ensures Closes(Exec(Init(false), steps), c) <= 1
  {
    RunUnwatched(Init(false), steps, c);
    TwiceNeedsLateDrop(false, steps, c);
  }
}
