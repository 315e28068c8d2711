/**
 What acquireSocketLocks does by itself is what the steps of one process do in the competition, as
 long as no other process moves in between.
 */
module SocketLockRuns {
  import opened Sorting
  import opened LockProgress
  import opened SocketLock

  predicate OnlyBy(steps: seq<Step>, i: nat) {
    forall k | 0 <= k < |steps| :: steps[k].who == i
  }

  /** Process `i` gets from `s` to `t` by its own steps. */
  ghost predicate ByItself(s: State, i: nat, t: State) {
    exists steps :: OnlyBy(steps, i) && IsRun(s, steps) && Exec(s, steps) == t
  }

  lemma AtRest(s: State, i: nat)
    ensures ByItself(s, i, s)
  {
    assert OnlyBy([], i) && IsRun(s, []) && Exec(s, []) == s;
  }

  lemma First(s: State, i: nat, step: Step, t: State)
    requires Enabled(s, step) && step.who == i && ByItself(Next(s, step), i, t)
    ensures ByItself(s, i, t)
  {
    var steps :| OnlyBy(steps, i) && IsRun(Next(s, step), steps) && Exec(Next(s, step), steps) == t;
    Take(s, step, steps);
    assert OnlyBy([step] + steps, i);
  }

  /** The holders when process `i` has the first `n` locks of its plan besides what was held before. */
  function Taken(holder: map<string, nat>, plan: seq<string>, n: nat, i: nat): map<string, nat>
    requires n <= |plan|
  {
    if n == 0 then holder else Taken(holder, plan, n - 1, i)[plan[n - 1] := i]
  }

  lemma {:induction false} TakenKeys(holder: map<string, nat>, plan: seq<string>, n: nat, i: nat)
    requires n <= |plan|
    ensures Taken(holder, plan, n, i).Keys == holder.Keys + Elements(plan[..n])
  {
    if n > 0 {
      TakenKeys(holder, plan, n - 1, i);
      assert plan[..n] == plan[..n - 1] + [plan[n - 1]];
    } else {
      assert plan[..0] == [];
    }
  }

  /** A path that can be locked is not among the holders' when its turn comes. */
  lemma FreeWhenTried(holder: map<string, nat>, plan: seq<string>, n: nat, i: nat)
    requires Sorted(plan) && n < |plan| && FreeUpTo(plan, n + 1, holder.Keys)
    ensures plan[n] !in Taken(holder, plan, n, i)
  {
    TakenKeys(holder, plan, n, i);
    NewPath(plan, n, holder.Keys);
  }

  function Standing(s: State, i: nat, pc: Pc, holder: map<string, nat>): State
    requires i < |s.pc|
  {
    s.(pc := s.pc[i := pc], holder := holder)
  }

  /** Where process `i` stands, and what it wants. */
  ghost predicate Competes(s: State, i: nat) {
    i < |s.pc| == |s.plans| && Sorted(s.plans[i])
  }

  /** With all its paths free, it gets all its locks. */
  lemma {:induction false} GetsAll(s: State, i: nat, n: nat)
    requires Competes(s, i) && n <= |s.plans[i]| && FreeUpTo(s.plans[i], |s.plans[i]|, s.holder.Keys)
    ensures var plan := s.plans[i];
            ByItself(Standing(s, i, Trying(n), Taken(s.holder, plan, n, i)), i,
                     Standing(s, i, Held, Taken(s.holder, plan, |plan|, i)))
    decreases |s.plans[i]| - n
  {
    var plan := s.plans[i];
    var now := Standing(s, i, Trying(n), Taken(s.holder, plan, n, i));
    var end := Standing(s, i, Held, Taken(s.holder, plan, |plan|, i));
    if n == |plan| {
      assert Next(now, Try(i, false)) == end;
      AtRest(end, i);
    } else {
      FreeWhenTried(s.holder, plan, n, i);
      assert Next(now, Try(i, false)) == Standing(s, i, Trying(n + 1), Taken(s.holder, plan, n + 1, i));
      GetsAll(s, i, n + 1);
    }
    hide ByItself, Taken;
    First(now, i, Try(i, false), end);
  }

  /** What it has taken it gives back, last lock first. */
  lemma {:induction false} GivesBack(s: State, i: nat, failedAt: nat, left: nat, why: Why)
    requires Competes(s, i) && left <= failedAt < |s.plans[i]| && FreeUpTo(s.plans[i], failedAt, s.holder.Keys)
    ensures var plan := s.plans[i];
            ByItself(Standing(s, i, Undoing(failedAt, left, why), Taken(s.holder, plan, left, i)), i,
                     Standing(s, i, GaveUp(failedAt, why), s.holder))
    decreases left
  {
    var plan := s.plans[i];
    var now := Standing(s, i, Undoing(failedAt, left, why), Taken(s.holder, plan, left, i));
    var end := Standing(s, i, GaveUp(failedAt, why), s.holder);
    if left == 0 {
      assert Next(now, Release(i)) == end;
      AtRest(end, i);
    } else {
      FreeWhenTried(s.holder, plan, left - 1, i);
      var before := Taken(s.holder, plan, left - 1, i);
      assert before[plan[left - 1] := i] - {plan[left - 1]} == before;
      assert Next(now, Release(i)) == Standing(s, i, Undoing(failedAt, left - 1, why), before);
      GivesBack(s, i, failedAt, left - 1, why);
    }
    hide ByItself, Taken;
    First(now, i, Release(i), end);
  }

  predicate Explains(why: Why, cause: Cause) {
    match cause
    case DuplicatePath => why.Duplicate?
    case InUse => why.Contention?
    case Unusable => why.Fault?
  }

  /** At the first path that cannot be locked it gives up, for the same reason, and gives all back. */
  lemma {:induction false} GivesUp(s: State, i: nat, k: nat, n: nat, unusable: set<string>,
                                   stuck: set<string>, e: LockError)
    returns (why: Why)
    requires Competes(s, i) && k <= n < |s.plans[i]| && FailsAt(s.plans[i], n, s.holder.Keys, unusable, stuck, e)
    ensures Explains(why, e.cause)
    ensures ByItself(Standing(s, i, Trying(k), Taken(s.holder, s.plans[i], k, i)), i,
                     Standing(s, i, GaveUp(n, why), s.holder))
    decreases n - k
  {
    var plan := s.plans[i];
    var now := Standing(s, i, Trying(k), Taken(s.holder, plan, k, i));
    if k == n {
      why := FailureStep(s, i, n, unusable, stuck, e);
      GivesBack(s, i, n, n, why);
      hide ByItself, Taken;
      First(now, i, Try(i, e.cause.Unusable?), Standing(s, i, GaveUp(n, why), s.holder));
    } else {
      FreeWhenTried(s.holder, plan, k, i);
      assert Next(now, Try(i, false)) == Standing(s, i, Trying(k + 1), Taken(s.holder, plan, k + 1, i));
      why := GivesUp(s, i, k + 1, n, unusable, stuck, e);
      hide ByItself, Taken;
      First(now, i, Try(i, false), Standing(s, i, GaveUp(n, why), s.holder));
    }
  }

  lemma FailureStep(s: State, i: nat, n: nat, unusable: set<string>,
                    stuck: set<string>, e: LockError)
    returns (why: Why)
    requires Competes(s, i) && n < |s.plans[i]| && FailsAt(s.plans[i], n, s.holder.Keys, unusable, stuck, e)
    ensures Explains(why, e.cause)
    ensures var taken := Taken(s.holder, s.plans[i], n, i);
            var now := Standing(s, i, Trying(n), taken);
            Enabled(now, Try(i, e.cause.Unusable?))
            && Next(now, Try(i, e.cause.Unusable?)) == Standing(s, i, Undoing(n, n, why), taken)
  {
    var plan, taken := s.plans[i], Taken(s.holder, s.plans[i], n, i);
    TakenKeys(s.holder, plan, n, i);
    var now := Standing(s, i, Trying(n), taken);
    why := Next(now, Try(i, e.cause.Unusable?)).pc[i].why;
  }

  /**
   The loop of LockAll and the steps of a process from its first attempt agree: where the one locks
   everything so does the other, and where the one fails the other gives up at the same place, for the
   same reason, and the holders are as before.
   */
  lemma RunsLikeLockAll(s: State, i: nat, unusable: set<string>, stuck: set<string>)
    requires Competes(s, i) && s.pc[i] == Trying(0)
    ensures FreeUpTo(s.plans[i], |s.plans[i]|, s.holder.Keys) ==>
              exists t :: ByItself(s, i, t) && t.pc == s.pc[i := Held]
                          && t.holder.Keys == s.holder.Keys + Elements(s.plans[i])
    ensures forall n, e | 0 <= n < |s.plans[i]| && FailsAt(s.plans[i], n, s.holder.Keys, unusable, stuck, e) ::
              exists t, why :: ByItself(s, i, t) && t.pc == s.pc[i := GaveUp(n, why)] && Explains(why, e.cause)
                               && t.holder == s.holder
  {
    var plan := s.plans[i];
    assert Standing(s, i, Trying(0), Taken(s.holder, plan, 0, i)) == s;
    if FreeUpTo(plan, |plan|, s.holder.Keys) {
      GetsAll(s, i, 0);
      TakenKeys(s.holder, plan, |plan|, i);
      assert plan[..|plan|] == plan;
    }
    forall n, e | 0 <= n < |plan| && FailsAt(plan, n, s.holder.Keys, unusable, stuck, e)
      ensures exists t, why :: ByItself(s, i, t) && t.pc == s.pc[i := GaveUp(n, why)] && Explains(why, e.cause)
                               && t.holder == s.holder
    {
      var why := GivesUp(s, i, 0, n, unusable, stuck, e);
      var t := Standing(s, i, GaveUp(n, why), s.holder);
      assert ByItself(s, i, t) && t.pc == s.pc[i := GaveUp(n, why)] && t.holder == s.holder;
    }
    hide ByItself, FailsAt, FreeUpTo;
  }
}
