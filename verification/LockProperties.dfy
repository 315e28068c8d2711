/** What competing processes keep at every step, and who gets the locks in the end. */
module LockProperties {
  import opened Sorting
  import opened LockProgress

  // ------------------------------------------------------------------ the invariant

  predicate Acquired(pc: Pc) {
    pc.Held? || pc.Closing? || pc.Closed?
  }

  predicate Finished(pc: Pc) {
    Acquired(pc) || pc.GaveUp?
  }

  /** How many locks of its plan a process holds. */
  function Count(plan: seq<string>, pc: Pc): nat {
    match pc
    case Trying(n) => n
    case Undoing(_, left, _) => left
    case Closing(left) => left
    case Held => |plan|
    case _ => 0
  }

  /** How many it has ever held. */
  function Reached(plan: seq<string>, pc: Pc): nat {
    match pc
    case Trying(n) => n
    case Undoing(f, _, _) => f
    case GaveUp(f, _) => f
    case _ => |plan|
  }

  ghost predicate Bounded(plan: seq<string>, pc: Pc) {
    && Count(plan, pc) <= Reached(plan, pc) <= |plan|
    && (pc.Undoing? || pc.GaveUp? ==> pc.failedAt < |plan|)
    && (forall a, b | 0 <= a < b < Reached(plan, pc) :: plan[a] != plan[b])
  }

  ghost predicate Holds(s: State, i: nat)
    requires i < |s.pc| == |s.plans|
  {
    forall k | 0 <= k < Count(s.plans[i], s.pc[i]) && k < |s.plans[i]| ::
      s.plans[i][k] in s.holder && s.holder[s.plans[i][k]] == i
  }

  ghost predicate HeldBy(s: State, p: string, i: nat) {
    i < |s.pc| == |s.plans| && exists k :: 0 <= k < Count(s.plans[i], s.pc[i]) && k < |s.plans[i]| && s.plans[i][k] == p
  }

  ghost predicate EverHeld(s: State, i: nat, p: string) {
    i < |s.pc| == |s.plans|
    && exists k :: 0 <= k < Reached(s.plans[i], s.pc[i]) && k < |s.plans[i]| && s.plans[i][k] == p
  }

  /** A process that lost a race lost it to one that had got past that lock. */
  ghost predicate Blocked(s: State, i: nat)
    requires i < |s.pc| == |s.plans| && Bounded(s.plans[i], s.pc[i])
  {
    var pc := s.pc[i];
    (pc.Undoing? || pc.GaveUp?) && pc.why.Contention? ==>
      && EverHeld(s, pc.why.blocker, s.plans[i][pc.failedAt])
      && (pc.failedAt > 0 ==> s.plans[i][pc.failedAt] != s.plans[i][pc.failedAt - 1])
  }

  ghost predicate Inv(s: State) {
    && |s.pc| == |s.plans|
    && (forall i | 0 <= i < |s.plans| :: Sorted(s.plans[i]))
    && (forall i | 0 <= i < |s.plans| :: Bounded(s.plans[i], s.pc[i]))
    && (forall i | 0 <= i < |s.plans| :: Holds(s, i))
    && (forall p | p in s.holder :: HeldBy(s, p, s.holder[p]))
    && (forall i | 0 <= i < |s.plans| :: Blocked(s, i))
  }

  lemma InitInv(plans: seq<seq<string>>)
    requires forall i | 0 <= i < |plans| :: Sorted(plans[i])
    ensures Inv(Init(plans))
  {
  }

  lemma KeepsBounded(s: State, step: Step)
    requires Inv(s) && Enabled(s, step)
    ensures Bounded(s.plans[step.who], Next(s, step).pc[step.who])
  {
    var i := step.who;
    assert Bounded(s.plans[i], s.pc[i]);
    if step.Try? && s.pc[i].next < |s.plans[i]|
       && (s.pc[i].next > 0 ==> s.plans[i][s.pc[i].next] != s.plans[i][s.pc[i].next - 1]) {
      NeighboursTell(s.plans[i], s.pc[i].next);
    }
  }

  /** What a process has ever held stays so. */
  lemma EverHeldStays(s: State, step: Step, i: nat, p: string)
    requires Inv(s) && Enabled(s, step) && EverHeld(s, i, p)
    ensures EverHeld(Next(s, step), i, p)
  {
    assert Bounded(s.plans[i], s.pc[i]);
    var s' := Next(s, step);
    assert Reached(s.plans[i], s'.pc[i]) >= Reached(s.plans[i], s.pc[i]);
  }

  lemma KeepsHolds(s: State, step: Step, i: nat)
    requires Inv(s) && Enabled(s, step) && i < |s.plans|
    ensures Holds(Next(s, step), i)
  {
    var s', t := Next(s, step), step.who;
    assert Holds(s, i) && Holds(s, t) && Bounded(s.plans[i], s.pc[i]) && Bounded(s.plans[t], s.pc[t]);
    hide Inv;
    forall k | 0 <= k < Count(s.plans[i], s'.pc[i]) && k < |s.plans[i]|
      ensures s.plans[i][k] in s'.holder && s'.holder[s.plans[i][k]] == i
    {
    }
  }

  /** A lock that stays held stays in the part of the plan that its holder holds. */
  lemma OldHeldBy(s: State, step: Step, p: string)
    requires Inv(s) && Enabled(s, step) && p in s.holder && p in Next(s, step).holder
    ensures HeldBy(Next(s, step), p, Next(s, step).holder[p])
  {
    var s', i := Next(s, step), s.holder[p];
    assert Bounded(s.plans[step.who], s.pc[step.who]);
    assert HeldBy(s, p, i) && Bounded(s.plans[i], s.pc[i]);
    hide Inv;
    var k :| 0 <= k < Count(s.plans[i], s.pc[i]) && k < |s.plans[i]| && s.plans[i][k] == p;
    assert s'.holder[p] == i;
    assert k < Count(s.plans[i], s'.pc[i]);
  }

  lemma NewHeldBy(s: State, step: Step, p: string)
    requires Enabled(s, step) && p !in s.holder && p in Next(s, step).holder
    ensures HeldBy(Next(s, step), p, Next(s, step).holder[p])
  {
    assert s.plans[step.who][s.pc[step.who].next] == p;
  }

  lemma KeepsHeldBy(s: State, step: Step, p: string)
    requires Inv(s) && Enabled(s, step) && p in Next(s, step).holder
    ensures HeldBy(Next(s, step), p, Next(s, step).holder[p])
  {
    hide Inv, Enabled, Next, HeldBy;
    if p in s.holder { OldHeldBy(s, step, p); } else { NewHeldBy(s, step, p); }
  }

  predicate LostRace(pc: Pc) {
    (pc.Undoing? || pc.GaveUp?) && pc.why.Contention?
  }

  lemma StillBlocked(s: State, step: Step, i: nat)
    requires Inv(s) && Enabled(s, step) && i < |s.plans| && LostRace(s.pc[i])
    requires Bounded(s.plans[i], Next(s, step).pc[i])
    ensures Blocked(Next(s, step), i)
  {
    var pc := s.pc[i];
    assert Blocked(s, i) && Bounded(s.plans[i], pc);
    EverHeldStays(s, step, pc.why.blocker, s.plans[i][pc.failedAt]);
    hide Inv, EverHeld;
  }

  lemma NewlyBlocked(s: State, step: Step, i: nat)
    requires Inv(s) && Enabled(s, step) && i < |s.plans| && !LostRace(s.pc[i]) && LostRace(Next(s, step).pc[i])
    requires Bounded(s.plans[i], Next(s, step).pc[i])
    ensures Blocked(Next(s, step), i)
  {
    var pc' := Next(s, step).pc[i];
    assert pc'.Undoing? && step.Try? && step.who == i;
    var p := s.plans[i][pc'.failedAt];
    var b := s.holder[p];
    assert HeldBy(s, p, b) && Bounded(s.plans[b], s.pc[b]);
    var k :| 0 <= k < Count(s.plans[b], s.pc[b]) && k < |s.plans[b]| && s.plans[b][k] == p;
    assert EverHeld(s, b, p);
    EverHeldStays(s, step, b, p);
    hide Inv, EverHeld;
  }

  lemma KeepsBlocked(s: State, step: Step, i: nat)
    requires Inv(s) && Enabled(s, step) && i < |s.plans|
    requires Bounded(s.plans[i], Next(s, step).pc[i])
    ensures Blocked(Next(s, step), i)
  {
    if LostRace(s.pc[i]) { StillBlocked(s, step, i); }
    else if LostRace(Next(s, step).pc[i]) { NewlyBlocked(s, step, i); }
  }

  lemma StepKeepsInv(s: State, step: Step)
    requires Inv(s) && Enabled(s, step)
    ensures Inv(Next(s, step)) && Next(s, step).plans == s.plans
  {
    var s' := Next(s, step);
    KeepsBounded(s, step);
    forall i | 0 <= i < |s.plans|
      ensures Bounded(s.plans[i], s'.pc[i])
    {
    }
    forall i | 0 <= i < |s.plans|
      ensures Holds(s', i) && Blocked(s', i)
    {
      KeepsHolds(s, step, i);
      KeepsBlocked(s, step, i);
    }
    forall p | p in s'.holder
      ensures HeldBy(s', p, s'.holder[p])
    {
      KeepsHeldBy(s, step, p);
    }
  }

  lemma {:induction false} RunKeepsInv(s: State, steps: seq<Step>)
    requires Inv(s) && IsRun(s, steps)
    ensures Inv(Exec(s, steps)) && Exec(s, steps).plans == s.plans
    decreases |steps|
  {
    if steps != [] {
      StepKeepsInv(s, steps[0]);
      RunKeepsInv(Next(s, steps[0]), steps[1..]);
    }
  }

  ghost predicate Reachable(s: State) {
    exists plans, steps ::
      (forall i | 0 <= i < |plans| :: Sorted(plans[i])) && IsRun(Init(plans), steps) && Exec(Init(plans), steps) == s
  }

  lemma ReachableHasInv(s: State)
    requires Reachable(s)
    ensures Inv(s)
  {
    var plans: seq<seq<string>>, steps :|
      (forall i | 0 <= i < |plans| :: Sorted(plans[i])) && IsRun(Init(plans), steps) && Exec(Init(plans), steps) == s;
    InitInv(plans);
    RunKeepsInv(Init(plans), steps);
  }

  // ------------------------------------------------------------------ all or nothing

  function HeldSet(s: State, i: nat): set<string> {
    set p | p in s.holder && s.holder[p] == i
  }

  /** A process that serves holds exactly its own locks, and one that is done holds none. */
  lemma AllOrNothing(s: State, i: nat)
    requires Reachable(s) && i < |s.plans|
    ensures i < |s.pc|
    ensures s.pc[i].Held? ==> HeldSet(s, i) == (set p | p in s.plans[i]) && Distinct(s.plans[i])
    ensures s.pc[i].GaveUp? || s.pc[i].Closed? ==> HeldSet(s, i) == {}
  {
    ReachableHasInv(s);
    assert Bounded(s.plans[i], s.pc[i]) && Holds(s, i);
    forall p | p in HeldSet(s, i)
      ensures HeldBy(s, p, i)
    {
    }
    forall p | p in s.plans[i] && s.pc[i].Held?
      ensures p in HeldSet(s, i)
    {
      var k :| 0 <= k < |s.plans[i]| && s.plans[i][k] == p;
    }
  }

  /** Two processes that serve at the same time share no lock. */
  lemma Exclusive(s: State, i: nat, j: nat)
    requires Reachable(s) && i < |s.pc| && j < |s.pc| && i != j && s.pc[i].Held? && s.pc[j].Held?
    ensures |s.pc| == |s.plans| && forall p | p in s.plans[i] :: p !in s.plans[j]
  {
    ReachableHasInv(s);
    AllOrNothing(s, i);
    AllOrNothing(s, j);
    forall p | p in s.plans[i]
      ensures p !in s.plans[j]
    {
      assert p in HeldSet(s, i);
      assert p !in HeldSet(s, j);
    }
  }

  // ------------------------------------------------------------------ progress

  ghost predicate Overlap(s: State, i: nat, j: nat)
    requires i < |s.plans| && j < |s.plans|
  {
    exists p :: p in s.plans[i] && p in s.plans[j]
  }

  /** Nobody outside the group wants a lock that someone in it wants. */
  ghost predicate Apart(s: State, group: set<nat>) {
    && (forall i | i in group :: i < |s.plans|)
    && (forall i, j: nat | i in group && j < |s.plans| && Overlap(s, i, j) :: j in group)
  }

  function FailedPath(s: State, i: nat): string {
    if i < |s.pc| && i < |s.plans| && s.pc[i].GaveUp? && s.pc[i].failedAt < |s.plans[i]|
    then s.plans[i][s.pc[i].failedAt]
    else ""
  }

  lemma {:induction false} FarthestFailure(s: State, group: set<nat>) returns (far: nat)
    requires group != {}
    ensures far in group && forall i | i in group :: !Less(FailedPath(s, far), FailedPath(s, i))
    decreases group
  {
    var one :| one in group;
    var rest := group - {one};
    assert group == rest + {one};
    far := one;
    Trichotomy(FailedPath(s, one), FailedPath(s, one));
    if rest != {} {
      var other := FarthestFailure(s, rest);
      Trichotomy(FailedPath(s, one), FailedPath(s, other));
      if Less(FailedPath(s, one), FailedPath(s, other)) { far := other; }
      forall i | i in group
        ensures !Less(FailedPath(s, far), FailedPath(s, i))
      {
        if i in rest && far == one {
          Transitive(FailedPath(s, i), FailedPath(s, other), FailedPath(s, one));
        }
      }
    }
  }

  /** Who beat a process that gave up either got all its locks, or failed at a later path. */
  lemma BlockerWentFarther(s: State, i: nat) returns (b: nat)
    requires Inv(s) && i < |s.pc| && s.pc[i].GaveUp? && s.pc[i].why.Contention?
    ensures b < |s.plans| && Overlap(s, i, b)
    ensures LostRace(s.pc[b]) && s.pc[b].GaveUp? ==> Less(FailedPath(s, i), FailedPath(s, b))
  {
    assert Blocked(s, i) && Bounded(s.plans[i], s.pc[i]);
    b := s.pc[i].why.blocker;
    var p := FailedPath(s, i);
    var m :| 0 <= m < Reached(s.plans[b], s.pc[b]) && m < |s.plans[b]| && s.plans[b][m] == p;
    assert p in s.plans[i] && p in s.plans[b];
    assert Blocked(s, b) && Bounded(s.plans[b], s.pc[b]);
    if LostRace(s.pc[b]) && s.pc[b].GaveUp? {
      NeighboursTell(s.plans[b], s.pc[b].failedAt);
    }
  }

  /**
   However the attempts interleave, in every group of processes that share locks only among
   themselves, once all have finished and lost nothing but races, somebody got all its locks.
   */
  lemma SomebodyWins(s: State, group: set<nat>)
    requires Reachable(s) && group != {} && Apart(s, group)
    requires forall i | i in group :: i < |s.pc| && Finished(s.pc[i])
    requires forall i | i in group && s.pc[i].GaveUp? :: s.pc[i].why.Contention?
    ensures exists i :: i in group && Acquired(s.pc[i])
  {
    ReachableHasInv(s);
    var far := FarthestFailure(s, group);
    if !Acquired(s.pc[far]) {
      var b := BlockerWentFarther(s, far);
      assert b in group;
      assert !Less(FailedPath(s, far), FailedPath(s, b));
      assert Acquired(s.pc[b]);
    }
  }

  // ------------------------------------------------------------------ nobody waits

  /** The steps a process can still take. */
  function Rank(plan: seq<string>, pc: Pc): nat {
    match pc
    case Trying(n) => if n <= |plan| then 2 * |plan| + 4 - n else 0
    case Held => |plan| + 2
    case Undoing(_, left, _) => left + 1
    case Closing(left) => left + 1
    case _ => 0
  }

  function Work(plans: seq<seq<string>>, pc: seq<Pc>): nat
    requires |pc| == |plans|
  {
    if pc == [] then 0 else Rank(plans[0], pc[0]) + Work(plans[1..], pc[1..])
  }

  lemma {:induction false} WorkDrops(plans: seq<seq<string>>, pc: seq<Pc>, i: nat, to: Pc)
    requires i < |pc| == |plans| && Rank(plans[i], to) < Rank(plans[i], pc[i])
    ensures Work(plans, pc[i := to]) < Work(plans, pc)
    decreases i
  {
    if i > 0 {
      assert pc[i := to][1..] == pc[1..][i - 1 := to];
      WorkDrops(plans[1..], pc[1..], i - 1, to);
    }
  }

  lemma StepWorks(s: State, step: Step)
    requires Inv(s) && Enabled(s, step)
    ensures |Next(s, step).pc| == |s.plans| && Work(s.plans, Next(s, step).pc) < Work(s.plans, s.pc)
  {
    var i := step.who;
    assert Bounded(s.plans[i], s.pc[i]);
    hide Inv;
    WorkDrops(s.plans, s.pc, i, Next(s, step).pc[i]);
    assert Next(s, step).pc == s.pc[i := Next(s, step).pc[i]];
  }

  /** No run is longer than the work there is at its start. */
  lemma {:induction false} RunIsBounded(s: State, steps: seq<Step>)
    requires Inv(s) && IsRun(s, steps)
    ensures |steps| <= Work(s.plans, s.pc)
    decreases |steps|
  {
    if steps != [] {
      StepKeepsInv(s, steps[0]);
      StepWorks(s, steps[0]);
      RunIsBounded(Next(s, steps[0]), steps[1..]);
    }
  }

  /** A process that has not finished can always take a step, whatever the others do. */
  lemma NobodyWaits(s: State, i: nat)
    requires Reachable(s) && i < |s.pc| && !Finished(s.pc[i])
    ensures Enabled(s, Try(i, false)) || Enabled(s, Release(i))
  {
    ReachableHasInv(s);
    assert Bounded(s.plans[i], s.pc[i]);
  }

  // ------------------------------------------------------------------ the order matters

  /** Two processes that take the same two locks in opposite orders can both give up. */
  lemma UnsortedCanAllFail() returns (steps: seq<Step>)
    ensures var s := Init([["a", "b"], ["b", "a"]]);
            IsRun(s, steps) && Exec(s, steps).pc == [GaveUp(1, Contention(1)), GaveUp(1, Contention(0))]
  {
    var s0 := Init([["a", "b"], ["b", "a"]]);
    var all := [Try(0, false), Try(1, false), Try(0, false), Try(1, false),
                Release(0), Release(1), Release(0), Release(1)];
    var s1 := Next(s0, all[0]);
    var s2 := Next(s1, all[1]);
    assert s2.holder == map["a" := 0, "b" := 1];
    var s3 := Next(s2, all[2]);
    var s4 := Next(s3, all[3]);
    assert s4.pc == [Undoing(1, 1, Contention(1)), Undoing(1, 1, Contention(0))];
    var s5 := Next(s4, all[4]);
    var s6 := Next(s5, all[5]);
    var s7 := Next(s6, all[6]);
    var s8 := Next(s7, all[7]);
    steps := [];
    steps := [all[7]] + steps; Take(s7, all[7], []);
    Take(s6, all[6], steps); steps := [all[6]] + steps;
    Take(s5, all[5], steps); steps := [all[5]] + steps;
    Take(s4, all[4], steps); steps := [all[4]] + steps;
    Take(s3, all[3], steps); steps := [all[3]] + steps;
    Take(s2, all[2], steps); steps := [all[2]] + steps;
    Take(s1, all[1], steps); steps := [all[1]] + steps;
    Take(s0, all[0], steps); steps := [all[0]] + steps;
  }
}
