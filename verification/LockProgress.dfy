/**
 Any number of processes taking their socket locks at the same time (internal/proxy/socketlock.go).
 A plan is the list of lock paths one process goes through; one step tries or releases one lock. A
 process that has all its locks serves, and may stop at any time and release them.
 */
module LockProgress {
  /** Why an attempt failed; for a lost race, who held the lock. */
  datatype Why = Contention(blocker: nat) | Duplicate | Fault

  datatype Pc =
    | Trying(next: nat)
    | Undoing(failedAt: nat, left: nat, why: Why)
    | GaveUp(failedAt: nat, why: Why)
    | Held
    | Closing(left: nat)
    | Closed

  datatype State = State(plans: seq<seq<string>>, pc: seq<Pc>, holder: map<string, nat>)

  datatype Step = Try(who: nat, fault: bool) | Release(who: nat) | Stop(who: nat)

  function Init(plans: seq<seq<string>>): State {
    State(plans, seq(|plans|, _ => Trying(0)), map[])
  }

  predicate Enabled(s: State, step: Step) {
    && step.who < |s.pc| == |s.plans|
    && match step
       case Try(i, _) => s.pc[i].Trying? && s.pc[i].next <= |s.plans[i]|
       case Release(i) => (s.pc[i].Undoing? || s.pc[i].Closing?) && s.pc[i].left <= |s.plans[i]|
       case Stop(i) => s.pc[i].Held?
  }

  function At(s: State, i: nat, pc: Pc): State
    requires i < |s.pc|
  {
    s.(pc := s.pc[i := pc])
  }

  function Next(s: State, step: Step): State
    requires Enabled(s, step)
  {
    var i := step.who;
    var plan := s.plans[i];
    match step
    case Try(_, fault) => TryStep(s, i, fault)
    case Release(_) => if s.pc[i].left == 0 then At(s, i, AfterRelease(s.pc[i])) else ReleaseStep(s, i)
    case Stop(_) => At(s, i, Closing(|plan|))
  }

  function TryStep(s: State, i: nat, fault: bool): State
    requires Enabled(s, Try(i, fault))
  {
    var plan, n := s.plans[i], s.pc[i].next;
    if n == |plan| then At(s, i, Held)
    else if n > 0 && plan[n] == plan[n - 1] then At(s, i, Undoing(n, n, Duplicate))
    else if fault then At(s, i, Undoing(n, n, Fault))
    else if plan[n] in s.holder then At(s, i, Undoing(n, n, Contention(s.holder[plan[n]])))
    else At(s.(holder := s.holder[plan[n] := i]), i, Trying(n + 1))
  }

  function AfterRelease(pc: Pc): Pc
    requires pc.Undoing? || pc.Closing?
  {
    if pc.Undoing? then GaveUp(pc.failedAt, pc.why) else Closed
  }

  /** Locks go in the reverse of the order they came in. */
  function ReleaseStep(s: State, i: nat): State
    requires Enabled(s, Release(i)) && s.pc[i].left > 0
  {
    var left := s.pc[i].left - 1;
    At(s.(holder := s.holder - {s.plans[i][left]}), i, s.pc[i].(left := left))
  }

  predicate IsRun(s: State, steps: seq<Step>)
    decreases |steps|
  {
    steps == [] || (Enabled(s, steps[0]) && IsRun(Next(s, steps[0]), steps[1..]))
  }

  function Exec(s: State, steps: seq<Step>): State
    requires IsRun(s, steps)
    decreases |steps|
  {
    if steps == [] then s else Exec(Next(s, steps[0]), steps[1..])
  }

  lemma Take(s: State, step: Step, rest: seq<Step>)
    requires Enabled(s, step) && IsRun(Next(s, step), rest)
    ensures IsRun(s, [step] + rest) && Exec(s, [step] + rest) == Exec(Next(s, step), rest)
  {
    assert ([step] + rest)[1..] == rest;
  }
}
