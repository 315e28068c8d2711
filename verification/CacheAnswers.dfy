/** What calls return and count against what upstream answered, step by step over a run. */
module CacheAnswers {
  import opened Wrappers
  import opened Cache
  import opened CacheProperties

  // ------------------------------------------------------------------ the steps of one call

  /** What upstream answered to call `c`, in order. */
  function AnswersTo(steps: seq<Step>, c: Call): (r: seq<Listing>) {
    if steps == [] then []
    else (if steps[0].Answer? && steps[0].call == c then [steps[0].result] else []) + AnswersTo(steps[1..], c)
  }

  /** How often call `c` took a step of its own. */
  function Moves(steps: seq<Step>, c: Call): nat {
    if steps == [] then 0 else (if steps[0] == Act(c) then 1 else 0) + Moves(steps[1..], c)
  }

  /** What call `c` has been through, read off its program point. */
  ghost predicate Story(s: State, c: Call, moves: nat, answers: seq<Listing>) {
    if c !in s.call then moves == 0 && answers == []
    else
      match s.call[c]
      case Probe(missed) => answers == [] && (missed <==> moves > 0)
      case Bypass => answers == [] && moves == 0
      case Await(_) => answers == [] && moves > 0
      case Claimed(_) => answers == [] && moves > 0
      case Fetching(_) => answers == [] && moves > 0 && c in s.refreshers
      case BypassFetching => answers == [] && moves > 0 && c in s.refreshers
      case Fetched(_, result) => answers == [result] && moves > 0 && c in s.refreshers
      case Returned(result) =>
        && |answers| <= 1 && (c in s.refreshers <==> answers != [])
        && (c in s.hitters <==> moves == 1 && answers == [])
        && (s.ttl <= 0 ==> answers == [result])
  }

  /** What the counting marks say of one call. */
  predicate Marked(s: State, c: Call, hit: bool, missed: bool, refreshed: bool) {
    (c in s.hitters <==> hit) && (c in s.missers <==> missed) && (c in s.refreshers <==> refreshed)
  }

  lemma ProbeTold(s: State, c: Call, missed: bool, moves: nat, answers: seq<Listing>)
    requires Story(s, c, moves, answers) && c in s.call && s.call[c] == Probe(missed) && s.ttl > 0
    requires Marked(s, c, false, missed, false)
    ensures Story(ProbeStep(s, c, missed), c, moves + 1, answers)
  {
    hide Cached;
  }

  lemma ActTold(s: State, c: Call, moves: nat, answers: seq<Listing>)
    requires c in s.call && MarkOk(s, c, s.call[c]) && s.refreshers <= s.missers && s.hitters !! s.missers
    requires OnBypass(s.call[c]) || s.ttl > 0
    requires Enabled(s, Act(c)) && Story(s, c, moves, answers)
    ensures Story(Next(s, Act(c)), c, moves + 1, answers)
  {
    hide Cached, Completed, ProbeStep;
    if s.call[c].Probe? { ProbeTold(s, c, s.call[c].missed, moves, answers); }
  }

  lemma AnswerTold(s: State, c: Call, result: Listing, moves: nat, answers: seq<Listing>)
    requires c in s.call && MarkOk(s, c, s.call[c]) && s.hitters !! s.missers && (s.call[c].Fetching? ==> s.ttl > 0)
    requires Enabled(s, Answer(c, result)) && Story(s, c, moves, answers)
    ensures Story(Next(s, Answer(c, result)), c, moves, answers + [result])
  {
  }

  /** A step that is not the call's own leaves its story. */
  lemma OthersTold(s: State, step: Step, c: Call, moves: nat, answers: seq<Listing>)
    requires Enabled(s, step) && (step.Tick? || step.call != c) && Story(s, c, moves, answers)
    ensures Story(Next(s, step), c, moves, answers)
  {
    hide Cached, Completed;
  }

  lemma BeginTold(s: State, c: Call, moves: nat, answers: seq<Listing>)
    requires Enabled(s, Begin(c)) && Story(s, c, moves, answers)
    ensures Story(Next(s, Begin(c)), c, moves, answers)
  {
  }

  lemma StepTold(s: State, step: Step, c: Call, moves: nat, answers: seq<Listing>)
    requires Inv(s) && Enabled(s, step) && Story(s, c, moves, answers)
    ensures Story(Next(s, step), c, moves + Moves([step], c), answers + AnswersTo([step], c))
  {
    AloneInSteps(step, c, answers);
    hide Inv, Story, Next, Enabled, Moves, AnswersTo;
    if step.Tick? || step.call != c {
      OthersTold(s, step, c, moves, answers);
    } else if step.Begin? {
      BeginTold(s, c, moves, answers);
    } else {
      WhereItIs(s, step);
      if step.Act? { ActTold(s, c, moves, answers); } else { AnswerTold(s, c, step.result, moves, answers); }
    }
  }

  lemma AloneInSteps(step: Step, c: Call, answers: seq<Listing>)
    ensures Moves([step], c) == if step == Act(c) then 1 else 0
    ensures answers + AnswersTo([step], c)
            == if step.Answer? && step.call == c then answers + [step.result] else answers
  {
    assert [step][1..] == [];
  }

  lemma WhereItIs(s: State, step: Step)
    requires Inv(s) && Enabled(s, step) && (step.Act? || step.Answer?)
    ensures var c := step.call;
            && c in s.call && MarkOk(s, c, s.call[c]) && s.refreshers <= s.missers && s.hitters !! s.missers
            && (OnBypass(s.call[c]) || s.ttl > 0)
  {
    hide Refines, Spaced, Counted, MarkOk;
  }

  lemma {:induction false} RunTold(s: State, steps: seq<Step>, c: Call, moves: nat, answers: seq<Listing>)
    requires Inv(s) && IsRun(s, steps) && Story(s, c, moves, answers)
    ensures Story(Exec(s, steps), c, moves + Moves(steps, c), answers + AnswersTo(steps, c))
    decreases |steps|
  {
    hide Inv, Enabled, Next, Story, Moves, AnswersTo;
    if steps == [] {
      NothingTold(c, answers);
    } else {
      var first, rest := AnswersTo([steps[0]], c), AnswersTo(steps[1..], c);
      StepTold(s, steps[0], c, moves, answers);
      StepKeepsInv(s, steps[0]);
      OneStep(steps, c);
      RunTold(Next(s, steps[0]), steps[1..], c, moves + Moves([steps[0]], c), answers + first);
      assert answers + first + rest == answers + (first + rest);
    }
  }

  lemma NothingTold(c: Call, answers: seq<Listing>)
    ensures Moves([], c) == 0 && answers + AnswersTo([], c) == answers
  {
  }

  lemma OneStep(steps: seq<Step>, c: Call)
    requires steps != []
    ensures Moves(steps, c) == Moves([steps[0]], c) + Moves(steps[1..], c)
    ensures AnswersTo(steps, c) == AnswersTo([steps[0]], c) + AnswersTo(steps[1..], c)
  {
    assert [steps[0]][1..] == [];
  }

  lemma ToldFromTheStart(ttl: int, steps: seq<Step>, c: Call)
    requires IsRun(Init(ttl), steps)
    ensures Story(Exec(Init(ttl), steps), c, Moves(steps, c), AnswersTo(steps, c))
    ensures Inv(Exec(Init(ttl), steps)) && Exec(Init(ttl), steps).ttl == ttl
  {
    InitInv(ttl);
    RunKeepsInv(Init(ttl), steps);
    hide Inv;
    RunTold(Init(ttl), steps, c, 0, []);
    assert [] + AnswersTo(steps, c) == AnswersTo(steps, c);
  }

  /** With caching off, a call that has returned has the result of the one list it made upstream do. */
  lemma UncachedReturnsItsAnswer(ttl: int, steps: seq<Step>, c: Call)
    requires ttl <= 0 && IsRun(Init(ttl), steps)
    requires var s := Exec(Init(ttl), steps); c in s.call && s.call[c].Returned?
    ensures var s := Exec(Init(ttl), steps);
            AnswersTo(steps, c) == [s.call[c].result] && c in s.refreshers && c in s.missers
  {
    ToldFromTheStart(ttl, steps, c);
    hide SingleFlight, Refines, Spaced, Counted, MarkOk;
  }

  /** What the counters count: a hit comes back from its first look, and a refresh is a call upstream has answered. */
  lemma CountersMean(ttl: int, steps: seq<Step>, c: Call)
    requires IsRun(Init(ttl), steps)
    requires var s := Exec(Init(ttl), steps); c in s.call && s.call[c].Returned?
    ensures var s, answers := Exec(Init(ttl), steps), AnswersTo(steps, c);
            && |answers| <= 1 && (c in s.refreshers <==> answers != [])
            && (c in s.hitters <==> Moves(steps, c) == 1 && answers == [])
  {
    ToldFromTheStart(ttl, steps, c);
  }

  // ------------------------------------------------------------------ all of upstream's answers

  function Answers(steps: seq<Step>): (r: seq<Listing>) {
    if steps == [] then [] else (if steps[0].Answer? then [steps[0].result] else []) + Answers(steps[1..])
  }

  function Results(h: seq<Completion>): (r: seq<Listing>)
    ensures |r| == |h| && forall i | 0 <= i < |h| :: r[i] == h[i].result
  {
    seq(|h|, i requires 0 <= i < |h| => h[i].result)
  }

  /** The answer the refresh in flight has and has not stored yet. */
  function Pending(s: State): seq<Listing> {
    if s.owner.Some? && s.owner.value in s.call && s.call[s.owner.value].Fetched? then [s.call[s.owner.value].result]
    else []
  }

  lemma ResultsGrow(h: seq<Completion>, c: Completion)
    ensures Results(h + [c]) == Results(h) + [c.result]
  {
  }

  lemma StepStores(s: State, step: Step)
    requires SingleFlight(s) && s.ttl > 0 && Enabled(s, step)
    ensures Results(Next(s, step).completions) + Pending(Next(s, step))
            == Results(s.completions) + Pending(s) + if step.Answer? then [step.result] else []
  {
    hide Cached, Completed, Results;
    if step.Act? && s.call[step.call].Fetched? {
      ResultsGrow(s.completions, Completion(s.now, s.call[step.call].result));
    }
  }

  lemma {:induction false} RunStores(s: State, steps: seq<Step>, answers: seq<Listing>)
    requires Inv(s) && s.ttl > 0 && IsRun(s, steps) && Results(s.completions) + Pending(s) == answers
    ensures Results(Exec(s, steps).completions) + Pending(Exec(s, steps)) == answers + Answers(steps)
    decreases |steps|
  {
    hide Enabled, Next, Results, Pending;
    if steps != [] {
      var first, rest := if steps[0].Answer? then [steps[0].result] else [], Answers(steps[1..]);
      StepStores(s, steps[0]);
      StepKeepsInv(s, steps[0]);
      hide Inv;
      RunStores(Next(s, steps[0]), steps[1..], answers + first);
      assert answers + first + rest == answers + (first + rest);
    }
  }

  /** With a ttl, every answer of upstream is stored as it came, in order, but for one that is about to be. */
  lemma AnswersAreStored(ttl: int, steps: seq<Step>)
    requires ttl > 0 && IsRun(Init(ttl), steps)
    ensures var s := Exec(Init(ttl), steps); Answers(steps) == Results(s.completions) + Pending(s)
    ensures |Pending(Exec(Init(ttl), steps))| <= 1
  {
    InitInv(ttl);
    assert Results([]) == [];
    RunStores(Init(ttl), steps, []);
    assert [] + Answers(steps) == Answers(steps);
  }

  // ------------------------------------------------------------------ waits

  /** How often some call came to wait for another's refresh. */
  function Waitings(s: State, steps: seq<Step>): nat
    requires IsRun(s, steps)
    decreases |steps|
  {
    if steps == [] then 0
    else
      var s' := Next(s, steps[0]);
      var waits := steps[0].Act? && !s.call[steps[0].call].Await? && s'.call[steps[0].call].Await?;
      (if waits then 1 else 0) + Waitings(s', steps[1..])
  }

  lemma StepWaits(s: State, step: Step)
    requires Enabled(s, step)
    ensures var waits := step.Act? && !s.call[step.call].Await? && Next(s, step).call[step.call].Await?;
            Next(s, step).waits == s.waits + if waits then 1 else 0
  {
    hide Cached, Completed;
  }

  lemma {:induction false} WaitsCounted(s: State, steps: seq<Step>)
    requires IsRun(s, steps)
    ensures Exec(s, steps).waits == s.waits + Waitings(s, steps)
    decreases |steps|
  {
    if steps != [] {
      StepWaits(s, steps[0]);
      hide Enabled, Next;
      WaitsCounted(Next(s, steps[0]), steps[1..]);
    }
  }
  /** Refresh `f` has begun and is over. */
  predicate Over(s: State, f: nat) {
    f < s.flights && s.entry.inFlight != Some(f)
  }

  lemma StepStaysOver(s: State, step: Step, c: Call, f: nat)
    requires SingleFlight(s) && Over(s, f) && Enabled(s, step) && c in s.call && s.call[c] != Await(f)
    ensures Over(Next(s, step), f) && c in Next(s, step).call && Next(s, step).call[c] != Await(f)
  {
    hide Cached;
  }

  lemma {:induction false} RunStaysOver(s: State, steps: seq<Step>, c: Call, f: nat)
    requires Inv(s) && IsRun(s, steps) && Over(s, f) && c in s.call && s.call[c] != Await(f)
    ensures c in Exec(s, steps).call && Exec(s, steps).call[c] != Await(f)
    decreases |steps|
  {
    if steps != [] {
      StepStaysOver(s, steps[0], c, f);
      StepKeepsInv(s, steps[0]);
      hide Inv, Enabled, Next, Over;
      RunStaysOver(Next(s, steps[0]), steps[1..], c, f);
    }
  }

  /** A call that goes on after waiting finds the refresh it waited for over, and never waits for it again. */
  lemma NeverWaitsTwice(s: State, c: Call, f: nat, steps: seq<Step>)
    requires Reachable(s) && Enabled(s, Act(c)) && s.call[c] == Await(f) && IsRun(Next(s, Act(c)), steps)
    ensures s.entry.inFlight != Some(f)
    ensures c in Exec(Next(s, Act(c)), steps).call && Exec(Next(s, Act(c)), steps).call[c] != Await(f)
  {
    ReachableHasInv(s);
    StepKeepsInv(s, Act(c));
    assert SingleFlight(s) && Over(Next(s, Act(c)), f);
    hide Inv, Reachable;
    RunStaysOver(Next(s, Act(c)), steps, c, f);
  }
}
