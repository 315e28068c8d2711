/** What a request on the shared connection returns, against what the agent answered to it. */
module UpstreamAnswers {
  import opened Wrappers
  import opened Upstream
  import opened UpstreamInvariant

  /** The answers caller `t` got, in order. */
  function AnswersTo(steps: seq<Step>, t: Caller): (r: seq<Outcome>) {
    if steps == [] then []
    else (if steps[0].Answer? && steps[0].caller == t then [steps[0].outcome] else []) + AnswersTo(steps[1..], t)
  }

  function LastOf(answers: seq<Outcome>): Option<Outcome> {
    if answers == [] then None else Some(answers[|answers| - 1])
  }

  /** Only a List asks twice, and only after an error of the client. */
  predicate Asked(answers: seq<Outcome>, op: Op) {
    |answers| <= 1 || (|answers| == 2 && op == ListOp && answers[0] == ClientError)
  }

  /** The answers a request of this kind can have had at a program point. */
  predicate Story(pc: Pc, op: Op, answers: seq<Outcome>) {
    if pc.Told? then Asked(answers, op) && pc.answer == LastOf(answers)
    else if HasUse(pc) then
      if pc.use.First? then pc.use.op == op && answers == [] else op == ListOp && answers == [ClientError]
    else (pc.Judge? || pc.JudgeAgain? || InReconnect(pc)) && pc.op == op && answers == [ClientError]
  }

  lemma ConnectionTells(sh: Shared, t: Caller, pc: Pc, ok: bool, op: Op, answers: seq<Outcome>)
    requires !pc.Request? && !Ended(pc) && !InReconnect(pc) && Story(pc, op, answers)
    ensures Story(ConnectionMove(sh, t, pc, ok).1, op, answers)
  {
    hide Stored, DialedBy, ClosedByOwner;
  }

  lemma ReconnectTells(sh: Shared, t: Caller, pc: Pc, ok: bool, op: Op, answers: seq<Outcome>)
    requires InReconnect(pc) && Story(pc, op, answers)
    ensures Story(ReconnectMove(sh, t, pc, ok).1, op, answers)
  {
    hide Swapped, DialedBy, ClosedByOwner;
  }

  lemma AnswerTells(pc: Pc, outcome: Outcome, op: Op, answers: seq<Outcome>)
    requires pc.Request? && Story(pc, op, answers)
    ensures Story(Answered(pc, outcome), op, answers + [outcome])
  {
  }

  lemma StepTells(s: State, step: Step, t: Caller, op: Op, answers: seq<Outcome>)
    requires Enabled(s, step) && t in s.pc && Story(s.pc[t], op, answers)
    ensures t in Next(s, step).pc && Story(Next(s, step).pc[t], op, answers + AnswersTo([step], t))
  {
    assert [step][1..] == [] && answers + [] == answers;
    hide ConnectionMove, ReconnectMove, DropMove, CloseMove, Answered;
    if step == Act(t, step.Act? && step.ok) {
      if InReconnect(s.pc[t]) { ReconnectTells(s.sh, t, s.pc[t], step.ok, op, answers); }
      else { ConnectionTells(s.sh, t, s.pc[t], step.ok, op, answers); }
    } else if step.Answer? && step.caller == t {
      AnswerTells(s.pc[t], step.outcome, op, answers);
    }
  }

  lemma {:induction false} RunTells(s: State, steps: seq<Step>, t: Caller, op: Op, answers: seq<Outcome>)
    requires IsRun(s, steps) && t in s.pc && Story(s.pc[t], op, answers)
    ensures t in Exec(s, steps).pc && Story(Exec(s, steps).pc[t], op, answers + AnswersTo(steps, t))
    decreases |steps|
  {
    hide Enabled, Next, Story, AnswersTo;
    if steps == [] {
      NothingTold(t, answers);
    } else {
      var first, rest := AnswersTo([steps[0]], t), AnswersTo(steps[1..], t);
      StepTells(s, steps[0], t, op, answers);
      OneStep(steps, t);
      RunTells(Next(s, steps[0]), steps[1..], t, op, answers + first);
      assert answers + first + rest == answers + (first + rest);
    }
  }

  lemma NothingTold(t: Caller, answers: seq<Outcome>)
    ensures answers + AnswersTo([], t) == answers
  {
  }

  lemma OneStep(steps: seq<Step>, t: Caller)
    requires steps != []
    ensures AnswersTo(steps, t) == AnswersTo([steps[0]], t) + AnswersTo(steps[1..], t)
  {
    assert [steps[0]][1..] == [];
  }

  /**
   A request that has returned returned the last answer it got, or failed for want of a connection
   without any; it asked once, and twice only for a List whose first error was the client's.
   */
  lemma ReturnsLastAnswer(s: State, t: Caller, op: Op, steps: seq<Step>)
    requires Enabled(s, Begin(t, op)) && IsRun(Next(s, Begin(t, op)), steps)
    ensures var s', answers := Exec(Next(s, Begin(t, op)), steps), AnswersTo(steps, t);
            && t in s'.pc && Asked(answers, op)
            && (Ended(s'.pc[t]) ==> s'.pc[t] == Told(LastOf(answers)))
  {
    RunTells(Next(s, Begin(t, op)), steps, t, op, []);
    assert [] + AnswersTo(steps, t) == AnswersTo(steps, t);
  }
}
