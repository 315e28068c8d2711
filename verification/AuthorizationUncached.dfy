/**
 How recent a group's view is with caching off: a refresh ends with what upstream answered to a list
 that came back after the refresh was created.
 */
module AuthorizationUncached {
  import opened Keys
  import Cache
  import opened Authorization
  import opened AuthorizationInvariant
  import opened AuthorizationProperties
  import opened AuthorizationFreshness

  /** Upstream has returned this result at place `from` of the log or later. */
  ghost predicate ReturnedSince(log: seq<Upstream>, from: nat, result: Listing) {
    exists n :: from <= n < |log| && log[n] == ListReturned(result)
  }

  ghost predicate PcLogged(s: State, from: nat, pc: Pc) {
    && (pc.Listing? ==>
          && pc.call in s.cache.call
          && (s.cache.call[pc.call].Returned? ==> ReturnedSince(s.log, from, s.cache.call[pc.call].result)))
    && (pc.Resolving? || pc.Finishing? ==> ReturnedSince(s.log, from, pc.result))
  }

  /** Who is on the way to finish refresh `r` has such a result, and so has `r` when it is finished. */
  ghost predicate TrackedLog(s: State, r: nat, from: nat) {
    && s.cache.ttl <= 0 && from <= |s.log| && r < |s.refreshes|
    && (forall t | t in s.client && Owns(|s.conf|, s.client[t], r) :: PcLogged(s, from, s.client[t]))
    && (s.refreshes[r].closes > 0 ==> ReturnedSince(s.log, from, ResultOf(s.refreshes[r])))
  }

  lemma ReturnedLater(log: seq<Upstream>, log': seq<Upstream>, from: nat, result: Listing)
    requires log <= log' && ReturnedSince(log, from, result)
    ensures ReturnedSince(log', from, result)
  {
    var n :| from <= n < |log| && log[n] == ListReturned(result);
    assert log'[n] == ListReturned(result);
  }

  /** With caching off a call comes back with the answer it has just got. */
  lemma CallAnswered(s: State, inner: Cache.Step, from: nat, call: Cache.Call)
    requires Cache.SingleFlight(s.cache) && s.cache.ttl <= 0 && Enabled(s, CacheStep(inner)) && from <= |s.log|
    requires call in s.cache.call && !s.cache.call[call].Returned?
    ensures var s' := Next(s, CacheStep(inner));
            && call in s'.cache.call
            && (s'.cache.call[call].Returned? ==> ReturnedSince(s'.log, from, s'.cache.call[call].result))
  {
    var s' := Next(s, CacheStep(inner));
    hide Cache.Cached, Cache.Completed;
    if inner.Answer? && inner.call == call { assert s'.log[|s.log|] == ListReturned(inner.result); }
  }

  lemma StepKeepsLogged(s: State, step: Step, from: nat, pc: Pc)
    requires Inv(s) && s.cache.ttl <= 0 && Enabled(s, step) && from <= |s.log| && PcLogged(s, from, pc)
    ensures PcLogged(Next(s, step), from, pc)
  {
    var s' := Next(s, step);
    LogOnlyGrows(s, step);
    assert Cache.SingleFlight(s.cache) by { CacheSound(s); }
    CacheFollows(s, step);
    hide Inv, Next, Enabled, Cache.Next, ReturnedSince;
    if pc.Resolving? || pc.Finishing? { ReturnedLater(s.log, s'.log, from, pc.result); }
    if pc.Listing? {
      if s.cache.call[pc.call].Returned? {
        var inner := CacheStepOf(s, step);
        if inner.Some? { CallComesBack(s.cache, inner.value, pc.call); }
        ReturnedLater(s.log, s'.log, from, s.cache.call[pc.call].result);
      } else if step.CacheStep? {
        CallAnswered(s, step.inner, from, pc.call);
      } else {
        OtherCallsStay(s, step, pc.call);
      }
    }
  }

  /** A call moves by a step of the cache only. */
  lemma OtherCallsStay(s: State, step: Step, call: Cache.Call)
    requires Enabled(s, step) && !step.CacheStep? && call in s.cache.call
    ensures call in Next(s, step).cache.call && Next(s, step).cache.call[call] == s.cache.call[call]
  {
    hide BuildAllowSet, Filter, Woken, Dispatch;
  }

  lemma MoverKeepsLogged(s: State, s': State, t: Client, r: nat, from: nat)
    requires Inv(s) && s.cache.ttl <= 0 && Enabled(s, Act(t)) && r < |s.refreshes| && from <= |s.log|
    requires s' == Next(s, Act(t)) && t in s'.client
    requires Owns(|s.conf|, s.client[t], r) ==> PcLogged(s, from, s.client[t])
    requires Owns(|s.conf|, s'.client[t], r)
    ensures PcLogged(s', from, s'.client[t])
  {
    hide Inv, PcOk, PcLogged, Next;
    var pc := s.client[t];
    if pc.Owning? || pc.Listing? || pc.Resolving? || pc.Finishing? {
      AnswerTakenAlong(s, s', t, r, from);
    } else {
      NewcomerOwnsAnother(s, s', t, r);
    }
  }

  lemma AnswerTakenAlong(s: State, s': State, t: Client, r: nat, from: nat)
    requires s.cache.ttl <= 0 && Enabled(s, Act(t)) && s' == Next(s, Act(t)) && t in s'.client
    requires s.client[t].Owning? || s.client[t].Listing? || s.client[t].Resolving? || s.client[t].Finishing?
    requires Owns(|s.conf|, s.client[t], r) ==> PcLogged(s, from, s.client[t])
    requires Owns(|s.conf|, s'.client[t], r)
    ensures PcLogged(s', from, s'.client[t])
  {
    hide ReturnedSince, BuildAllowSet, Filter;
  }

  lemma FinisherKeepsLogged(s: State, t: Client, r: nat, from: nat)
    requires Inv(s) && Enabled(s, Act(t)) && s.client[t].Finishing? && r == s.client[t].refresh < |s.refreshes|
    requires Owns(|s.conf|, s.client[t], r) ==> PcLogged(s, from, s.client[t])
    ensures r < |Next(s, Act(t)).refreshes|
    ensures ReturnedSince(Next(s, Act(t)).log, from, ResultOf(Next(s, Act(t)).refreshes[r]))
  {
    FinishingIsOpen(s, t);
    assert PcOk(s, s.client[t]);
    assert Owns(|s.conf|, s.client[t], r);
    hide Inv, PcOk, ReturnedSince;
    FinishLeavesResult(s, t);
    hide Next;
  }

  lemma FinishLeavesResult(s: State, t: Client)
    requires Enabled(s, Act(t)) && s.client[t].Finishing? && s.client[t].refresh < |s.refreshes|
    ensures var pc, s' := s.client[t], Next(s, Act(t));
            pc.refresh < |s'.refreshes| && ResultOf(s'.refreshes[pc.refresh]) == pc.result && s'.log == s.log
  {
    hide BuildAllowSet, Filter;
  }

  lemma StepKeepsTrackedLog(s: State, step: Step, r: nat, from: nat)
    requires Inv(s) && TrackedLog(s, r, from) && Enabled(s, step)
    ensures TrackedLog(Next(s, step), r, from)
  {
    var s' := Next(s, step);
    hide Inv, Next, PcLogged, ReturnedSince, Owns;
    LogOnlyGrows(s, step);
    TtlStays(s, step);
    RefreshesFollow(s, step);
    OwnersFollow(s, step, r);
    forall t | t in s'.client && Owns(|s'.conf|, s'.client[t], r)
      ensures PcLogged(s', from, s'.client[t])
    {
      if step.Act? && step.who == t {
        MoverKeepsLogged(s, s', t, r, from);
      } else {
        StepKeepsLogged(s, step, from, s.client[t]);
      }
    }
    if s'.refreshes[r].closes > 0 {
      if s'.refreshes[r] == s.refreshes[r] {
        ReturnedLater(s.log, s'.log, from, ResultOf(s.refreshes[r]));
      } else {
        FinisherKeepsLogged(s, step.who, r, from);
      }
    }
  }

  lemma {:induction false} RunKeepsTrackedLog(s: State, steps: seq<Step>, r: nat, from: nat)
    requires Inv(s) && TrackedLog(s, r, from) && IsRun(s, steps)
    ensures TrackedLog(Exec(s, steps), r, from)
    decreases |steps|
  {
    if steps != [] {
      StepKeepsTrackedLog(s, steps[0], r, from);
      StepKeepsInv(s, steps[0]);
      hide Inv, TrackedLog;
      RunKeepsTrackedLog(Next(s, steps[0]), steps[1..], r, from);
    }
  }

  lemma CreatedIsTrackedLog(s: State, step: Step, r: nat)
    requires Inv(s) && s.cache.ttl <= 0 && Enabled(s, step) && Creates(s, step, r)
    ensures TrackedLog(Next(s, step), r, |s.log|)
  {
    LogOnlyGrows(s, step);
    RefreshesFollow(s, step);
    NewRefreshAlone(s, step);
    hide BuildAllowSet, Filter, ReturnedSince, Cache.Inv, Cache.Next;
    assert forall t | t in s.client :: !Owns(|s.conf|, s.client[t], r);
    OwnersFollow(s, step, r);
    hide Inv, Owns, Next;
  }

  /** With caching off, a finished refresh has resolved, or failed with, an answer that came after it was created. */
  lemma UncachedIsFresh(s0: State, step: Step, steps: seq<Step>, r: nat)
    requires Reachable(s0) && s0.cache.ttl <= 0 && Enabled(s0, step) && Creates(s0, step, r)
    requires IsRun(Next(s0, step), steps)
    ensures var s := Exec(Next(s0, step), steps);
            && r < |s.refreshes|
            && (s.refreshes[r].closes > 0 ==> ReturnedSince(s.log, |s0.log|, ResultOf(s.refreshes[r])))
  {
    ReachableHasInv(s0);
    CreatedIsTrackedLog(s0, step, r);
    StepKeepsInv(s0, step);
    hide Inv;
    RunKeepsTrackedLog(Next(s0, step), steps, r, |s0.log|);
  }
}
