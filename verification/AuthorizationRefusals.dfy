/** How recent the listing is that a refused sign request was judged by, for a positive ttl. */
module AuthorizationRefusals {
  import opened Wrappers
  import opened Keys
  import Cache
  import opened Authorization
  import opened AuthorizationInvariant
  import opened AuthorizationProperties
  import opened AuthorizationFreshness
  import opened AuthorizationJoining
  import opened AuthorizationRequests

  // ------------------------------------------------------------------ the listing being finished is the last resolved

  predicate LastIs(resolved: seq<seq<Key>>, listing: seq<Key>) {
    resolved != [] && resolved[|resolved| - 1] == listing
  }

  /** Nobody resolves for the group between the resolution and the end of a refresh. */
  ghost predicate FinishersLast(s: State) {
    forall t | t in s.client && s.client[t].Finishing? :: FinisherLast(s.groups, s.client[t])
  }

  predicate FinisherLast(groups: seq<Group>, pc: Pc) {
    pc.Finishing? && pc.result.Ok? ==> pc.group < |groups| && LastIs(groups[pc.group].resolved, pc.result.value)
  }

  /** Two callers that are both to finish a refresh of the same group are the same. */
  lemma OneFinisher(s: State, t: Client, u: Client)
    requires Inv(s) && t in s.client && u in s.client && s.client[t].group == s.client[u].group
    requires s.client[t].Resolving? || s.client[t].Finishing?
    requires s.client[u].Resolving? || s.client[u].Finishing?
    ensures t == u
  {
    ItsRefreshIsOpen(s, t);
    ItsRefreshIsOpen(s, u);
    hide Owns;
  }

  lemma ItsRefreshIsOpen(s: State, t: Client)
    requires Inv(s) && t in s.client && (s.client[t].Resolving? || s.client[t].Finishing?)
    ensures var pc := s.client[t];
            && pc.group < |s.conf| == |s.groups| && pc.refresh < |s.refreshes| == |s.owner|
            && s.refreshes[pc.refresh].closes == 0 && s.refreshes[pc.refresh].group == pc.group
            && s.owner[pc.refresh] == t && Owns(|s.conf|, pc, pc.refresh)
            && s.groups[pc.group].inFlight == Some(pc.refresh)
  {
    assert PcOk(s, s.client[t]);
    assert Owns(|s.conf|, s.client[t], s.client[t].refresh);
  }

  lemma ResolverIsLast(s: State, t: Client)
    requires Enabled(s, Act(t)) && s.client[t].Resolving?
    ensures FinisherLast(Next(s, Act(t)).groups, Next(s, Act(t)).client[t])
  {
    hide BuildAllowSet, Filter;
  }

  /** The step resolves a listing for the group. */
  predicate Resolves(s: State, step: Step, g: nat)
    requires Enabled(s, step)
  {
    step.Act? && s.client[step.who].Resolving? && s.client[step.who].group == g && s.client[step.who].result.Ok?
  }

  /** A group's listings change only when one is resolved for it. */
  lemma ListingsStand(s: State, step: Step, g: nat)
    requires Enabled(s, step) && g < |s.groups| == |s.conf|
    requires !Resolves(s, step, g)
    ensures g < |Next(s, step).groups| && Next(s, step).groups[g].resolved == s.groups[g].resolved
  {
    GroupMoves(s, step, g);
    hide Next, BuildAllowSet;
  }

  lemma StepKeepsFinishers(s: State, step: Step)
    requires Inv(s) && FinishersLast(s) && Enabled(s, step)
    ensures FinishersLast(Next(s, step))
  {
    var s' := Next(s, step);
    hide Inv, Next, FinisherLast;
    OthersStand(s, step);
    forall t | t in s'.client && s'.client[t].Finishing?
      ensures FinisherLast(s'.groups, s'.client[t])
    {
      if step == Act(t) {
        if s.client[t].Resolving? { ResolverIsLast(s, t); } else { OthersDoNotFinish(s, t); }
      } else {
        ItsRefreshIsOpen(s, t);
        if step.Act? && s.client[step.who].Resolving? && s.client[step.who].group == s.client[t].group {
          OneFinisher(s, t, step.who);
        }
        ListingsStand(s, step, s.client[t].group);
        SameListings(s.groups, s'.groups, s.client[t]);
      }
    }
  }

  lemma SameListings(groups: seq<Group>, groups': seq<Group>, pc: Pc)
    requires FinisherLast(groups, pc) && pc.group < |groups| && pc.group < |groups'|
    requires groups'[pc.group].resolved == groups[pc.group].resolved
    ensures FinisherLast(groups', pc)
  {
  }

  lemma {:induction false} RunKeepsFinishers(s: State, steps: seq<Step>)
    requires Inv(s) && FinishersLast(s) && IsRun(s, steps)
    ensures FinishersLast(Exec(s, steps))
    decreases |steps|
  {
    if steps != [] {
      StepKeepsFinishers(s, steps[0]);
      StepKeepsInv(s, steps[0]);
      hide Inv, FinishersLast;
      RunKeepsFinishers(Next(s, steps[0]), steps[1..]);
    }
  }

  // ------------------------------------------------------------------ what is resolved since is recent

  /** Every refresh of the group that was open at `s0`, or is younger, ends with something from then on. */
  ghost predicate AllTracked(s0: State, s: State, g: nat) {
    forall r: nat | r < |s.refreshes| && s.refreshes[r].group == g && OpenSince(s0, r) ::
      Tracked(s, r, |s0.cache.completions|)
  }

  /** A refresh of the group that was open at `s0`, or is younger, has resolved a listing. */
  ghost predicate ResolvedSince(s0: State, s: State, g: nat) {
    || FinishedSince(s0, s, g, None)
    || exists t :: t in s.client && FinishingSince(s0, g, s.client[t])
  }

  predicate FinishingSince(s0: State, g: nat, pc: Pc) {
    pc.Finishing? && pc.group == g && pc.result.Ok? && OpenSince(s0, pc.refresh)
  }

  /** The listing resolved last is what the cache stood for at some time from `s0` on. */
  ghost predicate LastIsCurrent(s0: State, s: State, g: nat) {
    && g < |s.groups| && s.groups[g].resolved != []
    && InWindow(s.cache.completions, |s0.cache.completions|, Ok(s.groups[g].resolved[|s.groups[g].resolved| - 1]))
  }

  lemma StepIsResolvedSince(s0: State, s: State, step: Step, g: nat)
    requires Inv(s) && Enabled(s, step) && ResolvedSince(s0, Next(s, step), g)
    requires !Resolves(s, step, g)
    ensures ResolvedSince(s0, s, g)
  {
    var s' := Next(s, step);
    OthersStand(s, step);
    RefreshesFollow(s, step);
    hide Inv, Next;
    if FinishedSince(s0, s', g, None) {
      var r: nat :| FinishedAs(s0, s', g, r, None);
      if r < |s.refreshes| && s'.refreshes[r] == s.refreshes[r] {
        assert FinishedAs(s0, s, g, r, None);
      } else {
        FinishesOk(s, step.who);
        assert FinishingSince(s0, g, s.client[step.who]);
      }
    } else {
      var t :| t in s'.client && FinishingSince(s0, g, s'.client[t]);
      if step == Act(t) { StartsFinishing(s, t); }
      assert t in s.client && FinishingSince(s0, g, s.client[t]);
    }
  }

  /** A refresh finished without an error had a listing to finish with. */
  lemma FinishesOk(s: State, t: Client)
    requires Inv(s) && Enabled(s, Act(t)) && s.client[t].Finishing?
    ensures var pc, s' := s.client[t], Next(s, Act(t));
            && pc.refresh < |s.refreshes| == |s'.refreshes|
            && s'.refreshes[pc.refresh].group == pc.group
            && (s'.refreshes[pc.refresh].err == None ==> pc.result.Ok?)
  {
    FinishingIsOpen(s, t);
    hide Inv, BuildAllowSet, Filter;
  }

  lemma StartsFinishing(s: State, t: Client)
    requires Enabled(s, Act(t)) && Next(s, Act(t)).client[t].Finishing?
    ensures s.client[t].Resolving? && Next(s, Act(t)).client[t].group == s.client[t].group
    ensures Next(s, Act(t)).client[t].result == s.client[t].result
  {
    if !s.client[t].Resolving? { OthersDoNotFinish(s, t); }
    hide BuildAllowSet, Filter;
  }

  lemma ResolvesCurrent(s0: State, s: State, t: Client, g: nat)
    requires Inv(s) && Later(s0, s) && AllTracked(s0, s, g) && Enabled(s, Act(t))
    requires s.client[t].Resolving? && s.client[t].group == g && s.client[t].result.Ok?
    ensures LastIsCurrent(s0, Next(s, Act(t)), g)
  {
    var pc := s.client[t];
    ItsRefreshIsOpen(s, t);
    assert Tracked(s, pc.refresh, |s0.cache.completions|);
    assert PcWindow(s.cache, |s0.cache.completions|, pc);
    hide Inv, InWindow, BuildAllowSet, Filter, AllTracked, Tracked, Owns;
  }

  lemma OlderWindow(h: History, from: nat, from': nat, result: Listing)
    requires from <= from' && InWindow(h, from', result)
    ensures InWindow(h, from, result)
  {
    var n :| from' <= n <= |h| && LatestAfter(h, n, result);
  }

  lemma OlderTracked(s: State, r: nat, from: nat, from': nat)
    requires from <= from' && Tracked(s, r, from')
    ensures Tracked(s, r, from)
  {
    hide InWindow, Owns;
    forall h, result | InWindow(h, from', result)
      ensures InWindow(h, from, result)
    {
      OlderWindow(h, from, from', result);
    }
  }

  lemma StepKeepsAllTracked(s0: State, s: State, step: Step, g: nat)
    requires Inv(s) && Later(s0, s) && s.cache.ttl > 0 && |s0.cache.completions| <= |s.cache.completions|
    requires AllTracked(s0, s, g) && Enabled(s, step)
    ensures AllTracked(s0, Next(s, step), g)
  {
    var s', from := Next(s, step), |s0.cache.completions|;
    RefreshesStay(s, step);
    AtMostOneCreated(s, step);
    hide Inv, Next, Tracked;
    forall r: nat | r < |s'.refreshes| && s'.refreshes[r].group == g && OpenSince(s0, r)
      ensures Tracked(s', r, from)
    {
      if r < |s.refreshes| {
        assert Tracked(s, r, from);
        StepKeepsTracked(s, step, r, from);
      } else {
        CreatedIsTracked(s, step, r);
        OlderTracked(s', r, from, |s.cache.completions|);
      }
    }
  }

  lemma AtMostOneCreated(s: State, step: Step)
    requires Enabled(s, step)
    ensures |Next(s, step).refreshes| <= |s.refreshes| + 1
  {
    hide BuildAllowSet, Filter, Cache.Next, Woken, Dispatch;
  }

  /** At every point of a run from `s0`. */
  ghost predicate RecentSince(s0: State, s: State, g: nat) {
    && Later(s0, s) && s.cache.ttl > 0 && s0.cache.completions <= s.cache.completions && g < |s0.groups| == |s0.conf|
    && AllTracked(s0, s, g) && (ResolvedSince(s0, s, g) ==> LastIsCurrent(s0, s, g))
  }

  lemma LastStaysCurrent(s0: State, s: State, step: Step, g: nat)
    requires Inv(s) && Later(s0, s) && AllTracked(s0, s, g) && Enabled(s, step) && g < |s.groups| == |s.conf|
    requires s0.cache.completions <= s.cache.completions
    requires ResolvedSince(s0, s, g) ==> LastIsCurrent(s0, s, g)
    ensures ResolvedSince(s0, Next(s, step), g) ==> LastIsCurrent(s0, Next(s, step), g)
  {
    var s' := Next(s, step);
    hide Inv, Later, AllTracked, Next, InWindow, ResolvedSince;
    if Resolves(s, step, g) {
      ResolvesCurrent(s0, s, step.who, g);
    } else if ResolvedSince(s0, s', g) {
      StepIsResolvedSince(s0, s, step, g);
      ListingsStand(s, step, g);
      HistoryGrows(s, step);
      var resolved := s.groups[g].resolved;
      WindowGrows(s.cache.completions, s'.cache.completions, |s0.cache.completions|, Ok(resolved[|resolved| - 1]));
    }
  }

  lemma StepIsRecent(s0: State, s: State, step: Step, g: nat)
    requires Inv(s) && RecentSince(s0, s, g) && Enabled(s, step)
    ensures RecentSince(s0, Next(s, step), g)
  {
    hide Inv, AllTracked, Next, ResolvedSince, LastIsCurrent;
    StepIsLater(s, step);
    LaterOn(s0, s, Next(s, step));
    HistoryGrows(s, step);
    GroupsAreNamed(s);
    StepKeepsAllTracked(s0, s, step, g);
    LastStaysCurrent(s0, s, step, g);
    TtlStays(s, step);
  }

  lemma GroupsAreNamed(s: State)
    requires Inv(s)
    ensures |s.groups| == |s.conf|
  {
  }

  // ------------------------------------------------------------------ from the request on

  /** Whoever is to finish an open refresh of the group has nothing yet, or what the cache stands for now. */
  ghost predicate JoinsCurrent(s: State, g: nat) {
    forall r: nat, owner | OpenFor(s, r, owner) && s.refreshes[r].group == g :: UpToDate(s.cache, s.client[owner])
  }

  lemma RecentFromTheStart(s: State, g: nat)
    requires Inv(s) && CallsExist(s) && FinishersLast(s) && s.cache.ttl > 0 && g < |s.conf| && JoinsCurrent(s, g)
    ensures RecentSince(s, s, g)
  {
    forall r: nat | r < |s.refreshes| && s.refreshes[r].group == g && OpenSince(s, r)
      ensures Tracked(s, r, |s.cache.completions|)
    {
      assert OpenFor(s, r, s.owner[r]);
      UpToDateIsTracked(s, r, s.owner[r]);
    }
    if ResolvedSince(s, s, g) {
      assert !FinishedSince(s, s, g, None);
      var t :| t in s.client && FinishingSince(s, g, s.client[t]);
      ItsRefreshIsOpen(s, t);
      assert OpenFor(s, s.client[t].refresh, t);
      NowInWindow(s.cache.completions, |s.cache.completions|);
      assert FinisherLast(s.groups, s.client[t]);
    }
  }

  /** The key is not selected by a listing the cache stood for at some time from `s0` on. */
  ghost predicate RefusedCurrently(s0: State, s: State, g: nat, key: Key) {
    exists n :: |s0.cache.completions| <= n <= |s.cache.completions| && UnselectedAfter(s, g, key, n)
  }

  ghost predicate UnselectedAfter(s: State, g: nat, key: Key, n: nat) {
    && g < |s.conf| && 0 < n <= |s.cache.completions| && Cache.Latest(s.cache.completions[..n]).Ok?
    && !Selects(Cache.Latest(s.cache.completions[..n]).value, s.conf[g], key)
  }

  /** A client's request to sign `key`, on its way to a recent refusal. */
  ghost predicate JudgedCurrently(s0: State, s: State, g: nat, key: Key, pc: Pc) {
    pc.Replied? && pc.reply.KeyNotInGroup? ==> RefusedCurrently(s0, s, g, key)
  }

  lemma LookIsCurrent(s0: State, s: State, g: nat, key: Key)
    requires Inv(s) && RecentSince(s0, s, g) && FinishedSince(s0, s, g, None) && !Allows(s.groups[g], key)
    ensures RefusedCurrently(s0, s, g, key)
  {
    GroupsAreNamed(s);
    assert g < |s.conf| by { hide Inv; }
    assert GroupOk(s.log, s.conf[g], s.groups[g]);
    hide Inv, GroupOk, Later, AllTracked, Selects;
    GroupAllows(s.log, s.conf[g], s.groups[g], key);
    var last := s.groups[g].resolved[|s.groups[g].resolved| - 1];
    assert ResolvedSince(s0, s, g);
    var n :| |s0.cache.completions| <= n <= |s.cache.completions| && LatestAfter(s.cache.completions, n, Ok(last));
    assert UnselectedAfter(s, g, key, n);
  }

  lemma RefusalLater(s0: State, s: State, s': State, g: nat, key: Key)
    requires RefusedCurrently(s0, s, g, key) && s.cache.completions <= s'.cache.completions && s'.conf == s.conf
    ensures RefusedCurrently(s0, s', g, key)
  {
    var n :| |s0.cache.completions| <= n <= |s.cache.completions| && UnselectedAfter(s, g, key, n);
    assert s'.cache.completions[..n] == s.cache.completions[..n];
    assert UnselectedAfter(s', g, key, n);
  }

  /** Only the last look refuses. */
  lemma RefusesAtLast(s: State, t: Client)
    requires Enabled(s, Act(t)) && Next(s, Act(t)).client[t].Replied? && Next(s, Act(t)).client[t].reply.KeyNotInGroup?
    ensures s.client[t].LastCheck? && !Allows(s.groups[s.client[t].group], s.client[t].key)
    ensures Next(s, Act(t)).cache == s.cache && Next(s, Act(t)).conf == s.conf
  {
    hide BuildAllowSet, Filter, Cache.Next, Allows;
  }

  lemma StepIsJudged(s0: State, s: State, step: Step, t: Client, g: nat, request: Request, key: Key)
    requires Inv(s) && RecentSince(s0, s, g) && Enabled(s, step) && (exists flags :: AsksToSign(request, key, flags))
    requires t in s.client && Underway(s0, s, g, request, s.client[t]) && JudgedCurrently(s0, s, g, key, s.client[t])
    ensures t in Next(s, step).client && JudgedCurrently(s0, Next(s, step), g, key, Next(s, step).client[t])
  {
    var s' := Next(s, step);
    hide Inv, Next, Enabled, RecentSince, RefusedCurrently, FinishedSince, Answers;
    OthersStand(s, step);
    HistoryGrows(s, step);
    LogOnlyGrows(s, step);
    var pc' := s'.client[t];
    if pc'.Replied? && pc'.reply.KeyNotInGroup? {
      if step == Act(t) {
        RefusesAtLast(s, t);
        LookIsCurrent(s0, s, g, key);
      }
      RefusalLater(s0, s, s', g, key);
    }
  }

  lemma {:induction false} RunIsJudged(
      s0: State, s: State, steps: seq<Step>, t: Client, g: nat, request: Request, key: Key)
    requires Inv(s) && ResolvedFirst(s) && RecentSince(s0, s, g) && IsRun(s, steps)
    requires exists flags :: AsksToSign(request, key, flags)
    requires t in s.client && Underway(s0, s, g, request, s.client[t]) && JudgedCurrently(s0, s, g, key, s.client[t])
    ensures t in Exec(s, steps).client && JudgedCurrently(s0, Exec(s, steps), g, key, Exec(s, steps).client[t])
    decreases |steps|
  {
    if steps != [] {
      assert Later(s0, s) && g < |s0.groups| == |s0.conf|;
      hide Inv, ResolvedFirst, Later, RecentSince, Underway, JudgedCurrently, Enabled, Next, AsksToSign;
      StepIsJudged(s0, s, steps[0], t, g, request, key);
      StepUnderway(s0, s, steps[0], t, g, request);
      StepIsRecent(s0, s, steps[0], g);
      StepKeepsInv(s, steps[0]);
      StepKeepsResolvedFirst(s, steps[0]);
      RunIsJudged(s0, Next(s, steps[0]), steps[1..], t, g, request, key);
    }
  }

  lemma ReachableFinishersLast(s: State)
    requires Reachable(s)
    ensures FinishersLast(s)
  {
    var conf, ttl, steps :| IsRun(Init(conf, ttl), steps) && Exec(Init(conf, ttl), steps) == s;
    InitInv(conf, ttl);
    assert FinishersLast(Init(conf, ttl));
    hide Inv, FinishersLast;
    RunKeepsFinishers(Init(conf, ttl), steps);
  }

  lemma ArrivalIsRecent(s0: State, t: Client, g: nat, request: Request)
    requires Inv(s0) && RecentSince(s0, s0, g) && Enabled(s0, Arrive(t, g, request))
    ensures RecentSince(s0, Next(s0, Arrive(t, g, request)), g)
  {
    StepIsRecent(s0, s0, Arrive(t, g, request), g);
  }

  /**
   With a ttl, a sign is refused only for a key that the group does not select from the last
   successful listing as of some time since the request arrived, if every refresh of the group that
   was open then was up to date.
   */
  lemma RefusalIsCurrent(s0: State, t: Client, g: nat, request: Request, key: Key, steps: seq<Step>)
    requires Reachable(s0) && s0.cache.ttl > 0 && JoinsCurrent(s0, g)
    requires exists flags :: AsksToSign(request, key, flags)
    requires Enabled(s0, Arrive(t, g, request)) && IsRun(Next(s0, Arrive(t, g, request)), steps)
    requires var s := Exec(Next(s0, Arrive(t, g, request)), steps);
             t in s.client && s.client[t] == Replied(g, KeyNotInGroup)
    ensures RefusedCurrently(s0, Exec(Next(s0, Arrive(t, g, request)), steps), g, key)
  {
    var step := Arrive(t, g, request);
    var s1 := Next(s0, step);
    ReachableIsResolved(s0);
    ReachableCallsExist(s0);
    ReachableFinishersLast(s0);
    assert t in s1.client && s1.client[t] == Asked(g, request) && g < |s0.conf|;
    hide Reachable, ResolvedFirst, CallsExist, FinishersLast, RecentSince, JoinsCurrent, Next, Enabled, Inv, AsksToSign;
    RecentFromTheStart(s0, g);
    StepKeepsInv(s0, step);
    StepKeepsResolvedFirst(s0, step);
    ArrivalIsRecent(s0, t, g, request);
    RunIsJudged(s0, s1, steps, t, g, request, key);
  }
}
