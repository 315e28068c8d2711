/**
 How recent a group's view is: the group layer over the cache, for a positive ttl. A refresh resolves
 what the cache stood for at some time between its creation and its end.
 */
module AuthorizationFreshness {
  import opened Wrappers
  import opened Keys
  import Cache
  import CacheProperties
  import opened Authorization
  import opened AuthorizationInvariant
  import opened AuthorizationProperties

  type History = seq<Cache.Completion>

  /** The result is what the cache stood for after some number of completed lists, from `from` on. */
  ghost predicate InWindow(h: History, from: nat, result: Listing) {
    exists n :: from <= n <= |h| && LatestAfter(h, n, result)
  }

  predicate LatestAfter(h: History, n: nat, result: Listing) {
    0 < n <= |h| && result == Cache.Latest(h[..n])
  }

  function ResultOf(r: Refresh): Listing {
    if r.err.Some? then Err(r.err.value) else Ok(r.source)
  }

  ghost predicate PcWindow(c: Cache.State, from: nat, pc: Pc) {
    && (pc.Listing? ==>
          pc.call in c.call && (c.call[pc.call].Returned? ==> InWindow(c.completions, from, c.call[pc.call].result)))
    && (pc.Resolving? || pc.Finishing? ==> InWindow(c.completions, from, pc.result))
  }

  /** Who is on the way to finish refresh `r` has a result in the window, and so has `r` when it is finished. */
  ghost predicate Tracked(s: State, r: nat, from: nat) {
    && s.cache.ttl > 0 && from <= |s.cache.completions| && r < |s.refreshes|
    && (forall t | t in s.client && Owns(|s.conf|, s.client[t], r) :: PcWindow(s.cache, from, s.client[t]))
    && (s.refreshes[r].closes > 0 ==> InWindow(s.cache.completions, from, ResultOf(s.refreshes[r])))
  }

  // ------------------------------------------------------------------ the cache moves on

  lemma WindowGrows(h: History, h': History, from: nat, result: Listing)
    requires h <= h' && InWindow(h, from, result)
    ensures InWindow(h', from, result)
  {
    var n :| from <= n <= |h| && LatestAfter(h, n, result);
    assert h'[..n] == h[..n];
    assert LatestAfter(h', n, result);
  }

  lemma NowInWindow(h: History, from: nat)
    requires from <= |h| && h != []
    ensures InWindow(h, from, Cache.Latest(h))
  {
    assert h[..|h|] == h;
    assert LatestAfter(h, |h|, Cache.Latest(h));
  }

  /** A call that comes back has what the cache stands for; every other call stays where it was, or does not return. */
  lemma CacheKeepsWindow(c: Cache.State, step: Cache.Step, from: nat, pc: Pc)
    requires Cache.Inv(c) && c.ttl > 0 && Cache.Enabled(c, step) && from <= |c.completions| && PcWindow(c, from, pc)
    ensures PcWindow(Cache.Next(c, step), from, pc)
  {
    var c' := Cache.Next(c, step);
    CompletionsGrow(c, step);
    hide Cache.Inv, Cache.Next;
    if pc.Listing? {
      CallComesBack(c, step, pc.call);
      if c'.call[pc.call].Returned? {
        if c.call[pc.call].Returned? {
          WindowGrows(c.completions, c'.completions, from, c.call[pc.call].result);
        } else {
          CacheProperties.ListReturnsLatest(c, step, pc.call);
          NowInWindow(c'.completions, from);
        }
      }
    }
    if pc.Resolving? || pc.Finishing? { WindowGrows(c.completions, c'.completions, from, pc.result); }
  }

  lemma CompletionsGrow(c: Cache.State, step: Cache.Step)
    requires Cache.Enabled(c, step)
    ensures c.completions <= Cache.Next(c, step).completions && Cache.Next(c, step).ttl == c.ttl
  {
    hide Cache.Cached, Cache.Completed;
  }

  lemma CallComesBack(c: Cache.State, step: Cache.Step, call: Cache.Call)
    requires Cache.Enabled(c, step) && call in c.call
    ensures call in Cache.Next(c, step).call
    ensures c.call[call].Returned? ==> Cache.Next(c, step).call[call] == c.call[call]
  {
    hide Cache.Cached, Cache.Completed;
  }

  // ------------------------------------------------------------------ the group moves on

  /** What a step does to the cache: nothing, one of its own steps, or a new call. */
  function CacheStepOf(s: State, step: Step): Option<Cache.Step>
    requires Enabled(s, step)
  {
    match step
    case CacheStep(inner) => Some(inner)
    case Act(t) => if s.client[t].Owning? then Some(Cache.Begin(NewCall(s.cache))) else None
    case Arrive(_, _, _) => None
  }

  lemma CacheFollows(s: State, step: Step)
    requires Enabled(s, step)
    ensures var inner := CacheStepOf(s, step);
            if inner.Some? then
               Cache.Enabled(s.cache, inner.value) && Next(s, step).cache == Cache.Next(s.cache, inner.value)
            else Next(s, step).cache == s.cache
  {
    hide Cache.Next, BuildAllowSet, Filter, Woken, Dispatch;
  }

  lemma TtlStays(s: State, step: Step)
    requires Enabled(s, step)
    ensures Next(s, step).cache.ttl == s.cache.ttl
  {
    hide Next, Enabled, Cache.Next;
    CacheFollows(s, step);
    var inner := CacheStepOf(s, step);
    if inner.Some? { CompletionsGrow(s.cache, inner.value); }
  }

  lemma StepKeepsWindow(s: State, step: Step, from: nat, pc: Pc)
    requires Cache.Inv(s.cache) && s.cache.ttl > 0 && Enabled(s, step) && from <= |s.cache.completions|
    requires PcWindow(s.cache, from, pc)
    ensures PcWindow(Next(s, step).cache, from, pc)
    ensures s.cache.completions <= Next(s, step).cache.completions && Next(s, step).cache.ttl == s.cache.ttl
  {
    hide Next, Enabled, Cache.Inv, PcWindow;
    CacheFollows(s, step);
    var inner := CacheStepOf(s, step);
    if inner.Some? {
      CacheKeepsWindow(s.cache, inner.value, from, pc);
      CompletionsGrow(s.cache, inner.value);
    }
  }

  /** A caller that goes on to finish the refresh takes the result along. */
  lemma MoverKeepsWindow(s: State, s': State, t: Client, r: nat, from: nat)
    requires Inv(s) && s.cache.ttl > 0 && Enabled(s, Act(t)) && r < |s.refreshes| && from <= |s.cache.completions|
    requires s' == Next(s, Act(t)) && t in s'.client
    requires Owns(|s.conf|, s.client[t], r) ==> PcWindow(s.cache, from, s.client[t])
    requires Owns(|s.conf|, s'.client[t], r)
    ensures PcWindow(s'.cache, from, s'.client[t])
  {
    hide Inv, PcOk, PcWindow, Next;
    var pc := s.client[t];
    if pc.Owning? {
      OwningMoves(s, s', t, from);
    } else if pc.Listing? || pc.Resolving? || pc.Finishing? {
      ResultTakenAlong(s, s', t, r, from);
    } else {
      NewcomerOwnsAnother(s, s', t, r);
    }
  }

  lemma OwningMoves(s: State, s': State, t: Client, from: nat)
    requires Enabled(s, Act(t)) && s.client[t].Owning? && s.cache.ttl > 0
    requires s' == Next(s, Act(t)) && t in s'.client
    ensures PcWindow(s'.cache, from, s'.client[t])
  {
  }

  lemma ResultTakenAlong(s: State, s': State, t: Client, r: nat, from: nat)
    requires Enabled(s, Act(t)) && (s.client[t].Listing? || s.client[t].Resolving? || s.client[t].Finishing?)
    requires s' == Next(s, Act(t)) && t in s'.client
    requires Owns(|s.conf|, s.client[t], r) ==> PcWindow(s.cache, from, s.client[t])
    requires Owns(|s.conf|, s'.client[t], r)
    ensures PcWindow(s'.cache, from, s'.client[t])
  {
    hide InWindow, BuildAllowSet, Filter;
  }

  /** Any other caller comes to own only a refresh it has just created. */
  lemma NewcomerOwnsAnother(s: State, s': State, t: Client, r: nat)
    requires Enabled(s, Act(t)) && r < |s.refreshes|
    requires s' == Next(s, Act(t)) && t in s'.client
    requires !s.client[t].Owning? && !s.client[t].Listing? && !s.client[t].Resolving? && !s.client[t].Finishing?
    ensures !Owns(|s.conf|, s'.client[t], r)
  {
    hide BuildAllowSet, Filter;
  }

  lemma FinisherKeepsWindow(s: State, t: Client, r: nat, from: nat)
    requires Inv(s) && Enabled(s, Act(t)) && s.client[t].Finishing? && r == s.client[t].refresh < |s.refreshes|
    requires Owns(|s.conf|, s.client[t], r) ==> PcWindow(s.cache, from, s.client[t])
    ensures r < |Next(s, Act(t)).refreshes|
    ensures InWindow(Next(s, Act(t)).cache.completions, from, ResultOf(Next(s, Act(t)).refreshes[r]))
  {
    FinishingIsOpen(s, t);
    assert PcOk(s, s.client[t]);
    assert Owns(|s.conf|, s.client[t], r);
    hide Inv, PcOk, InWindow, BuildAllowSet, Filter;
  }

  lemma StepKeepsTracked(s: State, step: Step, r: nat, from: nat)
    requires Inv(s) && Tracked(s, r, from) && Enabled(s, step)
    ensures Tracked(Next(s, step), r, from)
  {
    var s' := Next(s, step);
    hide Inv, Next, PcWindow, InWindow, Owns;
    assert Cache.Inv(s.cache) by { CacheSound(s); }
    RefreshesFollow(s, step);
    NothingToKeep(s.cache, from);
    StepKeepsWindow(s, step, from, Joining(0));
    OwnersFollow(s, step, r);
    forall t | t in s'.client && Owns(|s'.conf|, s'.client[t], r)
      ensures PcWindow(s'.cache, from, s'.client[t])
    {
      if step.Act? && step.who == t {
        MoverKeepsWindow(s, s', t, r, from);
      } else {
        StepKeepsWindow(s, step, from, s.client[t]);
      }
    }
    if s'.refreshes[r].closes > 0 {
      if s'.refreshes[r] == s.refreshes[r] {
        WindowGrows(s.cache.completions, s'.cache.completions, from, ResultOf(s.refreshes[r]));
      } else {
        FinisherKeepsWindow(s, step.who, r, from);
      }
    }
  }

  lemma CacheSound(s: State)
    requires Inv(s)
    ensures Cache.Inv(s.cache)
  {
  }

  lemma NothingToKeep(c: Cache.State, from: nat)
    ensures PcWindow(c, from, Joining(0))
  {
  }

  /** Who owns a refresh after a step moved in it, or owned it before. */
  lemma OwnersFollow(s: State, step: Step, r: nat)
    requires Enabled(s, step)
    ensures var s' := Next(s, step);
            && s'.conf == s.conf
            && (step.Act? ==> step.who in s.client)
            && forall t | t in s'.client && Owns(|s'.conf|, s'.client[t], r) && !(step.Act? && step.who == t) ::
                 t in s.client && s'.client[t] == s.client[t]
  {
    hide BuildAllowSet, Filter, Cache.Next, Woken, Dispatch;
  }

  lemma {:induction false} RunKeepsTracked(s: State, steps: seq<Step>, r: nat, from: nat)
    requires Inv(s) && Tracked(s, r, from) && IsRun(s, steps)
    ensures Tracked(Exec(s, steps), r, from)
    decreases |steps|
  {
    if steps != [] {
      StepKeepsTracked(s, steps[0], r, from);
      StepKeepsInv(s, steps[0]);
      hide Inv, Tracked;
      RunKeepsTracked(Next(s, steps[0]), steps[1..], r, from);
    }
  }

  // ------------------------------------------------------------------ what a refresh resolves

  /** The step creates refresh `r`. */
  predicate Creates(s: State, step: Step, r: nat)
    requires Enabled(s, step)
  {
    r == |s.refreshes| < |Next(s, step).refreshes|
  }

  lemma CreatedIsTracked(s: State, step: Step, r: nat)
    requires Inv(s) && s.cache.ttl > 0 && Enabled(s, step) && Creates(s, step, r)
    ensures Tracked(Next(s, step), r, |s.cache.completions|)
  {
    var s' := Next(s, step);
    RefreshesFollow(s, step);
    NewRefreshAlone(s, step);
    hide BuildAllowSet, Filter, InWindow, Cache.Inv, Cache.Next;
    assert forall t | t in s.client :: !Owns(|s.conf|, s.client[t], r);
    OwnersFollow(s, step, r);
    hide Inv, Owns, Next;
  }

  lemma NewRefreshAlone(s: State, step: Step)
    requires Enabled(s, step) && |Next(s, step).refreshes| > |s.refreshes|
    ensures Next(s, step).cache == s.cache && Next(s, step).conf == s.conf
    ensures step.Act? && Next(s, step).client[step.who].Owning?
  {
    hide BuildAllowSet, Filter, Woken, Dispatch;
  }

  /**
   A finished refresh has resolved, or failed with, what the cache stood for at some time since the
   refresh was created.
   */
  lemma RefreshIsFresh(s0: State, step: Step, steps: seq<Step>, r: nat)
    requires Reachable(s0) && s0.cache.ttl > 0 && Enabled(s0, step) && Creates(s0, step, r)
    requires IsRun(Next(s0, step), steps)
    ensures var s := Exec(Next(s0, step), steps);
            && r < |s.refreshes|
            && (s.refreshes[r].closes > 0 ==>
                  InWindow(s.cache.completions, |s0.cache.completions|, ResultOf(s.refreshes[r])))
  {
    ReachableHasInv(s0);
    CreatedIsTracked(s0, step, r);
    StepKeepsInv(s0, step);
    hide Inv;
    RunKeepsTracked(Next(s0, step), steps, r, |s0.cache.completions|);
  }

  lemma TrackedMeans(s: State, r: nat, from: nat)
    requires Tracked(s, r, from)
    ensures r < |s.refreshes|
    ensures s.refreshes[r].closes > 0 ==> InWindow(s.cache.completions, from, ResultOf(s.refreshes[r]))
  {
  }

  /** A claimed startup refresh counts from the beginning. */
  lemma StartupIsFresh(conf: seq<seq<Matcher>>, ttl: int, steps: seq<Step>, g: nat)
    requires ttl > 0 && g < |conf| && IsRun(Init(conf, ttl), steps)
    ensures var s := Exec(Init(conf, ttl), steps);
            && g < |s.refreshes|
            && (s.refreshes[g].closes > 0 ==> InWindow(s.cache.completions, 0, ResultOf(s.refreshes[g])))
  {
    InitInv(conf, ttl);
    assert Tracked(Init(conf, ttl), g, 0);
    hide Inv, Tracked;
    RunKeepsTracked(Init(conf, ttl), steps, g, 0);
    TrackedMeans(Exec(Init(conf, ttl), steps), g, 0);
  }

  // ------------------------------------------------------------------ what a client gets

  /** The view is the group's filtered view of the listing the cache stood for after `n` completed lists. */
  ghost predicate ViewAfter(s: State, g: nat, n: nat, view: seq<Key>) {
    && g < |s.conf| && 0 < n <= |s.cache.completions|
    && Cache.Latest(s.cache.completions[..n]).Ok?
    && view == Filter(Cache.Latest(s.cache.completions[..n]).value, s.conf[g])
  }

  /**
   A list answered through a refresh shows the group's filtered view of the last successful listing
   as of some time since that refresh was created: since it asked, for the client that created it.
   */
  lemma ListIsLatestFiltered(s0: State, step: Step, steps: seq<Step>, r: nat, t: Client)
    requires Reachable(s0) && s0.cache.ttl > 0 && Enabled(s0, step) && Creates(s0, step, r)
    requires IsRun(Next(s0, step), steps)
    requires var s := Exec(Next(s0, step), steps);
             Enabled(s, Act(t)) && s.client[t].Waiting? && s.client[t].refresh == r && s.client[t].after.Replies?
    ensures var s := Exec(Next(s0, step), steps);
            var pc' := Next(s, Act(t)).client[t];
            && pc'.Replied?
            && (pc'.reply.Identities? ==>
                  exists n :: |s0.cache.completions| <= n && ViewAfter(s, s.client[t].group, n, pc'.reply.keys))
  {
    ReachableHasInv(s0);
    RefreshIsFresh(s0, step, steps, r);
    StepKeepsInv(s0, step);
    RunKeepsInv(Next(s0, step), steps);
    var s := Exec(Next(s0, step), steps);
    WakesWithView(s, t, |s0.cache.completions|);
  }

  lemma WakesWithView(s: State, t: Client, from: nat)
    requires Inv(s) && Enabled(s, Act(t)) && s.client[t].Waiting? && s.client[t].after.Replies?
    requires s.client[t].refresh < |s.refreshes|
    requires InWindow(s.cache.completions, from, ResultOf(s.refreshes[s.client[t].refresh]))
    ensures var pc' := Next(s, Act(t)).client[t];
            && pc'.Replied?
            && (pc'.reply.Identities? ==> exists n :: from <= n && ViewAfter(s, s.client[t].group, n, pc'.reply.keys))
  {
    var f := s.refreshes[s.client[t].refresh];
    assert PcOk(s, s.client[t]) && RefreshOk(s, f);
    hide Inv, PcOk, Filter, BuildAllowSet, Cache.Latest, Cache.Next, Dispatch;
    var n :| from <= n <= |s.cache.completions| && LatestAfter(s.cache.completions, n, ResultOf(f));
    if f.err == None {
      assert ViewAfter(s, s.client[t].group, n, f.visible);
    }
  }

  /** After the first success of the cache no refresh created from then on ends with an error. */
  lemma NoErrorAfterSuccess(s0: State, step: Step, steps: seq<Step>, r: nat)
    requires Reachable(s0) && s0.cache.ttl > 0 && Enabled(s0, step) && Creates(s0, step, r)
    requires Cache.AnyOk(s0.cache.completions) && IsRun(Next(s0, step), steps)
    ensures var s := Exec(Next(s0, step), steps);
            r < |s.refreshes| && (s.refreshes[r].closes > 0 ==> s.refreshes[r].err == None)
  {
    RefreshIsFresh(s0, step, steps, r);
    var s := Exec(Next(s0, step), steps);
    HistoryOverRun(s0, step, steps);
    hide Reachable, Enabled, Next, Exec, IsRun, InWindow;
    if s.refreshes[r].closes > 0 {
      WindowIsOk(s0.cache.completions, s.cache.completions, ResultOf(s.refreshes[r]));
    }
  }

  lemma WindowIsOk(h: History, h': History, result: Listing)
    requires h <= h' && Cache.AnyOk(h) && InWindow(h', |h|, result)
    ensures result.Ok?
  {
    var n :| |h| <= n <= |h'| && LatestAfter(h', n, result);
    var i :| 0 <= i < |h| && h[i].result.Ok?;
    assert h'[..n][i].result.Ok?;
    Cache.LatestOk(h'[..n]);
  }

  lemma HistoryOverRun(s0: State, step: Step, steps: seq<Step>)
    requires Enabled(s0, step) && IsRun(Next(s0, step), steps)
    ensures s0.cache.completions <= Exec(Next(s0, step), steps).cache.completions
  {
    HistoryGrows(s0, step);
    HistoryOnlyGrows(Next(s0, step), steps);
  }

  lemma HistoryGrows(s: State, step: Step)
    requires Enabled(s, step)
    ensures s.cache.completions <= Next(s, step).cache.completions
  {
    hide Next, Enabled, Cache.Next;
    CacheFollows(s, step);
    var inner := CacheStepOf(s, step);
    if inner.Some? { CompletionsGrow(s.cache, inner.value); }
  }

  lemma {:induction false} HistoryOnlyGrows(s: State, steps: seq<Step>)
    requires IsRun(s, steps)
    ensures s.cache.completions <= Exec(s, steps).cache.completions
    decreases |steps|
  {
    if steps != [] {
      HistoryGrows(s, steps[0]);
      HistoryOnlyGrows(Next(s, steps[0]), steps[1..]);
    }
  }

  // ------------------------------------------------------------------ but not since a joiner asked

  ghost predicate Leads(s: State, t: State) {
    exists steps :: IsRun(s, steps) && Exec(s, steps) == t
  }

  lemma LeadsNowhere(s: State)
    ensures Leads(s, s)
  {
    assert IsRun(s, []) && Exec(s, []) == s;
  }

  lemma LeadsOn(s: State, t: State, step: Step)
    requires Leads(s, t) && Enabled(t, step)
    ensures Leads(s, Next(t, step))
  {
    var steps :| IsRun(s, steps) && Exec(s, steps) == t;
    RunsOn(s, steps, step);
  }

  lemma {:induction false} RunsOn(s: State, steps: seq<Step>, last: Step)
    requires IsRun(s, steps) && Enabled(Exec(s, steps), last)
    ensures IsRun(s, steps + [last]) && Exec(s, steps + [last]) == Next(Exec(s, steps), last)
    decreases |steps|
  {
    hide Enabled, Next;
    var all := steps + [last];
    if steps == [] {
      assert all[1..] == [];
      var t := Next(s, last);
      assert IsRun(t, []) && Exec(t, []) == t;
    } else {
      assert all[1..] == steps[1..] + [last];
      RunsOn(Next(s, steps[0]), steps[1..], last);
    }
  }

  /** A call that finds the cache expired and idle lists upstream. */
  lemma CacheLists(s: State, t: State, call: Cache.Call, keys: seq<Key>) returns (t': State)
    requires Leads(s, t) && call in t.cache.call && t.cache.call[call] == Cache.Probe(false)
    requires t.cache.now >= t.cache.entry.expiresAt && t.cache.entry.inFlight == None
    ensures Leads(s, t') && t' == t.(cache := t'.cache, log := t'.log)
    ensures t'.cache.call == t.cache.call[call := Cache.Returned(Ok(keys))]
    ensures t'.cache.completions == t.cache.completions + [Cache.Completion(t.cache.now, Ok(keys))]
    ensures t'.cache.ttl == t.cache.ttl && t'.cache.now == t.cache.now
    ensures t'.cache.entry.expiresAt == t.cache.now + t.cache.ttl && t'.cache.entry.inFlight == None
  {
    hide Leads;
    var act, answer := CacheStep(Cache.Act(call)), CacheStep(Cache.Answer(call, Ok(keys)));
    LeadsOn(s, t, act);
    var t1 := Next(t, act);
    assert t1.cache.call[call].Claimed?;
    LeadsOn(s, t1, act);
    var t2 := Next(t1, act);
    LeadsOn(s, t2, answer);
    var t3 := Next(t2, answer);
    LeadsOn(s, t3, act);
    t' := Next(t3, act);
    assert t'.cache.call == t.cache.call[call := Cache.Returned(Ok(keys))];
  }

  const ALL: Matcher := (k: Key) => true
  const TWO_GROUPS := [[ALL], [ALL]]
  const EARLY := Key("early", "")
  const LATE := Key("late", "")

  /** The first group's startup refresh is finished, and the second's is about to be, with what upstream had early. */
  ghost predicate HalfStarted(s: State) {
    && s.conf == TWO_GROUPS && s.cache.ttl == 1 && s.client == map[STARTUP := Resolving(1, 1, Ok([EARLY]), NextGroup)]
    && |s.groups| == 2 && s.groups[0].inFlight == None && s.groups[1].inFlight == Some(1)
    && |s.refreshes| == 2 && s.refreshes[1].closes == 0 && s.refreshes[1].err == None
    && s.cache.call == map[0 := Cache.Returned(Ok([EARLY]))] && s.cache.entry.inFlight == None
    && s.cache.entry.expiresAt == s.cache.now + 1 && |s.cache.completions| == 1
  }

  lemma StartsHalf() returns (s: State)
    ensures Leads(Init(TWO_GROUPS, 1), s) && HalfStarted(s)
  {
    hide Leads, BuildAllowSet, Filter;
    var s0 := Init(TWO_GROUPS, 1);
    LeadsNowhere(s0);
    LeadsOn(s0, s0, Act(STARTUP));
    var s1 := Next(s0, Act(STARTUP));
    assert s1.cache.call == map[0 := Cache.Probe(false)];
    var s2 := CacheLists(s0, s1, 0, [EARLY]);
    LeadsOn(s0, s2, Act(STARTUP));
    var s3 := Next(s2, Act(STARTUP));
    LeadsOn(s0, s3, Act(STARTUP));
    var s4 := Next(s3, Act(STARTUP));
    LeadsOn(s0, s4, Act(STARTUP));
    s := Next(s4, Act(STARTUP));
  }

  /** A client of the first group has made upstream list again. */
  ghost predicate ListedAgain(s: State) {
    && s.conf == TWO_GROUPS && s.cache.ttl == 1
    && STARTUP in s.client && s.client[STARTUP] == Resolving(1, 1, Ok([EARLY]), NextGroup) && 2 !in s.client
    && |s.groups| == 2 && s.groups[1].inFlight == Some(1)
    && |s.refreshes| == 3 && s.refreshes[1].closes == 0 && s.refreshes[1].err == None
    && |s.cache.completions| == 2 && s.cache.completions[1].result == Ok([LATE])
  }

  lemma AsksAgain(start: State, s: State) returns (s': State)
    requires Leads(start, s) && HalfStarted(s)
    ensures Leads(start, s') && s' == s.(cache := s'.cache, client := s.client[1 := Joining(0)])
    ensures s'.cache == s.cache.(now := s.cache.now + 1)
  {
    hide Leads, BuildAllowSet, Filter;
    LeadsOn(start, s, CacheStep(Cache.Tick(1)));
    var s1 := Next(s, CacheStep(Cache.Tick(1)));
    LeadsOn(start, s1, Arrive(1, 0, List));
    var s2 := Next(s1, Arrive(1, 0, List));
    LeadsOn(start, s2, Act(1));
    s' := Next(s2, Act(1));
    assert s'.client == s.client[1 := Joining(0)];
  }

  lemma ListsAgain(start: State, s: State) returns (s': State)
    requires Leads(start, s) && HalfStarted(s)
    ensures Leads(start, s') && ListedAgain(s')
  {
    hide Leads, BuildAllowSet, Filter;
    var s3 := AsksAgain(start, s);
    LeadsOn(start, s3, Act(1));
    var s4 := Next(s3, Act(1));
    assert s4.client[1] == Owning(0, 2, Replies) && |s4.cache.call| == 1;
    LeadsOn(start, s4, Act(1));
    var s5 := Next(s4, Act(1));
    s' := CacheLists(start, s5, 1, [LATE]);
  }

  /** A client of the second group asks, joins the startup refresh, and gets what it resolves. */
  lemma JoinsStale(s: State) returns (s': State)
    requires ListedAgain(s)
    ensures Enabled(s, Arrive(2, 1, List)) && Leads(Next(s, Arrive(2, 1, List)), s')
    ensures 2 in s'.client && s'.client[2] == Replied(1, Identities(Filter([EARLY], [ALL])))
  {
    hide Leads, BuildAllowSet, Filter;
    var asked := Next(s, Arrive(2, 1, List));
    LeadsNowhere(asked);
    LeadsOn(asked, asked, Act(2));
    var s1 := Next(asked, Act(2));
    LeadsOn(asked, s1, Act(2));
    var s2 := Next(s1, Act(2));
    assert s2.client[2] == Waiting(1, 1, Replies);
    LeadsOn(asked, s2, Act(STARTUP));
    var s3 := Next(s2, Act(STARTUP));
    LeadsOn(asked, s3, Act(STARTUP));
    var s4 := Next(s3, Act(STARTUP));
    LeadsOn(asked, s4, Act(2));
    s' := Next(s4, Act(2));
  }

  /**
   A client that joins a refresh can be answered with a listing older than one that was complete when
   it asked: another group made upstream list again while the refresh it joins was about to end.
   */
  lemma JoinerCanBeBehind() returns (s: State, s': State)
    ensures Reachable(s) && s.cache.ttl > 0 && Enabled(s, Arrive(2, 1, List)) && Leads(Next(s, Arrive(2, 1, List)), s')
    ensures |s.cache.completions| == 2 && Cache.Latest(s.cache.completions) == Ok([LATE])
    ensures 2 in s'.client && s'.client[2] == Replied(1, Identities([EARLY])) && EARLY != LATE
  {
    var half := StartsHalf();
    s := ListsAgain(Init(TWO_GROUPS, 1), half);
    s' := JoinsStale(s);
    assert Filter([EARLY], [ALL]) == [EARLY] by { KeepsOne(EARLY); }
    assert Reachable(s) by {
      var steps :| IsRun(Init(TWO_GROUPS, 1), steps) && Exec(Init(TWO_GROUPS, 1), steps) == s;
    }
    hide Leads, Reachable, Filter, Enabled, Next;
  }

  lemma KeepsOne(k: Key)
    ensures Filter([k], [ALL]) == [k]
  {
    assert Matching([k], ALL) == [k] + Matching([], ALL);
    assert [ALL][1..] == [];
    assert Selected([k], [ALL]) == Matching([k], ALL) + Selected([k], []);
    assert FirstOfEach([k], {}) == [k] + FirstOfEach([], {k.blob});
  }
}
