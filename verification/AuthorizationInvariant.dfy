/** The inductive invariant of the group authorization protocol, and the proof that every step keeps it. */
module AuthorizationInvariant {
  import opened Wrappers
  import opened Keys
  import Cache
  import opened Authorization

  /** Upstream has returned this listing. */
  predicate InLog(log: seq<Upstream>, keys: seq<Key>) {
    ListReturned(Ok(keys)) in log
  }

  /** The key is in the group's filtered view of a listing upstream has returned. */
  ghost predicate Justified(log: seq<Upstream>, matchers: seq<Matcher>, key: Key) {
    exists keys :: InLog(log, keys) && key.blob in BuildAllowSet(keys, matchers)
  }

  ghost predicate FilteredView(log: seq<Upstream>, matchers: seq<Matcher>, view: seq<Key>) {
    exists keys :: InLog(log, keys) && view == Filter(keys, matchers)
  }

  predicate ResultInLog(log: seq<Upstream>, result: Listing) {
    ListReturned(result) in log
  }

  ghost predicate CallInLog(log: seq<Upstream>, pc: Cache.Pc) {
    pc.Fetched? || pc.Returned? ==> ResultInLog(log, pc.result)
  }

  /** Every listing and every error in the cache was returned by upstream. */
  ghost predicate CacheOk(s: State) {
    && Cache.Inv(s.cache)
    && (forall i | 0 <= i < |s.cache.completions| :: ResultInLog(s.log, s.cache.completions[i].result))
    && (forall c | c in s.cache.call :: CallInLog(s.log, s.cache.call[c]))
    && (forall c | c in s.cache.call :: c < |s.cache.call|)
  }

  ghost predicate GroupOk(log: seq<Upstream>, matchers: seq<Matcher>, g: Group) {
    && (forall i | 0 <= i < |g.resolved| :: InLog(log, g.resolved[i]))
    && g.snapshot == if g.resolved == [] then None else Some(BuildAllowSet(g.resolved[|g.resolved| - 1], matchers))
  }

  ghost predicate GroupsOk(s: State) {
    && |s.groups| == |s.conf|
    && (forall g | 0 <= g < |s.conf| :: GroupOk(s.log, s.conf[g], s.groups[g]))
  }

  ghost predicate RefreshOk(s: State, r: Refresh) {
    && r.group < |s.conf| && r.closes <= 1
    && (r.closes == 1 && r.err == None ==> InLog(s.log, r.source) && r.visible == Filter(r.source, s.conf[r.group]))
    && (r.closes == 1 && r.err.Some? ==> ResultInLog(s.log, Err(r.err.value)))
  }

  /** A group's unfinished refresh is the one in flight, and there is no other. */
  ghost predicate Flights(s: State) {
    && |s.groups| == |s.conf|
    && (forall r | 0 <= r < |s.refreshes| :: RefreshOk(s, s.refreshes[r]))
    && (forall r | 0 <= r < |s.refreshes| && s.refreshes[r].closes == 0 ::
          s.groups[s.refreshes[r].group].inFlight == Some(r))
    && (forall g | 0 <= g < |s.groups| && s.groups[g].inFlight.Some? ::
          var r := s.groups[g].inFlight.value;
          r < |s.refreshes| && s.refreshes[r].group == g && s.refreshes[r].closes == 0)
  }

  /** The refreshes a program point is on the way to finish; the startup goroutine has one a group. */
  predicate Owns(groups: nat, pc: Pc, r: nat) {
    (pc.Owning? || pc.Listing? || pc.Resolving? || pc.Finishing?)
    && if pc.after.NextGroup? then pc.group <= r < groups else r == pc.refresh
  }

  ghost predicate Owners(s: State) {
    && |s.owner| == |s.refreshes| && |s.refreshes| >= |s.conf|
    && (forall g | 0 <= g < |s.conf| :: s.refreshes[g].group == g)
    && (forall r | 0 <= r < |s.refreshes| && s.refreshes[r].closes == 0 ::
          s.owner[r] in s.client && Owns(|s.conf|, s.client[s.owner[r]], r))
    && (forall t, r: nat {:trigger Owns(|s.conf|, s.client[t], r)} | t in s.client && Owns(|s.conf|, s.client[t], r) ::
          r < |s.refreshes| && s.owner[r] == t && s.refreshes[r].closes == 0)
  }

  ghost predicate PcOk(s: State, pc: Pc) {
    && (!pc.Replied? ==> pc.group < |s.conf|)
    && (pc.Owning? || pc.Listing? || pc.Resolving? || pc.Finishing? || pc.Waiting? ==>
          pc.refresh < |s.refreshes| && s.refreshes[pc.refresh].group == pc.group)
    && (pc.Owning? || pc.Listing? || pc.Resolving? || pc.Finishing? ==> pc.after.NextGroup? ==> pc.refresh == pc.group)
    && (pc.Waiting? ==> !pc.after.NextGroup?)
    && (pc.Resolving? || pc.Finishing? ==> ResultInLog(s.log, pc.result))
    && (pc.Forward? ==> Justified(s.log, s.conf[pc.group], pc.key))
    && (pc.Replied? && pc.reply.Identities? ==>
          pc.group < |s.conf| && FilteredView(s.log, s.conf[pc.group], pc.reply.keys))
    && (pc.Replied? && pc.reply.Failed? ==> ResultInLog(s.log, Err(pc.reply.err)))
  }

  ghost predicate PcsOk(s: State) {
    forall t | t in s.client :: PcOk(s, s.client[t])
  }

  ghost predicate EntryOk(conf: seq<seq<Matcher>>, before: seq<Upstream>, e: Upstream) {
    match e
    case ListStarted => true
    case ListReturned(_) => true
    case SignedWithFlags(g, key, _) => g < |conf| && Justified(before, conf[g], key)
    case _ => false
  }

  ghost predicate LogOk(s: State) {
    forall n | 0 <= n < |s.log| :: EntryOk(s.conf, s.log[..n], s.log[n])
  }

  ghost predicate Inv(s: State) {
    CacheOk(s) && GroupsOk(s) && Flights(s) && Owners(s) && PcsOk(s) && LogOk(s)
  }

  /** The first group's filter goes first, and the startup goroutine goes through all of them. */
  lemma InitInv(conf: seq<seq<Matcher>>, ttl: int)
    ensures Inv(Init(conf, ttl))
  {
    Cache.InitInv(ttl);
    hide Cache.Inv;
    var s := Init(conf, ttl);
    assert CacheOk(s);
    assert GroupsOk(s);
    InitOwners(conf, ttl);
    forall r | 0 <= r < |s.refreshes| ensures RefreshOk(s, s.refreshes[r]) { }
    assert Flights(s);
    assert PcsOk(s);
    assert LogOk(s);
  }

  lemma InitOwners(conf: seq<seq<Matcher>>, ttl: int)
    ensures Owners(Init(conf, ttl))
  {
    var s := Init(conf, ttl);
    forall r | 0 <= r < |s.refreshes|
      ensures s.owner[r] in s.client && Owns(|s.conf|, s.client[s.owner[r]], r)
    {
      assert s.owner[r] == STARTUP && s.client[STARTUP] == Owning(0, 0, NextGroup);
    }
    forall t, r: nat {:trigger Owns(|s.conf|, s.client[t], r)} | t in s.client && Owns(|s.conf|, s.client[t], r)
      ensures r < |s.refreshes| && s.owner[r] == t && s.refreshes[r].closes == 0
    {
      assert t == STARTUP && s.owner[r] == STARTUP;
      assert s.refreshes[r] == Refresh(r, [], None, 0, []);
    }
  }

  lemma LogOnlyGrows(s: State, step: Step)
    requires Enabled(s, step)
    ensures s.log <= Next(s, step).log && Next(s, step).conf == s.conf
  {
  }

  lemma MoreInLog(log: seq<Upstream>, log': seq<Upstream>)
    requires log <= log'
    ensures forall keys :: InLog(log, keys) ==> InLog(log', keys)
    ensures forall result :: ResultInLog(log, result) ==> ResultInLog(log', result)
  {
    assert log' == log + log'[|log|..];
  }

  // ------------------------------------------------------------------ the cache

  lemma {:induction false} LatestIsOne(h: seq<Cache.Completion>)
    requires h != []
    ensures exists i :: 0 <= i < |h| && h[i].result == Cache.Latest(h)
    decreases |h|
  {
    var last := h[|h| - 1].result;
    if last.Ok? || |h| == 1 {
      assert h[|h| - 1].result == Cache.Latest(h);
    } else {
      var front := h[..|h| - 1];
      LatestIsOne(front);
      var i :| 0 <= i < |front| && front[i].result == Cache.Latest(front);
      assert h[i].result == Cache.Latest(front);
      assert h[|h| - 1].result == last;
    }
  }

  /** What a call comes back with is the result of some completed refresh. */
  lemma ReturnIsCompletion(c: Cache.State, call: Cache.Call)
    requires Cache.Inv(c) && Cache.Enabled(c, Cache.Act(call)) && !c.call[call].Returned?
    requires Cache.Next(c, Cache.Act(call)).call[call].Returned?
    ensures var c' := Cache.Next(c, Cache.Act(call));
            exists i :: 0 <= i < |c'.completions| && c'.completions[i].result == c'.call[call].result
  {
    Cache.KeepsRefines(c, Cache.Act(call));
    var c' := Cache.Next(c, Cache.Act(call));
    LatestIsOne(c'.completions);
  }

  lemma CallStaysInLog(s: State, inner: Cache.Step, c: Cache.Call)
    requires CacheOk(s) && Enabled(s, CacheStep(inner)) && c in s.cache.call
    ensures var s' := Next(s, CacheStep(inner)); c in s'.cache.call && CallInLog(s'.log, s'.cache.call[c])
  {
    hide Cache.Inv;
    var s' := Next(s, CacheStep(inner));
    MoreInLog(s.log, s'.log);
    CompletionsInLog(s, inner);
    assert CallInLog(s.log, s.cache.call[c]);
    if inner.Act? && c == inner.call && s'.cache.call[c].Returned? && !s.cache.call[c].Returned? {
      ReturnIsCompletion(s.cache, c);
    }
  }

  lemma CacheStepKeeps(s: State, inner: Cache.Step)
    requires CacheOk(s) && Enabled(s, CacheStep(inner))
    ensures CacheOk(Next(s, CacheStep(inner)))
  {
    hide Cache.Inv;
    var s' := Next(s, CacheStep(inner));
    Cache.StepKeepsInv(s.cache, inner);
    CompletionsInLog(s, inner);
    hide CallInLog, ResultInLog;
    assert s'.cache.call.Keys == s.cache.call.Keys;
    forall c | c in s'.cache.call
      ensures CallInLog(s'.log, s'.cache.call[c]) && c < |s'.cache.call|
    {
      CallStaysInLog(s, inner, c);
      assert |s'.cache.call| == |s'.cache.call.Keys|;
    }
  }

  lemma CompletionsInLog(s: State, inner: Cache.Step)
    requires CacheOk(s) && Enabled(s, CacheStep(inner))
    ensures var s' := Next(s, CacheStep(inner));
            forall i | 0 <= i < |s'.cache.completions| :: ResultInLog(s'.log, s'.cache.completions[i].result)
  {
    hide Cache.Inv;
    MoreInLog(s.log, Next(s, CacheStep(inner)).log);
    if inner.Act? {
      assert CallInLog(s.log, s.cache.call[inner.call]);
    }
  }

  /** A fresh call joins the cache, and nothing else changes in it. */
  lemma OwningKeepsCache(s: State, t: Client)
    requires CacheOk(s) && Enabled(s, Act(t)) && s.client[t].Owning?
    ensures CacheOk(Next(s, Act(t)))
  {
    hide Cache.Inv;
    var call := NewCall(s.cache);
    var s' := Next(s, Act(t));
    Cache.StepKeepsInv(s.cache, Cache.Begin(call));
    assert s'.cache.call.Keys == s.cache.call.Keys + {call};
    assert |s'.cache.call.Keys| == |s.cache.call.Keys| + 1;
    forall c | c in s'.cache.call
      ensures CallInLog(s'.log, s'.cache.call[c])
    {
      assert c != call ==> CallInLog(s.log, s.cache.call[c]);
    }
  }

  lemma KeepsCache(s: State, step: Step)
    requires CacheOk(s) && Enabled(s, step)
    ensures CacheOk(Next(s, step))
  {
    hide Cache.Inv;
    if step.CacheStep? {
      CacheStepKeeps(s, step.inner);
    } else if step.Act? && s.client[step.who].Owning? {
      OwningKeepsCache(s, step.who);
    } else {
      var s' := Next(s, step);
      LogOnlyGrows(s, step);
      MoreInLog(s.log, s'.log);
      assert s'.cache == s.cache;
      forall c | c in s'.cache.call
        ensures CallInLog(s'.log, s'.cache.call[c])
      {
        assert CallInLog(s.log, s.cache.call[c]);
      }
    }
  }

  // ------------------------------------------------------------------ groups and refreshes

  lemma GroupOkGrows(log: seq<Upstream>, log': seq<Upstream>, matchers: seq<Matcher>, g: Group)
    requires log <= log' && GroupOk(log, matchers, g)
    ensures GroupOk(log', matchers, g)
  {
    MoreInLog(log, log');
  }

  lemma PublishedOk(log: seq<Upstream>, matchers: seq<Matcher>, g: Group, listing: seq<Key>)
    requires GroupOk(log, matchers, g) && InLog(log, listing)
    ensures GroupOk(log, matchers, Published(g, listing, matchers))
  {
    hide BuildAllowSet;
  }

  lemma FlightsFree(log: seq<Upstream>, matchers: seq<Matcher>, g: Group, inFlight: Option<nat>)
    requires GroupOk(log, matchers, g)
    ensures GroupOk(log, matchers, g.(inFlight := inFlight))
  {
    hide BuildAllowSet;
  }

  /** What a step makes of group `g`. */
  lemma GroupMoves(s: State, step: Step, g: nat)
    requires Enabled(s, step) && g < |s.groups| == |s.conf|
    ensures var g' := Next(s, step).groups[g];
            || g' == s.groups[g] || g' == s.groups[g].(inFlight := g'.inFlight)
            || (step.Act? && s.client[step.who].Resolving? && s.client[step.who].result.Ok?
                && s.client[step.who].group == g
                && g' == Published(s.groups[g], s.client[step.who].result.value, s.conf[g]))
    ensures |Next(s, step).groups| == |s.groups|
  {
    hide Published;
  }

  lemma KeepsGroups(s: State, step: Step)
    requires GroupsOk(s) && PcsOk(s) && Enabled(s, step)
    ensures GroupsOk(Next(s, step))
  {
    var s' := Next(s, step);
    LogOnlyGrows(s, step);
    forall g | 0 <= g < |s.conf|
      ensures |s'.groups| == |s.conf| && GroupOk(s'.log, s.conf[g], s'.groups[g])
    {
      GroupMoves(s, step, g);
      assert GroupOk(s.log, s.conf[g], s.groups[g]);
      GroupOkGrows(s.log, s'.log, s.conf[g], s.groups[g]);
      FlightsFree(s'.log, s.conf[g], s.groups[g], s'.groups[g].inFlight);
      if step.Act? && s.client[step.who].Resolving? {
        assert PcOk(s, s.client[step.who]);
        if s.client[step.who].result.Ok? {
          MoreInLog(s.log, s'.log);
          PublishedOk(s'.log, s.conf[g], s.groups[g], s.client[step.who].result.value);
        }
      }
      hide GroupOk, Published, Next, PcOk;
    }
    assert |s'.groups| == |s.groups|;
  }

  lemma RefreshOkGrows(s: State, s': State, r: Refresh)
    requires s.log <= s'.log && s'.conf == s.conf && RefreshOk(s, r)
    ensures RefreshOk(s', r)
  {
    MoreInLog(s.log, s'.log);
  }

  /** The owner of a finishing refresh holds the only claim on it. */
  lemma FinishingIsOpen(s: State, t: Client)
    requires Owners(s) && PcsOk(s) && t in s.client && s.client[t].Finishing?
    ensures var pc := s.client[t];
            && pc.group < |s.conf| && pc.refresh < |s.refreshes|
            && s.refreshes[pc.refresh].closes == 0 && s.refreshes[pc.refresh].group == pc.group
            && ResultInLog(s.log, pc.result)
  {
    assert PcOk(s, s.client[t]);
    assert Owns(|s.conf|, s.client[t], s.client[t].refresh);
  }

  lemma FinishKeepsFlights(s: State, t: Client)
    requires GroupsOk(s) && Flights(s) && Owners(s) && PcsOk(s)
    requires Enabled(s, Act(t)) && s.client[t].Finishing?
    ensures Flights(Next(s, Act(t)))
  {
    FinishingIsOpen(s, t);
    var s' := Next(s, Act(t));
    forall r | 0 <= r < |s'.refreshes|
      ensures RefreshOk(s', s'.refreshes[r])
    {
      assert RefreshOk(s, s.refreshes[r]);
    }
  }

  lemma JoinKeepsFlights(s: State, t: Client)
    requires GroupsOk(s) && Flights(s) && Enabled(s, Act(t)) && (s.client[t].Joining? || s.client[t].LockedCheck?)
    ensures Flights(Next(s, Act(t)))
  {
    var s' := Next(s, Act(t));
    forall r | 0 <= r < |s'.refreshes|
      ensures RefreshOk(s', s'.refreshes[r])
    {
      if r < |s.refreshes| { RefreshOkGrows(s, s', s.refreshes[r]); }
    }
    hide RefreshOk;
  }

  lemma SameFlights(s: State, s': State)
    requires Flights(s) && s'.refreshes == s.refreshes && s'.conf == s.conf && s.log <= s'.log
    requires |s'.groups| == |s.groups|
             && forall g | 0 <= g < |s.groups| :: s'.groups[g].inFlight == s.groups[g].inFlight
    ensures Flights(s')
  {
    forall r | 0 <= r < |s'.refreshes|
      ensures RefreshOk(s', s'.refreshes[r])
    {
      RefreshOkGrows(s, s', s.refreshes[r]);
    }
    assert forall r | 0 <= r < |s.refreshes| :: RefreshOk(s, s.refreshes[r]);
    hide RefreshOk;
  }

  lemma KeepsFlights(s: State, step: Step)
    requires GroupsOk(s) && Flights(s) && Owners(s) && PcsOk(s) && Enabled(s, step)
    ensures Flights(Next(s, step))
  {
    LogOnlyGrows(s, step);
    if step.Act? && s.client[step.who].Finishing? {
      FinishKeepsFlights(s, step.who);
    } else if step.Act? && (s.client[step.who].Joining? || s.client[step.who].LockedCheck?) {
      JoinKeepsFlights(s, step.who);
    } else {
      hide Flights, Owners, PcsOk, GroupsOk;
      SameFlights(s, Next(s, step));
    }
  }

  // ------------------------------------------------------------------ owners

  /** The other callers stand where they stood. */
  ghost predicate OthersStay(s: State, s': State, t: Client) {
    && t in s'.client
    && (forall u | u in s'.client && u != t :: u in s.client && s'.client[u] == s.client[u])
    && (forall u | u in s.client :: u in s'.client)
  }

  /** A caller that neither creates nor finishes a refresh hands its claims on. */
  lemma ClaimsHandedOn(s: State, s': State, t: Client)
    requires Owners(s) && OthersStay(s, s', t)
    requires s'.conf == s.conf && s'.refreshes == s.refreshes && s'.owner == s.owner
    requires forall r: nat :: Owns(|s.conf|, s'.client[t], r) <==> t in s.client && Owns(|s.conf|, s.client[t], r)
    ensures Owners(s')
  {
    hide Owns;
    forall r | 0 <= r < |s.refreshes| && s.refreshes[r].closes == 0
      ensures s.owner[r] in s'.client && Owns(|s.conf|, s'.client[s.owner[r]], r)
    {
      var o := s.owner[r];
      assert o in s.client && Owns(|s.conf|, s.client[o], r);
      if o != t {
        assert s'.client[o] == s.client[o];
      } else {
        assert Owns(|s.conf|, s'.client[t], r);
      }
    }
    forall u, r: nat {:trigger Owns(|s.conf|, s'.client[u], r)} | u in s'.client && Owns(|s.conf|, s'.client[u], r)
      ensures r < |s.refreshes| && s.owner[r] == u && s.refreshes[r].closes == 0
    {
      assert u in s.client && Owns(|s.conf|, s.client[u], r);
    }
  }

  lemma OwnersFrame(s: State, s': State)
    requires Owners(s) && s'.conf == s.conf && s'.refreshes == s.refreshes && s'.owner == s.owner
             && s'.client == s.client
    ensures Owners(s')
  {
    hide Owns;
    forall r | 0 <= r < |s.refreshes| && s.refreshes[r].closes == 0
      ensures s.owner[r] in s'.client && Owns(|s.conf|, s'.client[s.owner[r]], r)
    {
    }
    forall u, r: nat {:trigger Owns(|s.conf|, s'.client[u], r)} | u in s'.client && Owns(|s.conf|, s'.client[u], r)
      ensures r < |s.refreshes| && s.owner[r] == u && s.refreshes[r].closes == 0
    {
      assert Owns(|s.conf|, s.client[u], r);
    }
  }

  lemma ArriveKeepsOwners(s: State, step: Step)
    requires Owners(s) && Enabled(s, step) && !step.Act?
    ensures Owners(Next(s, step))
  {
    hide Owners;
    var s' := Next(s, step);
    if step.Arrive? {
      ClaimsHandedOn(s, s', step.who);
    } else {
      OwnersFrame(s, s');
    }
  }

  lemma MoveKeepsOwners(s: State, t: Client)
    requires Owners(s) && Enabled(s, Act(t))
    requires var s' := Next(s, Act(t)); s'.refreshes == s.refreshes && s'.owner == s.owner
    requires forall r: nat :: Owns(|s.conf|, Next(s, Act(t)).client[t], r) <==> Owns(|s.conf|, s.client[t], r)
    ensures Owners(Next(s, Act(t)))
  {
    var s' := Next(s, Act(t));
    hide Owns, Owners;
    assert OthersStay(s, s', t) && s'.conf == s.conf;
    hide Move;
    ClaimsHandedOn(s, s', t);
  }

  lemma JoinKeepsOwners(s: State, t: Client)
    requires Owners(s) && Enabled(s, Act(t)) && (s.client[t].Joining? || s.client[t].LockedCheck?)
    ensures Owners(Next(s, Act(t)))
  {
    hide Owners;
    var s' := Next(s, Act(t));
    if s'.client[t].Owning? {
      NewRefreshKeepsOwners(s, s', t);
    } else {
      MoveKeepsOwners(s, t);
    }
  }

  /** The caller owns the refresh it has just created. */
  lemma NewRefreshKeepsOwners(s: State, s': State, t: Client)
    requires Owners(s) && OthersStay(s, s', t) && t in s.client && (s.client[t].Joining? || s.client[t].LockedCheck?)
    requires s'.conf == s.conf && s'.owner == s.owner + [t]
    requires |s'.refreshes| == |s.refreshes| + 1 && s'.refreshes[..|s.refreshes|] == s.refreshes
             && s'.refreshes[|s.refreshes|].closes == 0
    requires s'.client[t].Owning? && s'.client[t].refresh == |s.refreshes| && !s'.client[t].after.NextGroup?
    ensures Owners(s')
  {
    var n := |s.refreshes|;
    forall r | 0 <= r < n && s.refreshes[r].closes == 0
      ensures s'.owner[r] in s'.client && Owns(|s.conf|, s'.client[s'.owner[r]], r)
    {
      assert Owns(|s.conf|, s.client[s.owner[r]], r);
      assert s'.owner[r] == s.owner[r] != t;
    }
    assert s'.owner[n] == t && Owns(|s.conf|, s'.client[t], n);
    forall u, r: nat {:trigger Owns(|s.conf|, s'.client[u], r)} | u in s'.client && Owns(|s.conf|, s'.client[u], r)
      ensures r < |s'.refreshes| && s'.owner[r] == u && s'.refreshes[r].closes == 0
    {
      if u != t {
        assert Owns(|s.conf|, s.client[u], r);
        assert s'.owner[r] == s.owner[r];
      } else {
        assert r == n;
      }
    }
  }

  lemma FinishKeepsOwners(s: State, t: Client)
    requires Owners(s) && PcsOk(s) && Enabled(s, Act(t)) && s.client[t].Finishing?
    ensures Owners(Next(s, Act(t)))
  {
    FinishingIsOpen(s, t);
    assert PcOk(s, s.client[t]);
    var s' := Next(s, Act(t));
    assert Owns(|s.conf|, s.client[t], s.client[t].refresh);
    forall u, r: nat {:trigger Owns(|s.conf|, s'.client[u], r)} | u in s'.client && Owns(|s.conf|, s'.client[u], r)
      ensures r < |s'.refreshes| && s'.owner[r] == u && s'.refreshes[r].closes == 0
    {
      assert Owns(|s.conf|, s.client[u], r);
    }
  }

  lemma KeepsOwners(s: State, step: Step)
    requires Owners(s) && PcsOk(s) && Enabled(s, step)
    ensures Owners(Next(s, step))
  {
    if !step.Act? {
      ArriveKeepsOwners(s, step);
    } else {
      var pc := s.client[step.who];
      if pc.Joining? || pc.LockedCheck? { JoinKeepsOwners(s, step.who); }
      else if pc.Finishing? { FinishKeepsOwners(s, step.who); }
      else { MoveKeepsOwners(s, step.who); }
    }
  }

  // ------------------------------------------------------------------ program points

  lemma PcOkStays(s: State, s': State, pc: Pc)
    requires PcOk(s, pc) && s.log <= s'.log && s'.conf == s.conf
    requires |s.refreshes| <= |s'.refreshes|
             && forall r | 0 <= r < |s.refreshes| :: s'.refreshes[r].group == s.refreshes[r].group
    ensures PcOk(s', pc)
  {
    MoreInLog(s.log, s'.log);
  }

  lemma RefreshesStay(s: State, step: Step)
    requires Enabled(s, step)
    ensures var s' := Next(s, step);
            |s.refreshes| <= |s'.refreshes|
            && forall r | 0 <= r < |s.refreshes| :: s'.refreshes[r].group == s.refreshes[r].group
  {
  }

  lemma SnapshotJustifies(s: State, g: nat, key: Key)
    requires GroupsOk(s) && g < |s.conf| && Allows(s.groups[g], key)
    ensures Justified(s.log, s.conf[g], key)
  {
    assert GroupOk(s.log, s.conf[g], s.groups[g]);
    var resolved := s.groups[g].resolved;
    assert InLog(s.log, resolved[|resolved| - 1]);
  }

  lemma CheckerOk(s: State, t: Client)
    requires GroupsOk(s) && Enabled(s, Act(t)) && PcOk(s, s.client[t])
    requires s.client[t].FastCheck? || s.client[t].LastCheck?
    ensures PcOk(Next(s, Act(t)), Next(s, Act(t)).client[t])
  {
    var pc := s.client[t];
    if Allows(s.groups[pc.group], pc.key) { SnapshotJustifies(s, pc.group, pc.key); }
    hide GroupsOk;
  }

  lemma JoinerOk(s: State, t: Client)
    requires GroupsOk(s) && Flights(s) && Enabled(s, Act(t)) && PcOk(s, s.client[t])
    requires s.client[t].LockedCheck? || s.client[t].Joining?
    ensures PcOk(Next(s, Act(t)), Next(s, Act(t)).client[t])
  {
    var pc := s.client[t];
    if pc.LockedCheck? && Allows(s.groups[pc.group], pc.key) { SnapshotJustifies(s, pc.group, pc.key); }
    hide GroupsOk, RefreshOk;
  }

  lemma WakerOk(s: State, t: Client)
    requires Flights(s) && Enabled(s, Act(t)) && PcOk(s, s.client[t]) && s.client[t].Waiting?
    ensures PcOk(Next(s, Act(t)), Next(s, Act(t)).client[t])
  {
    assert RefreshOk(s, s.refreshes[s.client[t].refresh]);
    hide Flights;
  }

  lemma RefresherOk(s: State, t: Client)
    requires CacheOk(s) && Enabled(s, Act(t)) && PcOk(s, s.client[t])
    requires |s.refreshes| >= |s.conf| && forall g | 0 <= g < |s.conf| :: s.refreshes[g].group == g
    requires s.client[t].Owning? || s.client[t].Listing? || s.client[t].Resolving? || s.client[t].Finishing?
    ensures PcOk(Next(s, Act(t)), Next(s, Act(t)).client[t])
  {
    hide Cache.Inv;
    var pc := s.client[t];
    if pc.Listing? { assert CallInLog(s.log, s.cache.call[pc.call]); }
    hide CacheOk;
  }

  lemma AskerOk(s: State, t: Client)
    requires Enabled(s, Act(t)) && PcOk(s, s.client[t]) && (s.client[t].Asked? || s.client[t].Forward?)
    ensures PcOk(Next(s, Act(t)), Next(s, Act(t)).client[t])
  {
  }

  /** The caller's own next point. */
  lemma MoverOk(s: State, t: Client)
    requires CacheOk(s) && GroupsOk(s) && Flights(s) && PcsOk(s) && |s.refreshes| >= |s.conf|
    requires forall g | 0 <= g < |s.conf| :: s.refreshes[g].group == g
    requires Enabled(s, Act(t))
    ensures PcOk(Next(s, Act(t)), Next(s, Act(t)).client[t])
  {
    var pc := s.client[t];
    assert PcOk(s, pc);
    hide CacheOk, GroupsOk, Flights, PcsOk, PcOk, Move;
    if pc.FastCheck? || pc.LastCheck? { CheckerOk(s, t); }
    else if pc.LockedCheck? || pc.Joining? { JoinerOk(s, t); }
    else if pc.Waiting? { WakerOk(s, t); }
    else if pc.Asked? || pc.Forward? { AskerOk(s, t); }
    else { RefresherOk(s, t); }
  }

  /** Every other caller stands where it stood, and one that arrives has asked. */
  lemma OthersStand(s: State, step: Step)
    requires Enabled(s, step)
    ensures var s' := Next(s, step);
            && (step.Act? ==> step.who in s.client)
            && (step.Arrive? ==> step.group < |s.conf| && step.who !in s.client)
            && (forall t | t in s.client :: t in s'.client)
            && (forall t | t in s'.client && !(step.Act? && t == step.who) ::
                  if step.Arrive? && t == step.who then s'.client[t] == Asked(step.group, step.request)
                  else t in s.client && s'.client[t] == s.client[t])
  {
    hide BuildAllowSet, Filter, Cache.Next, Woken, Dispatch, Observed;
  }

  lemma KeepsPcs(s: State, step: Step)
    requires Inv(s) && Enabled(s, step)
    ensures PcsOk(Next(s, step))
  {
    hide Enabled, Next, CacheOk, GroupsOk, Flights, Owners, LogOk, PcOk;
    var s' := Next(s, step);
    LogOnlyGrows(s, step);
    RefreshesStay(s, step);
    OthersStand(s, step);
    if step.Act? {
      MoverOk(s, step.who) by { GroupsNamed(s); }
    }
    forall t | t in s'.client && !(step.Act? && t == step.who)
      ensures PcOk(s', s'.client[t])
    {
      if step.Arrive? && t == step.who {
        ArrivalOk(s', step.group, step.request);
      } else {
        PcOkStays(s, s', s.client[t]);
      }
    }
  }

  lemma GroupsNamed(s: State)
    requires Owners(s)
    ensures |s.refreshes| >= |s.conf| && forall g | 0 <= g < |s.conf| :: s.refreshes[g].group == g
  {
  }

  lemma ArrivalOk(s: State, g: nat, request: Request)
    requires g < |s.conf|
    ensures PcOk(s, Asked(g, request))
  {
  }

  // ------------------------------------------------------------------ the log

  lemma EntryAppended(conf: seq<seq<Matcher>>, log: seq<Upstream>, more: seq<Upstream>)
    requires forall n | 0 <= n < |log| :: EntryOk(conf, log[..n], log[n])
    requires |more| <= 1 && (more != [] ==> EntryOk(conf, log, more[0]))
    ensures forall n | 0 <= n < |log + more| :: EntryOk(conf, (log + more)[..n], (log + more)[n])
  {
    forall n | 0 <= n < |log + more|
      ensures EntryOk(conf, (log + more)[..n], (log + more)[n])
    {
      if n < |log| {
        assert (log + more)[..n] == log[..n];
      } else {
        assert (log + more)[..n] == log;
      }
    }
  }

  lemma KeepsLog(s: State, step: Step)
    requires LogOk(s) && PcsOk(s) && Enabled(s, step)
    ensures LogOk(Next(s, step))
  {
    if step.CacheStep? {
      EntryAppended(s.conf, s.log, Observed(s.cache, step.inner));
    } else if step.Act? && s.client[step.who].Forward? {
      var pc := s.client[step.who];
      assert PcOk(s, pc);
      EntryAppended(s.conf, s.log, [SignedWithFlags(pc.group, pc.key, pc.flags)]);
    }
  }

  lemma StepKeepsInv(s: State, step: Step)
    requires Inv(s) && Enabled(s, step)
    ensures Inv(Next(s, step))
  {
    KeepsPcs(s, step);
    hide CacheOk, GroupsOk, Flights, Owners, LogOk, PcsOk;
    KeepsCache(s, step);
    KeepsGroups(s, step);
    KeepsFlights(s, step);
    KeepsOwners(s, step);
    KeepsLog(s, step);
  }

  lemma {:induction false} RunKeepsInv(s: State, steps: seq<Step>)
    requires Inv(s) && IsRun(s, steps)
    ensures Inv(Exec(s, steps))
    decreases |steps|
  {
    if steps != [] {
      StepKeepsInv(s, steps[0]);
      RunKeepsInv(Next(s, steps[0]), steps[1..]);
    }
  }
}
