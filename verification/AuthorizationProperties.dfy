/** What any number of clients can list, sign, and cause upstream, over every run. */
module AuthorizationProperties {
  import opened Wrappers
  import opened Keys
  import Cache
  import opened Authorization
  import opened AuthorizationInvariant

  ghost predicate Reachable(s: State) {
    exists conf, ttl, steps :: IsRun(Init(conf, ttl), steps) && Exec(Init(conf, ttl), steps) == s
  }

  lemma ReachableHasInv(s: State)
    requires Reachable(s)
    ensures Inv(s)
  {
    var conf, ttl, steps :| IsRun(Init(conf, ttl), steps) && Exec(Init(conf, ttl), steps) == s;
    InitInv(conf, ttl);
    RunKeepsInv(Init(conf, ttl), steps);
  }

  // ------------------------------------------------------------------ what reaches upstream

  /** Some listed key has this key's blob and is one that a matcher takes. */
  ghost predicate Selects(listing: seq<Key>, matchers: seq<Matcher>, key: Key) {
    exists k, i :: k in listing && 0 <= i < |matchers| && k.blob == key.blob && matchers[i](k)
  }

  lemma AllowedIsSelected(listing: seq<Key>, matchers: seq<Matcher>, key: Key)
    ensures key.blob in BuildAllowSet(listing, matchers) <==> Selects(listing, matchers, key)
  {
    AllowSetExact(listing, matchers, key.blob);
  }

  /** The listing at place `m` of the log selects the key. */
  ghost predicate ListedAt(log: seq<Upstream>, m: nat, matchers: seq<Matcher>, key: Key) {
    m < |log| && log[m].ListReturned? && log[m].result.Ok? && Selects(log[m].result.value, matchers, key)
  }

  /**
   Every sign that reaches upstream is for a key that upstream had listed before, in that run, and
   that the configuration of the client's group selects from that listing.
   */
  lemma EverySignWasListed(s: State, n: nat)
    requires Reachable(s) && n < |s.log| && s.log[n].SignedWithFlags?
    ensures s.log[n].group < |s.conf|
    ensures exists m: nat :: m < n && ListedAt(s.log, m, s.conf[s.log[n].group], s.log[n].key)
  {
    hide Reachable, ListedAt, Justified;
    ReachableHasInv(s);
    assert EntryOk(s.conf, s.log[..n], s.log[n]);
    hide Inv, EntryOk;
    JustifiedIsListed(s.log, n, s.conf[s.log[n].group], s.log[n].key);
  }

  lemma JustifiedIsListed(log: seq<Upstream>, n: nat, matchers: seq<Matcher>, key: Key)
    requires n <= |log| && Justified(log[..n], matchers, key)
    ensures exists m: nat :: m < n && ListedAt(log, m, matchers, key)
  {
    hide Selects, BuildAllowSet;
    var keys :| InLog(log[..n], keys) && key.blob in BuildAllowSet(keys, matchers);
    var m :| 0 <= m < n && log[m] == ListReturned(Ok(keys));
    AllowedIsSelected(keys, matchers, key);
    assert ListedAt(log, m, matchers, key);
  }

  /** The only other operation upstream ever sees is a list. */
  lemma OnlyListsAndSigns(s: State, n: nat)
    requires Reachable(s) && n < |s.log|
    ensures s.log[n].ListStarted? || s.log[n].ListReturned? || s.log[n].SignedWithFlags?
  {
    ReachableHasInv(s);
    assert EntryOk(s.conf, s.log[..n], s.log[n]);
  }

  /** Every refused operation is answered at once, and leaves everything but its own client as it was. */
  lemma RefusalsTouchNothing(s: State, t: Client)
    requires Enabled(s, Act(t)) && s.client[t].Asked?
    requires var q := s.client[t].request; !q.List? && !q.Sign? && !q.SignWithFlags?
    ensures var s' := Next(s, Act(t));
            && s' == s.(client := s'.client) && s'.client.Keys == s.client.Keys
            && (forall u | u in s.client && u != t :: s'.client[u] == s.client[u])
            && s'.client[t].Replied? && (s'.client[t].reply == Refused || s'.client[t].reply == Unsupported)
  {
  }

  /** A list is answered with the group's filtered view of a listing upstream has returned. */
  lemma ListReplyFiltered(s: State, t: Client)
    requires Reachable(s) && t in s.client && s.client[t].Replied? && s.client[t].reply.Identities?
    ensures s.client[t].group < |s.conf|
    ensures exists keys :: ListReturned(Ok(keys)) in s.log
                           && s.client[t].reply.keys == Filter(keys, s.conf[s.client[t].group])
  {
    ReachableHasInv(s);
    assert PcOk(s, s.client[t]);
    var keys :| InLog(s.log, keys) && s.client[t].reply.keys == Filter(keys, s.conf[s.client[t].group]);
  }

  /** An error a client is told is one upstream's list returned with, for any ttl. */
  lemma FailedReplyIsUpstreams(s: State, t: Client)
    requires Reachable(s) && t in s.client && s.client[t].Replied? && s.client[t].reply.Failed?
    ensures ListReturned(Err(s.client[t].reply.err)) in s.log
  {
    ReachableHasInv(s);
    assert PcOk(s, s.client[t]);
  }

  // ------------------------------------------------------------------ single flight in a group

  /** A group never has two unfinished refreshes. */
  lemma OneFlight(s: State, r: nat, q: nat)
    requires Reachable(s) && r < |s.refreshes| && q < |s.refreshes|
    requires s.refreshes[r].group == s.refreshes[q].group && s.refreshes[r].closes == 0 && s.refreshes[q].closes == 0
    ensures r == q && s.refreshes[r].group < |s.groups| && s.groups[s.refreshes[r].group].inFlight == Some(r)
  {
    ReachableHasInv(s);
  }

  /** A refresh is closed at most once; while it is open exactly one caller is on the way to close it. */
  lemma OneOwner(s: State, r: nat)
    requires Reachable(s) && r < |s.refreshes|
    ensures s.refreshes[r].closes <= 1
    ensures s.refreshes[r].closes == 0 <==> exists t :: t in s.client && Owns(|s.conf|, s.client[t], r)
    ensures forall t, u | t in s.client && u in s.client &&
             Owns(|s.conf|, s.client[t], r) && Owns(|s.conf|, s.client[u], r) :: t == u
  {
    ReachableHasInv(s);
    assert RefreshOk(s, s.refreshes[r]);
    if s.refreshes[r].closes == 0 {
      assert s.owner[r] in s.client && Owns(|s.conf|, s.client[s.owner[r]], r);
    }
  }

  /** A step changes no refresh but the one it finishes, and a new one is unfinished. */
  lemma RefreshesFollow(s: State, step: Step)
    requires Inv(s) && Enabled(s, step)
    ensures var s' := Next(s, step);
            && |s.refreshes| <= |s'.refreshes|
            && (forall r | |s.refreshes| <= r < |s'.refreshes| :: s'.refreshes[r].closes == 0)
            && (forall r | 0 <= r < |s.refreshes| && s'.refreshes[r] != s.refreshes[r] ::
                  step.Act? && s.client[step.who].Finishing? && r == s.client[step.who].refresh)
  {
    hide Inv, BuildAllowSet, Filter, Cache.Next, Dispatch, Woken;
  }

  lemma FinishedStaysOneStep(s: State, step: Step, r: nat)
    requires Inv(s) && Enabled(s, step) && r < |s.refreshes| && s.refreshes[r].closes > 0
    ensures r < |Next(s, step).refreshes| && Next(s, step).refreshes[r] == s.refreshes[r]
  {
    RefreshesFollow(s, step);
    if step.Act? && s.client[step.who].Finishing? { FinishingIsOpen(s, step.who); }
    hide Inv, Next;
  }

  /** A finished refresh never changes. */
  lemma {:induction false} FinishedStays(s: State, steps: seq<Step>, r: nat)
    requires Inv(s) && IsRun(s, steps) && r < |s.refreshes| && s.refreshes[r].closes > 0
    ensures var s' := Exec(s, steps); r < |s'.refreshes| && s'.refreshes[r] == s.refreshes[r]
    decreases |steps|
  {
    if steps != [] {
      FinishedStaysOneStep(s, steps[0], r);
      StepKeepsInv(s, steps[0]);
      FinishedStays(Next(s, steps[0]), steps[1..], r);
    }
  }

  /** All who list through one refresh get the same reply, however much later one of them wakes. */
  lemma JoinersAgree(s: State, steps: seq<Step>, t: Client, u: Client)
    requires Reachable(s) && IsRun(s, steps)
    requires Enabled(s, Act(t)) && s.client[t].Waiting? && s.client[t].after.Replies?
    requires var s' := Exec(s, steps); Enabled(s', Act(u)) && s'.client[u].Waiting? && s'.client[u].after.Replies?
    requires s.client[t].refresh == Exec(s, steps).client[u].refresh
    ensures Next(s, Act(t)).client[t] == Next(Exec(s, steps), Act(u)).client[u]
  {
    ReachableHasInv(s);
    RunKeepsInv(s, steps);
    FinishedStays(s, steps, s.client[t].refresh);
    assert PcOk(s, s.client[t]);
    assert PcOk(Exec(s, steps), Exec(s, steps).client[u]);
  }

  // ------------------------------------------------------------------ the snapshot

  /** The snapshot is the allow set of the listing resolved last, and empty before the first. */
  lemma SnapshotIsLatest(s: State, g: nat, key: Key)
    requires Reachable(s) && g < |s.groups|
    ensures |s.groups| == |s.conf|
    ensures Allows(s.groups[g], key) <==>
            var listings := s.groups[g].resolved;
            listings != [] && Selects(listings[|listings| - 1], s.conf[g], key)
  {
    hide Reachable, Selects, Allows;
    ReachableHasInv(s);
    assert GroupOk(s.log, s.conf[g], s.groups[g]);
    hide Inv, GroupOk;
    GroupAllows(s.log, s.conf[g], s.groups[g], key);
  }

  lemma GroupAllows(log: seq<Upstream>, matchers: seq<Matcher>, g: Group, key: Key)
    requires GroupOk(log, matchers, g)
    ensures Allows(g, key) <==> g.resolved != [] && Selects(g.resolved[|g.resolved| - 1], matchers, key)
  {
    hide Selects, BuildAllowSet;
    if g.resolved != [] { AllowedIsSelected(g.resolved[|g.resolved| - 1], matchers, key); }
  }

  /** Only resolving a successful listing changes a snapshot, and only that of its own group. */
  lemma SnapshotChanges(s: State, step: Step, g: nat)
    requires Reachable(s) && Enabled(s, step) && g < |s.groups|
    requires Next(s, step).groups[g].snapshot != s.groups[g].snapshot
    ensures step.Act? && s.client[step.who].Resolving? && s.client[step.who].group == g && s.client[step.who].result.Ok?
    ensures Next(s, step).groups[g].resolved == s.groups[g].resolved + [s.client[step.who].result.value]
    ensures ListReturned(s.client[step.who].result) in s.log
  {
    ReachableHasInv(s);
    if step.Act? { assert PcOk(s, s.client[step.who]); }
    GroupMoves(s, step, g);
    hide Inv, Next, Filter;
  }

  /** The view a refresh hands out is the filtered view of a listing, and its blobs are what it allowed to sign. */
  lemma ViewIsAllowed(s: State, r: nat)
    requires Reachable(s) && r < |s.refreshes| && s.refreshes[r].closes > 0 && s.refreshes[r].err == None
    ensures var f := s.refreshes[r];
            && f.group < |s.conf| == |s.groups| && ListReturned(Ok(f.source)) in s.log
            && Published(s.groups[f.group], f.source, s.conf[f.group]).snapshot == Some(Blobs(f.visible))
  {
    ReachableHasInv(s);
    assert RefreshOk(s, s.refreshes[r]);
  }

  /** A caller about to finish a successful refresh, and every one finished, has had its listing resolved. */
  ghost predicate ResolvedFirst(s: State) {
    && (forall t | t in s.client && s.client[t].Finishing? :: PcResolved(s.groups, s.client[t]))
    && (forall r | 0 <= r < |s.refreshes| :: RefreshResolved(s.groups, s.refreshes[r]))
  }

  predicate PcResolved(groups: seq<Group>, pc: Pc) {
    pc.Finishing? && pc.result.Ok? ==> pc.group < |groups| && pc.result.value in groups[pc.group].resolved
  }

  predicate RefreshResolved(groups: seq<Group>, r: Refresh) {
    r.closes > 0 && r.err == None ==> r.group < |groups| && r.source in groups[r.group].resolved
  }

  /** Listings resolved stay resolved. */
  predicate Grown(groups: seq<Group>, groups': seq<Group>) {
    |groups| == |groups'| && forall g | 0 <= g < |groups| :: groups[g].resolved <= groups'[g].resolved
  }

  lemma ResolvedGrows(s: State, step: Step)
    requires Inv(s) && Enabled(s, step)
    ensures Grown(s.groups, Next(s, step).groups)
  {
    var s' := Next(s, step);
    if step.Act? { assert PcOk(s, s.client[step.who]); }
    forall g | 0 <= g < |s.groups|
      ensures |s'.groups| == |s.groups| && s.groups[g].resolved <= s'.groups[g].resolved
    {
      GroupMoves(s, step, g);
      hide Next;
    }
    hide Inv;
    assert |s'.groups| == |s.groups|;
  }

  lemma GrownKeeps(groups: seq<Group>, groups': seq<Group>, pc: Pc, r: Refresh)
    requires Grown(groups, groups')
    ensures PcResolved(groups, pc) ==> PcResolved(groups', pc)
    ensures RefreshResolved(groups, r) ==> RefreshResolved(groups', r)
  {
  }

  lemma FinisherResolves(s: State, s': State, t: Client)
    requires Inv(s) && ResolvedFirst(s) && Enabled(s, Act(t)) && s.client[t].Finishing? && s' == Next(s, Act(t))
    ensures t in s'.client && !s'.client[t].Finishing?
    ensures s.client[t].refresh < |s'.refreshes| == |s.refreshes|
    ensures RefreshResolved(s'.groups, s'.refreshes[s.client[t].refresh])
  {
    FinishingIsOpen(s, t);
    assert PcResolved(s.groups, s.client[t]);
    hide Inv, PcOk, BuildAllowSet, Filter, ResolvedFirst;
  }

  lemma ResolverResolves(s: State, t: Client)
    requires Enabled(s, Act(t)) && s.client[t].Resolving?
    ensures PcResolved(Next(s, Act(t)).groups, Next(s, Act(t)).client[t])
  {
    hide BuildAllowSet, Filter;
  }

  /** Only a resolver comes to finish. */
  lemma OthersDoNotFinish(s: State, t: Client)
    requires Enabled(s, Act(t)) && !s.client[t].Resolving?
    ensures !Next(s, Act(t)).client[t].Finishing?
  {
    hide BuildAllowSet, Filter, Cache.Next, Dispatch, Woken;
    if s.client[t].Asked? { NoFinish(s.client[t].group, s.client[t].request); }
    if s.client[t].Waiting? {
      WokenDoesNotFinish(s.client[t].group, s.refreshes[s.client[t].refresh], s.client[t].after);
    }
  }

  lemma NoFinish(g: nat, q: Request)
    ensures !Dispatch(g, q).Finishing?
  {
  }

  lemma WokenDoesNotFinish(g: nat, r: Refresh, after: After)
    ensures !Woken(g, r, after).Finishing?
  {
  }

  lemma StepKeepsResolvedFirst(s: State, step: Step)
    requires Inv(s) && ResolvedFirst(s) && Enabled(s, step)
    ensures ResolvedFirst(Next(s, step))
  {
    var s' := Next(s, step);
    hide Inv, PcResolved, RefreshResolved, Grown, Next;
    ResolvedGrows(s, step);
    if step.Act? {
      if s.client[step.who].Finishing? { FinisherResolves(s, s', step.who); }
      if s.client[step.who].Resolving? { ResolverResolves(s, step.who); } else { OthersDoNotFinish(s, step.who); }
    }
    RefreshesFollow(s, step);
    OthersStand(s, step);
    forall t | t in s'.client && s'.client[t].Finishing?
      ensures PcResolved(s'.groups, s'.client[t])
    {
      if !step.Act? || t != step.who {
        GrownKeeps(s.groups, s'.groups, s.client[t], Refresh(0, [], None, 0, []));
      }
    }
    forall r | 0 <= r < |s'.refreshes|
      ensures RefreshResolved(s'.groups, s'.refreshes[r])
    {
      if r < |s.refreshes| && s'.refreshes[r] == s.refreshes[r] {
        GrownKeeps(s.groups, s'.groups, Joining(0), s.refreshes[r]);
      } else if r >= |s.refreshes| {
        Unfinished(s'.groups, s'.refreshes[r]);
      }
    }
  }

  lemma Unfinished(groups: seq<Group>, r: Refresh)
    requires r.closes == 0
    ensures RefreshResolved(groups, r)
  {
  }

  lemma {:induction false} RunKeepsResolvedFirst(s: State, steps: seq<Step>)
    requires Inv(s) && ResolvedFirst(s) && IsRun(s, steps)
    ensures ResolvedFirst(Exec(s, steps))
    decreases |steps|
  {
    if steps != [] {
      StepKeepsResolvedFirst(s, steps[0]);
      StepKeepsInv(s, steps[0]);
      RunKeepsResolvedFirst(Next(s, steps[0]), steps[1..]);
    }
  }

  /** A refresh that is finished without an error has had its listing resolved: its view is, or was, the allowed one. */
  lemma FinishedIsResolved(s: State, r: nat)
    requires Reachable(s) && r < |s.refreshes| && s.refreshes[r].closes > 0 && s.refreshes[r].err == None
    ensures s.refreshes[r].group < |s.groups|
    ensures s.refreshes[r].source in s.groups[s.refreshes[r].group].resolved
  {
    var conf, ttl, steps :| IsRun(Init(conf, ttl), steps) && Exec(Init(conf, ttl), steps) == s;
    InitInv(conf, ttl);
    assert ResolvedFirst(Init(conf, ttl)) by { hide Inv; }
    RunKeepsResolvedFirst(Init(conf, ttl), steps);
    assert RefreshResolved(s.groups, s.refreshes[r]);
  }

  /**
   Whenever a sign request looks at the snapshot, it goes on to sign if and only if the group selects
   the key from the listing resolved last; the last look refuses what the group does not select.
   */
  lemma SignDecided(s: State, t: Client)
    requires Reachable(s) && Enabled(s, Act(t))
    requires s.client[t].FastCheck? || s.client[t].LockedCheck? || s.client[t].LastCheck?
    ensures s.client[t].group < |s.conf| == |s.groups|
    ensures var pc, listings := s.client[t], s.groups[s.client[t].group].resolved;
            var selected := listings != [] && Selects(listings[|listings| - 1], s.conf[pc.group], pc.key);
            var pc' := Next(s, Act(t)).client[t];
            && (selected <==> pc' == Forward(pc.group, pc.key, pc.flags))
            && (pc.LastCheck? && !selected ==> pc' == Replied(pc.group, KeyNotInGroup))
  {
    ReachableHasInv(s);
    assert PcOk(s, s.client[t]);
    SnapshotIsLatest(s, s.client[t].group, s.client[t].key);
    hide Inv, PcOk, Selects, Reachable, BuildAllowSet, Filter;
  }

  // ------------------------------------------------------------------ progress

  ghost predicate CallsExist(s: State) {
    forall t | t in s.client && s.client[t].Listing? :: s.client[t].call in s.cache.call
  }

  lemma {:induction false} RunKeepsCalls(s: State, steps: seq<Step>)
    requires CallsExist(s) && IsRun(s, steps)
    ensures CallsExist(Exec(s, steps))
    decreases |steps|
  {
    if steps != [] {
      StepKeepsCalls(s, steps[0]);
      RunKeepsCalls(Next(s, steps[0]), steps[1..]);
    }
  }

  lemma CallsOnlyGrow(s: State, step: Step)
    requires Enabled(s, step)
    ensures s.cache.call.Keys <= Next(s, step).cache.call.Keys
  {
    hide BuildAllowSet, Filter, Woken, Dispatch, Observed;
  }

  lemma OwnCallExists(s: State, t: Client)
    requires Enabled(s, Act(t))
    ensures var s' := Next(s, Act(t));
            t in s'.client && (s'.client[t].Listing? ==> s.client[t].Owning? && s'.client[t].call in s'.cache.call)
  {
    hide BuildAllowSet, Filter;
  }

  lemma StepKeepsCalls(s: State, step: Step)
    requires CallsExist(s) && Enabled(s, step)
    ensures CallsExist(Next(s, step))
  {
    hide Enabled, Next;
    CallsOnlyGrow(s, step);
    OthersStand(s, step);
    if step.Act? { OwnCallExists(s, step.who); }
  }

  lemma ReachableCallsExist(s: State)
    requires Reachable(s)
    ensures CallsExist(s)
  {
    var conf, ttl, steps :| IsRun(Init(conf, ttl), steps) && Exec(Init(conf, ttl), steps) == s;
    RunKeepsCalls(Init(conf, ttl), steps);
  }

  /** The call of the cache whose step `call` waits for: the refresh in flight, or its own. */
  function Awaited(c: Cache.State, call: Cache.Call): Cache.Call
    requires call in c.call
  {
    if c.call[call].Await? && c.entry.inFlight == Some(c.call[call].flight) && c.owner.Some?
    then c.owner.value
    else call
  }

  predicate StepOf(inner: Cache.Step, call: Cache.Call) {
    (inner.Act? || inner.Answer?) && inner.call == call
  }

  lemma CacheMoves(c: Cache.State, call: Cache.Call)
    requires Cache.Inv(c) && call in c.call && !c.call[call].Returned?
    ensures exists inner: Cache.Step :: StepOf(inner, Awaited(c, call)) && Cache.Enabled(c, inner)
  {
    var who := Awaited(c, call);
    if c.call[who].Fetching? || c.call[who].BypassFetching? {
      assert StepOf(Cache.Answer(who, Err(0)), who) && Cache.Enabled(c, Cache.Answer(who, Err(0)));
    } else {
      assert StepOf(Cache.Act(who), who) && Cache.Enabled(c, Cache.Act(who));
    }
  }

  ghost predicate Finisher(s: State, t: Client, u: Client) {
    t in s.client && u in s.client && s.client[t].Waiting? && Owns(|s.conf|, s.client[u], s.client[t].refresh)
  }

  /** A step of this caller, or of the call of the cache that it listens through or that call waits for. */
  ghost predicate Advances(s: State, u: Client, step: Step) {
    || step == Act(u)
    || (u in s.client && s.client[u].Listing? && s.client[u].call in s.cache.call
        && step.CacheStep? && StepOf(step.inner, Awaited(s.cache, s.client[u].call)))
  }

  /** A step that a caller's reply waits for: one that advances it, or the owner of the refresh it waits for. */
  ghost predicate Unblocks(s: State, t: Client, step: Step) {
    Enabled(s, step) && exists u :: (u == t || Finisher(s, t, u)) && Advances(s, u, step)
  }

  lemma OwnStep(s: State, t: Client)
    requires Inv(s) && CallsExist(s) && t in s.client && !s.client[t].Replied?
    requires s.client[t].Waiting? ==> s.refreshes[s.client[t].refresh].closes > 0
    ensures exists step :: Enabled(s, step) && Advances(s, t, step)
  {
    var pc := s.client[t];
    assert PcOk(s, pc);
    if pc.Listing? && !s.cache.call[pc.call].Returned? {
      CacheMoves(s.cache, pc.call);
      var inner: Cache.Step :| StepOf(inner, Awaited(s.cache, pc.call)) && Cache.Enabled(s.cache, inner);
      assert Enabled(s, CacheStep(inner)) && Advances(s, t, CacheStep(inner));
    } else {
      assert Enabled(s, Act(t)) && Advances(s, t, Act(t));
    }
  }

  /** No client is ever stuck: some step that its reply waits for can always be taken. */
  lemma NeverStuck(s: State, t: Client)
    requires Reachable(s) && t in s.client && !s.client[t].Replied?
    ensures exists step :: Unblocks(s, t, step)
  {
    ReachableHasInv(s);
    ReachableCallsExist(s);
    hide Reachable;
    SomeStepUnblocks(s, t);
  }

  /** The caller itself, or the one that it waits for. */
  lemma SomeStepUnblocks(s: State, t: Client)
    requires Inv(s) && CallsExist(s) && t in s.client && !s.client[t].Replied?
    ensures exists step :: Unblocks(s, t, step)
  {
    assert PcOk(s, s.client[t]);
    var who := if s.client[t].Waiting? && s.refreshes[s.client[t].refresh].closes == 0
               then s.owner[s.client[t].refresh]
               else t;
    OwnStep(s, who);
    assert who == t || Finisher(s, t, who);
    hide Inv, PcOk, CallsExist, Enabled, Advances, Finisher;
    var step :| Enabled(s, step) && Advances(s, who, step);
    assert Unblocks(s, t, step);
  }
}
