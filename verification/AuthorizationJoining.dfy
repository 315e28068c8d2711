/** What a client that joins a refresh can count on, decided by what the refresh's owner has in hand when it joins. */
module AuthorizationJoining {
  import opened Wrappers
  import opened Keys
  import Cache
  import opened Authorization
  import opened AuthorizationInvariant
  import opened AuthorizationProperties
  import opened AuthorizationFreshness

  /** The result a caller already has for the refresh it is on the way to finish. */
  function Carried(c: Cache.State, pc: Pc): Option<Listing> {
    match pc
    case Listing(_, _, call, _) =>
      if call in c.call && c.call[call].Returned? then Some(c.call[call].result) else None
    case Resolving(_, _, result, _) => Some(result)
    case Finishing(_, _, result, _) => Some(result)
    case _ => None
  }

  /** The owner has nothing yet, or what the cache stands for now. */
  predicate UpToDate(c: Cache.State, pc: Pc) {
    var carried := Carried(c, pc);
    carried == None || (c.completions != [] && carried == Some(Cache.Latest(c.completions)))
  }

  /** Refresh `r` is open, and this caller is the one to finish it. */
  ghost predicate OpenFor(s: State, r: nat, owner: Client) {
    r < |s.refreshes| && s.refreshes[r].closes == 0 && owner in s.client && Owns(|s.conf|, s.client[owner], r)
  }

  /** However the run goes on, refresh `r` ends with what the cache stood for at some time from now on. */
  ghost predicate EndsFresh(s: State, r: nat) {
    forall steps | IsRun(s, steps) ::
      var s' := Exec(s, steps);
      r < |s'.refreshes| && s'.refreshes[r].closes > 0 ==>
        InWindow(s'.cache.completions, |s.cache.completions|, ResultOf(s'.refreshes[r]))
  }

  // ------------------------------------------------------------------ enough

  lemma UpToDateIsTracked(s: State, r: nat, owner: Client)
    requires Inv(s) && CallsExist(s) && s.cache.ttl > 0 && OpenFor(s, r, owner) && UpToDate(s.cache, s.client[owner])
    ensures Tracked(s, r, |s.cache.completions|)
  {
    var from := |s.cache.completions|;
    if s.cache.completions != [] { NowInWindow(s.cache.completions, from); }
    forall t | t in s.client && Owns(|s.conf|, s.client[t], r)
      ensures PcWindow(s.cache, from, s.client[t])
    {
      assert t == s.owner[r] == owner;
    }
  }

  lemma UpToDateEndsFresh(s: State, r: nat, owner: Client)
    requires Inv(s) && CallsExist(s) && s.cache.ttl > 0 && OpenFor(s, r, owner) && UpToDate(s.cache, s.client[owner])
    ensures EndsFresh(s, r)
  {
    var from := |s.cache.completions|;
    UpToDateIsTracked(s, r, owner);
    forall steps | IsRun(s, steps)
      ensures var s' := Exec(s, steps);
              r < |s'.refreshes| && s'.refreshes[r].closes > 0 ==>
                InWindow(s'.cache.completions, from, ResultOf(s'.refreshes[r]))
    {
      hide Inv, Tracked;
      RunKeepsTracked(s, steps, r, from);
      TrackedMeans(Exec(s, steps), r, from);
    }
  }

  // ------------------------------------------------------------------ and needed

  /** How far the owner is from finishing refresh `r`, with a result in hand. */
  function Distance(groups: nat, pc: Pc): nat {
    var stage := if pc.Listing? then 2 else if pc.Resolving? then 1 else 0;
    if pc.group <= groups then 3 * (groups - pc.group) + stage else 0
  }

  /** From the listing on, an owner takes its result along. */
  lemma ResultStays(s: State, s': State, owner: Client, r: nat, result: Listing)
    requires OpenFor(s, r, owner) && Carried(s.cache, s.client[owner]) == Some(result) && !s.client[owner].Finishing?
    requires Enabled(s, Act(owner)) && s' == Next(s, Act(owner))
    ensures s'.cache == s.cache && s'.conf == s.conf && s'.refreshes == s.refreshes
    ensures OpenFor(s', r, owner) && Carried(s'.cache, s'.client[owner]) == Some(result)
    ensures s'.client[owner].group == s.client[owner].group && !s'.client[owner].Listing?
    ensures s'.client[owner].Resolving? ==> s.client[owner].Listing?
  {
    hide BuildAllowSet, Filter;
  }

  /** The startup goroutine takes it along to the next group too. */
  lemma ResultIsPassedOn(s: State, s': State, owner: Client, r: nat, result: Listing)
    requires Inv(s) && OpenFor(s, r, owner) && s.client[owner].Finishing? && s.client[owner].result == result
    requires Enabled(s, Act(owner)) && s' == Next(s, Act(owner))
    ensures s'.cache == s.cache && s'.conf == s.conf && r < |s'.refreshes| && s.client[owner].group < |s.conf|
    ensures if r == s.client[owner].refresh then s'.refreshes[r].closes > 0 && ResultOf(s'.refreshes[r]) == result
            else OpenFor(s', r, owner) && s'.client[owner].Resolving? && s'.client[owner].result == result
                 && s'.client[owner].group == s.client[owner].group + 1
  {
    assert PcOk(s, s.client[owner]);
    FinishingIsOpen(s, owner);
    hide Inv, PcOk, BuildAllowSet, Filter;
  }

  /** One step of an owner that has its result: it finishes `r`, or comes nearer and keeps the result. */
  lemma OwnerGoesOn(s: State, s': State, owner: Client, r: nat, result: Listing)
    requires Inv(s) && OpenFor(s, r, owner) && Carried(s.cache, s.client[owner]) == Some(result)
    requires Enabled(s, Act(owner)) && s' == Next(s, Act(owner))
    ensures s'.cache == s.cache && s'.conf == s.conf && r < |s'.refreshes|
    ensures if s'.refreshes[r].closes > 0 then ResultOf(s'.refreshes[r]) == result
            else OpenFor(s', r, owner) && Carried(s'.cache, s'.client[owner]) == Some(result)
                 && Distance(|s.conf|, s'.client[owner]) < Distance(|s.conf|, s.client[owner])
  {
    assert PcOk(s, s.client[owner]);
    hide Inv, PcOk, Next, Enabled;
    if s.client[owner].Finishing? {
      ResultIsPassedOn(s, s', owner, r, result);
    } else {
      ResultStays(s, s', owner, r, result);
    }
  }

  lemma OwnerCanGoOn(s: State, owner: Client, r: nat)
    requires Inv(s) && OpenFor(s, r, owner) && Carried(s.cache, s.client[owner]).Some?
    ensures Enabled(s, Act(owner))
  {
    assert PcOk(s, s.client[owner]);
  }

  /** An owner that has its result can finish by its own steps, which leave the cache alone. */
  lemma {:induction false} FinishesAlone(s: State, owner: Client, r: nat, result: Listing) returns (steps: seq<Step>)
    requires Inv(s) && OpenFor(s, r, owner) && Carried(s.cache, s.client[owner]) == Some(result)
    ensures IsRun(s, steps)
    ensures var s' := Exec(s, steps);
            && s'.cache == s.cache && r < |s'.refreshes|
            && s'.refreshes[r].closes > 0 && ResultOf(s'.refreshes[r]) == result
    decreases Distance(|s.conf|, s.client[owner])
  {
    hide Inv, Enabled, Next, Carried, Distance;
    OwnerCanGoOn(s, owner, r);
    var s' := Next(s, Act(owner));
    OwnerGoesOn(s, s', owner, r, result);
    StepKeepsInv(s, Act(owner));
    steps := [];
    if s'.refreshes[r].closes == 0 {
      steps := FinishesAlone(s', owner, r, result);
    } else {
      assert IsRun(s', []) && Exec(s', []) == s';
    }
    var all := [Act(owner)] + steps;
    assert all[0] == Act(owner) && all[1..] == steps;
    steps := all;
  }

  lemma BehindEndsBehind(s: State, r: nat, owner: Client)
    requires Inv(s) && OpenFor(s, r, owner) && !UpToDate(s.cache, s.client[owner])
    ensures !EndsFresh(s, r)
  {
    var h := s.cache.completions;
    var result := Carried(s.cache, s.client[owner]).value;
    var steps := FinishesAlone(s, owner, r, result);
    assert h[..|h|] == h;
    assert !InWindow(h, |h|, result);
    hide Inv, InWindow, OpenFor, UpToDate;
  }

  // ------------------------------------------------------------------ exactly when

  /**
   With a ttl, a refresh that is open now ends, in every continuation, with what the cache stood for
   at some time from now on, if and only if its owner has no result yet, or has the one the cache
   stands for now.
   */
  lemma JoinerIsCurrentIff(s: State, r: nat, owner: Client)
    requires Reachable(s) && s.cache.ttl > 0 && OpenFor(s, r, owner)
    ensures EndsFresh(s, r) <==> UpToDate(s.cache, s.client[owner])
  {
    ReachableHasInv(s);
    ReachableCallsExist(s);
    hide Inv, Reachable, EndsFresh, UpToDate, OpenFor, CallsExist;
    if UpToDate(s.cache, s.client[owner]) {
      UpToDateEndsFresh(s, r, owner);
    } else {
      BehindEndsBehind(s, r, owner);
    }
  }

  /** A client that joins such a refresh gets the last successful listing as of some time since it joined. */
  lemma JoinedListIsLatest(s: State, steps: seq<Step>, r: nat, owner: Client, t: Client)
    requires Reachable(s) && s.cache.ttl > 0 && OpenFor(s, r, owner) && UpToDate(s.cache, s.client[owner])
    requires IsRun(s, steps)
    requires var s' := Exec(s, steps);
             Enabled(s', Act(t)) && s'.client[t].Waiting? && s'.client[t].refresh == r && s'.client[t].after.Replies?
    ensures var s' := Exec(s, steps);
            var pc' := Next(s', Act(t)).client[t];
            && pc'.Replied?
            && (pc'.reply.Identities? ==>
                  exists n :: |s.cache.completions| <= n && ViewAfter(s', s'.client[t].group, n, pc'.reply.keys))
  {
    JoinerIsCurrentIff(s, r, owner);
    ReachableHasInv(s);
    RunKeepsInv(s, steps);
    var s' := Exec(s, steps);
    assert PcOk(s', s'.client[t]);
    hide Inv, PcOk, Reachable, InWindow;
    WakesWithView(s', t, |s.cache.completions|);
  }
}
