/**
 Every operation the shared agent in front of the connection is asked for is accounted for: signs by
 answered requests, lists by refreshes of the cache. What reaches the wire may be less, when a dial
 fails, or one list more, when reconnectClient.List tries again on a new connection.
 */
module AuthorizationAccounts {
  import opened Keys
  import Cache
  import opened Authorization
  import opened AuthorizationInvariant
  import opened AuthorizationProperties

  function Signs(log: seq<Upstream>): nat {
    if log == [] then 0
    else Signs(log[..|log| - 1]) + if log[|log| - 1].SignedWithFlags? then 1 else 0
  }

  function Lists(log: seq<Upstream>): nat {
    if log == [] then 0
    else Lists(log[..|log| - 1]) + if log[|log| - 1].ListStarted? then 1 else 0
  }

  lemma OneMore(log: seq<Upstream>, entry: Upstream)
    ensures Signs(log + [entry]) == Signs(log) + if entry.SignedWithFlags? then 1 else 0
    ensures Lists(log + [entry]) == Lists(log) + if entry.ListStarted? then 1 else 0
  {
    assert (log + [entry])[..|log|] == log;
  }

  /** The clients whose request was forwarded. */
  function Forwarded(client: map<Client, Pc>): set<Client> {
    set t | t in client && t != STARTUP && client[t].Replied? && client[t].reply == Reply.Forwarded
  }

  predicate HasAfter(pc: Pc) {
    pc.Owning? || pc.Listing? || pc.Resolving? || pc.Finishing? || pc.Waiting?
  }

  /** Only the startup goroutine goes on to the next group, and it does nothing else. */
  predicate PartOk(t: Client, pc: Pc) {
    if t == STARTUP then pc.Replied? || (HasAfter(pc) && !pc.Waiting? && pc.after.NextGroup?)
    else HasAfter(pc) ==> !pc.after.NextGroup?
  }

  ghost predicate PartsOk(s: State) {
    STARTUP in s.client && forall t | t in s.client :: PartOk(t, s.client[t])
  }

  ghost predicate Accounted(s: State) {
    Signs(s.log) == |Forwarded(s.client)| && Lists(s.log) == s.cache.refreshes
  }

  lemma MoverPart(s: State, t: Client)
    requires Enabled(s, Act(t)) && PartOk(t, s.client[t])
    ensures PartOk(t, Next(s, Act(t)).client[t])
    ensures var pc' := Next(s, Act(t)).client[t];
            t != STARTUP && pc'.Replied? && pc'.reply == Reply.Forwarded ==> s.client[t].Forward?
    ensures s.client[t].Forward? ==>
              t != STARTUP && Next(s, Act(t)).client[t] == Replied(s.client[t].group, Reply.Forwarded)
  {
    hide BuildAllowSet, Filter, Cache.Next;
  }

  lemma StepKeepsParts(s: State, step: Step)
    requires PartsOk(s) && Enabled(s, step)
    ensures PartsOk(Next(s, step))
  {
    if step.Act? { MoverPart(s, step.who); }
    OthersStand(s, step);
    hide Next, Enabled;
  }

  /** What a step adds to the log. */
  function Logged(s: State, step: Step): seq<Upstream>
    requires Enabled(s, step)
  {
    match step
    case CacheStep(inner) => Observed(s.cache, inner)
    case Act(t) =>
      var pc := s.client[t];
      if pc.Forward? then [SignedWithFlags(pc.group, pc.key, pc.flags)] else []
    case Arrive(_, _, _) => []
  }

  predicate Forwards(s: State, step: Step)
    requires Enabled(s, step)
  {
    step.Act? && s.client[step.who].Forward?
  }

  /** The mover's place among the forwarded. */
  lemma MoverForwarded(s: State, step: Step)
    requires PartsOk(s) && Enabled(s, step) && step.Act?
    ensures var s' := Next(s, step);
            && (step.who in Forwarded(s'.client) <==> Forwards(s, step))
            && step.who !in Forwarded(s.client)
  {
    assert PartOk(step.who, s.client[step.who]);
    MoverPart(s, step.who);
    hide PartsOk, Next;
  }

  lemma ForwardedFollows(s: State, step: Step)
    requires PartsOk(s) && Enabled(s, step)
    ensures Forwarded(Next(s, step).client)
            == Forwarded(s.client) + if Forwards(s, step) then {step.who} else {}
    ensures |Forwarded(Next(s, step).client)| == |Forwarded(s.client)| + if Forwards(s, step) then 1 else 0
  {
    hide Next, Enabled, PartsOk, Forwards;
    OthersStand(s, step);
    if step.Act? { MoverForwarded(s, step); }
    var s' := Next(s, step);
    forall t | !(step.Act? && t == step.who)
      ensures t in Forwarded(s'.client) <==> t in Forwarded(s.client)
    {
    }
    OnlyActsForward(s, step);
  }

  lemma OnlyActsForward(s: State, step: Step)
    requires Enabled(s, step)
    ensures Forwards(s, step) ==> step.Act?
  {
  }

  lemma LogFollows(s: State, step: Step)
    requires Enabled(s, step)
    ensures var more := Logged(s, step);
            && Next(s, step).log == s.log + more && |more| <= 1
            && (Forwards(s, step) <==> more != [] && more[0].SignedWithFlags?)
            && Next(s, step).cache.refreshes == s.cache.refreshes + if more != [] && more[0].ListStarted? then 1 else 0
  {
    hide BuildAllowSet, Filter, Woken, Dispatch, Cache.Cached, Cache.Completed;
    if step.CacheStep? { ObservesOne(s.cache, step.inner); }
  }

  lemma ObservesOne(c: Cache.State, inner: Cache.Step)
    ensures |Observed(c, inner)| <= 1 && forall e | e in Observed(c, inner) :: !e.SignedWithFlags?
  {
  }

  lemma StepKeepsAccounts(s: State, step: Step)
    requires PartsOk(s) && Accounted(s) && Enabled(s, step)
    ensures Accounted(Next(s, step))
  {
    hide Next, Enabled, PartsOk, Forwarded, Signs, Lists, Logged;
    LogFollows(s, step);
    ForwardedFollows(s, step);
    LogCounts(s.log, Logged(s, step));
  }

  lemma LogCounts(log: seq<Upstream>, more: seq<Upstream>)
    requires |more| <= 1
    ensures Signs(log + more) == Signs(log) + if more != [] && more[0].SignedWithFlags? then 1 else 0
    ensures Lists(log + more) == Lists(log) + if more != [] && more[0].ListStarted? then 1 else 0
  {
    if more == [] {
      assert log + more == log;
    } else {
      assert more == [more[0]];
      OneMore(log, more[0]);
    }
  }

  lemma {:induction false} RunKeepsAccounts(s: State, steps: seq<Step>)
    requires PartsOk(s) && Accounted(s) && IsRun(s, steps)
    ensures PartsOk(Exec(s, steps)) && Accounted(Exec(s, steps))
    decreases |steps|
  {
    if steps != [] {
      StepKeepsParts(s, steps[0]);
      StepKeepsAccounts(s, steps[0]);
      hide PartsOk, Accounted;
      RunKeepsAccounts(Next(s, steps[0]), steps[1..]);
    }
  }

  /**
   The shared agent has been asked for exactly one sign for every request that was forwarded, and for
   exactly one list for every refresh the cache has begun, whatever the clients have asked for.
   */
  lemma UpstreamIsAccounted(s: State)
    requires Reachable(s)
    ensures Signs(s.log) == |Forwarded(s.client)|
    ensures Lists(s.log) == s.cache.refreshes
  {
    var conf, ttl, steps :| IsRun(Init(conf, ttl), steps) && Exec(Init(conf, ttl), steps) == s;
    assert Forwarded(Init(conf, ttl).client) == {};
    RunKeepsAccounts(Init(conf, ttl), steps);
  }
}
