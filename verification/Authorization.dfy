/**
 What a client of a group socket can make the proxy do: the filtering agent of
 internal/proxy/agent.go over the group authorization of internal/proxy/authorization.go over the
 shared cache. Any number of clients of any number of groups run concurrently with the goroutine
 that completes the startup refreshes; each group's mutex section and each atomic load or store of
 its snapshot is one step, and the steps of the cache are those of module Cache.

 Upstream is the agent the groups share, reconnectClient, at its methods: an entry of the log is a
 call of one of them or its result, and what such a call does on the wire is module Upstream.
 */
module Authorization {
  import opened Wrappers
  import opened Keys
  import Cache

  type Client = nat
  type Failure = Cache.Failure
  type Listing = Cache.Listing

  datatype Request =
    | List
    | Sign(key: Key)
    | SignWithFlags(key: Key, flags: nat)
    | Add | Remove | RemoveAll | Lock | Unlock | Signers | Extension

  datatype Reply =
    | Identities(keys: seq<Key>)
    | Failed(err: Failure)
    | KeyNotInGroup
    | Refused
    | Unsupported
    | Forwarded

  /** Every operation an upstream agent has. */
  datatype Upstream =
    | ListStarted
    | ListReturned(result: Listing)
    | SignedWithFlags(group: nat, key: Key, flags: nat)
    | Signed | Added | RemovedOne | RemovedAll | Locked | Unlocked | SignersListed | Extended

  /** What the owner or a joiner of a refresh does once it is done. */
  datatype After = Replies | Signs(key: Key, flags: nat) | NextGroup

  datatype Pc =
    | Asked(group: nat, request: Request)
    | Joining(group: nat)
    | FastCheck(group: nat, key: Key, flags: nat)
    | LockedCheck(group: nat, key: Key, flags: nat)
    | Owning(group: nat, refresh: nat, after: After)
    | Listing(group: nat, refresh: nat, call: Cache.Call, after: After)
    | Resolving(group: nat, refresh: nat, result: Listing, after: After)
    | Finishing(group: nat, refresh: nat, result: Listing, after: After)
    | Waiting(group: nat, refresh: nat, after: After)
    | LastCheck(group: nat, key: Key, flags: nat)
    | Forward(group: nat, key: Key, flags: nat)
    | Replied(group: nat, reply: Reply)

  /** authorizationRefresh; `closes` counts the closes of its channel, `source` is the listing it resolved. */
  datatype Refresh = Refresh(group: nat, visible: seq<Key>, err: Option<Failure>, closes: nat, source: seq<Key>)

  /** The mutable part of groupAuthorization, and the listings it has resolved. */
  datatype Group = Group(snapshot: Option<set<Blob>>, inFlight: Option<nat>, resolved: seq<seq<Key>>)

  datatype State = State(
    conf: seq<seq<Matcher>>,
    cache: Cache.State,
    groups: seq<Group>,
    refreshes: seq<Refresh>,
    owner: seq<Client>,
    log: seq<Upstream>,
    client: map<Client, Pc>)

  datatype Step =
    | Arrive(who: Client, group: nat, request: Request)
    | CacheStep(inner: Cache.Step)
    | Act(who: Client)

  /** The client id of the startup goroutine. */
  const STARTUP: Client := 0

  /** Run claims every group's startup refresh before any socket exists. */
  function Init(conf: seq<seq<Matcher>>, ttl: int): State {
    State(conf, Cache.Init(ttl),
          seq(|conf|, g requires 0 <= g < |conf| => Group(None, Some(g), [])),
          seq(|conf|, g requires 0 <= g < |conf| => Refresh(g, [], None, 0, [])),
          seq(|conf|, _ => STARTUP),
          [],
          map[STARTUP := if |conf| > 0 then Owning(0, 0, NextGroup) else Replied(0, Forwarded)])
  }

  predicate Enabled(s: State, step: Step) {
    match step
    case Arrive(t, g, _) => t !in s.client && g < |s.conf|
    case CacheStep(inner) => !inner.Begin? && Cache.Enabled(s.cache, inner)
    case Act(t) =>
      && t in s.client
      && PcInRange(s, s.client[t])
      && match s.client[t]
         case Owning(_, _, _) => NewCall(s.cache) !in s.cache.call
         case Listing(_, _, call, _) => call in s.cache.call && s.cache.call[call].Returned?
         case Waiting(_, r, _) => s.refreshes[r].closes > 0
         case Replied(_, _) => false
         case _ => true
  }

  predicate PcInRange(s: State, pc: Pc) {
    && |s.groups| == |s.conf| && pc.group < |s.conf|
    && (pc.Resolving? || pc.Finishing? || pc.Waiting? ==> pc.refresh < |s.refreshes|)
  }

  function NewCall(c: Cache.State): Cache.Call {
    |c.call|
  }

  function At(s: State, t: Client, pc: Pc): State {
    s.(client := s.client[t := pc])
  }

  function Next(s: State, step: Step): State
    requires Enabled(s, step)
  {
    match step
    case Arrive(t, g, request) => At(s, t, Asked(g, request))
    case CacheStep(inner) =>
      s.(cache := Cache.Next(s.cache, inner), log := s.log + Observed(s.cache, inner))
    case Act(t) => Move(s, t, s.client[t])
  }

  /** What a step of the cache shows the upstream agent, or gets from it. */
  function Observed(c: Cache.State, inner: Cache.Step): seq<Upstream> {
    match inner
    case Answer(_, result) => [ListReturned(result)]
    case Act(call) => if call in c.call && (c.call[call].Claimed? || c.call[call].Bypass?) then [ListStarted] else []
    case _ => []
  }

  function Allows(g: Group, key: Key): bool {
    g.snapshot.Some? && key.blob in g.snapshot.value
  }

  function Move(s: State, t: Client, pc: Pc): State
    requires t in s.client && PcInRange(s, pc) && Enabled(s, Act(t)) && pc == s.client[t]
  {
    var g := pc.group;
    match pc
    case Asked(_, request) => At(s, t, Dispatch(g, request))
    case Joining(_) => Join(s, t, g, Replies)
    case FastCheck(_, key, flags) =>
      At(s, t, if Allows(s.groups[g], key) then Forward(g, key, flags) else LockedCheck(g, key, flags))
    case LockedCheck(_, key, flags) =>
      if Allows(s.groups[g], key) then At(s, t, Forward(g, key, flags)) else Join(s, t, g, Signs(key, flags))
    case Owning(_, r, after) =>
      var call := NewCall(s.cache);
      At(s.(cache := Cache.Next(s.cache, Cache.Begin(call))), t, Listing(g, r, call, after))
    case Listing(_, r, call, after) => At(s, t, Resolving(g, r, s.cache.call[call].result, after))
    case Resolving(_, r, result, after) =>
      At(if result.Ok? then s.(groups := s.groups[g := Published(s.groups[g], result.value, s.conf[g])]) else s,
         t, Finishing(g, r, result, after))
    case Finishing(_, r, result, after) => FinishRefresh(s, t, g, r, result, after)
    case Waiting(_, r, after) => At(s, t, Woken(g, s.refreshes[r], after))
    case LastCheck(_, key, flags) =>
      At(s, t, if Allows(s.groups[g], key) then Forward(g, key, flags) else Replied(g, KeyNotInGroup))
    case Forward(_, key, flags) => At(s.(log := s.log + [SignedWithFlags(g, key, flags)]), t, Replied(g, Forwarded))
  }

  /** filterAgent's methods: list, sign, and everything it refuses. */
  function Dispatch(g: nat, request: Request): Pc {
    match request
    case List => Joining(g)
    case Sign(key) => FastCheck(g, key, 0)
    case SignWithFlags(key, flags) => FastCheck(g, key, flags)
    case Extension => Replied(g, Unsupported)
    case _ => Replied(g, Refused)
  }

  /** joinRefreshLocked: wait for the refresh in flight, or own a new one. */
  function Join(s: State, t: Client, g: nat, after: After): State
    requires g < |s.groups|
  {
    if s.groups[g].inFlight.Some? then At(s, t, Waiting(g, s.groups[g].inFlight.value, after))
    else
      var r := |s.refreshes|;
      At(s.(groups := s.groups[g := s.groups[g].(inFlight := Some(r))],
            refreshes := s.refreshes + [Refresh(g, [], None, 0, [])],
            owner := s.owner + [t]), t, Owning(g, r, after))
  }

  /** resolve: publishes the allow set of the filtered listing. */
  function Published(g: Group, listing: seq<Key>, matchers: seq<Matcher>): Group {
    g.(snapshot := Some(BuildAllowSet(listing, matchers)), resolved := g.resolved + [listing])
  }

  /** The section that ends a refresh; the startup goroutine goes on to the next group. */
  function FinishRefresh(s: State, t: Client, g: nat, r: nat, result: Listing, after: After): State
    requires g < |s.groups| && |s.groups| == |s.conf| && r < |s.refreshes|
  {
    var was := s.refreshes[r];
    var done := if result.Ok? then was.(visible := Filter(result.value, s.conf[g]), err := None, source := result.value)
                else was.(visible := [], err := Some(result.error));
    At(s.(groups := s.groups[g := s.groups[g].(inFlight := None)],
          refreshes := s.refreshes[r := done.(closes := was.closes + 1)]),
       t,
       if !after.NextGroup? then Waiting(g, r, after)
       else if g + 1 < |s.conf| then Resolving(g + 1, g + 1, result, NextGroup)
       else Replied(g, Forwarded))
  }

  function Woken(g: nat, r: Refresh, after: After): Pc {
    match after
    case Replies => Replied(g, if r.err.Some? then Failed(r.err.value) else Identities(r.visible))
    case Signs(key, flags) => if r.err.Some? then Replied(g, Failed(r.err.value)) else LastCheck(g, key, flags)
    case NextGroup => Replied(g, Forwarded)
  }

  predicate IsRun(s: State, steps: seq<Step>)
    decreases |steps|
  {
    steps == [] || (Enabled(s, steps[0]) && IsRun(Next(s, steps[0]), steps[1..]))
  }

  function Exec(s: State, steps: seq<Step>): State
    requires IsRun(s, steps)
    decreases |steps|
  {
    if steps == [] then s else Exec(Next(s, steps[0]), steps[1..])
  }
}
