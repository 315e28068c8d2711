/** One request from its arrival to its reply, whatever the other clients and the cache do meanwhile. */
module AuthorizationRequests {
  import opened Wrappers
  import opened Keys
  import Cache
  import opened Authorization
  import opened AuthorizationInvariant
  import opened AuthorizationProperties

  // ------------------------------------------------------------------ what a reply stands for

  /** A request to sign with this key and these flags. */
  predicate AsksToSign(request: Request, key: Key, flags: nat) {
    request == SignWithFlags(key, flags) || (request == Request.Sign(key) && flags == 0)
  }

  /** Refresh `r` was open at `s0`, or has been created since. */
  predicate OpenSince(s0: State, r: nat) {
    r < |s0.refreshes| ==> s0.refreshes[r].closes == 0
  }

  /** A refresh of the group that was not finished at `s0` has finished, with this error or none. */
  ghost predicate FinishedSince(s0: State, s: State, g: nat, err: Option<Failure>) {
    exists r :: FinishedAs(s0, s, g, r, err)
  }

  predicate FinishedAs(s0: State, s: State, g: nat, r: nat, err: Option<Failure>) {
    OpenSince(s0, r) && r < |s.refreshes| && s.refreshes[r].group == g && s.refreshes[r].closes > 0
    && s.refreshes[r].err == err
  }

  /** Such a refresh has finished without an error, and this is its view. */
  ghost predicate ViewedSince(s0: State, s: State, g: nat, view: seq<Key>) {
    exists r: nat :: FinishedAs(s0, s, g, r, None) && s.refreshes[r].visible == view
  }

  /** Upstream has been asked since `s0` to sign for the group, with this key and these flags. */
  ghost predicate SignedSince(s0: State, s: State, g: nat, key: Key, flags: nat) {
    exists n :: |s0.log| <= n < |s.log| && s.log[n] == SignedWithFlags(g, key, flags)
  }

  /** A listing that was the group's last resolved one at some time since `s0` does not select the key. */
  ghost predicate UnselectedSince(s0: State, s: State, g: nat, key: Key) {
    exists i :: RefusedBy(s0, s, g, key, i)
  }

  ghost predicate RefusedBy(s0: State, s: State, g: nat, key: Key, i: nat) {
    g < |s0.groups| && g < |s.groups| && g < |s.conf|
    && |s0.groups[g].resolved| <= i + 1 <= |s.groups[g].resolved|
    && !Selects(s.groups[g].resolved[i], s.conf[g], key)
  }

  /** What each request can be answered with, and what the answer stands for. */
  ghost predicate Answers(s0: State, s: State, g: nat, request: Request, reply: Reply) {
    match request
    case List =>
      (exists view :: reply == Identities(view) && ViewedSince(s0, s, g, view))
      || (exists e :: reply == Failed(e) && FinishedSince(s0, s, g, Some(e)))
    case Sign(key) => SignAnswered(s0, s, g, key, 0, reply)
    case SignWithFlags(key, flags) => SignAnswered(s0, s, g, key, flags, reply)
    case Extension => reply == Unsupported
    case _ => reply == Refused
  }

  ghost predicate SignAnswered(s0: State, s: State, g: nat, key: Key, flags: nat, reply: Reply) {
    match reply
    case Forwarded => SignedSince(s0, s, g, key, flags)
    case KeyNotInGroup => FinishedSince(s0, s, g, None) && UnselectedSince(s0, s, g, key)
    case Failed(e) => FinishedSince(s0, s, g, Some(e))
    case _ => false
  }

  // ------------------------------------------------------------------ on the way

  predicate Fits(request: Request, after: After) {
    match after
    case Replies => request.List?
    case Signs(key, flags) => AsksToSign(request, key, flags)
    case NextGroup => false
  }

  /** Where the client of a request that arrived at `s0` can be. */
  ghost predicate Underway(s0: State, s: State, g: nat, request: Request, pc: Pc) {
    && pc.group == g
    && match pc
       case Asked(_, q) => q == request
       case Joining(_) => request.List?
       case FastCheck(_, key, flags) => AsksToSign(request, key, flags)
       case LockedCheck(_, key, flags) => AsksToSign(request, key, flags)
       case LastCheck(_, key, flags) => AsksToSign(request, key, flags) && FinishedSince(s0, s, g, None)
       case Forward(_, key, flags) => AsksToSign(request, key, flags)
       case Replied(_, reply) => Answers(s0, s, g, request, reply)
       case _ => Fits(request, pc.after) && OpenSince(s0, pc.refresh)
  }

  /** What has happened since `s0` stays so. */
  ghost predicate Later(s: State, s': State) {
    && s.log <= s'.log && s'.conf == s.conf && |s'.groups| == |s.groups|
    && (forall g | 0 <= g < |s.groups| :: s.groups[g].resolved <= s'.groups[g].resolved)
    && |s.refreshes| <= |s'.refreshes|
    && (forall r | 0 <= r < |s.refreshes| && s.refreshes[r].closes > 0 :: s'.refreshes[r] == s.refreshes[r])
  }

  lemma StepIsLater(s: State, step: Step)
    requires Inv(s) && Enabled(s, step)
    ensures Later(s, Next(s, step))
  {
    LogOnlyGrows(s, step);
    ResolvedGrows(s, step);
    RefreshesFollow(s, step);
    forall r: nat | r < |s.refreshes| && s.refreshes[r].closes > 0
      ensures Next(s, step).refreshes[r] == s.refreshes[r]
    {
      FinishedStaysOneStep(s, step, r);
    }
    hide Inv, Next;
  }

  lemma FinishedLater(s0: State, s: State, s': State, g: nat, err: Option<Failure>)
    requires Later(s, s') && FinishedSince(s0, s, g, err)
    ensures FinishedSince(s0, s', g, err)
  {
    var r :| FinishedAs(s0, s, g, r, err);
    assert FinishedAs(s0, s', g, r, err);
  }

  lemma ViewedLater(s0: State, s: State, s': State, g: nat, view: seq<Key>)
    requires Later(s, s') && ViewedSince(s0, s, g, view)
    ensures ViewedSince(s0, s', g, view)
  {
    var r: nat :| FinishedAs(s0, s, g, r, None) && s.refreshes[r].visible == view;
    assert FinishedAs(s0, s', g, r, None);
  }

  lemma SignedLater(s0: State, s: State, s': State, g: nat, key: Key, flags: nat)
    requires Later(s, s') && SignedSince(s0, s, g, key, flags)
    ensures SignedSince(s0, s', g, key, flags)
  {
  }

  lemma UnselectedLater(s0: State, s: State, s': State, g: nat, key: Key)
    requires Later(s, s') && UnselectedSince(s0, s, g, key)
    ensures UnselectedSince(s0, s', g, key)
  {
    var i :| RefusedBy(s0, s, g, key, i);
    assert RefusedBy(s0, s', g, key, i);
  }

  lemma SignAnsweredLater(s0: State, s: State, s': State, g: nat, key: Key, flags: nat, reply: Reply)
    requires Later(s, s') && SignAnswered(s0, s, g, key, flags, reply)
    ensures SignAnswered(s0, s', g, key, flags, reply)
  {
    hide Later, FinishedSince, SignedSince, UnselectedSince;
    match reply
    case Forwarded => SignedLater(s0, s, s', g, key, flags);
    case KeyNotInGroup => FinishedLater(s0, s, s', g, None); UnselectedLater(s0, s, s', g, key);
    case Failed(e) => FinishedLater(s0, s, s', g, Some(e));
    case _ =>
  }

  lemma AnswersLater(s0: State, s: State, s': State, g: nat, request: Request, reply: Reply)
    requires Later(s, s') && Answers(s0, s, g, request, reply)
    ensures Answers(s0, s', g, request, reply)
  {
    hide Later, FinishedSince, ViewedSince, SignAnswered;
    match request
    case List =>
      if reply.Identities? { ViewedLater(s0, s, s', g, reply.keys); }
      else { FinishedLater(s0, s, s', g, Some(reply.err)); }
    case Sign(key) => SignAnsweredLater(s0, s, s', g, key, 0, reply);
    case SignWithFlags(key, flags) => SignAnsweredLater(s0, s, s', g, key, flags, reply);
    case _ =>
  }

  lemma UnderwayLater(s0: State, s: State, s': State, g: nat, request: Request, pc: Pc)
    requires Later(s, s') && Underway(s0, s, g, request, pc)
    ensures Underway(s0, s', g, request, pc)
  {
    hide Later, Answers, FinishedSince;
    if pc.Replied? { AnswersLater(s0, s, s', g, request, pc.reply); }
    if pc.LastCheck? { FinishedLater(s0, s, s', g, None); }
  }

  lemma FinishedNow(s0: State, s: State, r: nat)
    requires OpenSince(s0, r) && r < |s.refreshes| && s.refreshes[r].closes > 0
    ensures FinishedSince(s0, s, s.refreshes[r].group, s.refreshes[r].err)
    ensures s.refreshes[r].err == None ==> ViewedSince(s0, s, s.refreshes[r].group, s.refreshes[r].visible)
  {
    assert FinishedAs(s0, s, s.refreshes[r].group, r, s.refreshes[r].err);
  }

  lemma AskedMoves(s0: State, s: State, t: Client, g: nat, request: Request)
    requires Enabled(s, Act(t)) && s.client[t].Asked? && Underway(s0, s, g, request, s.client[t])
    ensures Underway(s0, Next(s, Act(t)), g, request, Next(s, Act(t)).client[t])
  {
    hide BuildAllowSet, Filter, Cache.Next, FinishedSince, ViewedSince, SignedSince, UnselectedSince;
  }

  /** Whoever joins finds a refresh that is open, or creates one. */
  lemma JoinerMoves(s0: State, s: State, t: Client, g: nat, request: Request)
    requires Later(s0, s) && Enabled(s, Act(t)) && (s.client[t].Joining? || s.client[t].LockedCheck?)
    requires Underway(s0, s, g, request, s.client[t])
    requires s.groups[g].inFlight.Some? ==> OpenSince(s0, s.groups[g].inFlight.value)
    ensures Underway(s0, Next(s, Act(t)), g, request, Next(s, Act(t)).client[t])
  {
    hide BuildAllowSet, Filter, FinishedSince, Answers;
  }

  lemma FlightIsOpen(s0: State, s: State, g: nat)
    requires Inv(s) && Later(s0, s) && g < |s.conf|
    ensures |s.groups| == |s.conf|
    ensures s.groups[g].inFlight.Some? ==> OpenSince(s0, s.groups[g].inFlight.value)
  {
  }

  /** A waiter comes back with what its refresh finished with. */
  lemma WaiterMoves(s0: State, s: State, t: Client, g: nat, request: Request)
    requires Enabled(s, Act(t)) && s.client[t].Waiting? && Underway(s0, s, g, request, s.client[t])
    requires s.refreshes[s.client[t].refresh].group == g
    ensures Underway(s0, Next(s, Act(t)), g, request, Next(s, Act(t)).client[t])
  {
    var pc, s' := s.client[t], Next(s, Act(t));
    var f := s.refreshes[pc.refresh];
    assert s'.refreshes == s.refreshes && s'.client[t] == Woken(g, f, pc.after);
    FinishedNow(s0, s', pc.refresh);
    hide Next, Enabled, FinishedSince, ViewedSince, UnselectedSince, SignedSince;
  }

  /** The last look: what it refuses, the listing resolved last does not select. */
  lemma LastLook(s0: State, s: State, t: Client, g: nat, request: Request)
    requires Later(s0, s) && Enabled(s, Act(t)) && s.client[t].LastCheck? && Underway(s0, s, g, request, s.client[t])
    requires g < |s0.groups| && (!Allows(s.groups[g], s.client[t].key) ==> UnselectedSince(s0, s, g, s.client[t].key))
    ensures Underway(s0, Next(s, Act(t)), g, request, Next(s, Act(t)).client[t])
  {
    var pc, s' := s.client[t], Next(s, Act(t));
    assert Later(s, s');
    hide Next, FinishedSince, UnselectedSince, SignedSince;
    FinishedLater(s0, s, s', g, None);
    if !Allows(s.groups[g], pc.key) { UnselectedLater(s0, s, s', g, pc.key); }
    hide Later;
  }

  lemma FastLook(s0: State, s: State, t: Client, g: nat, request: Request)
    requires Enabled(s, Act(t)) && s.client[t].FastCheck? && Underway(s0, s, g, request, s.client[t])
    ensures Underway(s0, Next(s, Act(t)), g, request, Next(s, Act(t)).client[t])
  {
    hide FinishedSince, Answers;
  }

  /** A group that has resolved a listing and does not allow the key does not select it from the last one. */
  lemma NotAllowed(s0: State, s: State, g: nat, key: Key)
    requires Inv(s) && Later(s0, s) && g < |s.conf| && g < |s0.groups| && FinishedSince(s0, s, g, None)
    requires ResolvedFirst(s) && !Allows(s.groups[g], key)
    ensures UnselectedSince(s0, s, g, key)
  {
    hide Selects, ResolvedFirst;
    FinishedHasResolved(s0, s, g);
    assert GroupOk(s.log, s.conf[g], s.groups[g]);
    hide Inv, GroupOk;
    GroupAllows(s.log, s.conf[g], s.groups[g], key);
    assert RefusedBy(s0, s, g, key, |s.groups[g].resolved| - 1);
  }

  lemma FinishedHasResolved(s0: State, s: State, g: nat)
    requires ResolvedFirst(s) && FinishedSince(s0, s, g, None)
    ensures g < |s.groups| && s.groups[g].resolved != []
  {
    var r: nat :| FinishedAs(s0, s, g, r, None);
    assert RefreshResolved(s.groups, s.refreshes[r]);
  }

  lemma ForwardMoves(s0: State, s: State, t: Client, g: nat, request: Request)
    requires Later(s0, s) && Enabled(s, Act(t)) && s.client[t].Forward? && Underway(s0, s, g, request, s.client[t])
    ensures Underway(s0, Next(s, Act(t)), g, request, Next(s, Act(t)).client[t])
  {
    var pc, s' := s.client[t], Next(s, Act(t));
    assert s'.log[|s.log|] == SignedWithFlags(g, pc.key, pc.flags);
    assert SignedSince(s0, s', g, pc.key, pc.flags);
  }

  lemma OwnerMoves(s0: State, s: State, t: Client, g: nat, request: Request)
    requires Enabled(s, Act(t)) && Underway(s0, s, g, request, s.client[t])
    requires s.client[t].Owning? || s.client[t].Listing? || s.client[t].Resolving? || s.client[t].Finishing?
    ensures Underway(s0, Next(s, Act(t)), g, request, Next(s, Act(t)).client[t])
  {
    hide BuildAllowSet, Filter, Cache.Next, Answers;
  }

  lemma GroupExists(s0: State, s: State, pc: Pc)
    requires Later(s0, s) && |s0.groups| == |s0.conf| && pc.group < |s0.conf| && PcOk(s, pc)
    ensures pc.group < |s0.groups| && pc.group < |s.conf|
    ensures pc.Waiting? ==> pc.refresh < |s.refreshes| && s.refreshes[pc.refresh].group == pc.group
  {
  }

  /** The client's own step. */
  lemma MoverUnderway(s0: State, s: State, t: Client, g: nat, request: Request)
    requires Inv(s) && ResolvedFirst(s) && Later(s0, s) && |s0.groups| == |s0.conf| && g < |s0.conf|
    requires Enabled(s, Act(t)) && Underway(s0, s, g, request, s.client[t])
    ensures Underway(s0, Next(s, Act(t)), g, request, Next(s, Act(t)).client[t])
  {
    var pc := s.client[t];
    assert PcOk(s, pc);
    GroupExists(s0, s, pc);
    hide Inv, ResolvedFirst, Later, PcOk, Next, Answers, FinishedSince, UnselectedSince;
    if pc.Asked? { AskedMoves(s0, s, t, g, request); }
    else if pc.Joining? || pc.LockedCheck? { FlightIsOpen(s0, s, g); JoinerMoves(s0, s, t, g, request); }
    else if pc.Waiting? { WaiterMoves(s0, s, t, g, request); }
    else if pc.FastCheck? { FastLook(s0, s, t, g, request); }
    else if pc.LastCheck? {
      if !Allows(s.groups[g], pc.key) { NotAllowed(s0, s, g, pc.key); }
      LastLook(s0, s, t, g, request);
    }
    else if pc.Forward? { ForwardMoves(s0, s, t, g, request); }
    else { OwnerMoves(s0, s, t, g, request); }
  }

  lemma LaterOn(s0: State, s: State, s': State)
    requires Later(s0, s) && Later(s, s')
    ensures Later(s0, s')
  {
  }

  lemma StepUnderway(s0: State, s: State, step: Step, t: Client, g: nat, request: Request)
    requires Inv(s) && ResolvedFirst(s) && Later(s0, s) && |s0.groups| == |s0.conf| && g < |s0.conf|
    requires Enabled(s, step) && t in s.client && Underway(s0, s, g, request, s.client[t])
    ensures t in Next(s, step).client && Underway(s0, Next(s, step), g, request, Next(s, step).client[t])
    ensures Later(s0, Next(s, step))
  {
    hide ResolvedFirst, Next, Underway, Enabled, Inv;
    OthersStand(s, step);
    StepIsLater(s, step);
    LaterOn(s0, s, Next(s, step));
    if step == Act(t) {
      MoverUnderway(s0, s, t, g, request);
    } else {
      UnderwayLater(s0, s, Next(s, step), g, request, s.client[t]);
    }
  }

  lemma {:induction false} RunUnderway(s0: State, s: State, steps: seq<Step>, t: Client, g: nat, request: Request)
    requires Inv(s) && ResolvedFirst(s) && Later(s0, s) && |s0.groups| == |s0.conf| && g < |s0.conf|
    requires IsRun(s, steps) && t in s.client && Underway(s0, s, g, request, s.client[t])
    ensures t in Exec(s, steps).client && Underway(s0, Exec(s, steps), g, request, Exec(s, steps).client[t])
    decreases |steps|
  {
    hide Inv, ResolvedFirst, Later, Underway, Enabled, Next;
    if steps != [] {
      StepUnderway(s0, s, steps[0], t, g, request);
      StepKeepsInv(s, steps[0]);
      StepKeepsResolvedFirst(s, steps[0]);
      RunUnderway(s0, Next(s, steps[0]), steps[1..], t, g, request);
    }
  }

  lemma ReachableIsResolved(s: State)
    requires Reachable(s)
    ensures Inv(s) && ResolvedFirst(s) && |s.groups| == |s.conf|
  {
    var conf, ttl, steps :| IsRun(Init(conf, ttl), steps) && Exec(Init(conf, ttl), steps) == s;
    ReachableHasInv(s);
    InitInv(conf, ttl);
    assert ResolvedFirst(Init(conf, ttl)) by { hide Inv; }
    RunKeepsResolvedFirst(Init(conf, ttl), steps);
    hide ResolvedFirst;
  }

  /**
   Every reply to a request, in every run, is one this request can be answered with, and stands for
   what has happened since it arrived: a refresh of its group that finished since, a sign that
   reached upstream since, or a listing that did not select the key.
   */
  lemma ReplyIsEarned(s0: State, t: Client, g: nat, request: Request, steps: seq<Step>)
    requires Reachable(s0) && Enabled(s0, Arrive(t, g, request)) && IsRun(Next(s0, Arrive(t, g, request)), steps)
    requires var s := Exec(Next(s0, Arrive(t, g, request)), steps); t in s.client && s.client[t].Replied?
    ensures var s := Exec(Next(s0, Arrive(t, g, request)), steps);
            s.client[t].group == g && Answers(s0, s, g, request, s.client[t].reply)
  {
    var s1 := Next(s0, Arrive(t, g, request));
    ReachableIsResolved(s0);
    StepKeepsInv(s0, Arrive(t, g, request));
    StepKeepsResolvedFirst(s0, Arrive(t, g, request));
    StepIsLater(s0, Arrive(t, g, request));
    assert Underway(s0, s1, g, request, s1.client[t]);
    hide Inv, ResolvedFirst, Later, Reachable, Answers;
    RunUnderway(s0, s1, steps, t, g, request);
  }
}
