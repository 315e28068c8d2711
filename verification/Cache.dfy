/**
 The shared identity cache of internal/proxy/cache.go: any number of List calls, one upstream.

 A call's program point is where it stands in the retry loop. One step is one section under the
 mutex, one wait on the in-flight refresh, or one end of the upstream request. The clock never
 goes backwards, and every reading of it inside a section is the time of that step.
 */
module Cache {
  import opened Wrappers
  import opened Keys

  type Call = nat
  type Failure = nat
  type Listing = Result<seq<Key>, Failure>

  /** The fields the mutex guards; `inFlight` names the refresh its channel belongs to. */
  datatype Entry = Entry(
    keys: seq<Key>,
    hasSnapshot: bool,
    cachedErr: Option<Failure>,
    expiresAt: int,
    inFlight: Option<nat>)

  datatype Pc =
    | Probe(missed: bool)
    | Await(flight: nat)
    | Claimed(flight: nat)
    | Fetching(flight: nat)
    | Fetched(flight: nat, result: Listing)
    | Bypass
    | BypassFetching
    | Returned(result: Listing)

  datatype Completion = Completion(time: int, result: Listing)

  datatype State = State(
    ttl: int,
    now: int,
    entry: Entry,
    call: map<Call, Pc>,
    hits: nat,
    misses: nat,
    waits: nat,
    refreshes: nat,
    // history
    flights: nat,
    owner: Option<Call>,
    starts: seq<int>,
    completions: seq<Completion>,
    hitters: set<Call>,
    missers: set<Call>,
    refreshers: set<Call>)

  datatype Step =
    | Begin(call: Call)
    | Tick(span: nat)
    | Answer(call: Call, result: Listing)
    | Act(call: Call)

  const EMPTY := Entry([], false, None, 0, None)

  function Init(ttl: int): State {
    State(ttl, 0, EMPTY, map[], 0, 0, 0, 0, 0, None, [], [], {}, {}, {})
  }

  /** What the cache holds for a caller that finds it fresh. */
  function Cached(e: Entry): Listing {
    if e.cachedErr.Some? then Err(e.cachedErr.value) else Ok(e.keys)
  }

  /** The section that ends a refresh: a failure after a success keeps the old keys. */
  function Completed(e: Entry, result: Listing, now: int, ttl: int): Entry {
    var (keys, hasSnapshot, cachedErr) :=
      if result.Ok? then (result.value, true, None)
      else if e.hasSnapshot then (e.keys, e.hasSnapshot, None)
      else ([], e.hasSnapshot, Some(result.error));
    Entry(keys, hasSnapshot, cachedErr, now + ttl, None)
  }

  predicate Enabled(s: State, step: Step) {
    match step
    case Begin(c) => c !in s.call
    case Tick(_) => true
    case Answer(c, _) => c in s.call && (s.call[c].Fetching? || s.call[c].BypassFetching?)
    case Act(c) =>
      && c in s.call
      && match s.call[c]
         case Probe(_) => true
         case Await(f) => s.entry.inFlight != Some(f)
         case Claimed(_) => true
         case Fetched(_, _) => true
         case Bypass => true
         case _ => false
  }

  function At(s: State, c: Call, pc: Pc): State {
    s.(call := s.call[c := pc])
  }

  function Next(s: State, step: Step): State
    requires Enabled(s, step)
  {
    match step
    case Begin(c) => At(s, c, if s.ttl <= 0 then Bypass else Probe(false))
    case Tick(span) => s.(now := s.now + span)
    case Answer(c, result) =>
      At(s, c, if s.call[c].Fetching? then Fetched(s.call[c].flight, result) else Returned(result))
    case Act(c) =>
      match s.call[c]
      case Probe(missed) => ProbeStep(s, c, missed)
      case Await(_) => At(s, c, Probe(true))
      case Claimed(f) => At(Started(s, c), c, Fetching(f))
      case Fetched(_, result) =>
        var entry := Completed(s.entry, result, s.now, s.ttl);
        At(s.(entry := entry, owner := None, completions := s.completions + [Completion(s.now, result)]),
           c, Returned(Cached(entry)))
      case Bypass => At(Started(Missed(s, c, false), c), c, BypassFetching)
  }

  /** A call counts one miss, however often it goes round the loop. */
  function Missed(s: State, c: Call, already: bool): State {
    if already then s else s.(misses := s.misses + 1, missers := s.missers + {c})
  }

  /** An upstream list begins. */
  function Started(s: State, c: Call): State {
    s.(refreshes := s.refreshes + 1, refreshers := s.refreshers + {c}, starts := s.starts + [s.now])
  }

  function ProbeStep(s: State, c: Call, missed: bool): State {
    if s.now < s.entry.expiresAt then
      At(if missed then s else s.(hits := s.hits + 1, hitters := s.hitters + {c}), c, Returned(Cached(s.entry)))
    else
      var m := Missed(s, c, missed);
      if s.entry.inFlight.Some? then At(m.(waits := s.waits + 1), c, Await(s.entry.inFlight.value))
      else
        At(m.(entry := s.entry.(inFlight := Some(s.flights)), flights := s.flights + 1, owner := Some(c)),
           c, Claimed(s.flights))
  }

  predicate IsRun(s: State, steps: seq<Step>)
    decreases |steps|
  {
    steps == [] || (Enabled(s, steps[0]) && IsRun(Next(s, steps[0]), steps[1..]))
  }

  function Exec(s: State, steps: seq<Step>): State
    requires IsRun(s, steps)
    decreases |steps|
  {
    if steps == [] then s else Exec(Next(s, steps[0]), steps[1..])
  }

  // ------------------------------------------------------------------ the simple form

  predicate AnyOk(h: seq<Completion>) {
    exists i :: 0 <= i < |h| && h[i].result.Ok?
  }

  /** What the cache stands for: the last successful listing, or the last error if there is none. */
  function Latest(h: seq<Completion>): Listing
    requires h != []
  {
    var last := h[|h| - 1].result;
    if last.Ok? || |h| == 1 then last
    else
      var before := Latest(h[..|h| - 1]);
      if before.Ok? then before else last
  }

  lemma {:induction false} LatestOk(h: seq<Completion>)
    requires h != []
    ensures Latest(h).Ok? <==> AnyOk(h)
    decreases |h|
  {
    if |h| > 1 {
      var front := h[..|h| - 1];
      LatestOk(front);
      assert AnyOk(front) ==> AnyOk(h) by {
        if AnyOk(front) {
          var i :| 0 <= i < |front| && front[i].result.Ok?;
          assert h[i].result.Ok?;
        }
      }
      assert AnyOk(h) && !h[|h| - 1].result.Ok? ==> AnyOk(front) by {
        if AnyOk(h) && !h[|h| - 1].result.Ok? {
          var i :| 0 <= i < |h| && h[i].result.Ok?;
          assert front[i].result.Ok?;
        }
      }
    }
  }

  // ------------------------------------------------------------------ the invariant

  predicate Refreshing(pc: Pc) {
    pc.Claimed? || pc.Fetching? || pc.Fetched?
  }

  predicate OnBypass(pc: Pc) {
    pc.Bypass? || pc.BypassFetching?
  }

  /** The refresh in flight has one owner, and it is the only call that refreshes. */
  ghost predicate SingleFlight(s: State) {
    && (s.owner.Some? <==> s.entry.inFlight.Some?)
    && (s.owner.Some? ==> s.owner.value in s.call && Refreshing(s.call[s.owner.value])
                          && s.entry.inFlight == Some(s.call[s.owner.value].flight))
    && (forall c | c in s.call && Refreshing(s.call[c]) :: s.owner == Some(c))
    && (s.entry.inFlight.Some? ==> s.entry.inFlight.value < s.flights)
    && (forall c | c in s.call && s.call[c].Await? :: s.call[c].flight < s.flights)
    && (forall c | c in s.call :: OnBypass(s.call[c]) ==> s.ttl <= 0)
    && (s.ttl <= 0 ==> forall c | c in s.call :: OnBypass(s.call[c]) || s.call[c].Returned?)
  }

  /** The entry is the simple form of the completed refreshes. */
  ghost predicate Refines(s: State) {
    if s.completions == [] then s.entry.expiresAt == 0 && !s.entry.hasSnapshot && s.entry.cachedErr == None
    else
      && s.entry.expiresAt == s.completions[|s.completions| - 1].time + s.ttl
      && (s.entry.hasSnapshot ==> s.entry.cachedErr == None)
      && (s.entry.hasSnapshot <==> AnyOk(s.completions))
      && Cached(s.entry) == Latest(s.completions)
  }

  /** Refreshes begin at least a ttl apart. */
  ghost predicate Spaced(s: State) {
    && 0 <= s.now
    && (forall i | 0 <= i < |s.starts| - 1 :: s.starts[i + 1] >= s.starts[i] + s.ttl)
    && (s.starts != [] ==>
          var last := s.starts[|s.starts| - 1];
          if s.owner == None then last + s.ttl <= s.entry.expiresAt
          else if s.owner.value in s.call && s.call[s.owner.value].Claimed? then last + s.ttl <= s.now
          else last <= s.now)
  }

  ghost predicate Counted(s: State) {
    s.hits == |s.hitters| && s.misses == |s.missers| && s.refreshes == |s.refreshers| && s.refreshes == |s.starts|
  }

  /** Where a call stands tells what it has counted. */
  ghost predicate Marks(s: State) {
    && s.refreshers <= s.missers && s.hitters !! s.missers
    && s.hitters + s.missers <= s.call.Keys
    && (forall c | c in s.call :: MarkOk(s, c, s.call[c]))
  }

  ghost predicate MarkOk(s: State, c: Call, pc: Pc) {
    match pc
    case Probe(missed) => c !in s.hitters && (c in s.missers <==> missed) && c !in s.refreshers
    case Bypass => c !in s.hitters && c !in s.missers
    case Returned(_) => c in s.hitters || c in s.missers
    case Await(_) => c in s.missers && c !in s.refreshers
    case Claimed(_) => c in s.missers && c !in s.refreshers
    case _ => c in s.missers
  }

  ghost predicate Inv(s: State) {
    SingleFlight(s) && Refines(s) && (s.ttl > 0 ==> Spaced(s)) && Counted(s) && Marks(s)
  }

  lemma InitInv(ttl: int)
    ensures Inv(Init(ttl))
  {
  }

  /** Only the caller of the step moves, and the refresh in flight changes hands only by its step. */
  lemma KeepsSingleFlight(s: State, step: Step)
    requires SingleFlight(s) && Enabled(s, step)
    ensures SingleFlight(Next(s, step))
  {
    if step.Act? {
      ActKeepsSingleFlight(s, step.call);
    }
  }

  lemma ActKeepsSingleFlight(s: State, c: Call)
    requires SingleFlight(s) && Enabled(s, Act(c))
    ensures SingleFlight(Next(s, Act(c)))
  {
    hide Cached, Completed;
    match s.call[c]
    case Probe(missed) => ProbeKeepsSingleFlight(s, c, missed);
    case Fetched(_, result) =>
      assert s.owner == Some(c);
      assert Completed(s.entry, result, s.now, s.ttl).inFlight == None by { Released(s.entry, result, s.now, s.ttl); }
    case Claimed(_) => assert s.owner == Some(c);
    case _ =>
  }

  lemma Released(e: Entry, result: Listing, now: int, ttl: int)
    ensures Completed(e, result, now, ttl).inFlight == None
  {
  }

  lemma ProbeKeepsSingleFlight(s: State, c: Call, missed: bool)
    requires SingleFlight(s) && c in s.call && s.call[c] == Probe(missed)
    ensures SingleFlight(ProbeStep(s, c, missed))
  {
    hide Cached;
    assert s.ttl > 0;
  }

  lemma {:induction false} LatestNext(h: seq<Completion>, c: Completion)
    ensures Latest(h + [c]) ==
            if c.result.Ok? || h == [] then c.result
            else if Latest(h).Ok? then Latest(h) else c.result
    ensures AnyOk(h + [c]) <==> AnyOk(h) || c.result.Ok?
  {
    var all := h + [c];
    assert all[..|all| - 1] == h;
    if AnyOk(h) {
      var i :| 0 <= i < |h| && h[i].result.Ok?;
      assert all[i].result.Ok?;
    }
    if c.result.Ok? {
      assert all[|h|].result.Ok?;
    }
  }

  lemma KeepsRefines(s: State, step: Step)
    requires Refines(s) && Enabled(s, step)
    ensures Refines(Next(s, step))
  {
    if step.Act? && s.call[step.call].Fetched? {
      LatestNext(s.completions, Completion(s.now, s.call[step.call].result));
      if s.completions != [] {
        LatestOk(s.completions);
      }
    }
  }

  lemma KeepsSpaced(s: State, step: Step)
    requires s.ttl > 0 && SingleFlight(s) && Refines(s) && Spaced(s) && Enabled(s, step)
    ensures Spaced(Next(s, step))
  {
  }

  lemma OneMore(counted: set<Call>, c: Call)
    requires c !in counted
    ensures |counted + {c}| == |counted| + 1
  {
  }

  lemma ProbeCounts(s: State, c: Call, missed: bool)
    requires Counted(s) && c !in s.hitters && (c in s.missers <==> missed)
    ensures Counted(ProbeStep(s, c, missed))
  {
    hide Cached;
    OneMore(s.hitters, c);
    if missed {
      assert s.missers + {c} == s.missers;
    } else {
      OneMore(s.missers, c);
    }
  }

  lemma StartCounts(s: State, c: Call)
    requires Counted(s) && c !in s.refreshers
    ensures Counted(Started(s, c))
  {
    OneMore(s.refreshers, c);
  }

  lemma KeepsCounted(s: State, step: Step)
    requires Counted(s) && Marks(s) && Enabled(s, step)
    ensures Counted(Next(s, step))
  {
    if step.Act? {
      var c := step.call;
      assert MarkOk(s, c, s.call[c]);
      match s.call[c]
      case Probe(missed) => ProbeCounts(s, c, missed);
      case Claimed(_) => StartCounts(s, c);
      case Bypass =>
        OneMore(s.missers, c);
        StartCounts(Missed(s, c, false), c);
      case _ =>
    }
  }

  lemma MarkFrame(s: State, s': State, c: Call, pc: Pc)
    requires (c in s'.hitters <==> c in s.hitters) && (c in s'.missers <==> c in s.missers)
    requires c in s'.refreshers <==> c in s.refreshers
    requires MarkOk(s, c, pc)
    ensures MarkOk(s', c, pc)
  {
  }

  lemma MarkMoves(s: State, step: Step)
    requires Marks(s) && Enabled(s, step) && !step.Tick?
    ensures MarkOk(Next(s, step), step.call, Next(s, step).call[step.call])
  {
    assert step.Answer? || step.Act? ==> MarkOk(s, step.call, s.call[step.call]);
  }

  lemma KeepsMarks(s: State, step: Step)
    requires Marks(s) && Enabled(s, step)
    ensures Marks(Next(s, step))
  {
    var s' := Next(s, step);
    if step.Act? || step.Answer? {
      assert MarkOk(s, step.call, s.call[step.call]);
    }
    assert s'.refreshers <= s'.missers && s'.hitters !! s'.missers && s'.hitters + s'.missers <= s'.call.Keys;
    if !step.Tick? {
      MarkMoves(s, step);
    }
    hide MarkOk;
    forall c | c in s'.call && (step.Tick? || c != step.call)
      ensures MarkOk(s', c, s'.call[c])
    {
      MarkFrame(s, s', c, s.call[c]);
    }
  }

  lemma TtlStays(s: State, step: Step)
    requires Enabled(s, step)
    ensures Next(s, step).ttl == s.ttl
  {
    hide Cached, Completed;
  }

  lemma StepKeepsInv(s: State, step: Step)
    requires Inv(s) && Enabled(s, step)
    ensures Inv(Next(s, step)) && Next(s, step).ttl == s.ttl
  {
    hide SingleFlight, Refines, Spaced, Counted, Marks, Next, Enabled;
    TtlStays(s, step);
    KeepsSingleFlight(s, step);
    KeepsRefines(s, step);
    if s.ttl > 0 { KeepsSpaced(s, step); }
    KeepsCounted(s, step);
    KeepsMarks(s, step);
  }

  lemma {:induction false} RunKeepsInv(s: State, steps: seq<Step>)
    requires Inv(s) && IsRun(s, steps)
    ensures Inv(Exec(s, steps)) && Exec(s, steps).ttl == s.ttl
    decreases |steps|
  {
    if steps != [] {
      StepKeepsInv(s, steps[0]);
      RunKeepsInv(Next(s, steps[0]), steps[1..]);
    }
  }
}
