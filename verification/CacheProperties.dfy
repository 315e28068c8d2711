/** What the shared cache guarantees over every run, and its critical sections as the code has them. */
module CacheProperties {
  import opened Wrappers
  import opened Keys
  import opened Cache

  ghost predicate Reachable(s: State) {
    exists ttl, steps :: IsRun(Init(ttl), steps) && Exec(Init(ttl), steps) == s
  }

  lemma ReachableHasInv(s: State)
    requires Reachable(s)
    ensures Inv(s)
  {
    var ttl, steps :| IsRun(Init(ttl), steps) && Exec(Init(ttl), steps) == s;
    InitInv(ttl);
    RunKeepsInv(Init(ttl), steps);
  }

  /** Call `c` comes back in this step. */
  predicate Returns(s: State, step: Step, c: Call)
    requires Enabled(s, step)
  {
    c in s.call && !s.call[c].Returned? && Next(s, step).call[c].Returned?
  }

  /** With a ttl, every List returns the last successful upstream listing, or the last error before any. */
  lemma ListReturnsLatest(s: State, step: Step, c: Call)
    requires Inv(s) && s.ttl > 0 && Enabled(s, step) && Returns(s, step, c)
    ensures var s' := Next(s, step);
            c in s'.call && s'.call[c].Returned? && s'.completions != [] && s'.call[c].result == Latest(s'.completions)
  {
    KeepsRefines(s, step);
    ComesBack(s, step, c);
    HitNeedsCompletion(s, step, c);
    hide Inv, Next, Latest, AnyOk, Cached, Returns;
  }

  /** With a ttl a call comes back from a section under the mutex, on a hit or at the end of a refresh. */
  lemma ComesBack(s: State, step: Step, c: Call)
    requires SingleFlight(s) && s.ttl > 0 && Enabled(s, step) && Returns(s, step, c)
    ensures step.Act? && step.call == c && (s.call[c].Probe? || s.call[c].Fetched?)
    ensures Next(s, step).call[c] == Returned(Cached(Next(s, step).entry))
  {
    hide Cached, Completed;
  }

  /** An entry that is still empty has expired. */
  lemma HitNeedsCompletion(s: State, step: Step, c: Call)
    requires Refines(s) && Spaced(s) && Enabled(s, step) && Returns(s, step, c)
    requires step.Act? && step.call == c && (s.call[c].Probe? || s.call[c].Fetched?)
    ensures Next(s, step).completions != []
  {
    hide Cached, Completed, Latest, AnyOk;
  }

  lemma OkStaysOneStep(s: State, step: Step)
    requires Enabled(s, step)
    ensures AnyOk(s.completions) ==> AnyOk(Next(s, step).completions)
  {
    var h, h' := s.completions, Next(s, step).completions;
    assert h <= h';
    hide Next;
    if AnyOk(h) {
      var i :| 0 <= i < |h| && h[i].result.Ok?;
      assert h'[i].result.Ok?;
    }
  }

  lemma {:induction false} OkStays(s: State, steps: seq<Step>)
    requires Inv(s) && IsRun(s, steps)
    ensures AnyOk(s.completions) ==> AnyOk(Exec(s, steps).completions)
    decreases |steps|
  {
    if steps != [] {
      var s' := Next(s, steps[0]);
      OkStaysOneStep(s, steps[0]);
      StepKeepsInv(s, steps[0]);
      OkStays(s', steps[1..]);
    }
  }

  /** After the first success no call that still has to return comes back with an error. */
  lemma NoErrorAfterSuccess(s: State, steps: seq<Step>, step: Step, c: Call)
    requires Reachable(s) && s.ttl > 0 && AnyOk(s.completions) && IsRun(s, steps)
    requires Enabled(Exec(s, steps), step) && Returns(Exec(s, steps), step, c)
    ensures Next(Exec(s, steps), step).call[c].result.Ok?
  {
    hide Inv, Next, AnyOk, Reachable;
    ReachableHasInv(s);
    RunKeepsInv(s, steps);
    OkStays(s, steps);
    var t := Exec(s, steps);
    OkStaysOneStep(t, step);
    ListReturnsLatest(t, step, c);
    LatestOk(Next(t, step).completions);
  }

  /** A hit returns what a refresh completed less than a ttl ago left. */
  lemma HitIsFresh(s: State, c: Call, missed: bool)
    requires Reachable(s) && s.ttl > 0
    requires c in s.call && s.call[c] == Probe(missed) && Next(s, Act(c)).call[c].Returned?
    ensures s.completions != []
    ensures var last := s.completions[|s.completions| - 1];
            s.now < last.time + s.ttl && (last.result.Ok? ==> Next(s, Act(c)).call[c].result == last.result)
  {
    ReachableHasInv(s);
  }

  lemma AtMostOneUpstreamList(s: State, c: Call, d: Call)
    requires Reachable(s) && c in s.call && d in s.call && s.call[c].Fetching? && s.call[d].Fetching?
    ensures c == d
  {
    ReachableHasInv(s);
  }

  // ------------------------------------------------------------------ the rate of refreshes

  lemma {:induction false} StartsApart(s: State, i: nat, j: nat)
    requires Spaced(s) && i <= j < |s.starts|
    ensures s.starts[j] - s.starts[i] >= (j - i) * s.ttl
    decreases j
  {
    if i < j {
      StartsApart(s, i, j - 1);
      assert s.starts[(j - 1) + 1] >= s.starts[j - 1] + s.ttl;
      assert (j - i) * s.ttl == (j - 1 - i) * s.ttl + s.ttl;
    }
  }

  /** Indices between `lo` and `hi` are at most `hi - lo + 1`. */
  lemma {:induction false} IndicesFit(picked: set<nat>, lo: nat, hi: nat)
    requires lo <= hi && forall i | i in picked :: lo <= i <= hi
    ensures |picked| <= hi - lo + 1
    decreases hi - lo
  {
    var rest := picked - {hi};
    if lo < hi {
      IndicesFit(rest, lo, hi - 1);
      assert picked <= rest + {hi};
      assert |picked| <= |rest| + 1;
    } else {
      assert picked <= {hi};
      assert |picked| <= |{hi}| by { SubsetSize(picked, {hi}); }
    }
  }

  lemma {:induction false} SubsetSize<T>(a: set<T>, b: set<T>)
    requires a <= b
    ensures |a| <= |b|
    decreases a
  {
    if a != {} {
      var x :| x in a;
      SubsetSize(a - {x}, b - {x});
    }
  }

  lemma {:induction false} Extremes(picked: set<nat>) returns (lo: nat, hi: nat)
    requires picked != {}
    ensures lo in picked && hi in picked && forall i | i in picked :: lo <= i <= hi
    decreases picked
  {
    var x :| x in picked;
    if picked == {x} {
      lo, hi := x, x;
    } else {
      lo, hi := Extremes(picked - {x});
      assert forall i | i in picked :: i == x || i in picked - {x};
      lo, hi := if x < lo then x else lo, if x > hi then x else hi;
    }
  }

  /** Any n refreshes that start inside a half-open window satisfy (n - 1) * ttl < width. */
  lemma RateBound(s: State, picked: set<nat>, from: int, width: int)
    requires Reachable(s) && s.ttl > 0 && picked != {}
    requires forall i | i in picked :: i < |s.starts| && from <= s.starts[i] < from + width
    ensures (|picked| - 1) * s.ttl < width
  {
    ReachableHasInv(s);
    var lo, hi := Extremes(picked);
    IndicesFit(picked, lo, hi);
    StartsApart(s, lo, hi);
    assert (|picked| - 1) * s.ttl <= (hi - lo) * s.ttl by {
      Scaled(|picked| - 1, hi - lo, s.ttl);
    }
  }

  lemma Scaled(a: int, b: int, k: nat)
    requires a <= b
    ensures a * k <= b * k
  {
  }

  // ------------------------------------------------------------------ counters, for any ttl

  /** Every finished call counted one hit or one miss; refreshes are the upstream lists, at most one a miss. */
  lemma CountersExact(s: State)
    requires Reachable(s)
    ensures s.refreshes == |s.starts| && s.refreshes <= s.misses
    ensures forall c | c in s.call && s.call[c].Returned? :: (c in s.hitters) != (c in s.missers)
    ensures (forall c | c in s.call :: s.call[c].Returned?) ==> s.hits + s.misses == |s.call|
  {
    ReachableHasInv(s);
    SubsetSize(s.refreshers, s.missers);
    forall c | c in s.call && s.call[c].Returned?
      ensures c in s.hitters + s.missers
    {
      assert MarkOk(s, c, s.call[c]);
    }
    if forall c | c in s.call :: s.call[c].Returned? {
      assert s.hitters + s.missers == s.call.Keys;
      assert |s.hitters + s.missers| == |s.hitters| + |s.missers|;
      assert |s.call| == |s.call.Keys|;
    }
  }

  // ------------------------------------------------------------------ the sections under the mutex

  /** What a caller does after its section: return, wait for a refresh, or be the refresh. */
  datatype Verdict = Hit(listing: Listing) | Wait(flight: nat) | Fetch(flight: nat)

  /** cachedAgent: the fields guarded by its mutex, and the two sections of List. */
  class CachedAgent {
    const ttl: int
    var keys: seq<Key>
    var hasSnapshot: bool
    var cachedErr: Option<Failure>
    var expiresAt: int
    var inFlight: Option<nat>
    var flights: nat

    constructor (ttl: int)
      ensures View() == EMPTY && flights == 0 && this.ttl == ttl
    {
      this.ttl := ttl;
      keys, hasSnapshot, cachedErr, expiresAt, inFlight, flights := [], false, None, 0, None, 0;
    }

    function View(): Entry
      reads this
    {
      Entry(keys, hasSnapshot, cachedErr, expiresAt, inFlight)
    }

    /** The section at the head of the retry loop. */
    method Probe(now: int) returns (v: Verdict)
      modifies this`inFlight, this`flights
      ensures v.Hit? <==> now < expiresAt
      ensures v.Hit? ==> v.listing == Cached(old(View())) && View() == old(View())
      ensures v.Wait? ==> old(inFlight) == Some(v.flight) && View() == old(View())
      ensures v.Fetch? ==> old(inFlight) == None && v.flight == old(flights) && flights == old(flights) + 1
                           && View() == old(View()).(inFlight := Some(v.flight))
      ensures !v.Fetch? ==> flights == old(flights)
    {
      if now < expiresAt {
        return Hit(if cachedErr.Some? then Err(cachedErr.value) else Ok(keys));
      }
      if inFlight.Some? {
        return Wait(inFlight.value);
      }
      inFlight := Some(flights);
      v := Fetch(flights);
      flights := flights + 1;
    }

    /** The section that ends a refresh. */
    method Complete(result: Listing, now: int) returns (listing: Listing)
      modifies this`keys, this`hasSnapshot, this`cachedErr, this`expiresAt, this`inFlight
      ensures View() == Completed(old(View()), result, now, ttl)
      ensures listing == Cached(View())
    {
      if result.Ok? {
        keys := result.value;
        hasSnapshot := true;
        cachedErr := None;
      } else if hasSnapshot {
        cachedErr := None;
      } else {
        keys := [];
        cachedErr := Some(result.error);
      }
      expiresAt := now + ttl;
      inFlight := None;
      listing := if cachedErr.Some? then Err(cachedErr.value) else Ok(keys);
    }
  }
}
