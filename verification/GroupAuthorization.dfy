/**
 The authorization state one group's clients share, as internal/proxy/authorization.go updates it
 in place: the bodies of its mutex sections, and the warnings about selectors that match nothing.
 */
module GroupAuthorization {
  import opened Wrappers
  import opened Keys

  type Failure = nat
  type Listing = Result<seq<Key>, Failure>

  // ------------------------------------------------------------------ unmatched selectors

  /** The number of upstream keys each selector matched in one resolution. */
  type Counts = seq<nat>

  function Missing(counts: Counts): seq<bool> {
    seq(|counts|, i requires 0 <= i < |counts| => counts[i] == 0)
  }

  /** A selector counts as missing before only if its record has the length of this resolution. */
  predicate WasMissing(unmatched: seq<bool>, n: nat, i: nat)
    requires i < n
  {
    |unmatched| == n && unmatched[i]
  }

  /** The selectors below `n` that have just become unmatched, in configuration order. */
  function Newly(unmatched: seq<bool>, counts: Counts, n: nat): seq<nat>
    requires n <= |counts|
  {
    if n == 0 then []
    else
      Newly(unmatched, counts, n - 1)
      + if counts[n - 1] == 0 && !WasMissing(unmatched, |counts|, n - 1) then [n - 1] else []
  }

  lemma {:induction false} NewlyMeans(unmatched: seq<bool>, counts: Counts, n: nat, i: nat)
    requires n <= |counts|
    ensures i in Newly(unmatched, counts, n) <==> i < n && counts[i] == 0 && !WasMissing(unmatched, |counts|, i)
  {
    if n > 0 { NewlyMeans(unmatched, counts, n - 1, i); }
  }

  predicate Ascending(s: seq<nat>, n: nat) {
    && (forall k | 0 <= k < |s| :: s[k] < n)
    && (forall a, b | 0 <= a < b < |s| :: s[a] < s[b])
  }

  /** They are named in configuration order, each once. */
  lemma {:induction false} NewlyInOrder(unmatched: seq<bool>, counts: Counts, n: nat)
    requires n <= |counts|
    ensures Ascending(Newly(unmatched, counts, n), n)
  {
    if n > 0 {
      NewlyInOrder(unmatched, counts, n - 1);
      var before, newly := Newly(unmatched, counts, n - 1), Newly(unmatched, counts, n);
      if counts[n - 1] == 0 && !WasMissing(unmatched, |counts|, n - 1) {
        assert newly == before + [n - 1];
      } else {
        assert newly == before;
      }
    }
  }

  // ------------------------------------------------------------------ the shared state

  class AuthorizationRefresh {
    var visible: seq<Key>
    var err: Option<Failure>
    var done: bool

    constructor ()
      ensures !done
    {
      visible, err, done := [], None, false;
    }
  }

  class GroupAuthorization {
    const matchers: seq<Matcher>
    var snapshot: Option<set<Blob>>
    var inFlight: AuthorizationRefresh?
    var unmatched: seq<bool>

    constructor (matchers: seq<Matcher>)
      ensures this.matchers == matchers && snapshot == None && inFlight == null && unmatched == []
    {
      this.matchers := matchers;
      snapshot, inFlight, unmatched := None, null, [];
    }

    predicate Allows(key: Key)
      reads this
    {
      snapshot.Some? && key.blob in snapshot.value
    }

    /** Waits for the refresh in flight, or becomes the owner of a new one. */
    method JoinRefresh() returns (refresh: AuthorizationRefresh, owner: bool)
      modifies this`inFlight
      ensures inFlight == refresh
      ensures owner <==> old(inFlight) == null
      ensures if owner then fresh(refresh) && !refresh.done else refresh == old(inFlight)
    {
      if inFlight != null {
        return inFlight, false;
      }
      refresh := new AuthorizationRefresh();
      inFlight := refresh;
      owner := true;
    }

    /** Publishes a result and wakes its waiters; closing a channel twice would panic. */
    method FinishRefresh(refresh: AuthorizationRefresh, result: Listing) returns (warned: seq<nat>)
      requires !refresh.done
      modifies this, refresh
      ensures inFlight == null && refresh.done
      ensures result.Ok? ==>
                && refresh.visible == Filter(result.value, matchers) && refresh.err == None
                && snapshot == Some(BuildAllowSet(result.value, matchers))
                && warned == Newly(old(unmatched), MatchCounts(result.value, matchers), |matchers|)
                && unmatched == Missing(MatchCounts(result.value, matchers))
      ensures result.Err? ==>
                && refresh.visible == [] && refresh.err == Some(result.error)
                && snapshot == old(snapshot) && unmatched == old(unmatched) && warned == []
    {
      var visible := [];
      warned := [];
      if result.Ok? {
        visible, warned := Publish(result.value);
      }
      refresh.visible := visible;
      refresh.err := if result.Ok? then None else Some(result.error);
      inFlight := null;
      refresh.done := true;
    }

    /** Stores the allow set of the filtered listing, and reports selectors that lost their last key. */
    method Publish(upstream: seq<Key>) returns (visible: seq<Key>, warned: seq<nat>)
      modifies this`snapshot, this`unmatched
      ensures visible == Filter(upstream, matchers)
      ensures snapshot == Some(BuildAllowSet(upstream, matchers))
      ensures warned == Newly(old(unmatched), MatchCounts(upstream, matchers), |matchers|)
      ensures unmatched == Missing(MatchCounts(upstream, matchers))
    {
      var counts;
      visible, counts := Resolve(upstream, matchers);
      var allowed := NewAllowSet(visible);
      snapshot := Some(allowed);
      assert counts == MatchCounts(upstream, matchers);
      warned := NewlyUnmatched(counts);
    }

    method NewlyUnmatched(matchCounts: Counts) returns (newly: seq<nat>)
      modifies this`unmatched
      ensures newly == Newly(old(unmatched), matchCounts, |matchCounts|)
      ensures unmatched == Missing(matchCounts)
    {
      if |unmatched| != |matchCounts| {
        unmatched := seq(|matchCounts|, _ => false);
      }
      newly := [];
      for i := 0 to |matchCounts|
        invariant |unmatched| == |matchCounts|
        invariant forall k | 0 <= k < i :: unmatched[k] == Missing(matchCounts)[k]
        invariant forall k | i <= k < |matchCounts| :: unmatched[k] == WasMissing(old(unmatched), |matchCounts|, k)
        invariant newly == Newly(old(unmatched), matchCounts, i)
      {
        var missing := matchCounts[i] == 0;
        if missing && !unmatched[i] {
          newly := newly + [i];
        }
        unmatched := unmatched[i := missing];
      }
    }
  }

  function MatchCounts(upstream: seq<Key>, matchers: seq<Matcher>): Counts {
    seq(|matchers|, i requires 0 <= i < |matchers| => |Matching(upstream, matchers[i])|)
  }

  // ------------------------------------------------------------------ one warning a run

  /** A group's successful resolutions; its selectors never change. */
  ghost predicate History(h: seq<Counts>, n: nat) {
    forall k | 0 <= k < |h| :: |h[k]| == n
  }

  /** The record after a history: what the last resolution left. */
  function RecordAfter(h: seq<Counts>): seq<bool> {
    if h == [] then [] else Missing(h[|h| - 1])
  }

  ghost predicate Warned(h: seq<Counts>, i: nat, k: nat) {
    k < |h| && i in Newly(RecordAfter(h[..k]), h[k], |h[k]|)
  }

  predicate Zeros(h: seq<Counts>, i: nat, a: nat, b: nat) {
    b <= |h| && forall k | a <= k < b :: i < |h[k]| && h[k][i] == 0
  }

  /** The resolutions from `a` up to `b` all miss selector `i`, and neither neighbour does. */
  predicate MaximalRun(h: seq<Counts>, i: nat, a: nat, b: nat) {
    a < b && Zeros(h, i, a, b) && (a > 0 ==> !Zeros(h, i, a - 1, b)) && (b < |h| ==> !Zeros(h, i, a, b + 1))
  }

  /** A warning is raised exactly at the first resolution of a run. */
  lemma WarnedAtRunStart(h: seq<Counts>, n: nat, i: nat, k: nat)
    requires History(h, n) && i < n
    ensures Warned(h, i, k) <==> exists b: nat :: MaximalRun(h, i, k, b)
  {
    if k < |h| {
      NewlyMeans(RecordAfter(h[..k]), h[k], n, i);
      if h[k][i] == 0 && (k > 0 ==> h[k - 1][i] != 0) {
        var b := RunEnd(h, n, i, k, k + 1);
        assert MaximalRun(h, i, k, b);
      }
    }
  }

  lemma RunEnd(h: seq<Counts>, n: nat, i: nat, a: nat, from: nat) returns (b: nat)
    requires History(h, n) && i < n && a < from && Zeros(h, i, a, from)
    ensures b >= from && Zeros(h, i, a, b) && (b < |h| ==> !Zeros(h, i, a, b + 1))
    decreases |h| - from
  {
    b := from;
    if from < |h| && h[from][i] == 0 {
      b := RunEnd(h, n, i, a, from + 1);
    }
  }

  lemma RunsDiffer(h: seq<Counts>, i: nat, a: nat, b: nat, c: nat)
    requires MaximalRun(h, i, a, b) && MaximalRun(h, i, a, c)
    ensures b == c
  {
    if b < c { assert Zeros(h, i, a, b + 1); }
    if c < b { assert Zeros(h, i, a, c + 1); }
  }

  ghost function Warnings(h: seq<Counts>, i: nat): set<nat> {
    set k | 0 <= k < |h| && Warned(h, i, k)
  }

  ghost function Runs(h: seq<Counts>, i: nat): set<(nat, nat)> {
    set a, b | 0 <= a <= |h| && 0 <= b <= |h| && MaximalRun(h, i, a, b) :: (a, b)
  }

  /** A selector is warned about once for each maximal run of resolutions it matched nothing in. */
  lemma OneWarningARun(h: seq<Counts>, n: nat, i: nat)
    requires History(h, n) && i < n
    ensures |Warnings(h, i)| == |Runs(h, i)|
  {
    var starts := set p | p in Runs(h, i) :: p.0;
    forall k
      ensures k in starts <==> k in Warnings(h, i)
    {
      if k >= 0 {
        WarnedAtRunStart(h, n, i, k);
        if k in Warnings(h, i) {
          var b: nat :| MaximalRun(h, i, k, b);
          assert (k, b) in Runs(h, i);
        }
      }
    }
    forall p, q | p in Runs(h, i) && q in Runs(h, i) && p.0 == q.0
      ensures p == q
    {
      RunsDiffer(h, i, p.0, p.1, q.1);
    }
    SameSize(Runs(h, i), starts);
    assert starts == Warnings(h, i);
  }

  lemma {:induction false} SameSize(pairs: set<(nat, nat)>, firsts: set<nat>)
    requires firsts == set p | p in pairs :: p.0
    requires forall p, q | p in pairs && q in pairs && p.0 == q.0 :: p == q
    ensures |firsts| == |pairs|
    decreases pairs
  {
    if pairs != {} {
      var p :| p in pairs;
      SameSize(pairs - {p}, firsts - {p.0});
    }
  }
}
