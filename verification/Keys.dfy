/**
 The key selection of internal/keys/keys.go. A matcher is a predicate on keys, and a blob is the
 wire form a key is identified by; two keys may share a blob and differ in their comment.
 */
module Keys {
  type Blob = string

  datatype Key = Key(blob: Blob, comment: string)

  type Matcher = Key -> bool

  /** The keys one matcher selects, in upstream order. */
  function Matching(upstream: seq<Key>, m: Matcher): (r: seq<Key>)
    ensures forall k :: k in r <==> k in upstream && m(k)
  {
    if upstream == [] then []
    else (if m(upstream[0]) then [upstream[0]] else []) + Matching(upstream[1..], m)
  }

  /** What all matchers select, in config order, with repetitions. */
  function Selected(upstream: seq<Key>, matchers: seq<Matcher>): seq<Key> {
    if matchers == [] then [] else Matching(upstream, matchers[0]) + Selected(upstream, matchers[1..])
  }

  /** The first key of each blob that has not been seen. */
  function FirstOfEach(keys: seq<Key>, seen: set<Blob>): seq<Key> {
    if keys == [] then []
    else if keys[0].blob in seen then FirstOfEach(keys[1..], seen)
    else [keys[0]] + FirstOfEach(keys[1..], seen + {keys[0].blob})
  }

  function Filter(upstream: seq<Key>, matchers: seq<Matcher>): seq<Key> {
    FirstOfEach(Selected(upstream, matchers), {})
  }

  function Blobs(keys: seq<Key>): set<Blob> {
    set k | k in keys :: k.blob
  }

  function BuildAllowSet(upstream: seq<Key>, matchers: seq<Matcher>): set<Blob> {
    Blobs(Filter(upstream, matchers))
  }

  lemma MatchingNext(upstream: seq<Key>, j: nat, m: Matcher)
    requires j < |upstream|
    ensures Matching(upstream[j..], m)
            == (if m(upstream[j]) then [upstream[j]] else []) + Matching(upstream[j + 1..], m)
  {
    assert upstream[j..][1..] == upstream[j + 1..];
  }

  lemma SelectedNext(upstream: seq<Key>, matchers: seq<Matcher>, i: nat)
    requires i < |matchers|
    ensures Selected(upstream, matchers[i..]) == Matching(upstream, matchers[i]) + Selected(upstream, matchers[i + 1..])
  {
    assert matchers[i..][1..] == matchers[i + 1..];
  }

  /** What is still to come: the keys kept of `later` after those already in `out`. */
  ghost predicate Remaining(out: seq<Key>, later: seq<Key>, seen: set<Blob>, whole: seq<Key>) {
    out + FirstOfEach(later, seen) == whole
  }

  lemma RemainingNext(out: seq<Key>, upstream: seq<Key>, j: nat, m: Matcher,
                      later: seq<Key>, seen: set<Blob>, whole: seq<Key>)
    requires j < |upstream| && Remaining(out, Matching(upstream[j..], m) + later, seen, whole)
    ensures var k, rest := upstream[j], Matching(upstream[j + 1..], m) + later;
            if m(k) && k.blob !in seen then Remaining(out + [k], rest, seen + {k.blob}, whole)
            else Remaining(out, rest, seen, whole)
  {
    var k, rest := upstream[j], Matching(upstream[j + 1..], m) + later;
    MatchingNext(upstream, j, m);
    if m(k) {
      assert Matching(upstream[j..], m) + later == [k] + rest;
      assert ([k] + rest)[1..] == rest;
    } else {
      assert Matching(upstream[j..], m) + later == rest;
    }
  }

  lemma RemainingEnds(out: seq<Key>, upstream: seq<Key>, matchers: seq<Matcher>, i: nat,
                      seen: set<Blob>, whole: seq<Key>)
    requires i < |matchers|
    ensures Remaining(out, Selected(upstream, matchers[i..]), seen, whole)
            <==> Remaining(out, Matching(upstream[0..], matchers[i]) + Selected(upstream, matchers[i + 1..]),
                           seen, whole)
    ensures Matching(upstream[|upstream|..], matchers[i]) == []
    ensures Matching(upstream[|upstream|..], matchers[i]) + Selected(upstream, matchers[i + 1..])
            == Selected(upstream, matchers[i + 1..])
  {
    SelectedNext(upstream, matchers, i);
    assert upstream[0..] == upstream;
  }

  lemma RemainingNone(out: seq<Key>, upstream: seq<Key>, seen: set<Blob>, whole: seq<Key>)
    requires Remaining(out, Selected(upstream, []), seen, whole)
    ensures out == whole
  {
  }

  /** Every matcher before `i` is counted, and matcher `i` for the keys before `j`. */
  ghost predicate Tally(counts: seq<nat>, upstream: seq<Key>, matchers: seq<Matcher>, i: nat, j: nat)
    requires j <= |upstream|
  {
    && |counts| == |matchers|
    && (forall h | 0 <= h < |matchers| && h != i :: counts[h] == if h < i then |Matching(upstream, matchers[h])| else 0)
    && (i < |matchers| ==> counts[i] + |Matching(upstream[j..], matchers[i])| == |Matching(upstream, matchers[i])|)
  }

  lemma TallyStarts(upstream: seq<Key>, matchers: seq<Matcher>)
    ensures Tally(seq(|matchers|, _ => 0), upstream, matchers, 0, 0)
  {
    assert upstream[0..] == upstream;
  }

  lemma TallyNext(counts: seq<nat>, upstream: seq<Key>, matchers: seq<Matcher>, i: nat, j: nat)
    requires i < |matchers| && j < |upstream| && Tally(counts, upstream, matchers, i, j)
    ensures |counts| == |matchers|
    ensures Tally(if matchers[i](upstream[j]) then counts[i := counts[i] + 1] else counts, upstream, matchers, i, j + 1)
  {
    MatchingNext(upstream, j, matchers[i]);
    hide Matching;
  }

  lemma TallyEnds(counts: seq<nat>, upstream: seq<Key>, matchers: seq<Matcher>, i: nat)
    requires i < |matchers| && Tally(counts, upstream, matchers, i, |upstream|)
    ensures Tally(counts, upstream, matchers, i + 1, 0)
  {
    assert Matching(upstream[|upstream|..], matchers[i]) == [];
    assert upstream[0..] == upstream;
    hide Matching;
  }

  method Resolve(upstream: seq<Key>, matchers: seq<Matcher>) returns (out: seq<Key>, matchCounts: seq<nat>)
    ensures out == FirstOfEach(Selected(upstream, matchers), {})
    ensures |matchCounts| == |matchers|
    ensures forall i | 0 <= i < |matchers| :: matchCounts[i] == |Matching(upstream, matchers[i])|
  {
    out := [];
    matchCounts := seq(|matchers|, _ => 0);
    var seen: set<Blob> := {};
    ghost var whole := FirstOfEach(Selected(upstream, matchers), {});
    assert matchers[0..] == matchers;
    assert Remaining(out, Selected(upstream, matchers[0..]), seen, whole);
    TallyStarts(upstream, matchers);
    for i := 0 to |matchers|
      invariant Tally(matchCounts, upstream, matchers, i, 0)
      invariant Remaining(out, Selected(upstream, matchers[i..]), seen, whole)
    {
      hide Selected, Remaining, Matching, FirstOfEach, Tally;
      var m := matchers[i];
      ghost var later := Selected(upstream, matchers[i + 1..]);
      RemainingEnds(out, upstream, matchers, i, seen, whole);
      for j := 0 to |upstream|
        invariant Tally(matchCounts, upstream, matchers, i, j)
        invariant Remaining(out, Matching(upstream[j..], m) + later, seen, whole)
      {
        var k := upstream[j];
        TallyNext(matchCounts, upstream, matchers, i, j);
        RemainingNext(out, upstream, j, m, later, seen, whole);
        if !m(k) {
          continue;
        }
        matchCounts := matchCounts[i := matchCounts[i] + 1];
        if k.blob !in seen {
          out := out + [k];
          seen := seen + {k.blob};
        }
      }
      TallyEnds(matchCounts, upstream, matchers, i);
    }
    assert matchers[|matchers|..] == [];
    RemainingNone(out, upstream, seen, whole);
  }

  method NewAllowSet(allowedKeys: seq<Key>) returns (allowed: set<Blob>)
    ensures allowed == Blobs(allowedKeys)
  {
    allowed := {};
    for i := 0 to |allowedKeys|
      invariant allowed == Blobs(allowedKeys[..i])
    {
      assert allowedKeys[..i + 1] == allowedKeys[..i] + [allowedKeys[i]];
      allowed := allowed + {allowedKeys[i].blob};
    }
    assert allowedKeys[..|allowedKeys|] == allowedKeys;
  }

  // ------------------------------------------------------------------ what the selection means

  lemma {:induction false} SelectedMeans(upstream: seq<Key>, matchers: seq<Matcher>, k: Key)
    ensures k in Selected(upstream, matchers) <==> k in upstream && exists m :: m in matchers && m(k)
    decreases |matchers|
  {
    if matchers != [] {
      SelectedMeans(upstream, matchers[1..], k);
      assert matchers == [matchers[0]] + matchers[1..];
    }
  }

  lemma BlobsSplit(a: seq<Key>, b: seq<Key>)
    ensures Blobs(a + b) == Blobs(a) + Blobs(b)
  {
  }

  /** Keeping the first of each blob keeps exactly the unseen blobs, each once, on keys that were there. */
  lemma {:induction false} FirstOfEachMeans(keys: seq<Key>, seen: set<Blob>)
    ensures var r := FirstOfEach(keys, seen);
            && Blobs(r) == Blobs(keys) - seen
            && (forall k | k in r :: k in keys)
            && (forall i, j | 0 <= i < j < |r| :: r[i].blob != r[j].blob)
    decreases |keys|
  {
    if keys != [] {
      var k, later := keys[0], keys[1..];
      assert keys == [k] + later;
      BlobsSplit([k], later);
      if k.blob in seen {
        FirstOfEachMeans(later, seen);
      } else {
        FirstOfEachMeans(later, seen + {k.blob});
        var tail := FirstOfEach(later, seen + {k.blob});
        assert FirstOfEach(keys, seen) == [k] + tail;
        hide FirstOfEach;
        BlobsSplit([k], tail);
        assert forall x | x in tail :: x.blob in Blobs(tail);
      }
    }
  }

  /** The allow set is the blobs of the keys that match some matcher. */
  lemma AllowSetExact(upstream: seq<Key>, matchers: seq<Matcher>, blob: Blob)
    ensures blob in BuildAllowSet(upstream, matchers)
            <==> exists k :: k in upstream && k.blob == blob && exists m :: m in matchers && m(k)
  {
    FirstOfEachMeans(Selected(upstream, matchers), {});
    forall k: Key
      ensures k in Selected(upstream, matchers) <==> k in upstream && exists m :: m in matchers && m(k)
    {
      SelectedMeans(upstream, matchers, k);
    }
  }

  /** Which keys may sign depends neither on the order of the keys nor on that of the matchers. */
  lemma AllowSetIgnoresOrder(upstream: seq<Key>, upstream': seq<Key>, matchers: seq<Matcher>, matchers': seq<Matcher>)
    requires multiset(upstream) == multiset(upstream') && multiset(matchers) == multiset(matchers')
    ensures BuildAllowSet(upstream, matchers) == BuildAllowSet(upstream', matchers')
  {
    assert forall k :: k in upstream <==> k in multiset(upstream);
    assert forall k :: k in upstream' <==> k in multiset(upstream');
    assert forall m :: m in matchers <==> m in multiset(matchers);
    assert forall m :: m in matchers' <==> m in multiset(matchers');
    forall blob: Blob
      ensures blob in BuildAllowSet(upstream, matchers) <==> blob in BuildAllowSet(upstream', matchers')
    {
      AllowSetExact(upstream, matchers, blob);
      AllowSetExact(upstream', matchers', blob);
    }
  }

  lemma {:induction false} DistinctBlobs(keys: seq<Key>)
    requires forall i, j | 0 <= i < j < |keys| :: keys[i].blob != keys[j].blob
    ensures |Blobs(keys)| == |keys|
    decreases |keys|
  {
    if keys != [] {
      var tail := keys[1..];
      assert keys == [keys[0]] + tail;
      DistinctBlobs(tail);
      assert Blobs(keys) == {keys[0].blob} + Blobs(tail);
      assert keys[0].blob !in Blobs(tail);
    }
  }

  lemma AllowSetSize(upstream: seq<Key>, matchers: seq<Matcher>)
    ensures |BuildAllowSet(upstream, matchers)| == |Filter(upstream, matchers)|
  {
    FirstOfEachMeans(Selected(upstream, matchers), {});
    DistinctBlobs(Filter(upstream, matchers));
  }

  // ------------------------------------------------------------------ filtering twice

  lemma {:induction false} SelectedSplit(upstream: seq<Key>, a: seq<Matcher>, b: seq<Matcher>)
    ensures Selected(upstream, a + b) == Selected(upstream, a) + Selected(upstream, b)
    decreases |a|
  {
    if a == [] {
      assert a + b == b;
    } else {
      assert (a + b)[1..] == a[1..] + b;
      SelectedSplit(upstream, a[1..], b);
    }
  }

  lemma {:induction false} MatchingSplit(a: seq<Key>, b: seq<Key>, m: Matcher)
    ensures Matching(a + b, m) == Matching(a, m) + Matching(b, m)
    decreases |a|
  {
    if a == [] {
      assert a + b == b;
    } else {
      assert (a + b)[1..] == a[1..] + b;
      MatchingSplit(a[1..], b, m);
    }
  }

  lemma {:induction false} MatchingAll(keys: seq<Key>, m: Matcher)
    ensures (forall k | k in keys :: m(k)) ==> Matching(keys, m) == keys
    ensures (forall k | k in keys :: !m(k)) ==> Matching(keys, m) == []
    decreases |keys|
  {
    if keys != [] {
      MatchingAll(keys[1..], m);
    }
  }

  lemma {:induction false} FirstOfEachSplit(a: seq<Key>, b: seq<Key>, seen: set<Blob>)
    ensures FirstOfEach(a + b, seen) == FirstOfEach(a, seen) + FirstOfEach(b, seen + Blobs(a))
    decreases |a|
  {
    if a == [] {
      assert a + b == b && seen + Blobs(a) == seen;
    } else {
      assert a == [a[0]] + a[1..] && (a + b)[1..] == a[1..] + b;
      if a[0].blob in seen {
        FirstOfEachSplit(a[1..], b, seen);
        assert seen + Blobs(a[1..]) == seen + Blobs(a);
      } else {
        FirstOfEachSplit(a[1..], b, seen + {a[0].blob});
        assert seen + {a[0].blob} + Blobs(a[1..]) == seen + Blobs(a);
      }
    }
  }

  lemma {:induction false} NoneKept(keys: seq<Key>, seen: set<Blob>)
    requires Blobs(keys) <= seen
    ensures FirstOfEach(keys, seen) == []
    decreases |keys|
  {
    if keys != [] {
      assert keys[0].blob in Blobs(keys) && Blobs(keys[1..]) <= Blobs(keys);
      NoneKept(keys[1..], seen);
    }
  }

  ghost predicate AllNew(keys: seq<Key>, seen: set<Blob>) {
    Blobs(keys) !! seen && forall i, j | 0 <= i < j < |keys| :: keys[i].blob != keys[j].blob
  }

  lemma {:induction false} AllKept(keys: seq<Key>, seen: set<Blob>)
    requires AllNew(keys, seen)
    ensures FirstOfEach(keys, seen) == keys
    decreases |keys|
  {
    if keys != [] {
      var k, tail := keys[0], keys[1..];
      assert keys == [k] + tail && k.blob in Blobs(keys) && Blobs(tail) <= Blobs(keys);
      assert k.blob !in Blobs(tail) by {
        assert forall i | 0 <= i < |tail| :: tail[i] == keys[i + 1];
      }
      AllKept(tail, seen + {k.blob});
    }
  }

  /** The keys the i-th matcher adds to the view. */
  function Added(upstream: seq<Key>, matchers: seq<Matcher>, i: nat): seq<Key>
    requires i < |matchers|
  {
    FirstOfEach(Matching(upstream, matchers[i]), Blobs(Filter(upstream, matchers[..i])))
  }

  lemma FilterGrows(upstream: seq<Key>, matchers: seq<Matcher>, i: nat)
    requires i < |matchers|
    ensures Filter(upstream, matchers[..i + 1]) == Filter(upstream, matchers[..i]) + Added(upstream, matchers, i)
  {
    var before := Selected(upstream, matchers[..i]);
    assert matchers[..i + 1] == matchers[..i] + [matchers[i]];
    SelectedSplit(upstream, matchers[..i], [matchers[i]]);
    assert Selected(upstream, [matchers[i]])
           == Matching(upstream, matchers[i]) + Selected(upstream, [matchers[i]][1..]);
    assert Selected(upstream, [matchers[i]]) == Matching(upstream, matchers[i]);
    FirstOfEachSplit(before, Matching(upstream, matchers[i]), {});
    FirstOfEachMeans(before, {});
    assert {} + Blobs(before) == Blobs(Filter(upstream, matchers[..i]));
  }

  /** The rest of the view, beyond what the first i matchers select. */
  lemma FilterPrefix(upstream: seq<Key>, matchers: seq<Matcher>, i: nat) returns (rest: seq<Key>)
    requires i <= |matchers|
    ensures Filter(upstream, matchers) == Filter(upstream, matchers[..i]) + rest
  {
    assert matchers == matchers[..i] + matchers[i..];
    SelectedSplit(upstream, matchers[..i], matchers[i..]);
    FirstOfEachSplit(Selected(upstream, matchers[..i]), Selected(upstream, matchers[i..]), {});
    rest := FirstOfEach(Selected(upstream, matchers[i..]), {} + Blobs(Selected(upstream, matchers[..i])));
  }

  /** Every upstream key the i-th matcher selects has its blob in what the first i + 1 matchers give. */
  lemma MatchedByThen(upstream: seq<Key>, matchers: seq<Matcher>, i: nat, k: Key)
    requires i < |matchers| && k in upstream
    ensures matchers[i](k) ==> k.blob in Blobs(Filter(upstream, matchers[..i + 1]))
  {
    FirstOfEachMeans(Selected(upstream, matchers[..i + 1]), {});
    SelectedMeans(upstream, matchers[..i + 1], k);
    assert matchers[..i + 1][i] == matchers[i];
  }

  lemma NewBlobs(before: seq<Key>, rest: seq<Key>, k: Key)
    requires forall i, j | 0 <= i < j < |before + rest| :: (before + rest)[i].blob != (before + rest)[j].blob
    requires k in rest
    ensures k.blob !in Blobs(before)
  {
    var b :| 0 <= b < |rest| && rest[b] == k;
    forall a | 0 <= a < |before|
      ensures before[a].blob != k.blob
    {
      assert (before + rest)[a] == before[a] && (before + rest)[|before| + b] == k;
    }
  }

  /** The later part of the view holds no key the i-th matcher selects. */
  lemma NotMatchedLater(upstream: seq<Key>, matchers: seq<Matcher>, i: nat, rest: seq<Key>, k: Key)
    requires i < |matchers| && k in rest
    requires Filter(upstream, matchers) == Filter(upstream, matchers[..i + 1]) + rest
    ensures !matchers[i](k)
  {
    FirstOfEachMeans(Selected(upstream, matchers), {});
    SelectedMeans(upstream, matchers, k);
    assert k in Filter(upstream, matchers);
    MatchedByThen(upstream, matchers, i, k);
    NewBlobs(Filter(upstream, matchers[..i + 1]), rest, k);
  }

  /** Of the view itself the i-th matcher takes nothing after the keys it has added. */
  lemma MatchedOfView(upstream: seq<Key>, matchers: seq<Matcher>, i: nat)
    requires i < |matchers|
    ensures Matching(Filter(upstream, matchers), matchers[i])
            == Matching(Filter(upstream, matchers[..i]), matchers[i]) + Added(upstream, matchers, i)
  {
    var view, m := Filter(upstream, matchers), matchers[i];
    var before, added := Filter(upstream, matchers[..i]), Added(upstream, matchers, i);
    var rest := FilterPrefix(upstream, matchers, i + 1);
    FilterGrows(upstream, matchers, i);
    FirstOfEachMeans(Matching(upstream, m), Blobs(before));
    forall k | k in rest
      ensures !m(k)
    {
      NotMatchedLater(upstream, matchers, i, rest, k);
    }
    assert forall k | k in added :: m(k);
    hide Filter, Added, Matching;
    assert view == before + added + rest;
    MatchingSplit(before + added, rest, m);
    MatchingSplit(before, added, m);
    MatchingAll(added, m);
    MatchingAll(rest, m);
  }

  /** Keys already in the view add nothing to it, and new ones are all kept. */
  lemma KeptAgain(seen: seq<Key>, added: seq<Key>, m: Matcher, before: set<Blob>)
    requires Blobs(seen) <= before && AllNew(added, before)
    ensures FirstOfEach(seen + added, before) == added
  {
    FirstOfEachSplit(seen, added, before);
    assert before + Blobs(seen) == before;
    NoneKept(seen, before);
    AllKept(added, before);
  }

  /** On the view itself the i-th matcher adds the same keys again. */
  lemma AddedAgain(upstream: seq<Key>, matchers: seq<Matcher>, i: nat)
    requires i < |matchers|
    ensures FirstOfEach(Matching(Filter(upstream, matchers), matchers[i]), Blobs(Filter(upstream, matchers[..i])))
            == Added(upstream, matchers, i)
  {
    var before, added, m := Filter(upstream, matchers[..i]), Added(upstream, matchers, i), matchers[i];
    MatchedOfView(upstream, matchers, i);
    FirstOfEachMeans(Matching(upstream, m), Blobs(before));
    assert AllNew(added, Blobs(before));
    assert Blobs(Matching(before, m)) <= Blobs(before);
    hide Filter, Added, Matching, FirstOfEach, Blobs;
    KeptAgain(Matching(before, m), added, m, Blobs(before));
  }

  lemma FilterOfViewStep(upstream: seq<Key>, matchers: seq<Matcher>, i: nat)
    requires i < |matchers|
    requires Filter(Filter(upstream, matchers), matchers[..i]) == Filter(upstream, matchers[..i])
    ensures Filter(Filter(upstream, matchers), matchers[..i + 1]) == Filter(upstream, matchers[..i + 1])
  {
    hide Filter, FirstOfEach, Selected, Matching, Blobs;
    FilterGrows(upstream, matchers, i);
    FilterGrows(Filter(upstream, matchers), matchers, i);
    AddedAgain(upstream, matchers, i);
  }

  lemma {:induction false} FilterOfView(upstream: seq<Key>, matchers: seq<Matcher>, i: nat)
    requires i <= |matchers|
    ensures Filter(Filter(upstream, matchers), matchers[..i]) == Filter(upstream, matchers[..i])
    decreases i
  {
    if i > 0 {
      FilterOfView(upstream, matchers, i - 1);
      FilterOfViewStep(upstream, matchers, i - 1);
    } else {
      assert matchers[..i] == [];
    }
  }

  /** Filtering a filtered view changes nothing. */
  lemma FilterIdempotent(upstream: seq<Key>, matchers: seq<Matcher>)
    ensures Filter(Filter(upstream, matchers), matchers) == Filter(upstream, matchers)
  {
    FilterOfView(upstream, matchers, |matchers|);
    assert matchers[..|matchers|] == matchers;
  }
}
