/** Strings in the order of sort.Strings. */
module Sorting {

  predicate Less(a: string, b: string) {
    b != "" && (a == "" || a[0] < b[0] || (a[0] == b[0] && Less(a[1..], b[1..])))
  }

  /** The strings agree up to place `k`, and there `a` has ended or has the smaller character. */
  predicate LessAt(a: string, b: string, k: nat) {
    k <= |a| && k < |b| && a[..k] == b[..k] && (k == |a| || a[k] < b[k])
  }

  lemma SameHead(a: string, b: string, k: nat)
    requires 0 < k <= |a| && k <= |b| && a[..k] == b[..k]
    ensures a[0] == b[0]
  {
    assert a[..k][0] == a[0] && b[..k][0] == b[0];
  }

  /** The order is that of the first difference. */
  lemma {:induction false} LessMeans(a: string, b: string)
    ensures Less(a, b) <==> exists k :: LessAt(a, b, k)
  {
    if a != "" && b != "" && a[0] == b[0] {
      LessMeans(a[1..], b[1..]);
      forall k: nat | LessAt(a[1..], b[1..], k)
        ensures LessAt(a, b, k + 1)
      {
        assert a[..k + 1] == [a[0]] + a[1..][..k] && b[..k + 1] == [b[0]] + b[1..][..k];
      }
      forall k: nat | LessAt(a, b, k)
        ensures k > 0 && LessAt(a[1..], b[1..], k - 1)
      {
        assert a[1..][..k - 1] == a[..k][1..] && b[1..][..k - 1] == b[..k][1..];
      }
    } else {
      if Less(a, b) { assert LessAt(a, b, 0); }
      forall k: nat | LessAt(a, b, k)
        ensures Less(a, b)
      {
        if k > 0 { SameHead(a, b, k); }
      }
    }
  }

  predicate Sorted(s: seq<string>) {
    forall i, j | 0 <= i < j < |s| :: !Less(s[j], s[i])
  }

  predicate Distinct(s: seq<string>) {
    forall i, j | 0 <= i < j < |s| :: s[i] != s[j]
  }

  lemma {:induction false} Trichotomy(a: string, b: string)
    ensures Less(a, b) || a == b || Less(b, a)
    ensures !(Less(a, b) && Less(b, a))
    ensures !Less(a, a)
  {
    if a != "" {
      Trichotomy(a[1..], a[1..]);
      if b != "" {
        Trichotomy(a[1..], b[1..]);
        assert a == [a[0]] + a[1..] && b == [b[0]] + b[1..];
      }
    }
  }

  lemma {:induction false} Transitive(a: string, b: string, c: string)
    requires !Less(b, a) && !Less(c, b)
    ensures !Less(c, a)
    ensures a == c ==> a == b
  {
    if a == "" {
      Trichotomy(c, c);
    } else if b != "" && c != "" && a[0] == b[0] == c[0] {
      Transitive(a[1..], b[1..], c[1..]);
      assert a == [a[0]] + a[1..] && b == [b[0]] + b[1..] && c == [c[0]] + c[1..];
    }
    Trichotomy(a, b);
  }

  function Insert(x: string, s: seq<string>): seq<string> {
    if s == [] || !Less(s[0], x) then [x] + s else [s[0]] + Insert(x, s[1..])
  }

  function Sort(s: seq<string>): seq<string> {
    if s == [] then [] else Insert(s[0], Sort(s[1..]))
  }

  lemma {:induction false} InsertKeepsAll(x: string, s: seq<string>)
    ensures multiset(Insert(x, s)) == multiset(s) + multiset{x}
  {
    hide Less;
    if s != [] && Less(s[0], x) {
      InsertKeepsAll(x, s[1..]);
      assert s == [s[0]] + s[1..];
    }
  }

  lemma {:induction false} InsertKeeps(x: string, s: seq<string>)
    requires Sorted(s)
    ensures Sorted(Insert(x, s)) && multiset(Insert(x, s)) == multiset(s) + multiset{x}
  {
    InsertKeepsAll(x, s);
    hide Less;
    if s != [] && Less(s[0], x) {
      InsertKeeps(x, s[1..]);
      var rest := Insert(x, s[1..]);
      InsertKeepsAll(x, s[1..]);
      forall i | 0 <= i < |rest|
        ensures !Less(rest[i], s[0])
      {
        assert rest[i] in multiset(rest);
        Trichotomy(x, s[0]);
      }
    } else if s != [] {
      forall i | 0 <= i < |s|
        ensures !Less(s[i], x)
      {
        if i > 0 { Transitive(x, s[0], s[i]); }
      }
    }
  }

  lemma {:induction false} SortSorts(s: seq<string>)
    ensures Sorted(Sort(s)) && multiset(Sort(s)) == multiset(s)
  {
    if s != [] {
      SortSorts(s[1..]);
      InsertKeeps(s[0], Sort(s[1..]));
      assert s == [s[0]] + s[1..];
    }
  }

  /** In a sorted list equal elements are neighbours. */
  lemma NeighboursTell(s: seq<string>, n: nat)
    requires Sorted(s) && n < |s| && (n > 0 ==> s[n] != s[n - 1])
    ensures forall i | 0 <= i < n :: s[i] != s[n] && Less(s[i], s[n])
  {
    forall i | 0 <= i < n
      ensures s[i] != s[n] && Less(s[i], s[n])
    {
      Trichotomy(s[i], s[n]);
      if i < n - 1 { Transitive(s[i], s[n - 1], s[n]); }
    }
  }
}
