/**
 Taking and releasing one process's socket locks (internal/proxy/socketlock.go). A lock is identified
 with its cleaned path; which locks other processes hold, and which lock files cannot be used or
 closed cleanly, does not change during one call.
 */
module SocketLock {
  import opened Wrappers
  import opened Paths
  import opened Sorting
  import CanonicalPath
  import Config

  datatype Cause = DuplicatePath | InUse | Unusable

  /** The path that failed and why, and the errors from releasing the locks taken before. */
  datatype LockError = LockError(path: string, cause: Cause, closing: seq<string>)

  function Cleaned(paths: seq<string>): (r: seq<string>)
    ensures |r| == |paths| && forall i | 0 <= i < |r| :: r[i] == Clean(paths[i])
  {
    seq(|paths|, i requires 0 <= i < |paths| => Clean(paths[i]))
  }

  function Elements(s: seq<string>): set<string> {
    set p | p in s
  }

  /** The errors of releasing `locks`, last lock first. */
  function CloseErrors(locks: seq<string>, stuck: set<string>): seq<string> {
    if locks == [] then []
    else
      var last := locks[|locks| - 1];
      (if last in stuck then [last] else []) + CloseErrors(locks[..|locks| - 1], stuck)
  }

  /** What is locked later is released, and reported, before. */
  lemma {:induction false} LaterErrorsFirst(a: seq<string>, b: seq<string>, stuck: set<string>)
    ensures CloseErrors(a + b, stuck) == CloseErrors(b, stuck) + CloseErrors(a, stuck)
    decreases |b|
  {
    if b == [] {
      assert a + b == a;
    } else {
      var n := |b| - 1;
      assert (a + b)[..|a + b| - 1] == a + b[..n];
      LaterErrorsFirst(a, b[..n], stuck);
    }
  }

  /** Exactly the locks whose files do not close cleanly are reported. */
  lemma {:induction false} ErrorsAreTheStuck(locks: seq<string>, stuck: set<string>, p: string)
    ensures p in CloseErrors(locks, stuck) <==> p in locks && p in stuck
  {
    if locks != [] {
      var n := |locks| - 1;
      ErrorsAreTheStuck(locks[..n], stuck, p);
      assert locks == locks[..n] + [locks[n]];
    }
  }

  /** The first `n` paths can all be locked. */
  predicate FreeUpTo(s: seq<string>, n: nat, busy: set<string>)
    requires n <= |s|
  {
    forall i | 0 <= i < n :: s[i] !in busy && (i > 0 ==> s[i] != s[i - 1])
  }

  /** Place `n` of the sorted paths is the first that cannot be locked, for the reason given. */
  predicate FailsAt(s: seq<string>, n: nat, taken: set<string>, unusable: set<string>,
                    stuck: set<string>, e: LockError) {
    && n < |s| && FreeUpTo(s, n, taken + unusable) && e.path == s[n] && e.closing == CloseErrors(s[..n], stuck)
    && match e.cause
       case DuplicatePath => n > 0 && s[n] == s[n - 1]
       case Unusable => s[n] in unusable
       case InUse => s[n] !in unusable && s[n] in taken
  }

  lemma CountsOnce(s: seq<string>, i: nat)
    requires Distinct(s) && i < |s|
    ensures multiset(s)[s[i]] == 1
  {
    var a, b := s[..i], s[i + 1..];
    assert s == a + [s[i]] + b;
    assert s[i] !in a && s[i] !in b;
    assert multiset(s) == multiset(a) + multiset{s[i]} + multiset(b);
  }

  lemma CountsTwice(s: seq<string>, i: nat, j: nat)
    requires i < j < |s| && s[i] == s[j]
    ensures multiset(s)[s[i]] >= 2
  {
    var a, b := s[..j], s[j..];
    assert s == a + b && a[i] == b[0] == s[i];
    assert multiset(a)[s[i]] >= 1 && multiset(b)[s[i]] >= 1;
  }

  lemma DistinctCounts(s: seq<string>)
    ensures Distinct(s) <==> forall x | x in s :: multiset(s)[x] == 1
  {
    if Distinct(s) {
      forall x | x in s
        ensures multiset(s)[x] == 1
      {
        var i :| 0 <= i < |s| && s[i] == x;
        CountsOnce(s, i);
      }
    } else {
      var i, j :| 0 <= i < j < |s| && s[i] == s[j];
      CountsTwice(s, i, j);
    }
  }

  lemma SortedFacts(s: seq<string>)
    ensures Sorted(Sort(s)) && |Sort(s)| == |s| && Elements(Sort(s)) == Elements(s)
    ensures Distinct(Sort(s)) <==> Distinct(s)
  {
    SortSorts(s);
    var t := Sort(s);
    assert |t| == |multiset(t)| && |s| == |multiset(s)|;
    assert forall x :: x in t <==> x in multiset(t);
    assert forall x :: x in s <==> x in multiset(s);
    DistinctCounts(s);
    DistinctCounts(t);
  }

  lemma FreeIsDistinct(s: seq<string>, busy: set<string>)
    requires Sorted(s) && FreeUpTo(s, |s|, busy)
    ensures Distinct(s) && Elements(s) !! busy
  {
    forall i, j | 0 <= i < j < |s|
      ensures s[i] != s[j]
    {
      NeighboursTell(s, j);
    }
  }

  lemma NewPath(s: seq<string>, n: nat, busy: set<string>)
    requires Sorted(s) && n < |s| && FreeUpTo(s, n, busy) && (n > 0 ==> s[n] != s[n - 1])
    ensures s[n] !in s[..n]
  {
    NeighboursTell(s, n);
  }

  lemma FailureRefutes(s: seq<string>, n: nat, taken: set<string>, unusable: set<string>,
                       stuck: set<string>, e: LockError)
    requires FailsAt(s, n, taken, unusable, stuck, e)
    ensures !(Distinct(s) && Elements(s) !! taken + unusable)
  {
    assert s[n] in Elements(s);
  }

  class LockFiles {
    var held: set<string>
    const taken: set<string>
    const unusable: set<string>
    const stuck: set<string>

    constructor (taken: set<string>, unusable: set<string>, stuck: set<string>)
      ensures held == {} && this.taken == taken && this.unusable == unusable && this.stuck == stuck
    {
      held := {};
      this.taken, this.unusable, this.stuck := taken, unusable, stuck;
    }

    /** Never waits. */
    method AcquireSocketLock(path: string) returns (err: Option<Cause>)
      modifies this
      ensures err.None? <==> path !in unusable && path !in taken && path !in old(held)
      ensures err == Some(InUse) <==> path !in unusable && (path in taken || path in old(held))
      ensures err != Some(DuplicatePath)
      ensures held == if err.None? then old(held) + {path} else old(held)
    {
      if path in unusable {
        return Some(Unusable);
      }
      if path in taken || path in held {
        return Some(InUse);
      }
      held := held + {path};
      err := None;
    }

    /** The lock goes even when closing its file reports an error. */
    method Close(path: string) returns (failed: bool)
      modifies this
      ensures held == old(held) - {path} && (failed <==> path in stuck)
    {
      held := held - {path};
      failed := path in stuck;
    }

    method CloseSocketLocks(locks: seq<string>) returns (errors: seq<string>)
      modifies this
      ensures held == old(held) - Elements(locks)
      ensures errors == CloseErrors(locks, stuck)
    {
      errors := [];
      assert locks[|locks|..] == [] && locks[..|locks|] == locks;
      for i := |locks| downto 0
        invariant held == old(held) - Elements(locks[i..])
        invariant errors + CloseErrors(locks[..i], stuck) == CloseErrors(locks, stuck)
      {
        assert locks[i..] == [locks[i]] + locks[i + 1..];
        assert locks[..i + 1][..i] == locks[..i];
        var failed := Close(locks[i]);
        if failed {
          errors := errors + [locks[i]];
        }
      }
      assert locks[0..] == locks;
    }

    /**
     Takes every lock or none. It succeeds exactly when the cleaned paths are distinct and all free;
     otherwise it reports the first path, in sorted order, that is a repetition or not free.
     */
    method AcquireSocketLocks(paths: seq<string>) returns (r: Result<seq<string>, LockError>)
      modifies this
      ensures r.Ok? <==> Distinct(Cleaned(paths)) && Elements(Cleaned(paths)) !! taken + unusable + old(held)
      ensures r.Ok? ==> r.value == Sort(Cleaned(paths)) && held == old(held) + Elements(r.value)
      ensures r.Err? ==> held == old(held)
      ensures r.Err? ==>
                exists n :: 0 <= n < |paths| &&
                  FailsAt(Sort(Cleaned(paths)), n, taken + old(held), unusable, stuck, r.error)
    {
      var ordered := new string[|paths|](i requires 0 <= i < |paths| => paths[i]);
      for i := 0 to ordered.Length
        invariant held == old(held)
        invariant forall k | 0 <= k < i :: ordered[k] == Clean(paths[k])
        invariant forall k | i <= k < |paths| :: ordered[k] == paths[k]
      {
        ordered[i] := Clean(ordered[i]);
      }
      assert ordered[..] == Cleaned(paths);
      var sorted := Sort(ordered[..]);
      SortedFacts(Cleaned(paths));
      r := LockAll(sorted);
      if r.Ok? {
        FreeIsDistinct(sorted, taken + unusable + old(held));
      } else {
        ghost var n :| 0 <= n < |sorted| && FailsAt(sorted, n, taken + old(held), unusable, stuck, r.error);
        FailureRefutes(sorted, n, taken + old(held), unusable, stuck, r.error);
        assert taken + old(held) + unusable == taken + unusable + old(held);
      }
    }

    /** The loop over the sorted paths. */
    method LockAll(sorted: seq<string>) returns (r: Result<seq<string>, LockError>)
      requires Sorted(sorted)
      modifies this
      ensures r.Ok? ==>
                && r.value == sorted && held == old(held) + Elements(sorted)
                && FreeUpTo(sorted, |sorted|, taken + unusable + old(held))
      ensures r.Err? ==>
                && held == old(held)
                && exists n :: 0 <= n < |sorted| && FailsAt(sorted, n, taken + old(held), unusable, stuck, r.error)
    {
      var locks: seq<string> := [];
      for i := 0 to |sorted|
        invariant locks == sorted[..i]
        invariant FreeUpTo(sorted, i, taken + unusable + old(held))
        invariant held == old(held) + Elements(locks)
      {
        var path := sorted[i];
        assert taken + old(held) + unusable == taken + unusable + old(held);
        assert Elements(locks) !! old(held);
        if i > 0 && path == sorted[i - 1] {
          var closing := CloseSocketLocks(locks);
          r := Err(LockError(path, DuplicatePath, closing));
          assert FailsAt(sorted, i, taken + old(held), unusable, stuck, r.error);
          return;
        }
        NewPath(sorted, i, taken + unusable + old(held));
        var err := AcquireSocketLock(path);
        if err.Some? {
          var closing := CloseSocketLocks(locks);
          r := Err(LockError(path, err.value, closing));
          assert FailsAt(sorted, i, taken + old(held), unusable, stuck, r.error);
          return;
        }
        assert sorted[..i + 1] == sorted[..i] + [path];
        locks := locks + [path];
      }
      r := Ok(locks);
    }
  }

  // ------------------------------------------------------------------ configurations and plans

  /** The cleaned sockets of the enabled groups from group `n` on. */
  function EnabledSockets(gs: seq<Config.Parsed>, n: nat): seq<string>
    requires n <= |gs|
    decreases |gs| - n
  {
    if n == |gs| then []
    else (if gs[n].enabled then [Clean(gs[n].socket)] else []) + EnabledSockets(gs, n + 1)
  }

  lemma {:induction false} EnabledSocketsFrom(fs: CanonicalPath.FileSystem, upstream: string,
                                             gs: seq<Config.Parsed>, n: nat)
    requires Config.Accepted(fs, upstream, gs) && n <= |gs|
    ensures Distinct(EnabledSockets(gs, n))
    ensures forall p | p in EnabledSockets(gs, n) ::
              Clean(p) == p && exists k :: n <= k < |gs| && gs[k].enabled && p == Clean(gs[k].socket)
    decreases |gs| - n
  {
    hide Clean, Config.Accepted;
    if n < |gs| {
      EnabledSocketsFrom(fs, upstream, gs, n + 1);
      CleanIdempotent(gs[n].socket);
      var rest := EnabledSockets(gs, n + 1);
      forall i | 0 <= i < |rest|
        ensures gs[n].enabled ==> rest[i] != Clean(gs[n].socket)
      {
        assert rest[i] in rest;
        var k :| n + 1 <= k < |gs| && gs[k].enabled && rest[i] == Clean(gs[k].socket);
        if gs[n].enabled { Config.AcceptedSocketsDiffer(fs, upstream, gs, n, k); }
      }
    }
  }

  /** On an accepted configuration the duplicate branch is never taken. */
  lemma AcceptedNeverDuplicate(fs: CanonicalPath.FileSystem, upstream: string, gs: seq<Config.Parsed>,
                               n: nat, taken: set<string>, unusable: set<string>, stuck: set<string>, e: LockError)
    requires Config.Accepted(fs, upstream, gs)
    requires FailsAt(Sort(Cleaned(EnabledSockets(gs, 0))), n, taken, unusable, stuck, e)
    ensures e.cause != DuplicatePath
  {
    var sockets := EnabledSockets(gs, 0);
    EnabledSocketsFrom(fs, upstream, gs, 0);
    assert Cleaned(sockets) == sockets;
    SortedFacts(sockets);
  }

  /** What a process goes through is the kind of plan that the progress theorem is about. */
  lemma PlansAreSorted(configured: seq<seq<string>>)
    ensures var plans := seq(|configured|, i requires 0 <= i < |configured| => Sort(Cleaned(configured[i])));
            forall i | 0 <= i < |plans| :: Sorted(plans[i])
  {
    forall i | 0 <= i < |configured|
      ensures Sorted(Sort(Cleaned(configured[i])))
    {
      SortSorts(Cleaned(configured[i]));
    }
  }
}
