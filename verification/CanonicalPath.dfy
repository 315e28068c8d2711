/**
 Where a socket path really leads, as canonicalSocketPath of internal/config/config.go finds out.
 The file system is a fixed answer to filepath.EvalSymlinks for every path.
 */
module CanonicalPath {
  import opened Wrappers
  import opened Paths

  type Failure = nat

  datatype Eval = Resolved(path: string) | NotExist | Broken(err: Failure)

  type FileSystem = string -> Eval

  // ------------------------------------------------------------------ canonical socket paths

  function Appended(p: string, rest: seq<string>): string
    decreases |rest|
  {
    if rest == [] then p else Appended(Joined(p, rest[0]), rest[1..])
  }

  /** Resolves the longest existing prefix of at most `n` components, and appends what is missing. */
  function Ascend(fs: FileSystem, rooted: bool, cs: seq<string>, n: nat): Result<string, Failure>
    requires n <= |cs|
  {
    match fs(Render(rooted, cs[..n]))
    case Resolved(p) => Ok(Clean(Appended(p, cs[n..])))
    case Broken(e) => Err(e)
    case NotExist => if n == 0 then Ok(Render(rooted, cs)) else Ascend(fs, rooted, cs, n - 1)
  }

  function Canonical(fs: FileSystem, path: string): Result<string, Failure> {
    var cs := Components(path);
    Ascend(fs, Rooted(path), cs, |cs|)
  }

  function Reversed(s: seq<string>): seq<string> {
    if s == [] then [] else Reversed(s[1..]) + [s[0]]
  }

  lemma {:induction false} ReversedPush(s: seq<string>, x: string)
    ensures Reversed(s + [x]) == [x] + Reversed(s)
  {
    if s == [] {
      assert Reversed([x]) == [x];
    } else {
      assert (s + [x])[1..] == s[1..] + [x];
      ReversedPush(s[1..], x);
    }
  }

  /** The prefix the loop looks at next, or the end of the way up. */
  lemma StepUp(path: string, n: nat, current: string)
    requires n <= |Components(path)| && current == Render(Rooted(path), Components(path)[..n])
    ensures Dir(current) == current <==> n == 0
    ensures n > 0 ==>
              Dir(current) == Render(Rooted(path), Components(path)[..n - 1])
              && Base(current) == Components(path)[n - 1]
  {
    var r, cs := Rooted(path), Components(path);
    CleanIsNormal(path);
    assert Normal(cs[..n], r);
    if n == 0 {
      DirOfBottom(r);
    } else {
      DirAndBase(r, cs[..n]);
      DirDiffers(r, cs[..n]);
      assert cs[..n][..n - 1] == cs[..n - 1];
    }
  }

  /** Appends the missing components, the last one found first. */
  method AppendMissing(prefix: string, missing: seq<string>) returns (resolved: string)
    ensures resolved == Appended(prefix, Reversed(missing))
  {
    hide Joined;
    resolved := prefix;
    assert missing[..|missing|] == missing;
    for i := |missing| downto 0
      invariant Appended(resolved, Reversed(missing[..i])) == Appended(prefix, Reversed(missing))
    {
      assert missing[..i + 1] == missing[..i] + [missing[i]];
      ReversedPush(missing[..i], missing[i]);
      resolved := Joined(resolved, missing[i]);
    }
  }

  lemma OneMoreMissing(missing: seq<string>, cs: seq<string>, n: nat)
    requires 0 < n <= |cs| && Reversed(missing) == cs[n..]
    ensures Reversed(missing + [cs[n - 1]]) == cs[n - 1..]
  {
    ReversedPush(missing, cs[n - 1]);
    assert cs[n - 1..] == [cs[n - 1]] + cs[n..];
  }

  lemma AscendStart(fs: FileSystem, path: string)
    ensures var cs := Components(path);
            && Clean(path) == Render(Rooted(path), cs[..|cs|]) && Reversed([]) == cs[|cs|..]
            && Ascend(fs, Rooted(path), cs, |cs|) == Canonical(fs, path)
  {
    var cs := Components(path);
    assert cs[..|cs|] == cs && cs[|cs|..] == [];
    hide Components, Render;
  }

  /** What the answer for one prefix decides. */
  lemma AscendStep(fs: FileSystem, path: string, n: nat, current: string)
    requires n <= |Components(path)| && current == Render(Rooted(path), Components(path)[..n])
    ensures var up := Ascend(fs, Rooted(path), Components(path), n);
            match fs(current)
            case Resolved(p) => up == Ok(Clean(Appended(p, Components(path)[n..])))
            case Broken(e) => up == Err(e)
            case NotExist => up == if n == 0 then Ok(Clean(path))
                                   else Ascend(fs, Rooted(path), Components(path), n - 1)
  {
    hide Components, Render, Appended;
  }

  /** The loop of the source terminates on every path, absolute or not. */
  method CanonicalSocketPath(fs: FileSystem, path: string) returns (r: Result<string, Failure>)
    ensures r == Canonical(fs, path)
  {
    hide Components, Render, Base, Dir, Joined, Clean, Canonical, Ascend, Appended, Reversed, Rooted;
    var cleaned := Clean(path);
    var current := cleaned;
    var missing: seq<string> := [];
    ghost var cs := Components(path);
    ghost var n: nat := |cs|;
    AscendStart(fs, path);
    while true
      invariant n <= |cs| && current == Render(Rooted(path), cs[..n])
      invariant Reversed(missing) == cs[n..]
      invariant Ascend(fs, Rooted(path), cs, n) == Canonical(fs, path)
      decreases n
    {
      AscendStep(fs, path, n, current);
      var found := fs(current);
      if found.Resolved? {
        var resolved := AppendMissing(found.path, missing);
        return Ok(Clean(resolved));
      }
      if found.Broken? {
        return Err(found.err);
      }
      StepUp(path, n, current);
      var parent := Dir(current);
      if parent == current {
        return Ok(cleaned);
      }
      OneMoreMissing(missing, cs, n);
      missing := missing + [Base(current)];
      current := parent;
      n := n - 1;
    }
  }

  /** Paths that clean to the same have the same canonical path. */
  lemma CanonicalOfClean(fs: FileSystem, a: string, b: string)
    requires Clean(a) == Clean(b)
    ensures Canonical(fs, a) == Canonical(fs, b)
  {
    CleanInjective(a, b);
  }

  /** Every prefix of the path with more than `n` components is missing, and this one is not. */
  ghost predicate LongestExisting(fs: FileSystem, path: string, n: nat) {
    var cs := Components(path);
    && n <= |cs| && !fs(Render(Rooted(path), cs[..n])).NotExist?
    && forall k | n < k <= |cs| :: fs(Render(Rooted(path), cs[..k])).NotExist?
  }

  lemma {:induction false} AscendStops(fs: FileSystem, rooted: bool, cs: seq<string>, m: nat, n: nat)
    requires n <= m <= |cs| && forall k | n < k <= m :: fs(Render(rooted, cs[..k])).NotExist?
    ensures Ascend(fs, rooted, cs, m) == Ascend(fs, rooted, cs, n)
    decreases m
  {
    hide Render;
    if n < m { AscendStops(fs, rooted, cs, m - 1, n); }
  }

  lemma {:induction false} AppendedPieces(front: seq<string>, rest: seq<string>)
    requires Normal(front + rest, true)
    ensures Appended(Render(true, front), rest) == Render(true, front + rest)
    decreases |rest|
  {
    if rest == [] {
      assert front + rest == front;
    } else {
      assert (front + rest)[|front|] == rest[0];
      assert front + rest == (front + [rest[0]]) + rest[1..];
      assert Normal(front, true) && Normal(front + [rest[0]], true) by {
        assert forall i | 0 <= i < |front| :: (front + rest)[i] == front[i];
        assert forall i | 0 <= i <= |front| :: (front + [rest[0]])[i] == (front + rest)[i];
      }
      JoinedPiece(front, rest[0]);
      AppendedPieces(front + [rest[0]], rest[1..]);
    }
  }

  /** Joining one clean piece to a clean absolute path. */
  lemma JoinedPiece(front: seq<string>, c: string)
    requires Normal(front, true) && Normal(front + [c], true)
    ensures Joined(Render(true, front), c) == Render(true, front + [c])
  {
    assert (front + [c])[|front|] == c;
    ComponentsEnd(true, front, c);
    assert Render(true, front) != "";
  }

  /** The longest existing prefix is resolved, and the missing rest is appended to it unchanged. */
  lemma CanonicalMeans(fs: FileSystem, path: string, n: nat)
    requires Rooted(path) && LongestExisting(fs, path, n)
    ensures var cs, found := Components(path), fs(Render(true, Components(path)[..n]));
            && (found.Broken? ==> Canonical(fs, path) == Err(found.err))
            && (found.Resolved? && Rooted(found.path) && Clean(found.path) == found.path ==>
                  Canonical(fs, path) == Ok(Render(true, Components(found.path) + cs[n..])))
  {
    var cs, found := Components(path), fs(Render(true, Components(path)[..n]));
    AscendStops(fs, true, cs, |cs|, n);
    if found.Resolved? && Rooted(found.path) && Clean(found.path) == found.path {
      var front := Components(found.path);
      CleanIsNormal(path);
      CleanIsNormal(found.path);
      assert Normal(front + cs[n..], true) by {
        forall i | 0 <= i < |front + cs[n..]|
          ensures Piece((front + cs[n..])[i]) && (front + cs[n..])[i] != ".."
        {
          assert i >= |front| ==> (front + cs[n..])[i] == cs[n + i - |front|];
        }
      }
      AppendedPieces(front, cs[n..]);
      ComponentsOfRender(true, front + cs[n..]);
    }
  }

  lemma CanonicalWhenNothingExists(fs: FileSystem, path: string)
    requires forall k | 0 <= k <= |Components(path)| :: fs(Render(Rooted(path), Components(path)[..k])).NotExist?
    ensures Canonical(fs, path) == Ok(Clean(path))
  {
    AscendStops(fs, Rooted(path), Components(path), |Components(path)|, 0);
  }
}
