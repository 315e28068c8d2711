/** Path cleaning as path/filepath does it on Unix, on which both the configuration and the socket locks rest. */
module Paths {

  /** The pieces between slashes. */
  function Split(p: string): (r: seq<string>)
    ensures |r| > 0
    ensures forall c | c in r :: '/' !in c
  {
    if p == "" then [""]
    else
      var rest := Split(p[1..]);
      if p[0] == '/' then [""] + rest else [[p[0]] + rest[0]] + rest[1..]
  }

  function Join(cs: seq<string>): string {
    if cs == [] then "" else if |cs| == 1 then cs[0] else cs[0] + "/" + Join(cs[1..])
  }

  predicate Rooted(p: string) {
    p != "" && p[0] == '/'
  }

  /** Eliminates empty and "." pieces, and each ".." with the piece before it. */
  function Reduce(out: seq<string>, cs: seq<string>, rooted: bool): seq<string>
    decreases |cs|
  {
    if cs == [] then out else Reduce(Apply(out, cs[0], rooted), cs[1..], rooted)
  }

  function Apply(out: seq<string>, c: string, rooted: bool): seq<string> {
    if c == "" || c == "." then out
    else if c != ".." then out + [c]
    else if out != [] && out[|out| - 1] != ".." then out[..|out| - 1]
    else if rooted then out
    else out + [".."]
  }

  function Render(rooted: bool, cs: seq<string>): string {
    if rooted then "/" + Join(cs) else if cs == [] then "." else Join(cs)
  }

  function Components(p: string): seq<string> {
    Reduce([], Split(p), Rooted(p))
  }

  function Clean(p: string): string {
    Render(Rooted(p), Components(p))
  }

  /** The last slash, or -1. */
  function LastSlash(p: string): (i: int)
    ensures -1 <= i < |p|
    ensures i >= 0 ==> p[i] == '/'
    ensures forall k | i < k < |p| :: p[k] != '/'
  {
    if p == "" then -1 else if p[|p| - 1] == '/' then |p| - 1 else LastSlash(p[..|p| - 1])
  }

  function Dir(p: string): string {
    Clean(p[..LastSlash(p) + 1])
  }

  function TrimSlashes(p: string): string {
    if p != "" && p[|p| - 1] == '/' then TrimSlashes(p[..|p| - 1]) else p
  }

  function Base(p: string): string {
    if p == "" then "."
    else
      var t := TrimSlashes(p);
      if t == "" then "/" else t[LastSlash(t) + 1..]
  }

  /** filepath.Join of two elements: the empty ones are ignored. */
  function Joined(a: string, b: string): string {
    if a == "" && b == "" then "" else if a == "" then Clean(b) else Clean(a + "/" + b)
  }

  // ------------------------------------------------------------------ normal forms

  predicate Piece(c: string) {
    c != "" && c != "." && '/' !in c
  }

  /** What cleaning leaves: no empty or "." piece, and ".." only in front of a relative path. */
  predicate Normal(cs: seq<string>, rooted: bool) {
    && (forall i | 0 <= i < |cs| :: Piece(cs[i]))
    && (forall i | 0 <= i < |cs| && cs[i] == ".." :: !rooted && forall j | 0 <= j < i :: cs[j] == "..")
  }

  lemma ApplyKeepsNormal(out: seq<string>, c: string, rooted: bool)
    requires Normal(out, rooted) && '/' !in c
    ensures Normal(Apply(out, c, rooted), rooted)
  {
  }

  lemma {:induction false} ReduceIsNormal(out: seq<string>, cs: seq<string>, rooted: bool)
    requires Normal(out, rooted) && forall c | c in cs :: '/' !in c
    ensures Normal(Reduce(out, cs, rooted), rooted)
    decreases |cs|
  {
    if cs != [] {
      ApplyKeepsNormal(out, cs[0], rooted);
      ReduceIsNormal(Apply(out, cs[0], rooted), cs[1..], rooted);
    }
  }

  /** A normal rest is appended as it is. */
  lemma {:induction false} ReduceAppends(out: seq<string>, cs: seq<string>, rooted: bool)
    requires Normal(out + cs, rooted)
    ensures Reduce(out, cs, rooted) == out + cs
    decreases |cs|
  {
    if cs == [] {
      assert out + cs == out;
    } else {
      assert (out + cs)[|out|] == cs[0];
      assert out != [] ==> (out + cs)[|out| - 1] == out[|out| - 1];
      assert Apply(out, cs[0], rooted) == out + [cs[0]];
      assert (out + [cs[0]]) + cs[1..] == out + cs;
      ReduceAppends(out + [cs[0]], cs[1..], rooted);
    }
  }

  lemma {:induction false} SplitPiece(c: string, rest: string)
    requires '/' !in c
    ensures Split(c) == [c] && Split(c + "/" + rest) == [c] + Split(rest)
  {
    var whole := c + "/" + rest;
    if c == "" {
      assert whole == "/" + rest;
      assert whole[1..] == rest;
    } else {
      SplitPiece(c[1..], rest);
      assert whole[1..] == c[1..] + "/" + rest;
      assert [c[0]] + c[1..] == c;
    }
  }

  lemma {:induction false} SplitJoin(cs: seq<string>)
    requires cs != [] && forall c | c in cs :: '/' !in c
    ensures Split(Join(cs)) == cs
  {
    hide Split;
    var rest := cs[1..];
    assert cs == [cs[0]] + rest;
    if rest == [] {
      SplitPiece(cs[0], "");
    } else {
      SplitJoin(rest);
      assert Join(cs) == cs[0] + "/" + Join(rest);
      hide Join;
      SplitPiece(cs[0], Join(rest));
    }
  }

  lemma JoinStartsWith(cs: seq<string>)
    requires cs != [] && cs[0] != ""
    ensures Join(cs) != "" && Join(cs)[0] == cs[0][0]
  {
  }

  /** A rendered normal form has exactly its own components. */
  lemma ComponentsOfRender(rooted: bool, cs: seq<string>)
    requires Normal(cs, rooted)
    ensures Rooted(Render(rooted, cs)) == rooted && Components(Render(rooted, cs)) == cs
  {
    var p := Render(rooted, cs);
    if cs == [] {
      assert Split("") == [""];
      if rooted {
        assert p == "/" && p[1..] == "";
        assert Split(p) == ["", ""];
        assert Reduce([], ["", ""], true) == Reduce([], [""], true) == [];
      } else {
        SplitPiece(".", "");
        assert Reduce([], ["."], false) == Reduce([], [], false);
      }
    } else {
      SplitJoin(cs);
      JoinStartsWith(cs);
      ReduceAppends([], cs, rooted);
      assert [] + cs == cs;
      if rooted {
        assert p[1..] == Join(cs);
        assert Split(p) == [""] + cs;
        assert ([""] + cs)[1..] == cs;
      } else {
        assert p[0] == cs[0][0];
      }
    }
  }

  lemma CleanIsNormal(p: string)
    ensures Normal(Components(p), Rooted(p))
  {
    ReduceIsNormal([], Split(p), Rooted(p));
  }

  lemma CleanIdempotent(p: string)
    ensures Clean(Clean(p)) == Clean(p)
    ensures Rooted(Clean(p)) == Rooted(p) && Components(Clean(p)) == Components(p)
  {
    CleanIsNormal(p);
    ComponentsOfRender(Rooted(p), Components(p));
  }

  /** Two paths are cleaned to the same exactly when they agree on the root and on the components. */
  lemma CleanInjective(p: string, q: string)
    ensures Clean(p) == Clean(q) <==> Rooted(p) == Rooted(q) && Components(p) == Components(q)
  {
    CleanIdempotent(p);
    CleanIdempotent(q);
  }

  // ------------------------------------------------------------------ where a path leads

  /** From a directory, named by the components below the root, one piece up or down; no name is a link. */
  function Go(at: seq<string>, c: string): seq<string> {
    if c == "" || c == "." then at
    else if c == ".." then if at == [] then [] else at[..|at| - 1]
    else at + [c]
  }

  function Walk(at: seq<string>, cs: seq<string>): seq<string>
    decreases |cs|
  {
    if cs == [] then at else Walk(Go(at, cs[0]), cs[1..])
  }

  /** Where the path leads from directory `at`. */
  function Place(at: seq<string>, p: string): seq<string> {
    Walk(if Rooted(p) then [] else at, Split(p))
  }

  lemma {:induction false} WalkOn(at: seq<string>, cs: seq<string>, c: string)
    ensures Walk(at, cs + [c]) == Go(Walk(at, cs), c)
    decreases |cs|
  {
    if cs == [] {
      assert [c][1..] == [];
    } else {
      assert (cs + [c])[1..] == cs[1..] + [c];
      WalkOn(Go(at, cs[0]), cs[1..], c);
    }
  }

  /** Eliminating a piece leaves the place as it is. */
  lemma ApplyKeepsPlace(at: seq<string>, out: seq<string>, c: string, rooted: bool)
    requires Normal(out, rooted) && (rooted ==> at == [])
    ensures Walk(at, Apply(out, c, rooted)) == Go(Walk(at, out), c)
  {
    WalkOn(at, out, c);
    if c == ".." && out != [] && out[|out| - 1] != ".." {
      var front := out[..|out| - 1];
      assert out == front + [out[|out| - 1]];
      WalkOn(at, front, out[|out| - 1]);
    }
  }

  lemma {:induction false} ReduceKeepsPlace(at: seq<string>, out: seq<string>, cs: seq<string>, rooted: bool)
    requires Normal(out, rooted) && (rooted ==> at == []) && forall c | c in cs :: '/' !in c
    ensures Walk(at, Reduce(out, cs, rooted)) == Walk(Walk(at, out), cs)
    decreases |cs|
  {
    if cs != [] {
      ApplyKeepsNormal(out, cs[0], rooted);
      ApplyKeepsPlace(at, out, cs[0], rooted);
      ReduceKeepsPlace(at, Apply(out, cs[0], rooted), cs[1..], rooted);
    }
  }

  lemma PlaceOfComponents(at: seq<string>, p: string)
    ensures Place(at, p) == Walk(if Rooted(p) then [] else at, Components(p))
  {
    ReduceKeepsPlace(if Rooted(p) then [] else at, [], Split(p), Rooted(p));
  }

  /** A cleaned path leads where the path led, from every directory. */
  lemma CleanKeepsPlace(at: seq<string>, p: string)
    ensures Place(at, Clean(p)) == Place(at, p)
  {
    CleanIdempotent(p);
    PlaceOfComponents(at, p);
    PlaceOfComponents(at, Clean(p));
  }

  lemma {:induction false} WalkDown(at: seq<string>, cs: seq<string>)
    requires Normal(cs, true)
    ensures Walk(at, cs) == at + cs
    decreases |cs|
  {
    if cs != [] {
      assert Piece(cs[0]) && cs[0] != "..";
      assert forall i | 0 <= i < |cs[1..]| :: cs[1..][i] == cs[i + 1];
      WalkDown(at + [cs[0]], cs[1..]);
      assert at + [cs[0]] + cs[1..] == at + cs;
    }
  }

  /** Two absolute paths are cleaned to the same exactly when they lead to the same place. */
  lemma CleanIsPlace(p: string, q: string)
    requires Rooted(p) && Rooted(q)
    ensures Clean(p) == Clean(q) <==> Place([], p) == Place([], q)
  {
    CleanInjective(p, q);
    PlaceOfComponents([], p);
    PlaceOfComponents([], q);
    CleanIsNormal(p);
    CleanIsNormal(q);
    WalkDown([], Components(p));
    WalkDown([], Components(q));
    assert [] + Components(p) == Components(p) && [] + Components(q) == Components(q);
  }

  // ------------------------------------------------------------------ directory and base

  lemma {:induction false} JoinLast(cs: seq<string>)
    requires |cs| > 1
    ensures Join(cs) == Join(cs[..|cs| - 1]) + "/" + cs[|cs| - 1]
  {
    if |cs| > 2 {
      JoinLast(cs[1..]);
      assert cs[1..][..|cs| - 2] == cs[..|cs| - 1][1..];
    } else {
      assert cs[1..] == [cs[1]] && cs[..1] == [cs[0]];
    }
  }

  lemma LastSlashAt(a: string, c: string)
    requires '/' !in c && (a != "" ==> a[|a| - 1] == '/')
    ensures LastSlash(a + c) == |a| - 1
  {
    var p := a + c;
    assert a != "" ==> p[|a| - 1] == '/';
    assert forall k | |a| <= k < |p| :: p[k] == c[k - |a|];
  }

  /** A slash and one more piece add that piece. */
  lemma {:induction false} SplitEnd(a: string, c: string)
    requires '/' !in c
    ensures Split(a + "/" + c) == Split(a) + [c]
  {
    SplitPiece(c, "");
    if a == "" {
      assert "" + "/" + c == "/" + c;
      SplitPiece("", c);
      assert Split("") == [""];
    } else {
      assert (a + "/" + c)[1..] == a[1..] + "/" + c;
      SplitEnd(a[1..], c);
    }
  }

  lemma {:induction false} ReduceEnd(out: seq<string>, cs: seq<string>, c: string, rooted: bool)
    ensures Reduce(out, cs + [c], rooted) == Apply(Reduce(out, cs, rooted), c, rooted)
    decreases |cs|
  {
    if cs == [] {
      assert Reduce(out, [c], rooted) == Reduce(Apply(out, c, rooted), [], rooted);
    } else {
      assert (cs + [c])[1..] == cs[1..] + [c];
      ReduceEnd(Apply(out, cs[0], rooted), cs[1..], c, rooted);
    }
  }

  /** One more piece after a clean path. */
  lemma ComponentsEnd(rooted: bool, cs: seq<string>, c: string)
    requires Normal(cs, rooted) && '/' !in c
    ensures var p := Render(rooted, cs) + "/" + c;
            Rooted(p) == rooted && Components(p) == Apply(cs, c, rooted)
  {
    ComponentsOfRender(rooted, cs);
    SplitEnd(Render(rooted, cs), c);
    ReduceEnd([], Split(Render(rooted, cs)), c, rooted);
    assert Render(rooted, cs) != "" by { if cs != [] { JoinStartsWith(cs); } }
  }

  /** A slash after a clean path changes nothing. */
  lemma CleanTrailing(rooted: bool, cs: seq<string>)
    requires Normal(cs, rooted)
    ensures Clean(Render(rooted, cs) + "/") == Render(rooted, cs)
  {
    ComponentsEnd(rooted, cs, "");
    assert Render(rooted, cs) + "/" + "" == Render(rooted, cs) + "/";
  }

  /** What stands before the last component of a clean path. */
  function Before(rooted: bool, front: seq<string>): string {
    if front == [] then (if rooted then "/" else "") else Render(rooted, front) + "/"
  }

  lemma CleanBefore(rooted: bool, front: seq<string>)
    requires Normal(front, rooted)
    ensures Clean(Before(rooted, front)) == Render(rooted, front)
  {
    if front != [] {
      CleanTrailing(rooted, front);
    } else if rooted {
      ComponentsOfRender(true, []);
      assert Render(true, []) == "/";
    } else {
      assert Split("") == [""];
      assert Reduce([], [""], false) == Reduce([], [], false);
    }
  }

  lemma RenderLast(rooted: bool, cs: seq<string>)
    requires Normal(cs, rooted) && cs != []
    ensures Render(rooted, cs) == Before(rooted, cs[..|cs| - 1]) + cs[|cs| - 1]
    ensures LastSlash(Render(rooted, cs)) == |Before(rooted, cs[..|cs| - 1])| - 1
  {
    var before, last := Before(rooted, cs[..|cs| - 1]), cs[|cs| - 1];
    if |cs| > 1 { JoinLast(cs); }
    assert Render(rooted, cs) == before + last;
    assert '/' !in last && (before != "" ==> before[|before| - 1] == '/');
    hide Render, Before, Join;
    LastSlashAt(before, last);
  }

  /** The directory of a clean path drops its last component, and its base is that component. */
  lemma DirAndBase(rooted: bool, cs: seq<string>)
    requires Normal(cs, rooted) && cs != []
    ensures Dir(Render(rooted, cs)) == Render(rooted, cs[..|cs| - 1])
    ensures Base(Render(rooted, cs)) == cs[|cs| - 1]
  {
    var p, last := Render(rooted, cs), cs[|cs| - 1];
    var a := Before(rooted, cs[..|cs| - 1]);
    RenderLast(rooted, cs);
    CleanBefore(rooted, cs[..|cs| - 1]);
    assert Piece(last);
    hide Render, Before, Clean;
    assert p[..|a|] == a;
    assert p[|a|..] == last;
    assert p[|p| - 1] == last[|last| - 1];
  }

  lemma DirOfBottom(rooted: bool)
    ensures Dir(Render(rooted, [])) == Render(rooted, [])
  {
    ComponentsOfRender(true, []);
    assert Split("") == [""];
    assert Reduce([], [""], false) == Reduce([], [], false);
    if rooted {
      assert "/"[..1] == "/";
    }
  }

  lemma DirDiffers(rooted: bool, cs: seq<string>)
    requires Normal(cs, rooted) && cs != []
    ensures Render(rooted, cs[..|cs| - 1]) != Render(rooted, cs)
  {
    assert Normal(cs[..|cs| - 1], rooted);
    ComponentsOfRender(rooted, cs);
    ComponentsOfRender(rooted, cs[..|cs| - 1]);
    assert |cs[..|cs| - 1]| != |cs|;
  }
}
