/**
 Resolving a parsed configuration, as internal/config/config.go does it: paths are cleaned and key
 entries compiled in place, and no enabled group may share its socket with another or with upstream.
 */
module Config {
  import opened Wrappers
  import opened Paths
  import opened CanonicalPath
  import Unicode

  datatype KeyEntry = KeyEntry(comment: Option<string>, md5: Option<string>, sha256: Option<string>)

  datatype Criterion = Comment(value: string) | MD5(value: string) | SHA256(value: string)

  /** A group as it was parsed. */
  datatype Parsed = Parsed(name: string, enabled: bool, socket: string, keys: seq<KeyEntry>)

  datatype GroupProblem =
    | NameRequired
    | DuplicateName
    | SocketRequired
    | NotAbsolute
    | Unresolvable(err: Failure)
    | UpstreamConflict
    | DuplicateSocket(other: string)
    | BadKey(key: nat)

  datatype Problem =
    | UpstreamRequired
    | UpstreamNotAbsolute
    | UpstreamUnresolvable(err: Failure)
    | InGroup(group: nat, what: GroupProblem)

  // ------------------------------------------------------------------ what is checked

  predicate Blank(s: string) {
    forall i | 0 <= i < |s| :: Unicode.IsSpace(s[i] as int)
  }

  function TrimRight(s: string): string {
    if s != "" && Unicode.IsSpace(s[|s| - 1] as int) then TrimRight(s[..|s| - 1]) else s
  }

  /** strings.TrimSpace. */
  function TrimSpace(s: string): string {
    if s != "" && Unicode.IsSpace(s[0] as int) then TrimSpace(s[1..]) else TrimRight(s)
  }

  lemma {:induction false} NothingTrimmedRight(s: string)
    ensures TrimRight(s) == "" <==> Blank(s)
  {
    if s != "" && Unicode.IsSpace(s[|s| - 1] as int) {
      NothingTrimmedRight(s[..|s| - 1]);
      assert s == s[..|s| - 1] + [s[|s| - 1]];
    }
  }

  /** Blank is what trimming leaves nothing of. */
  lemma {:induction false} BlankIsTrimmed(s: string)
    ensures TrimSpace(s) == "" <==> Blank(s)
  {
    if s != "" && Unicode.IsSpace(s[0] as int) {
      BlankIsTrimmed(s[1..]);
      assert s == [s[0]] + s[1..];
    } else {
      NothingTrimmedRight(s);
    }
  }

  /** An entry has exactly one criterion, and its value is not empty. */
  function Compiled(e: KeyEntry): Option<Criterion> {
    var c :=
      match (e.comment, e.md5, e.sha256)
      case (Some(v), None, None) => Some(Comment(v))
      case (None, Some(v), None) => Some(MD5(v))
      case (None, None, Some(v)) => Some(SHA256(v))
      case _ => None;
    if c.Some? && c.value.value != "" then c else None
  }

  /** The entry that states one criterion. */
  function EntryOf(c: Criterion): KeyEntry {
    match c
    case Comment(v) => KeyEntry(Some(v), None, None)
    case MD5(v) => KeyEntry(None, Some(v), None)
    case SHA256(v) => KeyEntry(None, None, Some(v))
  }

  /** An entry compiles to a criterion exactly when it states that one, no other, and a value for it. */
  lemma CompiledMeans(e: KeyEntry, c: Criterion)
    ensures Compiled(e) == Some(c) <==> e == EntryOf(c) && c.value != ""
  {
    match c
    case _ =>
  }

  predicate Named(gs: seq<Parsed>, k: nat)
    requires k < |gs|
  {
    !Blank(gs[k].name) && forall j | 0 <= j < k :: gs[j].name != gs[k].name
  }

  predicate Placed(g: Parsed) {
    !Blank(g.socket) && Rooted(g.socket)
  }

  /** An enabled group's canonical socket is neither upstream's nor that of an enabled group before it. */
  predicate Alone(fs: FileSystem, upstream: string, gs: seq<Parsed>, k: nat)
    requires k < |gs|
  {
    gs[k].enabled ==>
      var here := Canonical(fs, gs[k].socket);
      && here.Ok? && here.value != upstream
      && forall j | 0 <= j < k && gs[j].enabled :: Canonical(fs, gs[j].socket) != here
  }

  predicate Keyed(g: Parsed) {
    forall j | 0 <= j < |g.keys| :: Compiled(g.keys[j]).Some?
  }

  predicate Passes(fs: FileSystem, upstream: string, gs: seq<Parsed>, k: nat)
    requires k < |gs|
  {
    Named(gs, k) && Placed(gs[k]) && Alone(fs, upstream, gs, k) && Keyed(gs[k])
  }

  /** The first check group `k` does not pass, in the order they are made. */
  ghost predicate Fails(fs: FileSystem, upstream: string, gs: seq<Parsed>, k: nat, what: GroupProblem)
    requires k < |gs|
  {
    var g, here := gs[k], Canonical(fs, gs[k].socket);
    match what
    case NameRequired => Blank(g.name)
    case DuplicateName => !Blank(g.name) && exists j :: 0 <= j < k && gs[j].name == g.name
    case SocketRequired => Named(gs, k) && Blank(g.socket)
    case NotAbsolute => Named(gs, k) && !Blank(g.socket) && !Rooted(g.socket)
    case Unresolvable(e) => Named(gs, k) && Placed(g) && g.enabled && here == Err(e)
    case UpstreamConflict => Named(gs, k) && Placed(g) && g.enabled && here == Ok(upstream)
    case DuplicateSocket(other) =>
      && Named(gs, k) && Placed(g) && g.enabled && here.Ok? && here.value != upstream
      && exists j :: 0 <= j < k && gs[j].enabled && gs[j].name == other && Canonical(fs, gs[j].socket) == here
    case BadKey(i) =>
      && Named(gs, k) && Placed(g) && Alone(fs, upstream, gs, k)
      && i < |g.keys| && Compiled(g.keys[i]).None? && forall j | 0 <= j < i :: Compiled(g.keys[j]).Some?
  }

  lemma FailsIsNotPassing(fs: FileSystem, upstream: string, gs: seq<Parsed>, k: nat, what: GroupProblem)
    requires k < |gs| && Fails(fs, upstream, gs, k, what)
    ensures !Passes(fs, upstream, gs, k)
  {
  }

  // ------------------------------------------------------------------ the objects

  class Group {
    const name: string
    const enabled: bool
    const keys: seq<KeyEntry>
    var socket: string
    var matchers: seq<Criterion>

    constructor (g: Parsed)
      ensures name == g.name && enabled == g.enabled && keys == g.keys && socket == g.socket && matchers == []
    {
      name, enabled, keys, socket, matchers := g.name, g.enabled, g.keys, g.socket, [];
    }

    /** Neither the socket nor the matchers have changed. */
    predicate Untouched(socket: string, matchers: seq<Criterion>)
      reads this
    {
      this.socket == socket && this.matchers == matchers
    }

    /** The socket is cleaned, and every key entry is compiled. */
    predicate Done(socket: string)
      reads this
    {
      && this.socket == Clean(socket)
      && |matchers| == |keys|
      && forall j | 0 <= j < |matchers| :: Compiled(keys[j]) == Some(matchers[j])
    }

    /** Compiles the key entries in order, up to the first bad one. */
    method CompileKeys() returns (bad: Option<nat>)
      modifies this`matchers
      ensures bad.None? ==> |matchers| == |keys|
      ensures bad.Some? ==> |matchers| == bad.value < |keys| && Compiled(keys[bad.value]).None?
      ensures forall j | 0 <= j < |matchers| :: Compiled(keys[j]) == Some(matchers[j])
    {
      matchers := [];
      for j := 0 to |keys|
        invariant |matchers| == j
        invariant forall i | 0 <= i < j :: Compiled(keys[i]) == Some(matchers[i])
      {
        var m := Compiled(keys[j]);
        if m.None? {
          return Some(j);
        }
        matchers := matchers + [m.value];
      }
      bad := None;
    }
  }

  /** The cleaning of a group's socket comes after its name and path checks. */
  predicate CleanedBefore(what: GroupProblem) {
    !what.NameRequired? && !what.DuplicateName? && !what.SocketRequired? && !what.NotAbsolute?
  }

  /** What the group that failed is left with: a bad key comes after the socket and the keys before it. */
  function SocketLeft(what: GroupProblem, socket: string): string {
    if CleanedBefore(what) then Clean(socket) else socket
  }

  predicate MatchersLeft(what: GroupProblem, keys: seq<KeyEntry>, was: seq<Criterion>, matchers: seq<Criterion>) {
    if what.BadKey? then
      |matchers| == what.key <= |keys| && forall j | 0 <= j < |matchers| :: Compiled(keys[j]) == Some(matchers[j])
    else matchers == was
  }

  class Config {
    var upstream: string
    const groups: seq<Group>

    constructor (upstream: string, groups: seq<Group>)
      ensures this.upstream == upstream && this.groups == groups
    {
      this.upstream, this.groups := upstream, groups;
    }

    ghost predicate Valid() {
      forall i, j | 0 <= i < j < |groups| :: groups[i] != groups[j]
    }

    ghost function Text(): (gs: seq<Parsed>)
      reads groups
      ensures |gs| == |groups|
    {
      seq(|groups|, i reads groups requires 0 <= i < |groups| =>
        Parsed(groups[i].name, groups[i].enabled, groups[i].socket, groups[i].keys))
    }

    method Resolve(fs: FileSystem) returns (err: Option<Problem>)
      requires Valid()
      modifies this`upstream, groups
      ensures err == Some(UpstreamRequired) <==> Blank(old(upstream))
      ensures err == Some(UpstreamNotAbsolute) <==> !Blank(old(upstream)) && !Rooted(old(upstream))
      ensures upstream == if Blank(old(upstream)) || !Rooted(old(upstream)) then old(upstream) else Clean(old(upstream))
      ensures err.None? || err.value.InGroup? ==>
                !Blank(old(upstream)) && Rooted(old(upstream)) && Canonical(fs, old(upstream)).Ok?
      ensures err.Some? && err.value.UpstreamUnresolvable? ==>
                !Blank(old(upstream)) && Rooted(old(upstream)) && Canonical(fs, old(upstream)) == Err(err.value.err)
      ensures err.Some? && !err.value.InGroup? ==>
                forall k | 0 <= k < |groups| ::
                  groups[k].Untouched(old(groups[k].socket), old(groups[k].matchers))
      ensures err.None? ==>
                forall k | 0 <= k < |groups| ::
                  groups[k].Done(old(groups[k].socket))
                  && Passes(fs, Canonical(fs, old(upstream)).value, old(Text()), k)
      ensures err.Some? && err.value.InGroup? ==>
                var n, up := err.value.group, Canonical(fs, old(upstream)).value;
                && n < |groups| && Fails(fs, up, old(Text()), n, err.value.what)
                && (forall k | 0 <= k < n :: groups[k].Done(old(groups[k].socket)) && Passes(fs, up, old(Text()), k))
                && (forall k | n < k < |groups| :: groups[k].Untouched(old(groups[k].socket), old(groups[k].matchers)))
                && groups[n].socket == SocketLeft(err.value.what, old(groups[n].socket))
                && MatchersLeft(err.value.what, groups[n].keys, old(groups[n].matchers), groups[n].matchers)
    {
      if Blank(upstream) {
        return Some(UpstreamRequired);
      }
      if !Rooted(upstream) {
        return Some(UpstreamNotAbsolute);
      }
      CleanIdempotent(upstream);
      CanonicalOfClean(fs, Clean(upstream), upstream);
      upstream := Clean(upstream);
      var here := CanonicalSocketPath(fs, upstream);
      if here.Err? {
        return Some(UpstreamUnresolvable(here.error));
      }
      err := ResolveGroups(fs, here.value);
    }

    method ResolveGroups(fs: FileSystem, upstreamPath: string) returns (err: Option<Problem>)
      requires Valid()
      modifies groups
      ensures err.None? ==>
                forall k | 0 <= k < |groups| ::
                  groups[k].Done(old(groups[k].socket)) && Passes(fs, upstreamPath, old(Text()), k)
      ensures err.Some? ==>
                && err.value.InGroup? && err.value.group < |groups|
                && Fails(fs, upstreamPath, old(Text()), err.value.group, err.value.what)
                && (forall k | 0 <= k < err.value.group ::
                      groups[k].Done(old(groups[k].socket)) && Passes(fs, upstreamPath, old(Text()), k))
                && (forall k | err.value.group < k < |groups| ::
                      groups[k].Untouched(old(groups[k].socket), old(groups[k].matchers)))
                && groups[err.value.group].socket == SocketLeft(err.value.what, old(groups[err.value.group].socket))
                && MatchersLeft(err.value.what, groups[err.value.group].keys,
                                old(groups[err.value.group].matchers), groups[err.value.group].matchers)
    {
      hide Passes, Fails, Seen, Names, Clean, Canonical, SocketLeft, MatchersLeft;
      ghost var gs := old(Text());
      var seenNames: set<string> := {};
      var seenSockets: map<string, string> := map[];
      NothingSeen(fs, gs);
      for i := 0 to |groups|
        invariant forall k | 0 <= k < i :: groups[k].Done(old(groups[k].socket)) && Passes(fs, upstreamPath, gs, k)
        invariant forall k | i <= k < |groups| :: groups[k].Untouched(old(groups[k].socket), old(groups[k].matchers))
        invariant seenNames == Names(gs, i)
        invariant Seen(fs, gs, i, seenSockets)
      {
        assert groups[i].Untouched(old(groups[i].socket), old(groups[i].matchers)) && gs[i] == old(Text())[i];
        var what;
        what, seenNames, seenSockets := ResolveGroup(fs, i, upstreamPath, gs, seenNames, seenSockets);
        forall k | 0 <= k < |groups| && k != i
          ensures k < i ==> groups[k].Done(old(groups[k].socket))
          ensures k > i ==> groups[k].Untouched(old(groups[k].socket), old(groups[k].matchers))
        {
          assert groups[k] != groups[i];
        }
        if what.Some? {
          return Some(InGroup(i, what.value));
        }
      }
      err := None;
    }

    /** One turn of the loop over the groups. */
    method ResolveGroup(fs: FileSystem, i: nat, upstreamPath: string, ghost gs: seq<Parsed>,
                        names: set<string>, sockets: map<string, string>)
      returns (what: Option<GroupProblem>, seenNames: set<string>, seenSockets: map<string, string>)
      requires i < |groups| == |gs| && names == Names(gs, i) && Seen(fs, gs, i, sockets)
      requires gs[i] == Parsed(groups[i].name, groups[i].enabled, groups[i].socket, groups[i].keys)
      modifies groups[i]
      ensures what.None? ==>
                && Passes(fs, upstreamPath, gs, i) && groups[i].Done(old(groups[i].socket))
                && seenNames == Names(gs, i + 1) && Seen(fs, gs, i + 1, seenSockets)
      ensures what.Some? ==>
                && Fails(fs, upstreamPath, gs, i, what.value)
                && groups[i].socket == SocketLeft(what.value, old(groups[i].socket))
                && MatchersLeft(what.value, groups[i].keys, old(groups[i].matchers), groups[i].matchers)
    {
      var g := groups[i];
      seenSockets := sockets;
      what, seenNames := CheckNameAndPath(fs, g, upstreamPath, gs, i, names);
      hide Fails, Names, Named, Seen;
      if what.Some? {
        return;
      }
      CleanIdempotent(g.socket);
      CanonicalOfClean(fs, Clean(g.socket), g.socket);
      hide Clean, Canonical, Placed;
      g.socket := Clean(g.socket);
      what, seenSockets := ClaimSocket(fs, g, upstreamPath, gs, i, sockets);
      hide Alone;
      if what.Some? {
        return;
      }
      var bad := g.CompileKeys();
      if bad.Some? {
        BadKeyFails(fs, upstreamPath, gs, i, bad.value);
        return Some(BadKey(bad.value)), seenNames, seenSockets;
      }
      what := None;
    }
  }

  method CheckNameAndPath(fs: FileSystem, g: Group, upstreamPath: string,
                          ghost gs: seq<Parsed>, ghost i: nat, names: set<string>)
    returns (what: Option<GroupProblem>, seenNames: set<string>)
    requires i < |gs| && names == Names(gs, i) && g.name == gs[i].name && g.socket == gs[i].socket
    ensures what.None? ==> Named(gs, i) && Placed(gs[i]) && seenNames == Names(gs, i + 1)
    ensures what.Some? ==> !CleanedBefore(what.value) && Fails(fs, upstreamPath, gs, i, what.value)
  {
    hide Blank;
    seenNames := names;
    what := None;
    if Blank(g.name) {
      return Some(NameRequired), seenNames;
    }
    if g.name in seenNames {
      return Some(DuplicateName), seenNames;
    }
    seenNames := seenNames + {g.name};
    if Blank(g.socket) {
      return Some(SocketRequired), seenNames;
    }
    if !Rooted(g.socket) {
      return Some(NotAbsolute), seenNames;
    }
  }

  lemma BadKeyFails(fs: FileSystem, upstream: string, gs: seq<Parsed>, k: nat, i: nat)
    requires k < |gs| && Named(gs, k) && Placed(gs[k]) && Alone(fs, upstream, gs, k)
    requires i < |gs[k].keys| && Compiled(gs[k].keys[i]).None? && forall j | 0 <= j < i :: Compiled(gs[k].keys[j]).Some?
    ensures Fails(fs, upstream, gs, k, BadKey(i))
  {
  }

  /** Enters the socket of an enabled group among those seen, unless it is taken. */
  method ClaimSocket(fs: FileSystem, g: Group, upstreamPath: string,
                     ghost gs: seq<Parsed>, ghost i: nat, sockets: map<string, string>)
    returns (what: Option<GroupProblem>, seenSockets: map<string, string>)
    requires i < |gs| && Seen(fs, gs, i, sockets) && Named(gs, i) && Placed(gs[i])
    requires g.name == gs[i].name && g.enabled == gs[i].enabled
             && Canonical(fs, g.socket) == Canonical(fs, gs[i].socket)
    ensures what.None? ==> Alone(fs, upstreamPath, gs, i) && Seen(fs, gs, i + 1, seenSockets)
    ensures what.Some? ==>
              CleanedBefore(what.value) && !what.value.BadKey? && Fails(fs, upstreamPath, gs, i, what.value)
  {
    hide Canonical, Named, Placed;
    seenSockets := sockets;
    what := None;
    if g.enabled {
      var there := CanonicalSocketPath(fs, g.socket);
      if there.Err? {
        return Some(Unresolvable(there.error)), seenSockets;
      }
      if there.value == upstreamPath {
        return Some(UpstreamConflict), seenSockets;
      }
      if there.value in seenSockets {
        return Some(DuplicateSocket(seenSockets[there.value])), seenSockets;
      }
      seenSockets := seenSockets[there.value := g.name];
    }
  }

  lemma NothingSeen(fs: FileSystem, gs: seq<Parsed>)
    ensures Names(gs, 0) == {} && Seen(fs, gs, 0, map[])
  {
  }

  function Names(gs: seq<Parsed>, n: nat): set<string>
    requires n <= |gs|
  {
    set k | 0 <= k < n :: gs[k].name
  }

  /** The canonical sockets of the enabled groups below `n`, each with the name of its group. */
  ghost predicate Seen(fs: FileSystem, gs: seq<Parsed>, n: nat, seen: map<string, string>)
    requires n <= |gs|
  {
    && (forall p | p in seen ::
          exists j :: 0 <= j < n && gs[j].enabled && gs[j].name == seen[p] && Canonical(fs, gs[j].socket) == Ok(p))
    && (forall j | 0 <= j < n && gs[j].enabled ::
          Canonical(fs, gs[j].socket).Ok? && Canonical(fs, gs[j].socket).value in seen)
  }

  // ------------------------------------------------------------------ what acceptance means

  ghost predicate Accepted(fs: FileSystem, upstream: string, gs: seq<Parsed>) {
    && !Blank(upstream) && Rooted(upstream) && Canonical(fs, upstream).Ok?
    && forall k | 0 <= k < |gs| :: Passes(fs, Canonical(fs, upstream).value, gs, k)
  }

  /** In an accepted configuration any two enabled groups have different canonical and different cleaned sockets. */
  lemma AcceptedSocketsDiffer(fs: FileSystem, upstream: string, gs: seq<Parsed>, j: nat, k: nat)
    requires Accepted(fs, upstream, gs) && j < |gs| && k < |gs| && j != k && gs[j].enabled && gs[k].enabled
    ensures Canonical(fs, gs[j].socket) != Canonical(fs, gs[k].socket)
    ensures Canonical(fs, gs[j].socket) != Canonical(fs, upstream)
    ensures Clean(gs[j].socket) != Clean(gs[k].socket) && Clean(gs[j].socket) != Clean(upstream)
    ensures gs[j].name != gs[k].name
  {
    assert Passes(fs, Canonical(fs, upstream).value, gs, j) && Passes(fs, Canonical(fs, upstream).value, gs, k);
    if Clean(gs[j].socket) == Clean(gs[k].socket) { CanonicalOfClean(fs, gs[j].socket, gs[k].socket); }
    if Clean(gs[j].socket) == Clean(upstream) { CanonicalOfClean(fs, gs[j].socket, upstream); }
  }

  /** Two groups that the configuration lets stand beside each other, in either order. */
  ghost predicate Compatible(fs: FileSystem, g: Parsed, h: Parsed) {
    g.name != h.name && (g.enabled && h.enabled ==> Canonical(fs, g.socket) != Canonical(fs, h.socket))
  }

  /** What a group has to meet by itself. */
  ghost predicate Sound(fs: FileSystem, upstream: string, g: Parsed) {
    && !Blank(g.name) && Placed(g) && Keyed(g)
    && (g.enabled ==> Canonical(fs, g.socket).Ok? && Canonical(fs, g.socket) != Canonical(fs, upstream))
  }

  /** Acceptance does not depend on the order of the groups: each is sound, and any two are compatible. */
  lemma AcceptedMeans(fs: FileSystem, upstream: string, gs: seq<Parsed>)
    ensures Accepted(fs, upstream, gs) <==>
            && !Blank(upstream) && Rooted(upstream) && Canonical(fs, upstream).Ok?
            && (forall k | 0 <= k < |gs| :: Sound(fs, upstream, gs[k]))
            && (forall j, k | 0 <= j < |gs| && 0 <= k < |gs| && j != k :: Compatible(fs, gs[j], gs[k]))
  {
    hide Blank, Rooted, Canonical, Compiled;
    if Accepted(fs, upstream, gs) {
      forall j, k | 0 <= j < |gs| && 0 <= k < |gs| && j != k
        ensures Compatible(fs, gs[j], gs[k]) && Sound(fs, upstream, gs[k])
      {
        assert Passes(fs, Canonical(fs, upstream).value, gs, j) && Passes(fs, Canonical(fs, upstream).value, gs, k);
      }
      forall k | 0 <= k < |gs|
        ensures Sound(fs, upstream, gs[k])
      {
        assert Passes(fs, Canonical(fs, upstream).value, gs, k);
      }
    }
    if && Canonical(fs, upstream).Ok?
       && (forall k | 0 <= k < |gs| :: Sound(fs, upstream, gs[k]))
       && (forall j, k | 0 <= j < |gs| && 0 <= k < |gs| && j != k :: Compatible(fs, gs[j], gs[k])) {
      forall k | 0 <= k < |gs|
        ensures Passes(fs, Canonical(fs, upstream).value, gs, k)
      {
        assert Sound(fs, upstream, gs[k]);
        assert forall j | 0 <= j < k :: Compatible(fs, gs[j], gs[k]);
      }
    }
  }
}
