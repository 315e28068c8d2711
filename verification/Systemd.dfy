/** The systemd unit that the service installer writes and reads back (internal/service/definitions.go). */
module Systemd {
  import opened Wrappers
  import opened GoStrings
  import Unicode

  datatype ParseError = BadQuote | BadUnquote | AfterQuote | EmptyCommand

  type Arguments = Result<seq<Text>, ParseError>

  const PERCENT := Rune(37)
  const DOLLAR := Rune(36)

  // ------------------------------------------------------------------ writing

  /** Doubles every "%" and "$". */
  function Escape(arg: Text): Text {
    if arg == [] then []
    else (if arg[0] == PERCENT || arg[0] == DOLLAR then [arg[0], arg[0]] else [arg[0]]) + Escape(arg[1..])
  }

  function QuoteArgument(arg: Text, isPrint: nat -> bool): Text {
    Quote(Escape(arg), isPrint)
  }

  function RenderArguments(args: seq<Text>, isPrint: nat -> bool): Text {
    if args == [] then []
    else if |args| == 1 then QuoteArgument(args[0], isPrint)
    else QuoteArgument(args[0], isPrint) + [SPACE] + RenderArguments(args[1..], isPrint)
  }

  function Digits(n: nat): string {
    (if n < 10 then [] else Digits(n / 10)) + [(48 + n % 10) as char]
  }

  function Itoa(n: int): Text {
    Literal(if n < 0 then "-" + Digits(-n) else Digits(n))
  }

  function CommandLine(executable: Text, cfgPath: Text, cacheSeconds: int): seq<Text> {
    [executable, Literal("-config"), cfgPath, Literal("--cache"), Itoa(cacheSeconds)]
  }

  function Lines(ls: seq<string>): Text {
    if ls == [] then [] else Literal(ls[0]) + [NEWLINE] + Lines(ls[1..])
  }

  // The second line is in two parts because the verifier does not look through one literal of its length.
  const HEAD := ["[Unit]", "Description=SSH Agent Proxy " + "(filtering proxy for ssh-agent)",
                 "After=default.target", "",
                 "[Service]", "Type=simple"]
  const TAIL := ["Restart=on-failure", "RestartSec=2", "", "[Install]", "WantedBy=default.target"]
  const EXEC_START := Literal("ExecStart=")

  function RenderUnit(executable: Text, cfgPath: Text, cacheSeconds: int, isPrint: nat -> bool): Text {
    Lines(HEAD)
    + (EXEC_START + RenderArguments(CommandLine(executable, cfgPath, cacheSeconds), isPrint) + [NEWLINE] + Lines(TAIL))
  }

  // ------------------------------------------------------------------ reading

  /** Turns "%%" and "$$" back, from left to right. */
  function Unescape(value: Text): Text {
    if value == [] then []
    else if |value| > 1 && value[0] == value[1] && (value[0] == PERCENT || value[0] == DOLLAR) then
      [value[0]] + Unescape(value[2..])
    else [value[0]] + Unescape(value[1..])
  }

  /** A stray byte is read as the replacement character, which is no space. */
  predicate IsSpace(x: Sym) {
    x.Rune? && Unicode.IsSpace(x.code)
  }

  /** The check after a closing quote looks at one byte only: of a longer rune it sees the first. */
  predicate IsSpaceByte(x: Sym) {
    if x.Byte? then Unicode.IsSpace(x.value) else x.code < 0x80 && Unicode.IsSpace(x.code)
  }

  function TrimLeft(line: Text): (r: Text)
    ensures |r| <= |line| && (r != [] ==> !IsSpace(r[0]))
  {
    if line != [] && IsSpace(line[0]) then TrimLeft(line[1..]) else line
  }

  /** The first space of the line, or its length. */
  function WordEnd(line: Text): (n: nat)
    ensures n <= |line| && (n < |line| ==> IsSpace(line[n])) && forall i | 0 <= i < n :: !IsSpace(line[i])
  {
    if line == [] || IsSpace(line[0]) then 0 else 1 + WordEnd(line[1..])
  }

  function Prepend(args: seq<Text>, r: Arguments): Arguments {
    if r.Ok? then Ok(args + r.value) else r
  }

  /** The arguments of one command line, quoted or not. */
  function Parsed(line: Text): Arguments
    decreases |line|
  {
    var l := TrimLeft(line);
    if l == [] then Ok([])
    else if l[0] != QUOTE then
      assert WordEnd(l) > 0;
      Prepend([l[..WordEnd(l)]], Parsed(l[WordEnd(l)..]))
    else
      match QuotedPrefix(l)
      case None => Err(BadQuote)
      case Some(n) =>
        match Unquote(l[..n])
        case None => Err(BadUnquote)
        case Some(value) =>
          if n < |l| && !IsSpaceByte(l[n]) then Err(AfterQuote)
          else Prepend([Unescape(value)], Parsed(l[n..]))
  }

  lemma PrependTwice(a: seq<Text>, b: seq<Text>, r: Arguments)
    ensures Prepend(a, Prepend(b, r)) == Prepend(a + b, r)
    ensures Prepend([], r) == r && Prepend(a, Ok([])) == Ok(a) && (r.Err? ==> Prepend(a, r) == r)
  {
    if r.Ok? {
      assert a + (b + r.value) == (a + b) + r.value;
      assert [] + r.value == r.value;
    }
    assert a + [] == a;
  }

  method ParseSystemdArguments(text: Text) returns (r: Arguments)
    ensures r == Parsed(text)
  {
    hide QuotedPrefix, Unquote, TrimLeft, Unescape, IsSpace, WordEnd, Prepend;
    var line := text;
    var args: seq<Text> := [];
    PrependTwice([], [], Parsed(text));
    while true
      invariant Prepend(args, Parsed(line)) == Parsed(text)
      decreases |line|
    {
      PrependTwice(args, [], Parsed(line));
      line := TrimLeft(line);
      if line == [] {
        return Ok(args);
      }
      if line[0] != QUOTE {
        var end := WordEnd(line);
        PrependTwice(args, [line[..end]], Parsed(line[end..]));
        if end == |line| {
          assert line[..end] == line && line[end..] == [];
          PrependTwice(args + [line], [], Ok([]));
          return Ok(args + [line]);
        }
        args := args + [line[..end]];
        line := line[end..];
        continue;
      }
      var quoted := QuotedPrefix(line);
      if quoted.None? {
        return Err(BadQuote);
      }
      var value := Unquote(line[..quoted.value]);
      if value.None? {
        return Err(BadUnquote);
      }
      line := line[quoted.value..];
      if line != [] && !IsSpaceByte(line[0]) {
        return Err(AfterQuote);
      }
      PrependTwice(args, [Unescape(value.value)], Parsed(line));
      args := args + [Unescape(value.value)];
    }
  }

  // ------------------------------------------------------------------ the unit

  /** strings.Split at newlines. */
  function Split(t: Text): (ls: seq<Text>)
    ensures ls != []
  {
    if t == [] then [[]]
    else
      var rest := Split(t[1..]);
      if t[0] == NEWLINE then [[]] + rest else [[t[0]] + rest[0]] + rest[1..]
  }

  /** The arguments on the first ExecStart line; none if there is no such line. */
  function FirstCommand(ls: seq<Text>): Arguments {
    if ls == [] then Ok([])
    else if EXEC_START <= ls[0] then
      var r := Parsed(ls[0][|EXEC_START|..]);
      if r == Ok([]) then Err(EmptyCommand) else r
    else FirstCommand(ls[1..])
  }

  method ParseSystemdExecStart(unit: Text) returns (r: Arguments)
    ensures r == FirstCommand(Split(unit))
  {
    var ls := Split(unit);
    assert ls[0..] == ls;
    for i := 0 to |ls|
      invariant FirstCommand(ls[i..]) == FirstCommand(ls)
    {
      hide Parsed, Split;
      assert ls[i..][1..] == ls[i + 1..];
      if EXEC_START <= ls[i] {
        var args := ParseSystemdArguments(ls[i][|EXEC_START|..]);
        if args.Err? {
          return args;
        }
        if args.value == [] {
          return Err(EmptyCommand);
        }
        return args;
      }
    }
    r := Ok([]);
  }

  /** The program of the unit, or the empty string. */
  method ParseSystemdExecStartBinary(unit: Text) returns (r: Result<Text, ParseError>)
    ensures var args := FirstCommand(Split(unit));
            r == if args.Err? then Err(args.error) else Ok(if args.value == [] then [] else args.value[0])
  {
    var args := ParseSystemdExecStart(unit);
    if args.Err? {
      return Err(args.error);
    }
    r := Ok(if args.value == [] then [] else args.value[0]);
  }

  // ------------------------------------------------------------------ the config flag

  predicate IsConfigFlag(arg: Text) {
    arg == Literal("-config") || arg == Literal("--config")
  }

  /** The value of an argument of the form -config=value. */
  function Attached(arg: Text): Option<Text> {
    if Literal("--config=") <= arg then Some(arg[9..])
    else if Literal("-config=") <= arg then Some(arg[8..])
    else None
  }

  /** Every config path the arguments from `i` on name, in order; a flag takes the next argument as it is. */
  function ConfigPaths(args: seq<Text>, i: nat): seq<Text>
    decreases |args| - i
  {
    if i >= |args| then []
    else if IsConfigFlag(args[i]) then if i + 1 < |args| then [args[i + 1]] + ConfigPaths(args, i + 2) else []
    else (if Attached(args[i]).Some? then [Attached(args[i]).value] else []) + ConfigPaths(args, i + 1)
  }

  function LastOr(paths: seq<Text>, fallback: Text): Text {
    if paths == [] then fallback else paths[|paths| - 1]
  }

  lemma MoveOn(path: Text, rest: seq<Text>, fallback: Text)
    ensures LastOr([path] + rest, fallback) == LastOr(rest, path) && [] + rest == rest
  {
  }

  method ConfigArgument(args: seq<Text>) returns (configPath: Text)
    ensures configPath == LastOr(ConfigPaths(args, 1), [])
  {
    hide Attached, IsConfigFlag, LastOr;
    configPath := [];
    var i := 1;
    while i < |args|
      invariant i >= 1 && LastOr(ConfigPaths(args, i), configPath) == LastOr(ConfigPaths(args, 1), [])
      decreases |args| - i
    {
      if IsConfigFlag(args[i]) {
        if i + 1 < |args| {
          MoveOn(args[i + 1], ConfigPaths(args, i + 2), configPath);
          configPath := args[i + 1];
          i := i + 1;
        }
        i := i + 1;
        continue;
      }
      var value := Attached(args[i]);
      if value.Some? {
        MoveOn(value.value, ConfigPaths(args, i + 1), configPath);
        configPath := value.value;
      } else {
        MoveOn([], ConfigPaths(args, i + 1), configPath);
      }
      i := i + 1;
    }
    LastOfNone(configPath);
  }

  lemma LastOfNone(fallback: Text)
    ensures LastOr([], fallback) == fallback
  {
  }
}
