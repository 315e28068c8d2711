/** The installed unit is read back exactly as it was written, for every path. */
module SystemdProperties {
  import opened Wrappers
  import opened GoStrings
  import opened Systemd

  // ------------------------------------------------------------------ one argument

  lemma {:induction false} EscapeKeepsValid(arg: Text)
    requires Valid(arg)
    ensures Valid(Escape(arg))
  {
    if arg != [] { EscapeKeepsValid(arg[1..]); }
  }

  lemma {:induction false} UnescapeEscape(arg: Text)
    ensures Unescape(Escape(arg)) == arg
  {
    if arg != [] {
      UnescapeEscape(arg[1..]);
      var x, rest := arg[0], Escape(arg[1..]);
      assert [x] + arg[1..] == arg;
      if x == PERCENT || x == DOLLAR {
        assert ([x, x] + rest)[2..] == rest;
      } else {
        assert ([x] + rest)[1..] == rest;
      }
    }
  }

  lemma ArgumentRoundTrip(arg: Text, isPrint: nat -> bool, rest: Text)
    requires Valid(arg) && !isPrint(10)
    ensures var q := QuoteArgument(arg, isPrint);
            && q != [] && q[0] == QUOTE && (q + rest)[0] == QUOTE
            && QuotedPrefix(q + rest) == Some(|q|) && Unquote(q).Some? && Unescape(Unquote(q).value) == arg
  {
    EscapeKeepsValid(arg);
    QuoteRoundTrip(Escape(arg), isPrint, rest);
    UnescapeEscape(arg);
    var q := QuoteArgument(arg, isPrint);
    assert q[0] == QUOTE;
  }

  /** A quoted argument is taken off the line whole. */
  lemma ParsedQuoted(arg: Text, isPrint: nat -> bool, rest: Text)
    requires Valid(arg) && !isPrint(10) && (rest == [] || rest[0] == SPACE)
    ensures Parsed(QuoteArgument(arg, isPrint) + rest) == Prepend([arg], Parsed(rest))
  {
    var q := QuoteArgument(arg, isPrint);
    ArgumentRoundTrip(arg, isPrint, rest);
    var l := q + rest;
    assert TrimLeft(l) == l;
    assert l[..|q|] == q && l[|q|..] == rest;
    hide QuoteArgument, QuotedPrefix, Unquote, Unescape, TrimLeft;
  }

  lemma ParsedAfterSpace(rest: Text)
    ensures Parsed([SPACE] + rest) == Parsed(rest)
  {
    assert ([SPACE] + rest)[1..] == rest;
    assert TrimLeft([SPACE] + rest) == TrimLeft(rest);
  }

  // ------------------------------------------------------------------ argument lists

  ghost predicate AllValid(args: seq<Text>) {
    forall i | 0 <= i < |args| :: Valid(args[i])
  }

  lemma ParsedNothing()
    ensures Parsed([]) == Ok([])
  {
  }

  /** Any list of arguments is read back from the line that was written for it. */
  lemma {:induction false} ArgumentsRoundTrip(args: seq<Text>, isPrint: nat -> bool)
    requires AllValid(args) && !isPrint(10)
    ensures Parsed(RenderArguments(args, isPrint)) == Ok(args)
  {
    hide Parsed, QuoteArgument;
    ParsedNothing();
    if |args| == 1 {
      ParsedQuoted(args[0], isPrint, []);
      assert RenderArguments(args, isPrint) + [] == RenderArguments(args, isPrint);
      assert [args[0]] + [] == args;
    } else if |args| > 1 {
      var later := RenderArguments(args[1..], isPrint);
      ArgumentsRoundTrip(args[1..], isPrint);
      ParsedAfterSpace(later);
      ParsedQuoted(args[0], isPrint, [SPACE] + later);
      assert RenderArguments(args, isPrint) == QuoteArgument(args[0], isPrint) + ([SPACE] + later);
      assert [args[0]] + args[1..] == args;
    }
  }

  /** An argument as older units wrote it: without spaces, and not beginning with a quote. */
  ghost predicate Plain(arg: Text) {
    arg != [] && arg[0] != QUOTE && forall i | 0 <= i < |arg| :: !IsSpace(arg[i])
  }

  function Spaced(args: seq<Text>): Text {
    if args == [] then [] else if |args| == 1 then args[0] else args[0] + [SPACE] + Spaced(args[1..])
  }

  lemma {:induction false} PlainRoundTrip(args: seq<Text>)
    requires forall i | 0 <= i < |args| :: Plain(args[i])
    ensures Parsed(Spaced(args)) == Ok(args)
  {
    if args != [] {
      var rest := if |args| == 1 then [] else [SPACE] + Spaced(args[1..]);
      var l := Spaced(args);
      assert l == args[0] + rest;
      assert TrimLeft(l) == l;
      WordEndAt(args[0], rest);
      assert l[..|args[0]|] == args[0] && l[|args[0]|..] == rest;
      PlainRoundTrip(args[1..]);
      if |args| > 1 { ParsedAfterSpace(Spaced(args[1..])); }
      assert [args[0]] + args[1..] == args;
    }
  }

  lemma {:induction false} WordEndAt(word: Text, rest: Text)
    requires (forall i | 0 <= i < |word| :: !IsSpace(word[i])) && (rest == [] || rest[0] == SPACE)
    ensures WordEnd(word + rest) == |word|
  {
    if word != [] {
      assert (word + rest)[1..] == word[1..] + rest;
      WordEndAt(word[1..], rest);
    } else {
      assert word + rest == rest;
    }
  }

  /** Unquoting what QuotedPrefix has accepted cannot fail. */
  lemma {:induction false} UnquotingNeverFails(line: Text)
    ensures Parsed(line) != Err(BadUnquote)
    decreases |line|
  {
    var l := TrimLeft(line);
    if l != [] {
      if l[0] != QUOTE {
        UnquotingNeverFails(l[WordEnd(l)..]);
      } else if QuotedPrefix(l).Some? {
        PrefixUnquotes(l);
        UnquotingNeverFails(l[QuotedPrefix(l).value..]);
      }
      hide QuotedPrefix, Unquote, TrimLeft, WordEnd, Unescape;
    }
  }

  /** The six ASCII spaces, and the two stray bytes that are read as Latin-1 spaces. */
  predicate EndsQuoted(x: Sym) {
    if x.Rune? then x.code in {9, 10, 11, 12, 13, 32} else x.value in {0x85, 0xA0}
  }

  /** What may follow a closing quote: a wider space is an error there, though between words it separates. */
  lemma AfterClosingQuote(arg: Text, isPrint: nat -> bool, x: Sym, rest: Text)
    requires Valid(arg) && !isPrint(10) && ValidSym(x)
    ensures Parsed(QuoteArgument(arg, isPrint) + ([x] + rest))
            == if EndsQuoted(x) then Prepend([arg], Parsed([x] + rest)) else Err(AfterQuote)
  {
    var q := QuoteArgument(arg, isPrint);
    var l := q + ([x] + rest);
    ArgumentRoundTrip(arg, isPrint, [x] + rest);
    assert TrimLeft(l) == l;
    assert l[..|q|] == q && l[|q|..] == [x] + rest;
    assert l[|q|] == x;
    hide QuoteArgument, QuotedPrefix, Unquote, Unescape, TrimLeft;
  }

  /** Some quoted arguments, and one that is opened and not closed. */
  function Opened(args: seq<Text>, arg: Text, isPrint: nat -> bool): Text {
    if args == [] then [QUOTE] + EscapeAll(Escape(arg), isPrint)
    else QuoteArgument(args[0], isPrint) + ([SPACE] + Opened(args[1..], arg, isPrint))
  }

  /** It is an error of the quoting, whatever came before on the line. */
  lemma {:induction false} UnclosedIsAnError(args: seq<Text>, arg: Text, isPrint: nat -> bool)
    requires Valid(arg) && (forall i | 0 <= i < |args| :: Valid(args[i])) && !isPrint(10)
    ensures Parsed(Opened(args, arg, isPrint)) == Err(BadQuote)
  {
    if args == [] {
      var l := [QUOTE] + EscapeAll(Escape(arg), isPrint);
      EscapeKeepsValid(arg);
      ScanOfUnclosed(Escape(arg), isPrint, []);
      assert EscapeAll(Escape(arg), isPrint) + [] == EscapeAll(Escape(arg), isPrint);
      assert l[1..] == EscapeAll(Escape(arg), isPrint);
      assert TrimLeft(l) == l;
      hide EscapeAll, Scan, Unquote, Unescape;
    } else {
      var rest := Opened(args[1..], arg, isPrint);
      AfterClosingQuote(args[0], isPrint, SPACE, rest);
      UnclosedIsAnError(args[1..], arg, isPrint);
      assert ([SPACE] + rest)[1..] == rest && TrimLeft([SPACE] + rest) == TrimLeft(rest);
      hide QuoteArgument, QuotedPrefix, Unquote, Unescape;
    }
  }

  // ------------------------------------------------------------------ no line breaks

  lemma HexHasNoNewline(n: nat, width: nat)
    ensures NEWLINE !in Hex(n, width)
  {
  }

  lemma {:induction false} EscapedHasNoNewline(t: Text, isPrint: nat -> bool)
    requires !isPrint(10)
    ensures NEWLINE !in EscapeAll(t, isPrint)
  {
    if t != [] {
      var c := if t[0].Byte? then t[0].value else t[0].code;
      HexHasNoNewline(c, 2);
      HexHasNoNewline(c, 4);
      HexHasNoNewline(c, 8);
      hide Hex;
      assert NEWLINE !in EscapeSym(t[0], isPrint);
      EscapedHasNoNewline(t[1..], isPrint);
    }
  }

  lemma {:induction false} CommandHasNoNewline(args: seq<Text>, isPrint: nat -> bool)
    requires !isPrint(10)
    ensures NEWLINE !in RenderArguments(args, isPrint)
  {
    if args != [] {
      EscapedHasNoNewline(Escape(args[0]), isPrint);
      CommandHasNoNewline(args[1..], isPrint);
    }
  }

  lemma {:induction false} SplitLine(line: Text, rest: Text)
    requires NEWLINE !in line
    ensures Split(line + [NEWLINE] + rest) == [line] + Split(rest)
  {
    var t := line + [NEWLINE] + rest;
    if line == [] {
      assert t[0] == NEWLINE && t[1..] == rest;
    } else {
      assert t[1..] == line[1..] + [NEWLINE] + rest;
      SplitLine(line[1..], rest);
      assert [line[0]] + line[1..] == line;
    }
  }

  predicate OtherLine(l: string) {
    '\n' !in l && (l != "" ==> l[0] != 'E')
  }

  /** Lines without the ExecStart prefix are passed over. */
  lemma {:induction false} PassOver(ls: seq<string>, rest: Text)
    requires forall i | 0 <= i < |ls| :: OtherLine(ls[i])
    ensures FirstCommand(Split(Lines(ls) + rest)) == FirstCommand(Split(rest))
  {
    if ls == [] {
      assert Lines(ls) + rest == rest;
    } else {
      var line := Literal(ls[0]);
      assert NEWLINE !in line;
      SplitLine(line, Lines(ls[1..]) + rest);
      assert Lines(ls) + rest == line + [NEWLINE] + (Lines(ls[1..]) + rest);
      assert EXEC_START[0] == Rune('E' as int);
      assert !(EXEC_START <= line);
      PassOver(ls[1..], rest);
      assert ([line] + Split(Lines(ls[1..]) + rest))[1..] == Split(Lines(ls[1..]) + rest);
    }
  }

  // ------------------------------------------------------------------ the whole unit

  lemma {:induction false} DigitsAreDigits(n: nat)
    ensures Digits(n) != "" && forall i | 0 <= i < |Digits(n)| :: '0' <= Digits(n)[i] <= '9'
  {
    if n >= 10 { DigitsAreDigits(n / 10); }
  }

  /** The second character already tells that this is no config flag. */
  lemma NoFlag(t: Text)
    requires t != [] && (t[0] != Rune(45) || (|t| > 1 && t[1] != Rune(45) && t[1] != Rune(99)))
    ensures !IsConfigFlag(t) && Attached(t) == None
  {
    var a, b, c, d := Literal("-config"), Literal("--config"), Literal("-config="), Literal("--config=");
    assert a[0] == b[0] == c[0] == d[0] == Rune(45);
    assert a[1] == c[1] == Rune(99) && b[1] == d[1] == Rune(45);
    hide Literal;
  }

  lemma ItoaIsNoFlag(n: int)
    ensures Valid(Itoa(n)) && !IsConfigFlag(Itoa(n)) && Attached(Itoa(n)) == None
  {
    var digits := Digits(if n < 0 then -n else n);
    DigitsAreDigits(if n < 0 then -n else n);
    hide Digits, IsConfigFlag, Attached;
    var t := Itoa(n);
    if n < 0 {
      assert t[0] == Rune(45) && t[1] == Rune(digits[0] as int);
      assert forall i | 1 <= i < |t| :: t[i] == Rune(digits[i - 1] as int);
    } else {
      assert t[0] == Rune(digits[0] as int);
    }
    NoFlag(t);
  }

  /** Reading the unit gives back exactly the arguments it was written with. */
  lemma UnitRoundTrip(executable: Text, cfgPath: Text, cacheSeconds: int, isPrint: nat -> bool)
    requires Valid(executable) && Valid(cfgPath) && !isPrint(10)
    ensures FirstCommand(Split(RenderUnit(executable, cfgPath, cacheSeconds, isPrint)))
            == Ok(CommandLine(executable, cfgPath, cacheSeconds))
  {
    hide RenderArguments, Parsed, Lines, Split, Digits;
    var args := CommandLine(executable, cfgPath, cacheSeconds);
    ItoaIsNoFlag(cacheSeconds);
    hide Itoa;
    ArgumentsRoundTrip(args, isPrint);
    CommandHasNoNewline(args, isPrint);
    hide CommandLine;
    var rest := EXEC_START + RenderArguments(args, isPrint) + [NEWLINE] + Lines(TAIL);
    FixedLines();
    PassOver(HEAD, rest);
    CommandFound(RenderArguments(args, isPrint), Lines(TAIL));
  }

  lemma FixedLines()
    ensures forall i | 0 <= i < |HEAD| :: OtherLine(HEAD[i])
  {
    assert OtherLine(HEAD[0]) && OtherLine(HEAD[1]) && OtherLine(HEAD[2])
           && OtherLine(HEAD[3]) && OtherLine(HEAD[4]) && OtherLine(HEAD[5]);
    forall i | 0 <= i < |HEAD|
      ensures OtherLine(HEAD[i])
    {
      assert i == 0 || i == 1 || i == 2 || i == 3 || i == 4 || i == 5;
    }
  }

  lemma CommandFound(command: Text, rest: Text)
    requires NEWLINE !in command && Parsed(command).Ok? && Parsed(command).value != []
    ensures FirstCommand(Split(EXEC_START + command + [NEWLINE] + rest)) == Parsed(command)
  {
    var line := EXEC_START + command;
    assert NEWLINE !in line by { assert '\n' !in "ExecStart="; }
    SplitLine(line, rest);
    hide Parsed, Split;
    assert line[|EXEC_START|..] == command;
    assert EXEC_START <= line;
    assert ([line] + Split(rest))[0] == line;
  }

  lemma CacheIsNoFlag()
    ensures !IsConfigFlag(Literal("--cache")) && Attached(Literal("--cache")) == None
  {
    var cache := Literal("--cache");
    assert cache[3] == Rune(97) && Literal("--config")[3] == Rune(111) && Literal("--config=")[3] == Rune(111);
    assert cache[1] == Rune(45) && Literal("-config")[1] == Rune(99) && Literal("-config=")[1] == Rune(99);
  }

  /** The config path is found in them, whatever it looks like: it may even be "-config". */
  lemma ConfigPathFound(executable: Text, cfgPath: Text, cacheSeconds: int)
    ensures LastOr(ConfigPaths(CommandLine(executable, cfgPath, cacheSeconds), 1), []) == cfgPath
  {
    var args := CommandLine(executable, cfgPath, cacheSeconds);
    ItoaIsNoFlag(cacheSeconds);
    CacheIsNoFlag();
    assert IsConfigFlag(Literal("-config"));
    hide Itoa, Attached, IsConfigFlag, Literal;
    assert ConfigPaths(args, 5) == [];
    assert ConfigPaths(args, 4) == [];
    assert ConfigPaths(args, 3) == [];
    assert ConfigPaths(args, 1) == [cfgPath] + ConfigPaths(args, 3);
  }

  // ------------------------------------------------------------------ which line, and which argument

  /** A unit that starts nothing has no arguments. */
  lemma {:induction false} NoCommand(ls: seq<Text>)
    requires forall i | 0 <= i < |ls| :: !(Literal("ExecStart=") <= ls[i])
    ensures FirstCommand(ls) == Ok([])
  {
    if ls != [] { NoCommand(ls[1..]); }
  }

  /** The first line that starts something decides, and a blank command is an error. */
  lemma {:induction false} FirstLineDecides(ls: seq<Text>, k: nat, command: Text)
    requires k < |ls| && ls[k] == Literal("ExecStart=") + command
    requires forall i | 0 <= i < k :: !(Literal("ExecStart=") <= ls[i])
    ensures FirstCommand(ls) == if BlankText(command) then Err(EmptyCommand) else Parsed(command)
    decreases k
  {
    hide Parsed, IsSpace;
    if k == 0 {
      assert ls[0][|EXEC_START|..] == command;
      EmptyIffBlank(command);
    } else {
      FirstLineDecides(ls[1..], k - 1, command);
    }
  }

  predicate BlankText(t: Text) {
    forall i | 0 <= i < |t| :: IsSpace(t[i])
  }

  /** A line has no arguments exactly when it has nothing but spaces. */
  lemma {:induction false} EmptyIffBlank(line: Text)
    ensures Parsed(line) == Ok([]) <==> BlankText(line)
    decreases |line|
  {
    hide IsSpace, QuotedPrefix, Unquote, Unescape;
    if line != [] && IsSpace(line[0]) {
      EmptyIffBlank(line[1..]);
      assert TrimLeft(line) == TrimLeft(line[1..]);
      assert BlankText(line) <==> BlankText(line[1..]) by {
        if BlankText(line[1..]) {
          forall i | 0 <= i < |line| ensures IsSpace(line[i]) { assert i > 0 ==> line[i] == line[1..][i - 1]; }
        }
      }
    }
  }

  /** Arguments as they come: a flag and its value in two or in one, or anything else. */
  datatype Item = Apart(flag: Text, value: Text) | Together(flag: Text, value: Text) | Other(arg: Text)

  predicate ItemOk(item: Item) {
    match item
    case Apart(flag, _) => flag == Literal("-config") || flag == Literal("--config")
    case Together(flag, _) => flag == Literal("-config") || flag == Literal("--config")
    case Other(arg) =>
      && arg != Literal("-config") && arg != Literal("--config")
      && !(Literal("-config=") <= arg) && !(Literal("--config=") <= arg)
  }

  function ArgsOf(item: Item): seq<Text> {
    match item
    case Apart(flag, value) => [flag, value]
    case Together(flag, value) => [flag + Literal("=") + value]
    case Other(arg) => [arg]
  }

  function AllArgs(items: seq<Item>): seq<Text> {
    if items == [] then [] else ArgsOf(items[0]) + AllArgs(items[1..])
  }

  function PathsOf(items: seq<Item>): seq<Text> {
    if items == [] then [] else (if items[0].Other? then [] else [items[0].value]) + PathsOf(items[1..])
  }

  /** A flag at the end has no value. */
  predicate Dangling(rest: seq<Text>) {
    rest == [] || rest == [Literal("-config")] || rest == [Literal("--config")]
  }

  lemma FlagForms(value: Text)
    ensures Literal("-config") + Literal("=") + value == Literal("-config=") + value
    ensures Literal("--config") + Literal("=") + value == Literal("--config=") + value
    ensures !IsConfigFlag(Literal("-config=") + value) && !IsConfigFlag(Literal("--config=") + value)
    ensures Attached(Literal("-config=") + value) == Some(value)
    ensures Attached(Literal("--config=") + value) == Some(value)
  {
    var single, double := Literal("-config="), Literal("--config=");
    assert Literal("-config") + Literal("=") == single && Literal("--config") + Literal("=") == double;
    assert (single + value)[1] == Rune(99) && double[1] == Rune(45) && Literal("--config")[1] == Rune(45);
    assert (double + value)[1] == Rune(45) && Literal("-config")[1] == Rune(99);
    assert (single + value)[8..] == value && (double + value)[9..] == value;
  }
  /** From argument `i` on there are these items, and a flag without a value at most. */
  predicate ItemsFrom(args: seq<Text>, i: nat, items: seq<Item>, rest: seq<Text>) {
    i <= |args| && args[i..] == AllArgs(items) + rest && Dangling(rest)
    && forall k | 0 <= k < |items| :: ItemOk(items[k])
  }

  lemma ItemsNext(args: seq<Text>, i: nat, items: seq<Item>, rest: seq<Text>)
    requires ItemsFrom(args, i, items, rest) && items != []
    ensures var n := |ArgsOf(items[0])|;
            && i + n <= |args| && args[i] == ArgsOf(items[0])[0]
            && (n == 2 ==> args[i + 1] == ArgsOf(items[0])[1])
            && ItemsFrom(args, i + n, items[1..], rest)
  {
    var n, first, later := |ArgsOf(items[0])|, ArgsOf(items[0]), AllArgs(items[1..]) + rest;
    assert args[i..] == first + later;
    assert args[i..][n..] == later && args[i + n..] == args[i..][n..];
    assert args[i..][0] == args[i];
    assert n == 2 ==> args[i..][1] == args[i + 1];
  }

  lemma {:induction false} ItemsFound(args: seq<Text>, i: nat, items: seq<Item>, rest: seq<Text>)
    requires ItemsFrom(args, i, items, rest)
    ensures ConfigPaths(args, i) == PathsOf(items)
    decreases |items|
  {
    if items == [] {
      assert args[i..] == rest;
      assert rest != [] ==> args[i] == rest[0] && |args| == i + 1;
    } else {
      ItemsNext(args, i, items, rest);
      ItemsFound(args, i + |ArgsOf(items[0])|, items[1..], rest);
      if !items[0].Other? { FlagForms(items[0].value); }
      hide ItemsFrom, AllArgs;
    }
  }

  /** Every argument list is of that form. */
  lemma {:induction false} Itemized(args: seq<Text>, i: nat) returns (items: seq<Item>, rest: seq<Text>)
    requires i <= |args|
    ensures ItemsFrom(args, i, items, rest)
    decreases |args| - i
  {
    if i == |args| {
      items, rest := [], [];
    } else if IsConfigFlag(args[i]) && i + 1 == |args| {
      items, rest := [], [args[i]];
      assert args[i..] == rest;
    } else {
      var item := FirstItem(args, i);
      var later;
      later, rest := Itemized(args, i + |ArgsOf(item)|);
      items := [item] + later;
      assert args[i..] == ArgsOf(item) + args[i + |ArgsOf(item)|..];
      assert items[1..] == later;
      assert ArgsOf(item) + (AllArgs(later) + rest) == (ArgsOf(item) + AllArgs(later)) + rest;
    }
  }

  lemma FirstItem(args: seq<Text>, i: nat) returns (item: Item)
    requires i < |args| && (IsConfigFlag(args[i]) ==> i + 1 < |args|)
    ensures ItemOk(item) && i + |ArgsOf(item)| <= |args|
    ensures args[i..i + |ArgsOf(item)|] == ArgsOf(item)
  {
    var single, double := Literal("-config="), Literal("--config=");
    if IsConfigFlag(args[i]) {
      item := Apart(args[i], args[i + 1]);
    } else if single <= args[i] {
      FlagForms(args[i][|single|..]);
      item := Together(Literal("-config"), args[i][|single|..]);
      assert args[i] == single + args[i][|single|..];
    } else if double <= args[i] {
      FlagForms(args[i][|double|..]);
      item := Together(Literal("--config"), args[i][|double|..]);
      assert args[i] == double + args[i][|double|..];
    } else {
      item := Other(args[i]);
    }
  }

  /**
   The config path of a command line: of any arguments, read from left to right as flags with their
   values and other arguments, it is the value of the last flag, and empty if there is none.
   */
  lemma ConfigIsLastNamed(program: Text, items: seq<Item>, rest: seq<Text>)
    requires Dangling(rest) && forall k | 0 <= k < |items| :: ItemOk(items[k])
    ensures var args := [program] + AllArgs(items) + rest;
            var paths := PathsOf(items);
            LastOr(ConfigPaths(args, 1), []) == if paths == [] then [] else paths[|paths| - 1]
  {
    var args := [program] + AllArgs(items) + rest;
    assert args[1..] == AllArgs(items) + rest;
    ItemsFound(args, 1, items, rest);
  }

  // ------------------------------------------------------------------ what the unit says

  predicate IsDigit(x: Sym) {
    x.Rune? && 48 <= x.code <= 57
  }

  predicate Numeral(t: Text) {
    t != [] && forall i | 0 <= i < |t| :: IsDigit(t[i])
  }

  function Decimal(t: Text): int
    requires forall i | 0 <= i < |t| :: IsDigit(t[i])
  {
    if t == [] then 0
    else
      assert IsDigit(t[|t| - 1]);
      Decimal(t[..|t| - 1]) * 10 + (t[|t| - 1].code - 48)
  }

  /** The number a decimal numeral stands for. */
  function Number(t: Text): Option<int> {
    if t != [] && t[0] == Rune(45) && Numeral(t[1..]) then Some(-Decimal(t[1..]))
    else if Numeral(t) then Some(Decimal(t))
    else None
  }

  lemma {:induction false} DigitsStandFor(n: nat)
    ensures var t := Literal(Digits(n));
            Numeral(t) && Decimal(t) == n
  {
    DigitsAreDigits(n);
    var t := Literal(Digits(n));
    if n >= 10 {
      DigitsStandFor(n / 10);
      assert t[..|t| - 1] == Literal(Digits(n / 10));
    }
    assert t[|t| - 1].code == 48 + n % 10;
  }

  lemma ItoaRoundTrip(n: int)
    ensures Number(Itoa(n)) == Some(n)
  {
    var digits := Digits(if n < 0 then -n else n);
    DigitsStandFor(if n < 0 then -n else n);
    hide Digits, Decimal, IsDigit;
    if n < 0 {
      assert Itoa(n)[1..] == Literal(digits);
    } else {
      assert IsDigit(Literal(digits)[0]);
      NoDigit();
    }
  }

  lemma NoDigit()
    ensures !IsDigit(Rune(45))
  {
  }

  /** Argument `i` and the one after it set the number of cached seconds. */
  predicate CacheSet(args: seq<Text>, i: nat, seconds: int) {
    i + 1 < |args| && args[i] == Literal("--cache") && Number(args[i + 1]) == Some(seconds)
  }

  /** Whatever the installer writes, the unit starts that program with that config path and that cache time. */
  lemma UnitSays(executable: Text, cfgPath: Text, cacheSeconds: int, isPrint: nat -> bool)
    requires Valid(executable) && Valid(cfgPath) && !isPrint(10)
    ensures var r := FirstCommand(Split(RenderUnit(executable, cfgPath, cacheSeconds, isPrint)));
            && r.Ok? && r.value != [] && r.value[0] == executable
            && LastOr(ConfigPaths(r.value, 1), []) == cfgPath
            && exists i :: CacheSet(r.value, i, cacheSeconds)
  {
    UnitRoundTrip(executable, cfgPath, cacheSeconds, isPrint);
    ConfigPathFound(executable, cfgPath, cacheSeconds);
    ItoaRoundTrip(cacheSeconds);
    assert CacheSet(CommandLine(executable, cfgPath, cacheSeconds), 3, cacheSeconds);
    hide ConfigPaths, LastOr, Number, Itoa, RenderUnit, FirstCommand;
  }
}
