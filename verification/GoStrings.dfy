/**
 Go strings and the double-quoted form of strconv.Quote, strconv.QuotedPrefix and strconv.Unquote.

 A string of bytes is read, as Go reads it, as valid runes and stray bytes that belong to none. Which
 runes are printable is a parameter; a newline never is.
 */
module GoStrings {
  import opened Wrappers

  datatype Sym = Rune(code: nat) | Byte(value: nat)

  type Text = seq<Sym>

  predicate ValidRune(c: nat) {
    c < 0xD800 || 0xE000 <= c <= 0x10FFFF
  }

  predicate ValidSym(x: Sym) {
    match x
    case Rune(c) => ValidRune(c)
    case Byte(b) => 0x80 <= b < 0x100
  }

  predicate Valid(t: Text) {
    forall i | 0 <= i < |t| :: ValidSym(t[i])
  }

  function Literal(s: string): (t: Text)
    ensures |t| == |s| && forall i | 0 <= i < |s| :: t[i] == Rune(s[i] as int)
  {
    seq(|s|, i requires 0 <= i < |s| => Rune(s[i] as int))
  }

  const QUOTE := Rune(34)
  const BACKSLASH := Rune(92)
  const NEWLINE := Rune(10)
  const SPACE := Rune(32)
  const REPLACEMENT := Rune(0xFFFD)

  // ------------------------------------------------------------------ hexadecimal

  function HexDigit(d: nat): Sym
    requires d < 16
  {
    Rune(if d < 10 then 48 + d else 87 + d)
  }

  function Unhex(x: Sym): Option<nat> {
    if x.Byte? then None
    else if 48 <= x.code <= 57 then Some(x.code - 48)
    else if 97 <= x.code <= 102 then Some(x.code - 87)
    else if 65 <= x.code <= 70 then Some(x.code - 55)
    else None
  }

  function Hex(n: nat, width: nat): (t: Text)
    ensures |t| == width
  {
    if width == 0 then [] else Hex(n / 16, width - 1) + [HexDigit(n % 16)]
  }

  function HexValue(t: Text): Option<nat> {
    if t == [] then Some(0)
    else
      match (HexValue(t[..|t| - 1]), Unhex(t[|t| - 1]))
      case (Some(v), Some(d)) => Some(v * 16 + d)
      case _ => None
  }

  function Pow16(width: nat): nat {
    if width == 0 then 1 else 16 * Pow16(width - 1)
  }

  lemma {:induction false} HexRoundTrip(n: nat, width: nat)
    requires n < Pow16(width)
    ensures HexValue(Hex(n, width)) == Some(n)
  {
    if width > 0 {
      HexRoundTrip(n / 16, width - 1);
      var t := Hex(n, width);
      assert t[..|t| - 1] == Hex(n / 16, width - 1);
      assert Unhex(HexDigit(n % 16)) == Some(n % 16);
    }
  }

  // ------------------------------------------------------------------ strconv.Quote

  /** The letter of a one-letter escape. */
  function Letter(c: nat): Option<nat> {
    match c
    case 7 => Some(97)
    case 8 => Some(98)
    case 12 => Some(102)
    case 10 => Some(110)
    case 13 => Some(114)
    case 9 => Some(116)
    case 11 => Some(118)
    case _ => None
  }

  function EscapeSym(x: Sym, isPrint: nat -> bool): Text {
    if x.Byte? then [BACKSLASH, Rune(120)] + Hex(x.value, 2)
    else if x == QUOTE || x == BACKSLASH then [BACKSLASH, x]
    else if isPrint(x.code) then [x]
    else if Letter(x.code).Some? then [BACKSLASH, Rune(Letter(x.code).value)]
    else if x.code < 32 || x.code == 127 then [BACKSLASH, Rune(120)] + Hex(x.code, 2)
    else if x.code < 0x10000 then [BACKSLASH, Rune(117)] + Hex(x.code, 4)
    else [BACKSLASH, Rune(85)] + Hex(x.code, 8)
  }

  function EscapeAll(t: Text, isPrint: nat -> bool): Text {
    if t == [] then [] else EscapeSym(t[0], isPrint) + EscapeAll(t[1..], isPrint)
  }

  function Quote(t: Text, isPrint: nat -> bool): Text {
    [QUOTE] + EscapeAll(t, isPrint) + [QUOTE]
  }

  // ------------------------------------------------------------------ strconv.QuotedPrefix and Unquote

  function Unletter(c: nat): Option<nat> {
    match c
    case 97 => Some(7)
    case 98 => Some(8)
    case 102 => Some(12)
    case 110 => Some(10)
    case 114 => Some(13)
    case 116 => Some(9)
    case 118 => Some(11)
    case _ => None
  }

  /** A value that stands for one byte. */
  function OneByte(v: nat): Sym {
    if v < 0x80 then Rune(v) else Byte(v)
  }

  /** One character of a quoted string, and how many symbols it takes. */
  datatype Char = Char(sym: Sym, size: nat)

  function HexEscape(s: Text, width: nat): Option<nat> {
    if |s| < 2 + width then None else HexValue(s[2..2 + width])
  }

  predicate Octal(x: Sym) {
    x.Rune? && 48 <= x.code <= 55
  }

  /** Three octal digits after the backslash, at most 255. */
  function OctalEscape(s: Text): Option<nat>
    requires |s| >= 2 && Octal(s[1])
  {
    if |s| < 4 || !Octal(s[2]) || !Octal(s[3]) then None
    else
      var v := (s[1].code - 48) * 64 + (s[2].code - 48) * 8 + (s[3].code - 48);
      if v > 255 then None else Some(v)
  }

  /** strconv.UnquoteChar between double quotes; a stray byte comes back as the replacement character. */
  function UnquoteChar(s: Text): (r: Option<Char>)
    requires s != []
    ensures r.Some? ==> 0 < r.value.size <= |s|
  {
    if s[0] == QUOTE then None
    else if s[0].Byte? then Some(Char(REPLACEMENT, 1))
    else if s[0] != BACKSLASH then Some(Char(s[0], 1))
    else if |s| < 2 || s[1].Byte? then None
    else
      var c := s[1].code;
      if Unletter(c).Some? then Some(Char(Rune(Unletter(c).value), 2))
      else if c == 120 then
        var v := HexEscape(s, 2);
        if v.Some? then Some(Char(OneByte(v.value), 4)) else None
      else if c == 117 || c == 85 then
        var width := if c == 117 then 4 else 8;
        var v := HexEscape(s, width);
        if v.Some? && ValidRune(v.value) then Some(Char(Rune(v.value), 2 + width)) else None
      else if Octal(s[1]) then
        var v := OctalEscape(s);
        if v.Some? then Some(Char(OneByte(v.value), 4)) else None
      else if s[1] == BACKSLASH || s[1] == QUOTE then Some(Char(s[1], 2))
      else None
  }

  /** A string up to its closing quote, and how many symbols that took; None is a syntax error. */
  datatype Scanned = Scanned(value: Text, size: nat)

  function Scan(s: Text): (r: Option<Scanned>)
    ensures r.Some? ==> 0 < r.value.size <= |s|
    decreases |s|
  {
    if s == [] then None
    else if s[0] == QUOTE then Some(Scanned([], 1))
    else if s[0] == NEWLINE then None
    else
      var c := UnquoteChar(s);
      if c == None then None
      else
        var rest := Scan(s[c.value.size..]);
        if rest == None then None
        else Some(Scanned([c.value.sym] + rest.value.value, c.value.size + rest.value.size))
  }

  /** The length of the quoted string at the front of `line`. */
  function QuotedPrefix(line: Text): (r: Option<nat>)
    requires line != [] && line[0] == QUOTE
    ensures r.Some? ==> 1 < r.value <= |line|
  {
    var r := Scan(line[1..]);
    if r == None then None else Some(1 + r.value.size)
  }

  /** The whole of `quoted` must be one quoted string. */
  function Unquote(quoted: Text): Option<Text>
    requires quoted != [] && quoted[0] == QUOTE
  {
    var r := Scan(quoted[1..]);
    if r == None || r.value.size != |quoted| - 1 then None else Some(r.value.value)
  }

  // ------------------------------------------------------------------ what the two do to each other

  lemma HexOfEscape(head: Text, n: nat, width: nat, rest: Text)
    requires |head| == 2 && n < Pow16(width)
    ensures HexEscape(head + Hex(n, width) + rest, width) == Some(n)
  {
    var s := head + Hex(n, width) + rest;
    assert s[2..2 + width] == Hex(n, width);
    HexRoundTrip(n, width);
  }

  /** What Quote never writes is read too: three octal digits for a byte, and capital hexadecimal digits. */
  lemma OctalIsRead(v: nat, rest: Text)
    requires v < 256
    ensures var e := [BACKSLASH, Rune(48 + v / 64), Rune(48 + v / 8 % 8), Rune(48 + v % 8)];
            UnquoteChar(e + rest) == Some(Char(OneByte(v), 4))
  {
  }

  lemma CapitalsAreRead(d: nat)
    requires 10 <= d < 16
    ensures Unhex(Rune(55 + d)) == Unhex(HexDigit(d)) == Some(d)
  {
  }

  /** An escaped symbol is read back as itself, whatever follows. */
  lemma EscapeRoundTrip(x: Sym, isPrint: nat -> bool, rest: Text)
    requires ValidSym(x) && !isPrint(10)
    ensures var e := EscapeSym(x, isPrint);
            && |e| > 0 && e[0] != QUOTE && e[0] != NEWLINE
            && UnquoteChar(e + rest) == Some(Char(x, |e|))
  {
    var e := EscapeSym(x, isPrint);
    assert Pow16(0) == 1 && Pow16(1) == 16 && Pow16(2) == 0x100 && Pow16(3) == 0x1000 && Pow16(4) == 0x10000;
    assert Pow16(5) == 0x100000 && Pow16(6) == 0x1000000 && Pow16(7) == 0x10000000 && Pow16(8) == 0x100000000;
    if x.Byte? {
      HexOfEscape([BACKSLASH, Rune(120)], x.value, 2, rest);
    } else if |e| == 4 {
      HexOfEscape([BACKSLASH, Rune(120)], x.code, 2, rest);
    } else if |e| == 6 {
      HexOfEscape([BACKSLASH, Rune(117)], x.code, 4, rest);
    } else if |e| == 10 {
      HexOfEscape([BACKSLASH, Rune(85)], x.code, 8, rest);
    }
  }

  /** What Quote writes is read back up to its closing quote, whatever follows. */
  lemma {:induction false} ScanOfEscaped(t: Text, isPrint: nat -> bool, rest: Text)
    requires Valid(t) && !isPrint(10)
    ensures Scan(EscapeAll(t, isPrint) + [QUOTE] + rest) == Some(Scanned(t, |EscapeAll(t, isPrint)| + 1))
  {
    hide EscapeSym, UnquoteChar;
    var s := EscapeAll(t, isPrint) + [QUOTE] + rest;
    if t == [] {
      assert s[0] == QUOTE;
    } else {
      var e, later := EscapeSym(t[0], isPrint), EscapeAll(t[1..], isPrint);
      assert s == e + (later + [QUOTE] + rest);
      hide EscapeAll;
      EscapeRoundTrip(t[0], isPrint, later + [QUOTE] + rest);
      ScanOfEscaped(t[1..], isPrint, rest);
      assert s[|e|..] == later + [QUOTE] + rest;
      assert s[0] == e[0];
      assert [t[0]] + t[1..] == t;
    }
  }

  /** What Quote writes before its closing quote is no quoted string, nor with a line break in place of that quote. */
  lemma {:induction false} ScanOfUnclosed(t: Text, isPrint: nat -> bool, rest: Text)
    requires Valid(t) && !isPrint(10) && (rest == [] || rest[0] == NEWLINE)
    ensures Scan(EscapeAll(t, isPrint) + rest) == None
  {
    hide EscapeSym, UnquoteChar;
    var s := EscapeAll(t, isPrint) + rest;
    if t == [] {
      assert s == rest;
    } else {
      var e, later := EscapeSym(t[0], isPrint), EscapeAll(t[1..], isPrint);
      assert s == e + (later + rest);
      hide EscapeAll;
      EscapeRoundTrip(t[0], isPrint, later + rest);
      ScanOfUnclosed(t[1..], isPrint, rest);
      assert s[|e|..] == later + rest;
      assert s[0] == e[0];
    }
  }

  /** A stray byte in a quoted string is read as the replacement character. */
  lemma StrayByteIsReplaced(b: nat, t: Text, isPrint: nat -> bool)
    requires Valid(t) && !isPrint(10)
    ensures Unquote([QUOTE, Byte(b)] + EscapeAll(t, isPrint) + [QUOTE]) == Some([REPLACEMENT] + t)
  {
    var q := [QUOTE, Byte(b)] + EscapeAll(t, isPrint) + [QUOTE];
    ScanOfEscaped(t, isPrint, []);
    hide EscapeAll;
    assert q[1..][1..] == EscapeAll(t, isPrint) + [QUOTE] + [];
    assert q[1..][0] == Byte(b);
  }

  lemma QuoteRoundTrip(t: Text, isPrint: nat -> bool, rest: Text)
    requires Valid(t) && !isPrint(10)
    ensures var q := Quote(t, isPrint);
            QuotedPrefix(q + rest) == Some(|q|) && Unquote(q) == Some(t)
  {
    hide EscapeAll, Scan;
    var q := Quote(t, isPrint);
    ScanOfEscaped(t, isPrint, rest);
    ScanOfEscaped(t, isPrint, []);
    assert (q + rest)[0] == QUOTE;
    assert (q + rest)[1..] == EscapeAll(t, isPrint) + [QUOTE] + rest;
    assert q[1..] == EscapeAll(t, isPrint) + [QUOTE] + [];
  }

  // ------------------------------------------------------------------ a quoted prefix can be unquoted

  /** A hexadecimal escape that fits is the same in a longer text. */
  lemma CharOfPrefix(s: Text, n: nat)
    requires 0 < n <= |s| && UnquoteChar(s).Some? && UnquoteChar(s).value.size <= n
    ensures UnquoteChar(s[..n]) == UnquoteChar(s)
  {
    var p := s[..n];
    if |s| >= 2 && s[0] == BACKSLASH && s[1].Rune? {
      assert n >= 2 && p[1] == s[1];
      if |p| >= 4 { assert p[2..4] == s[2..4]; }
      if |p| >= 6 { assert p[2..6] == s[2..6]; }
      if |p| >= 10 { assert p[2..10] == s[2..10]; }
    }
    hide HexValue;
  }

  lemma {:induction false} ScanOfPrefix(s: Text, n: nat)
    requires Scan(s).Some? && Scan(s).value.size <= n <= |s|
    ensures Scan(s[..n]) == Scan(s)
    decreases |s|
  {
    hide UnquoteChar;
    var p := s[..n];
    assert p[0] == s[0];
    if s[0] != QUOTE {
      CharOfPrefix(s, n);
      var k := UnquoteChar(s).value.size;
      ScanOfPrefix(s[k..], n - k);
      assert p[k..] == s[k..][..n - k];
    }
  }

  /** Whatever QuotedPrefix accepts, Unquote accepts. */
  lemma PrefixUnquotes(line: Text)
    requires line != [] && line[0] == QUOTE && QuotedPrefix(line).Some?
    ensures Unquote(line[..QuotedPrefix(line).value]) == Some(Scan(line[1..]).value.value)
  {
    var n := QuotedPrefix(line).value;
    ScanOfPrefix(line[1..], n - 1);
    assert line[..n][1..] == line[1..][..n - 1];
  }
}
