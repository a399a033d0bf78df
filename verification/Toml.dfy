/** The subset of TOML v1.0.0 that generateConfigToml emits: how Go prints its values and lines,
    and a reader for them that refuses what TOML refuses. The laws say exactly when reading a
    printed value gives the value back. */
module Toml {
  import opened Options
  import opened Text

  datatype Value =
    | Str(s: string)
    | Num(n: int)
    | Flag(b: bool)
    | Fixed(millionths: int)      // %f, six decimals
    | Strs(elems: seq<string>)

  // ---------------------------------------------------------------- quoted strings

  const QUOTE: char := '"'
  const BACKSLASH: char := '\\'

  /** strconv.IsPrint, whose table beyond ASCII is an argument. */
  predicate Printable(isPrint: char -> bool, c: char) {
    if c as int < 0x80 then 0x20 <= c as int < 0x7F else isPrint(c)
  }

  /** The control characters %q writes with a letter. */
  function Letter(c: char): Option<char> {
    if c as int == 0x07 then Some('a')
    else if c as int == 0x08 then Some('b')
    else if c as int == 0x0C then Some('f')
    else if c == '\n' then Some('n')
    else if c == '\r' then Some('r')
    else if c == '\t' then Some('t')
    else if c as int == 0x0B then Some('v')
    else None
  }

  /** One rune as %q writes it. */
  function QuoteChar(isPrint: char -> bool, c: char): string {
    if c == QUOTE || c == BACKSLASH then [BACKSLASH, c]
    else if Printable(isPrint, c) then [c]
    else if Letter(c).Some? then [BACKSLASH, Letter(c).value]
    else if Control(c) then [BACKSLASH, 'x'] + HexText(c as int, 2)
    else if c as int < 0x10000 then [BACKSLASH, 'u'] + HexText(c as int, 4)
    else [BACKSLASH, 'U'] + HexText(c as int, 8)
  }

  function Escape(isPrint: char -> bool, s: string): string {
    if s == "" then "" else QuoteChar(isPrint, s[0]) + Escape(isPrint, s[1..])
  }

  /** %q */
  function Quoted(isPrint: char -> bool, s: string): string {
    [QUOTE] + Escape(isPrint, s) + [QUOTE]
  }

  predicate Control(c: char) {
    c as int < 0x20 || c as int == 0x7F
  }

  function Escaped(c: char): Option<char> {
    if c == 'b' then Some(8 as char) else if c == 't' then Some('\t') else if c == 'n' then Some('\n')
    else if c == 'f' then Some(12 as char) else if c == 'r' then Some('\r')
    else if c == QUOTE || c == BACKSLASH then Some(c) else None
  }

  predicate HexPrefix(t: string, width: nat) {
    |t| >= width && forall i | 0 <= i < width :: HexDigit(t[i])
  }

  /** A Unicode scalar value written with `width` hexadecimal digits. */
  function ScalarOf(t: string, width: nat): Option<char> {
    if !HexPrefix(t, width) then None
    else
      var n := HexOf(t[..width]);
      if n < 0xD800 || 0xE000 <= n < 0x11_0000 then Some(n as char) else None
  }

  function Consed(c: char, rest: Option<(string, string)>): Option<(string, string)> {
    match rest
    case None => None
    case Some((s, left)) => Some(([c] + s, left))
  }

  /** A TOML basic string after its opening quote: the contents and what follows the closing quote. */
  function ReadBody(t: string): (r: Option<(string, string)>)
    ensures r.Some? ==> |r.value.1| < |t|
    decreases |t|
  {
    if t == "" then None
    else if t[0] == QUOTE then Some(("", t[1..]))
    else if t[0] != BACKSLASH then
      if Control(t[0]) && t[0] != '\t' then None else Consed(t[0], ReadBody(t[1..]))
    else if |t| < 2 then None
    else if Escaped(t[1]).Some? then Consed(Escaped(t[1]).value, ReadBody(t[2..]))
    else if t[1] == 'u' && ScalarOf(t[2..], 4).Some? then Consed(ScalarOf(t[2..], 4).value, ReadBody(t[6..]))
    else if t[1] == 'U' && ScalarOf(t[2..], 8).Some? then Consed(ScalarOf(t[2..], 8).value, ReadBody(t[10..]))
    else None
  }

  /** The runes whose %q form TOML reads: every one but the control characters that have no short
      TOML escape. */
  predicate QuotableChar(c: char) {
    !Control(c) || c as int in {0x08, 0x09, 0x0A, 0x0C, 0x0D}
  }

  predicate Quotable(s: string) {
    forall i | 0 <= i < |s| :: QuotableChar(s[i])
  }

  lemma ReadQuotedChar(isPrint: char -> bool, c: char, rest: string)
    ensures ReadBody(QuoteChar(isPrint, c) + rest)
         == if QuotableChar(c) then Consed(c, ReadBody(rest)) else None
  {
    if c == QUOTE || c == BACKSLASH {
      ReadShortEscape(c, rest);
    } else if Printable(isPrint, c) {
      assert ([c] + rest)[1..] == rest;
    } else if Letter(c).Some? {
      ReadLetter(c, rest);
    } else {
      ReadCode(isPrint, c, rest);
    }
  }

  lemma ReadLetter(c: char, rest: string)
    requires Letter(c).Some?
    ensures ReadBody([BACKSLASH, Letter(c).value] + rest)
         == if QuotableChar(c) then Consed(c, ReadBody(rest)) else None
  {
    ReadShortEscape(Letter(c).value, rest);
  }

  lemma ReadCode(isPrint: char -> bool, c: char, rest: string)
    requires c != QUOTE && c != BACKSLASH && !Printable(isPrint, c) && Letter(c).None?
    ensures ReadBody(QuoteChar(isPrint, c) + rest)
         == if QuotableChar(c) then Consed(c, ReadBody(rest)) else None
  {
    if Control(c) {
      assert [BACKSLASH, 'x'] + HexText(c as int, 2) + rest == [BACKSLASH, 'x'] + (HexText(c as int, 2) + rest);
      ReadShortEscape('x', HexText(c as int, 2) + rest);
    } else if c as int < 0x10000 {
      ReadUnicodeEscape('u', c, rest, 4);
    } else {
      ReadUnicodeEscape('U', c, rest, 8);
    }
  }

  lemma ReadShortEscape(b: char, rest: string)
    requires b != 'u' && b != 'U'
    ensures ReadBody([BACKSLASH, b] + rest)
         == if Escaped(b).Some? then Consed(Escaped(b).value, ReadBody(rest)) else None
  {
    assert ([BACKSLASH, b] + rest)[2..] == rest;
  }

  lemma ReadUnicodeEscape(u: char, c: char, rest: string, width: nat)
    requires (u == 'u' && width == 4 && c as int < 0x10000) || (u == 'U' && width == 8)
    ensures ReadBody([BACKSLASH, u] + HexText(c as int, width) + rest) == Consed(c, ReadBody(rest))
  {
    var h := HexText(c as int, width);
    var t := [BACKSLASH, u] + h + rest;
    assert t[2..] == h + rest && t[2 + width..] == rest;
    ReadScalar(c, rest, width);
  }

  lemma ReadScalar(c: char, rest: string, width: nat)
    requires (width == 4 && c as int < 0x10000) || width == 8
    ensures ScalarOf(HexText(c as int, width) + rest, width) == Some(c)
  {
    var h := HexText(c as int, width);
    assert Pow16(4) == 0x10000 && Pow16(8) == 0x1_0000_0000;
    HexRoundTrip(c as int, width);
    assert (h + rest)[..width] == h;
    assert forall i | 0 <= i < width :: (h + rest)[i] == h[i];
  }

  /** Reading what %q printed gives the string back exactly when the string is quotable; otherwise
      it is an error. */
  lemma {:induction false} ReadQuoted(isPrint: char -> bool, s: string, rest: string)
    ensures ReadBody(Escape(isPrint, s) + [QUOTE] + rest) == if Quotable(s) then Some((s, rest)) else None
  {
    if s == "" {
      var t := Escape(isPrint, s) + [QUOTE] + rest;
      assert t[0] == QUOTE && t[1..] == rest;
    } else {
      var q, tail := QuoteChar(isPrint, s[0]), Escape(isPrint, s[1..]) + [QUOTE] + rest;
      assert Escape(isPrint, s) + [QUOTE] + rest == q + tail;
      ReadQuotedChar(isPrint, s[0], tail);
      ReadQuoted(isPrint, s[1..], rest);
      assert Quotable(s) <==> QuotableChar(s[0]) && Quotable(s[1..]) by {
        assert forall i | 0 <= i < |s| - 1 :: s[1..][i] == s[i + 1];
        assert forall i | 1 <= i < |s| :: s[i] == s[1..][i - 1];
      }
      assert s == [s[0]] + s[1..];
    }
  }

  // ---------------------------------------------------------------- arrays of strings

  /** strings.Join(elems, `", "`) */
  function JoinElems(elems: seq<string>): string {
    if elems == [] then ""
    else if |elems| == 1 then elems[0]
    else elems[0] + "\", \"" + JoinElems(elems[1..])
  }

  /** ["%s"] of the joined elements: nothing is escaped. */
  function ArrayText(elems: seq<string>): string {
    "[\"" + JoinElems(elems) + "\"]"
  }

  predicate PlainChar(c: char) {
    c != QUOTE && c != BACKSLASH && (!Control(c) || c == '\t')
  }

  predicate Plain(s: string) {
    forall i | 0 <= i < |s| :: PlainChar(s[i])
  }

  predicate AllPlain(elems: seq<string>) {
    forall i | 0 <= i < |elems| :: Plain(elems[i])
  }

  lemma {:induction false} ReadPlain(s: string, rest: string)
    requires Plain(s)
    ensures ReadBody(s + [QUOTE] + rest) == Some((s, rest))
  {
    var t := s + [QUOTE] + rest;
    if s == "" {
      assert t[0] == QUOTE && t[1..] == rest;
    } else {
      assert t[0] == s[0] && PlainChar(s[0]) && t[1..] == s[1..] + [QUOTE] + rest;
      ReadPlain(s[1..], rest);
      assert s == [s[0]] + s[1..];
    }
  }

  /** The elements of an array after an element's opening quote. */
  function ReadElems(t: string): (r: Option<(seq<string>, string)>)
    decreases |t|
  {
    match ReadBody(t)
    case None => None
    case Some((s, left)) =>
      if |left| >= 1 && left[0] == ']' then Some(([s], left[1..]))
      else if |left| >= 3 && left[..3] == ", \"" then
        match ReadElems(left[3..]) {
          case None => None
          case Some((more, end)) => Some(([s] + more, end))
        }
      else None
  }

  lemma {:induction false} ReadPlainElems(elems: seq<string>, rest: string)
    requires elems != [] && AllPlain(elems)
    ensures ReadElems(JoinElems(elems) + "\"]" + rest) == Some((elems, rest))
  {
    var t := JoinElems(elems) + "\"]" + rest;
    if |elems| == 1 {
      assert t == elems[0] + [QUOTE] + ("]" + rest);
      ReadPlain(elems[0], "]" + rest);
      assert ("]" + rest)[1..] == rest;
      assert elems == [elems[0]];
    } else {
      var tail := JoinElems(elems[1..]) + "\"]" + rest;
      assert t == elems[0] + [QUOTE] + (", \"" + tail);
      ReadPlain(elems[0], ", \"" + tail);
      assert (", \"" + tail)[..3] == ", \"" && (", \"" + tail)[3..] == tail;
      ReadPlainElems(elems[1..], rest);
      assert elems == [elems[0]] + elems[1..];
    }
  }

  // An escape takes at least two characters for one, so an array that reads back as it was written
  // holds no escape: its elements are as long as their text.

  function TotalLength(elems: seq<string>): nat {
    if elems == [] then 0 else |elems[0]| + TotalLength(elems[1..])
  }

  lemma {:induction false} BodyLength(t: string)
    requires ReadBody(t).Some?
    ensures var (s, left) := ReadBody(t).value;
            |t| - |left| >= |s| + 1 && (|t| - |left| == |s| + 1 ==> Plain(s))
    decreases |t|
  {
    if t[0] != QUOTE {
      var k := if t[0] != BACKSLASH then 1 else if Escaped(t[1]).Some? then 2 else if t[1] == 'u' then 6 else 10;
      BodyLength(t[k..]);
    }
  }

  lemma {:induction false} ElemsLength(t: string)
    requires ReadElems(t).Some?
    ensures var (elems, left) := ReadElems(t).value;
            && elems != []
            && |t| - |left| >= TotalLength(elems) + 4 * |elems| - 2
            && (|t| - |left| == TotalLength(elems) + 4 * |elems| - 2 ==> AllPlain(elems))
    decreases |t|
  {
    var (s, left) := ReadBody(t).value;
    BodyLength(t);
    var elems := ReadElems(t).value.0;
    if |left| >= 1 && left[0] == ']' {
      assert elems[1..] == [];
    } else {
      ElemsLength(left[3..]);
      assert elems[1..] == ReadElems(left[3..]).value.0;
      assert forall i | 1 <= i < |elems| :: elems[i] == elems[1..][i - 1];
    }
  }

  lemma {:induction false} JoinLength(elems: seq<string>)
    requires elems != []
    ensures |JoinElems(elems)| + 2 == TotalLength(elems) + 4 * |elems| - 2
  {
    if |elems| == 1 {
      assert TotalLength(elems[1..]) == 0;
    } else {
      JoinLength(elems[1..]);
    }
  }

  // ---------------------------------------------------------------- numbers

  /** %d */
  function NumText(n: int): string {
    if n < 0 then "-" + NatText(-n) else NatText(n)
  }

  /** %f of a value given in millionths */
  function FixedText(m: int): string {
    if m < 0 then "-" + UnsignedFixedText(-m) else UnsignedFixedText(m)
  }

  function UnsignedFixedText(m: nat): string {
    NatText(m / 1_000_000) + "." + Padded(m % 1_000_000, 6)
  }

  /** A TOML decimal integer, or a float with exactly six decimals, without sign. */
  function ReadUnsigned(t: string): Option<Value> {
    var dot := Find(t, '.');
    var whole := t[..dot];
    if whole == "" || !Digits(whole) || (whole[0] == '0' && |whole| > 1) then None
    else if dot == |t| then Some(Num(NatOf(whole)))
    else
      var frac := t[dot + 1..];
      if |frac| == 6 && Digits(frac) then Some(Fixed(NatOf(whole) * 1_000_000 + NatOf(frac))) else None
  }

  function ReadNumber(t: string): Option<Value> {
    if t != "" && t[0] == '-' then
      match ReadUnsigned(t[1..]) {
        case Some(Num(n)) => Some(Num(-n))
        case Some(Fixed(m)) => Some(Fixed(-m))
        case _ => None
      }
    else ReadUnsigned(t)
  }

  lemma NoDot(s: string)
    requires Digits(s)
    ensures !Has(s, '.') && !Has(s, '\n')
  {}

  lemma ReadNat(n: nat)
    ensures ReadUnsigned(NatText(n)) == Some(Num(n))
  {
    var s := NatText(n);
    NoDot(s);
    FindNone(s, '.');
    assert s[..|s|] == s;
    NatTextRoundTrip(n);
  }

  lemma ReadUnsignedFixed(m: nat)
    ensures ReadUnsigned(UnsignedFixedText(m)) == Some(Fixed(m))
  {
    var w, f := NatText(m / 1_000_000), Padded(m % 1_000_000, 6);
    var t := w + "." + f;
    NoDot(w);
    FindFirst(w, '.', f);
    assert t[..|w|] == w && t[|w| + 1..] == f;
    NatTextRoundTrip(m / 1_000_000);
    assert Pow10(6) == 1_000_000;
    PaddedRoundTrip(m % 1_000_000, 6);
  }

  lemma ReadNumText(n: int)
    ensures ReadNumber(NumText(n)) == Some(Num(n))
  {
    ReadNat(if n < 0 then -n else n);
    if n < 0 {
      assert NumText(n)[1..] == NatText(-n);
    } else {
      assert Digit(NumText(n)[0]);
    }
  }

  lemma ReadFixedText(m: int)
    ensures ReadNumber(FixedText(m)) == Some(Fixed(m))
  {
    ReadUnsignedFixed(if m < 0 then -m else m);
    if m < 0 {
      assert FixedText(m)[1..] == UnsignedFixedText(-m);
    } else {
      assert FixedText(m)[0] == NatText(m / 1_000_000)[0];
      assert Digit(FixedText(m)[0]);
    }
  }

  // ---------------------------------------------------------------- values

  function ValueText(isPrint: char -> bool, v: Value): string {
    match v
    case Str(s) => Quoted(isPrint, s)
    case Num(n) => NumText(n)
    case Flag(b) => if b then "true" else "false"
    case Fixed(m) => FixedText(m)
    case Strs(elems) => ArrayText(elems)
  }

  function ReadValue(t: string): Option<Value> {
    if t == "" then None
    else if t[0] == QUOTE then
      match ReadBody(t[1..]) {
        case Some((s, "")) => Some(Str(s))
        case _ => None
      }
    else if t[0] == '[' then
      if |t| < 2 || t[1] != QUOTE then None
      else
        match ReadElems(t[2..]) {
          case Some((elems, "")) => Some(Strs(elems))
          case _ => None
        }
    else if t == "true" then Some(Flag(true))
    else if t == "false" then Some(Flag(false))
    else ReadNumber(t)
  }

  /** The values whose printed form reads back as themselves. */
  predicate Printing(v: Value) {
    match v
    case Str(s) => Quotable(s)
    case Strs(elems) => elems != [] && AllPlain(elems)
    case _ => true
  }

  lemma ReadString(isPrint: char -> bool, s: string)
    ensures ReadValue(Quoted(isPrint, s)) == if Quotable(s) then Some(Str(s)) else None
  {
    var t := Quoted(isPrint, s);
    assert t[1..] == Escape(isPrint, s) + [QUOTE] + "";
    ReadQuoted(isPrint, s, "");
  }

  lemma ReadArray(elems: seq<string>)
    requires elems != [] && AllPlain(elems)
    ensures ReadValue(ArrayText(elems)) == Some(Strs(elems))
  {
    var t := ArrayText(elems);
    assert t[2..] == JoinElems(elems) + "\"]" + "";
    ReadPlainElems(elems, "");
  }

  /** Even cut short, the text of an array never reads as an array with an element that needs
      escaping. */
  lemma ArrayNeedsPlain(elems: seq<string>, cut: nat)
    requires cut <= |ArrayText(elems)|
    requires ReadValue(ArrayText(elems)[..cut]) == Some(Strs(elems))
    ensures elems != [] && AllPlain(elems)
  {
    var t := ArrayText(elems)[..cut];
    assert t != "" && t[0] == '[';
    ElemsLength(t[2..]);
    JoinLength(elems);
  }

  lemma NumberIsNoWord(t: string)
    requires t != "" && (Digit(t[0]) || t[0] == '-')
    ensures t != "true" && t != "false" && ReadValue(t) == ReadNumber(t)
  {
    assert "true"[0] == 't' && "false"[0] == 'f';
  }

  lemma NumStart(n: int)
    ensures var t := NumText(n); t != "" && (Digit(t[0]) || t[0] == '-')
    ensures var t := FixedText(n); t != "" && (Digit(t[0]) || t[0] == '-')
  {
    if n >= 0 {
      assert Digit(NumText(n)[0]);
      assert FixedText(n)[0] == NatText(n / 1_000_000)[0];
      assert Digit(FixedText(n)[0]);
    }
  }

  /** A printed value reads back as itself exactly when it is a printing value. */
  lemma ValueRoundTrip(isPrint: char -> bool, v: Value)
    ensures ReadValue(ValueText(isPrint, v)) == Some(v) <==> Printing(v)
  {
    match v
    case Str(s) => ReadString(isPrint, s);
    case Num(n) =>
      NumStart(n);
      NumberIsNoWord(NumText(n));
      ReadNumText(n);
    case Flag(b) =>
    case Fixed(m) =>
      NumStart(m);
      NumberIsNoWord(FixedText(m));
      ReadFixedText(m);
    case Strs(elems) =>
      var t := ArrayText(elems);
      assert t[..|t|] == t;
      if ReadValue(t) == Some(v) {
        ArrayNeedsPlain(elems, |t|);
      }
      if Printing(v) {
        ReadArray(elems);
      }
  }
}
