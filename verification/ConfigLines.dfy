/** What config.toml looks like: each setting a reader finds stands in it as a line of its own. */
module ConfigLines {
  import opened Options
  import opened MintTypes
  import opened Text
  import opened Toml
  import opened TomlDoc
  import opened TomlLayout
  import opened ConfigToml
  import opened ConfigTables

  // ---------------------------------------------------------------- lines of a text

  /** This line begins at `o`: at the beginning of the text or behind the end of another line. */
  predicate LineAt(text: string, o: nat, line: string) {
    && o + |line| < |text| && text[o..][..|line|] == line && text[o + |line|] == '\n'
    && (o == 0 || text[o - 1] == '\n')
  }

  ghost predicate HasLine(text: string, line: string) {
    exists o: nat :: LineAt(text, o, line)
  }

  predicate EndsLine(text: string) {
    text == "" || text[|text| - 1] == '\n'
  }

  lemma LineLater(front: string, text: string, line: string)
    requires EndsLine(front) && HasLine(text, line)
    ensures HasLine(front + text, line)
  {
    var o: nat :| LineAt(text, o, line);
    assert (front + text)[|front| + o..] == text[o..];
    assert LineAt(front + text, |front| + o, line);
  }

  lemma LineStays(text: string, back: string, line: string)
    requires HasLine(text, line)
    ensures HasLine(text + back, line)
  {
    var o: nat :| LineAt(text, o, line);
    assert (text + back)[o..][..|line|] == text[o..][..|line|];
    assert LineAt(text + back, o, line);
  }

  lemma OneLine(line: string)
    ensures HasLine(line + "\n", line) && EndsLine(line + "\n")
  {
    assert LineAt(line + "\n", 0, line);
  }

  function LineOf(isPrint: char -> bool, e: Entry): string {
    e.key + " = " + ValueText(isPrint, e.value)
  }

  lemma EntryLine(isPrint: char -> bool, e: Entry)
    ensures HasLine(EntryText(isPrint, e), LineOf(isPrint, e)) && EndsLine(EntryText(isPrint, e))
  {
    OneLine(LineOf(isPrint, e));
  }

  lemma EntriesEndLines(isPrint: char -> bool, es: seq<Entry>)
    ensures EndsLine(EntriesText(isPrint, es))
  {
    if es != [] {
      EntryLine(isPrint, es[|es| - 1]);
    }
  }

  lemma {:induction false} EntriesLines(isPrint: char -> bool, es: seq<Entry>, e: Entry)
    requires e in es
    ensures HasLine(EntriesText(isPrint, es), LineOf(isPrint, e))
  {
    var front, last := es[..|es| - 1], es[|es| - 1];
    if e == last {
      EntriesEndLines(isPrint, front);
      EntryLine(isPrint, last);
      LineLater(EntriesText(isPrint, front), EntryText(isPrint, last), LineOf(isPrint, e));
    } else {
      EntriesLines(isPrint, front, e);
      LineStays(EntriesText(isPrint, front), EntryText(isPrint, last), LineOf(isPrint, e));
    }
  }

  /** A header is a line of its own too, behind an empty one unless it comes first. */
  lemma HeaderIsLine(first: bool, path: Path)
    ensures HasLine(HeaderText(first, path), "[" + Dotted(path) + "]")
    ensures EndsLine(HeaderText(first, path))
  {
    var line := "[" + Dotted(path) + "]";
    OneLine(line);
    if first {
      assert HeaderText(first, path) == line + "\n";
    } else {
      assert HeaderText(first, path) == "\n" + (line + "\n");
      LineLater("\n", line + "\n", line);
    }
  }

  lemma TableEndsLine(isPrint: char -> bool, first: bool, t: Table)
    ensures EndsLine(TableText(isPrint, first, t))
  {
    HeaderIsLine(first, t.path);
    EntriesEndLines(isPrint, t.entries);
  }

  lemma DocEndsLine(isPrint: char -> bool, doc: Doc)
    ensures EndsLine(DocText(isPrint, doc))
  {
    if doc != [] {
      TableEndsLine(isPrint, |doc| == 1, doc[|doc| - 1]);
    }
  }

  lemma LineOfFront(isPrint: char -> bool, doc: Doc, line: string)
    requires doc != [] && HasLine(DocText(isPrint, doc[..|doc| - 1]), line)
    ensures HasLine(DocText(isPrint, doc), line)
  {
    LineStays(DocText(isPrint, doc[..|doc| - 1]), TableText(isPrint, |doc| == 1, doc[|doc| - 1]), line);
  }

  lemma LineOfLast(isPrint: char -> bool, doc: Doc, line: string)
    requires doc != [] && HasLine(TableText(isPrint, |doc| == 1, doc[|doc| - 1]), line)
    ensures HasLine(DocText(isPrint, doc), line)
  {
    DocEndsLine(isPrint, doc[..|doc| - 1]);
    LineLater(DocText(isPrint, doc[..|doc| - 1]), TableText(isPrint, |doc| == 1, doc[|doc| - 1]), line);
  }

  /** What is a line of a table's text is a line of the file. */
  lemma {:induction false} TableInDoc(isPrint: char -> bool, doc: Doc, i: nat, line: string)
    requires i < |doc| && HasLine(TableText(isPrint, i == 0, doc[i]), line)
    ensures HasLine(DocText(isPrint, doc), line)
  {
    if i < |doc| - 1 {
      TableInDoc(isPrint, doc[..|doc| - 1], i, line);
      LineOfFront(isPrint, doc, line);
    } else {
      LineOfLast(isPrint, doc, line);
    }
  }

  lemma TableLines(isPrint: char -> bool, first: bool, t: Table, e: Entry)
    requires e in t.entries
    ensures HasLine(TableText(isPrint, first, t), "[" + Dotted(t.path) + "]")
    ensures HasLine(TableText(isPrint, first, t), LineOf(isPrint, e))
  {
    var header, entries := HeaderText(first, t.path), EntriesText(isPrint, t.entries);
    HeaderIsLine(first, t.path);
    LineStays(header, entries, "[" + Dotted(t.path) + "]");
    EntriesLines(isPrint, t.entries, e);
    LineLater(header, entries, LineOf(isPrint, e));
  }

  // ---------------------------------------------------------------- a setting is a line

  lemma {:induction false} FoundTable(doc: Doc, path: Path) returns (i: nat)
    requires FindTable(doc, path).Some?
    ensures i < |doc| && doc[i].path == path && FindTable(doc, path).value == doc[i]
  {
    i := |doc| - 1;
    if doc[i].path != path {
      i := FoundTable(doc[..i], path);
    }
  }

  lemma {:induction false} FoundEntry(es: seq<Entry>, key: string)
    requires EntryValue(es, key).Some?
    ensures Entry(key, EntryValue(es, key).value) in es
  {
    if es[|es| - 1].key != key {
      FoundEntry(es[..|es| - 1], key);
    }
  }

  /** What a reader finds under a table and a key stands in config.toml as `key = value`, and the table's
      header as `[table]`. */
  lemma SettingIsLine(isPrint: char -> bool, s: Spec, mintName: string, password: string, path: Path, key: string,
      v: Value)
    requires Lookup(ConfigDoc(s, mintName, password), path, key) == Some(v)
    ensures HasLine(ConfigText(isPrint, s, mintName, password), "[" + Dotted(path) + "]")
    ensures HasLine(ConfigText(isPrint, s, mintName, password), key + " = " + ValueText(isPrint, v))
  {
    var doc := ConfigDoc(s, mintName, password);
    var i := FoundTable(doc, path);
    FoundEntry(doc[i].entries, key);
    TableLines(isPrint, i == 0, doc[i], Entry(key, v));
    TableInDoc(isPrint, doc, i, "[" + Dotted(path) + "]");
    TableInDoc(isPrint, doc, i, LineOf(isPrint, Entry(key, v)));
  }

  // ---------------------------------------------------------------- how values are written

  /** A text of ASCII letters, digits and signs other than a quote or a backslash is written between quotes
      as it is. */
  lemma {:induction false} PlainText(isPrint: char -> bool, s: string)
    requires forall i | 0 <= i < |s| :: ' ' <= s[i] <= '~' && s[i] != '"' && s[i] != '\\'
    ensures Escape(isPrint, s) == s && ValueText(isPrint, Str(s)) == "\"" + s + "\""
  {
    if s != "" {
      PlainText(isPrint, s[1..]);
      assert s == [s[0]] + s[1..];
    }
  }

  lemma EscapedCharacters(isPrint: char -> bool)
    ensures ValueText(isPrint, Str("\"")) == "\"\\\"\"" && ValueText(isPrint, Str("\\")) == "\"\\\\\""
    ensures ValueText(isPrint, Str("\n")) == "\"\\n\"" && ValueText(isPrint, Str("\t")) == "\"\\t\""
    ensures ValueText(isPrint, Str("\r")) == "\"\\r\""
  {}

  /** The control characters that Go writes with a letter, and the rest of them by number. */
  lemma ControlCharacters(isPrint: char -> bool, c: char)
    requires c as int < 32 && c !in "\n\t\r"
    ensures QuoteChar(isPrint, c)
         == if c as int == 7 then "\\a" else if c as int == 8 then "\\b" else if c as int == 11 then "\\v"
            else if c as int == 12 then "\\f"
            else "\\x" + ["0123456789abcdef"[c as int / 16], "0123456789abcdef"[c as int % 16]]
  {
    HexDigits(c as int / 16);
    HexDigits(c as int % 16);
    assert HexText(c as int, 2) == HexText(c as int / 16, 1) + [HexChar(c as int % 16)];
    assert HexText(c as int / 16, 1) == [HexChar(c as int / 16)];
  }

  lemma HexDigits(d: nat)
    requires d < 16
    ensures HexChar(d) == "0123456789abcdef"[d]
  {}

  /** Beyond ASCII a character that is not printable is written as its code point. */
  lemma CodePoints(isPrint: char -> bool, c: char, n: nat, width: nat)
    requires c as int >= 0x80 && !isPrint(c)
    ensures QuoteChar(isPrint, c)
         == if c as int < 0x1_0000 then "\\u" + HexText(c as int, 4) else "\\U" + HexText(c as int, 8)
    ensures width > 0 ==> HexText(n, width) == HexText(n / 16, width - 1) + ["0123456789abcdef"[n % 16]]
  {
    HexDigits(n % 16);
  }

  lemma FlagsAndLists(isPrint: char -> bool, a: string, b: string)
    ensures ValueText(isPrint, Flag(true)) == "true" && ValueText(isPrint, Flag(false)) == "false"
    ensures ValueText(isPrint, Strs([a])) == "[\"" + a + "\"]"
    ensures ValueText(isPrint, Strs([a, b])) == "[\"" + a + "\", \"" + b + "\"]"
  {
    assert JoinElems([a, b]) == a + "\", \"" + JoinElems([b]);
  }

  /** Decimal digits. */
  lemma LastDigit(isPrint: char -> bool, n: int)
    ensures n >= 0 ==>
              ValueText(isPrint, Num(n))
              == (if n < 10 then "" else ValueText(isPrint, Num(n / 10))) + ["0123456789"[n % 10]]
    ensures n < 0 ==> ValueText(isPrint, Num(n)) == "-" + ValueText(isPrint, Num(-n))
  {
    if n >= 0 {
      DecimalDigits(n % 10);
    }
  }

  /** A fee has six decimals behind its point, those of its millionths. */
  lemma SixDecimals(isPrint: char -> bool, m: nat, k: nat)
    requires k < 6
    ensures var decimals := Padded(m % 1_000_000, 6);
            && ValueText(isPrint, Fixed(m)) == ValueText(isPrint, Num(m / 1_000_000)) + "." + decimals
            && |decimals| == 6
            && decimals[5 - k] == "0123456789"[m % 1_000_000 / [1, 10, 100, 1_000, 10_000, 100_000][k] % 10]
  {
    PaddedDigit(m % 1_000_000, 6, k);
    PowersOfTen(k);
    DecimalDigits(m % 1_000_000 / Pow10(k) % 10);
  }

  lemma PowersOfTen(k: nat)
    requires k < 6
    ensures Pow10(k) == [1, 10, 100, 1_000, 10_000, 100_000][k]
  {
    assert Pow10(0) == 1 && Pow10(1) == 10 && Pow10(2) == 100 && Pow10(3) == 1_000 && Pow10(4) == 10_000;
  }

  lemma DecimalDigits(d: nat)
    requires d < 10
    ensures DigitChar(d) == "0123456789"[d]
  {}

  /** A table's name: one word, or two with a point between them. */
  lemma TableNames(a: string, b: string)
    ensures Dotted([a]) == a && Dotted([a, b]) == a + "." + b
  {
    assert Dotted([a, b]) == a + "." + Dotted([b]);
  }

  // ---------------------------------------------------------------- the limits of a mint, as they are written

  /** The smallest and the largest amount stand under their own names. */
  lemma LimitLines(isPrint: char -> bool, s: Spec, mintName: string, password: string)
    requires s.paymentBackend.minMint.Some? && s.paymentBackend.maxMint.Some?
    ensures var text := ConfigText(isPrint, s, mintName, password);
            && HasLine(text, "[" + Dotted(["ln"]) + "]")
            && HasLine(text, "min_mint" + " = " + NumText(s.paymentBackend.minMint.value))
            && HasLine(text, "max_mint" + " = " + NumText(s.paymentBackend.maxMint.value))
  {
    var low, high := Num(s.paymentBackend.minMint.value), Num(s.paymentBackend.maxMint.value);
    LnTable(s, mintName, password);
    SettingIsLine(isPrint, s, mintName, password, ["ln"], "min_mint", low);
    SettingIsLine(isPrint, s, mintName, password, ["ln"], "max_mint", high);
  }
}
