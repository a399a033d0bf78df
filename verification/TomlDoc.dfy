/** Whole TOML files: tables of key lines, a reader that refuses what TOML v1.0.0 refuses ("Keys",
    "Table"), and the round trip between the two. */
module TomlDoc {
  import opened Options
  import opened Text
  import opened Toml

  datatype Entry = Entry(key: string, value: Value)
  type Path = seq<string>  // [a.b] is ["a", "b"]
  datatype Table = Table(path: Path, entries: seq<Entry>)

  type Doc = seq<Table>

  // ---------------------------------------------------------------- printing

  function EntryText(isPrint: char -> bool, e: Entry): string {
    e.key + " = " + ValueText(isPrint, e.value) + "\n"
  }

  function EntriesText(isPrint: char -> bool, es: seq<Entry>): string {
    if es == [] then "" else EntriesText(isPrint, es[..|es| - 1]) + EntryText(isPrint, es[|es| - 1])
  }

  function Dotted(path: Path): string {
    if path == [] then "" else if |path| == 1 then path[0] else path[0] + "." + Dotted(path[1..])
  }

  function HeaderText(first: bool, path: Path): string {
    (if first then "[" else "\n[") + Dotted(path) + "]\n"
  }

  function TableText(isPrint: char -> bool, first: bool, t: Table): string {
    HeaderText(first, t.path) + EntriesText(isPrint, t.entries)
  }

  function DocText(isPrint: char -> bool, doc: Doc): string {
    if doc == [] then ""
    else
      var n := |doc| - 1;
      DocText(isPrint, doc[..n]) + TableText(isPrint, n == 0, doc[n])
  }

  function WithEntry(doc: Doc, e: Entry): (r: Doc)
    requires doc != []
    ensures |r| == |doc|
  {
    var n := |doc| - 1;
    doc[..n] + [Table(doc[n].path, doc[n].entries + [e])]
  }

  // ---------------------------------------------------------------- reading

  predicate BareChar(c: char) {
    'a' <= c <= 'z' || 'A' <= c <= 'Z' || '0' <= c <= '9' || c == '_' || c == '-'
  }

  predicate BareKey(s: string) {
    s != "" && forall i | 0 <= i < |s| :: BareChar(s[i])
  }

  predicate GoodPath(path: Path) {
    path != [] && forall i | 0 <= i < |path| :: BareKey(path[i])
  }

  function SplitDots(s: string): (path: Path)
    ensures path != []
    decreases |s|
  {
    var dot := Find(s, '.');
    if dot == |s| then [s] else [s[..dot]] + SplitDots(s[dot + 1..])
  }

  lemma SplitFirst(a: string, rest: string)
    requires BareKey(a)
    ensures SplitDots(a + "." + rest) == [a] + SplitDots(rest)
  {
    FindFirst(a, '.', rest);
    var s := a + "." + rest;
    assert s == a + ['.'] + rest;
    assert s[..|a|] == a && s[|a| + 1..] == rest;
  }

  lemma {:induction false} SplitDotted(path: Path)
    requires GoodPath(path)
    ensures SplitDots(Dotted(path)) == path
  {
    if |path| == 1 {
      FindNone(path[0], '.');
    } else {
      SplitDotted(path[1..]);
      SplitFirst(path[0], Dotted(path[1..]));
      assert path == [path[0]] + path[1..];
    }
  }

  lemma {:induction false} DottedOneLine(path: Path)
    requires GoodPath(path)
    ensures !Has(Dotted(path), '\n')
  {
    assert BareKey(path[0]);
    if |path| > 1 {
      DottedOneLine(path[1..]);
      HasConcat(path[0] + ".", Dotted(path[1..]), '\n');
      HasConcat(path[0], ".", '\n');
    }
  }

  datatype Line = Blank | Header(path: Path) | Pair(entry: Entry)

  function ReadLine(line: string): Option<Line> {
    if line == "" then Some(Blank)
    else if line[0] == '[' then
      if |line| >= 2 && line[|line| - 1] == ']' && GoodPath(SplitDots(line[1..|line| - 1]))
      then Some(Header(SplitDots(line[1..|line| - 1]))) else None
    else
      var i := Find(line, ' ');
      if BareKey(line[..i]) && |line| >= i + 3 && line[i..i + 3] == " = " && ReadValue(line[i + 3..]).Some?
      then Some(Pair(Entry(line[..i], ReadValue(line[i + 3..]).value))) else None
  }

  predicate HasTable(doc: Doc, path: Path) {
    exists i | 0 <= i < |doc| :: doc[i].path == path
  }

  predicate HasKey(es: seq<Entry>, key: string) {
    exists i | 0 <= i < |es| :: es[i].key == key
  }

  /** `path` already is a table or a parent of one. */
  predicate IsTablePath(doc: Doc, path: Path) {
    exists i | 0 <= i < |doc| :: path <= doc[i].path
  }

  /** A key of `t` is named like `path` or like one of its parents. */
  predicate Shadows(t: Table, path: Path) {
    exists j | 0 <= j < |t.entries| :: t.path + [t.entries[j].key] <= path
  }

  predicate IsKeyPath(doc: Doc, path: Path) {
    exists i | 0 <= i < |doc| :: Shadows(doc[i], path)
  }

  predicate TableFits(doc: Doc, path: Path) {
    !HasTable(doc, path) && !IsKeyPath(doc, path)
  }

  predicate EntryFits(doc: Doc, e: Entry) {
    doc != [] &&
    var t := doc[|doc| - 1];
    !HasKey(t.entries, e.key) && !IsTablePath(doc, t.path + [e.key])
  }

  /** What one line adds to the document; a table or a key defined twice is an error, as is a key
      before the first table, which the printer never emits. */
  function AddLine(doc: Doc, line: Option<Line>): Option<Doc> {
    match line
    case None => None
    case Some(Blank) => Some(doc)
    case Some(Header(h)) => if TableFits(doc, h) then Some(doc + [Table(h, [])]) else None
    case Some(Pair(e)) => if EntryFits(doc, e) then Some(WithEntry(doc, e)) else None
  }

  /** Reads terminated lines into `doc`. */
  function ReadLines(text: string, doc: Doc): Option<Doc>
    decreases |text|
  {
    if text == "" then Some(doc)
    else
      var i := Find(text, '\n');
      if i == |text| || AddLine(doc, ReadLine(text[..i])).None? then None
      else ReadLines(text[i + 1..], AddLine(doc, ReadLine(text[..i])).value)
  }

  function ReadDoc(text: string): Option<Doc> {
    ReadLines(text, [])
  }

  // ---------------------------------------------------------------- well-formed documents

  predicate DistinctKeys(es: seq<Entry>) {
    forall i, j | 0 <= i < j < |es| :: es[i].key != es[j].key
  }

  predicate BareKeys(es: seq<Entry>) {
    forall j | 0 <= j < |es| :: BareKey(es[j].key)
  }

  predicate GoodTable(t: Table) {
    GoodPath(t.path) && BareKeys(t.entries) && DistinctKeys(t.entries)
  }

  /** No table and no key is defined twice, no key shares its dotted name with a table or with a
      parent of one, and all names are bare keys. */
  predicate WellFormed(doc: Doc) {
    && (forall i, j | 0 <= i < j < |doc| :: doc[i].path != doc[j].path)
    && (forall i | 0 <= i < |doc| :: GoodTable(doc[i]))
    && (forall i, k | 0 <= i < |doc| && 0 <= k < |doc| :: !Shadows(doc[i], doc[k].path))
  }

  predicate EntriesPrinting(es: seq<Entry>) {
    forall j | 0 <= j < |es| :: Printing(es[j].value)
  }

  predicate AllPrinting(doc: Doc) {
    forall i | 0 <= i < |doc| :: EntriesPrinting(doc[i].entries)
  }

  /** `d` continues `doc`: later tables and later keys of the last table only. */
  predicate Continues(doc: Doc, d: Doc) {
    && |doc| <= |d|
    && (forall i | 0 <= i < |doc| :: doc[i].path == d[i].path && doc[i].entries <= d[i].entries)
    && (forall i | 0 <= i < |doc| - 1 :: doc[i].entries == d[i].entries)
  }

  lemma {:induction false} ReadingContinues(text: string, doc: Doc)
    requires ReadLines(text, doc).Some?
    ensures Continues(doc, ReadLines(text, doc).value)
    decreases |text|
  {
    if text != "" {
      var i := Find(text, '\n');
      var next := AddLine(doc, ReadLine(text[..i])).value;
      LineContinues(doc, ReadLine(text[..i]));
      ReadingContinues(text[i + 1..], next);
      ContinuesTransitive(doc, next, ReadLines(text, doc).value);
    }
  }

  lemma LineContinues(doc: Doc, line: Option<Line>)
    requires AddLine(doc, line).Some?
    ensures Continues(doc, AddLine(doc, line).value)
  {}

  lemma ContinuesTransitive(a: Doc, b: Doc, c: Doc)
    requires Continues(a, b) && Continues(b, c)
    ensures Continues(a, c)
  {}

  // ---------------------------------------------------------------- reading a stretch of text

  /** Whatever follows, reading `text` turns `doc` into `next`. */
  ghost predicate ReadsTo(text: string, doc: Doc, next: Doc) {
    forall rest: string :: ReadLines(text + rest, doc) == ReadLines(rest, next)
  }

  /** Whatever follows, reading `text` into `doc` fails or ends in a document that `target` does not
      begin. */
  ghost predicate Misreads(text: string, doc: Doc, target: Doc) {
    forall rest: string ::
      ReadLines(text + rest, doc).Some? ==> !Continues(target, ReadLines(text + rest, doc).value)
  }

  lemma ReadsNothing(doc: Doc)
    ensures ReadsTo("", doc, doc)
  {
    forall rest: string ensures ReadLines("" + rest, doc) == ReadLines(rest, doc) {
      assert "" + rest == rest;
    }
  }

  lemma ThenReads(a: string, b: string, doc: Doc, mid: Doc, end: Doc)
    requires ReadsTo(a, doc, mid) && ReadsTo(b, mid, end)
    ensures ReadsTo(a + b, doc, end)
  {
    forall rest: string ensures ReadLines(a + b + rest, doc) == ReadLines(rest, end) {
      assert a + b + rest == a + (b + rest);
    }
  }

  lemma ThenMisreads(a: string, b: string, doc: Doc, mid: Doc, target: Doc)
    requires ReadsTo(a, doc, mid) && Misreads(b, mid, target)
    ensures Misreads(a + b, doc, target)
  {
    forall rest: string
      ensures ReadLines(a + b + rest, doc).Some? ==> !Continues(target, ReadLines(a + b + rest, doc).value) {
      assert a + b + rest == a + (b + rest);
    }
  }

  lemma StaysMisread(a: string, b: string, doc: Doc, target: Doc, more: Doc)
    requires Misreads(a, doc, target) && Continues(target, more)
    ensures Misreads(a + b, doc, more)
  {
    forall rest: string
      ensures ReadLines(a + b + rest, doc).Some? ==> !Continues(more, ReadLines(a + b + rest, doc).value) {
      assert a + b + rest == a + (b + rest);
      var r := ReadLines(a + (b + rest), doc);
      if r.Some? && Continues(more, r.value) {
        ContinuesTransitive(target, more, r.value);
      }
    }
  }

  lemma ReadOneLine(line: string, rest: string, doc: Doc)
    requires !Has(line, '\n')
    ensures var next := AddLine(doc, ReadLine(line));
            ReadLines(line + "\n" + rest, doc) == if next.None? then None else ReadLines(rest, next.value)
  {
    var text := line + "\n" + rest;
    FindFirst(line, '\n', rest);
    assert text == line + ['\n'] + rest;
    assert text[..|line|] == line && text[|line| + 1..] == rest;
  }

  lemma LineReads(line: string, doc: Doc, next: Doc)
    requires !Has(line, '\n') && AddLine(doc, ReadLine(line)) == Some(next)
    ensures ReadsTo(line + "\n", doc, next)
  {
    forall rest: string ensures ReadLines(line + "\n" + rest, doc) == ReadLines(rest, next) {
      ReadOneLine(line, rest, doc);
    }
  }

  // ---------------------------------------------------------------- headers

  lemma HeaderLine(doc: Doc, path: Path)
    requires GoodPath(path) && TableFits(doc, path)
    ensures ReadsTo("[" + Dotted(path) + "]\n", doc, doc + [Table(path, [])])
  {
    SplitDotted(path);
    DottedOneLine(path);
    var h := Dotted(path);
    var line := "[" + h + "]";
    HasConcat("[" + h, "]", '\n');
    HasConcat("[", h, '\n');
    assert line[1..|line| - 1] == h;
    LineReads(line, doc, doc + [Table(path, [])]);
    assert line + "\n" == "[" + h + "]\n";
  }

  lemma ReadHeader(doc: Doc, path: Path)
    requires GoodPath(path) && TableFits(doc, path)
    ensures ReadsTo(HeaderText(doc == [], path), doc, doc + [Table(path, [])])
  {
    HeaderLine(doc, path);
    if doc != [] {
      EmptyLine(doc);
      ThenReads("\n", "[" + Dotted(path) + "]\n", doc, doc, doc + [Table(path, [])]);
      HeaderTexts(path);
    }
  }

  lemma EmptyLine(doc: Doc)
    ensures ReadsTo("\n", doc, doc)
  {
    LineReads("", doc, doc);
    assert "" + "\n" == "\n";
  }

  lemma HeaderTexts(path: Path)
    ensures HeaderText(false, path) == "\n" + ("[" + Dotted(path) + "]\n")
  {}

  // ---------------------------------------------------------------- printed values stay on their line

  lemma {:induction false} EscapeOneLine(isPrint: char -> bool, s: string)
    ensures !Has(Escape(isPrint, s), '\n')
  {
    if s != "" {
      EscapeOneLine(isPrint, s[1..]);
      QuoteOneLine(isPrint, s[0]);
      HasConcat(QuoteChar(isPrint, s[0]), Escape(isPrint, s[1..]), '\n');
    }
  }

  lemma QuoteOneLine(isPrint: char -> bool, c: char)
    ensures !Has(QuoteChar(isPrint, c), '\n')
  {}

  lemma {:induction false} JoinOneLine(elems: seq<string>)
    requires AllPlain(elems)
    ensures !Has(JoinElems(elems), '\n')
  {
    if |elems| == 1 {
      assert Plain(elems[0]);
    } else if |elems| > 1 {
      assert Plain(elems[0]);
      JoinOneLine(elems[1..]);
      HasConcat(elems[0] + "\", \"", JoinElems(elems[1..]), '\n');
      HasConcat(elems[0], "\", \"", '\n');
    }
  }

  lemma NumbersOneLine(n: int)
    ensures !Has(NumText(n), '\n') && !Has(FixedText(n), '\n')
  {
    var m := if n < 0 then -n else n;
    NoDot(NatText(m));
    NoDot(NatText(m / 1_000_000));
    NoDot(Padded(m % 1_000_000, 6));
    HasConcat("-", NatText(m), '\n');
    HasConcat(NatText(m / 1_000_000), ".", '\n');
    HasConcat(NatText(m / 1_000_000) + ".", Padded(m % 1_000_000, 6), '\n');
    HasConcat("-", UnsignedFixedText(m), '\n');
  }

  lemma ValueOneLine(isPrint: char -> bool, v: Value)
    requires v.Str? || Printing(v)
    ensures !Has(ValueText(isPrint, v), '\n')
  {
    match v
    case Str(s) =>
      EscapeOneLine(isPrint, s);
      HasConcat([QUOTE], Escape(isPrint, s), '\n');
      HasConcat([QUOTE] + Escape(isPrint, s), [QUOTE], '\n');
    case Num(n) => NumbersOneLine(n);
    case Flag(b) =>
    case Fixed(m) => NumbersOneLine(m);
    case Strs(elems) =>
      JoinOneLine(elems);
      HasConcat("[\"", JoinElems(elems), '\n');
      HasConcat("[\"" + JoinElems(elems), "\"]", '\n');
  }

  // ---------------------------------------------------------------- key lines

  lemma ReadPair(key: string, t: string)
    requires BareKey(key)
    ensures ReadLine(key + " = " + t)
         == if ReadValue(t).Some? then Some(Pair(Entry(key, ReadValue(t).value))) else None
    ensures !Has(t, '\n') ==> !Has(key + " = " + t, '\n')
  {
    var line := key + " = " + t;
    assert line == key + [' '] + ("= " + t);
    FindFirst(key, ' ', "= " + t);
    var n := |key|;
    assert line[0] == key[0] && BareChar(key[0]);
    assert line[..n] == key && line[n..n + 3] == " = " && line[n + 3..] == t;
    HasConcat(key + " = ", t, '\n');
    HasConcat(key, " = ", '\n');
  }

  lemma ReadEntry(isPrint: char -> bool, doc: Doc, e: Entry)
    requires BareKey(e.key) && EntryFits(doc, e) && Printing(e.value)
    ensures ReadsTo(EntryText(isPrint, e), doc, WithEntry(doc, e))
  {
    var t := ValueText(isPrint, e.value);
    ValueOneLine(isPrint, e.value);
    ValueRoundTrip(isPrint, e.value);
    ReadPair(e.key, t);
    LineReads(e.key + " = " + t, doc, WithEntry(doc, e));
  }

  /** A value that is not a printing value makes the file unreadable, or readable as another file. */
  lemma MisreadEntry(isPrint: char -> bool, doc: Doc, e: Entry)
    requires doc != [] && BareKey(e.key) && !Printing(e.value)
    ensures Misreads(EntryText(isPrint, e), doc, WithEntry(doc, e))
  {
    var t := ValueText(isPrint, e.value);
    forall rest: string
      ensures var r := ReadLines(EntryText(isPrint, e) + rest, doc);
              r.Some? ==> !Continues(WithEntry(doc, e), r.value) {
      var full := t + "\n" + rest;
      var cut := Find(full, '\n');
      assert full[|t|] == '\n';
      var part, after := t[..cut], full[cut + 1..];
      assert forall i | 0 <= i < cut :: part[i] == full[i];
      assert EntryText(isPrint, e) + rest == (e.key + " = " + part) + "\n" + after;
      CutValue(isPrint, e.value, cut);
      MisreadLine(doc, e, part, after);
    }
  }

  lemma CutValue(isPrint: char -> bool, v: Value, cut: nat)
    requires !Printing(v) && cut <= |ValueText(isPrint, v)|
    requires cut == |ValueText(isPrint, v)| || Has(ValueText(isPrint, v), '\n')
    ensures ReadValue(ValueText(isPrint, v)[..cut]) != Some(v)
  {
    var t := ValueText(isPrint, v);
    if v.Strs? {
      if ReadValue(t[..cut]) == Some(v) {
        ArrayNeedsPlain(v.elems, cut);
      }
    } else {
      ValueOneLine(isPrint, v);
      assert t[..cut] == t;
      ValueRoundTrip(isPrint, v);
    }
  }

  lemma MisreadLine(doc: Doc, e: Entry, part: string, after: string)
    requires doc != [] && BareKey(e.key) && !Has(part, '\n') && ReadValue(part) != Some(e.value)
    ensures var r := ReadLines((e.key + " = " + part) + "\n" + after, doc);
            r.Some? ==> !Continues(WithEntry(doc, e), r.value)
  {
    var line := e.key + " = " + part;
    ReadPair(e.key, part);
    ReadOneLine(line, after, doc);
    if ReadLines(line + "\n" + after, doc).Some? {
      var e' := Entry(e.key, ReadValue(part).value);
      ReadingContinues(after, WithEntry(doc, e'));
      OneNextEntry(doc, e, e', ReadLines(after, WithEntry(doc, e')).value);
    }
  }

  lemma OneNextEntry(doc: Doc, e: Entry, e': Entry, d: Doc)
    requires doc != [] && e != e' && Continues(WithEntry(doc, e'), d)
    ensures !Continues(WithEntry(doc, e), d)
  {
    var n := |doc| - 1;
    var k := |doc[n].entries|;
    assert WithEntry(doc, e')[n].entries <= d[n].entries && WithEntry(doc, e')[n].entries[k] == e';
    assert WithEntry(doc, e)[n].entries[k] == e;
  }

  // ---------------------------------------------------------------- well-formed means readable in order

  /** Every key line can be added where it stands. */
  ghost predicate EntriesFit(doc: Doc, h: Path, es: seq<Entry>) {
    es == [] ||
    var front, last := es[..|es| - 1], es[|es| - 1];
    EntriesFit(doc, h, front) && BareKey(last.key) && EntryFits(doc + [Table(h, front)], last)
  }

  /** Every line can be added where it stands. */
  ghost predicate LinesFit(doc: Doc) {
    doc == [] ||
    var front, t := doc[..|doc| - 1], doc[|doc| - 1];
    LinesFit(front) && GoodPath(t.path) && TableFits(front, t.path) && EntriesFit(front, t.path, t.entries)
  }

  lemma {:induction false} GoodEntriesFit(doc: Doc, h: Path, es: seq<Entry>)
    requires DistinctKeys(es) && BareKeys(es)
    requires forall j | 0 <= j < |es| :: !(h + [es[j].key] <= h)
    requires forall i, j | 0 <= i < |doc| && 0 <= j < |es| :: !(h + [es[j].key] <= doc[i].path)
    ensures EntriesFit(doc, h, es)
  {
    if es != [] {
      GoodEntriesFit(doc, h, es[..|es| - 1]);
    }
  }

  lemma {:induction false} WellFormedFits(doc: Doc)
    requires WellFormed(doc)
    ensures LinesFit(doc)
  {
    if doc != [] {
      var n := |doc| - 1;
      var t := doc[n];
      WellFormedFits(doc[..n]);
      assert GoodTable(t);
      forall k, j | 0 <= k <= n && 0 <= j < |t.entries|
        ensures !(t.path + [t.entries[j].key] <= doc[k].path) {
        assert !Shadows(doc[n], doc[k].path);
      }
      GoodEntriesFit(doc[..n], t.path, t.entries);
    }
  }

  // ---------------------------------------------------------------- whole documents

  lemma PrintingSoFar(es: seq<Entry>)
    requires es != []
    ensures EntriesPrinting(es) <==> EntriesPrinting(es[..|es| - 1]) && Printing(es[|es| - 1].value)
  {}

  lemma NextEntry(doc: Doc, h: Path, es: seq<Entry>)
    requires es != []
    ensures WithEntry(doc + [Table(h, es[..|es| - 1])], es[|es| - 1]) == doc + [Table(h, es)]
  {
    var front := doc + [Table(h, es[..|es| - 1])];
    assert front[..|doc|] == doc && front[|doc|] == Table(h, es[..|es| - 1]);
    assert es[..|es| - 1] + [es[|es| - 1]] == es;
  }

  lemma {:induction false} ReadEntries(isPrint: char -> bool, doc: Doc, h: Path, es: seq<Entry>)
    requires EntriesFit(doc, h, es) && EntriesPrinting(es)
    ensures ReadsTo(EntriesText(isPrint, es), doc + [Table(h, [])], doc + [Table(h, es)])
  {
    if es == [] {
      ReadsNothing(doc + [Table(h, [])]);
    } else {
      var front, last := es[..|es| - 1], es[|es| - 1];
      ReadEntries(isPrint, doc, h, front);
      ReadEntry(isPrint, doc + [Table(h, front)], last);
      NextEntry(doc, h, es);
      ThenReads(EntriesText(isPrint, front), EntryText(isPrint, last),
                doc + [Table(h, [])], doc + [Table(h, front)], doc + [Table(h, es)]);
    }
  }

  lemma {:induction false} MisreadEntries(isPrint: char -> bool, doc: Doc, h: Path, es: seq<Entry>)
    requires EntriesFit(doc, h, es) && !EntriesPrinting(es)
    ensures Misreads(EntriesText(isPrint, es), doc + [Table(h, [])], doc + [Table(h, es)])
  {
    var front, last := es[..|es| - 1], es[|es| - 1];
    NextEntry(doc, h, es);
    PrintingSoFar(es);
    if EntriesPrinting(front) {
      ReadEntries(isPrint, doc, h, front);
      MisreadEntry(isPrint, doc + [Table(h, front)], last);
      ThenMisreads(EntriesText(isPrint, front), EntryText(isPrint, last),
                   doc + [Table(h, [])], doc + [Table(h, front)], doc + [Table(h, es)]);
    } else {
      MisreadEntries(isPrint, doc, h, front);
      StaysMisread(EntriesText(isPrint, front), EntryText(isPrint, last),
                   doc + [Table(h, [])], doc + [Table(h, front)], doc + [Table(h, es)]);
    }
  }

  lemma LastTable(doc: Doc)
    requires doc != []
    ensures doc == doc[..|doc| - 1] + [doc[|doc| - 1]]
    ensures Continues(doc[..|doc| - 1], doc)
    ensures AllPrinting(doc) <==> AllPrinting(doc[..|doc| - 1]) && EntriesPrinting(doc[|doc| - 1].entries)
  {}

  lemma ReadTable(isPrint: char -> bool, front: Doc, t: Table)
    requires GoodPath(t.path) && TableFits(front, t.path)
    requires EntriesFit(front, t.path, t.entries) && EntriesPrinting(t.entries)
    ensures ReadsTo(TableText(isPrint, front == [], t), front, front + [t])
  {
    ReadHeader(front, t.path);
    ReadEntries(isPrint, front, t.path, t.entries);
    ThenReads(HeaderText(front == [], t.path), EntriesText(isPrint, t.entries),
              front, front + [Table(t.path, [])], front + [t]);
  }

  lemma MisreadTable(isPrint: char -> bool, front: Doc, t: Table)
    requires GoodPath(t.path) && TableFits(front, t.path)
    requires EntriesFit(front, t.path, t.entries) && !EntriesPrinting(t.entries)
    ensures Misreads(TableText(isPrint, front == [], t), front, front + [t])
  {
    ReadHeader(front, t.path);
    MisreadEntries(isPrint, front, t.path, t.entries);
    ThenMisreads(HeaderText(front == [], t.path), EntriesText(isPrint, t.entries),
                 front, front + [Table(t.path, [])], front + [t]);
  }

  lemma {:induction false} ReadTables(isPrint: char -> bool, doc: Doc)
    requires LinesFit(doc) && AllPrinting(doc)
    ensures ReadsTo(DocText(isPrint, doc), [], doc)
  {
    if doc == [] {
      ReadsNothing(doc);
    } else {
      var front, t := doc[..|doc| - 1], doc[|doc| - 1];
      LastTable(doc);
      ReadTables(isPrint, front);
      ReadTable(isPrint, front, t);
      ThenReads(DocText(isPrint, front), TableText(isPrint, front == [], t), [], front, doc);
    }
  }

  lemma {:induction false} MisreadTables(isPrint: char -> bool, doc: Doc)
    requires LinesFit(doc) && !AllPrinting(doc)
    ensures Misreads(DocText(isPrint, doc), [], doc)
  {
    var front, t := doc[..|doc| - 1], doc[|doc| - 1];
    LastTable(doc);
    if AllPrinting(front) {
      ReadTables(isPrint, front);
      MisreadTable(isPrint, front, t);
      ThenMisreads(DocText(isPrint, front), TableText(isPrint, front == [], t), [], front, doc);
    } else {
      MisreadTables(isPrint, front);
      StaysMisread(DocText(isPrint, front), TableText(isPrint, front == [], t), [], front, doc);
    }
  }

  /** A well-formed document reads back from its text exactly when every value is a printing value. */
  lemma DocRoundTrip(isPrint: char -> bool, doc: Doc)
    requires WellFormed(doc)
    ensures ReadDoc(DocText(isPrint, doc)) == Some(doc) <==> AllPrinting(doc)
  {
    var text := DocText(isPrint, doc);
    assert text + "" == text;
    WellFormedFits(doc);
    if AllPrinting(doc) {
      ReadTables(isPrint, doc);
    } else {
      MisreadTables(isPrint, doc);
      assert Continues(doc, doc);
    }
  }

  /** Equal files mean equal settings. */
  lemma TextDeterminesDoc(isPrint: char -> bool, d1: Doc, d2: Doc)
    requires WellFormed(d1) && WellFormed(d2) && AllPrinting(d1) && AllPrinting(d2)
    requires DocText(isPrint, d1) == DocText(isPrint, d2)
    ensures d1 == d2
  {
    DocRoundTrip(isPrint, d1);
    DocRoundTrip(isPrint, d2);
  }
}
