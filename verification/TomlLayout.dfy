/** How the section writers lay a file out: tables and key lines in a fixed order, each of them
    there or not. The buffer the writers share keeps the layout written so far as ghost state. */
module TomlLayout {
  import opened Options
  import opened Text
  import opened Toml
  import opened TomlDoc

  /** A key line, or its place when it is not written. */
  datatype Slot = Slot(key: string, value: Option<Value>)

  /** A table, or its place when it is not written. */
  datatype Section = Section(path: Path, slots: Option<seq<Slot>>)

  function Present(slots: seq<Slot>): seq<Entry> {
    if slots == [] then []
    else
      var last := slots[|slots| - 1];
      Present(slots[..|slots| - 1]) + (if last.value.Some? then [Entry(last.key, last.value.value)] else [])
  }

  function DocOf(sections: seq<Section>): Doc {
    if sections == [] then []
    else
      var last := sections[|sections| - 1];
      DocOf(sections[..|sections| - 1])
      + (if last.slots.Some? then [Table(last.path, Present(last.slots.value))] else [])
  }

  /** The sections that are there. */
  function Shown(sections: seq<Section>): seq<Section> {
    if sections == [] then []
    else Written(sections[0]) + Shown(sections[1..])
  }

  function Written(s: Section): seq<Section> {
    if s.slots.Some? then [s] else []
  }

  lemma ShownOne(s: Section)
    ensures Shown([s]) == Written(s)
  {
    assert Shown([s][1..]) == [];
  }

  lemma {:induction false} ShownConcat(a: seq<Section>, b: seq<Section>)
    ensures Shown(a + b) == Shown(a) + Shown(b)
  {
    if a == [] {
      assert a + b == b;
    } else {
      ShownConcat(a[1..], b);
      assert (a + b)[1..] == a[1..] + b && (a + b)[0] == a[0];
      var one := Written(a[0]);
      assert one + (Shown(a[1..]) + Shown(b)) == one + Shown(a[1..]) + Shown(b);
    }
  }

  lemma DocOfNext(sections: seq<Section>, s: Section)
    ensures DocOf(sections + [s])
         == DocOf(sections) + (if s.slots.Some? then [Table(s.path, Present(s.slots.value))] else [])
  {
    assert (sections + [s])[..|sections|] == sections;
  }

  lemma {:induction false} DocOfConcat(a: seq<Section>, b: seq<Section>)
    ensures DocOf(a + b) == DocOf(a) + DocOf(b)
  {
    if b == [] {
      assert a + b == a;
    } else {
      var front, last := b[..|b| - 1], b[|b| - 1];
      DocOfConcat(a, front);
      assert b == front + [last];
      assert a + b == (a + front) + [last];
      DocOfNext(a + front, last);
      DocOfNext(front, last);
    }
  }

  lemma {:induction false} DocOfShown(sections: seq<Section>)
    ensures DocOf(Shown(sections)) == DocOf(sections)
  {
    if sections != [] {
      var one, rest := [sections[0]], sections[1..];
      DocOfShown(rest);
      DocOfConcat(one, rest);
      assert sections == one + rest;
      assert [] + one == one;
      DocOfNext([], sections[0]);
      DocOfConcat(if sections[0].slots.Some? then one else [], Shown(rest));
    }
  }

  // ---------------------------------------------------------------- the writers' buffer

  ghost predicate IsDocOf(doc: Doc, sections: seq<Section>) {
    doc == DocOf(sections)
  }

  /** `data` is the text of the sections. (The quantifier keeps the text out of proofs that only pass
      the fact on.) */
  ghost predicate Prints(isPrint: char -> bool, data: string, sections: seq<Section>) {
    forall doc: Doc :: IsDocOf(doc, sections) ==> data == DocText(isPrint, doc)
  }

  lemma PrintsText(isPrint: char -> bool, data: string, sections: seq<Section>)
    ensures Prints(isPrint, data, sections) <==> data == DocText(isPrint, DocOf(sections))
  {
    assert IsDocOf(DocOf(sections), sections);
  }

  class Buffer {
    const isPrint: char -> bool
    var data: string
    ghost var done: seq<Section>
    ghost var path: Path  // of the table being written, [] before the first
    ghost var slots: seq<Slot>

    ghost predicate Valid()
      reads this
    {
      && (path == [] ==> done == [])
      && Prints(isPrint, data, Sections())
    }

    ghost function Sections(): seq<Section>
      reads this
    {
      if path == [] then done else done + [Section(path, Some(slots))]
    }

    constructor (isPrint: char -> bool)
      ensures Valid() && Sections() == [] && path == [] && this.isPrint == isPrint
    {
      this.isPrint := isPrint;
      data, done, path, slots := "", [], [], [];
      PrintsText(isPrint, "", []);
    }

    /** The line `[path]` that opens the file. */
    method OpenFirst(path: Path)
      requires Valid() && path != [] && this.path == []
      modifies this
      ensures Valid()
      ensures done == [] && this.path == path && slots == []
    {
      PrintsTable(isPrint, data, [], path);
      data := data + ("[" + Dotted(path) + "]\n");
      this.path, slots := path, [];
    }

    /** The line `[path]` of a later table, after an empty line. */
    method Open(path: Path)
      requires Valid() && path != [] && this.path != []
      modifies this
      ensures Valid()
      ensures done == old(Sections()) && this.path == path && slots == []
    {
      ghost var before := Sections();
      SectionsShow(before, this.path, slots);
      PrintsTable(isPrint, data, before, path);
      data := data + ("\n[" + Dotted(path) + "]\n");
      done, this.path, slots := before, path, [];
    }

    /** fmt.Fprintf(buf, "key = %v\n", v) with the verb of the value's kind. */
    method Line(key: string, v: Value)
      requires Valid() && path != []
      modifies this
      ensures Valid() && Appends(old(done), old(path), old(slots), Slot(key, Some(v)))
    {
      PrintsLine(isPrint, data, done, path, slots, key, v);
      data := data + (key + " = " + ValueText(isPrint, v) + "\n");
      slots := slots + [Slot(key, Some(v))];
    }

    /** The line is not written; only its place is recorded. */
    ghost method Skip(key: string)
      requires Valid() && path != []
      modifies this
      ensures Valid() && data == old(data) && Appends(old(done), old(path), old(slots), Slot(key, None))
    {
      PrintsSkip(isPrint, data, done, path, slots, key);
      slots := slots + [Slot(key, None)];
    }

    ghost predicate Appends(done0: seq<Section>, path0: Path, slots0: seq<Slot>, slot: Slot)
      reads this
    {
      done == done0 && path == path0 && slots == slots0 + [slot]
    }

    ghost predicate Grows(done0: seq<Section>, path0: Path, slots0: seq<Slot>, more: seq<Slot>)
      reads this
    {
      done == done0 && path == path0 && slots == slots0 + more
    }

    method Text(key: string, s: string)
      requires Valid() && path != []
      modifies this
      ensures Valid() && Appends(old(done), old(path), old(slots), Slot(key, Some(Str(s))))
    {
      Line(key, Str(s));
    }

    method Number(key: string, n: int)
      requires Valid() && path != []
      modifies this
      ensures Valid() && Appends(old(done), old(path), old(slots), Slot(key, Some(Num(n))))
    {
      Line(key, Num(n));
    }

    /** `if s != "" { ... }` */
    method TextIfSet(key: string, s: string)
      requires Valid() && path != []
      modifies this
      ensures Valid() && Appends(old(done), old(path), old(slots), SetText(key, s))
    {
      if s != "" {
        Line(key, Str(s));
      } else {
        Skip(key);
      }
    }

    /** `if p != nil { ... *p ... }` */
    method NumberIfSet(key: string, n: Option<int>)
      requires Valid() && path != []
      modifies this
      ensures Valid() && Appends(old(done), old(path), old(slots), SetNumber(key, n))
    {
      if n.Some? {
        Line(key, Num(n.value));
      } else {
        Skip(key);
      }
    }

    method FeeIfSet(key: string, m: Option<int>)
      requires Valid() && path != []
      modifies this
      ensures Valid() && Appends(old(done), old(path), old(slots), SetFee(key, m))
    {
      if m.Some? {
        Line(key, Fixed(m.value));
      } else {
        Skip(key);
      }
    }

    method FlagIfSet(key: string, b: Option<bool>)
      requires Valid() && path != []
      modifies this
      ensures Valid() && Appends(old(done), old(path), old(slots), SetFlag(key, b))
    {
      if b.Some? {
        Line(key, Flag(b.value));
      } else {
        Skip(key);
      }
    }

    /** `if condition { ... }` around one line. */
    method LineIf(condition: bool, key: string, v: Value)
      requires Valid() && path != []
      modifies this
      ensures Valid() && Appends(old(done), old(path), old(slots), When(condition, key, v))
    {
      if condition {
        Line(key, v);
      } else {
        Skip(key);
      }
    }
  }

  function When(condition: bool, key: string, v: Value): Slot {
    Slot(key, if condition then Some(v) else None)
  }

  function SetText(key: string, s: string): Slot {
    When(s != "", key, Str(s))
  }

  function SetNumber(key: string, n: Option<int>): Slot {
    Slot(key, if n.Some? then Some(Num(n.value)) else None)
  }

  function SetFee(key: string, m: Option<int>): Slot {
    Slot(key, if m.Some? then Some(Fixed(m.value)) else None)
  }

  function SetFlag(key: string, b: Option<bool>): Slot {
    Slot(key, if b.Some? then Some(Flag(b.value)) else None)
  }

  function Always(key: string, v: Value): Slot {
    Slot(key, Some(v))
  }

  // ---------------------------------------------------------------- the text of one more line

  /** A table that is being written is there. */
  lemma SectionsShow(sections: seq<Section>, path: Path, slots: seq<Slot>)
    ensures sections != [] && sections[|sections| - 1] == Section(path, Some(slots)) ==> DocOf(sections) != []
  {}

  lemma TextOfTable(isPrint: char -> bool, doc: Doc, path: Path)
    ensures DocText(isPrint, doc + [Table(path, [])]) == DocText(isPrint, doc) + HeaderText(doc == [], path)
  {
    assert (doc + [Table(path, [])])[..|doc|] == doc;
    assert EntriesText(isPrint, []) == "";
    assert HeaderText(doc == [], path) + "" == HeaderText(doc == [], path);
  }

  lemma PresentNext(slots: seq<Slot>, slot: Slot)
    ensures Present(slots + [slot])
         == Present(slots) + (if slot.value.Some? then [Entry(slot.key, slot.value.value)] else [])
  {
    assert (slots + [slot])[..|slots|] == slots;
  }

  lemma TextOfLine(isPrint: char -> bool, done: seq<Section>, path: Path, slots: seq<Slot>, key: string, v: Value)
    ensures DocText(isPrint, DocOf(done + [Section(path, Some(slots + [Slot(key, Some(v))]))]))
         == DocText(isPrint, DocOf(done + [Section(path, Some(slots))])) + EntryText(isPrint, Entry(key, v))
  {
    DocOfNext(done, Section(path, Some(slots)));
    DocOfNext(done, Section(path, Some(slots + [Slot(key, Some(v))])));
    PresentNext(slots, Slot(key, Some(v)));
    TextOfEntry(isPrint, DocOf(done), path, Present(slots), Entry(key, v));
  }

  lemma TextOfSkip(done: seq<Section>, path: Path, slots: seq<Slot>, key: string)
    ensures DocOf(done + [Section(path, Some(slots + [Slot(key, None)]))]) == DocOf(done + [Section(path, Some(slots))])
  {
    DocOfNext(done, Section(path, Some(slots)));
    DocOfNext(done, Section(path, Some(slots + [Slot(key, None)])));
    PresentNext(slots, Slot(key, None));
    assert Present(slots) + [] == Present(slots);
  }

  lemma TextOfEntry(isPrint: char -> bool, doc: Doc, path: Path, es: seq<Entry>, e: Entry)
    ensures DocText(isPrint, doc + [Table(path, es + [e])])
         == DocText(isPrint, doc + [Table(path, es)]) + EntryText(isPrint, e)
  {
    var first := doc == [];
    assert (doc + [Table(path, es)])[..|doc|] == doc && (doc + [Table(path, es + [e])])[..|doc|] == doc;
    assert (es + [e])[..|es|] == es;
    var d, h, t, x := DocText(isPrint, doc), HeaderText(first, path), EntriesText(isPrint, es), EntryText(isPrint, e);
    assert EntriesText(isPrint, es + [e]) == t + x;
    assert d + (h + (t + x)) == d + (h + t) + x;
  }

  lemma PrintsTable(isPrint: char -> bool, data: string, done: seq<Section>, path: Path)
    requires Prints(isPrint, data, done)
    ensures Prints(isPrint, data + HeaderText(DocOf(done) == [], path), done + [Section(path, Some([]))])
  {
    PrintsText(isPrint, data, done);
    TextOfTable(isPrint, DocOf(done), path);
    DocOfNext(done, Section(path, Some([])));
    PrintsText(isPrint, data + HeaderText(DocOf(done) == [], path), done + [Section(path, Some([]))]);
  }

  lemma PrintsLine(isPrint: char -> bool, data: string, done: seq<Section>, path: Path, slots: seq<Slot>, key: string,
      v: Value)
    requires Prints(isPrint, data, done + [Section(path, Some(slots))])
    ensures Prints(isPrint, data + EntryText(isPrint, Entry(key, v)),
            done + [Section(path, Some(slots + [Slot(key, Some(v))]))])
  {
    PrintsText(isPrint, data, done + [Section(path, Some(slots))]);
    TextOfLine(isPrint, done, path, slots, key, v);
    PrintsText(isPrint, data + EntryText(isPrint, Entry(key, v)),
        done + [Section(path, Some(slots + [Slot(key, Some(v))]))]);
  }

  lemma PrintsSkip(isPrint: char -> bool, data: string, done: seq<Section>, path: Path, slots: seq<Slot>, key: string)
    requires Prints(isPrint, data, done + [Section(path, Some(slots))])
    ensures Prints(isPrint, data, done + [Section(path, Some(slots + [Slot(key, None)]))])
  {
    PrintsText(isPrint, data, done + [Section(path, Some(slots))]);
    TextOfSkip(done, path, slots, key);
    PrintsText(isPrint, data, done + [Section(path, Some(slots + [Slot(key, None)]))]);
  }

  // ---------------------------------------------------------------- well-formed layouts

  predicate HasSlot(slots: seq<Slot>, key: string) {
    exists j | 0 <= j < |slots| :: slots[j].key == key
  }

  predicate GoodSlots(slots: seq<Slot>) {
    && (forall i | 0 <= i < |slots| :: BareKey(slots[i].key))
    && (forall i, j | 0 <= i < j < |slots| :: slots[i].key != slots[j].key)
  }

  predicate Covers(s: Section, path: Path) {
    s.slots.Some? && exists j | 0 <= j < |s.slots.value| :: s.path + [s.slots.value[j].key] <= path
  }

  /** Whatever is left out of it, the file is well formed. */
  predicate GoodLayout(ss: seq<Section>) {
    && (forall i, j | 0 <= i < j < |ss| :: ss[i].path != ss[j].path)
    && (forall i | 0 <= i < |ss| :: GoodPath(ss[i].path) && (ss[i].slots.Some? ==> GoodSlots(ss[i].slots.value)))
    && (forall i, k | 0 <= i < |ss| && 0 <= k < |ss| :: !Covers(ss[i], ss[k].path))
  }

  lemma {:induction false} PresentGood(slots: seq<Slot>)
    requires GoodSlots(slots)
    ensures var es := Present(slots);
            && BareKeys(es) && DistinctKeys(es)
            && forall j | 0 <= j < |es| :: HasSlot(slots, es[j].key)
  {
    if slots != [] {
      var front, last := slots[..|slots| - 1], slots[|slots| - 1];
      PresentGood(front);
      var es := Present(front);
      forall j | 0 <= j < |es| ensures es[j].key != last.key && HasSlot(slots, es[j].key) {
        var k :| 0 <= k < |front| && front[k].key == es[j].key;
        assert slots[k] == front[k];
      }
      assert slots[|slots| - 1].key == last.key;
    }
  }

  /** A table of the document comes from a section of the layout. */
  predicate Comes(t: Table, ss: seq<Section>) {
    exists i | 0 <= i < |ss| :: ss[i].slots.Some? && ss[i].path == t.path && Present(ss[i].slots.value) == t.entries
  }

  lemma {:induction false} DocComes(ss: seq<Section>)
    ensures forall k | 0 <= k < |DocOf(ss)| :: Comes(DocOf(ss)[k], ss)
  {
    if ss != [] {
      var front, last := ss[..|ss| - 1], ss[|ss| - 1];
      DocComes(front);
      var doc := DocOf(ss);
      forall k | 0 <= k < |doc| ensures Comes(doc[k], ss) {
        if k < |DocOf(front)| {
          assert doc[k] == DocOf(front)[k];
          var i :| 0 <= i < |front| && front[i].slots.Some? && front[i].path == doc[k].path
                   && Present(front[i].slots.value) == doc[k].entries;
          assert ss[i] == front[i];
        } else {
          assert ss[|ss| - 1] == last;
        }
      }
    }
  }

  predicate DistinctPaths(d: Doc) {
    forall i, j | 0 <= i < j < |d| :: d[i].path != d[j].path
  }

  lemma {:induction false} DistinctTables(ss: seq<Section>)
    requires forall i, j | 0 <= i < j < |ss| :: ss[i].path != ss[j].path
    ensures DistinctPaths(DocOf(ss))
  {
    if ss != [] {
      var front, last := ss[..|ss| - 1], ss[|ss| - 1];
      var d := DocOf(front);
      DistinctTables(front);
      DocComes(front);
      forall k | 0 <= k < |d| ensures d[k].path != last.path {
        assert Comes(d[k], front);
        var i :| 0 <= i < |front| && front[i].slots.Some? && front[i].path == d[k].path
            && Present(front[i].slots.value) == d[k].entries;
        assert ss[i] == front[i];
      }
      if last.slots.Some? {
        assert DocOf(ss) == d + [Table(last.path, Present(last.slots.value))];
      }
    }
  }

  lemma LayoutWellFormed(ss: seq<Section>)
    requires GoodLayout(ss)
    ensures WellFormed(DocOf(ss))
  {
    var d := DocOf(ss);
    DistinctTables(ss);
    DocComes(ss);
    forall i | 0 <= i < |d| ensures GoodTable(d[i]) {
      assert Comes(d[i], ss);
      var a :| 0 <= a < |ss| && ss[a].slots.Some? && ss[a].path == d[i].path
          && Present(ss[a].slots.value) == d[i].entries;
      PresentGood(ss[a].slots.value);
    }
    forall i, k | 0 <= i < |d| && 0 <= k < |d| ensures !Shadows(d[i], d[k].path) {
      assert Comes(d[i], ss) && Comes(d[k], ss);
      NoShadow(ss, d[i], d[k]);
    }
  }

  lemma NoShadow(ss: seq<Section>, t: Table, u: Table)
    requires GoodLayout(ss) && Comes(t, ss) && Comes(u, ss)
    ensures !Shadows(t, u.path)
  {
    var a :| 0 <= a < |ss| && ss[a].slots.Some? && ss[a].path == t.path && Present(ss[a].slots.value) == t.entries;
    var b :| 0 <= b < |ss| && ss[b].slots.Some? && ss[b].path == u.path && Present(ss[b].slots.value) == u.entries;
    var slots := ss[a].slots.value;
    PresentGood(slots);
    if j :| 0 <= j < |t.entries| && t.path + [t.entries[j].key] <= u.path {
      assert HasSlot(slots, t.entries[j].key);
      var k :| 0 <= k < |slots| && slots[k].key == t.entries[j].key;
      assert ss[a].path + [slots[k].key] <= ss[b].path;
      assert Covers(ss[a], ss[b].path);
    }
  }

  // ---------------------------------------------------------------- looking settings up

  function EntryValue(es: seq<Entry>, key: string): Option<Value> {
    if es == [] then None
    else if es[|es| - 1].key == key then Some(es[|es| - 1].value)
    else EntryValue(es[..|es| - 1], key)
  }

  function FindTable(doc: Doc, path: Path): Option<Table> {
    if doc == [] then None
    else if doc[|doc| - 1].path == path then Some(doc[|doc| - 1])
    else FindTable(doc[..|doc| - 1], path)
  }

  /** The value a program that loads the file finds for a dotted name. */
  function Lookup(doc: Doc, path: Path, key: string): Option<Value> {
    var t := FindTable(doc, path);
    if t.None? then None else EntryValue(t.value.entries, key)
  }

  lemma EntryValueNext(es: seq<Entry>, e: Entry, key: string)
    ensures EntryValue(es + [e], key) == if e.key == key then Some(e.value) else EntryValue(es, key)
  {
    assert (es + [e])[..|es|] == es;
  }

  lemma FindTableNext(doc: Doc, t: Table, path: Path)
    ensures FindTable(doc + [t], path) == if t.path == path then Some(t) else FindTable(doc, path)
  {
    assert (doc + [t])[..|doc|] == doc;
  }

  lemma {:induction false} PresentValue(slots: seq<Slot>, j: nat)
    requires GoodSlots(slots) && j < |slots|
    ensures EntryValue(Present(slots), slots[j].key) == slots[j].value
  {
    var front, last := slots[..|slots| - 1], slots[|slots| - 1];
    var es := Present(front);
    if last.value.Some? {
      EntryValueNext(es, Entry(last.key, last.value.value), slots[j].key);
    } else {
      assert es + [] == es;
    }
    if j < |front| {
      PresentValue(front, j);
      assert front[j] == slots[j];
    } else if last.value.None? {
      PresentGood(front);
      EntryAbsent(es, front, last.key);
    }
  }

  lemma {:induction false} EntryAbsent(es: seq<Entry>, slots: seq<Slot>, key: string)
    requires forall j | 0 <= j < |es| :: HasSlot(slots, es[j].key)
    requires forall j | 0 <= j < |slots| :: slots[j].key != key
    ensures EntryValue(es, key) == None
  {
    if es != [] {
      EntryAbsent(es[..|es| - 1], slots, key);
    }
  }

  lemma {:induction false} TableAbsent(ss: seq<Section>, path: Path)
    requires forall j | 0 <= j < |ss| :: ss[j].path != path
    ensures FindTable(DocOf(ss), path) == None
  {
    if ss != [] {
      var front, last := ss[..|ss| - 1], ss[|ss| - 1];
      TableAbsent(front, path);
      var d := DocOf(front);
      if last.slots.Some? {
        FindTableNext(d, Table(last.path, Present(last.slots.value)), path);
      } else {
        assert d + [] == d;
      }
    }
  }

  lemma {:induction false} SectionTable(ss: seq<Section>, i: nat)
    requires forall a, b | 0 <= a < b < |ss| :: ss[a].path != ss[b].path
    requires i < |ss|
    ensures FindTable(DocOf(ss), ss[i].path)
         == if ss[i].slots.Some? then Some(Table(ss[i].path, Present(ss[i].slots.value))) else None
  {
    var front, last := ss[..|ss| - 1], ss[|ss| - 1];
    var d := DocOf(front);
    if last.slots.Some? {
      FindTableNext(d, Table(last.path, Present(last.slots.value)), ss[i].path);
    } else {
      assert d + [] == d;
    }
    if i < |front| {
      SectionTable(front, i);
      assert front[i] == ss[i] && ss[i].path != ss[|ss| - 1].path;
    } else {
      TableAbsent(front, last.path);
    }
  }

  /** What a layout says about a name is what its document says. */
  lemma SlotLookup(ss: seq<Section>, i: nat, j: nat)
    requires GoodLayout(ss) && i < |ss| && ss[i].slots.Some? && j < |ss[i].slots.value|
    ensures Lookup(DocOf(ss), ss[i].path, ss[i].slots.value[j].key) == ss[i].slots.value[j].value
  {
    SectionTable(ss, i);
    PresentValue(ss[i].slots.value, j);
  }

  lemma MissingLookup(ss: seq<Section>, i: nat, key: string)
    requires GoodLayout(ss) && i < |ss| && ss[i].slots.None?
    ensures Lookup(DocOf(ss), ss[i].path, key) == None
  {
    SectionTable(ss, i);
  }
}
