/** The BIP-39 encoder of internal/controller/generators/mnemonic.go and the decoder its tests
    describe. Entropy and checksum are read as one big number that a loop eats from its low end,
    eleven bits at a time; the laws below say which 264 bits the words carry and that nothing is
    lost on the way back. */
module Mnemonic {
  import opened Options
  import opened Text

  type Byte = n: nat | n < 256

  type Index = n: nat | n < 2048

  const ENTROPY_BYTES: nat := 32
  const WORD_COUNT: nat := 24
  const WORD_BITS: nat := 11
  const TABLE_SIZE: nat := 2048

  // ---------------------------------------------------------------- bits

  function Pow2(k: nat): (p: nat)
    ensures p > 0
  {
    if k == 0 then 1 else 2 * Pow2(k - 1)
  }

  /** The `width` low bits of `v`, most significant first. */
  function Bits(v: nat, width: nat): (b: seq<bool>)
    ensures |b| == width
  {
    if width == 0 then [] else Bits(v / 2, width - 1) + [v % 2 == 1]
  }

  function NatOfBits(b: seq<bool>): nat {
    if b == [] then 0 else 2 * NatOfBits(b[..|b| - 1]) + (if b[|b| - 1] then 1 else 0)
  }

  /** The length of `n` groups of `width` bits, by addition. */
  function Span(n: nat, width: nat): nat {
    if n == 0 then 0 else Span(n - 1, width) + width
  }

  lemma SpanOf11And8(n: nat)
    ensures Span(n, 11) == 11 * n && Span(n, 8) == 8 * n
  {}

  /** Every digit written on `width` bits, one after the other. */
  function BitString(digits: seq<nat>, width: nat): (b: seq<bool>)
    ensures |b| == Span(|digits|, width)
  {
    if digits == [] then [] else BitString(digits[..|digits| - 1], width) + Bits(digits[|digits| - 1], width)
  }

  predicate Fit(digits: seq<nat>, bound: nat) {
    forall i | 0 <= i < |digits| :: digits[i] < bound
  }

  /** The number whose base-2^width digits are given, most significant first. */
  function ValueOf(digits: seq<nat>, width: nat): nat {
    if digits == [] then 0
    else ValueOf(digits[..|digits| - 1], width) * Pow2(width) + digits[|digits| - 1]
  }

  lemma {:induction false} BitsOfNumber(b: seq<bool>)
    ensures NatOfBits(b) < Pow2(|b|)
    ensures Bits(NatOfBits(b), |b|) == b
  {
    if b != [] {
      BitsOfNumber(b[..|b| - 1]);
    }
  }

  lemma {:induction false} NumberOfBits(v: nat, width: nat)
    requires v < Pow2(width)
    ensures NatOfBits(Bits(v, width)) == v
  {
    if width != 0 {
      NumberOfBits(v / 2, width - 1);
      assert Bits(v, width)[..width - 1] == Bits(v / 2, width - 1);
    }
  }

  lemma {:induction false} BitsConcat(high: nat, low: nat, lowWidth: nat, highWidth: nat)
    requires low < Pow2(lowWidth)
    ensures Bits(high * Pow2(lowWidth) + low, highWidth + lowWidth) == Bits(high, highWidth) + Bits(low, lowWidth)
  {
    if lowWidth == 0 {
      assert high * Pow2(0) == high;
      assert Bits(high, highWidth) + [] == Bits(high, highWidth);
    } else {
      var p, n := Pow2(lowWidth - 1), high * Pow2(lowWidth) + low;
      assert high * Pow2(lowWidth) == 2 * (high * p);
      assert n / 2 == high * p + low / 2 && n % 2 == low % 2;
      BitsConcat(high, low / 2, lowWidth - 1, highWidth);
      assert Bits(n, highWidth + lowWidth) == Bits(n / 2, highWidth + lowWidth - 1) + [n % 2 == 1];
      assert Bits(low, lowWidth) == Bits(low / 2, lowWidth - 1) + [low % 2 == 1];
    }
  }

  lemma {:induction false} BitsOfDigits(digits: seq<nat>, width: nat)
    requires Fit(digits, Pow2(width))
    ensures BitString(digits, width) == Bits(ValueOf(digits, width), Span(|digits|, width))
  {
    if digits != [] {
      var front, last := digits[..|digits| - 1], digits[|digits| - 1];
      BitsOfDigits(front, width);
      BitsConcat(ValueOf(front, width), last, width, Span(|front|, width));
    }
  }

  lemma {:induction false} ValueBound(digits: seq<nat>, width: nat)
    requires Fit(digits, Pow2(width))
    ensures ValueOf(digits, width) < Pow2(Span(|digits|, width))
  {
    if digits != [] {
      var front, last := digits[..|digits| - 1], digits[|digits| - 1];
      ValueBound(front, width);
      Pow2Sum(Span(|front|, width), width);
      Shifted(ValueOf(front, width), Pow2(Span(|front|, width)), last, Pow2(width));
    }
  }

  lemma Shifted(high: nat, bound: nat, low: nat, base: nat)
    requires high < bound && low < base
    ensures high * base + low < bound * base
  {
    assert (high + 1) * base <= bound * base;
  }

  lemma {:induction false} Pow2Sum(a: nat, b: nat)
    ensures Pow2(a + b) == Pow2(a) * Pow2(b)
  {
    if b != 0 {
      Pow2Sum(a, b - 1);
    }
  }

  lemma {:induction false} BitStringConcat(a: seq<nat>, b: seq<nat>, width: nat)
    ensures BitString(a + b, width) == BitString(a, width) + BitString(b, width)
  {
    if b == [] {
      assert a + b == a;
    } else {
      var front, last := b[..|b| - 1], b[|b| - 1];
      calc {
        BitString(a + b, width);
        { assert a + b == (a + front) + [last]; BitStringSnoc(a + front, last, width); }
        BitString(a + front, width) + Bits(last, width);
        { BitStringConcat(a, front, width); }
        BitString(a, width) + BitString(front, width) + Bits(last, width);
        BitString(a, width) + (BitString(front, width) + Bits(last, width));
        { assert b == front + [last]; BitStringSnoc(front, last, width); }
        BitString(a, width) + BitString(b, width);
      }
    }
  }

  lemma BitStringSnoc(a: seq<nat>, d: nat, width: nat)
    ensures BitString(a + [d], width) == BitString(a, width) + Bits(d, width)
  {
    assert (a + [d])[..|a|] == a;
  }

  /** Digits of equal width are determined by their bit string. */
  lemma {:induction false} BitStringInjective(a: seq<nat>, b: seq<nat>, width: nat)
    requires |a| == |b| && Fit(a, Pow2(width)) && Fit(b, Pow2(width))
    requires BitString(a, width) == BitString(b, width)
    ensures a == b
  {
    if a != [] {
      var a', b', x, y := a[..|a| - 1], b[..|b| - 1], a[|a| - 1], b[|b| - 1];
      SameSuffix(BitString(a', width), BitString(b', width), Bits(x, width), Bits(y, width));
      BitStringInjective(a', b', width);
      SameDigit(x, y, width);
      assert a == a' + [x] && b == b' + [y];
    }
  }

  lemma SameDigit(x: nat, y: nat, width: nat)
    requires x < Pow2(width) && y < Pow2(width) && Bits(x, width) == Bits(y, width)
    ensures x == y
  {
    NumberOfBits(x, width);
    NumberOfBits(y, width);
  }

  lemma SameSuffix<T>(a: seq<T>, b: seq<T>, x: seq<T>, y: seq<T>)
    requires |x| == |y| && a + x == b + y
    ensures a == b && x == y
  {
    assert a == (a + x)[..|a|] && b == (b + y)[..|b|];
    assert x == (a + x)[|a|..] && y == (b + y)[|b|..];
  }

  // ---------------------------------------------------------------- words

  predicate IsSpace(c: char) {
    c in " \t\n\r" || c as int in {0x0B, 0x0C, 0x85, 0xA0}
  }

  predicate SpaceFree(words: seq<string>) {
    forall i | 0 <= i < |words| :: words[i] != "" && forall j | 0 <= j < |words[i]| :: !IsSpace(words[i][j])
  }

  /** What the encoder relies on: 2048 distinct, non-empty words without white space. */
  ghost predicate WordTable(table: seq<string>) {
    && |table| == TABLE_SIZE
    && (forall i, j | 0 <= i < j < |table| :: table[i] != table[j])
    && SpaceFree(table)
  }

  function Join(words: seq<string>): string {
    if |words| == 0 then "" else if |words| == 1 then words[0]
    else words[0] + " " + Join(words[1..])
  }

  // ---------------------------------------------------------------- the text, character by character

  /** The characters of the words, without what stands between them. */
  function LetterCount(words: seq<string>): nat {
    if words == [] then 0 else LetterCount(words[..|words| - 1]) + |words[|words| - 1]|
  }

  /** Where word number i begins: behind the words before it, each followed by one character. */
  function Offset(words: seq<string>, i: nat): nat
    requires i <= |words|
  {
    LetterCount(words[..i]) + i
  }

  /** The words in order, one space between each two of them, and nothing else. */
  ghost predicate Sentence(text: string, words: seq<string>) {
    && |text| + 1 == LetterCount(words) + |words|
    && (forall i | 0 <= i < |words| :: StandsAt(text, Offset(words, i), words[i]))
    && (forall i | 0 <= i < |words| - 1 ::
          Offset(words, i) + |words[i]| < |text| && text[Offset(words, i) + |words[i]|] == ' ')
  }

  lemma LetterCountNext(words: seq<string>, w: string)
    ensures LetterCount(words + [w]) == LetterCount(words) + |w|
  {
    assert (words + [w])[..|words|] == words;
  }

  lemma {:induction false} LetterCountFirst(words: seq<string>)
    requires words != []
    ensures LetterCount(words) == |words[0]| + LetterCount(words[1..])
  {
    var front, last := words[..|words| - 1], words[|words| - 1];
    if |words| > 1 {
      LetterCountFirst(front);
      assert words[1..] == front[1..] + [last];
      LetterCountNext(front[1..], last);
    } else {
      assert words[1..] == [] && words[..0] == [];
    }
  }

  lemma OffsetNext(words: seq<string>, i: nat)
    requires 1 <= i <= |words|
    ensures Offset(words, i) == |words[0]| + 1 + Offset(words[1..], i - 1)
  {
    LetterCountFirst(words[..i]);
    assert words[..i][1..] == words[1..][..i - 1];
  }

  /** Word number i of the text. */
  predicate StandsAt(text: string, o: nat, w: string) {
    o + |w| <= |text| && text[o..][..|w|] == w
  }

  lemma StandsLater(front: string, text: string, o: nat, w: string)
    requires StandsAt(text, o, w)
    ensures StandsAt(front + text, |front| + o, w)
  {
    var s := front + text;
    assert s[|front| + o..] == text[o..];
  }

  lemma SpaceLater(front: string, text: string, k: nat)
    requires k < |text| && text[k] == ' '
    ensures (front + text)[|front| + k] == ' '
  {}

  lemma FirstWord(w: string, text: string)
    ensures StandsAt(w + " " + text, 0, w) && (w + " " + text)[|w|] == ' '
  {
    var s := w + " " + text;
    assert s[0..][..|w|] == w;
  }

  /** One word more in front. */
  lemma SentenceCons(text: string, words: seq<string>)
    requires |words| > 1 && Sentence(text, words[1..])
    ensures Sentence(words[0] + " " + text, words)
  {
    var front, rest := words[0] + " ", words[1..];
    LetterCountFirst(words);
    FirstWord(words[0], text);
    assert words[..0] == [];
    forall i | 1 <= i < |words| ensures StandsAt(front + text, Offset(words, i), words[i]) {
      OffsetNext(words, i);
      assert rest[i - 1] == words[i];
      StandsLater(front, text, Offset(rest, i - 1), words[i]);
    }
    forall i | 1 <= i < |words| - 1
      ensures Offset(words, i) + |words[i]| < |front + text| && (front + text)[Offset(words, i) + |words[i]|] == ' '
    {
      OffsetNext(words, i);
      assert rest[i - 1] == words[i];
      SpaceLater(front, text, Offset(rest, i - 1) + |words[i]|);
    }
  }

  lemma {:induction false} JoinIsSentence(words: seq<string>)
    requires words != []
    ensures Sentence(Join(words), words)
  {
    if |words| == 1 {
      var w := words[0];
      assert words[..0] == [] && w[0..][..|w|] == w && StandsAt(w, 0, w);
    } else {
      JoinIsSentence(words[1..]);
      SentenceCons(Join(words[1..]), words);
    }
  }

  lemma {:induction false} JoinSpaces(words: seq<string>, k: nat)
    requires SpaceFree(words) && k < |Join(words)| && IsSpace(Join(words)[k])
    ensures Join(words)[k] == ' '
  {
    if |words| > 1 {
      var w := words[0];
      if k > |w| {
        JoinSpaces(words[1..], k - |w| - 1);
      }
    }
  }

  function WordEnd(s: string): (n: nat)
    ensures n <= |s|
    ensures forall i | 0 <= i < n :: !IsSpace(s[i])
    ensures n < |s| ==> IsSpace(s[n])
  {
    if s == "" || IsSpace(s[0]) then 0 else 1 + WordEnd(s[1..])
  }

  /** strings.Fields: the maximal runs without white space. */
  function Fields(s: string): seq<string>
    decreases |s|
  {
    if s == "" then []
    else if IsSpace(s[0]) then Fields(s[1..])
    else
      var n := WordEnd(s);
      [s[..n]] + Fields(s[n..])
  }

  lemma {:induction false} FieldsOfJoin(words: seq<string>)
    requires SpaceFree(words)
    ensures Fields(Join(words)) == words
  {
    if |words| == 1 {
      var w := words[0];
      assert WordEnd(w) == |w|;
      assert w[..|w|] == w && w[|w|..] == "";
      assert Fields(w) == [w] + Fields("");
    } else if |words| > 1 {
      var w, rest := words[0], Join(words[1..]);
      var s := w + " " + rest;
      FieldsOfJoin(words[1..]);
      assert s == Join(words);
      assert forall i | 0 <= i < |w| :: s[i] == w[i];
      assert s[|w|] == ' ';
      assert WordEnd(s) == |w|;
      assert s[..|w|] == w && s[|w|..] == " " + rest;
      assert (" " + rest)[1..] == rest;
    }
  }

  function IndexOf(table: seq<string>, word: string): (i: Option<nat>)
    ensures i.Some? ==> i.value < |table| && table[i.value] == word
    ensures i.None? ==> word !in table
  {
    if table == [] then None
    else if table[|table| - 1] == word then Some(|table| - 1)
    else IndexOf(table[..|table| - 1], word)
  }

  function Indices(table: seq<string>, words: seq<string>): (r: Option<seq<Index>>)
    requires |table| == TABLE_SIZE
    ensures r.Some? ==> |r.value| == |words|
    ensures r.Some? ==> forall i | 0 <= i < |words| :: table[r.value[i]] == words[i]
  {
    if words == [] then Some([])
    else
      var rest, last := Indices(table, words[..|words| - 1]), IndexOf(table, words[|words| - 1]);
      if rest.None? || last.None? then None else Some(rest.value + [last.value])
  }

  function WordsAt(table: seq<string>, indices: seq<Index>): (words: seq<string>)
    requires |table| == TABLE_SIZE
    ensures |words| == |indices|
  {
    seq(|indices|, i requires 0 <= i < |indices| => table[indices[i]])
  }

  lemma {:induction false} IndicesOfWords(table: seq<string>, indices: seq<Index>)
    requires WordTable(table)
    ensures Indices(table, WordsAt(table, indices)) == Some(indices)
  {
    if indices != [] {
      var n := |indices| - 1;
      IndicesOfWords(table, indices[..n]);
      var words := WordsAt(table, indices);
      assert words[..n] == WordsAt(table, indices[..n]);
      assert words[n] == table[indices[n]];
      assert indices == indices[..n] + [indices[n]];
    }
  }

  // ---------------------------------------------------------------- encoder and decoder

  /** The 33 digits the encoder starts from: the entropy and the first byte of its hash. */
  function WithChecksum(entropy: seq<Byte>, checksum: seq<Byte> -> Byte): seq<Byte> {
    entropy + [checksum(entropy)]
  }

  lemma Quotient(n: nat, bound: nat)
    requires n < bound * TABLE_SIZE
    ensures n / TABLE_SIZE < bound
    ensures n == n / TABLE_SIZE * TABLE_SIZE + n % TABLE_SIZE
  {}

  lemma LowWord(n: nat, width: nat)
    ensures Bits(n, width + WORD_BITS) == Bits(n / TABLE_SIZE, width) + Bits(n % TABLE_SIZE, WORD_BITS)
  {
    EightBits();
    assert n == n / TABLE_SIZE * TABLE_SIZE + n % TABLE_SIZE;
    BitsConcat(n / TABLE_SIZE, n % TABLE_SIZE, WORD_BITS, width);
  }

  /** One turn of the loop: eleven bits leave the number at its low end and become the next index. */
  lemma NextIndex(combined: nat, i: nat, indices: seq<nat>)
    requires combined < Pow2(WORD_BITS * (i + 1))
    ensures combined / TABLE_SIZE < Pow2(WORD_BITS * i)
    ensures Bits(combined, WORD_BITS * (i + 1)) + BitString(indices, WORD_BITS)
         == Bits(combined / TABLE_SIZE, WORD_BITS * i) + BitString([combined % TABLE_SIZE] + indices, WORD_BITS)
  {
    var rest, idx := combined / TABLE_SIZE, combined % TABLE_SIZE;
    OneWordLess(combined, i);
    LowWord(combined, WORD_BITS * i);
    IndexInFront(idx, indices);
    Joined(Bits(rest, WORD_BITS * i), Bits(idx, WORD_BITS), BitString(indices, WORD_BITS));
  }

  lemma Joined<T>(a: seq<T>, b: seq<T>, c: seq<T>)
    ensures a + b + c == a + (b + c)
  {}

  lemma OneWordLess(combined: nat, i: nat)
    requires combined < Pow2(WORD_BITS * (i + 1))
    ensures combined / TABLE_SIZE < Pow2(WORD_BITS * i)
  {
    EightBits();
    Pow2Sum(WORD_BITS * i, WORD_BITS);
    Quotient(combined, Pow2(WORD_BITS * i));
  }

  lemma IndexInFront(idx: nat, indices: seq<nat>)
    ensures BitString([idx] + indices, WORD_BITS) == Bits(idx, WORD_BITS) + BitString(indices, WORD_BITS)
  {
    BitStringSnoc([], idx, WORD_BITS);
    assert [] + [idx] == [idx];
    BitStringConcat([idx], indices, WORD_BITS);
  }

  lemma WordsAtCons(table: seq<string>, idx: Index, indices: seq<Index>)
    requires |table| == TABLE_SIZE
    ensures WordsAt(table, [idx] + indices) == [table[idx]] + WordsAt(table, indices)
  {}

  /** The number holds the bits of the first n words, the indices behind it those of the rest. */
  predicate Left(digits: seq<Byte>, combined: nat, n: nat, indices: seq<nat>) {
    && combined < Pow2(WORD_BITS * n)
    && BitString(digits, 8) == Bits(combined, WORD_BITS * n) + BitString(indices, WORD_BITS)
  }

  lemma NextLeft(digits: seq<Byte>, combined: nat, i: nat, indices: seq<nat>)
    requires Left(digits, combined, i + 1, indices)
    ensures Left(digits, combined / TABLE_SIZE, i, [combined % TABLE_SIZE] + indices)
  {
    NextIndex(combined, i, indices);
  }

  /** At the end the whole number has been consumed. */
  lemma NothingLeft(digits: seq<Byte>, combined: nat, indices: seq<nat>)
    requires Left(digits, combined, 0, indices)
    ensures combined == 0 && BitString(indices, WORD_BITS) == BitString(digits, 8)
  {}

  /** The loop of generateBIP39Mnemonic: it takes word after word off the low end of one big number. `&` with
      0x7FF and a right shift by 11 of a non-negative big.Int are the remainder and the quotient by 2048. */
  method TakeWords(table: seq<string>, entropyWithChecksum: seq<Byte>)
    returns (words: array<string>, ghost indices: seq<Index>)
    requires |table| == TABLE_SIZE && |entropyWithChecksum| == 33
    ensures fresh(words) && |indices| == WORD_COUNT && words[..] == WordsAt(table, indices)
    ensures BitString(indices, WORD_BITS) == BitString(entropyWithChecksum, 8)
  {
    var combined := ValueOf(entropyWithChecksum, 8);
    words := new string[WORD_COUNT](_ => "");
    indices := [];
    var i := 23;
    AllWords(entropyWithChecksum);
    while i >= 0
      invariant -1 <= i <= 23
      invariant |indices| == 23 - i
      invariant combined >= 0 && Left(entropyWithChecksum, combined, i + 1, indices)
      invariant words[i + 1..] == WordsAt(table, indices)
    {
      var idx := combined % TABLE_SIZE;
      NextLeft(entropyWithChecksum, combined, i, indices);
      WordsAtCons(table, idx, indices);
      combined := combined / TABLE_SIZE;
      ghost var rest := words[i + 1..];
      words[i] := table[idx];
      assert words[i..] == [table[idx]] + rest;
      indices := [idx] + indices;
      i := i - 1;
    }
    assert words[0..] == words[..];
    NothingLeft(entropyWithChecksum, combined, indices);
  }

  /** generateBIP39Mnemonic with its two outside calls, the random source and SHA-256, as arguments. */
  method GenerateMnemonic(table: seq<string>, entropy: seq<Byte>, checksum: seq<Byte> -> Byte)
    returns (phrase: string, ghost indices: seq<Index>)
    requires WordTable(table)
    requires |entropy| == ENTROPY_BYTES
    ensures |indices| == WORD_COUNT
    ensures BitString(indices, WORD_BITS) == BitString(WithChecksum(entropy, checksum), 8)
    ensures phrase == Join(WordsAt(table, indices))
    ensures |phrase| + 1 == LetterCount(WordsAt(table, indices)) + 24
    ensures forall i | 0 <= i < 24 ::
              var o, w := Offset(WordsAt(table, indices), i), table[indices[i]];
              && o + |w| <= |phrase| && phrase[o..][..|w|] == w
              && (i < 23 ==> o + |w| < |phrase| && phrase[o + |w|] == ' ')
    ensures forall k | 0 <= k < |phrase| && IsSpace(phrase[k]) :: phrase[k] == ' '
    ensures Decode(table, checksum, phrase) == Some(entropy)
  {
    var words;
    words, indices := TakeWords(table, WithChecksum(entropy, checksum));
    phrase := Join(words[..]);
    PhraseShape(table, indices, phrase);
    DecodeGenerated(table, entropy, checksum, indices, phrase);
  }

  lemma PhraseShape(table: seq<string>, indices: seq<Index>, phrase: string)
    requires WordTable(table) && |indices| == WORD_COUNT && phrase == Join(WordsAt(table, indices))
    ensures |phrase| + 1 == LetterCount(WordsAt(table, indices)) + 24
    ensures forall i | 0 <= i < 24 ::
              var o, w := Offset(WordsAt(table, indices), i), table[indices[i]];
              && o + |w| <= |phrase| && phrase[o..][..|w|] == w
              && (i < 23 ==> o + |w| < |phrase| && phrase[o + |w|] == ' ')
    ensures forall k | 0 <= k < |phrase| && IsSpace(phrase[k]) :: phrase[k] == ' '
  {
    var words := WordsAt(table, indices);
    JoinIsSentence(words);
    forall i | 0 <= i < 24 ensures StandsAt(phrase, Offset(words, i), table[indices[i]]) {
      assert words[i] == table[indices[i]];
    }
    forall k | 0 <= k < |phrase| && IsSpace(phrase[k]) ensures phrase[k] == ' ' {
      JoinSpaces(words, k);
    }
  }

  /** Before the loop: the number holds all the bits of its 33 digits, which is 24 words. */
  lemma AllWords(digits: seq<Byte>)
    requires |digits| == 33
    ensures Left(digits, ValueOf(digits, 8), 24, [])
  {
    EightBits();
    SpanOf11And8(|digits|);
    BitsOfDigits(digits, 8);
    ValueBound(digits, 8);
    assert BitString([], WORD_BITS) == [];
  }

  /** The bytes of a bit string, most significant bit first. */
  function BytesOf(b: seq<bool>): seq<Byte> {
    if |b| < 8 then []
    else
      BitsOfNumber(b[|b| - 8..]);
      EightBits();
      BytesOf(b[..|b| - 8]) + [NatOfBits(b[|b| - 8..])]
  }

  lemma EightBits()
    ensures Pow2(8) == 256 && Pow2(WORD_BITS) == TABLE_SIZE
  {
    Pow2Sum(4, 4);
    Pow2Sum(8, 3);
    assert Pow2(4) == 16 && Pow2(3) == 8;
  }

  /** validateBIP39Mnemonic, returning the entropy it recovers. */
  function Decode(table: seq<string>, checksum: seq<Byte> -> Byte, phrase: string): Option<seq<Byte>> {
    var words := Fields(phrase);
    if |words| != WORD_COUNT || |table| != TABLE_SIZE then None
    else
      var indices := Indices(table, words);
      if indices.None? then None
      else
        SpanOf11And8(WORD_COUNT);
        var bits := BitString(indices.value, WORD_BITS);
        var entropy := BytesOf(bits[..256]);
        if bits[256..] == Bits(checksum(entropy), 8) then Some(entropy) else None
  }

  lemma BytesOfSnoc(front: seq<bool>, last: seq<bool>)
    requires |last| == 8
    ensures BytesOf(front + last) == BytesOf(front) + [NatOfBits(last)]
  {
    var b := front + last;
    assert b[..|b| - 8] == front && b[|b| - 8..] == last;
  }

  lemma {:induction false} BytesOfBitString(bytes: seq<nat>)
    requires Fit(bytes, 256)
    ensures BytesOf(BitString(bytes, 8)) == bytes
  {
    if bytes != [] {
      var front, last := bytes[..|bytes| - 1], bytes[|bytes| - 1];
      assert bytes == front + [last];
      BytesOfBitString(front);
      BitStringSnoc(front, last, 8);
      BytesOfSnoc(BitString(front, 8), Bits(last, 8));
      EightBits();
      NumberOfBits(last, 8);
    }
  }

  lemma {:induction false} BitStringOfBytes(b: seq<bool>)
    requires |b| % 8 == 0
    ensures BitString(BytesOf(b), 8) == b
  {
    if b != [] {
      var front, last := b[..|b| - 8], b[|b| - 8..];
      assert b == front + last;
      BitStringOfBytes(front);
      BytesOfSnoc(front, last);
      BitsOfNumber(last);
      BitStringSnoc(BytesOf(front), NatOfBits(last), 8);
    }
  }

  /** The 264 bits split into the entropy's and the checksum's. */
  lemma ChecksummedBits(entropy: seq<Byte>, checksum: seq<Byte> -> Byte)
    requires |entropy| == ENTROPY_BYTES
    ensures |BitString(entropy, 8)| == 256
    ensures BitString(WithChecksum(entropy, checksum), 8) == BitString(entropy, 8) + Bits(checksum(entropy), 8)
  {
    SpanOf11And8(ENTROPY_BYTES);
    BitStringSnoc(entropy, checksum(entropy), 8);
  }

  /** Decoding a generated phrase gives the entropy back and its checksum is accepted. */
  lemma DecodeGenerated(table: seq<string>, entropy: seq<Byte>, checksum: seq<Byte> -> Byte,
                        indices: seq<Index>, phrase: string)
    requires WordTable(table)
    requires |entropy| == ENTROPY_BYTES && |indices| == WORD_COUNT
    requires BitString(indices, WORD_BITS) == BitString(WithChecksum(entropy, checksum), 8)
    requires phrase == Join(WordsAt(table, indices))
    ensures Decode(table, checksum, phrase) == Some(entropy)
  {
    FieldsOfJoin(WordsAt(table, indices));
    IndicesOfWords(table, indices);
    ChecksummedBits(entropy, checksum);
    BytesOfBitString(entropy);
    var e, c := BitString(entropy, 8), Bits(checksum(entropy), 8);
    assert (e + c)[..256] == e && (e + c)[256..] == c;
  }

  // ---------------------------------------------------------------- which bit goes where

  lemma {:induction false} BitAt(v: nat, width: nat, k: nat)
    requires k < width
    ensures Bits(v, width)[k] <==> v / Pow2(width - 1 - k) % 2 == 1
  {
    if k < width - 1 {
      BitAt(v / 2, width - 1, k);
      QuotientTwice(v, 2, Pow2(width - 2 - k));
    }
  }

  lemma {:induction false} DigitBits(digits: seq<nat>, width: nat, i: nat)
    requires i < |digits|
    ensures Span(i, width) + width <= |BitString(digits, width)|
    ensures BitString(digits, width)[Span(i, width)..][..width] == Bits(digits[i], width)
  {
    var front := digits[..|digits| - 1];
    if i < |front| {
      DigitBits(front, width, i);
      assert BitString(digits, width)[Span(i, width)..][..width] == BitString(front, width)[Span(i, width)..][..width];
    }
  }

  lemma ByteBit(b: nat, k: nat)
    requires k < 8
    ensures Bits(b, 8)[k] <==> b / [128, 64, 32, 16, 8, 4, 2, 1][k] % 2 == 1
  {
    BitAt(b, 8, k);
    assert Pow2(0) == 1 && Pow2(1) == 2 && Pow2(2) == 4 && Pow2(3) == 8;
    assert Pow2(4) == 16 && Pow2(5) == 32 && Pow2(6) == 64 && Pow2(7) == 128;
  }

  lemma IndexBit(d: nat, l: nat)
    requires l < 11
    ensures Bits(d, 11)[l] <==> d / [1024, 512, 256, 128, 64, 32, 16, 8, 4, 2, 1][l] % 2 == 1
  {
    BitAt(d, 11, l);
    assert Pow2(0) == 1 && Pow2(1) == 2 && Pow2(2) == 4 && Pow2(3) == 8 && Pow2(4) == 16 && Pow2(5) == 32;
    assert Pow2(6) == 64 && Pow2(7) == 128 && Pow2(8) == 256 && Pow2(9) == 512 && Pow2(10) == 1024;
  }

  /** The index of word j is eleven bits in a row, most significant first, of the entropy and the checksum
      byte behind it: bit l of it is bit k of byte i. */
  lemma WordBits(entropy: seq<Byte>, checksum: seq<Byte> -> Byte, indices: seq<Index>, i: nat, k: nat, j: nat, l: nat)
    requires |entropy| == ENTROPY_BYTES && |indices| == WORD_COUNT
    requires BitString(indices, WORD_BITS) == BitString(WithChecksum(entropy, checksum), 8)
    requires i < 33 && k < 8 && j < 24 && l < 11 && 8 * i + k == 11 * j + l
    ensures var byte := if i < 32 then entropy[i] else checksum(entropy);
            indices[j] / [1024, 512, 256, 128, 64, 32, 16, 8, 4, 2, 1][l] % 2
            == byte / [128, 64, 32, 16, 8, 4, 2, 1][k] % 2
  {
    var bytes := WithChecksum(entropy, checksum);
    DigitBits(bytes, 8, i);
    DigitBits(indices, WORD_BITS, j);
    SpanOf11And8(i);
    SpanOf11And8(j);
    var b := BitString(bytes, 8);
    assert b[8 * i..][..8][k] == b[8 * i + k] == b[11 * j..][..11][l];
    ByteBit(bytes[i], k);
    IndexBit(indices[j], l);
  }

  lemma BytesOfLength(b: seq<bool>)
    ensures |BytesOf(b)| == |b| / 8
  {}

  /** The other way round: whatever the decoder accepts, word for word, is what the encoder writes
      for the entropy it recovers. */
  lemma AcceptedIsGenerated(table: seq<string>, checksum: seq<Byte> -> Byte, words: seq<string>, entropy: seq<Byte>)
    requires WordTable(table) && SpaceFree(words)
    requires Decode(table, checksum, Join(words)) == Some(entropy)
    ensures |entropy| == ENTROPY_BYTES
    ensures exists indices: seq<Index> :: |indices| == WORD_COUNT
              && BitString(indices, WORD_BITS) == BitString(WithChecksum(entropy, checksum), 8)
              && words == WordsAt(table, indices)
  {
    FieldsOfJoin(words);
    var indices := Indices(table, words).value;
    SpanOf11And8(WORD_COUNT);
    var bits := BitString(indices, WORD_BITS);
    BytesOfLength(bits[..256]);
    BitStringOfBytes(bits[..256]);
    ChecksummedBits(entropy, checksum);
    assert bits == bits[..256] + bits[256..];
    assert words == WordsAt(table, indices);
  }

  /** Two runs of the encoder agree on the phrase exactly when they started from the same entropy. */
  method GenerateTwice(table: seq<string>, e1: seq<Byte>, e2: seq<Byte>, checksum: seq<Byte> -> Byte)
    returns (p1: string, p2: string)
    requires WordTable(table) && |e1| == |e2| == ENTROPY_BYTES
    ensures p1 == p2 <==> e1 == e2
    ensures Decode(table, checksum, p1) == Some(e1) && Decode(table, checksum, p2) == Some(e2)
  {
    ghost var i1, i2;
    p1, i1 := GenerateMnemonic(table, e1, checksum);
    p2, i2 := GenerateMnemonic(table, e2, checksum);
    if e1 == e2 {
      SameIndices(i1, i2);
    }
  }

  lemma SameIndices(a: seq<Index>, b: seq<Index>)
    requires |a| == |b| == WORD_COUNT && BitString(a, WORD_BITS) == BitString(b, WORD_BITS)
    ensures a == b
  {
    EightBits();
    BitStringInjective(a, b, WORD_BITS);
  }
}
