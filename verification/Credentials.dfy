/** The credential strings of internal/controller/generators/postgres.go: a password cut out of a
    base64url text (RFC 4648 section 5) and a database URL that two files build on their own. */
module Credentials {
  import opened Options
  import opened Text
  import opened Mnemonic

  const POSTGRES_USER := "cdk"
  const POSTGRES_DATABASE := "cdk_mintd"
  const PASSWORD_LENGTH: nat := 32

  // ---------------------------------------------------------------- base64url

  type Sextet = d: nat | d < 64

  function Letter(d: Sextet): (c: char)
    ensures UrlSafe(c)
  {
    if d < 26 then ('A' as int + d) as char
    else if d < 52 then ('a' as int + d - 26) as char
    else if d < 62 then ('0' as int + d - 52) as char
    else if d == 62 then '-' else '_'
  }

  predicate UrlSafe(c: char) {
    'A' <= c <= 'Z' || 'a' <= c <= 'z' || '0' <= c <= '9' || c == '-' || c == '_'
  }

  /** The alphabet of RFC 4648, table 2, line by line. */
  lemma LetterTable(d: Sextet)
    ensures d < 26 ==> Letter(d) == "ABCDEFGHIJKLMNOPQRSTUVWXYZ"[d]
    ensures 26 <= d < 52 ==> Letter(d) == "abcdefghijklmnopqrstuvwxyz"[d - 26]
    ensures 52 <= d ==> Letter(d) == "0123456789-_"[d - 52]
  {}

  lemma LetterInjective(a: Sextet, b: Sextet)
    requires Letter(a) == Letter(b)
    ensures a == b
  {}

  // The four groups of six bits in three bytes x, y, z.
  function Six0(x: Byte): Sextet { x / 4 }
  function Six1(x: Byte, y: Byte): Sextet { x % 4 * 16 + y / 16 }
  function Six2(y: Byte, z: Byte): Sextet { y % 16 * 4 + z / 64 }
  function Six3(z: Byte): Sextet { z % 64 }

  function SixPairs(x: Byte, y: Byte): (d: seq<Sextet>)
    ensures |d| == 2
  {
    [Six0(x), Six1(x, y)]
  }

  function SixAll(x: Byte, y: Byte, z: Byte): (d: seq<Sextet>)
    ensures |d| == 4
  {
    [Six0(x), Six1(x, y), Six2(y, z), Six3(z)]
  }

  /** base64.URLEncoding.EncodeToString */
  function EncodeToString(b: seq<Byte>): (s: string)
    ensures |s| == (|b| + 2) / 3 * 4
  {
    if b == [] then ""
    else if |b| == 1 then [Letter(Six0(b[0])), Letter(Six1(b[0], 0)), '=', '=']
    else if |b| == 2 then [Letter(Six0(b[0])), Letter(Six1(b[0], b[1])), Letter(Six2(b[1], 0)), '=']
    else
      [Letter(Six0(b[0])), Letter(Six1(b[0], b[1])), Letter(Six2(b[1], b[2])), Letter(Six3(b[2]))]
      + EncodeToString(b[3..])
  }

  /** The groups of six bits that lie wholly inside the input. */
  function Sextets(b: seq<Byte>): (d: seq<Sextet>)
    ensures |d| == |b| * 8 / 6
  {
    if b == [] then []
    else if |b| == 1 then [Six0(b[0])]
    else if |b| == 2 then SixPairs(b[0], b[1])
    else SixAll(b[0], b[1], b[2]) + Sextets(b[3..])
  }

  function Letters(d: seq<Sextet>): (s: string)
    ensures |s| == |d|
  {
    seq(|d|, i requires 0 <= i < |d| => Letter(d[i]))
  }

  lemma {:induction false} EncodedLetters(b: seq<Byte>)
    ensures Letters(Sextets(b)) <= EncodeToString(b)
  {
    if |b| >= 3 {
      var rest := b[3..];
      EncodedLetters(rest);
      var four := SixAll(b[0], b[1], b[2]);
      assert Letters(four + Sextets(rest)) == Letters(four) + Letters(Sextets(rest));
      assert EncodeToString(b)[..4] == Letters(four);
    }
  }

  lemma TwoDigits(x: nat, y: nat, width: nat)
    ensures BitString([x, y], width) == Bits(x, width) + Bits(y, width)
  {
    BitStringSnoc([], x, width);
    BitStringSnoc([x], y, width);
    assert [] + [x] == [x] && [x] + [y] == [x, y];
  }

  lemma SmallPowers()
    ensures Pow2(2) == 4 && Pow2(4) == 16 && Pow2(6) == 64 && Pow2(8) == 256
  {
    Pow2Sum(4, 4);
    assert Pow2(2) == 4 && Pow2(4) == 16;
    Pow2Sum(4, 2);
  }

  /** One byte cut at each of the three places a sextet ends. */
  lemma CutByte(b: Byte)
    ensures Bits(b, 8) == Bits(b / 4, 6) + Bits(b % 4, 2)
    ensures Bits(b, 8) == Bits(b / 16, 4) + Bits(b % 16, 4)
    ensures Bits(b, 8) == Bits(b / 64, 2) + Bits(b % 64, 6)
  {
    SmallPowers();
    BitsConcat(b / 4, b % 4, 2, 6);
    BitsConcat(b / 16, b % 16, 4, 4);
    BitsConcat(b / 64, b % 64, 6, 2);
  }

  lemma MiddleSextets(x: Byte, y: Byte, z: Byte)
    ensures Bits(Six1(x, y), 6) == Bits(x % 4, 2) + Bits(y / 16, 4)
    ensures Bits(Six2(y, z), 6) == Bits(y % 16, 4) + Bits(z / 64, 2)
  {
    SmallPowers();
    BitsConcat(x % 4, y / 16, 4, 2);
    BitsConcat(y % 16, z / 64, 2, 4);
  }

  lemma Regroup<T>(x: seq<T>, y: seq<T>, z: seq<T>, x6: seq<T>, x2: seq<T>, yh: seq<T>, yl: seq<T>, z2: seq<T>,
      z6: seq<T>)
    requires x == x6 + x2 && y == yh + yl && z == z2 + z6
    ensures x + y + z == x6 + (x2 + yh) + ((yl + z2) + z6)
  {}

  lemma ThreeDigits(x: nat, y: nat, z: nat, width: nat)
    ensures BitString([x, y, z], width) == Bits(x, width) + Bits(y, width) + Bits(z, width)
  {
    TwoDigits(x, y, width);
    BitStringSnoc([x, y], z, width);
    assert [x, y] + [z] == [x, y, z];
  }

  lemma FourDigits(a: nat, b: nat, c: nat, d: nat, width: nat)
    ensures BitString([a, b, c, d], width) == Bits(a, width) + Bits(b, width) + (Bits(c, width) + Bits(d, width))
  {
    TwoDigits(a, b, width);
    TwoDigits(c, d, width);
    BitStringConcat([a, b], [c, d], width);
    assert [a, b] + [c, d] == [a, b, c, d];
  }

  lemma ThreeBytesSplit(x: Byte, y: Byte, z: Byte)
    ensures Bits(x, 8) + Bits(y, 8) + Bits(z, 8)
         == Bits(Six0(x), 6) + Bits(Six1(x, y), 6) + (Bits(Six2(y, z), 6) + Bits(Six3(z), 6))
  {
    CutByte(x);
    CutByte(y);
    CutByte(z);
    MiddleSextets(x, y, z);
    Regroup(Bits(x, 8), Bits(y, 8), Bits(z, 8), Bits(x / 4, 6), Bits(x % 4, 2), Bits(y / 16, 4), Bits(y % 16, 4),
            Bits(z / 64, 2), Bits(z % 64, 6));
  }

  /** Three bytes and the four sextets made of them are the same 24 bits. */
  lemma ThreeBytes(x: Byte, y: Byte, z: Byte)
    ensures BitString([x, y, z], 8) == BitString(SixAll(x, y, z), 6)
  {
    ThreeBytesSplit(x, y, z);
    ThreeDigits(x, y, z, 8);
    FourDigits(Six0(x), Six1(x, y), Six2(y, z), Six3(z), 6);
  }

  lemma OneByte(x: Byte)
    ensures BitString([Six0(x)], 6) <= BitString([x], 8)
  {
    CutByte(x);
    BitStringSnoc([], Six0(x), 6);
    BitStringSnoc([], x, 8);
    assert [] + [Six0(x)] == [Six0(x)] && [] + [x] == [x];
  }

  lemma TwoCuts<T>(x: seq<T>, y: seq<T>, x6: seq<T>, x2: seq<T>, yh: seq<T>, yl: seq<T>)
    requires x == x6 + x2 && y == yh + yl
    ensures x6 + (x2 + yh) <= x + y
  {}

  lemma TwoBytesSplit(x: Byte, y: Byte)
    ensures Bits(Six0(x), 6) + Bits(Six1(x, y), 6) <= Bits(x, 8) + Bits(y, 8)
  {
    CutByte(x);
    CutByte(y);
    MiddleSextets(x, y, 0);
    TwoCuts(Bits(x, 8), Bits(y, 8), Bits(x / 4, 6), Bits(x % 4, 2), Bits(y / 16, 4), Bits(y % 16, 4));
  }

  lemma TwoBytes(x: Byte, y: Byte)
    ensures BitString(SixPairs(x, y), 6) <= BitString([x, y], 8)
  {
    TwoBytesSplit(x, y);
    TwoDigits(Six0(x), Six1(x, y), 6);
    TwoDigits(x, y, 8);
  }

  lemma PrefixConcat<T>(a: seq<T>, b: seq<T>, c: seq<T>)
    requires b <= c
    ensures a + b <= a + c
  {}

  /** Equal heads and a prefix behind them make a prefix. */
  lemma JoinPrefix(four: seq<nat>, d: seq<nat>, three: seq<nat>, rest: seq<nat>)
    requires BitString(four, 6) == BitString(three, 8)
    requires BitString(d, 6) <= BitString(rest, 8)
    ensures BitString(four + d, 6) <= BitString(three + rest, 8)
  {
    BitStringConcat(three, rest, 8);
    BitStringConcat(four, d, 6);
    PrefixConcat(BitString(four, 6), BitString(d, 6), BitString(rest, 8));
  }

  /** The sextets are the leading bits of the input. */
  lemma {:induction false} SextetBits(b: seq<Byte>)
    ensures BitString(Sextets(b), 6) <= BitString(b, 8)
  {
    if |b| == 1 {
      OneByte(b[0]);
      assert b == [b[0]];
    } else if |b| == 2 {
      TwoBytes(b[0], b[1]);
      assert b == [b[0], b[1]];
    } else if |b| >= 3 {
      var rest := b[3..];
      SextetBits(rest);
      ThreeBytes(b[0], b[1], b[2]);
      assert b == [b[0], b[1], b[2]] + rest;
      JoinPrefix(SixAll(b[0], b[1], b[2]), Sextets(rest), [b[0], b[1], b[2]], rest);
    }
  }

  // ---------------------------------------------------------------- passwords

  function Password(random: seq<Byte>): string {
    EncodeToString(random)[..|random|]
  }

  /** generateSecurePassword: as many random bytes as characters, the encoding cut to length. */
  method GenerateSecurePassword(length: nat, random: nat -> Byte) returns (password: string, ghost bytes: seq<Byte>)
    ensures |bytes| == length && forall i | 0 <= i < length :: bytes[i] == random(i)
    ensures password == Password(bytes)
    ensures |password| == length && forall i | 0 <= i < length :: UrlSafe(password[i])
  {
    var buffer := new Byte[length](i => random(i));
    bytes := buffer[..];
    PasswordLetters(bytes);
    password := EncodeToString(buffer[..])[..length];
  }

  /** A password of n characters is n letters of the base64url alphabet, no padding among them. */
  lemma PasswordLetters(b: seq<Byte>)
    ensures Password(b) == Letters(Sextets(b)[..|b|])
    ensures |Password(b)| == |b| && forall i | 0 <= i < |b| :: UrlSafe(Password(b)[i])
  {
    EncodedLetters(b);
  }

  lemma PrefixOfConcat<T>(a: seq<T>, b: seq<T>)
    ensures (a + b)[..|a|] == a
  {}

  lemma BitStringPrefix(d: seq<nat>, n: nat, width: nat)
    requires n <= |d|
    ensures Span(n, width) <= |BitString(d, width)|
    ensures BitString(d[..n], width) == BitString(d, width)[..Span(n, width)]
  {
    var a, b := d[..n], d[n..];
    assert d == a + b;
    BitStringConcat(a, b, width);
    PrefixOfConcat(BitString(a, width), BitString(b, width));
  }

  lemma SpanOfSix(n: nat)
    ensures Span(n, 6) == 6 * n
  {}

  lemma PasswordBits(b: seq<Byte>)
    ensures 6 * |b| <= |BitString(b, 8)|
    ensures BitString(Sextets(b)[..|b|], 6) == BitString(b, 8)[..6 * |b|]
  {
    SextetBits(b);
    BitStringPrefix(Sextets(b), |b|, 6);
    SpanOfSix(|b|);
    SpanOfSix(|Sextets(b)|);
    SpanOf11And8(|b|);
  }

  /** Two passwords of the same length are equal exactly when their first 6n random bits are. */
  lemma PasswordInjective(a: seq<Byte>, b: seq<Byte>)
    requires |a| == |b|
    ensures 6 * |a| <= |BitString(a, 8)| && 6 * |b| <= |BitString(b, 8)|
    ensures Password(a) == Password(b) <==> BitString(a, 8)[..6 * |a|] == BitString(b, 8)[..6 * |b|]
  {
    PasswordLetters(a);
    PasswordLetters(b);
    PasswordBits(a);
    PasswordBits(b);
    SmallPowers();
    var x, y := Sextets(a)[..|a|], Sextets(b)[..|b|];
    if Letters(x) == Letters(y) {
      forall i | 0 <= i < |x| ensures x[i] == y[i] {
        assert Letters(x)[i] == Letters(y)[i];
        LetterInjective(x[i], y[i]);
      }
      assert x == y;
    }
    if BitString(x, 6) == BitString(y, 6) {
      BitStringInjective(x, y, 6);
    }
  }

  // ---------------------------------------------------------------- database URLs

  /** GeneratePostgresSecret's URL. */
  function SecretURL(password: string, mintName: string): string {
    "postgresql://" + POSTGRES_USER + ":" + password + "@" + mintName + "-postgres:5432/" + POSTGRES_DATABASE
        + "?sslmode=disable"
  }

  /** writeDatabaseSection's URL. */
  function ConfigURL(password: string, mintName: string): string {
    "postgresql://cdk:" + password + "@" + mintName + "-postgres:5432/cdk_mintd?sslmode=disable"
  }

  /** The Secret and config.toml name the same database with the same credentials. */
  lemma SameURL(password: string, mintName: string)
    ensures SecretURL(password, mintName) == ConfigURL(password, mintName)
    ensures SecretURL(password, mintName)
         == "postgresql://cdk:" + password + "@" + mintName + "-postgres:5432/cdk_mintd?sslmode=disable"
  {
    var a, b, c, d := "postgresql://" + POSTGRES_USER + ":", password, "@", mintName;
    assert a == "postgresql://cdk:";
    assert "-postgres:5432/" + POSTGRES_DATABASE + "?sslmode=disable" == "-postgres:5432/cdk_mintd?sslmode=disable";
    assert SecretURL(b, d) == a + b + c + d + ("-postgres:5432/" + POSTGRES_DATABASE + "?sslmode=disable");
  }

  datatype URL = URL(user: string, password: string, host: string, port: string, database: string, query: string)

  /** Cuts at the first delimiter. */
  function Cut(s: string, c: char): Option<(string, string)> {
    var i := Find(s, c);
    if i == |s| then None else Some((s[..i], s[i + 1..]))
  }

  lemma CutFirst(a: string, c: char, b: string)
    requires !Has(a, c)
    ensures Cut(a + [c] + b, c) == Some((a, b))
  {
    FindFirst(a, c, b);
    var s := a + [c] + b;
    assert s[..|a|] == a && s[|a| + 1..] == b;
  }

  /** host:port/database?query */
  function ParseLocation(s: string): Option<(string, string, string, string)> {
    var h := Cut(s, ':');
    if h.None? then None
    else
      var p := Cut(h.value.1, '/');
      if p.None? then None
      else
        var d := Cut(p.value.1, '?');
        if d.None? then None else Some((h.value.0, p.value.0, d.value.0, d.value.1))
  }

  /** user:password@location */
  function ParseParts(s: string): Option<URL> {
    var u := Cut(s, ':');
    if u.None? then None
    else
      var p := Cut(u.value.1, '@');
      if p.None? then None
      else
        match ParseLocation(p.value.1)
        case None => None
        case Some((host, port, database, query)) =>
          Some(URL(u.value.0, p.value.0, host, port, database, query))
  }

  /** The authority, path and query of a postgresql URL split at their delimiters (RFC 3986 section 3). */
  function ParseURL(s: string): Option<URL> {
    if "postgresql://" <= s then ParseParts(s[13..]) else None
  }

  /** RFC 1123 names, the only ones a CashuMint can have. */
  predicate ObjectName(name: string) {
    forall i | 0 <= i < |name| :: 'a' <= name[i] <= 'z' || '0' <= name[i] <= '9' || name[i] == '-' || name[i] == '.'
  }

  lemma LocationRoundTrip(host: string, port: string, database: string, query: string)
    requires !Has(host, ':') && !Has(port, '/') && !Has(database, '?')
    ensures ParseLocation(host + [':'] + (port + ['/'] + (database + ['?'] + query)))
            == Some((host, port, database, query))
  {
    CutFirst(host, ':', port + ['/'] + (database + ['?'] + query));
    CutFirst(port, '/', database + ['?'] + query);
    CutFirst(database, '?', query);
  }

  lemma PartsRoundTrip(user: string, password: string, location: string)
    requires !Has(user, ':') && !Has(password, '@') && ParseLocation(location).Some?
    ensures var (h, p, d, q) := ParseLocation(location).value;
            ParseParts(user + [':'] + (password + ['@'] + location)) == Some(URL(user, password, h, p, d, q))
  {
    CutFirst(user, ':', password + ['@'] + location);
    CutFirst(password, '@', location);
  }

  /** Splitting the generated URL at its delimiters recovers every part, for every generated password. */
  lemma URLRoundTrip(random: seq<Byte>, mintName: string)
    requires ObjectName(mintName)
    ensures ParseURL(ConfigURL(Password(random), mintName))
         == Some(URL("cdk", Password(random), mintName + "-postgres", "5432", "cdk_mintd", "sslmode=disable"))
  {
    PasswordLetters(random);
    URLOfLetters(Password(random), mintName);
  }

  lemma URLOfLetters(password: string, mintName: string)
    requires ObjectName(mintName) && forall i | 0 <= i < |password| :: UrlSafe(password[i])
    ensures ParseURL(ConfigURL(password, mintName))
         == Some(URL("cdk", password, mintName + "-postgres", "5432", "cdk_mintd", "sslmode=disable"))
  {
    var host := mintName + "-postgres";
    var location := host + [':'] + ("5432" + ['/'] + ("cdk_mintd" + ['?'] + "sslmode=disable"));
    LocationRoundTrip(host, "5432", "cdk_mintd", "sslmode=disable");
    PartsRoundTrip("cdk", password, location);
    ConfigURLParts(password, mintName, location);
  }

  lemma ConfigURLParts(password: string, mintName: string, location: string)
    requires location == mintName + "-postgres" + [':'] + ("5432" + ['/'] + ("cdk_mintd" + ['?'] + "sslmode=disable"))
    ensures "postgresql://" <= ConfigURL(password, mintName)
    ensures ConfigURL(password, mintName)[13..] == "cdk" + [':'] + (password + ['@'] + location)
  {
    assert ("5432" + ['/'] + ("cdk_mintd" + ['?'] + "sslmode=disable")) == "5432/cdk_mintd?sslmode=disable";
    assert location == mintName + "-postgres:5432/cdk_mintd?sslmode=disable";
    assert ConfigURL(password, mintName) == "postgresql://cdk:" + (password + ['@'] + location);
    assert "postgresql://cdk:" == "postgresql://" + ("cdk" + [':']);
  }
}
