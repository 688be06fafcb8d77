/** Base64 without padding, over the standard alphabet (sections 3.2 and 4 of
    RFC 4648), as Go's RawStdEncoding reads and writes it. */
module Base64 {
  import opened VersionedStore

  type Byte = b: int | 0 <= b < 256
  type Sextet = v: int | 0 <= v < 64

  function Symbol(v: Sextet): char {
    if v < 26 then ('A' as int + v) as char
    else if v < 52 then ('a' as int + v - 26) as char
    else if v < 62 then ('0' as int + v - 52) as char
    else if v == 62 then '+'
    else '/'
  }

  function Value(c: char): Option<Sextet> {
    if 'A' <= c <= 'Z' then Some(c as int - 'A' as int)
    else if 'a' <= c <= 'z' then Some(c as int - 'a' as int + 26)
    else if '0' <= c <= '9' then Some(c as int - '0' as int + 52)
    else if c == '+' then Some(62)
    else if c == '/' then Some(63)
    else None
  }

  /** The four sextets of a group of three bytes; a missing byte counts as zero. */
  function Sextet0(x: Byte): Sextet { x / 4 }
  function Sextet1(x: Byte, y: Byte): Sextet { x % 4 * 16 + y / 16 }
  function Sextet2(y: Byte, z: Byte): Sextet { y % 16 * 4 + z / 64 }
  function Sextet3(z: Byte): Sextet { z % 64 }

  function Sextets(bytes: seq<Byte>): seq<Sextet> {
    if |bytes| == 0 then []
    else if |bytes| == 1 then [Sextet0(bytes[0]), Sextet1(bytes[0], 0)]
    else if |bytes| == 2 then [Sextet0(bytes[0]), Sextet1(bytes[0], bytes[1]), Sextet2(bytes[1], 0)]
    else
      [Sextet0(bytes[0]), Sextet1(bytes[0], bytes[1]), Sextet2(bytes[1], bytes[2]), Sextet3(bytes[2])]
      + Sextets(bytes[3..])
  }

  function Encode(bytes: seq<Byte>): string {
    var v := Sextets(bytes);
    seq(|v|, i requires 0 <= i < |v| => Symbol(v[i]))
  }

  predicate AreSymbols(s: string) {
    forall i :: 0 <= i < |s| ==> Value(s[i]).Some?
  }

  function Values(s: string): (v: seq<Sextet>)
    requires AreSymbols(s)
    ensures |v| == |s|
  {
    seq(|s|, i requires 0 <= i < |s| => Value(s[i]).value)
  }

  function First(a: Sextet, b: Sextet): Byte { a * 4 + b / 16 }
  function Second(b: Sextet, c: Sextet): Byte { b % 16 * 16 + c / 4 }
  function Third(c: Sextet, d: Sextet): Byte { c % 4 * 64 + d }

  function Gather(v: seq<Sextet>): Option<seq<Byte>> {
    if |v| == 0 then Some([])
    else if |v| == 1 then None
    else if |v| == 2 then Some([First(v[0], v[1])])
    else if |v| == 3 then Some([First(v[0], v[1]), Second(v[1], v[2])])
    else
      var rest := Gather(v[4..]);
      if rest.None? then None
      else Some([First(v[0], v[1]), Second(v[1], v[2]), Third(v[2], v[3])] + rest.value)
  }

  /** Line breaks are skipped wherever they stand. */
  function WithoutBreaks(s: string): string {
    if s == "" then ""
    else (if s[0] == '\r' || s[0] == '\n' then "" else [s[0]]) + WithoutBreaks(s[1..])
  }

  function Decode(s: string): Option<seq<Byte>> {
    var t := WithoutBreaks(s);
    if AreSymbols(t) then Gather(Values(t)) else None
  }

  lemma SymbolRoundTrip(v: Sextet)
    ensures Value(Symbol(v)) == Some(v)
  {}

  lemma {:induction false} SymbolsAreNotBreaks(s: string)
    requires AreSymbols(s)
    ensures WithoutBreaks(s) == s
  {
    if s != "" {
      SymbolsAreNotBreaks(s[1..]);
      assert Value(s[0]).Some? && [s[0]] + s[1..] == s;
    }
  }

  lemma FirstRoundTrip(x: Byte, y: Byte)
    ensures First(Sextet0(x), Sextet1(x, y)) == x
  {}

  lemma GroupRoundTrip(x: Byte, y: Byte, z: Byte)
    ensures First(Sextet0(x), Sextet1(x, y)) == x
    ensures Second(Sextet1(x, y), Sextet2(y, z)) == y
    ensures Third(Sextet2(y, z), Sextet3(z)) == z
  {}

  /** Each symbol stands for its sextet. */
  lemma ValuesOfEncoded(bytes: seq<Byte>)
    ensures AreSymbols(Encode(bytes)) && Values(Encode(bytes)) == Sextets(bytes)
  {
    var v, s := Sextets(bytes), Encode(bytes);
    forall i | 0 <= i < |s| ensures Value(s[i]) == Some(v[i]) {
      SymbolRoundTrip(v[i]);
    }
  }

  lemma OneByte(x: Byte)
    ensures Gather(Sextets([x])) == Some([x])
  {
    var v := Sextets([x]);
    FirstRoundTrip(x, 0);
    assert v == [Sextet0(x), Sextet1(x, 0)];
  }

  lemma TwoBytes(x: Byte, y: Byte)
    ensures Gather(Sextets([x, y])) == Some([x, y])
  {
    GroupRoundTrip(x, y, 0);
  }

  lemma SextetsOfGroup(x: Byte, y: Byte, z: Byte, rest: seq<Byte>)
    ensures Sextets([x, y, z] + rest) == [Sextet0(x), Sextet1(x, y), Sextet2(y, z), Sextet3(z)] + Sextets(rest)
  {
    assert ([x, y, z] + rest)[3..] == rest;
  }

  lemma GatherGroup(a: Sextet, b: Sextet, c: Sextet, d: Sextet, v: seq<Sextet>, rest: seq<Byte>)
    requires Gather(v) == Some(rest)
    ensures Gather([a, b, c, d] + v) == Some([First(a, b), Second(b, c), Third(c, d)] + rest)
  {
    assert ([a, b, c, d] + v)[4..] == v;
  }

  lemma MoreBytes(x: Byte, y: Byte, z: Byte, rest: seq<Byte>)
    requires Gather(Sextets(rest)) == Some(rest)
    ensures Gather(Sextets([x, y, z] + rest)) == Some([x, y, z] + rest)
  {
    SextetsOfGroup(x, y, z, rest);
    GatherGroup(Sextet0(x), Sextet1(x, y), Sextet2(y, z), Sextet3(z), Sextets(rest), rest);
    GroupRoundTrip(x, y, z);
  }

  lemma {:induction false} GatherSextets(bytes: seq<Byte>)
    ensures Gather(Sextets(bytes)) == Some(bytes)
    decreases |bytes|
  {
    if |bytes| == 1 {
      OneByte(bytes[0]);
      assert bytes == [bytes[0]];
    } else if |bytes| == 2 {
      TwoBytes(bytes[0], bytes[1]);
      assert bytes == [bytes[0], bytes[1]];
    } else if |bytes| >= 3 {
      GatherSextets(bytes[3..]);
      MoreBytes(bytes[0], bytes[1], bytes[2], bytes[3..]);
      assert bytes == [bytes[0], bytes[1], bytes[2]] + bytes[3..];
    }
  }

  // ---------------------------------------------------- what is encoded how

  /** The table of section 4: capitals, small letters, digits, plus and slash, each
      range in its order. */
  lemma SymbolsAreTheAlphabet(v: Sextet)
    ensures Symbol(0) == 'A' && Symbol(25) == 'Z' && Symbol(26) == 'a' && Symbol(51) == 'z'
    ensures Symbol(52) == '0' && Symbol(61) == '9' && Symbol(62) == '+' && Symbol(63) == '/'
    ensures v < 61 && v != 25 && v != 51 ==> Symbol(v + 1) as int == Symbol(v) as int + 1
  {}

  function ByteAt(bytes: seq<Byte>, q: nat): Byte {
    if q < |bytes| then bytes[q] else 0
  }

  /** 64, 256 and 1024 are the weights of the last of six bits that start at the
      fifth, third and first bit of two bytes. */
  function Shift(r: nat): (shift: int)
    ensures shift > 0
  {
    if r == 0 then 1024 else if r == 2 then 256 else if r == 4 then 64 else 16
  }

  function Window(x: Byte, y: Byte, shift: int): int
    requires shift > 0
  {
    (x * 256 + y) / shift % 64
  }

  /** The i-th six bits of the bytes, read from the most significant on, with
      zeros behind the end. */
  function SixBits(bytes: seq<Byte>, i: nat): int {
    Window(ByteAt(bytes, 6 * i / 8), ByteAt(bytes, 6 * i / 8 + 1), Shift(6 * i % 8))
  }

  /** Four pieces of two bytes: two, two, four, four bits and so on. */
  lemma Windows(a: int, b: int, c: int, d: int)
    requires 0 <= a < 64 && 0 <= b < 4 && 0 <= c < 16 && 0 <= d < 16
    ensures (1024 * a + 256 * b + 16 * c + d) / 1024 % 64 == a
    ensures (1024 * a + 256 * b + 16 * c + d) / 16 % 64 == 16 * b + c
  {
    assert (1024 * a + 256 * b + 16 * c + d) / 16 == 64 * a + 16 * b + c;
  }

  lemma Windows'(a: int, b: int, c: int, d: int)
    requires 0 <= a < 16 && 0 <= b < 16 && 0 <= c < 4 && 0 <= d < 64
    ensures (4096 * a + 256 * b + 64 * c + d) / 64 % 64 == 4 * b + c
  {
    assert (4096 * a + 256 * b + 64 * c + d) / 64 == 64 * a + 4 * b + c;
  }

  lemma Window0(x: Byte, y: Byte)
    ensures Window(x, y, 1024) == Sextet0(x)
    ensures Window(x, y, 16) == Sextet1(x, y)
  {
    Windows(x / 4, x % 4, y / 16, y % 16);
  }

  lemma Window2(y: Byte, z: Byte)
    ensures Window(y, z, 64) == Sextet2(y, z)
  {
    Windows'(y / 16, y % 16, z / 64, z % 64);
  }

  lemma Window3(z: Byte, t: Byte)
    ensures Window(z, t, 256) == Sextet3(z)
  {}

  lemma FirstSixBits(bytes: seq<Byte>)
    ensures var x, y, z := ByteAt(bytes, 0), ByteAt(bytes, 1), ByteAt(bytes, 2);
      && SixBits(bytes, 0) == Sextet0(x) && SixBits(bytes, 1) == Sextet1(x, y)
      && SixBits(bytes, 2) == Sextet2(y, z) && SixBits(bytes, 3) == Sextet3(z)
  {
    var x, y, z, t := ByteAt(bytes, 0), ByteAt(bytes, 1), ByteAt(bytes, 2), ByteAt(bytes, 3);
    assert SixBits(bytes, 0) == Window(x, y, 1024) && SixBits(bytes, 1) == Window(x, y, 16);
    assert SixBits(bytes, 2) == Window(y, z, 64) && SixBits(bytes, 3) == Window(z, t, 256);
    Window0(x, y);
    Window2(y, z);
    Window3(z, t);
  }

  lemma SixBitsLater(bytes: seq<Byte>, i: nat)
    requires |bytes| >= 3
    ensures SixBits(bytes, i + 4) == SixBits(bytes[3..], i)
  {
    assert 6 * (i + 4) / 8 == 6 * i / 8 + 3 && 6 * (i + 4) % 8 == 6 * i % 8;
  }

  lemma {:induction false} SextetsAreSixBits(bytes: seq<Byte>, i: nat)
    ensures |Sextets(bytes)| == (4 * |bytes| + 2) / 3
    ensures i < |Sextets(bytes)| ==> Sextets(bytes)[i] == SixBits(bytes, i)
    decreases |bytes|
  {
    FirstSixBits(bytes);
    if |bytes| >= 3 {
      SextetsAreSixBits(bytes[3..], if i >= 4 then i - 4 else 0);
      if i >= 4 {
        SixBitsLater(bytes, i - 4);
      }
    }
  }

  /** Symbol i stands for bits 6i to 6i + 5 of the bytes, in the alphabet of
      section 4, and there are as many as those bits need. */
  lemma EncodingIsBase64(bytes: seq<Byte>, i: nat)
    requires i < |Encode(bytes)|
    ensures |Encode(bytes)| == (4 * |bytes| + 2) / 3
    ensures 0 <= SixBits(bytes, i) < 64 && Encode(bytes)[i] == Symbol(SixBits(bytes, i))
  {
    SextetsAreSixBits(bytes, i);
  }

  /** Whatever is encoded is decoded to itself. */
  lemma Base64RoundTrip(bytes: seq<Byte>)
    ensures Decode(Encode(bytes)) == Some(bytes)
  {
    ValuesOfEncoded(bytes);
    GatherSextets(bytes);
    SymbolsAreNotBreaks(Encode(bytes));
  }
}
