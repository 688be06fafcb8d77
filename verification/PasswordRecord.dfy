/** The stored form of a password hash, written by HashPassword and read back by
    VerifyPassword. Argon2id (RFC 9106) is a parameter. */
module PasswordRecord {
  import opened VersionedStore
  import opened Base64
  import opened Text

  /** password, salt, time, memory, threads, key length */
  type Argon = (seq<Byte>, seq<Byte>, nat, nat, nat, nat) -> seq<Byte>

  ghost predicate KeepsLength(argon: Argon) {
    forall p, s, t, m, h, n :: |argon(p, s, t, m, h, n)| == n
  }

  const VERSION := 19
  const TIME := 1
  const MEMORY := 65536
  const THREADS := 4
  const KEY_LENGTH := 32

  // --------------------------------------------------------------- scanning

  function LeadingDigits(s: string): (d: string)
    ensures d <= s && forall c <- d :: IsDigit(c)
  {
    if s == "" || !IsDigit(s[0]) then "" else [s[0]] + LeadingDigits(s[1..])
  }

  /** Sscanf's %d into an unsigned of the given range: the longest run of digits,
      which must be there and fit. */
  function ScanNumber(s: string, limit: nat): Option<(nat, string)> {
    var d := LeadingDigits(s);
    if d == "" || Number(d) >= limit then None else Some((Number(d), s[|d|..]))
  }

  function ScanLiteral(s: string, literal: string): Option<string> {
    if literal <= s then Some(s[|literal|..]) else None
  }

  function ScanField(s: string, literal: string, limit: nat): Option<(nat, string)> {
    var rest := ScanLiteral(s, literal);
    if rest.None? then None else ScanNumber(rest.value, limit)
  }

  datatype Parameters = Parameters(memory: nat, time: nat, threads: nat)

  /** Sscanf stops at the first field it cannot read; its error is ignored and
      the fields not reached stay zero. */
  function ScanParameters(s: string): Parameters {
    var m := ScanField(s, "m=", 0x1_0000_0000);
    if m.None? then Parameters(0, 0, 0)
    else
      var t := ScanField(m.value.1, ",t=", 0x1_0000_0000);
      if t.None? then Parameters(m.value.0, 0, 0)
      else
        var p := ScanField(t.value.1, ",p=", 0x100);
        Parameters(m.value.0, t.value.0, if p.None? then 0 else p.value.0)
  }

  lemma {:induction false} LeadingDigitsOf(d: string, rest: string)
    requires forall c <- d :: IsDigit(c)
    requires rest == "" || !IsDigit(rest[0])
    ensures LeadingDigits(d + rest) == d
  {
    if d == "" {
      assert d + rest == rest;
    } else {
      LeadingDigitsOf(d[1..], rest);
      assert (d + rest)[1..] == d[1..] + rest;
      assert d == [d[0]] + d[1..];
    }
  }

  lemma ScanFieldPrinted(literal: string, n: nat, rest: string, limit: nat)
    requires n < limit && (rest == "" || !IsDigit(rest[0]))
    ensures ScanField(literal + Decimal(n) + rest, literal, limit) == Some((n, rest))
  {
    var s := literal + Decimal(n) + rest;
    assert s[|literal|..] == Decimal(n) + rest;
    LeadingDigitsOf(Decimal(n), rest);
    DecimalRoundTrip(n);
    assert (Decimal(n) + rest)[|Decimal(n)|..] == rest;
  }

  function PrintParameters(p: Parameters): string {
    "m=" + Decimal(p.memory) + (",t=" + Decimal(p.time) + (",p=" + Decimal(p.threads)))
  }

  lemma ParametersRoundTrip(p: Parameters)
    requires p.memory < 0x1_0000_0000 && p.time < 0x1_0000_0000 && p.threads < 0x100
    ensures ScanParameters(PrintParameters(p)) == p
  {
    var third := ",p=" + Decimal(p.threads);
    var second := ",t=" + Decimal(p.time) + third;
    ScanFieldPrinted("m=", p.memory, second, 0x1_0000_0000);
    ScanFieldPrinted(",t=", p.time, third, 0x1_0000_0000);
    ScanFieldPrinted(",p=", p.threads, "", 0x100);
    assert third + "" == third;
  }

  // --------------------------------------------------------------- splitting

  function Split(s: string, sep: char): (parts: seq<string>)
    ensures parts != []
  {
    if s == "" then [""]
    else
      var rest := Split(s[1..], sep);
      if s[0] == sep then [""] + rest else [[s[0]] + rest[0]] + rest[1..]
  }

  lemma {:induction false} SplitWhole(s: string, sep: char)
    requires sep !in s
    ensures Split(s, sep) == [s]
  {
    if s != "" {
      SplitWhole(s[1..], sep);
      assert s == [s[0]] + s[1..];
    }
  }

  lemma {:induction false} SplitFirst(a: string, b: string, sep: char)
    requires sep !in a
    ensures Split(a + [sep] + b, sep) == [a] + Split(b, sep)
  {
    var s := a + [sep] + b;
    if a == "" {
      assert s[1..] == b;
    } else {
      SplitFirst(a[1..], b, sep);
      assert s[1..] == a[1..] + [sep] + b;
      assert a == [a[0]] + a[1..];
    }
  }

  // ---------------------------------------------------------------- records

  function Record(version: nat, p: Parameters, salt: seq<Byte>, hash: seq<Byte>): string {
    "" + "$" + ("argon2id" + "$" + ("v=" + Decimal(version) + "$" +
      (PrintParameters(p) + "$" + (Encode(salt) + "$" + Encode(hash)))))
  }

  function HashPassword(argon: Argon, password: seq<Byte>, salt: seq<Byte>): string {
    Record(VERSION, Parameters(MEMORY, TIME, THREADS), salt, argon(password, salt, TIME, MEMORY, THREADS, KEY_LENGTH))
  }

  datatype Outcome = Malformed | Checked(matches: bool)

  /** The scheme name and the version are read and then not looked at. */
  function VerifyPassword(argon: Argon, password: seq<Byte>, record: string): Outcome {
    var parts := Split(record, '$');
    if |parts| != 6 then Malformed
    else
      var p := ScanParameters(parts[3]);
      var salt, hash := Base64.Decode(parts[4]), Base64.Decode(parts[5]);
      if salt.None? || hash.None? then Malformed
      else Checked(argon(password, salt.value, p.time, p.memory, p.threads, |hash.value|) == hash.value)
  }

  lemma NoDollarInNumbers(n: nat)
    ensures '$' !in Decimal(n)
  {}

  lemma NoDollarInEncoded(bytes: seq<Byte>)
    ensures '$' !in Encode(bytes)
  {
    ValuesOfEncoded(bytes);
    assert Value('$').None?;
  }

  lemma NoDollarInParameters(p: Parameters)
    ensures '$' !in PrintParameters(p)
  {
    NoDollarInNumbers(p.memory);
    NoDollarInNumbers(p.time);
    NoDollarInNumbers(p.threads);
  }

  lemma RecordSplits(version: nat, p: Parameters, salt: seq<Byte>, hash: seq<Byte>)
    ensures Split(Record(version, p, salt, hash), '$') ==
      ["", "argon2id", "v=" + Decimal(version), PrintParameters(p), Encode(salt), Encode(hash)]
  {
    var e := Encode(salt) + "$" + Encode(hash);
    var d := PrintParameters(p) + "$" + e;
    var c := "v=" + Decimal(version) + "$" + d;
    var b := "argon2id" + "$" + c;
    NoDollarInNumbers(version);
    NoDollarInParameters(p);
    NoDollarInEncoded(salt);
    NoDollarInEncoded(hash);
    SplitWhole(Encode(hash), '$');
    SplitFirst(Encode(salt), Encode(hash), '$');
    SplitFirst(PrintParameters(p), e, '$');
    SplitFirst("v=" + Decimal(version), d, '$');
    SplitFirst("argon2id", c, '$');
    SplitFirst("", b, '$');
  }

  lemma ParametersFormat(p: Parameters)
    ensures PrintParameters(p) == "m=" + Decimal(p.memory) + ",t=" + Decimal(p.time) + ",p=" + Decimal(p.threads)
  {}

  /** A record has exactly six parts, whatever the salt and the hash. */
  lemma RecordParts(version: nat, p: Parameters, salt: seq<Byte>, hash: seq<Byte>)
    ensures Split(Record(version, p, salt, hash), '$') ==
      ["", "argon2id", "v=" + Decimal(version),
       "m=" + Decimal(p.memory) + ",t=" + Decimal(p.time) + ",p=" + Decimal(p.threads), Encode(salt), Encode(hash)]
  {
    RecordSplits(version, p, salt, hash);
    ParametersFormat(p);
  }

  /** Reading a record of any parameters, salt and hash gives back just those. */
  lemma RecordRoundTrip(version: nat, p: Parameters, salt: seq<Byte>, hash: seq<Byte>)
    requires version < INT_LIMIT && p.memory < 0x1_0000_0000 && p.time < 0x1_0000_0000 && p.threads < 0x100
    ensures var parts := Split(Record(version, p, salt, hash), '$');
      && |parts| == 6
      && ScanField(parts[2], "v=", INT_LIMIT) == Some((version, ""))
      && ScanParameters(parts[3]) == p
      && Base64.Decode(parts[4]) == Some(salt)
      && Base64.Decode(parts[5]) == Some(hash)
  {
    RecordSplits(version, p, salt, hash);
    ParametersRoundTrip(p);
    Base64RoundTrip(salt);
    Base64RoundTrip(hash);
    ScanFieldPrinted("v=", version, "", INT_LIMIT);
    assert "v=" + Decimal(version) + "" == "v=" + Decimal(version);
  }

  lemma FixedNumbers()
    ensures Decimal(19) == "19" && Decimal(1) == "1" && Decimal(4) == "4" && Decimal(65536) == "65536"
  {
    assert Decimal(6) == "6" && Decimal(65) == "65" && Decimal(655) == "655" && Decimal(6553) == "6553";
  }

  /** The fields in their order, whatever they hold. */
  lemma RecordFormat(v: string, m: string, t: string, p: string, salt: string, hash: string)
    ensures "" + "$" + ("argon2id" + "$" + ("v=" + v + "$" +
              (("m=" + m + (",t=" + t + (",p=" + p))) + "$" + (salt + "$" + hash))))
         == "$argon2id$v=" + v + "$m=" + m + ",t=" + t + ",p=" + p + "$" + salt + "$" + hash
  {
    assert "$argon2id$v=" == "$" + "argon2id" + "$" + "v=" && "$m=" == "$" + "m=";
  }

  /** What is stored, to the letter. */
  lemma StoredPasswordFormat(argon: Argon, password: seq<Byte>, salt: seq<Byte>)
    ensures HashPassword(argon, password, salt)
         == "$argon2id$v=" + "19" + "$m=" + "65536" + ",t=" + "1" + ",p=" + "4" + "$" + Encode(salt)
            + "$" + Encode(argon(password, salt, 1, 65536, 4, 32))
  {
    FixedNumbers();
    RecordFormat("19", "65536", "1", "4", Encode(salt), Encode(argon(password, salt, 1, 65536, 4, 32)));
  }

  // --------------------------------------------------------- any other string

  function Join(parts: seq<string>, sep: char): string {
    if |parts| == 0 then "" else if |parts| == 1 then parts[0] else parts[0] + [sep] + Join(parts[1..], sep)
  }

  lemma {:induction false} SplitCounts(s: string, sep: char)
    ensures |Split(s, sep)| == multiset(s)[sep] + 1
  {
    if s != "" {
      SplitCounts(s[1..], sep);
      assert s == [s[0]] + s[1..];
    }
  }

  lemma {:induction false} SplitCuts(s: string, sep: char)
    ensures forall part <- Split(s, sep) :: sep !in part
  {
    if s != "" {
      SplitCuts(s[1..], sep);
    }
  }

  lemma {:induction false} SplitJoins(s: string, sep: char)
    ensures Join(Split(s, sep), sep) == s
  {
    if s != "" {
      var rest := Split(s[1..], sep);
      SplitJoins(s[1..], sep);
      if s[0] == sep {
        assert ([""] + rest)[1..] == rest;
      } else {
        assert ([[s[0]] + rest[0]] + rest[1..])[1..] == rest[1..];
      }
      assert s == [s[0]] + s[1..];
    }
  }

  /** Splitting cuts at every separator and loses nothing. */
  lemma SplitIsExact(s: string, sep: char)
    ensures |Split(s, sep)| == multiset(s)[sep] + 1
    ensures (forall part <- Split(s, sep) :: sep !in part) && Join(Split(s, sep), sep) == s
  {
    SplitCounts(s, sep);
    SplitCuts(s, sep);
    SplitJoins(s, sep);
  }

  /** A string without exactly five dollar signs is refused, whatever the guess. */
  lemma OtherStringsAreRefused(argon: Argon, guess: seq<Byte>, record: string)
    requires multiset(record)['$'] != 5
    ensures VerifyPassword(argon, guess, record) == Malformed
  {
    SplitIsExact(record, '$');
  }

  /** A stored password accepts exactly the guesses that Argon2id maps to the
      same key under the stored salt; the password itself is one of them. */
  lemma StoredPasswordVerifies(argon: Argon, password: seq<Byte>, salt: seq<Byte>, guess: seq<Byte>)
    requires KeepsLength(argon)
    ensures VerifyPassword(argon, guess, HashPassword(argon, password, salt)) ==
      Checked(argon(guess, salt, TIME, MEMORY, THREADS, KEY_LENGTH) == argon(password, salt, TIME, MEMORY, THREADS, KEY_LENGTH))
    ensures VerifyPassword(argon, password, HashPassword(argon, password, salt)) == Checked(true)
  {
    var hash := argon(password, salt, TIME, MEMORY, THREADS, KEY_LENGTH);
    RecordRoundTrip(VERSION, Parameters(MEMORY, TIME, THREADS), salt, hash);
    assert |hash| == KEY_LENGTH;
  }
}
