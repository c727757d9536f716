/** Base64 as RFC 4648 tells it: which texts each decoder accepts, and what every byte of the answer is. */
module Base64Texts {
  import opened Wrappers
  import opened Ascii
  import opened Base64

  // ---- the alphabets ----------------------------------------------------------------------------

  /** Tables 1 and 2: A to Z, a to z, 0 to 9, and two more. */
  function Table(a: Alphabet): (table: string)
    ensures |table| == 64
  {
    Run('A', 26) + Run('a', 26) + Run('0', 10) + (if a.Standard? then "+/" else "-_")
  }

  lemma LetterIsTabled(a: Alphabet, v: int)
    requires 0 <= v < 64
    ensures Letter(a, v) == Table(a)[v]
  {
  }

  lemma ValueHasLetter(a: Alphabet, c: char)
    requires ValueOf(a, c) < 64
    ensures Letter(a, ValueOf(a, c)) == c
  {
  }

  /** Each letter stands for its place in the table, and no other character stands for anything. */
  lemma ValuesAreTabled(a: Alphabet, c: char)
    ensures ValueOf(a, c) < 64 <==> c in Table(a)
    ensures ValueOf(a, c) < 64 ==> Table(a)[ValueOf(a, c)] == c
  {
    if ValueOf(a, c) < 64 {
      ValueHasLetter(a, c);
      LetterIsTabled(a, ValueOf(a, c));
    }
    if c in Table(a) {
      var v :| 0 <= v < 64 && Table(a)[v] == c;
      LetterIsTabled(a, v);
      LetterHasValue(a, v);
    }
  }

  predicate AllIn(s: string, table: string) {
    forall i :: 0 <= i < |s| ==> s[i] in table
  }

  lemma InTable(a: Alphabet, s: string)
    ensures InAlphabet(a, s) <==> AllIn(s, Table(a))
  {
    forall i | 0 <= i < |s| ensures ValueOf(a, s[i]) < 64 <==> s[i] in Table(a) { ValuesAreTabled(a, s[i]); }
  }

  // ---- which texts are accepted ---------------------------------------------------------------------

  /** A padded text: groups of four, all letters but for at most two equal signs at the very end. */
  ghost predicate IsPadded(s: string, table: string, pads: nat) {
    && |s| % 4 == 0 && pads <= 2 && pads <= |s|
    && AllIn(s[..|s|-pads], table)
    && forall i :: |s| - pads <= i < |s| ==> s[i] == '='
  }

  /** What a decoder accepts: letters in groups of four, the last filled up with equal signs; without
      padding any number of letters that leaves no single one over. */
  ghost predicate Accepted(c: Codec, s: string) {
    if c.padded then exists pads: nat :: IsPadded(s, Table(c.alphabet), pads)
    else |s| % 4 != 1 && AllIn(s, Table(c.alphabet))
  }

  lemma PadIsNoLetter(a: Alphabet)
    ensures '=' !in Table(a)
  {
    ValuesAreTabled(a, '=');
  }

  lemma PaddedTail(s: string, table: string, pads: nat)
    requires |s| >= 4 && AllIn(s[..4], table) && '=' !in table
    ensures IsPadded(s, table, pads) <==> IsPadded(s[4..], table, pads)
  {
    var rest := s[4..];
    if IsPadded(s, table, pads) {
      assert s[..4][3] == s[3];
      assert rest[..|rest|-pads] == s[..|s|-pads][4..];
    }
    if IsPadded(rest, table, pads) {
      var front := s[..|s|-pads];
      assert front == s[..4] + rest[..|rest|-pads];
      forall i | |s| - pads <= i < |s| ensures s[i] == '=' { assert s[i] == rest[i-4]; }
    }
  }

  lemma AcceptedTail(c: Codec, s: string)
    requires |s| >= 4 && AllIn(s[..4], Table(c.alphabet))
    ensures Accepted(c, s) <==> Accepted(c, s[4..])
  {
    PadIsNoLetter(c.alphabet);
    forall pads: nat ensures IsPadded(s, Table(c.alphabet), pads) <==> IsPadded(s[4..], Table(c.alphabet), pads) {
      PaddedTail(s, Table(c.alphabet), pads);
    }
    assert s == s[..4] + s[4..];
  }

  /** A text that does not begin with four letters is accepted exactly if it is one short group. */
  lemma ShortText(c: Codec, s: string)
    requires s != "" && !(|s| >= 4 && AllIn(s[..4], Table(c.alphabet)))
    ensures Accepted(c, s) <==> Body(c, s).Some? && AllIn(Body(c, s).value, Table(c.alphabet))
  {
    var table := Table(c.alphabet);
    PadIsNoLetter(c.alphabet);
    if c.padded {
      if pads: nat :| IsPadded(s, table, pads) {
        ShortPadded(s, table, pads);
      }
      if Body(c, s).Some? && AllIn(Body(c, s).value, table) {
        assert IsPadded(s, table, if s[2] == '=' then 2 else 1);
      }
    } else if |s| >= 4 {
      assert s == s[..4] + s[4..];
    }
  }

  lemma ShortPadded(s: string, table: string, pads: nat)
    requires s != "" && !(|s| >= 4 && AllIn(s[..4], table)) && '=' !in table && IsPadded(s, table, pads)
    ensures |s| == 4 && s[3] == '=' && 1 <= pads && (s[2] == '=' <==> pads == 2)
  {
    if |s| - pads >= 4 { FrontIsLetters(s, table, pads); }
    var front := s[..|s|-pads];
    if pads == 1 { assert front[2] == s[2]; }
  }

  lemma FrontIsLetters(s: string, table: string, pads: nat)
    requires IsPadded(s, table, pads) && |s| - pads >= 4
    ensures AllIn(s[..4], table)
  {
    var front := s[..|s|-pads];
    forall i | 0 <= i < 4 ensures s[..4][i] in table { assert front[i] == s[i]; }
  }

  /** A codec decodes a text exactly if it is in its alphabet, in groups, and padded as it should be. */
  lemma {:induction false} AcceptsExactly(c: Codec, s: string)
    ensures DecodeLetters(c, s).Some? <==> Accepted(c, s)
  {
    if s == "" {
      assert IsPadded(s, Table(c.alphabet), 0);
    } else {
      if |s| >= 4 { InTable(c.alphabet, s[..4]); }
      if |s| >= 4 && InAlphabet(c.alphabet, s[..4]) {
        AcceptsExactly(c, s[4..]);
        AcceptedTail(c, s);
      } else {
        ShortText(c, s);
        if Body(c, s).Some? { InTable(c.alphabet, Body(c, s).value); }
      }
    }
  }

  // ---- what a text is decoded to --------------------------------------------------------------------

  /** The six bits of the letter at a place; none where there is no letter. */
  function SixBits(a: Alphabet, s: string, k: nat): (v: int)
    ensures 0 <= v < 64
  {
    if k < |s| && s[k] in Table(a) then ValueOf(a, s[k]) else 0
  }

  /** Four letters' bits, eight at a time. */
  function Octet(x: int, y: int, z: int, w: int, r: int): int {
    match r
    case 0 => x * 4 + y / 16
    case 1 => y % 16 * 16 + z / 4
    case _ => z % 4 * 64 + w
  }

  /** The eight bits at place i when every letter gives six. */
  function EightBits(a: Alphabet, s: string, i: nat): int {
    var k := i / 3 * 4;
    Octet(SixBits(a, s, k), SixBits(a, s, k + 1), SixBits(a, s, k + 2), SixBits(a, s, k + 3), i % 3)
  }

  lemma Quotients(x: int, y: int, z: int, w: int)
    requires 0 <= x < 64 && 0 <= y < 64 && 0 <= z < 64 && 0 <= w < 64
    ensures var n := x * 262144 + y * 4096 + z * 64 + w;
            && n / 65536 == Octet(x, y, z, w, 0)
            && n / 256 % 256 == Octet(x, y, z, w, 1)
            && n % 256 == Octet(x, y, z, w, 2)
  {
    var n := x * 262144 + y * 4096 + z * 64 + w;
    var high, mid, low := x * 4 + y / 16, y % 16 * 16 + z / 4, z % 4 * 64 + w;
    assert y == y / 16 * 16 + y % 16 && z == z / 4 * 4 + z % 4;
    assert n == (high * 256 + mid) * 256 + low;
    LastOctet(high * 256 + mid, low);
    LastOctet(high, mid);
    FirstOctet(high, mid * 256 + low);
  }

  lemma BytesAre(x: int, y: int, z: int, w: int, i: nat)
    requires 0 <= x < 64 && 0 <= y < 64 && 0 <= z < 64 && 0 <= w < 64 && i < 3
    ensures var n := x * 262144 + y * 4096 + z * 64 + w;
            0 <= n < 0x100_0000 && Bytes(n)[i] as int == Octet(x, y, z, w, i)
  {
    var n := x * 262144 + y * 4096 + z * 64 + w;
    assert 0 <= n < 0x100_0000;
    Quotients(x, y, z, w);
    hide Octet;
    assert i == 0 || i == 1 || i == 2;
  }

  lemma LetterBits(a: Alphabet, s: string, k: nat)
    requires k < |s| && InAlphabet(a, s)
    ensures SixBits(a, s, k) == ValueOf(a, s[k])
  {
    ValuesAreTabled(a, s[k]);
  }

  lemma FirstPlaces(i: nat)
    requires i < 3
    ensures i / 3 * 4 == 0 && i % 3 == i
  {
  }

  lemma FirstEight(a: Alphabet, s: string, i: nat)
    requires |s| == 4 && InAlphabet(a, s) && i < 3
    ensures EightBits(a, s, i) == Octet(ValueOf(a, s[0]), ValueOf(a, s[1]), ValueOf(a, s[2]), ValueOf(a, s[3]), i)
  {
    hide SixBits, Octet, ValueOf, InAlphabet;
    FirstPlaces(i);
    LetterBits(a, s, 0);
    LetterBits(a, s, 1);
    LetterBits(a, s, 2);
    LetterBits(a, s, 3);
  }

  lemma GroupBytes(a: Alphabet, s: string, i: nat)
    requires |s| == 4 && InAlphabet(a, s) && i < 3
    ensures Bytes(Number(a, s))[i] as int == EightBits(a, s, i)
  {
    hide Octet, Bytes, ValueOf, EightBits;
    FirstEight(a, s, i);
    BytesAre(ValueOf(a, s[0]), ValueOf(a, s[1]), ValueOf(a, s[2]), ValueOf(a, s[3]), i);
  }

  /** What goes before does not matter, group by group. */
  lemma BitsShift(a: Alphabet, s: string, i: nat)
    requires |s| >= 4 && i >= 3
    ensures EightBits(a, s, i) == EightBits(a, s[4..], i - 3)
  {
    hide Octet, Table, ValueOf;
    var k := i / 3 * 4;
    assert (i - 3) / 3 * 4 == k - 4 && (i - 3) % 3 == i % 3;
    forall j: nat | j >= 4 ensures SixBits(a, s, j) == SixBits(a, s[4..], j - 4) { }
  }

  lemma BitsPrefix(a: Alphabet, s: string, i: nat)
    requires |s| >= 4 && i < 3
    ensures EightBits(a, s, i) == EightBits(a, s[..4], i)
  {
    hide Octet;
    FirstPlaces(i);
  }

  /** How many equal signs a text ends with, at most two. */
  function Pads(s: string): nat {
    if |s| == 0 || s[|s|-1] != '=' then 0 else if |s| > 1 && s[|s|-2] == '=' then 2 else 1
  }

  /** A short group is read as if its missing letters were A. */
  lemma FilledUp(a: Alphabet, body: string, s: string, full: string, i: nat)
    requires 2 <= |body| <= 3 && InAlphabet(a, body) && body <= s && |s| <= 4 && |full| == 4 && i < 3
    requires forall k :: |body| <= k < |s| ==> s[k] == '='
    requires forall k :: 0 <= k < 4 ==> full[k] == if k < |body| then body[k] else 'A'
    ensures InAlphabet(a, full) && EightBits(a, full, i) == EightBits(a, s, i)
  {
    PadIsNoLetter(a);
    ValuesAreTabled(a, 'A');
    forall k: nat | k < 4 ensures SixBits(a, full, k) == SixBits(a, s, k) {
      if k < |body| { assert full[k] == body[k] == s[k]; }
    }
    hide Octet, SixBits;
    FirstPlaces(i);
  }

  lemma ShortGroupIs(a: Alphabet, body: string, i: nat) returns (full: string)
    requires 2 <= |body| <= 3 && InAlphabet(a, body)
    ensures |full| == 4 && (forall k :: 0 <= k < 4 ==> full[k] == if k < |body| then body[k] else 'A')
    ensures InAlphabet(a, full) && ShortGroup(a, body) == Bytes(Number(a, full))[..|body|-1]
  {
    full := if |body| == 2 then body + "AA" else body + "A";
  }

  lemma BodyIs(c: Codec, s: string)
    requires s != "" && !(|s| >= 4 && InAlphabet(c.alphabet, s[..4])) && DecodeLetters(c, s).Some?
    ensures Body(c, s).Some?
    ensures var body := Body(c, s).value;
            && 2 <= |body| <= 3 && body <= s && |s| <= 4 && InAlphabet(c.alphabet, body)
            && (forall k :: |body| <= k < |s| ==> s[k] == '=')
            && DecodeLetters(c, s) == Some(ShortGroup(c.alphabet, body))
            && |body| - 1 == |s| * 3 / 4 - (|s| - |body|)
  {
  }

  lemma ShortGroupBytes(c: Codec, s: string, i: nat)
    requires s != "" && !(|s| >= 4 && InAlphabet(c.alphabet, s[..4])) && DecodeLetters(c, s).Some?
    ensures var b := DecodeLetters(c, s).value;
            && |b| == |s| * 3 / 4 - Pads(s)
            && (i < |b| ==> b[i] as int == EightBits(c.alphabet, s, i))
  {
    hide *;
    BodyIs(c, s);
    var a, body := c.alphabet, Body(c, s).value;
    NoPadInBody(c, s);
    var full := ShortGroupIs(a, body, i);
    if i < |body| - 1 {
      FilledUp(a, body, s, full, i);
      GroupBytes(a, full, i);
    }
  }

  lemma NoPadInBody(c: Codec, s: string)
    requires Body(c, s).Some? && InAlphabet(c.alphabet, Body(c, s).value)
    ensures Pads(s) == |s| - |Body(c, s).value|
  {
    var body := Body(c, s).value;
    PadIsNoLetter(c.alphabet);
    forall k: nat | k < |body| ensures body[k] != '=' { ValuesAreTabled(c.alphabet, body[k]); }
  }

  /** Decoding is reading the letters six bits at a time and writing the bits out eight at a time. */
  lemma {:induction false} DecodedBytes(c: Codec, s: string, i: nat)
    requires DecodeLetters(c, s).Some?
    ensures var b := DecodeLetters(c, s).value;
            && |b| == |s| * 3 / 4 - Pads(s)
            && (i < |b| ==> b[i] as int == EightBits(c.alphabet, s, i))
  {
    hide EightBits, Table, ValueOf, Number, Bytes, ShortGroup;
    var a := c.alphabet;
    if s != "" {
      if |s| >= 4 && InAlphabet(a, s[..4]) {
        var rest := s[4..];
        DecodedBytes(c, rest, if i >= 3 then i - 3 else 0);
        PadsOfTail(a, s);
        if i < 3 { GroupBytes(a, s[..4], i); BitsPrefix(a, s, i); } else { BitsShift(a, s, i); }
      } else {
        ShortGroupBytes(c, s, i);
      }
    }
  }

  lemma PadsOfTail(a: Alphabet, s: string)
    requires |s| >= 4 && InAlphabet(a, s[..4])
    ensures Pads(s[4..]) == Pads(s)
  {
    PadIsNoLetter(a);
    ValuesAreTabled(a, s[3]);
    assert s[..4][3] == s[3];
  }

  // ---- line breaks ------------------------------------------------------------------------------------

  /** Line breaks may stand anywhere. */
  lemma {:induction false} BreaksVanish(s: string, i: nat)
    requires i < |s| && (s[i] == '\r' || s[i] == '\n')
    ensures WithoutBreaks(s) == WithoutBreaks(s[..i] + s[i+1..])
  {
    if i == 0 {
      assert s[..i] + s[i+1..] == s[1..];
    } else {
      BreaksVanish(s[1..], i - 1);
      assert (s[..i] + s[i+1..])[1..] == s[1..][..i-1] + s[1..][i..];
    }
  }

  /** And nothing else is passed over. */
  lemma BreaksOnly(s: string)
    requires '\r' !in s && '\n' !in s
    ensures WithoutBreaks(s) == s
  {
    NoBreaks(s);
  }

  // ---- what bytes are encoded as -----------------------------------------------------------------------

  /** The eight bits of the byte at a place; none past the end. */
  function ByteAt(b: string, k: nat): (v: int)
    requires IsBytes(b)
    ensures 0 <= v < 256
  {
    if k < |b| then b[k] as int else 0
  }

  /** Three bytes' bits, six at a time. */
  function Sextet(x: int, y: int, z: int, r: int): int {
    match r
    case 0 => x / 4
    case 1 => x % 4 * 16 + y / 16
    case 2 => y % 16 * 4 + z / 64
    case _ => z % 64
  }

  /** The six bits for the letter at place i. */
  function SixOf(b: string, i: nat): int
    requires IsBytes(b)
  {
    var k := i / 4 * 3;
    Sextet(ByteAt(b, k), ByteAt(b, k + 1), ByteAt(b, k + 2), i % 4)
  }

  lemma SextetsOf(x: int, y: int, z: int)
    requires 0 <= x < 256 && 0 <= y < 256 && 0 <= z < 256
    ensures var n := x * 65536 + y * 256 + z;
            && n / 262144 == Sextet(x, y, z, 0) && n / 4096 % 64 == Sextet(x, y, z, 1)
            && n / 64 % 64 == Sextet(x, y, z, 2) && n % 64 == Sextet(x, y, z, 3)
  {
    var n := x * 65536 + y * 256 + z;
    var b, c, d := x % 4 * 16 + y / 16, y % 16 * 4 + z / 64, z % 64;
    assert x == x / 4 * 4 + x % 4 && y == y / 16 * 16 + y % 16 && z == z / 64 * 64 + z % 64;
    assert n == ((x / 4 * 64 + b) * 64 + c) * 64 + d;
    SextetTaken((x / 4 * 64 + b) * 64 + c, d);
    SextetTaken(x / 4 * 64 + b, c);
    SextetTaken(x / 4, b);
    TwoSextets(n);
    ThreeSextets(n);
  }

  lemma SextetTaken(m: int, d: int)
    requires 0 <= d < 64
    ensures (m * 64 + d) / 64 == m && (m * 64 + d) % 64 == d
  {
  }

  lemma PackIs(b: string)
    requires IsBytes(b) && 1 <= |b| <= 3
    ensures Pack(b) == ByteAt(b, 0) * 65536 + ByteAt(b, 1) * 256 + ByteAt(b, 2)
  {
  }

  lemma FirstLetters(a: Alphabet, b: string, i: nat)
    requires IsBytes(b) && 1 <= |b| <= 3 && i < 4
    ensures 0 <= SixOf(b, i) < 64 && Letters(a, Pack(b))[i] == Table(a)[SixOf(b, i)]
  {
    var x, y, z := ByteAt(b, 0), ByteAt(b, 1), ByteAt(b, 2);
    PackIs(b);
    SextetsOf(x, y, z);
    assert SixOf(b, i) == Sextet(x, y, z, i) by { hide Sextet, ByteAt; FirstFour(i); }
    hide Sextet, ByteAt, Table, Letter;
    LetterIsTabled(a, if i == 0 then Pack(b) / 262144 else if i == 1 then Pack(b) / 4096 % 64 else if i == 2 then Pack(b) / 64 % 64 else Pack(b) % 64);
  }

  lemma FirstFour(i: nat)
    requires i < 4
    ensures i / 4 * 3 == 0 && i % 4 == i
  {
  }

  lemma SixShift(b: string, i: nat)
    requires IsBytes(b) && |b| >= 3 && i >= 4
    ensures SixOf(b, i) == SixOf(b[3..], i - 4)
  {
    hide Sextet;
    var k := i / 4 * 3;
    assert (i - 4) / 4 * 3 == k - 3 && (i - 4) % 4 == i % 4;
    forall j: nat | j >= 3 ensures ByteAt(b, j) == ByteAt(b[3..], j - 3) { }
  }

  lemma SixPrefix(b: string, i: nat)
    requires IsBytes(b) && |b| >= 3 && i < 4
    ensures SixOf(b, i) == SixOf(b[..3], i)
  {
    hide Sextet;
    FirstFour(i);
  }

  /** The number of letters that hold n bytes. */
  function LetterCount(n: nat): nat {
    (n * 8 + 5) / 6
  }

  /** Encoding is writing out the bits six at a time, in letters of the table; equal signs fill the last group. */
  lemma {:induction false} EncodedLetters(c: Codec, b: string, i: nat)
    requires IsBytes(b)
    ensures |Encode(c, b)| == if c.padded then (|b| + 2) / 3 * 4 else LetterCount(|b|)
    ensures LetterCount(|b|) <= |Encode(c, b)|
    ensures i < LetterCount(|b|) ==> 0 <= SixOf(b, i) < 64 && Encode(c, b)[i] == Table(c.alphabet)[SixOf(b, i)]
    ensures LetterCount(|b|) <= i < |Encode(c, b)| ==> Encode(c, b)[i] == '='
  {
    hide Table, SixOf, Letter, Letters;
    if |b| >= 3 {
      EncodedLetters(c, b[3..], if i >= 4 then i - 4 else 0);
      if i < 4 { FirstLetters(c.alphabet, b[..3], i); SixPrefix(b, i); } else { SixShift(b, i); }
    } else if b != "" && i < 4 {
      FirstLetters(c.alphabet, b, i);
    }
  }
}
