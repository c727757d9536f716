/** The four base64 encodings of RFC 4648: section 4, section 5, and both without padding as in
    section 3.2.  Strings are strings of bytes. */
module Base64 {
  import opened Wrappers

  datatype Alphabet = Standard | UrlSafe

  datatype Codec = Codec(alphabet: Alphabet, padded: bool)

  predicate IsBytes(s: string) {
    forall i :: 0 <= i < |s| ==> s[i] as int < 256
  }

  /** The character for a six-bit value. */
  function Letter(a: Alphabet, v: int): char
    requires 0 <= v < 64
  {
    if v < 26 then ('A' as int + v) as char
    else if v < 52 then ('a' as int + (v - 26)) as char
    else if v < 62 then ('0' as int + (v - 52)) as char
    else if v == 62 then (if a.Standard? then '+' else '-')
    else (if a.Standard? then '/' else '_')
  }

  /** The six-bit value of a character, or 64 for one outside the alphabet. */
  function ValueOf(a: Alphabet, c: char): (v: int)
    ensures 0 <= v <= 64
  {
    if 'A' <= c <= 'Z' then c as int - 'A' as int
    else if 'a' <= c <= 'z' then c as int - 'a' as int + 26
    else if '0' <= c <= '9' then c as int - '0' as int + 52
    else if c == (if a.Standard? then '+' else '-') then 62
    else if c == (if a.Standard? then '/' else '_') then 63
    else 64
  }

  predicate InAlphabet(a: Alphabet, s: string) {
    forall i :: 0 <= i < |s| ==> ValueOf(a, s[i]) < 64
  }

  lemma LetterHasValue(a: Alphabet, v: int)
    requires 0 <= v < 64
    ensures ValueOf(a, Letter(a, v)) == v
  {
  }

  // ---- one group -----------------------------------------------------------------------------

  function Byte(n: int): char
    requires 0 <= n < 256
  {
    n as char
  }

  /** The letters of a 24-bit number. */
  function Letters(a: Alphabet, n: int): (s: string)
    requires 0 <= n < 0x100_0000
    ensures |s| == 4
  {
    [Letter(a, n / 262144), Letter(a, n / 4096 % 64), Letter(a, n / 64 % 64), Letter(a, n % 64)]
  }

  /** The 24-bit number of four letters. */
  function Number(a: Alphabet, s: string): (n: int)
    requires |s| == 4 && InAlphabet(a, s)
    ensures 0 <= n < 0x100_0000
  {
    ValueOf(a, s[0]) * 262144 + ValueOf(a, s[1]) * 4096 + ValueOf(a, s[2]) * 64 + ValueOf(a, s[3])
  }

  function Bytes(n: int): (s: string)
    requires 0 <= n < 0x100_0000
    ensures |s| == 3
  {
    [Byte(n / 65536), Byte(n / 256 % 256), Byte(n % 256)]
  }

  /** The number three bytes make, absent ones counting as zero. */
  function Pack(b: string): (n: int)
    requires IsBytes(b) && 1 <= |b| <= 3
    ensures 0 <= n < 0x100_0000
  {
    b[0] as int * 65536 + (if |b| > 1 then b[1] as int * 256 else 0) + (if |b| > 2 then b[2] as int else 0)
  }

  lemma LastOctet(m: int, z: int)
    requires 0 <= z < 256
    ensures (m * 256 + z) / 256 == m && (m * 256 + z) % 256 == z
  {
  }

  lemma FirstOctet(x: int, r: int)
    requires 0 <= r < 65536
    ensures (x * 65536 + r) / 65536 == x
  {
  }

  lemma Octets(x: int, y: int, z: int)
    requires 0 <= x < 256 && 0 <= y < 256 && 0 <= z < 256
    ensures var n := x * 65536 + y * 256 + z; n / 65536 == x && n / 256 % 256 == y && n % 256 == z
  {
    var m := x * 256 + y;
    assert x * 65536 + y * 256 + z == m * 256 + z;
    LastOctet(m, z);
    LastOctet(x, y);
    FirstOctet(x, y * 256 + z);
  }

  lemma PackBytes(b: string)
    requires IsBytes(b) && 1 <= |b| <= 3
    ensures Bytes(Pack(b))[..|b|] == b
  {
    Octets(b[0] as int, if |b| > 1 then b[1] as int else 0, if |b| > 2 then b[2] as int else 0);
  }

  lemma TwoSextets(n: int)
    requires n >= 0
    ensures n / 4096 == n / 64 / 64
  {
  }

  lemma ThreeSextets(n: int)
    requires n >= 0
    ensures n / 262144 == n / 4096 / 64
  {
  }

  lemma Sextets(n: int)
    requires 0 <= n < 0x100_0000
    ensures n / 262144 * 262144 + n / 4096 % 64 * 4096 + n / 64 % 64 * 64 + n % 64 == n
  {
    var m, k := n / 64, n / 4096;
    TwoSextets(n);
    ThreeSextets(n);
    assert n == m * 64 + n % 64;
    assert m == k * 64 + m % 64;
    assert k == k / 64 * 64 + k % 64;
  }

  lemma LettersNumber(a: Alphabet, n: int)
    requires 0 <= n < 0x100_0000
    ensures InAlphabet(a, Letters(a, n)) && Number(a, Letters(a, n)) == n
  {
    LetterHasValue(a, n / 262144);
    LetterHasValue(a, n / 4096 % 64);
    LetterHasValue(a, n / 64 % 64);
    LetterHasValue(a, n % 64);
    Sextets(n);
  }

  // ---- whole strings ---------------------------------------------------------------------------

  function Encode(c: Codec, b: string): (s: string)
    requires IsBytes(b)
  {
    if b == "" then ""
    else if |b| >= 3 then Letters(c.alphabet, Pack(b[..3])) + Encode(c, b[3..])
    else Letters(c.alphabet, Pack(b))[..|b|+1] + (if !c.padded then "" else if |b| == 2 then "=" else "==")
  }

  /** The letters of a last, short group; nothing if it is not one. */
  function Body(c: Codec, s: string): (r: Option<string>)
    ensures r.Some? ==> 2 <= |r.value| <= 3 && r.value <= s
  {
    if !c.padded then (if |s| == 2 || |s| == 3 then Some(s) else None)
    else if |s| == 4 && s[3] == '=' then Some(if s[2] == '=' then s[..2] else s[..3])
    else None
  }

  /** Strict as to alphabet, padding and length; bits left over in a short group are ignored. */
  function DecodeLetters(c: Codec, s: string): Option<string> {
    if s == "" then Some("")
    else if |s| >= 4 && InAlphabet(c.alphabet, s[..4]) then
      match DecodeLetters(c, s[4..])
      case None => None
      case Some(rest) => Some(Bytes(Number(c.alphabet, s[..4])) + rest)
    else
      var body := Body(c, s);
      if body.None? || !InAlphabet(c.alphabet, body.value) then None
      else Some(ShortGroup(c.alphabet, body.value))
  }

  function ShortGroup(a: Alphabet, body: string): string
    requires 2 <= |body| <= 3 && InAlphabet(a, body)
  {
    var full := if |body| == 2 then body + "AA" else body + "A";
    assert forall i :: 0 <= i < |full| ==> full[i] == if i < |body| then body[i] else 'A';
    Bytes(Number(a, full))[..|body|-1]
  }

  predicate IsBreak(c: char) {
    c == '\n' || c == '\r'
  }

  /** Line breaks in the input are skipped. */
  function WithoutBreaks(s: string): string {
    if s == "" then ""
    else if IsBreak(s[0]) then WithoutBreaks(s[1..])
    else [s[0]] + WithoutBreaks(s[1..])
  }

  function DecodeWith(c: Codec, s: string): Option<string> {
    DecodeLetters(c, WithoutBreaks(s))
  }

  // ---- each codec undoes itself -----------------------------------------------------------------

  /** The missing bytes of a short group leave zero bits. */
  lemma ZeroBits(x: int, y: int)
    ensures (x * 65536 + y * 256) % 64 == 0 && x * 65536 / 64 % 64 == 0
  {
    assert x * 65536 + y * 256 == 64 * (x * 1024 + y * 4);
    assert x * 65536 == 64 * (x * 1024) && x * 1024 == 64 * (x * 16);
  }

  lemma FillsUp(a: Alphabet, b: string)
    requires IsBytes(b) && 1 <= |b| <= 2
    ensures Letters(a, Pack(b)) == Letters(a, Pack(b))[..|b|+1] + (if |b| == 1 then "AA" else "A")
  {
    ZeroBits(b[0] as int, if |b| == 2 then b[1] as int else 0);
  }

  lemma ShortGroupDecodes(c: Codec, b: string)
    requires IsBytes(b) && 1 <= |b| <= 2
    ensures DecodeLetters(c, Encode(c, b)) == Some(b)
  {
    var n := Pack(b);
    var s := Letters(c.alphabet, n);
    LettersNumber(c.alphabet, n);
    PackBytes(b);
    var body := s[..|b|+1];
    var e := Encode(c, b);
    assert ValueOf(c.alphabet, s[2]) < 64;
    assert e[..|b|+1] == body && (!c.padded ==> e == body) && (c.padded ==> |e| == 4 && e[3] == '=');
    assert c.padded ==> (e[2] == '=' <==> |b| == 1);
    assert Body(c, e) == Some(body);
    FillsUp(c.alphabet, b);
    assert s == if |body| == 2 then body + "AA" else body + "A";
  }

  lemma {:induction false} CodecDecodes(c: Codec, b: string)
    requires IsBytes(b)
    ensures DecodeLetters(c, Encode(c, b)) == Some(b)
  {
    if |b| >= 3 {
      var s := Letters(c.alphabet, Pack(b[..3]));
      LettersNumber(c.alphabet, Pack(b[..3]));
      PackBytes(b[..3]);
      CodecDecodes(c, b[3..]);
      var whole := s + Encode(c, b[3..]);
      assert whole[..4] == s && whole[4..] == Encode(c, b[3..]);
      assert Bytes(Pack(b[..3])) == b[..3] && b[..3] + b[3..] == b;
    } else if b != "" {
      ShortGroupDecodes(c, b);
    }
  }

  lemma {:induction false} NoBreaks(s: string)
    requires forall i :: 0 <= i < |s| ==> !IsBreak(s[i])
    ensures WithoutBreaks(s) == s
  {
    if s != "" {
      NoBreaks(s[1..]);
    }
  }

  lemma {:induction false} EncodeHasNoBreaks(c: Codec, b: string)
    requires IsBytes(b)
    ensures forall i :: 0 <= i < |Encode(c, b)| ==> !IsBreak(Encode(c, b)[i])
  {
    if |b| >= 3 {
      EncodeHasNoBreaks(c, b[3..]);
    }
  }

  // ---- codecs that accept the same string agree ----------------------------------------------------

  lemma SharedLettersAgree(a1: Alphabet, a2: Alphabet, ch: char)
    requires ValueOf(a1, ch) < 64 && ValueOf(a2, ch) < 64
    ensures ValueOf(a1, ch) == ValueOf(a2, ch)
  {
  }

  lemma NumbersAgree(a1: Alphabet, a2: Alphabet, s: string)
    requires |s| == 4 && InAlphabet(a1, s) && InAlphabet(a2, s)
    ensures Number(a1, s) == Number(a2, s)
  {
    forall i | 0 <= i < 4 ensures ValueOf(a1, s[i]) == ValueOf(a2, s[i]) { SharedLettersAgree(a1, a2, s[i]); }
  }

  lemma {:induction false} CodecsAgree(c1: Codec, c2: Codec, s: string)
    requires DecodeLetters(c1, s).Some? && DecodeLetters(c2, s).Some?
    ensures DecodeLetters(c1, s) == DecodeLetters(c2, s)
  {
    if s != "" {
      if |s| >= 4 && InAlphabet(c1.alphabet, s[..4]) {
        assert s[..4][3] == s[3];
        assert InAlphabet(c2.alphabet, s[..4]);
        NumbersAgree(c1.alphabet, c2.alphabet, s[..4]);
        CodecsAgree(c1, c2, s[4..]);
      } else {
        if |s| >= 4 && InAlphabet(c2.alphabet, s[..4]) { assert s[..4][3] == s[3]; }
        var body := Body(c1, s).value;
        assert Body(c2, s) == Some(body);
        var full := if |body| == 2 then body + "AA" else body + "A";
        assert forall i :: 0 <= i < |full| ==> full[i] == if i < |body| then body[i] else 'A';
        NumbersAgree(c1.alphabet, c2.alphabet, full);
      }
    }
  }
}
