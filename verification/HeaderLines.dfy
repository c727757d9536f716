/** One header line: taken apart as the parser does it, and what its name and value are. */
module HeaderLines {
  import opened Wrappers
  import opened Separated
  import opened Ascii
  import Base64
  import Base64Texts
  import Decoder

  // ---- strings ---------------------------------------------------------------------------------

  /** White space: texts are sequences of Unicode characters. */
  predicate IsSpace(c: char) {
    || '\t' <= c <= '\r' || c == ' ' || c == '\U{85}' || c == '\U{A0}' || c == '\U{1680}'
    || '\U{2000}' <= c <= '\U{200A}' || c == '\U{2028}' || c == '\U{2029}' || c == '\U{202F}' || c == '\U{205F}' || c == '\U{3000}'
  }

  predicate IsAscii(s: string) {
    forall i :: 0 <= i < |s| ==> s[i] < '\U{80}'
  }

  /** What unicode.ToLower makes of the characters beyond ASCII. */
  type Fold = char -> char

  function TrimLeft(s: string): string {
    if s != "" && IsSpace(s[0]) then TrimLeft(s[1..]) else s
  }

  function TrimRight(s: string): string {
    if s != "" && IsSpace(s[|s|-1]) then TrimRight(s[..|s|-1]) else s
  }

  function Trim(s: string): string {
    TrimRight(TrimLeft(s))
  }

  function LowerChar(c: char, fold: Fold): char {
    if c >= '\U{80}' then fold(c) else if 'A' <= c <= 'Z' then (c as int + 32) as char else c
  }

  function Lower(s: string, fold: Fold): string {
    seq(|s|, i requires 0 <= i < |s| => LowerChar(s[i], fold))
  }

  predicate EndsWith(s: string, suffix: string) {
    |s| >= |suffix| && s[|s|-|suffix|..] == suffix
  }

  predicate IsBinary(name: string) {
    EndsWith(name, "-bin")
  }

  /** One header line as a name and a value. */
  function ParseLine(part: string, fold: Fold): (string, string) {
    var i := IndexOf(part, ':');
    var name := Lower(Trim(part[..i]), fold);
    var raw := Trim(if i == |part| then "" else part[i+1..]);
    var decoded := if IsBinary(name) then Decoder.Lenient(raw) else None;
    (name, if decoded.Some? then decoded.value else raw)
  }

  // ---- what a line means, told without taking it apart -----------------------------------------------

  predicate AllSpace(s: string) {
    forall i :: 0 <= i < |s| ==> IsSpace(s[i])
  }

  /** The characters that Unicode 15 calls white space, one by one. */
  lemma SpacesAre(c: char)
    ensures IsSpace(c) <==>
              || c in ['\U{09}', '\U{0A}', '\U{0B}', '\U{0C}', '\U{0D}', '\U{20}', '\U{85}', '\U{A0}', '\U{1680}']
              || c in Run('\U{2000}', 11) || c in ['\U{2028}', '\U{2029}', '\U{202F}', '\U{205F}', '\U{3000}']
  {
    InRun('\U{2000}', 11, c);
  }

  predicate Bare(t: string) {
    t != "" ==> !IsSpace(t[0]) && !IsSpace(t[|t|-1])
  }

  /** s is t with white space around it. */
  ghost predicate IsTrimmed(s: string, t: string) {
    Bare(t) && exists l, r :: s == l + t + r && AllSpace(l) && AllSpace(r)
  }

  /** t is s in lower case: A to Z become a to z, the rest of ASCII stays. */
  predicate IsLowered(s: string, t: string, fold: Fold) {
    && |t| == |s|
    && forall i :: 0 <= i < |s| ==>
         if s[i] >= '\U{80}' then t[i] == fold(s[i])
         else if 'A' <= s[i] <= 'Z' then 'a' <= t[i] <= 'z' && t[i] as int - 'a' as int == s[i] as int - 'A' as int
         else t[i] == s[i]
  }

  /** A line is a name and a value with a colon between them; without one it is all name. */
  predicate IsLine(h: string, n: string, v: string) {
    ':' !in n && (h == n + ":" + v || (h == n && v == ""))
  }

  ghost predicate HasName(h: string, name: string, fold: Fold) {
    exists n, v, bare :: IsLine(h, n, v) && IsTrimmed(n, bare) && IsLowered(bare, name, fold)
  }

  /** A binary header whose text is base64 has the bytes for its value; any other, the text itself. */
  ghost predicate Reads(name: string, text: string, value: string) {
    if |name| >= 4 && name[|name|-4..] == "-bin" && Decoder.IsBase64(text) then Decoder.AreBitsOf(value, text)
    else value == text
  }

  ghost predicate HasValue(h: string, name: string, value: string) {
    exists n, v, bare :: IsLine(h, n, v) && IsTrimmed(v, bare) && Reads(name, bare, value)
  }

  lemma {:induction false} TrimLeftIs(s: string) returns (l: string)
    ensures s == l + TrimLeft(s) && AllSpace(l) && (TrimLeft(s) != "" ==> !IsSpace(TrimLeft(s)[0]))
  {
    if s != "" && IsSpace(s[0]) {
      l := TrimLeftIs(s[1..]);
      assert s == [s[0]] + s[1..];
      l := [s[0]] + l;
    } else {
      l := "";
    }
  }

  lemma {:induction false} TrimRightIs(s: string) returns (r: string)
    ensures s == TrimRight(s) + r && AllSpace(r) && (TrimRight(s) != "" ==> !IsSpace(TrimRight(s)[|TrimRight(s)|-1]))
  {
    if s != "" && IsSpace(s[|s|-1]) {
      r := TrimRightIs(s[..|s|-1]);
      assert s == s[..|s|-1] + [s[|s|-1]];
      r := r + [s[|s|-1]];
    } else {
      r := "";
    }
  }

  lemma TrimIs(s: string)
    ensures IsTrimmed(s, Trim(s))
  {
    var l := TrimLeftIs(s);
    var r := TrimRightIs(TrimLeft(s));
    assert s == l + Trim(s) + r;
    if Trim(s) != "" { assert Trim(s)[0] == TrimLeft(s)[0]; }
  }

  /** All of s is white space but for the characters from `lo` up to `hi`, which are not at either end. */
  predicate Spans(s: string, lo: nat, hi: nat) {
    && lo <= hi <= |s|
    && (forall i :: 0 <= i < lo ==> IsSpace(s[i])) && (forall i :: hi <= i < |s| ==> IsSpace(s[i]))
    && (lo < hi ==> !IsSpace(s[lo]) && !IsSpace(s[hi-1]))
  }

  lemma TrimmedSpans(s: string, l: string, t: string, r: string)
    requires s == l + t + r && AllSpace(l) && AllSpace(r) && Bare(t)
    ensures Spans(s, |l|, |l| + |t|) && t == s[|l|..|l|+|t|]
  {
    forall i | 0 <= i < |l| ensures IsSpace(s[i]) { assert s[i] == l[i]; }
    forall i | |l| + |t| <= i < |s| ensures IsSpace(s[i]) { assert s[i] == r[i-|l|-|t|]; }
  }

  lemma SpansOnce(s: string, lo: nat, hi: nat, from: nat, to: nat)
    requires Spans(s, lo, hi) && Spans(s, from, to)
    ensures s[lo..hi] == s[from..to]
  {
  }

  /** White space can be taken off in one way only. */
  lemma TrimmedOnce(s: string, t: string, u: string)
    requires IsTrimmed(s, t) && IsTrimmed(s, u)
    ensures t == u
  {
    var l, r :| s == l + t + r && AllSpace(l) && AllSpace(r);
    var a, b :| s == a + u + b && AllSpace(a) && AllSpace(b);
    TrimmedSpans(s, l, t, r);
    TrimmedSpans(s, a, u, b);
    SpansOnce(s, |l|, |l| + |t|, |a|, |a| + |u|);
  }

  lemma LowerIs(s: string, fold: Fold)
    ensures IsLowered(s, Lower(s, fold), fold)
  {
  }

  lemma LoweredOnce(s: string, t: string, fold: Fold)
    requires IsLowered(s, t, fold)
    ensures t == Lower(s, fold)
  {
    LowerIs(s, fold);
    forall i | 0 <= i < |s| ensures t[i] == Lower(s, fold)[i] { }
  }

  /** Where a line is taken apart. */
  lemma LineParts(h: string) returns (n: string, v: string)
    ensures IsLine(h, n, v)
    ensures n == h[..IndexOf(h, ':')] && v == if IndexOf(h, ':') == |h| then "" else h[IndexOf(h, ':')+1..]
  {
    var i := IndexOf(h, ':');
    n, v := h[..i], if i == |h| then "" else h[i+1..];
    assert i < |h| ==> h == h[..i] + ":" + h[i+1..];
  }

  lemma LineOnce(h: string, n: string, v: string)
    requires IsLine(h, n, v)
    ensures n == h[..IndexOf(h, ':')] && v == if IndexOf(h, ':') == |h| then "" else h[IndexOf(h, ':')+1..]
  {
    assert h[..|n|] == n;
    IndexIs(h, ':', |n|);
  }

  /** A line has the name it is parsed to, */
  lemma NameMeans(h: string, fold: Fold)
    ensures HasName(h, ParseLine(h, fold).0, fold)
  {
    hide IsTrimmed, IsLowered, IsLine;
    var n, v := LineParts(h);
    TrimIs(n);
    LowerIs(Trim(n), fold);
  }

  lemma DecodedReads(name: string, text: string)
    ensures var decoded := if IsBinary(name) then Decoder.Lenient(text) else None;
            Reads(name, text, if decoded.Some? then decoded.value else text)
  {
    hide Decoder.IsBase64, Decoder.AreBitsOf, Decoder.Lenient;
    Decoder.LenientExactly(text);
  }

  /** and the value. */
  lemma ValueMeans(h: string, fold: Fold)
    ensures HasValue(h, ParseLine(h, fold).0, ParseLine(h, fold).1)
  {
    hide IsTrimmed, IsLine, Reads, IsBinary, Decoder.Lenient;
    var n, v := LineParts(h);
    TrimIs(v);
    DecodedReads(ParseLine(h, fold).0, Trim(v));
  }

  /** And no other name. */
  lemma NameOnce(h: string, name: string, fold: Fold)
    requires HasName(h, name, fold)
    ensures name == ParseLine(h, fold).0
  {
    var n, v, bare :| IsLine(h, n, v) && IsTrimmed(n, bare) && IsLowered(bare, name, fold);
    LineOnce(h, n, v);
    TrimIs(n);
    TrimmedOnce(n, bare, Trim(n));
    LoweredOnce(bare, name, fold);
  }

  lemma BitsOnce(b1: string, b2: string, val: string)
    requires Decoder.IsBase64(val) && Decoder.AreBitsOf(b1, val) && Decoder.AreBitsOf(b2, val)
    ensures b1 == b2
  {
    var c :| Base64Texts.Accepted(c, Base64.WithoutBreaks(val));
    forall i: nat | i < |b1| ensures b1[i] == b2[i] {
      assert b1[i] as int == Base64Texts.EightBits(c.alphabet, Base64.WithoutBreaks(val), i) == b2[i] as int;
    }
  }

  lemma ReadsOnce(name: string, text: string, v: string, w: string)
    requires Reads(name, text, v) && Reads(name, text, w)
    ensures v == w
  {
    hide Decoder.AreBitsOf, Decoder.IsBase64;
    if v != w && Decoder.IsBase64(text) && |name| >= 4 && name[|name|-4..] == "-bin" { BitsOnce(v, w, text); }
  }

  /** And no other value. */
  lemma ValueOnce(h: string, value: string, fold: Fold)
    requires HasValue(h, ParseLine(h, fold).0, value)
    ensures value == ParseLine(h, fold).1
  {
    hide IsTrimmed, IsLine, Reads, IsBinary, Decoder.Lenient;
    var name := ParseLine(h, fold).0;
    var n, v, bare :| IsLine(h, n, v) && IsTrimmed(v, bare) && Reads(name, bare, value);
    LineOnce(h, n, v);
    TrimIs(v);
    TrimmedOnce(v, bare, Trim(v));
    DecodedReads(name, bare);
    ReadsOnce(name, bare, value, ParseLine(h, fold).1);
  }
}
