/** decode: the decoder of binary headers, which accepts any of the four base64 encodings. */
module Decoder {
  import opened Wrappers
  import opened Base64
  import opened Base64Texts

  /** The order in which decode tries them. */
  const CODECS: seq<Codec> := [Codec(Standard, true), Codec(UrlSafe, true), Codec(Standard, false), Codec(UrlSafe, false)]

  /** The first codec that accepts the string decides. */
  function Lenient(s: string): Option<string> {
    FirstOf(CODECS, s)
  }

  function FirstOf(codecs: seq<Codec>, s: string): Option<string> {
    if codecs == [] then None
    else if DecodeWith(codecs[0], s).Some? then DecodeWith(codecs[0], s)
    else FirstOf(codecs[1..], s)
  }

  /** The text, its line breaks apart, is base64 of one of the four kinds. */
  ghost predicate IsBase64(val: string) {
    exists c: Codec :: Accepted(c, WithoutBreaks(val))
  }

  /** The bytes are the letters' bits, whichever of the kinds it is. */
  ghost predicate AreBitsOf(b: string, val: string) {
    var s := WithoutBreaks(val);
    && |b| == |s| * 3 / 4 - Pads(s)
    && forall c: Codec, i: nat :: Accepted(c, s) && i < |b| ==> b[i] as int == EightBits(c.alphabet, s, i)
  }

  /** decode; the error is that of standard base64. */
  method Decode(val: string) returns (r: Result<string, Codec>)
    ensures r.Ok? <==> IsBase64(val)
    ensures r.Ok? ==> AreBitsOf(r.value, val)
    ensures r.Err? ==> r.error == Codec(Standard, true)
    ensures Lenient(val) == if r.Ok? then Some(r.value) else None
  {
    var firstErr: Option<Codec> := None;
    var i := 0;
    while i < |CODECS|
      invariant 0 <= i <= |CODECS|
      invariant firstErr == if i == 0 then None else Some(CODECS[0])
      invariant FirstOf(CODECS, val) == FirstOf(CODECS[i..], val)
    {
      var b := DecodeWith(CODECS[i], val);
      if b.Some? {
        LenientExactly(val);
        return Ok(b.value);
      }
      if firstErr.None? {
        firstErr := Some(CODECS[i]);
      }
      i := i + 1;
    }
    LenientExactly(val);
    r := Err(firstErr.value);
  }

  /** The lenient decoder accepts what one of its codecs accepts, and reads it as any of them would. */
  lemma LenientExactly(val: string)
    ensures Lenient(val).Some? <==> IsBase64(val)
    ensures Lenient(val).Some? ==> AreBitsOf(Lenient(val).value, val)
  {
    var s := WithoutBreaks(val);
    if Lenient(val).Some? { FirstIsOne(CODECS, val); }
    forall c: Codec ensures Accepted(c, s) <==> DecodeLetters(c, s).Some? { AcceptsExactly(c, s); }
    forall c: Codec | Accepted(c, s)
      ensures Lenient(val) == DecodeLetters(c, s)
      ensures AreBitsBy(Lenient(val).value, s, c)
    {
      AllCodecs(c);
      FirstAgrees(CODECS, c, val);
      BitsByCodec(c, s);
    }
  }

  ghost predicate AreBitsBy(b: string, s: string, c: Codec) {
    |b| == |s| * 3 / 4 - Pads(s) && forall i: nat :: i < |b| ==> b[i] as int == EightBits(c.alphabet, s, i)
  }

  lemma BitsByCodec(c: Codec, s: string)
    requires DecodeLetters(c, s).Some?
    ensures AreBitsBy(DecodeLetters(c, s).value, s, c)
  {
    DecodedBytes(c, s, 0);
    forall i: nat | i < |DecodeLetters(c, s).value|
      ensures DecodeLetters(c, s).value[i] as int == EightBits(c.alphabet, s, i)
    {
      DecodedBytes(c, s, i);
    }
  }

  lemma {:induction false} FirstIsOne(codecs: seq<Codec>, s: string)
    requires FirstOf(codecs, s).Some?
    ensures exists c :: c in codecs && DecodeWith(c, s) == FirstOf(codecs, s)
  {
    if DecodeWith(codecs[0], s).None? {
      FirstIsOne(codecs[1..], s);
    }
  }

  /** Whatever the encoding, decode gives back the bytes. */
  lemma LenientDecodes(c: Codec, b: string)
    requires IsBytes(b)
    ensures Lenient(Encode(c, b)) == Some(b)
  {
    var s := Encode(c, b);
    EncodeHasNoBreaks(c, b);
    NoBreaks(s);
    CodecDecodes(c, b);
    AllCodecs(c);
    FirstAgrees(CODECS, c, s);
  }

  lemma AllCodecs(c: Codec)
    ensures c in CODECS
  {
    assert CODECS[0] == Codec(Standard, true) && CODECS[1] == Codec(UrlSafe, true);
    assert CODECS[2] == Codec(Standard, false) && CODECS[3] == Codec(UrlSafe, false);
    match c {
      case Codec(Standard, p) =>
      case Codec(UrlSafe, p) =>
    }
  }

  lemma {:induction false} FirstAgrees(codecs: seq<Codec>, c: Codec, s: string)
    requires c in codecs && DecodeWith(c, s).Some?
    ensures FirstOf(codecs, s) == DecodeWith(c, s)
  {
    if DecodeWith(codecs[0], s).Some? {
      CodecsAgree(codecs[0], c, WithoutBreaks(s));
    } else {
      FirstAgrees(codecs[1..], c, s);
    }
  }
}
