/** Messages in text format, one after the other with the record separator between them: printer and parser. */
module TextFormat {
  import opened Wrappers
  import opened Separated

  const SEP: char := '\U{1E}'

  // ---- the sequence of texts in an input --------------------------------------------------------

  /** The input split at every separator: always at least one text. */
  function Chunks(s: string): seq<string> {
    Split(s, SEP)
  }

  /** No data is one empty message, and a separator at the end stands before one more empty message. */
  lemma EndingsAreMessages(s: string)
    ensures Chunks("") == [""]
    ensures Chunks(s + [SEP]) == Chunks(s) + [""]
  {
    SplitIsWhole(s, SEP);
    JoinSnoc(Chunks(s), "", SEP);
    PlainComesBack(Chunks(s) + [""], SEP);
    assert s + [SEP] + "" == s + [SEP];
  }

  /** The separator is the record separator of ASCII. */
  lemma RecordsAreSeparated(a: string, b: string)
    requires '\U{1E}' !in a && '\U{1E}' !in b
    ensures Chunks(a + "\U{1E}" + b) == [a, b]
  {
    assert Plain([a, b], SEP) && [a, b][1..] == [b];
    assert Join([a, b], SEP) == a + [SEP] + b by { JoinCons(a, [b], SEP); assert [a] + [b] == [a, b]; }
    PlainComesBack([a, b], SEP);
  }

  // ---- the parser -------------------------------------------------------------------------------

  /** What the reader answers when the data has run out. */
  datatype ReadError = Eof | Broken

  datatype NextError = Read(error: ReadError) | Malformed

  class TextRequestParser<M(!new)> {
    const unmarshal: string -> Option<M>
    const ending: ReadError
    var data: string
    var err: Option<ReadError>
    var requestCount: nat

    constructor (data: string, ending: ReadError, unmarshal: string -> Option<M>)
      ensures this.unmarshal == unmarshal && this.ending == ending
      ensures Pending() == Chunks(data) && requestCount == 0 && err == None
    {
      this.data, this.ending, this.unmarshal, err, requestCount := data, ending, unmarshal, None, 0;
    }

    /** The texts still to come. */
    ghost function Pending(): seq<string>
      reads this
    {
      if err.Some? then [] else Chunks(data)
    }

    /** ReadBytes(SEP): up to and including the separator, or all that is left together with the error. */
    method ReadBytes() returns (b: string, e: Option<ReadError>)
      modifies this`data
      ensures IndexOf(old(data), SEP) == |old(data)| ==> b == old(data) && data == "" && e == Some(ending)
      ensures IndexOf(old(data), SEP) < |old(data)| ==>
                b == old(data)[..IndexOf(old(data), SEP) + 1] && data == old(data)[IndexOf(old(data), SEP) + 1..] && e == None
    {
      var i := 0;
      while i < |data| && data[i] != SEP
        invariant 0 <= i <= |data| && SEP !in data[..i]
      {
        i := i + 1;
      }
      if i == |data| {
        assert data[..i] == data;
        IndexIs(data, SEP, i);
        b, data, e := data, "", Some(ending);
      } else {
        IndexIs(data, SEP, i);
        b, data, e := data[..i+1], data[i+1..], None;
      }
    }

    /** Next takes one text. The last one comes with the reader's error: the text still counts at the end
        of the data and is dropped otherwise; after it the error is all there is. */
    method Next() returns (r: Result<M, NextError>)
      modifies this
      ensures old(err).Some? ==>
                r == Err(Read(old(err).value)) && err == old(err) && requestCount == old(requestCount) && data == old(data)
      ensures old(err).None? ==> Pending() == old(Pending())[1..]
      ensures old(err).None? ==> (err.Some? <==> |old(Pending())| == 1) && (err.Some? ==> err == Some(ending))
      ensures old(err).None? && err == Some(Broken) ==> r == Err(Read(Broken)) && requestCount == old(requestCount)
      ensures old(err).None? && err != Some(Broken) ==>
                && requestCount == old(requestCount) + 1
                && r == match unmarshal(old(Pending())[0]) case Some(m) => Ok(m) case None => Err(Malformed)
    {
      if err.Some? {
        return Err(Read(err.value));
      }
      var b: string;
      b, err := ReadBytes();
      if err.Some? && err != Some(Eof) {
        assert err.value.Broken?;
        return Err(Read(err.value));
      }
      if |b| > 0 && b[|b|-1] == SEP {
        b := b[..|b|-1];
      }
      assert b == old(Pending())[0];
      requestCount := requestCount + 1;
      var m := unmarshal(b);
      match m {
        case Some(v) => r := Ok(v);
        case None => r := Err(Malformed);
      }
    }
  }

  // ---- the printer ------------------------------------------------------------------------------

  function WithoutNewline(s: string): string {
    if s != "" && s[|s|-1] == '\n' then s[..|s|-1] else s
  }

  /** A message text as it is printed: after a separator unless it is the first, less one trailing newline. */
  function Formatted(text: string, separator: bool): string {
    WithoutNewline((if separator then [SEP] else "") + text)
  }

  class TextFormatter<M> {
    const marshal: M -> Result<string, string>
    const useSeparator: bool
    var numFormatted: nat

    constructor (useSeparator: bool, marshal: M -> Result<string, string>)
      ensures this.useSeparator == useSeparator && this.marshal == marshal && numFormatted == 0
    {
      this.useSeparator, this.marshal, numFormatted := useSeparator, marshal, 0;
    }

    method Format(m: M) returns (r: Result<string, string>)
      modifies this`numFormatted
      ensures r.Ok? <==> marshal(m).Ok?
      ensures r.Ok? ==> r.value == Formatted(marshal(m).value, useSeparator && old(numFormatted) > 0)
      ensures r.Ok? ==> numFormatted == old(numFormatted) + 1
      ensures r.Err? ==> r == marshal(m) && numFormatted == old(numFormatted)
    {
      var buf := "";
      if useSeparator && numFormatted > 0 {
        buf := buf + [SEP];
      }
      var text := marshal(m);
      if text.Err? {
        return Err(text.error);
      }
      buf := buf + text.value;
      if |buf| > 0 && buf[|buf|-1] == '\n' {
        buf := buf[..|buf|-1];
      }
      numFormatted := numFormatted + 1;
      r := Ok(buf);
    }
  }

  function Decimal(n: nat): string {
    (if n < 10 then "" else Decimal(n / 10)) + ["0123456789"[n % 10]]
  }

  predicate AreDigits(s: string) {
    forall i :: 0 <= i < |s| ==> '0' <= s[i] <= '9'
  }

  /** The number that digits spell. */
  function Spelled(s: string): int
    requires AreDigits(s)
  {
    if s == "" then 0 else Spelled(s[..|s|-1]) * 10 + (s[|s|-1] as int - '0' as int)
  }

  /** A number is printed as the digits that spell it, with none in front that could be left out. */
  lemma {:induction false} DecimalSpells(n: nat)
    ensures var d := Decimal(n); AreDigits(d) && Spelled(d) == n && d != "" && (d[0] == '0' ==> n == 0 && |d| == 1)
  {
    hide Spelled, AreDigits;
    DigitSpells(n % 10);
    var front := if n < 10 then "" else Decimal(n / 10);
    if n < 10 { NothingSpells(); } else { DecimalSpells(n / 10); }
    OneMoreDigit(front, "0123456789"[n % 10]);
  }

  lemma NothingSpells()
    ensures AreDigits("") && Spelled("") == 0
  {
  }

  lemma OneMoreDigit(s: string, c: char)
    requires AreDigits(s) && '0' <= c <= '9'
    ensures AreDigits(s + [c]) && Spelled(s + [c]) == Spelled(s) * 10 + (c as int - '0' as int)
  {
    assert (s + [c])[..|s|] == s;
  }

  lemma DigitSpells(k: nat)
    requires k < 10
    ensures "0123456789"[k] as int == '0' as int + k
  {
  }

  /** What verbose handlers print before a response. */
  function Preamble(verbosity: nat, size: nat): string {
    (if verbosity > 1 then "\nEstimated response size: " + Decimal(size) + " bytes\n" else "")
    + (if verbosity > 0 then "\nResponse contents:\n" else "")
  }

  class EventHandler<M> {
    const formatter: TextFormatter<M>
    const verbosity: nat
    const size: M -> nat
    var out: string
    var numResponses: nat

    constructor (formatter: TextFormatter<M>, verbosity: nat, size: M -> nat)
      ensures this.formatter == formatter && this.verbosity == verbosity && this.size == size && out == "" && numResponses == 0
    {
      this.formatter, this.verbosity, this.size, out, numResponses := formatter, verbosity, size, "", 0;
    }

    /** OnReceiveResponse: a message that cannot be printed is reported, and does not count for the separators. */
    method OnReceiveResponse(resp: M)
      modifies this`out, this`numResponses, formatter`numFormatted
      ensures numResponses == old(numResponses) + 1
      ensures formatter.numFormatted == old(formatter.numFormatted) + if formatter.marshal(resp).Ok? then 1 else 0
      ensures out == old(out) + Preamble(verbosity, size(resp)) +
                match formatter.marshal(resp)
                case Ok(text) => Formatted(text, formatter.useSeparator && old(formatter.numFormatted) > 0) + "\n"
                case Err(e) => "Failed to format response message " + Decimal(numResponses) + ": " + e + "\n"
    {
      numResponses := numResponses + 1;
      ghost var before := out;
      if verbosity > 1 {
        out := out + ("\nEstimated response size: " + Decimal(size(resp)) + " bytes\n");
      }
      if verbosity > 0 {
        out := out + "\nResponse contents:\n";
      }
      assert out == before + Preamble(verbosity, size(resp));
      var respStr := formatter.Format(resp);
      match respStr {
        case Err(e) =>
          out := out + ("Failed to format response message " + Decimal(numResponses) + ": " + e + "\n");
        case Ok(text) =>
          out := out + (text + "\n");
      }
    }
  }

  // ---- printing and reading back ----------------------------------------------------------------

  /** One text as the reader of the output gets it. */
  function Line(text: string): string {
    WithoutNewline(text) + "\n"
  }

  function Lines(texts: seq<string>): seq<string> {
    seq(|texts|, i requires 0 <= i < |texts| => Line(texts[i]))
  }

  lemma FormattedLine(text: string, separator: bool)
    ensures Formatted(text, separator) + "\n" == (if separator then [SEP] else "") + Line(text)
  {
    var s := (if separator then [SEP] else "") + text;
    if text == "" {
      assert s == if separator then [SEP] else "";
    } else {
      assert s[|s|-1] == text[|text|-1];
      assert s[..|s|-1] == (if separator then [SEP] else "") + text[..|text|-1];
    }
  }

  lemma LinesArePlain(texts: seq<string>)
    requires Plain(texts, SEP)
    ensures Plain(Lines(texts), SEP)
  {
    forall i | 0 <= i < |texts| ensures SEP !in Lines(texts)[i] {
      assert SEP !in texts[i];
    }
  }

  ghost predicate AllPrint<M>(marshal: M -> Result<string, string>, msgs: seq<M>) {
    forall i :: 0 <= i < |msgs| ==> marshal(msgs[i]).Ok?
  }

  ghost function Texts<M>(marshal: M -> Result<string, string>, msgs: seq<M>): seq<string>
    requires AllPrint(marshal, msgs)
  {
    seq(|msgs|, i requires 0 <= i < |msgs| => marshal(msgs[i]).value)
  }

  /** What has been printed after i of the texts. */
  ghost function Printed(lines: seq<string>, i: nat): string
    requires i <= |lines|
  {
    if i == 0 then "" else Join(lines[..i], SEP)
  }

  lemma PrintedNext(lines: seq<string>, i: nat, text: string)
    requires i < |lines| && lines[i] == Line(text)
    ensures Printed(lines, i + 1) == Printed(lines, i) + (Formatted(text, i > 0) + "\n")
  {
    FormattedLine(text, i > 0);
    assert lines[..i+1] == lines[..i] + [lines[i]];
    if i > 0 {
      JoinSnoc(lines[..i], lines[i], SEP);
      assert Join(lines[..i], SEP) + [SEP] + lines[i] == Join(lines[..i], SEP) + ([SEP] + lines[i]);
    }
  }

  /** Every response through the handler, as the receive loops of an invocation do: the output is the
      texts, a newline after each, joined by separators. */
  method PrintAll<M>(msgs: seq<M>, handler: EventHandler<M>)
    requires handler.verbosity == 0 && handler.formatter.useSeparator && handler.formatter.numFormatted == 0 && handler.out == ""
    requires |msgs| >= 1 && AllPrint(handler.formatter.marshal, msgs)
    modifies handler`out, handler`numResponses, handler.formatter`numFormatted
    ensures handler.out == Join(Lines(Texts(handler.formatter.marshal, msgs)), SEP)
  {
    ghost var lines := Lines(Texts(handler.formatter.marshal, msgs));
    var i := 0;
    while i < |msgs|
      invariant 0 <= i <= |msgs|
      invariant handler.formatter.numFormatted == i
      invariant handler.out == Printed(lines, i)
    {
      ghost var text := handler.formatter.marshal(msgs[i]).value;
      PrintedNext(lines, i, text);
      assert handler.out + Preamble(0, handler.size(msgs[i])) == handler.out;
      handler.OnReceiveResponse(msgs[i]);
      i := i + 1;
    }
    assert lines[..i] == lines;
  }

  /** The parser has handed out the first n of the chunks. */
  ghost predicate HasRead<M(!new)>(parser: TextRequestParser<M>, chunks: seq<string>, n: nat)
    reads parser
  {
    && n <= |chunks| && parser.ending == Eof && parser.requestCount == n
    && parser.Pending() == chunks[n..]
    && parser.err == if n < |chunks| then None else Some(Eof)
  }

  /** One more call of Next. */
  method ReadOne<M(!new)>(parser: TextRequestParser<M>, ghost chunks: seq<string>, ghost n: nat) returns (r: Result<M, NextError>)
    requires HasRead(parser, chunks, n)
    modifies parser
    ensures n < |chunks| ==> HasRead(parser, chunks, n + 1)
    ensures n < |chunks| ==> r == match parser.unmarshal(chunks[n]) case Some(m) => Ok(m) case None => Err(Malformed)
    ensures n == |chunks| ==> HasRead(parser, chunks, n) && r == Err(Read(Eof)) && parser.requestCount == n
  {
    if n < |chunks| {
      assert chunks[n..][1..] == chunks[n+1..];
    }
    r := parser.Next();
  }

  method StartReading<M(!new)>(data: string, unmarshal: string -> Option<M>) returns (parser: TextRequestParser<M>)
    ensures fresh(parser) && parser.unmarshal == unmarshal && HasRead(parser, Chunks(data), 0)
  {
    parser := new TextRequestParser(data, Eof, unmarshal);
  }

  /** Calling Next until it fails, as the suppliers of an invocation do. */
  method ParseAll<M(!new)>(data: string, unmarshal: string -> Option<M>, ghost msgs: seq<M>)
    returns (parsed: seq<M>, last: Result<M, NextError>, count: nat)
    requires |Chunks(data)| == |msgs|
    requires forall i :: 0 <= i < |msgs| ==> unmarshal(Chunks(data)[i]) == Some(msgs[i])
    ensures parsed == msgs && last == Err(Read(Eof)) && count == |msgs|
  {
    hide HasRead, Chunks;
    ghost var chunks := Chunks(data);
    var parser := StartReading(data, unmarshal);
    parsed := [];
    last := ReadOne(parser, chunks, 0);
    while last.Ok?
      invariant parser.unmarshal == unmarshal && |parsed| <= |msgs|
      invariant HasRead(parser, chunks, |parsed| + (if last.Ok? then 1 else 0))
      invariant forall i :: 0 <= i < |parsed| ==> parsed[i] == msgs[i]
      invariant if last.Ok? then |parsed| < |msgs| && last.value == msgs[|parsed|] else last == Err(Read(Eof)) && |parsed| == |msgs| == parser.requestCount
      decreases |msgs| - |parsed|
    {
      parsed := parsed + [last.value];
      last := ReadOne(parser, chunks, |parsed|);
    }
    count := parser.requestCount;
    assert parsed == msgs;
  }

  /** n messages printed and read back: the same n messages, then the end of the input, and n requests counted. */
  method PrintThenParse<M(!new)>(msgs: seq<M>, handler: EventHandler<M>, unmarshal: string -> Option<M>)
    returns (parsed: seq<M>, last: Result<M, NextError>, count: nat)
    requires handler.verbosity == 0 && handler.formatter.useSeparator && handler.formatter.numFormatted == 0 && handler.out == ""
    requires |msgs| >= 1 && AllPrint(handler.formatter.marshal, msgs) && Plain(Texts(handler.formatter.marshal, msgs), SEP)
    requires forall i :: 0 <= i < |msgs| ==> unmarshal(Line(Texts(handler.formatter.marshal, msgs)[i])) == Some(msgs[i])
    modifies handler`out, handler`numResponses, handler.formatter`numFormatted
    ensures parsed == msgs
    ensures last == Err(Read(Eof))
    ensures count == |msgs|
  {
    ghost var texts := Texts(handler.formatter.marshal, msgs);
    PrintAll(msgs, handler);
    LinesArePlain(texts);
    PlainComesBack(Lines(texts), SEP);
    parsed, last, count := ParseAll(handler.out, unmarshal, msgs);
  }
}
