/** Request metadata: printed as header lines, and read back from them. */
module Metadata {
  import opened Wrappers
  import opened Separated
  import opened HeaderLines
  import Base64
  import Decoder

  type MD = map<string, seq<string>>

  // ---- reading -----------------------------------------------------------------------------------

  function Add(md: MD, name: string, value: string): MD {
    md[name := (if name in md then md[name] else []) + [value]]
  }

  /** All the lines, in order; empty ones do not count. */
  function Parse(headers: seq<string>, fold: Fold): MD {
    if headers == [] then map[]
    else
      var md := Parse(headers[..|headers|-1], fold);
      var last := headers[|headers|-1];
      if last == "" then md else Add(md, ParseLine(last, fold).0, ParseLine(last, fold).1)
  }

  /** The part of MetadataFromHeaders that takes one line apart. */
  method ReadLine(part: string, fold: Fold) returns (headerName: string, val: string)
    ensures (headerName, val) == ParseLine(part, fold)
  {
    var colon := IndexOf(part, ':');
    var pieces := if colon == |part| then [part] else [part[..colon], part[colon+1..]];
    if |pieces| == 1 {
      pieces := pieces + [""];
      assert part[..colon] == part;
    }
    headerName := Lower(Trim(pieces[0]), fold);
    val := Trim(pieces[1]);
    if IsBinary(headerName) {
      var v := Decoder.Decode(val);
      if v.Ok? {
        val := v.value;
      }
    }
  }

  // ---- what the result is, told by the lines alone ---------------------------------------------------

  ghost predicate Named(h: string, k: string, fold: Fold) {
    h != "" && HasName(h, k, fold)
  }

  predicate Rising(at: seq<nat>, n: nat) {
    (forall j :: 0 <= j < |at| ==> at[j] < n) && forall i, j :: 0 <= i < j < |at| ==> at[i] < at[j]
  }

  /** The values are those of the lines at these places, which are all the lines of that name, in order. */
  ghost predicate ValuesAt(vs: seq<string>, headers: seq<string>, k: string, at: seq<nat>, fold: Fold) {
    && |at| == |vs| && Rising(at, |headers|)
    && (forall j :: 0 <= j < |at| ==> Named(headers[at[j]], k, fold) && HasValue(headers[at[j]], k, vs[j]))
    && (forall i: nat :: i < |headers| && Named(headers[i], k, fold) ==> i in at)
  }

  ghost predicate SomeNamed(headers: seq<string>, k: string, fold: Fold) {
    exists i: nat :: i < |headers| && Named(headers[i], k, fold)
  }

  /** The keys are the names of the lines that are not empty, and the n-th value of a key is that of the
      n-th line of that name. */
  ghost predicate Collects(md: MD, headers: seq<string>, fold: Fold) {
    && (forall k :: k in md <==> SomeNamed(headers, k, fold))
    && (forall k :: k in md ==> exists at :: ValuesAt(md[k], headers, k, at, fold))
  }

  lemma LineNamed(h: string, k: string, fold: Fold)
    ensures Named(h, k, fold) <==> h != "" && ParseLine(h, fold).0 == k
    ensures HasValue(h, ParseLine(h, fold).0, ParseLine(h, fold).1)
  {
    NameMeans(h, fold);
    ValueMeans(h, fold);
    if HasName(h, k, fold) { NameOnce(h, k, fold); }
  }

  lemma LongerAt(vs: seq<string>, headers: seq<string>, k: string, at: seq<nat>, v: string, fold: Fold)
    requires headers != [] && ValuesAt(vs, headers[..|headers|-1], k, at, fold)
    ensures var h := headers[|headers|-1];
            && (!Named(h, k, fold) ==> ValuesAt(vs, headers, k, at, fold))
            && (Named(h, k, fold) && HasValue(h, k, v) ==> ValuesAt(vs + [v], headers, k, at + [|headers| - 1], fold))
  {
    var front := headers[..|headers|-1];
    forall i: nat | i < |headers| && Named(headers[i], k, fold) ensures i in at + [|headers| - 1] {
      if i < |front| { assert front[i] == headers[i]; } else { assert (at + [|headers| - 1])[|at|] == i; }
    }
    forall i: nat | i < |front| && Named(headers[i], k, fold) ensures i in at { assert front[i] == headers[i]; }
    forall j | 0 <= j < |at| ensures headers[at[j]] == front[at[j]] { }
  }

  lemma NoneAt(k: string, fold: Fold)
    ensures ValuesAt([], [], k, [], fold)
  {
  }

  function Under(md: MD, k: string): seq<string> {
    if k in md then md[k] else []
  }

  /** What one more line does to the values under a key. */
  lemma UnderNext(headers: seq<string>, k: string, fold: Fold)
    requires headers != []
    ensures var front, h := headers[..|headers|-1], headers[|headers|-1];
            && (k in Parse(headers, fold) <==> k in Parse(front, fold) || Named(h, k, fold))
            && Under(Parse(headers, fold), k) ==
               Under(Parse(front, fold), k) + (if Named(h, k, fold) then [ParseLine(h, fold).1] else [])
            && (Named(h, k, fold) ==> HasValue(h, k, ParseLine(h, fold).1))
  {
    hide Named, HasValue, ParseLine;
    LineNamed(headers[|headers|-1], k, fold);
  }

  lemma {:induction false} ParseAt(headers: seq<string>, k: string, fold: Fold) returns (at: seq<nat>)
    ensures k in Parse(headers, fold) <==> at != []
    ensures ValuesAt(Under(Parse(headers, fold), k), headers, k, at, fold)
  {
    if headers == [] {
      at := [];
      NoneAt(k, fold);
    } else {
      var front, h := headers[..|headers|-1], headers[|headers|-1];
      at := ParseAt(front, k, fold);
      hide Named, HasValue, ParseLine, Parse, ValuesAt, Under;
      UnderNext(headers, k, fold);
      LongerAt(Under(Parse(front, fold), k), headers, k, at, ParseLine(h, fold).1, fold);
      if Named(h, k, fold) { at := at + [|headers| - 1]; }
    }
  }

  lemma ParseCollects(headers: seq<string>, fold: Fold)
    ensures Collects(Parse(headers, fold), headers, fold)
  {
    var md := Parse(headers, fold);
    forall k ensures k in md <==> SomeNamed(headers, k, fold) {
      var at := ParseAt(headers, k, fold);
      if k in md { assert Named(headers[at[0]], k, fold); }
    }
    forall k | k in md ensures exists at :: ValuesAt(md[k], headers, k, at, fold) {
      var at := ParseAt(headers, k, fold);
    }
  }

  /** MetadataFromHeaders */
  method MetadataFromHeaders(headers: seq<string>, fold: Fold) returns (md: MD)
    ensures Collects(md, headers, fold)
    ensures md == Parse(headers, fold)
  {
    ParseCollects(headers, fold);
    hide Collects, ParseLine;
    md := map[];
    var n := 0;
    while n < |headers|
      invariant 0 <= n <= |headers| && md == Parse(headers[..n], fold)
    {
      var part := headers[n];
      assert headers[..n+1][..n] == headers[..n];
      if part != "" {
        var headerName, val := ReadLine(part, fold);
        md := md[headerName := (if headerName in md then md[headerName] else []) + [val]];
      }
      n := n + 1;
    }
    assert headers[..n] == headers;
  }

  /** Lower-casing beyond ASCII makes neither capitals of ASCII nor white space. */
  ghost predicate IsTame(fold: Fold) {
    forall c :: c >= '\U{80}' ==> !('A' <= fold(c) <= 'Z') && (IsSpace(fold(c)) ==> IsSpace(c))
  }

  /** No key has a capital letter, or white space at either end. */
  lemma KeysAreLower(headers: seq<string>, fold: Fold, k: string)
    requires IsTame(fold) && k in Parse(headers, fold)
    ensures Bare(k) && forall i :: 0 <= i < |k| ==> !('A' <= k[i] <= 'Z')
  {
    hide HasName, HasValue, ValuesAt, Parse, IsTame, Bare;
    ParseCollects(headers, fold);
    var i: nat :| i < |headers| && Named(headers[i], k, fold);
    NameIsLower(headers[i], k, fold);
  }

  lemma NameIsLower(h: string, k: string, fold: Fold)
    requires IsTame(fold) && HasName(h, k, fold)
    ensures Bare(k) && forall i :: 0 <= i < |k| ==> !('A' <= k[i] <= 'Z')
  {
    var n, v, bare :| IsLine(h, n, v) && IsTrimmed(n, bare) && IsLowered(bare, k, fold);
    LowerCharsAre(bare, k, fold);
    hide IsTame, IsTrimmed, IsLine;
  }

  lemma LowerCharsAre(s: string, t: string, fold: Fold)
    requires IsTame(fold) && IsLowered(s, t, fold)
    ensures forall i :: 0 <= i < |t| ==> !('A' <= t[i] <= 'Z') && (IsSpace(t[i]) ==> IsSpace(s[i]))
  {
    forall i | 0 <= i < |t| ensures !('A' <= t[i] <= 'Z') && (IsSpace(t[i]) ==> IsSpace(s[i])) { }
  }

  /** The same letter, capital or not. */
  predicate SameLetter(c: char, d: char) {
    c == d || ('A' <= c <= 'Z' && d as int == c as int + 32) || ('A' <= d <= 'Z' && c as int == d as int + 32)
  }

  predicate SameButCase(s: string, t: string) {
    |s| == |t| && forall i :: 0 <= i < |s| ==> SameLetter(s[i], t[i])
  }

  /** Two lines that differ in the case of the name's letters and in white space at most. */
  ghost predicate Alike(g: string, h: string) {
    && (g == "" <==> h == "")
    && exists n, v, name, m, w, other, value ::
         && IsLine(g, n, v) && IsTrimmed(n, name) && IsTrimmed(v, value)
         && IsLine(h, m, w) && IsTrimmed(m, other) && IsTrimmed(w, value)
         && SameButCase(name, other)
  }

  lemma CaseIsLost(s: string, t: string, low: string, fold: Fold)
    requires SameButCase(s, t) && IsLowered(s, low, fold)
    ensures IsLowered(t, low, fold)
  {
    forall i | 0 <= i < |t|
      ensures if t[i] >= '\U{80}' then low[i] == fold(t[i])
              else if 'A' <= t[i] <= 'Z' then 'a' <= low[i] <= 'z' && low[i] as int - 'a' as int == t[i] as int - 'A' as int
              else low[i] == t[i]
    {
      assert SameLetter(s[i], t[i]);
    }
  }

  lemma AlikeLines(g: string, h: string, fold: Fold)
    requires Alike(g, h)
    ensures ParseLine(g, fold) == ParseLine(h, fold) && (g == "" <==> h == "")
  {
    var n, v, name, m, w, other, value :|
      && IsLine(g, n, v) && IsTrimmed(n, name) && IsTrimmed(v, value)
      && IsLine(h, m, w) && IsTrimmed(m, other) && IsTrimmed(w, value)
      && SameButCase(name, other);
    var low := Lower(name, fold);
    LowerIs(name, fold);
    CaseIsLost(name, other, low, fold);
    hide IsLine, IsTrimmed, IsLowered, SameButCase, Lower, ParseLine;
    assert HasName(g, low, fold) && HasName(h, low, fold);
    NameOnce(g, low, fold);
    NameOnce(h, low, fold);
    ValueMeans(g, fold);
    var read := ParseLine(g, fold).1;
    SameText(g, n, v, value, low, read);
    assert HasValue(h, low, read);
    ValueOnce(h, read, fold);
  }

  lemma SameText(h: string, n: string, v: string, text: string, name: string, read: string)
    requires IsLine(h, n, v) && IsTrimmed(v, text) && HasValue(h, name, read)
    ensures Reads(name, text, read)
  {
    hide Reads;
    var n1, v1, bare :| IsLine(h, n1, v1) && IsTrimmed(v1, bare) && Reads(name, bare, read);
    LineOnce(h, n, v);
    LineOnce(h, n1, v1);
    TrimmedOnce(v, text, bare);
  }

  /** Headers that differ in the case of the names' letters, and in white space around names and values, mean the same. */
  lemma {:induction false} CaseAndSpaceDoNotMatter(a: seq<string>, b: seq<string>, fold: Fold)
    requires |a| == |b| && forall i :: 0 <= i < |a| ==> Alike(a[i], b[i])
    ensures Parse(a, fold) == Parse(b, fold)
  {
    hide Alike, ParseLine;
    if a != [] {
      var x, y := a[..|a|-1], b[..|b|-1];
      CaseAndSpaceDoNotMatter(x, y, fold);
      assert Alike(a[|a|-1], b[|b|-1]);
      AlikeLines(a[|a|-1], b[|b|-1], fold);
    }
  }

  // ---- printing ----------------------------------------------------------------------------------

  /** Byte order on strings, as sort.Strings uses it. */
  predicate Before(a: string, b: string) {
    if a == "" then b != ""
    else b != "" && (a[0] < b[0] || (a[0] == b[0] && Before(a[1..], b[1..])))
  }

  /** The first difference decides; a proper prefix comes first. */
  lemma {:induction false} BeforeMeans(a: string, b: string)
    ensures Before(a, b) <==> a < b || exists i :: DiffersAt(a, b, i)
  {
    if a != "" && b != "" && a[0] == b[0] {
      BeforeMeans(a[1..], b[1..]);
      assert a == [a[0]] + a[1..] && b == [b[0]] + b[1..];
      assert a < b <==> a[1..] < b[1..];
      if i :| DiffersAt(a[1..], b[1..], i) { assert DiffersAt(a, b, i + 1); }
      if i :| DiffersAt(a, b, i) { assert a[..i][0] == a[0] && b[..i][0] == b[0]; assert DiffersAt(a[1..], b[1..], i - 1); }
    } else if a != "" && b != "" && a[0] < b[0] {
      assert DiffersAt(a, b, 0);
    }
  }

  /** From here on, and not before, the first is smaller. */
  predicate DiffersAt(a: string, b: string, i: int) {
    0 <= i < |a| && i < |b| && a[..i] == b[..i] && a[i] < b[i]
  }

  ghost predicate IsSorted(keys: seq<string>) {
    forall i, j :: 0 <= i < j < |keys| ==> Before(keys[i], keys[j])
  }

  lemma {:induction false} BeforeIsTotal(a: string, b: string)
    ensures Before(a, b) || Before(b, a) || a == b
    ensures !(Before(a, b) && Before(b, a)) && !Before(a, a)
  {
    if a != "" && b != "" {
      BeforeIsTotal(a[1..], b[1..]);
      assert a == [a[0]] + a[1..] && b == [b[0]] + b[1..];
    }
    if a != "" { BeforeIsIrreflexive(a); }
  }

  lemma {:induction false} BeforeIsIrreflexive(a: string)
    ensures !Before(a, a)
  {
    if a != "" { BeforeIsIrreflexive(a[1..]); }
  }

  lemma {:induction false} BeforeIsTransitive(a: string, b: string, c: string)
    requires Before(a, b) && Before(b, c)
    ensures Before(a, c)
  {
    if a != "" && a[0] == b[0] && b[0] == c[0] {
      BeforeIsTransitive(a[1..], b[1..], c[1..]);
    }
  }

  /** Insert into a sorted list. */
  function Insert(k: string, keys: seq<string>): seq<string> {
    if keys == [] then [k]
    else if Before(k, keys[0]) then [k] + keys
    else [keys[0]] + Insert(k, keys[1..])
  }

  lemma {:induction false} InsertKeepsSorted(k: string, keys: seq<string>)
    requires IsSorted(keys) && k !in keys
    ensures IsSorted(Insert(k, keys)) && forall x :: x in Insert(k, keys) <==> x == k || x in keys
  {
    if keys != [] {
      var r := Insert(k, keys);
      BeforeIsTotal(k, keys[0]);
      if Before(k, keys[0]) {
        forall j | 0 <= j < |keys| ensures Before(k, keys[j]) {
          if j > 0 { BeforeIsTransitive(k, keys[0], keys[j]); }
        }
      } else {
        InsertKeepsSorted(k, keys[1..]);
        assert keys == [keys[0]] + keys[1..];
        forall j | 1 <= j < |r| ensures Before(keys[0], r[j]) {
          assert r[j] == Insert(k, keys[1..])[j-1];
          assert r[j] in Insert(k, keys[1..]);
          if r[j] != k {
            var i :| 0 <= i < |keys[1..]| && keys[1..][i] == r[j];
            assert keys[i+1] == r[j];
          }
        }
      }
    }
  }

  /** The value as it is shown. */
  function Shown(k: string, v: string): string
    requires IsBinary(k) ==> Base64.IsBytes(v)
  {
    if IsBinary(k) then Base64.Encode(Base64.Codec(Base64.Standard, true), v) else v
  }

  function Line(k: string, v: string): string
    requires IsBinary(k) ==> Base64.IsBytes(v)
  {
    k + ": " + Shown(k, v)
  }

  /** Every value of the given keys on a line of its own, in order. */
  function Lines(md: MD, keys: seq<string>): seq<string>
    requires forall k :: k in keys ==> k in md && ValuesOk(k, md[k])
  {
    if keys == [] then []
    else
      var k := keys[|keys|-1];
      assert k in keys;
      Lines(md, keys[..|keys|-1]) + ValueLines(k, md[k])
  }

  function ValueLines(k: string, vs: seq<string>): (ls: seq<string>)
    requires ValuesOk(k, vs)
    ensures |ls| == |vs| && forall i :: 0 <= i < |vs| ==> ls[i] == Line(k, vs[i])
  {
    seq(|vs|, i requires 0 <= i < |vs| => Line(k, vs[i]))
  }

  /** A binary header's value is bytes. */
  predicate ValuesOk(k: string, vs: seq<string>) {
    IsBinary(k) ==> forall i :: 0 <= i < |vs| ==> Base64.IsBytes(vs[i])
  }

  /** Sort a set of keys, whatever order the map hands them out in. */
  method SortKeys(keys: set<string>) returns (sorted: seq<string>)
    ensures IsSorted(sorted) && forall k :: k in sorted <==> k in keys
  {
    sorted := [];
    var rest := keys;
    while rest != {}
      invariant rest <= keys && IsSorted(sorted)
      invariant forall k :: k in sorted <==> k in keys - rest
      decreases rest
    {
      var k :| k in rest;
      InsertKeepsSorted(k, sorted);
      sorted := Insert(k, sorted);
      rest := rest - {k};
    }
  }

  /** So the order of keys in the output is a matter of the keys alone. */
  lemma {:induction false} SortedIsUnique(a: seq<string>, b: seq<string>)
    requires IsSorted(a) && IsSorted(b) && forall k :: k in a <==> k in b
    ensures a == b
  {
    assert (a != [] ==> a[0] in a) && (b != [] ==> b[0] in b);
    if a != [] {
      BeforeIsTotal(a[0], b[0]);
      var i :| 0 <= i < |a| && a[i] == b[0];
      var j :| 0 <= j < |b| && b[j] == a[0];
      assert a[0] == b[0];
      forall k | k in a[1..] ensures k in b[1..] { TailOf(a, b, k); }
      forall k | k in b[1..] ensures k in a[1..] { TailOf(b, a, k); }
      SortedIsUnique(a[1..], b[1..]);
    }
  }

  lemma TailOf(a: seq<string>, b: seq<string>, k: string)
    requires IsSorted(a) && |a| > 0 && |b| > 0 && a[0] == b[0] && k in a[1..] && (k in a ==> k in b)
    ensures k in b[1..]
  {
    var i :| 0 <= i < |a| - 1 && a[1..][i] == k;
    assert a[i+1] == k && Before(a[0], k);
    BeforeIsTotal(a[0], k);
    var j :| 0 <= j < |b| && b[j] == k;
    assert j > 0 && b[1..][j-1] == k;
  }

  ghost predicate Printable(md: MD) {
    forall k :: k in md ==> ValuesOk(k, md[k])
  }

  /** What writing one more line does to the text. */
  lemma LineAppended(so: seq<string>, k: string, v: string)
    requires ValuesOk(k, [v])
    ensures IsBinary(k) ==> Base64.IsBytes(v)
    ensures Join(so + [Line(k, v)], '\n') == (if so == [] then Join(so, '\n') else Join(so, '\n') + "\n") + k + ": " + Shown(k, v)
  {
    assert ValuesOk(k, [v]) && [v][0] == v;
    var l := Line(k, v);
    if so == [] {
      assert so + [l] == [l];
    } else {
      JoinSnoc(so, l, '\n');
      assert Join(so, '\n') + "\n" + (k + ": " + Shown(k, v)) == Join(so, '\n') + "\n" + k + ": " + Shown(k, v);
    }
  }

  /** The lines already written, and j more. */
  function Upto(done: seq<string>, lines: seq<string>, j: nat): seq<string>
    requires j <= |lines|
  {
    done + lines[..j]
  }

  lemma UptoNext(done: seq<string>, lines: seq<string>, j: nat)
    requires j < |lines|
    ensures Upto(done, lines, j + 1) == Upto(done, lines, j) + [lines[j]]
  {
  }

  /** The inner loop of MetadataToString: the lines of one key, after those already written. */
  method WriteValues(b0: string, first0: bool, k: string, vs: seq<string>, ghost done: seq<string>)
    returns (b: string, first: bool)
    requires ValuesOk(k, vs) && b0 == Join(done, '\n') && (first0 <==> done == [])
    ensures b == Join(done + ValueLines(k, vs), '\n') && (first <==> done + ValueLines(k, vs) == [])
  {
    b, first := b0, first0;
    ghost var lines := ValueLines(k, vs);
    assert Upto(done, lines, 0) == done;
    var j := 0;
    while j < |vs|
      invariant 0 <= j <= |vs|
      invariant b == Join(Upto(done, lines, j), '\n') && (first <==> Upto(done, lines, j) == [])
    {
      UptoNext(done, lines, j);
      LineAppended(Upto(done, lines, j), k, vs[j]);
      if first {
        first := false;
      } else {
        b := b + "\n";
      }
      var v := vs[j];
      if IsBinary(k) {
        v := Base64.Encode(Base64.Codec(Base64.Standard, true), v);
      }
      b := b + k + ": " + v;
      j := j + 1;
    }
    assert Upto(done, lines, j) == done + lines;
  }

  lemma LinesNext(md: MD, keys: seq<string>, i: nat)
    requires Printable(md) && i < |keys| && forall k :: k in keys ==> k in md
    ensures keys[i] in md && Lines(md, keys[..i+1]) == Lines(md, keys[..i]) + ValueLines(keys[i], md[keys[i]])
  {
    assert keys[i] in keys && keys[..i+1][..i] == keys[..i];
  }

  /** MetadataToString */
  method MetadataToString(md: MD) returns (text: string, ghost keys: seq<string>)
    requires Printable(md)
    ensures IsSorted(keys) && forall k :: k in keys <==> k in md
    ensures |md| == 0 ==> text == "(empty)"
    ensures |md| != 0 ==> text == Join(Lines(md, keys), '\n')
  {
    if |md| == 0 {
      return "(empty)", [];
    }
    var sorted := SortKeys(md.Keys);
    keys := sorted;
    text := "";
    var first := true;
    var i := 0;
    while i < |sorted|
      invariant 0 <= i <= |sorted|
      invariant text == Join(Lines(md, sorted[..i]), '\n')
      invariant first <==> Lines(md, sorted[..i]) == []
    {
      LinesNext(md, sorted, i);
      text, first := WriteValues(text, first, sorted[i], md[sorted[i]], Lines(md, sorted[..i]));
      i := i + 1;
    }
    assert sorted[..i] == sorted;
  }

  // ---- and back -----------------------------------------------------------------------------------

  /** A key that survives: ASCII, trimmed, in lower case, without a colon or a line break. */
  predicate GoodKey(k: string) {
    IsAscii(k) && Trim(k) == k && (forall i :: 0 <= i < |k| ==> !('A' <= k[i] <= 'Z')) && ':' !in k && '\n' !in k
  }

  /** A value that survives: for a binary header any bytes, else ASCII, trimmed and on one line. */
  predicate GoodValue(k: string, v: string) {
    if IsBinary(k) then Base64.IsBytes(v) else IsAscii(v) && Trim(v) == v && '\n' !in v
  }

  lemma GoodKeyIsLower(k: string, fold: Fold)
    requires GoodKey(k)
    ensures Lower(k, fold) == k
  {
  }

  ghost predicate Good(md: MD) {
    forall k :: k in md ==> GoodKey(k) && md[k] != [] && forall v :: v in md[k] ==> GoodValue(k, v)
  }

  lemma {:induction false} NoSpaceNoTrim(s: string)
    requires s != "" ==> !IsSpace(s[0]) && !IsSpace(s[|s|-1])
    ensures Trim(s) == s
  {
  }

  lemma EncodedIsPlain(v: string)
    requires Base64.IsBytes(v)
    ensures var e := Base64.Encode(Base64.Codec(Base64.Standard, true), v); Trim(e) == e && '\n' !in e
  {
    var c := Base64.Codec(Base64.Standard, true);
    EncodedHasNoSpace(c, v);
    NoSpaceNoTrim(Base64.Encode(c, v));
  }

  lemma LetterIsNoSpace(a: Base64.Alphabet, x: int)
    requires 0 <= x < 64
    ensures !IsSpace(Base64.Letter(a, x))
  {
  }

  lemma {:induction false} EncodedHasNoSpace(c: Base64.Codec, v: string)
    requires Base64.IsBytes(v)
    ensures forall i :: 0 <= i < |Base64.Encode(c, v)| ==> !IsSpace(Base64.Encode(c, v)[i])
  {
    if |v| >= 3 {
      EncodedHasNoSpace(c, v[3..]);
      GroupHasNoSpace(c.alphabet, Base64.Pack(v[..3]));
    } else if v != "" {
      GroupHasNoSpace(c.alphabet, Base64.Pack(v));
    }
  }

  lemma GroupHasNoSpace(a: Base64.Alphabet, n: int)
    requires 0 <= n < 0x100_0000
    ensures forall i :: 0 <= i < 4 ==> !IsSpace(Base64.Letters(a, n)[i])
  {
    LetterIsNoSpace(a, n / 262144);
    LetterIsNoSpace(a, n / 4096 % 64);
    LetterIsNoSpace(a, n / 64 % 64);
    LetterIsNoSpace(a, n % 64);
  }

  lemma LineSplits(k: string, shown: string)
    requires ':' !in k
    ensures var line := k + ": " + shown;
            IndexOf(line, ':') == |k| && line[..|k|] == k && line[|k|+1..] == [' '] + shown && |k| < |line|
  {
    var line := k + ": " + shown;
    assert line == k + [':'] + ([' '] + shown);
    assert line[..|k|] == k && line[|k|] == ':';
    IndexIs(line, ':', |k|);
  }

  lemma SpaceTrims(shown: string)
    ensures Trim([' '] + shown) == Trim(shown)
  {
    assert ([' '] + shown)[1..] == shown;
  }

  lemma ShownDecodes(k: string, v: string)
    requires GoodValue(k, v)
    ensures Trim(Shown(k, v)) == Shown(k, v) && '\n' !in Shown(k, v)
    ensures IsBinary(k) ==> Decoder.Lenient(Shown(k, v)) == Some(v)
  {
    if IsBinary(k) {
      EncodedIsPlain(v);
      Decoder.LenientDecodes(Base64.Codec(Base64.Standard, true), v);
    }
  }

  /** A line that was printed is read as the key and value it came from. */
  lemma LineParses(k: string, v: string, fold: Fold)
    requires GoodKey(k) && GoodValue(k, v)
    ensures ParseLine(Line(k, v), fold) == (k, v) && Line(k, v) != "" && '\n' !in Line(k, v)
  {
    var shown := Shown(k, v);
    ShownDecodes(k, v);
    LineSplits(k, shown);
    SpaceTrims(shown);
    GoodKeyIsLower(k, fold);
  }

  lemma ParseSnoc(lines: seq<string>, k: string, v: string, fold: Fold)
    requires GoodKey(k) && GoodValue(k, v)
    ensures Parse(lines + [Line(k, v)], fold) == Add(Parse(lines, fold), k, v)
  {
    LineParses(k, v, fold);
    var all := lines + [Line(k, v)];
    assert all[..|all|-1] == lines;
  }

  lemma ValueLinesSnoc(lines: seq<string>, k: string, front: seq<string>, last: string)
    requires ValuesOk(k, front + [last])
    ensures ValuesOk(k, front) && (IsBinary(k) ==> Base64.IsBytes(last))
    ensures lines + ValueLines(k, front + [last]) == lines + ValueLines(k, front) + [Line(k, last)]
  {
    var vs := front + [last];
    assert vs[|front|] == last && forall i :: 0 <= i < |front| ==> vs[i] == front[i];
  }

  /** The metadata once some values of a new key have been added. */
  function With(md: MD, k: string, vs: seq<string>): MD {
    if vs == [] then md else md[k := vs]
  }

  lemma AddToNew(md: MD, k: string, front: seq<string>, last: string)
    requires k !in md
    ensures Add(With(md, k, front), k, last) == With(md, k, front + [last])
  {
  }

  lemma {:induction false} ValuesParse(lines: seq<string>, k: string, vs: seq<string>, fold: Fold)
    requires GoodKey(k) && (forall i :: 0 <= i < |vs| ==> GoodValue(k, vs[i])) && ValuesOk(k, vs) && k !in Parse(lines, fold)
    ensures Parse(lines + ValueLines(k, vs), fold) == With(Parse(lines, fold), k, vs)
  {
    if vs == [] {
      assert lines + ValueLines(k, vs) == lines;
    } else {
      var front := vs[..|vs|-1];
      var last := vs[|vs|-1];
      assert vs == front + [last];
      ValueLinesSnoc(lines, k, front, last);
      ValuesParse(lines, k, front, fold);
      ParseSnoc(lines + ValueLines(k, front), k, last, fold);
      AddToNew(Parse(lines, fold), k, front, last);
    }
  }

  /** The values of the first keys, read back. */
  function Part(md: MD, keys: seq<string>): MD {
    map k | k in keys && k in md :: md[k]
  }

  lemma PartSnoc(md: MD, front: seq<string>, k: string)
    requires k in md
    ensures Part(md, front + [k]) == Part(md, front)[k := md[k]]
  {
  }

  lemma LastIsNew(front: seq<string>, k: string)
    requires IsSorted(front + [k])
    ensures k !in front && IsSorted(front)
  {
    var keys := front + [k];
    forall i, j | 0 <= i < j < |front| ensures Before(front[i], front[j]) {
      assert Before(keys[i], keys[j]);
    }
    if k in front {
      var i :| 0 <= i < |front| && front[i] == k;
      assert Before(keys[i], keys[|front|]);
      BeforeIsIrreflexive(k);
    }
  }

  lemma GoodIsPrintable(md: MD)
    requires Good(md)
    ensures Printable(md)
  {
    forall k | k in md ensures ValuesOk(k, md[k]) {
      if IsBinary(k) {
        forall i | 0 <= i < |md[k]| ensures Base64.IsBytes(md[k][i]) { assert md[k][i] in md[k]; }
      }
    }
  }

  lemma {:induction false} LinesParse(md: MD, keys: seq<string>, fold: Fold)
    requires Good(md) && IsSorted(keys) && forall k :: k in keys ==> k in md
    ensures Printable(md)
    ensures Parse(Lines(md, keys), fold) == Part(md, keys)
  {
    GoodIsPrintable(md);
    if keys != [] {
      var front := keys[..|keys|-1];
      var k := keys[|keys|-1];
      assert k in keys && keys == front + [k];
      LastIsNew(front, k);
      LinesParse(md, front, fold);
      PartSnoc(md, front, k);
      forall i | 0 <= i < |md[k]| ensures GoodValue(k, md[k][i]) { assert md[k][i] in md[k]; }
      ValuesParse(Lines(md, front), k, md[k], fold);
    }
  }

  lemma {:induction false} LinesAreWhole(md: MD, keys: seq<string>)
    requires Good(md) && forall k :: k in keys ==> k in md
    ensures Printable(md)
    ensures forall l :: l in Lines(md, keys) ==> '\n' !in l
    ensures keys != [] ==> Lines(md, keys) != []
  {
    GoodIsPrintable(md);
    if keys != [] {
      var k := keys[|keys|-1];
      assert k in keys;
      LinesAreWhole(md, keys[..|keys|-1]);
      forall l | l in ValueLines(k, md[k]) ensures '\n' !in l {
        var i :| 0 <= i < |md[k]| && ValueLines(k, md[k])[i] == l;
        assert md[k][i] in md[k];
        LineParses(k, md[k][i], c => c);
      }
    }
  }

  /** The round trip: split what was printed into lines, read them, and the metadata is back,
      with every key's values in order. */
  lemma RoundTrip(md: MD, keys: seq<string>, fold: Fold)
    requires Good(md) && |md| > 0 && IsSorted(keys) && forall k :: k in keys <==> k in md
    ensures Printable(md)
    ensures Parse(Split(Join(Lines(md, keys), '\n'), '\n'), fold) == md
  {
    assert keys != [] by {
      var k :| k in md;
      assert k in keys;
    }
    LinesAreWhole(md, keys);
    assert Plain(Lines(md, keys), '\n');
    PlainComesBack(Lines(md, keys), '\n');
    LinesParse(md, keys, fold);
    assert Part(md, keys) == md;
  }

  /** A key by itself is a header without a value. */
  lemma KeyAlone(k: string, fold: Fold)
    requires GoodKey(k) && !IsBinary(k)
    ensures ParseLine(k, fold) == (k, "")
  {
    IndexIs(k, ':', |k|);
    assert k[..|k|] == k;
    GoodKeyIsLower(k, fold);
  }

  lemma OneLineParses(line: string, fold: Fold)
    requires line != "" && '\n' !in line
    ensures Parse(Split(line, '\n'), fold) == map[ParseLine(line, fold).0 := [ParseLine(line, fold).1]]
  {
    assert Plain([line], '\n') && Join([line], '\n') == line;
    PlainComesBack([line], '\n');
    assert [line][..0] == [];
    assert Parse([], fold) == map[];
    assert [] + [ParseLine(line, fold).1] == [ParseLine(line, fold).1];
  }

  /** The marker for no metadata reads as a header of that name. */
  lemma EmptyParses(fold: Fold)
    ensures Parse(Split("(empty)", '\n'), fold) == map["(empty)" := [""]]
  {
    var line := "(empty)";
    NoSpaceNoTrim(line);
    assert !IsBinary(line) by { assert line[|line|-4..][0] == 'p'; }
    KeyAlone(line, fold);
    OneLineParses(line, fold);
  }

  /** Metadata printed, its lines taken as headers, and parsed: the same metadata, unless there was none. */
  method PrintThenParse(md: MD, fold: Fold) returns (again: MD)
    requires Good(md)
    ensures again == if |md| == 0 then map["(empty)" := [""]] else md
  {
    GoodIsPrintable(md);
    var text, keys := MetadataToString(md);
    if |md| == 0 { EmptyParses(fold); } else { RoundTrip(md, keys, fold); }
    again := MetadataFromHeaders(Split(text, '\n'), fold);
  }
}
