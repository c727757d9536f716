/** ExpandHeaders: replace every ${NAME} by the environment's value, one name after the other. */
module Expand {
  import opened Wrappers
  import opened Ascii

  type Env = map<string, string>

  predicate IsWord(c: char) {
    '0' <= c <= '9' || 'A' <= c <= 'Z' || 'a' <= c <= 'z' || c == '_'
  }

  /** What the regular expression calls a word character: digits, letters and the underscore. */
  lemma WordCharacters(c: char)
    ensures IsWord(c) <==> c in Run('0', 10) + Run('A', 26) + Run('a', 26) + ['_']
  {
    InRun('0', 10, c);
    InRun('A', 26, c);
    InRun('a', 26, c);
  }

  predicate IsName(n: string) {
    n != "" && forall i :: 0 <= i < |n| ==> IsWord(n[i])
  }

  // ---- references in a text ------------------------------------------------------------------

  datatype Token = Lit(c: char) | Ref(name: string)

  /** The length of the run of word characters a text begins with. */
  function WordLength(s: string): (w: nat)
    ensures w <= |s| && (forall i :: 0 <= i < w ==> IsWord(s[i])) && (w < |s| ==> !IsWord(s[w]))
  {
    if s == "" || !IsWord(s[0]) then 0 else 1 + WordLength(s[1..])
  }

  /** The name referred to at the very start of a text, if the pattern matches there. */
  function RefAt(s: string): (r: Option<string>)
    ensures r.Some? ==> IsName(r.value) && Pattern(r.value) <= s
  {
    if |s| >= 2 && s[0] == '$' && s[1] == '{' then
      var w := WordLength(s[2..]);
      if w > 0 && 2 + w < |s| && s[2 + w] == '}' then
        var n := s[2..2 + w];
        assert Pattern(n) == s[..w + 3];
        Some(n)
      else None
    else None
  }

  function Pattern(n: string): string {
    "${" + n + "}"
  }

  /** The text cut into references, leftmost first, and what is between them. */
  function Tokens(s: string): seq<Token> {
    if s == "" then []
    else match RefAt(s)
      case Some(n) => [Ref(n)] + Tokens(s[|n| + 3..])
      case None => [Lit(s[0])] + Tokens(s[1..])
  }

  function Text(ts: seq<Token>): string {
    if ts == [] then ""
    else (match ts[0] case Lit(c) => [c] case Ref(n) => Pattern(n)) + Text(ts[1..])
  }

  lemma {:induction false} TextOfTokens(s: string)
    ensures Text(Tokens(s)) == s
  {
    if s != "" {
      match RefAt(s) {
        case Some(n) =>
          TextOfTokens(s[|n| + 3..]);
          assert s[..|n| + 3] == Pattern(n);
        case None => TextOfTokens(s[1..]);
      }
    }
  }

  /** FindAllString: the names referred to, in order, with repetitions. */
  function Names(s: string): seq<string> {
    NamesIn(Tokens(s))
  }

  function NamesIn(ts: seq<Token>): seq<string> {
    if ts == [] then []
    else (match ts[0] case Lit(_) => [] case Ref(n) => [n]) + NamesIn(ts[1..])
  }

  // ---- what the loop computes ---------------------------------------------------------------------

  /** strings.Replace with no limit. */
  function ReplaceAll(s: string, old_: string, new_: string): string
    requires old_ != ""
    decreases |s|
  {
    if s == "" then ""
    else if old_ <= s then new_ + ReplaceAll(s[|old_|..], old_, new_)
    else [s[0]] + ReplaceAll(s[1..], old_, new_)
  }

  /** Replace name after name in the text as it stands by then. */
  function Sequential(s: string, names: seq<string>, env: Env): string
    requires forall n :: n in names ==> n in env
  {
    if names == [] then s
    else
      var last := names[|names|-1];
      ReplaceAll(Sequential(s, names[..|names|-1], env), Pattern(last), env[last])
  }

  predicate AllSet(names: seq<string>, env: Env) {
    forall n :: n in names ==> n in env
  }

  /** The inner loop of ExpandHeaders: replace name after name, up to one that is not set. */
  method ExpandHeader(header: string, results: seq<string>, env: Env) returns (r: Result<string, string>)
    ensures r.Ok? <==> AllSet(results, env)
    ensures r.Ok? ==> r.value == Sequential(header, results, env)
    ensures r.Err? ==> r.error in results && r.error !in env
  {
    var expandedHeader := header;
    var j := 0;
    while j < |results|
      invariant 0 <= j <= |results| && AllSet(results[..j], env)
      invariant expandedHeader == Sequential(header, results[..j], env)
    {
      var name := results[j];
      assert name in results;
      if name !in env {
        return Err(name);
      }
      assert results[..j+1][..j] == results[..j];
      expandedHeader := ReplaceAll(expandedHeader, Pattern(name), env[name]);
      j := j + 1;
    }
    assert results[..j] == results;
    r := Ok(expandedHeader);
  }

  /** ExpandHeaders; the error names the variable that is missing. */
  method ExpandHeaders(headers: seq<string>, env: Env) returns (r: Result<seq<string>, string>)
    ensures r.Err? <==> exists i :: 0 <= i < |headers| && !AllSet(Names(headers[i]), env)
    ensures r.Err? ==> r.error !in env && exists i :: 0 <= i < |headers| && r.error in Names(headers[i])
    ensures r.Ok? ==> |r.value| == |headers|
    ensures r.Ok? ==> forall i :: 0 <= i < |headers| ==>
              AllSet(Names(headers[i]), env) && r.value[i] == Sequential(headers[i], Names(headers[i]), env)
  {
    var expandedHeaders := seq(|headers|, _ => "");
    var idx := 0;
    while idx < |headers|
      invariant 0 <= idx <= |headers| && |expandedHeaders| == |headers|
      invariant forall i :: 0 <= i < idx ==>
                  AllSet(Names(headers[i]), env) && expandedHeaders[i] == Sequential(headers[i], Names(headers[i]), env)
      invariant forall i :: idx <= i < |headers| ==> expandedHeaders[i] == ""
    {
      var header := headers[idx];
      if header != "" {
        var results := Names(header);
        if |results| == 0 {
          expandedHeaders := expandedHeaders[idx := header];
        } else {
          var expanded := ExpandHeader(header, results, env);
          if expanded.Err? {
            return Err(expanded.error);
          }
          expandedHeaders := expandedHeaders[idx := expanded.value];
        }
      }
      idx := idx + 1;
    }
    r := Ok(expandedHeaders);
  }

  // ---- what one would want: all references at once ---------------------------------------------------

  function Simultaneous(ts: seq<Token>, env: Env): string
    requires AllSet(NamesIn(ts), env)
  {
    if ts == [] then ""
    else
      assert ts[0].Ref? ==> ts[0].name in NamesIn(ts);
      (match ts[0] case Lit(c) => [c] case Ref(n) => env[n]) + Simultaneous(ts[1..], env)
  }

  /** A dollar sign outside the references has an ordinary character other than a brace after it, or nothing. */
  predicate InertAt(ts: seq<Token>, i: nat) {
    i < |ts| && ts[i] == Lit('$') ==> i + 1 == |ts| || (ts[i+1].Lit? && ts[i+1].c != '{')
  }

  /** No dollar sign could begin a reference that is not there yet, and names are as the pattern wants them. */
  ghost predicate Tidy(ts: seq<Token>) {
    && (forall i: nat :: i < |ts| && ts[i].Ref? ==> IsName(ts[i].name))
    && (forall i: nat :: InertAt(ts, i))
  }

  /** Each dollar sign in a value has some other character than a brace after it. */
  predicate InertValue(v: string) {
    forall i :: 0 <= i < |v| && v[i] == '$' ==> i + 1 < |v| && v[i+1] != '{'
  }

  lemma TidyTail(ts: seq<Token>)
    requires Tidy(ts) && ts != []
    ensures Tidy(ts[1..])
  {
    forall i: nat ensures InertAt(ts[1..], i) {
      assert InertAt(ts, i + 1);
    }
  }

  lemma TidyCons(t: Token, ts: seq<Token>)
    requires Tidy(ts) && InertAt([t] + ts, 0) && (t.Ref? ==> IsName(t.name))
    ensures Tidy([t] + ts)
  {
    forall i: nat | i > 0 ensures InertAt([t] + ts, i) {
      assert InertAt(ts, i - 1);
    }
  }

  function Lits(s: string): (ts: seq<Token>)
    ensures |ts| == |s| && forall i :: 0 <= i < |s| ==> ts[i] == Lit(s[i])
  {
    seq(|s|, i requires 0 <= i < |s| => Lit(s[i]))
  }

  /** Put a value in the place of one name, token by token. */
  function Put(ts: seq<Token>, n: string, v: string): seq<Token> {
    if ts == [] then []
    else (if ts[0] == Ref(n) then Lits(v) else [ts[0]]) + Put(ts[1..], n, v)
  }

  lemma Regroup(x: string, y: string, z: string)
    ensures x + (y + z) == x + y + z
  {
  }

  lemma {:induction false} TextConcat(a: seq<Token>, b: seq<Token>)
    ensures Text(a + b) == Text(a) + Text(b)
  {
    if a == [] {
      assert a + b == b;
    } else {
      TextConcat(a[1..], b);
      assert (a + b)[1..] == a[1..] + b;
      Regroup(match a[0] case Lit(c) => [c] case Ref(n) => Pattern(n), Text(a[1..]), Text(b));
    }
  }

  lemma {:induction false} TextOfLits(s: string)
    ensures Text(Lits(s)) == s
  {
    if s != "" {
      TextOfLits(s[1..]);
      assert Lits(s)[1..] == Lits(s[1..]);
    }
  }

  /** Where there is no dollar sign, nothing is replaced. */
  lemma {:induction false} SkipPlain(x: string, rest: string, n: string, v: string)
    requires '$' !in x
    ensures ReplaceAll(x + rest, Pattern(n), v) == x + ReplaceAll(rest, Pattern(n), v)
  {
    if x == "" {
      assert x + rest == rest;
    } else {
      assert x[0] in x && (x + rest)[0] != Pattern(n)[0];
      assert (x + rest)[1..] == x[1..] + rest;
      SkipPlain(x[1..], rest, n, v);
    }
  }

  /** Nor where the dollar sign has something else than a brace after it. */
  lemma SkipDollar(rest: string, n: string, v: string)
    requires rest == "" || rest[0] != '{'
    ensures ReplaceAll("$" + rest, Pattern(n), v) == "$" + ReplaceAll(rest, Pattern(n), v)
  {
    var s := "$" + rest;
    assert s[1..] == rest && Pattern(n)[1] == '{';
  }

  /** One name's pattern does not begin another's. */
  lemma PatternsDiffer(m: string, n: string, rest: string)
    requires IsName(m) && IsName(n) && m != n
    ensures !(Pattern(n) <= Pattern(m) + rest)
  {
    var s := Pattern(m) + rest;
    if |n| < |m| {
      assert IsWord(m[|n|]) && s[|n| + 2] == m[|n|] && Pattern(n)[|n| + 2] == '}';
    } else if |m| < |n| {
      assert IsWord(n[|m|]) && s[|m| + 2] == '}' && Pattern(n)[|m| + 2] == n[|m|];
    } else {
      var i :| 0 <= i < |n| && n[i] != m[i];
      assert Pattern(n)[i + 2] == n[i] && s[i + 2] == m[i];
    }
  }

  /** A reference to the name is replaced by the value ... */
  lemma ReplaceHere(n: string, rest: string, v: string)
    ensures ReplaceAll(Pattern(n) + rest, Pattern(n), v) == v + ReplaceAll(rest, Pattern(n), v)
  {
    assert (Pattern(n) + rest)[|Pattern(n)|..] == rest;
  }

  /** ... and a reference to another is passed over. */
  lemma PatternTail(m: string)
    requires IsName(m)
    ensures Pattern(m) == ['$'] + ("{" + m + "}") && '$' !in "{" + m + "}"
  {
  }

  lemma ReplacePast(m: string, n: string, rest: string, v: string)
    requires IsName(m) && IsName(n) && m != n
    ensures ReplaceAll(Pattern(m) + rest, Pattern(n), v) == Pattern(m) + ReplaceAll(rest, Pattern(n), v)
  {
    hide IsName, Pattern;
    PatternTail(m);
    PatternsDiffer(m, n, rest);
    var tail := "{" + m + "}";
    var s := Pattern(m) + rest;
    assert Pattern(m) == ['$'] + tail;
    assert s[1..] == tail + rest && s[0] == '$';
    SkipPlain(tail, rest, n, v);
    assert ['$'] + (tail + ReplaceAll(rest, Pattern(n), v)) == Pattern(m) + ReplaceAll(rest, Pattern(n), v);
  }

  lemma TextOfOne(t: Token, ts: seq<Token>)
    ensures Text([t] + ts) == Text([t]) + Text(ts)
    ensures Text([t]) == match t case Lit(c) => [c] case Ref(n) => Pattern(n)
  {
    TextConcat([t], ts);
  }

  lemma {:induction false} ReplaceIsPut(ts: seq<Token>, n: string, v: string)
    requires Tidy(ts) && IsName(n)
    ensures ReplaceAll(Text(ts), Pattern(n), v) == Text(Put(ts, n, v))
  {
    if ts != [] {
      var rest := Text(ts[1..]);
      TidyTail(ts);
      ReplaceIsPut(ts[1..], n, v);
      TextOfOne(ts[0], Put(ts[1..], n, v));
      if ts[0] == Lit('$') {
        assert InertAt(ts, 0);
        SkipDollar(rest, n, v);
      } else if ts[0].Lit? {
        SkipPlain([ts[0].c], rest, n, v);
      } else if ts[0].name == n {
        ReplaceHere(n, rest, v);
        TextConcat(Lits(v), Put(ts[1..], n, v));
        TextOfLits(v);
      } else {
        ReplacePast(ts[0].name, n, rest, v);
      }
    }
  }

  /** Put all the names in, one after the other. */
  function PutAll(ts: seq<Token>, names: seq<string>, env: Env): seq<Token>
    requires AllSet(names, env)
  {
    if names == [] then ts
    else
      var last := names[|names|-1];
      Put(PutAll(ts, names[..|names|-1], env), last, env[last])
  }

  ghost predicate InertValues(names: seq<string>, env: Env) {
    forall n :: n in names ==> IsName(n) && n in env && InertValue(env[n])
  }

  lemma {:induction false} LitsTidy(v: string, ts: seq<Token>)
    requires InertValue(v) && Tidy(ts)
    ensures Tidy(Lits(v) + ts)
  {
    if v == "" {
      assert Lits(v) + ts == ts;
    } else {
      assert forall i :: 0 <= i < |v| - 1 ==> v[1..][i] == v[i+1];
      LitsTidy(v[1..], ts);
      assert Lits(v) + ts == [Lit(v[0])] + (Lits(v[1..]) + ts);
      TidyCons(Lit(v[0]), Lits(v[1..]) + ts);
    }
  }

  lemma {:induction false} PutTidy(ts: seq<Token>, n: string, v: string)
    requires Tidy(ts) && InertValue(v)
    ensures Tidy(Put(ts, n, v))
  {
    if ts != [] {
      TidyTail(ts);
      PutTidy(ts[1..], n, v);
      if ts[0] == Ref(n) {
        LitsTidy(v, Put(ts[1..], n, v));
      } else {
        assert InertAt(ts, 0);
        TidyCons(ts[0], Put(ts[1..], n, v));
      }
    }
  }

  lemma {:induction false} SequentialIsPutAll(ts: seq<Token>, names: seq<string>, env: Env)
    requires Tidy(ts) && InertValues(names, env)
    ensures Tidy(PutAll(ts, names, env)) && Sequential(Text(ts), names, env) == Text(PutAll(ts, names, env))
  {
    if names != [] {
      var front := names[..|names|-1];
      var last := names[|names|-1];
      assert last in names;
      SequentialIsPutAll(ts, front, env);
      PutTidy(PutAll(ts, front, env), last, env[last]);
      ReplaceIsPut(PutAll(ts, front, env), last, env[last]);
    }
  }

  /** The value put in last is never looked at again. */
  lemma SequentialIsPutLast(ts: seq<Token>, names: seq<string>, env: Env)
    requires Tidy(ts) && names != [] && InertValues(names[..|names|-1], env)
    requires IsName(names[|names|-1]) && names[|names|-1] in env && AllSet(names, env)
    ensures Sequential(Text(ts), names, env) == Text(PutAll(ts, names, env))
  {
    var front, last := names[..|names|-1], names[|names|-1];
    SequentialIsPutAll(ts, front, env);
    ReplaceIsPut(PutAll(ts, front, env), last, env[last]);
  }

  lemma {:induction false} PutConcat(a: seq<Token>, b: seq<Token>, n: string, v: string)
    ensures Put(a + b, n, v) == Put(a, n, v) + Put(b, n, v)
  {
    if a == [] {
      assert a + b == b;
    } else {
      assert (a + b)[1..] == a[1..] + b;
      PutConcat(a[1..], b, n, v);
    }
  }

  lemma {:induction false} PutAllConcat(a: seq<Token>, b: seq<Token>, names: seq<string>, env: Env)
    requires AllSet(names, env)
    ensures PutAll(a + b, names, env) == PutAll(a, names, env) + PutAll(b, names, env)
  {
    if names != [] {
      var front := names[..|names|-1];
      PutAllConcat(a, b, front, env);
      PutConcat(PutAll(a, front, env), PutAll(b, front, env), names[|names|-1], env[names[|names|-1]]);
    }
  }

  /** Literal text is never touched. */
  lemma {:induction false} PutLits(s: string, n: string, v: string)
    ensures Put(Lits(s), n, v) == Lits(s)
  {
    if s != "" {
      assert Lits(s)[1..] == Lits(s[1..]);
      PutLits(s[1..], n, v);
    }
  }

  /** One token in the end: a literal stays, a reference named in the list is its value. */
  lemma {:induction false} PutAllOne(t: Token, names: seq<string>, env: Env)
    requires AllSet(names, env)
    ensures PutAll([t], names, env) ==
            if t.Ref? && t.name in names then Lits(env[t.name]) else [t]
  {
    if names != [] {
      var front := names[..|names|-1];
      var last := names[|names|-1];
      assert names == front + [last];
      PutAllOne(t, front, env);
      if t.Ref? && t.name in front {
        PutLits(env[t.name], last, env[last]);
      } else {
        assert Put([t], last, env[last]) == (if t == Ref(last) then Lits(env[last]) else [t]) + Put([t][1..], last, env[last]);
        assert Put([t][1..], last, env[last]) == [];
      }
    }
  }

  lemma {:induction false} PutAllIsSimultaneous(ts: seq<Token>, names: seq<string>, env: Env)
    requires AllSet(names, env) && AllSet(NamesIn(ts), env) && forall n :: n in NamesIn(ts) ==> n in names
    ensures Text(PutAll(ts, names, env)) == Simultaneous(ts, env)
  {
    if ts == [] {
      PutAllEmpty(names, env);
    } else {
      assert ts == [ts[0]] + ts[1..];
      PutAllConcat([ts[0]], ts[1..], names, env);
      PutAllOne(ts[0], names, env);
      PutAllIsSimultaneous(ts[1..], names, env);
      TextConcat(PutAll([ts[0]], names, env), PutAll(ts[1..], names, env));
      if ts[0].Ref? {
        assert ts[0].name in NamesIn(ts);
        TextOfLits(env[ts[0].name]);
      } else {
        assert Text([ts[0]]) == [ts[0].c];
      }
    }
  }

  lemma {:induction false} PutAllEmpty(names: seq<string>, env: Env)
    requires AllSet(names, env)
    ensures PutAll([], names, env) == []
  {
    if names != [] {
      PutAllEmpty(names[..|names|-1], env);
    }
  }

  lemma {:induction false} NamesAreNames(s: string)
    ensures forall n :: n in Names(s) ==> IsName(n)
  {
    if s != "" {
      match RefAt(s) {
        case Some(n) => NamesAreNames(s[|n| + 3..]);
        case None => NamesAreNames(s[1..]);
      }
    }
  }

  /** No dollar sign between the references could begin another. */
  ghost predicate InertText(s: string) {
    forall i: nat :: InertAt(Tokens(s), i)
  }

  /** When no dollar sign, in the text between the references or in a value put in before the last, could
      begin a reference (in particular when there is none), replacing name after name comes to the same as
      replacing all references at once. */
  lemma SequentialIsSimultaneous(s: string, env: Env)
    requires InertText(s) && AllSet(Names(s), env)
    requires forall i :: 0 <= i < |Names(s)| - 1 ==> InertValue(env[Names(s)[i]])
    ensures Sequential(s, Names(s), env) == Simultaneous(Tokens(s), env)
  {
    NamesAreNames(s);
    TokensAreNamed(s);
    assert Tidy(Tokens(s));
    TextOfTokens(s);
    if Names(s) != [] { SequentialIsPutLast(Tokens(s), Names(s), env); }
    PutAllIsSimultaneous(Tokens(s), Names(s), env);
  }

  lemma {:induction false} TokensAreNamed(s: string)
    ensures forall i :: 0 <= i < |Tokens(s)| && Tokens(s)[i].Ref? ==> IsName(Tokens(s)[i].name)
  {
    if s != "" {
      match RefAt(s) {
        case Some(n) => TokensAreNamed(s[|n| + 3..]);
        case None => TokensAreNamed(s[1..]);
      }
    }
  }

  lemma {:induction false} WordEnds(n: string, rest: string)
    requires forall i :: 0 <= i < |n| ==> IsWord(n[i])
    ensures WordLength(n + "}" + rest) == |n|
  {
    if n != "" {
      assert (n + "}" + rest)[1..] == n[1..] + "}" + rest;
      WordEnds(n[1..], rest);
    }
  }

  /** A well-formed reference is found where it stands. */
  lemma ReferenceIsFound(n: string, rest: string)
    requires IsName(n)
    ensures Tokens(Pattern(n) + rest) == [Ref(n)] + Tokens(rest) && Names(Pattern(n) + rest) == [n] + Names(rest)
  {
    var s := Pattern(n) + rest;
    WordEnds(n, rest);
    assert s[2..] == n + "}" + rest && s[2..2 + |n|] == n;
    assert RefAt(s) == Some(n) && s[|n| + 3..] == rest;
  }

  lemma SequentialOfTwo(s: string, a: string, b: string, env: Env)
    requires a in env && b in env
    ensures Sequential(s, [a, b], env) == ReplaceAll(ReplaceAll(s, Pattern(a), env[a]), Pattern(b), env[b])
  {
    assert [a, b][..1] == [a] && [a][..0] == [];
    assert Sequential(s, [a][..0], env) == s;
    assert Sequential(s, [a], env) == ReplaceAll(s, Pattern(a), env[a]);
  }

  lemma TwoTokens(a: string, b: string)
    requires IsName(a) && IsName(b)
    ensures Tokens(Pattern(a) + Pattern(b)) == [Ref(a), Ref(b)]
  {
    assert Pattern(b) + "" == Pattern(b);
    ReferenceIsFound(a, Pattern(b));
    ReferenceIsFound(b, "");
  }

  lemma TwoReferences(a: string, b: string, env: Env)
    requires a in env && b in env
    ensures var ts := [Ref(a), Ref(b)];
            NamesIn(ts) == [a, b] && AllSet(NamesIn(ts), env) && Simultaneous(ts, env) == env[a] + env[b]
  {
    var ts := [Ref(a), Ref(b)];
    assert ts[1..] == [Ref(b)] && [Ref(b)][1..] == [];
    assert NamesIn([Ref(b)]) == [b];
    assert Simultaneous([Ref(b)], env) == env[b] + "";
    assert env[b] + "" == env[b];
  }

  lemma ReplaceBoth(p: string, b: string, v: string)
    requires p == Pattern(b)
    ensures ReplaceAll(p + p, p, v) == v + v
  {
    ReplaceHere(b, p, v);
    assert p + "" == p && v + "" == v;
    ReplaceHere(b, "", v);
  }

  lemma ReplaceFirst(a: string, b: string)
    requires IsName(a) && IsName(b) && a != b
    ensures ReplaceAll(Pattern(a) + Pattern(b), Pattern(a), Pattern(b)) == Pattern(b) + Pattern(b)
  {
    ReplaceHere(a, Pattern(b), Pattern(b));
    assert Pattern(b) + "" == Pattern(b);
    ReplacePast(b, a, "", Pattern(b));
  }

  /** A value that spells a reference to a name still to come is replaced in its turn, while
      replacing all at once leaves it: the two differ unless v is that very reference. */
  lemma ValuesAreExpandedAgain(a: string, b: string, v: string)
    requires IsName(a) && IsName(b) && a != b
    ensures var env := map[a := Pattern(b), b := v]; var s := Pattern(a) + Pattern(b);
            && AllSet(Names(s), env)
            && Sequential(s, Names(s), env) == v + v
            && Simultaneous(Tokens(s), env) == Pattern(b) + v
  {
    var env := map[a := Pattern(b), b := v];
    TwoTokens(a, b);
    TwoReferences(a, b, env);
    SequentialOfTwo(Pattern(a) + Pattern(b), a, b, env);
    ReplaceFirst(a, b);
    ReplaceBoth(Pattern(b), b, v);
  }
}
