/** Texts joined by a separator character, and split at it again. */
module Separated {

  /** The index of the first c, or the length if there is none. */
  function IndexOf(s: string, c: char): (i: nat)
    ensures i <= |s| && c !in s[..i] && (i < |s| ==> s[i] == c)
  {
    if s == "" || s[0] == c then 0
    else
      var i := IndexOf(s[1..], c);
      assert s[..i+1] == [s[0]] + s[1..][..i];
      i + 1
  }

  lemma {:induction false} IndexIs(s: string, c: char, i: nat)
    requires i <= |s| && c !in s[..i] && (i < |s| ==> s[i] == c)
    ensures IndexOf(s, c) == i
  {
    if i > 0 {
      assert s[..i][0] == s[0] && s[1..][..i-1] == s[..i][1..];
      IndexIs(s[1..], c, i - 1);
    }
  }

  /** strings.Split: always at least one text. */
  function Split(s: string, c: char): (texts: seq<string>)
    ensures |texts| >= 1
    decreases |s|
  {
    var i := IndexOf(s, c);
    if i == |s| then [s] else [s[..i]] + Split(s[i+1..], c)
  }

  function Join(texts: seq<string>, c: char): string {
    if texts == [] then ""
    else if |texts| == 1 then texts[0]
    else texts[0] + [c] + Join(texts[1..], c)
  }

  /** No text holds the separator. */
  ghost predicate Plain(texts: seq<string>, c: char) {
    forall i :: 0 <= i < |texts| ==> c !in texts[i]
  }

  lemma JoinCons(first: string, rest: seq<string>, c: char)
    requires |rest| >= 1
    ensures Join([first] + rest, c) == first + [c] + Join(rest, c)
    ensures c !in first && Plain(rest, c) ==> Plain([first] + rest, c)
  {
    assert ([first] + rest)[1..] == rest;
  }

  /** Splitting loses nothing, and leaves no separator in any text. */
  lemma {:induction false} SplitIsWhole(s: string, c: char)
    ensures Join(Split(s, c), c) == s && Plain(Split(s, c), c)
    decreases |s|
  {
    var i := IndexOf(s, c);
    if i == |s| {
      assert s[..i] == s;
    } else {
      SplitIsWhole(s[i+1..], c);
      JoinCons(s[..i], Split(s[i+1..], c), c);
      assert s == s[..i] + [c] + s[i+1..];
    }
  }

  lemma {:induction false} PlainComesBack(texts: seq<string>, c: char)
    requires |texts| >= 1 && Plain(texts, c)
    ensures Split(Join(texts, c), c) == texts
  {
    var s := Join(texts, c);
    var a := texts[0];
    if |texts| == 1 {
      assert s[..|a|] == a;
      IndexIs(s, c, |a|);
    } else {
      assert s[..|a|] == a && s[|a|+1..] == Join(texts[1..], c);
      IndexIs(s, c, |a|);
      PlainComesBack(texts[1..], c);
      assert texts == [a] + texts[1..];
    }
  }

  /** Joined texts come back as they were exactly if none holds the separator. */
  lemma OnlyPlainComesBack(texts: seq<string>, c: char)
    requires |texts| >= 1
    ensures Split(Join(texts, c), c) == texts <==> Plain(texts, c)
  {
    SplitIsWhole(Join(texts, c), c);
    if Plain(texts, c) {
      PlainComesBack(texts, c);
    }
  }

  lemma {:induction false} JoinSnoc(texts: seq<string>, last: string, c: char)
    requires |texts| >= 1
    ensures Join(texts + [last], c) == Join(texts, c) + [c] + last
  {
    assert (texts + [last])[1..] == texts[1..] + [last];
    if |texts| > 1 {
      JoinSnoc(texts[1..], last, c);
    }
  }
}
