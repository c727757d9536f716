/** Paths along the edges of a relation. */
module Paths {

  ghost predicate IsPath<N(!new)>(edge: (N, N) -> bool, p: seq<N>, a: N, b: N) {
    && |p| > 0 && p[0] == a && p[|p|-1] == b
    && forall i :: 0 < i < |p| ==> edge(p[i-1], p[i])
  }

  /** Some path leads from a to b. */
  ghost predicate Connects<N(!new)>(edge: (N, N) -> bool, a: N, b: N) {
    exists p :: IsPath(edge, p, a, b)
  }

  lemma ConnectsSelf<N(!new)>(edge: (N, N) -> bool, a: N)
    ensures Connects(edge, a, a)
  {
    assert IsPath(edge, [a], a, a);
  }

  lemma ConnectsEdge<N(!new)>(edge: (N, N) -> bool, a: N, b: N)
    requires edge(a, b)
    ensures Connects(edge, a, b)
  {
    assert IsPath(edge, [a, b], a, b);
  }

  lemma ConnectsThrough<N(!new)>(edge: (N, N) -> bool, a: N, b: N, c: N)
    requires Connects(edge, a, b) && Connects(edge, b, c)
    ensures Connects(edge, a, c)
  {
    var p :| IsPath(edge, p, a, b);
    var q :| IsPath(edge, q, b, c);
    var all := p + q[1..];
    forall i | 0 < i < |all| ensures edge(all[i-1], all[i]) {
      if i < |p| { assert edge(p[i-1], p[i]); } else { assert edge(q[i-|p|+1-1], q[i-|p|+1]); }
    }
    assert IsPath(edge, all, a, c);
  }

  /** A path that leads somewhere else begins with an edge. */
  lemma ConnectsFirst<N(!new)>(edge: (N, N) -> bool, a: N, b: N)
    requires Connects(edge, a, b) && a != b
    ensures exists d :: edge(a, d) && Connects(edge, d, b)
  {
    var p :| IsPath(edge, p, a, b);
    var rest := p[1..];
    forall i | 0 < i < |rest| ensures edge(rest[i-1], rest[i]) {
      assert edge(p[i+1-1], p[i+1]);
    }
    assert edge(p[1-1], p[1]) && IsPath(edge, rest, p[1], b);
  }

  /** What an edge never leads out of, no path does. */
  lemma ClosedHolds<N(!new)>(edge: (N, N) -> bool, good: N -> bool, a: N, b: N)
    requires forall x, y :: good(x) && edge(x, y) ==> good(y)
    requires good(a) && Connects(edge, a, b)
    ensures good(b)
  {
    var p :| IsPath(edge, p, a, b);
    var i := 0;
    while i < |p| - 1
      invariant 0 <= i < |p| && good(p[i])
    {
      assert edge(p[i+1-1], p[i+1]);
      i := i + 1;
    }
  }
}
