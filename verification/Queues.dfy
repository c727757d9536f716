/** Order-preserving deletion from a list, as the Go append(q[:i], q[i+1:]...) idiom does it. */
module Queues {

  ghost predicate NoDup<T>(q: seq<T>) {
    forall i, j :: 0 <= i < j < |q| ==> q[i] != q[j]
  }

  /** The list without the first occurrence of x. */
  function RemoveFirst<T(==)>(q: seq<T>, x: T): seq<T> {
    if q == [] then []
    else if q[0] == x then q[1..]
    else [q[0]] + RemoveFirst(q[1..], x)
  }

  /** Deleting at the first index that holds x is RemoveFirst. */
  lemma {:induction false} RemoveFirstAt<T>(q: seq<T>, x: T, i: nat)
    requires i < |q| && q[i] == x && x !in q[..i]
    ensures RemoveFirst(q, x) == q[..i] + q[i+1..]
  {
    if i > 0 {
      assert x in q[..i] || q[0] != x;
      assert q[..i] == [q[0]] + q[1..][..i-1];
      RemoveFirstAt(q[1..], x, i - 1);
      assert q[1..][..i-1] + q[1..][i..] == q[1..i] + q[i+1..];
    }
  }

  /** append(q[:i], q[i+1:]...), where i is the first index of x. */
  method DeleteAt<T>(q: seq<T>, i: nat, ghost x: T) returns (r: seq<T>)
    requires i < |q| && q[i] == x && x !in q[..i]
    ensures r == RemoveFirst(q, x)
  {
    RemoveFirstAt(q, x, i);
    r := q[..i] + q[i+1..];
  }

  lemma {:induction false} RemoveAbsent<T>(q: seq<T>, x: T)
    requires x !in q
    ensures RemoveFirst(q, x) == q
  {
    if q != [] {
      RemoveAbsent(q[1..], x);
    }
  }

  lemma {:induction false} RemoveWithin<T>(q: seq<T>, x: T, y: T)
    requires y in RemoveFirst(q, x)
    ensures y in q
  {
    if q[0] != x && y != q[0] {
      assert y in RemoveFirst(q[1..], x);
      RemoveWithin(q[1..], x, y);
    }
  }

  lemma {:induction false} RemoveFromNoDup<T>(q: seq<T>, x: T)
    requires NoDup(q)
    ensures NoDup(RemoveFirst(q, x)) && x !in RemoveFirst(q, x)
    ensures forall y :: y in RemoveFirst(q, x) <==> y in q && y != x
  {
    if q != [] {
      assert NoDup(q[1..]);
      RemoveFromNoDup(q[1..], x);
      assert q == [q[0]] + q[1..];
      assert q[0] !in q[1..];
      if q[0] != x {
        var r := RemoveFirst(q[1..], x);
        assert q[0] !in r;
        forall i, j | 0 <= i < j < |[q[0]] + r| ensures ([q[0]] + r)[i] != ([q[0]] + r)[j] {
          if i == 0 { assert r[j-1] in r; }
        }
      }
    }
  }

  lemma {:induction false} NoDupCount<T>(q: seq<T>, x: T)
    requires NoDup(q)
    ensures multiset(q)[x] == if x in q then 1 else 0
  {
    if q != [] {
      assert q == [q[0]] + q[1..];
      assert NoDup(q[1..]) && q[0] !in q[1..];
      NoDupCount(q[1..], x);
    }
  }
}
