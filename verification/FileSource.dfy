/** DescriptorSourceFromFileDescriptors: collect linked files by name, refusing two files of one name. */
module FileSource {
  import opened FileGraph

  type Held = map<string, nat>

  ghost predicate Named(files: seq<File>, fds: Held) {
    forall n :: n in fds ==> fds[n] < |files| && files[fds[n]].name == n
  }

  ghost predicate Extends(a: Held, b: Held) {
    forall n :: n in a ==> n in b && b[n] == a[n]
  }

  /** The dependencies of f are held. */
  ghost predicate Settled(files: seq<File>, fds: Held, f: nat) {
    f < |files| && forall d :: d in files[f].deps ==> d in fds.Values
  }

  /** Every held file up to f is settled; files above f may still be in progress. */
  ghost predicate SettledUpTo(files: seq<File>, fds: Held, f: nat) {
    forall x :: x in fds.Values && x <= f ==> Settled(files, fds, x)
  }

  /** What is new in b is reached from f and, but for the exception, settled. */
  ghost predicate NewFrom(files: seq<File>, a: Held, b: Held, f: nat, except: set<nat>)
    requires Linked(files) && f < |files|
  {
    && Extends(a, b)
    && (forall x :: x in b.Values && x !in a.Values ==> Reach(files, f, x))
    && (forall x :: x in b.Values && x !in a.Values && x !in except ==> Settled(files, b, x))
  }

  /** Some file reached from f is not the held file of its name. */
  ghost predicate Clash(files: seq<File>, fds: Held, f: nat)
    requires Linked(files) && f < |files|
  {
    exists y :: 0 <= y < |files| && Reach(files, f, y) && files[y].name in fds && fds[files[y].name] != y
  }

  lemma ExtendsValues(a: Held, b: Held)
    requires Extends(a, b)
    ensures a.Values <= b.Values
  {
    forall x | x in a.Values ensures x in b.Values {
      var n :| n in a && a[n] == x;
      assert b[n] == x;
    }
  }

  lemma InsertedValues(a: Held, name: string, f: nat)
    requires name !in a
    ensures a[name := f].Values == a.Values + {f} && Extends(a, a[name := f])
  {
    var b := a[name := f];
    assert b[name] == f;
    ExtendsValues(a, b);
  }

  lemma ValueIsNamed(files: seq<File>, fds: Held, x: nat)
    requires Named(files, fds) && x in fds.Values
    ensures x < |files| && files[x].name in fds && fds[files[x].name] == x
  {
    var n :| n in fds && fds[n] == x;
  }

  /** One more dependency of f has been added. */
  lemma Onward(files: seq<File>, a: Held, b: Held, c: Held, f: nat, d: nat)
    requires Linked(files) && f < |files| && d in files[f].deps
    requires NewFrom(files, a, b, f, {f}) && NewFrom(files, b, c, d, {})
    ensures NewFrom(files, a, c, f, {f}) && b.Values <= c.Values
  {
    ExtendsValues(b, c);
    forall x | x in c.Values && x !in a.Values && x != f ensures Settled(files, c, x) {
      if x in b.Values { assert Settled(files, b, x); }
    }
  }

  /** All dependencies of f have been added. */
  lemma Completed(files: seq<File>, a: Held, b: Held, f: nat)
    requires Linked(files) && f < |files| && NewFrom(files, a, b, f, {f})
    requires forall j :: 0 <= j < |files[f].deps| ==> files[f].deps[j] in b.Values
    ensures NewFrom(files, a, b, f, {})
  {
  }

  lemma Conflicts(files: seq<File>, fds: Held, f: nat)
    requires Linked(files) && f < |files| && files[f].name in fds && fds[files[f].name] != f
    ensures Clash(files, fds, f)
  {
    assert Reach(files, f, f);
  }

  class Collector {
    const files: seq<File>
    var fds: Held

    constructor (files: seq<File>)
      ensures this.files == files && fds == map[]
    {
      this.files, fds := files, map[];
    }

    /** addFile */
    method AddFile(f: nat) returns (ok: bool)
      requires Linked(files) && Named(files, fds) && f < |files| && SettledUpTo(files, fds, f)
      modifies this`fds
      ensures Named(files, fds)
      ensures ok ==> NewFrom(files, old(fds), fds, f, {}) && f in fds.Values
      ensures !ok ==> Extends(old(fds), fds) && Clash(files, fds, f)
      ensures forall x :: x in fds.Values && x !in old(fds).Values ==> Reach(files, f, x)
      decreases f
    {
      hide Settled, Clash;
      var name := files[f].name;
      assert Reach(files, f, f);
      if name in fds {
        if fds[name] != f { Conflicts(files, fds, f); }
        return fds[name] == f;
      }
      fds := fds[name := f];
      InsertedValues(old(fds), name, f);
      var i := 0;
      while i < |files[f].deps|
        invariant 0 <= i <= |files[f].deps| && Named(files, fds)
        invariant NewFrom(files, old(fds), fds, f, {f}) && f in fds.Values
        invariant forall j :: 0 <= j < i ==> files[f].deps[j] in fds.Values
      {
        var d := files[f].deps[i];
        ghost var mid := fds;
        Beneath(files, old(fds), mid, f, d);
        var added := AddFile(d);
        if !added {
          Lifted(files, old(fds), mid, fds, f, d);
          return false;
        }
        Onward(files, old(fds), mid, fds, f, d);
        i := i + 1;
      }
      Completed(files, old(fds), fds, f);
      ok := true;
    }

    /** DescriptorSourceFromFileDescriptors */
    method AddAll(roots: seq<nat>) returns (ok: bool)
      requires Linked(files) && fds == map[] && forall r :: r in roots ==> r < |files|
      modifies this`fds
      ensures ok <==> Unambiguous(files, roots)
      ensures ok ==> Named(files, fds) && forall x :: x in fds.Values <==> ReachAny(files, roots, x)
    {
      hide Clash, Unambiguous, Extends, Reach;
      var i := 0;
      while i < |roots|
        invariant 0 <= i <= |roots| && Named(files, fds)
        invariant forall x :: x in fds.Values ==> Settled(files, fds, x) && ReachAny(files, roots, x)
        invariant forall j :: 0 <= j < i ==> roots[j] in fds.Values
      {
        ghost var mid := fds;
        assert roots[i] in roots;
        var added := AddFile(roots[i]);
        ExtendsValues(mid, fds);
        if !added {
          ClashIsAmbiguous(files, fds, roots, roots[i]);
          return false;
        }
        forall x | x in fds.Values ensures Settled(files, fds, x) {
          if x in mid.Values { assert Settled(files, mid, x); }
        }
        i := i + 1;
      }
      AllHeld(files, fds, roots);
      ok := true;
    }
  }

  lemma Beneath(files: seq<File>, a: Held, b: Held, f: nat, d: nat)
    requires Linked(files) && f < |files| && d in files[f].deps
    requires NewFrom(files, a, b, f, {f}) && SettledUpTo(files, a, f)
    ensures SettledUpTo(files, b, d)
  {
    ExtendsValues(a, b);
    forall x | x in b.Values && x <= d ensures Settled(files, b, x) {
      if x in a.Values { assert Settled(files, a, x); }
    }
  }

  lemma Lifted(files: seq<File>, a: Held, b: Held, c: Held, f: nat, d: nat)
    requires Linked(files) && f < |files| && d in files[f].deps
    requires NewFrom(files, a, b, f, {f}) && Extends(b, c) && Clash(files, c, d)
    requires forall x :: x in c.Values && x !in b.Values ==> Reach(files, d, x)
    ensures Extends(a, c) && Clash(files, c, f)
    ensures forall x :: x in c.Values && x !in a.Values ==> Reach(files, f, x)
  {
    var y :| 0 <= y < |files| && Reach(files, d, y) && files[y].name in c && c[files[y].name] != y;
    assert Reach(files, f, y);
  }

  /** No two distinct files reached from the roots share a name. */
  ghost predicate Unambiguous(files: seq<File>, roots: seq<nat>)
    requires Linked(files) && forall r :: r in roots ==> r < |files|
  {
    forall x, y | 0 <= x < |files| && 0 <= y < |files| && ReachAny(files, roots, x) && ReachAny(files, roots, y) ::
      files[x].name == files[y].name ==> x == y
  }

  lemma ClashIsAmbiguous(files: seq<File>, fds: Held, roots: seq<nat>, r: nat)
    requires Linked(files) && (forall q :: q in roots ==> q < |files|) && r in roots
    requires Named(files, fds) && Clash(files, fds, r)
    requires forall x :: x in fds.Values ==> ReachAny(files, roots, x) || Reach(files, r, x)
    ensures !Unambiguous(files, roots)
  {
    var y :| 0 <= y < |files| && Reach(files, r, y) && files[y].name in fds && fds[files[y].name] != y;
    var x := fds[files[y].name];
    assert ReachAny(files, roots, y) && x in fds.Values && ReachAny(files, roots, x);
  }

  lemma HeldAreUnambiguous(files: seq<File>, fds: Held, roots: seq<nat>)
    requires Linked(files) && Named(files, fds) && forall r :: r in roots ==> r < |files|
    requires forall x :: ReachAny(files, roots, x) ==> x in fds.Values
    ensures Unambiguous(files, roots)
  {
    forall x, y | 0 <= x < |files| && 0 <= y < |files| && ReachAny(files, roots, x) && ReachAny(files, roots, y)
                  && files[x].name == files[y].name
      ensures x == y
    {
      ValueIsNamed(files, fds, x);
      ValueIsNamed(files, fds, y);
    }
  }

  lemma AllHeld(files: seq<File>, fds: Held, roots: seq<nat>)
    requires Linked(files) && Named(files, fds) && forall r :: r in roots ==> r < |files| && r in fds.Values
    requires forall x :: x in fds.Values ==> Settled(files, fds, x) && ReachAny(files, roots, x)
    ensures forall x :: x in fds.Values <==> ReachAny(files, roots, x)
    ensures Unambiguous(files, roots)
  {
    forall x | ReachAny(files, roots, x) ensures x in fds.Values {
      var r :| r in roots && Reach(files, r, x);
      SettledHoldsReach(files, fds, r, x);
    }
    HeldAreUnambiguous(files, fds, roots);
  }

  lemma SettledHoldsReach(files: seq<File>, fds: Held, r: nat, x: nat)
    requires Linked(files) && r < |files| && r in fds.Values && Reach(files, r, x)
    requires forall y :: y in fds.Values ==> Settled(files, fds, y)
    ensures x in fds.Values
  {
    forall y, d | y in fds.Values && y < |files| && d in files[y].deps ensures d in fds.Values {
      assert Settled(files, fds, y);
    }
    ClosedHoldsReach(files, fds.Values, r, x);
  }
}
