/** Linked file descriptors: a file is created after the files it depends on, so the place
    in order of creation is the pointer, and every dependency lies below its dependent. */
module FileGraph {

  datatype File = File(name: string, deps: seq<nat>)

  ghost predicate Linked(files: seq<File>) {
    forall f :: 0 <= f < |files| ==> forall d :: d in files[f].deps ==> d < f
  }

  /** File g is f or one of its direct or indirect dependencies. */
  ghost predicate Reach(files: seq<File>, f: nat, g: nat)
    requires Linked(files) && f < |files|
    decreases f
  {
    f == g || exists d :: d in files[f].deps && Reach(files, d, g)
  }

  lemma {:induction false} ReachBelow(files: seq<File>, f: nat, g: nat)
    requires Linked(files) && f < |files| && Reach(files, f, g)
    ensures g <= f
    decreases f
  {
    if f != g {
      var d :| d in files[f].deps && Reach(files, d, g);
      ReachBelow(files, d, g);
    }
  }

  /** A set of files that holds f and the dependencies of every member holds all f reaches. */
  lemma {:induction false} ClosedHoldsReach(files: seq<File>, s: set<nat>, f: nat, g: nat)
    requires Linked(files) && f < |files| && f in s && Reach(files, f, g)
    requires forall x, d :: x in s && Reach(files, f, x) && x < |files| && d in files[x].deps ==> d in s
    ensures g in s
    decreases f
  {
    if f != g {
      var d :| d in files[f].deps && Reach(files, d, g);
      assert Reach(files, f, f);
      forall x, e | x in s && Reach(files, d, x) && x < |files| && e in files[x].deps ensures e in s {
        assert Reach(files, f, x);
      }
      ClosedHoldsReach(files, s, d, g);
    }
  }

  /** Everything the given files reach. */
  ghost predicate ReachAny(files: seq<File>, roots: seq<nat>, g: nat)
    requires Linked(files) && forall r :: r in roots ==> r < |files|
  {
    exists r :: r in roots && Reach(files, r, g)
  }
}
