/** WriteProtoset: the symbols' files and all they depend on, every file after its dependencies. */
module ProtosetWriter {
  import opened Wrappers
  import opened Queues
  import opened FileGraph

  /** Every listed file comes after the files it depends on. */
  ghost predicate Ordered(files: seq<File>, all: seq<nat>) {
    forall i :: 0 <= i < |all| ==> DepsIn(files, all[i], all[..i])
  }

  ghost predicate DepsIn(files: seq<File>, f: nat, list: seq<nat>) {
    f < |files| && forall d :: d in files[f].deps ==> d in list
  }

  /** A set of files closed under dependency in which a name means one file. */
  ghost predicate NamesIdentify(files: seq<File>, univ: set<nat>) {
    && (forall x :: x in univ ==> x < |files| && forall d :: d in files[x].deps ==> d in univ)
    && (forall x, y :: x in univ && y in univ && files[x].name == files[y].name ==> x == y)
  }

  ghost predicate Within(all: seq<nat>, univ: set<nat>) {
    forall x :: x in all ==> x in univ
  }

  ghost predicate IsNameOfOne(files: seq<File>, all: seq<nat>, open: set<nat>, n: string) {
    exists x :: (x in all || x in open) && x < |files| && files[x].name == n
  }

  /** The seen-set holds the names of the listed files and of those still being expanded. */
  ghost predicate SeenIs(files: seq<File>, expanded: set<string>, all: seq<nat>, open: set<nat>) {
    && (forall x :: x in all || x in open ==> x < |files| && files[x].name in expanded)
    && (forall n :: n in expanded ==> IsNameOfOne(files, all, open, n))
  }

  lemma {:induction false} OrderedHoldsReach(files: seq<File>, all: seq<nat>, f: nat, g: nat)
    requires Linked(files) && Ordered(files, all) && f < |files| && f in all && Reach(files, f, g)
    ensures g in all
    decreases f
  {
    if f != g {
      var d :| d in files[f].deps && Reach(files, d, g);
      var i :| 0 <= i < |all| && all[i] == f;
      assert DepsIn(files, all[i], all[..i]);
      OrderedHoldsReach(files, all, d, g);
    }
  }

  lemma OrderedSnoc(files: seq<File>, all: seq<nat>, f: nat)
    requires Ordered(files, all) && DepsIn(files, f, all)
    ensures Ordered(files, all + [f])
  {
    var longer := all + [f];
    forall i | 0 <= i < |longer| ensures DepsIn(files, longer[i], longer[..i]) {
      assert longer[..i] == all[..i];
    }
  }

  /** What one call adds: exactly what f reaches. */
  ghost predicate Grown(files: seq<File>, before: seq<nat>, after: seq<nat>, f: nat)
    requires Linked(files) && f < |files|
  {
    && before <= after
    && (forall x :: x in after <==> x in before || Reach(files, f, x))
  }

  /** What has been added on f's behalf before f itself. */
  ghost predicate GrownBelow(files: seq<File>, before: seq<nat>, after: seq<nat>, f: nat)
    requires Linked(files) && f < |files|
  {
    before <= after && forall x :: x in after ==> x in before || (Reach(files, f, x) && x < f)
  }

  class Writer {
    const files: seq<File>
    var expanded: set<string>

    constructor (files: seq<File>)
      ensures this.files == files && expanded == {}
    {
      this.files, expanded := files, {};
    }

    /** addFilesToSet; `open` are the files whose expansion is under way. */
    method AddFilesToSet(all: seq<nat>, f: nat, ghost open: set<nat>, ghost univ: set<nat>) returns (out: seq<nat>)
      requires Linked(files) && NamesIdentify(files, univ) && f in univ && Within(all, univ) && open <= univ
      requires Ordered(files, all) && NoDup(all) && SeenIs(files, expanded, all, open)
      requires forall x :: x in open ==> f < x && x !in all
      modifies this`expanded
      ensures Ordered(files, out) && NoDup(out) && SeenIs(files, expanded, out, open) && Within(out, univ)
      ensures Grown(files, all, out, f)
      decreases f
    {
      hide IsNameOfOne, Ordered, NoDup, Reach;
      var name := files[f].name;
      out := all;
      if name in expanded {
        AlreadyListed(files, expanded, all, open, univ, f);
        return;
      }
      expanded := expanded + {name};
      NotYetListed(files, old(expanded), all, open, f);
      var i := 0;
      while i < |files[f].deps|
        invariant 0 <= i <= |files[f].deps|
        invariant Ordered(files, out) && NoDup(out) && SeenIs(files, expanded, out, open + {f}) && Within(out, univ)
        invariant GrownBelow(files, all, out, f) && forall j :: 0 <= j < i ==> files[f].deps[j] in out
      {
        var d := files[f].deps[i];
        ghost var mid := out;
        assert d in files[f].deps;
        out := AddFilesToSet(out, d, open + {f}, univ);
        OneMore(files, all, mid, out, f, d);
        i := i + 1;
      }
      ListedLast(files, expanded, all, out, open, f);
      OrderedSnoc(files, out, f);
      out := out + [f];
    }

    /** getFileDescriptors: the symbols' files, each name once, in order of first mention. */
    method GetFileDescriptors(symbols: seq<string>, source: map<string, nat>)
      returns (r: Result<seq<string>, string>, fds: map<string, nat>)
      requires forall sym :: sym in source ==> source[sym] < |files|
      ensures r.Err? <==> exists sym :: sym in symbols && sym !in source
      ensures r.Ok? ==> NoDup(r.value) && forall n :: n in r.value <==> n in fds
      ensures r.Ok? ==> forall n :: n in fds ==> exists sym :: sym in symbols && fds[n] == source[sym] && files[fds[n]].name == n
      ensures r.Ok? ==> forall sym :: sym in symbols ==> files[source[sym]].name in fds
    {
      var filenames: seq<string> := [];
      fds := map[];
      var i := 0;
      while i < |symbols|
        invariant 0 <= i <= |symbols|
        invariant forall j :: 0 <= j < i ==> symbols[j] in source && files[source[symbols[j]]].name in fds
        invariant NoDup(filenames) && forall n :: n in filenames <==> n in fds
        invariant forall n :: n in fds ==> exists sym :: sym in symbols && sym in source && fds[n] == source[sym] && files[fds[n]].name == n
      {
        var sym := symbols[i];
        assert sym in symbols;
        if sym !in source {
          return Err(sym), fds;
        }
        var fd := source[sym];
        if files[fd].name !in fds {
          fds := fds[files[fd].name := fd];
          filenames := filenames + [files[fd].name];
        }
        i := i + 1;
      }
      r := Ok(filenames);
    }

    /** The loop of WriteProtoset over the files of the symbols. */
    method AddEach(names: seq<string>, fds: map<string, nat>, ghost symbols: seq<string>, ghost source: map<string, nat>,
                   ghost univ: set<nat>) returns (all: seq<nat>)
      requires Linked(files) && NamesIdentify(files, univ) && expanded == {}
      requires forall k :: 0 <= k < |names| ==> names[k] in fds && fds[names[k]] in univ && Wanted(source, symbols, fds[names[k]])
      modifies this`expanded
      ensures Ordered(files, all) && NoDup(all) && Within(all, univ)
      ensures forall g :: g in all ==> ReachedBy(files, source, symbols, g)
      ensures forall k :: 0 <= k < |names| ==> fds[names[k]] in all
    {
      all := [];
      var i := 0;
      while i < |names|
        invariant 0 <= i <= |names|
        invariant Ordered(files, all) && NoDup(all) && SeenIs(files, expanded, all, {}) && Within(all, univ)
        invariant forall g :: g in all ==> ReachedBy(files, source, symbols, g)
        invariant forall j :: 0 <= j < i ==> fds[names[j]] in all
      {
        var f := fds[names[i]];
        ghost var before := all;
        all := AddFilesToSet(all, f, {}, univ);
        GrownIsReached(files, source, symbols, before, all, f);
        i := i + 1;
      }
    }

    /** WriteProtoset, up to serialisation. */
    method WriteProtoset(symbols: seq<string>, source: map<string, nat>, ghost univ: set<nat>)
      returns (r: Result<seq<nat>, string>)
      requires Linked(files) && NamesIdentify(files, univ) && expanded == {}
      requires forall sym :: sym in source ==> source[sym] in univ
      modifies this`expanded
      ensures r.Err? <==> exists sym :: sym in symbols && sym !in source
      ensures r.Ok? ==> Ordered(files, r.value) && NoDup(r.value) && Within(r.value, univ)
      ensures r.Ok? ==> forall g :: g in r.value <==> ReachedBy(files, source, symbols, g)
    {
      var names, fds := GetFileDescriptors(symbols, source);
      if names.Err? {
        return Err(names.error);
      }
      assert forall k :: 0 <= k < |names.value| ==> names.value[k] in names.value;
      var all := AddEach(names.value, fds, symbols, source, univ);
      SymbolsAreListed(files, source, symbols, names.value, fds, all);
      AllReachedListed(files, source, symbols, all);
      r := Ok(all);
    }
  }

  /** File g is a symbol's file or a dependency, at any depth, of one. */
  ghost predicate ReachedBy(files: seq<File>, source: map<string, nat>, symbols: seq<string>, g: nat)
    requires Linked(files)
  {
    exists sym :: sym in symbols && sym in source && source[sym] < |files| && Reach(files, source[sym], g)
  }

  /** File f is the file of one of the symbols. */
  ghost predicate Wanted(source: map<string, nat>, symbols: seq<string>, f: nat) {
    exists sym :: sym in symbols && sym in source && source[sym] == f
  }

  lemma GrownIsReached(files: seq<File>, source: map<string, nat>, symbols: seq<string>, before: seq<nat>, all: seq<nat>, f: nat)
    requires Linked(files) && f < |files| && Grown(files, before, all, f) && Wanted(source, symbols, f)
    requires forall g :: g in before ==> ReachedBy(files, source, symbols, g)
    ensures f in all
    ensures forall g :: g in before ==> g in all
    ensures forall g :: g in all ==> ReachedBy(files, source, symbols, g)
  {
    assert Reach(files, f, f);
    var sym :| sym in symbols && sym in source && source[sym] == f;
    forall g | g in all ensures ReachedBy(files, source, symbols, g) {
      if g !in before { assert Reach(files, source[sym], g); }
    }
  }

  lemma SymbolsAreListed(files: seq<File>, source: map<string, nat>, symbols: seq<string>,
                         names: seq<string>, fds: map<string, nat>, all: seq<nat>)
    requires forall sym :: sym in source ==> source[sym] < |files|
    requires forall sym :: sym in symbols ==> sym in source && files[source[sym]].name in names
    requires forall n :: n in names ==> n in fds
    requires forall sym :: sym in symbols ==> fds[files[source[sym]].name] == source[sym]
    requires forall k :: 0 <= k < |names| ==> fds[names[k]] in all
    ensures forall sym :: sym in symbols ==> source[sym] in all
  {
    forall sym | sym in symbols ensures source[sym] in all {
      var j :| 0 <= j < |names| && names[j] == files[source[sym]].name;
      assert fds[names[j]] == source[sym];
    }
  }

  lemma AlreadyListed(files: seq<File>, expanded: set<string>, all: seq<nat>, open: set<nat>, univ: set<nat>, f: nat)
    requires Linked(files) && NamesIdentify(files, univ) && f in univ && Within(all, univ) && open <= univ
    requires Ordered(files, all) && SeenIs(files, expanded, all, open) && files[f].name in expanded && f !in open
    ensures Grown(files, all, all, f)
  {
    assert IsNameOfOne(files, all, open, files[f].name);
    var x :| (x in all || x in open) && x < |files| && files[x].name == files[f].name;
    assert x == f;
    forall g: nat | Reach(files, f, g) ensures g in all { OrderedHoldsReach(files, all, f, g); }
  }

  lemma NotYetListed(files: seq<File>, expanded: set<string>, all: seq<nat>, open: set<nat>, f: nat)
    requires f < |files| && SeenIs(files, expanded, all, open) && files[f].name !in expanded
    ensures f !in all && f !in open && SeenIs(files, expanded + {files[f].name}, all, open + {f})
  {
    forall n | n in expanded + {files[f].name} ensures IsNameOfOne(files, all, open + {f}, n) {
      if n in expanded { assert IsNameOfOne(files, all, open, n); }
    }
  }

  lemma OneMore(files: seq<File>, all: seq<nat>, mid: seq<nat>, out: seq<nat>, f: nat, d: nat)
    requires Linked(files) && f < |files| && d in files[f].deps && GrownBelow(files, all, mid, f) && Grown(files, mid, out, d)
    ensures GrownBelow(files, all, out, f) && d in out
    ensures forall x :: x in mid ==> x in out
  {
    assert Reach(files, d, d);
    forall x | x in out ensures x in all || (Reach(files, f, x) && x < f) {
      if x !in mid { ReachBelow(files, d, x); }
    }
  }

  lemma ListedLast(files: seq<File>, expanded: set<string>, all: seq<nat>, out: seq<nat>, open: set<nat>, f: nat)
    requires Linked(files) && f < |files| && Ordered(files, out) && NoDup(out)
    requires SeenIs(files, expanded, out, open + {f}) && f !in all && GrownBelow(files, all, out, f)
    requires forall d :: d in files[f].deps ==> d in out
    ensures NoDup(out + [f]) && SeenIs(files, expanded, out + [f], open) && Grown(files, all, out + [f], f)
  {
    forall n | n in expanded ensures IsNameOfOne(files, out + [f], open, n) {
      assert IsNameOfOne(files, out, open + {f}, n);
    }
    forall x | x in all ensures x in out { var i :| 0 <= i < |all| && all[i] == x; assert out[i] == x; }
    forall g: nat | Reach(files, f, g) ensures g in out + [f] {
      if g != f {
        var d :| d in files[f].deps && Reach(files, d, g);
        OrderedHoldsReach(files, out, d, g);
      }
    }
  }

  lemma AllReachedListed(files: seq<File>, source: map<string, nat>, symbols: seq<string>, all: seq<nat>)
    requires Linked(files) && Ordered(files, all)
    requires forall sym :: sym in symbols ==> sym in source && source[sym] < |files| && source[sym] in all
    ensures forall g :: ReachedBy(files, source, symbols, g) ==> g in all
  {
    forall g | ReachedBy(files, source, symbols, g) ensures g in all {
      var sym :| sym in symbols && sym in source && source[sym] < |files| && Reach(files, source[sym], g);
      OrderedHoldsReach(files, all, source[sym], g);
    }
  }
}
