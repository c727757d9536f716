/** DescriptorSourceFromFileDescriptorSet: link serialised files by name, each once.
    And back: what WriteProtoset lists loads into the same graph. */
module ProtosetLoader {
  import opened Wrappers
  import opened Queues
  import Paths
  import opened FileGraph
  import opened ProtosetWriter

  /** A serialised file names its dependencies. */
  datatype Proto = Proto(name: string, deps: seq<string>)

  /** A linked file holds its dependencies. */
  datatype Descriptor = Descriptor(name: string, deps: seq<Descriptor>)

  type Unresolved = map<string, Proto>

  /** Imports go down in rank: no file imports itself, however indirectly. */
  ghost predicate Acyclic(unresolved: Unresolved, rank: string -> nat) {
    forall n, d :: n in unresolved && d in unresolved[n].deps ==> rank(d) < rank(n)
  }

  /** What linking file n must come to: nothing when some file it needs is missing. */
  ghost function Build(unresolved: Unresolved, rank: string -> nat, n: string): Option<Descriptor>
    requires Acyclic(unresolved, rank)
    decreases rank(n), 1, 0
  {
    if n !in unresolved then None
    else match BuildAll(unresolved, rank, n, unresolved[n].deps)
      case None => None
      case Some(deps) => Some(Descriptor(unresolved[n].name, deps))
  }

  ghost function BuildAll(unresolved: Unresolved, rank: string -> nat, n: string, deps: seq<string>): (r: Option<seq<Descriptor>>)
    requires Acyclic(unresolved, rank) && forall d :: d in deps ==> rank(d) < rank(n)
    ensures r.Some? ==> |r.value| == |deps|
    decreases rank(n), 0, |deps|
  {
    if deps == [] then Some([])
    else
      var front := BuildAll(unresolved, rank, n, deps[..|deps|-1]);
      assert deps[|deps|-1] in deps;
      var last := Build(unresolved, rank, deps[|deps|-1]);
      if front.None? || last.None? then None else Some(front.value + [last.value])
  }

  lemma {:induction false} BuildAllIsEach(unresolved: Unresolved, rank: string -> nat, n: string, deps: seq<string>)
    requires Acyclic(unresolved, rank) && forall d :: d in deps ==> rank(d) < rank(n)
    ensures var r := BuildAll(unresolved, rank, n, deps);
            && (r.Some? <==> forall i :: 0 <= i < |deps| ==> Build(unresolved, rank, deps[i]).Some?)
            && (r.Some? ==> forall i :: 0 <= i < |deps| ==> Build(unresolved, rank, deps[i]) == Some(r.value[i]))
    decreases |deps|
  {
    if deps != [] {
      BuildAllIsEach(unresolved, rank, n, deps[..|deps|-1]);
    }
  }

  lemma BuildNone(unresolved: Unresolved, rank: string -> nat, n: string, names: seq<string>)
    requires Acyclic(unresolved, rank)
    ensures BuildAll(unresolved, rank, n, names[..0]) == Some([])
  {
  }

  /** One more dependency is linked. */
  lemma BuildAllNext(unresolved: Unresolved, rank: string -> nat, n: string, names: seq<string>, i: nat,
                     deps: seq<Descriptor>, dep: Descriptor)
    requires Acyclic(unresolved, rank) && i < |names| && forall d :: d in names ==> rank(d) < rank(n)
    requires BuildAll(unresolved, rank, n, names[..i]) == Some(deps) && Build(unresolved, rank, names[i]) == Some(dep)
    ensures BuildAll(unresolved, rank, n, names[..i+1]) == Some(deps + [dep])
  {
    assert names[..i+1][..i] == names[..i];
  }

  // ---- when that is something ------------------------------------------------------------------

  predicate Imports(unresolved: Unresolved, a: string, b: string) {
    a in unresolved && b in unresolved[a].deps
  }

  function Edges(unresolved: Unresolved): (string, string) -> bool {
    (a, b) => Imports(unresolved, a, b)
  }

  /** Some chain of imports leads from a to b. */
  ghost predicate Needs(unresolved: Unresolved, a: string, b: string) {
    Paths.Connects(Edges(unresolved), a, b)
  }

  /** Nothing that file n needs is missing, itself included. */
  ghost predicate AllThere(unresolved: Unresolved, n: string) {
    forall m :: Needs(unresolved, n, m) ==> m in unresolved
  }

  /** Nothing that is imported is missing. */
  ghost predicate Complete(unresolved: Unresolved) {
    forall n, d :: Imports(unresolved, n, d) ==> d in unresolved
  }

  lemma NeedsThrough(unresolved: Unresolved, n: string, d: string, m: string)
    requires Imports(unresolved, n, d) && Needs(unresolved, d, m)
    ensures Needs(unresolved, n, m)
  {
    Paths.ConnectsEdge(Edges(unresolved), n, d);
    Paths.ConnectsThrough(Edges(unresolved), n, d, m);
  }

  /** A file can be linked exactly if nothing it needs, at any depth, is missing. */
  lemma {:induction false} BuildExactly(unresolved: Unresolved, rank: string -> nat, n: string)
    requires Acyclic(unresolved, rank)
    ensures Build(unresolved, rank, n).Some? <==> AllThere(unresolved, n)
    decreases rank(n)
  {
    Paths.ConnectsSelf(Edges(unresolved), n);
    if n in unresolved {
      var deps := unresolved[n].deps;
      BuildAllIsEach(unresolved, rank, n, deps);
      forall i | 0 <= i < |deps| ensures Build(unresolved, rank, deps[i]).Some? <==> AllThere(unresolved, deps[i]) {
        assert deps[i] in deps;
        BuildExactly(unresolved, rank, deps[i]);
      }
      DepsAllThere(unresolved, n);
    }
  }

  lemma DepsAllThere(unresolved: Unresolved, n: string)
    requires n in unresolved
    ensures AllThere(unresolved, n) <==> forall i :: 0 <= i < |unresolved[n].deps| ==> AllThere(unresolved, unresolved[n].deps[i])
  {
    var deps := unresolved[n].deps;
    if AllThere(unresolved, n) {
      forall i, m | 0 <= i < |deps| && Needs(unresolved, deps[i], m) ensures m in unresolved {
        assert Imports(unresolved, n, deps[i]);
        NeedsThrough(unresolved, n, deps[i], m);
      }
    }
    if forall i :: 0 <= i < |deps| ==> AllThere(unresolved, deps[i]) {
      forall m | Needs(unresolved, n, m) ensures m in unresolved {
        if m != n {
          Paths.ConnectsFirst(Edges(unresolved), n, m);
          var d :| Edges(unresolved)(n, d) && Needs(unresolved, d, m);
          var i :| 0 <= i < |deps| && deps[i] == d;
          assert AllThere(unresolved, deps[i]);
        }
      }
    }
  }

  /** All files can be linked exactly if no import is missing. */
  lemma CompleteExactly(unresolved: Unresolved)
    ensures Complete(unresolved) <==> forall n :: n in unresolved ==> AllThere(unresolved, n)
  {
    if Complete(unresolved) {
      forall n, m | n in unresolved && Needs(unresolved, n, m) ensures m in unresolved {
        Paths.ClosedHolds(Edges(unresolved), x => x in unresolved, n, m);
      }
    } else {
      var n, d :| Imports(unresolved, n, d) && d !in unresolved;
      Paths.ConnectsSelf(Edges(unresolved), d);
      NeedsThrough(unresolved, n, d, d);
    }
  }

  type Resolved = map<string, Descriptor>

  /** Every memoised file is linked as it should be. */
  ghost predicate Sound(unresolved: Unresolved, rank: string -> nat, resolved: Resolved)
    requires Acyclic(unresolved, rank)
  {
    forall n :: SoundAt(unresolved, rank, resolved, n)
  }

  ghost predicate SoundAt(unresolved: Unresolved, rank: string -> nat, resolved: Resolved, n: string)
    requires Acyclic(unresolved, rank)
  {
    n in resolved ==> Build(unresolved, rank, n) == Some(resolved[n])
  }

  predicate AllIn(deps: seq<string>, resolved: Resolved) {
    forall d :: d in deps ==> d in resolved
  }

  /** What was linked, in order: each memoised file once, and after all its dependencies. */
  ghost predicate Tracks(unresolved: Unresolved, resolved: Resolved, linked: seq<string>) {
    && NoDup(linked) && (forall n :: n in linked <==> n in resolved)
    && forall i :: 0 <= i < |linked| ==> DepsBefore(unresolved, linked[i], linked[..i])
  }

  predicate DepsBefore(unresolved: Unresolved, n: string, before: seq<string>) {
    n in unresolved && forall d :: d in unresolved[n].deps ==> d in before
  }

  lemma TracksOneMore(unresolved: Unresolved, resolved: Resolved, linked: seq<string>, n: string, fd: Descriptor)
    requires Tracks(unresolved, resolved, linked) && n !in resolved
    requires n in unresolved && AllIn(unresolved[n].deps, resolved)
    ensures Tracks(unresolved, resolved[n := fd], linked + [n])
  {
    var longer := linked + [n];
    forall i | 0 <= i < |longer| ensures DepsBefore(unresolved, longer[i], longer[..i]) {
      if i < |linked| {
        assert longer[..i] == linked[..i] && DepsBefore(unresolved, linked[i], linked[..i]);
      } else {
        assert longer[..i] == linked;
      }
    }
  }

  class Loader {
    var resolved: Resolved
    var linked: seq<string>   // every assignment into `resolved`, in order

    constructor ()
      ensures resolved == map[] && linked == []
    {
      resolved, linked := map[], [];
    }

    /** resolveFileDescriptor */
    method Resolve(unresolved: Unresolved, filename: string, ghost rank: string -> nat) returns (r: Result<Descriptor, string>)
      requires Acyclic(unresolved, rank) && Sound(unresolved, rank, resolved) && Tracks(unresolved, resolved, linked)
      modifies this
      ensures Sound(unresolved, rank, resolved) && Tracks(unresolved, resolved, linked)
      ensures old(resolved).Keys <= resolved.Keys <= old(resolved).Keys + unresolved.Keys
      ensures forall n :: n in resolved ==> n in old(resolved) || rank(n) <= rank(filename)
      ensures r.Ok? <==> AllThere(unresolved, filename)
      ensures r.Ok? <==> Build(unresolved, rank, filename).Some?
      ensures r.Ok? ==> Build(unresolved, rank, filename) == Some(r.value) && filename in resolved
      ensures filename in old(resolved) ==> r.Ok? && linked == old(linked) && resolved == old(resolved)
      ensures filename in unresolved && filename !in old(resolved) && AllIn(unresolved[filename].deps, old(resolved))
              ==> linked == old(linked) + [filename]
      decreases rank(filename), 1
    {
      BuildExactly(unresolved, rank, filename);
      assert SoundAt(unresolved, rank, resolved, filename);
      if filename in resolved {
        return Ok(resolved[filename]);
      }
      if filename !in unresolved {
        return Err(filename);
      }
      var fd := unresolved[filename];
      var deps := ResolveDeps(unresolved, filename, rank);
      if deps.Err? {
        return Err(deps.error);
      }
      ghost var before := resolved;
      TracksOneMore(unresolved, resolved, linked, filename, Descriptor(fd.name, deps.value));
      resolved, linked := resolved[filename := Descriptor(fd.name, deps.value)], linked + [filename];
      forall n ensures SoundAt(unresolved, rank, resolved, n) {
        assert SoundAt(unresolved, rank, before, n);
      }
      r := Ok(resolved[filename]);
    }

    /** The loop of resolveFileDescriptor over a file's dependencies. */
    method ResolveDeps(unresolved: Unresolved, filename: string, ghost rank: string -> nat)
      returns (r: Result<seq<Descriptor>, string>)
      requires Acyclic(unresolved, rank) && Sound(unresolved, rank, resolved) && Tracks(unresolved, resolved, linked)
      requires filename in unresolved
      modifies this
      ensures Sound(unresolved, rank, resolved) && Tracks(unresolved, resolved, linked)
      ensures old(resolved).Keys <= resolved.Keys <= old(resolved).Keys + unresolved.Keys
      ensures forall n :: n in resolved ==> n in old(resolved) || rank(n) < rank(filename)
      ensures r.Ok? ==> AllIn(unresolved[filename].deps, resolved)
      ensures r.Ok? <==> BuildAll(unresolved, rank, filename, unresolved[filename].deps).Some?
      ensures r.Ok? ==> BuildAll(unresolved, rank, filename, unresolved[filename].deps) == Some(r.value)
      ensures AllIn(unresolved[filename].deps, old(resolved)) ==> r.Ok? && linked == old(linked) && resolved == old(resolved)
      decreases rank(filename), 0
    {
      hide Sound, Build, BuildAll, AllThere, Tracks;
      var names := unresolved[filename].deps;
      var deps: seq<Descriptor> := [];
      BuildNone(unresolved, rank, filename, names);
      var i := 0;
      while i < |names|
        invariant 0 <= i <= |names|
        invariant Sound(unresolved, rank, resolved) && Tracks(unresolved, resolved, linked)
        invariant forall n :: n in resolved ==> n in old(resolved) || rank(n) < rank(filename)
        invariant AllIn(names[..i], resolved)
        invariant old(resolved).Keys <= resolved.Keys <= old(resolved).Keys + unresolved.Keys
        invariant BuildAll(unresolved, rank, filename, names[..i]) == Some(deps)
        invariant AllIn(names, old(resolved)) ==> linked == old(linked) && resolved == old(resolved)
      {
        assert names[i] in names;
        var dep := Resolve(unresolved, names[i], rank);
        if dep.Err? {
          BuildAllIsEach(unresolved, rank, filename, names);
          return Err(dep.error);
        }
        BuildAllNext(unresolved, rank, filename, names, i, deps, dep.value);
        deps := deps + [dep.value];
        i := i + 1;
      }
      assert names[..i] == names;
      r := Ok(deps);
    }

    /** The first loop of DescriptorSourceFromFileDescriptorSet. */
    static method Index(list: seq<Proto>) returns (unresolved: Unresolved)
      ensures unresolved == ByName(list)
    {
      unresolved := map[];
      var i := 0;
      while i < |list|
        invariant 0 <= i <= |list| && unresolved == ByName(list[..i])
      {
        assert list[..i+1][..i] == list[..i];
        unresolved := unresolved[list[i].name := list[i]];
        i := i + 1;
      }
      assert list[..i] == list;
    }

    /** The second loop: every listed file is linked, up to the first that cannot be. */
    method ResolveEach(list: seq<Proto>, unresolved: Unresolved, ghost rank: string -> nat) returns (ok: bool)
      requires unresolved == ByName(list) && Acyclic(unresolved, rank) && resolved == map[] && linked == []
      modifies this
      ensures Sound(unresolved, rank, resolved) && Tracks(unresolved, resolved, linked) && resolved.Keys <= unresolved.Keys
      ensures ok <==> forall j :: 0 <= j < |list| ==> AllThere(unresolved, list[j].name)
      ensures ok ==> forall j :: 0 <= j < |list| ==> list[j].name in resolved
      ensures ok && SelfContained(list) ==> linked == Listed(list)
    {
      hide Sound, AllThere, SelfContained, Build, Tracks;
      StartsSound(unresolved, rank);
      var i := 0;
      while i < |list|
        invariant 0 <= i <= |list|
        invariant Sound(unresolved, rank, resolved) && Tracks(unresolved, resolved, linked) && resolved.Keys <= unresolved.Keys
        invariant forall j :: 0 <= j < i ==> list[j].name in resolved && AllThere(unresolved, list[j].name)
        invariant SelfContained(list) ==> linked == Listed(list[..i])
      {
        ListedNext(list, i);
        if SelfContained(list) { DepsAreMemoHits(list, i, linked, resolved); }
        ghost var before := resolved;
        var r := Resolve(unresolved, list[i].name, rank);
        if r.Err? {
          return false;
        }
        assert before.Keys <= resolved.Keys;
        i := i + 1;
      }
      assert list[..i] == list;
      ok := true;
    }

    /** DescriptorSourceFromFileDescriptorSet */
    method Load(list: seq<Proto>, ghost rank: string -> nat) returns (ok: bool)
      requires Acyclic(ByName(list), rank) && resolved == map[] && linked == []
      modifies this
      ensures ok <==> Complete(ByName(list))
      ensures ok ==> resolved.Keys == ByName(list).Keys && Sound(ByName(list), rank, resolved)
      ensures Tracks(ByName(list), resolved, linked)
      ensures ok && SelfContained(list) ==> linked == Listed(list)
    {
      var unresolved := Index(list);
      ok := ResolveEach(list, unresolved, rank);
      ListedAreThere(list);
    }
  }

  lemma StartsSound(unresolved: Unresolved, rank: string -> nat)
    requires Acyclic(unresolved, rank)
    ensures Sound(unresolved, rank, map[]) && Tracks(unresolved, map[], [])
  {
  }

  function Listed(list: seq<Proto>): seq<string> {
    seq(|list|, i requires 0 <= i < |list| => list[i].name)
  }

  lemma ListedNext(list: seq<Proto>, i: nat)
    requires i < |list|
    ensures Listed(list[..i+1]) == Listed(list[..i]) + [list[i].name]
  {
  }

  lemma ListedAreThere(list: seq<Proto>)
    ensures ByName(list).Keys == set j | 0 <= j < |list| :: list[j].name
    ensures Complete(ByName(list)) <==> forall j :: 0 <= j < |list| ==> AllThere(ByName(list), list[j].name)
  {
    ByNameKeys(list);
    CompleteExactly(ByName(list));
    forall j | 0 <= j < |list| ensures list[j].name in ByName(list) {
      assert list[j].name in set k | 0 <= k < |list| :: list[k].name;
    }
  }

  /** The set of files by name, a later one replacing an earlier one. */
  function ByName(list: seq<Proto>): Unresolved {
    if list == [] then map[]
    else ByName(list[..|list|-1])[list[|list|-1].name := list[|list|-1]]
  }

  lemma {:induction false} ByNameKeys(list: seq<Proto>)
    ensures ByName(list).Keys == set i | 0 <= i < |list| :: list[i].name
  {
    if list != [] {
      var front := list[..|list|-1];
      ByNameKeys(front);
      var names := set i | 0 <= i < |list| :: list[i].name;
      forall n | n in names ensures n in ByName(list) {
        var i :| 0 <= i < |list| && list[i].name == n;
        if i < |front| { assert front[i].name == n; }
      }
      forall n | n in ByName(front) ensures n in names {
        var i :| 0 <= i < |front| && front[i].name == n;
        assert list[i].name == n;
      }
      assert list[|list|-1].name in names;
    }
  }

  lemma {:induction false} ByNameAt(list: seq<Proto>, i: nat)
    requires i < |list| && forall a, b :: 0 <= a < b < |list| ==> list[a].name != list[b].name
    ensures list[i].name in ByName(list) && ByName(list)[list[i].name] == list[i]
  {
    if i < |list| - 1 {
      ByNameAt(list[..|list|-1], i);
    }
  }

  lemma DepsAreMemoHits(list: seq<Proto>, i: nat, linked: seq<string>, resolved: Resolved)
    requires SelfContained(list) && i < |list| && forall j :: 0 <= j < i ==> list[j].name in resolved
    requires linked == Listed(list[..i]) && Tracks(ByName(list), resolved, linked)
    ensures list[i].name in ByName(list) && AllIn(ByName(list)[list[i].name].deps, resolved)
    ensures list[i].name !in resolved
  {
    ByNameAt(list, i);
  }

  /** Names differ, and every file's dependencies are listed before it. */
  ghost predicate SelfContained(list: seq<Proto>) {
    && (forall i, j :: 0 <= i < j < |list| ==> list[i].name != list[j].name)
    && (forall i :: 0 <= i < |list| ==> forall d :: d in list[i].deps ==> exists j :: 0 <= j < i && list[j].name == d)
  }

  // ---- write, then load --------------------------------------------------------------------------

  /** AsFileDescriptorProto */
  function AsProto(files: seq<File>, f: nat): Proto
    requires Linked(files) && f < |files|
  {
    Proto(files[f].name, seq(|files[f].deps|, i requires 0 <= i < |files[f].deps| =>
      assert files[f].deps[i] in files[f].deps; files[files[f].deps[i]].name))
  }

  /** File f with everything below it written out. */
  function Unfold(files: seq<File>, f: nat): Descriptor
    requires Linked(files) && f < |files|
    decreases f
  {
    Descriptor(files[f].name, seq(|files[f].deps|, i requires 0 <= i < |files[f].deps| =>
      assert files[f].deps[i] in files[f].deps; Unfold(files, files[f].deps[i])))
  }

  function Protos(files: seq<File>, all: seq<nat>): seq<Proto>
    requires Linked(files) && forall x :: x in all ==> x < |files|
  {
    seq(|all|, i requires 0 <= i < |all| => assert all[i] in all; AsProto(files, all[i]))
  }

  /** What WriteProtoset ensures of its list. */
  ghost predicate Written(files: seq<File>, all: seq<nat>, univ: set<nat>) {
    Linked(files) && NamesIdentify(files, univ) && Ordered(files, all) && NoDup(all) && Within(all, univ)
  }

  lemma WrittenIsSelfContained(files: seq<File>, all: seq<nat>, univ: set<nat>)
    requires Written(files, all, univ)
    ensures SelfContained(Protos(files, all))
  {
    var list := Protos(files, all);
    forall i, j | 0 <= i < j < |list| ensures list[i].name != list[j].name {
      assert all[i] in all && all[j] in all;
    }
    forall i, d | 0 <= i < |list| && d in list[i].deps ensures exists j :: 0 <= j < i && list[j].name == d {
      var k :| 0 <= k < |list[i].deps| && list[i].deps[k] == d;
      var x := files[all[i]].deps[k];
      assert DepsIn(files, all[i], all[..i]) && x in files[all[i]].deps;
      var j :| 0 <= j < i && all[..i][j] == x;
      assert list[j].name == d;
    }
  }

  /** The rank that makes the written list acyclic: where its file stands in order of creation. */
  ghost function RankOf(files: seq<File>, all: seq<nat>, n: string): nat {
    if exists x :: x in all && x < |files| && files[x].name == n
    then (var x :| x in all && x < |files| && files[x].name == n; x)
    else 0
  }

  ghost function Rank(files: seq<File>, all: seq<nat>): string -> nat {
    n => RankOf(files, all, n)
  }

  lemma RankIsFile(files: seq<File>, all: seq<nat>, univ: set<nat>, x: nat)
    requires Written(files, all, univ) && x in all
    ensures x < |files| && RankOf(files, all, files[x].name) == x
  {
  }

  /** The file of a written name is the one that was written. */
  lemma WrittenByName(files: seq<File>, all: seq<nat>, univ: set<nat>, n: string)
    requires Written(files, all, univ) && n in ByName(Protos(files, all))
    ensures exists x :: x in all && x < |files| && files[x].name == n && ByName(Protos(files, all))[n] == AsProto(files, x)
  {
    var list := Protos(files, all);
    WrittenIsSelfContained(files, all, univ);
    ByNameKeys(list);
    var i :| 0 <= i < |list| && list[i].name == n;
    ByNameAt(list, i);
    assert all[i] in all;
  }

  lemma WrittenIsAcyclic(files: seq<File>, all: seq<nat>, univ: set<nat>)
    requires Written(files, all, univ)
    ensures Acyclic(ByName(Protos(files, all)), Rank(files, all))
  {
    var list := Protos(files, all);
    forall n, d | n in ByName(list) && d in ByName(list)[n].deps ensures RankOf(files, all, d) < RankOf(files, all, n) {
      WrittenByName(files, all, univ, n);
      var x :| x in all && x < |files| && files[x].name == n && ByName(list)[n] == AsProto(files, x);
      var k :| 0 <= k < |files[x].deps| && AsProto(files, x).deps[k] == d;
      var y := files[x].deps[k];
      assert y in files[x].deps && Reach(files, x, y) by { assert Reach(files, y, y); }
      OrderedHoldsReach(files, all, x, y);
      RankIsFile(files, all, univ, x);
      RankIsFile(files, all, univ, y);
    }
  }

  /** Linking the written files by name gives back each file with all it depends on. */
  lemma {:induction false} LinksBack(files: seq<File>, all: seq<nat>, univ: set<nat>, f: nat)
    requires Written(files, all, univ) && f in all && f < |files|
    requires Acyclic(ByName(Protos(files, all)), Rank(files, all))
    ensures Build(ByName(Protos(files, all)), Rank(files, all), files[f].name) == Some(Unfold(files, f))
    decreases f
  {
    var list := Protos(files, all);
    var rank := Rank(files, all);
    var i :| 0 <= i < |all| && all[i] == f;
    WrittenIsSelfContained(files, all, univ);
    ByNameAt(list, i);
    var deps := AsProto(files, f).deps;
    forall k | 0 <= k < |deps| ensures Build(ByName(list), rank, deps[k]) == Some(Unfold(files, f).deps[k]) {
      var y := files[f].deps[k];
      assert y in files[f].deps && Reach(files, f, y) by { assert Reach(files, y, y); }
      OrderedHoldsReach(files, all, f, y);
      LinksBack(files, all, univ, y);
    }
    BuildAllIsEach(ByName(list), rank, files[f].name, deps);
    assert BuildAll(ByName(list), rank, files[f].name, deps).value == Unfold(files, f).deps;
  }

  /** A loaded source holds exactly the given files, each as it was. */
  ghost predicate Mirrors(files: seq<File>, all: seq<nat>, resolved: Resolved)
    requires Linked(files)
  {
    && (forall f :: f in all ==> f < |files| && files[f].name in resolved && resolved[files[f].name] == Unfold(files, f))
    && (forall n :: n in resolved ==> exists f :: f in all && f < |files| && files[f].name == n)
  }

  lemma AllBuild(files: seq<File>, all: seq<nat>, univ: set<nat>)
    requires Written(files, all, univ)
    ensures Acyclic(ByName(Protos(files, all)), Rank(files, all))
    ensures Complete(ByName(Protos(files, all)))
  {
    var list := Protos(files, all);
    WrittenIsAcyclic(files, all, univ);
    ByNameKeys(list);
    forall n | n in ByName(list) ensures AllThere(ByName(list), n) {
      var i :| 0 <= i < |list| && list[i].name == n;
      assert all[i] in all;
      LinksBack(files, all, univ, all[i]);
      BuildExactly(ByName(list), Rank(files, all), n);
    }
    CompleteExactly(ByName(list));
  }

  lemma LoadedMirrors(files: seq<File>, all: seq<nat>, univ: set<nat>, resolved: Resolved)
    requires Written(files, all, univ) && Acyclic(ByName(Protos(files, all)), Rank(files, all))
    requires resolved.Keys == ByName(Protos(files, all)).Keys && Sound(ByName(Protos(files, all)), Rank(files, all), resolved)
    ensures Mirrors(files, all, resolved)
  {
    var list := Protos(files, all);
    ByNameKeys(list);
    forall f | f in all ensures f < |files| && files[f].name in resolved && resolved[files[f].name] == Unfold(files, f) {
      var i :| 0 <= i < |list| && all[i] == f;
      assert list[i].name == files[f].name;
      assert SoundAt(ByName(list), Rank(files, all), resolved, list[i].name);
      LinksBack(files, all, univ, f);
    }
    forall n | n in resolved ensures exists f :: f in all && f < |files| && files[f].name == n {
      WrittenByName(files, all, univ, n);
    }
  }

  /** The round trip: write the symbols' files and load them.  Every file is linked once, in the order it
      was written, so that no dependency has to be linked on the way, and each file comes back as it was. */
  method WriteThenLoad(files: seq<File>, symbols: seq<string>, source: map<string, nat>, ghost univ: set<nat>)
    returns (loaded: Option<Resolved>, linked: seq<string>, ghost all: seq<nat>)
    requires Linked(files) && NamesIdentify(files, univ) && forall sym :: sym in source ==> source[sym] in univ
    ensures loaded.Some? <==> forall sym :: sym in symbols ==> sym in source
    ensures loaded.Some? ==> Mirrors(files, all, loaded.value)
    ensures loaded.Some? ==> linked == Listed(Protos(files, all))
    ensures loaded.Some? ==> forall f :: f in all <==> ReachedBy(files, source, symbols, f)
  {
    var w := new Writer(files);
    var written := w.WriteProtoset(symbols, source, univ);
    if written.Err? {
      return None, [], [];
    }
    all := written.value;
    assert Within(written.value, univ);
    var list := Protos(files, written.value);
    WrittenIsSelfContained(files, all, univ);
    AllBuild(files, all, univ);
    var loader := new Loader();
    var ok := loader.Load(list, Rank(files, all));
    assert ok;
    LoadedMirrors(files, all, univ, loader.resolved);
    loaded, linked := Some(loader.resolved), loader.linked;
  }
}
