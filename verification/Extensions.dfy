/** fetchAllExtensions: a visited-set walk over message types, which may well be recursive. */
module Extensions {
  import opened Wrappers
  import opened Queues
  import Paths

  /** A message type: whether it declares extension ranges, and its fields' message types. */
  datatype MessageType = MessageType(hasRanges: bool, fields: seq<Option<string>>)

  type Types = map<string, MessageType>

  datatype Field = Field(name: string, isExtension: bool)

  /** All extensions of a type, as the descriptor source tells them. */
  type Source = string -> Result<seq<Field>, string>

  ghost predicate Edge(types: Types, a: string, b: string) {
    a in types && Some(b) in types[a].fields
  }

  ghost predicate Closed(types: Types) {
    forall a, b :: Edge(types, a, b) ==> b in types
  }

  ghost function Edges(types: Types): (string, string) -> bool {
    (a, b) => Edge(types, a, b)
  }

  /** Some chain of declared fields leads from type a to type b. */
  ghost predicate Reachable(types: Types, a: string, b: string) {
    Paths.Connects(Edges(types), a, b)
  }

  lemma ReachesThrough(types: Types, a: string, b: string, c: string)
    requires Edge(types, a, b) && Reachable(types, b, c)
    ensures Reachable(types, a, c)
  {
    Paths.ConnectsEdge(Edges(types), a, b);
    Paths.ConnectsThrough(Edges(types), a, b, c);
  }

  ghost predicate StepsStay(types: Types, s: set<string>, x: string) {
    forall y :: Edge(types, x, y) ==> y in s
  }

  /** A set closed under fields that holds a holds everything a reaches. */
  lemma ClosedHoldsReachable(types: Types, s: set<string>, a: string, b: string)
    requires (forall x :: x in s ==> StepsStay(types, s, x)) && a in s && Reachable(types, a, b)
    ensures b in s
  {
    forall x, y | x in s && Edges(types)(x, y) ensures y in s { assert StepsStay(types, s, x) && Edge(types, x, y); }
    Paths.ClosedHolds(Edges(types), x => x in s, a, b);
  }

  /** Fetching the extensions of type x succeeds: the source answers, with extensions only. */
  predicate Fetchable(types: Types, source: Source, x: string) {
    x in types && (types[x].hasRanges ==> source(x).Ok? && forall f :: f in source(x).value ==> f.isExtension)
  }

  /** The extensions type x contributes. */
  function Contribution(types: Types, source: Source, x: string): set<Field> {
    if x in types && types[x].hasRanges && source(x).Ok? then set f | f in source(x).value else {}
  }

  /** What a walk from t has added to the visited set. */
  ghost predicate Walked(types: Types, before: set<string>, after: set<string>, t: string, except: set<string>) {
    && before <= after <= types.Keys
    && (forall x :: x in after && x !in before ==> Reachable(types, t, x))
    && (forall x :: x in after && x !in before && x !in except ==> StepsStay(types, after, x))
  }

  /** The source has been asked once about every visited type with ranges, and about nothing else;
      the registry holds what it answered. */
  ghost predicate Recorded(types: Types, source: Source, visited: set<string>, queries: seq<string>, registry: set<Field>) {
    && NoDup(queries)
    && (forall x :: x in queries <==> x in visited && x in types && types[x].hasRanges)
    && (forall x :: x in visited ==> Fetchable(types, source, x))
    && (forall f :: f in registry <==> exists x :: x in visited && f in Contribution(types, source, x))
  }

  lemma WalkedOn(types: Types, a: set<string>, b: set<string>, c: set<string>, t: string, d: string)
    requires Edge(types, t, d) && Walked(types, a, b, t, {t}) && Walked(types, b, c, d, {})
    ensures Walked(types, a, c, t, {t})
  {
    forall x | x in c && x !in a ensures Reachable(types, t, x) {
      if x !in b { ReachesThrough(types, t, d, x); }
    }
    forall x | x in c && x !in a && x != t ensures StepsStay(types, c, x) {
      if x in b { assert StepsStay(types, b, x); }
    }
  }

  lemma RecordOne(types: Types, source: Source, visited: set<string>, queries: seq<string>, registry: set<Field>, t: string)
    requires Recorded(types, source, visited, queries, registry) && t in types && t !in visited && Fetchable(types, source, t)
    ensures Recorded(types, source, visited + {t}, if types[t].hasRanges then queries + [t] else queries,
                     registry + Contribution(types, source, t))
  {
    var more := registry + Contribution(types, source, t);
    forall f | f in more ensures exists x :: x in visited + {t} && f in Contribution(types, source, x) {
      if f in registry {
        var x :| x in visited && f in Contribution(types, source, x);
        assert x in visited + {t};
      } else {
        assert t in visited + {t};
      }
    }
  }

  class Fetcher {
    const types: Types
    const source: Source
    var alreadyFetched: set<string>
    var registry: set<Field>
    ghost var queries: seq<string>

    constructor (types: Types, source: Source)
      ensures this.types == types && this.source == source
      ensures alreadyFetched == {} && registry == {} && queries == []
    {
      this.types, this.source := types, source;
      alreadyFetched, registry, queries := {}, {}, [];
    }

    /** The loop that registers one type's extensions. */
    method AddExtensions(fds: seq<Field>) returns (ok: bool)
      modifies this`registry
      ensures ok <==> forall f :: f in fds ==> f.isExtension
      ensures ok ==> registry == old(registry) + set f | f in fds
    {
      var i := 0;
      while i < |fds|
        invariant 0 <= i <= |fds|
        invariant forall f :: f in fds[..i] ==> f.isExtension
        invariant registry == old(registry) + set f | f in fds[..i]
      {
        assert fds[i] in fds && fds[..i+1] == fds[..i] + [fds[i]];
        if !fds[i].isExtension {
          return false;
        }
        registry := registry + {fds[i]};
        i := i + 1;
      }
      assert fds[..i] == fds;
      ok := true;
    }

    /** fetchAllExtensions */
    method Fetch(t: string) returns (ok: bool)
      requires Closed(types) && t in types && alreadyFetched <= types.Keys
      requires Recorded(types, source, alreadyFetched, queries, registry)
      modifies this
      ensures old(alreadyFetched) <= alreadyFetched <= types.Keys
      ensures ok ==> Walked(types, old(alreadyFetched), alreadyFetched, t, {}) && t in alreadyFetched
      ensures ok ==> Recorded(types, source, alreadyFetched, queries, registry)
      ensures !ok ==> exists x :: Reachable(types, t, x) && !Fetchable(types, source, x)
      decreases types.Keys - alreadyFetched
    {
      Paths.ConnectsSelf(Edges(types), t);
      assert Reachable(types, t, t);
      if t in alreadyFetched {
        return true;
      }
      alreadyFetched := alreadyFetched + {t};
      if types[t].hasRanges {
        queries := queries + [t];
        var fds := source(t);
        if fds.Err? {
          return false;
        }
        var added := AddExtensions(fds.value);
        if !added {
          return false;
        }
      }
      RecordOne(types, source, old(alreadyFetched), old(queries), old(registry), t);
      var i := 0;
      while i < |types[t].fields|
        invariant 0 <= i <= |types[t].fields|
        invariant Walked(types, old(alreadyFetched), alreadyFetched, t, {t}) && t in alreadyFetched
        invariant Recorded(types, source, alreadyFetched, queries, registry)
        invariant forall j :: 0 <= j < i && types[t].fields[j].Some? ==> types[t].fields[j].value in alreadyFetched
      {
        if types[t].fields[i].Some? {
          var d := types[t].fields[i].value;
          assert Edge(types, t, d);
          ghost var mid := alreadyFetched;
          ok := Fetch(d);
          if !ok {
            ghost var x :| Reachable(types, d, x) && !Fetchable(types, source, x);
            ReachesThrough(types, t, d, x);
            return;
          }
          WalkedOn(types, old(alreadyFetched), mid, alreadyFetched, t, d);
        }
        i := i + 1;
      }
      ok := true;
    }

    /** The two calls InvokeRPC makes, sharing one visited set. */
    method FetchBoth(input: string, output: string) returns (ok: bool)
      requires Closed(types) && input in types && output in types
      requires alreadyFetched == {} && registry == {} && queries == []
      modifies this
      ensures ok <==> forall x :: Reachable(types, input, x) || Reachable(types, output, x) ==> Fetchable(types, source, x)
      ensures ok ==> forall x :: x in alreadyFetched <==> Reachable(types, input, x) || Reachable(types, output, x)
      ensures ok ==> Recorded(types, source, alreadyFetched, queries, registry)
    {
      ok := Fetch(input);
      if !ok {
        return;
      }
      ghost var first := alreadyFetched;
      ok := Fetch(output);
      if ok {
        forall x | x in alreadyFetched ensures StepsStay(types, alreadyFetched, x) {
          if x in first { assert StepsStay(types, first, x); }
        }
        forall x | Reachable(types, input, x) || Reachable(types, output, x) ensures x in alreadyFetched {
          if Reachable(types, input, x) { ClosedHoldsReachable(types, alreadyFetched, input, x); }
          else { ClosedHoldsReachable(types, alreadyFetched, output, x); }
        }
      }
    }
  }
}
