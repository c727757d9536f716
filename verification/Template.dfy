/** makeTemplate: a fleshed-out example of a message type, on type graphs that may be recursive.
    The path is a Go slice: an array that frames share, and a length of one's own. */
module Template {
  import opened Wrappers

  /** The field types of a descriptor that are not messages. */
  datatype ScalarType =
    | Fixed32 | Uint32 | Sfixed32 | Sint32 | Int32 | Enum | Fixed64 | Uint64 | Sfixed64 | Sint64 | Int64
    | Str | Bytes | Bool | Float | Double

  datatype Zero = U32 | I32 | U64 | I64 | EmptyString | EmptyBytes | False | F32 | F64

  datatype FieldType = Scalar(scalar: ScalarType) | Message(of: nat)

  datatype Field = Field(repeated: bool, kind: FieldType, oneof: Option<nat>)

  datatype MessageType = MessageType(name: string, fields: seq<Field>)

  type Types = seq<MessageType>

  datatype Elem = Default(zero: Zero) | Sub(msg: Msg)

  datatype FieldValue = Single(msg: Msg) | Repeated(elems: seq<Elem>)

  /** A well-known type's stock value, or a dynamic message and the fields set in it. */
  datatype Msg = Stock(name: string) | Dynamic(of: nat, fields: map<nat, FieldValue>)

  ghost predicate WellFormed(types: Types) {
    forall t, i :: 0 <= t < |types| && 0 <= i < |types[t].fields| ==> FieldOk(types, types[t].fields[i])
  }

  predicate FieldOk(types: Types, f: Field) {
    (f.kind.Message? ==> f.kind.of < |types|) && (f.repeated ==> f.oneof.None?)
  }

  predicate HasStock(name: string) {
    || name == "google.protobuf.Any"
    || name == "google.protobuf.Value"
    || name == "google.protobuf.ListValue"
    || name == "google.protobuf.Struct"
  }

  /** The types that have a JSON form of their own in which something must be said. */
  const WELL_KNOWN := {
    "google.protobuf.Any",
    "google.protobuf.Struct",
    "google.protobuf.Value",
    "google.protobuf.ListValue"
  }

  /** The value a repeated scalar field is shown with. */
  function ZeroOf(t: ScalarType): Zero {
    match t
    case Fixed32 => U32
    case Uint32 => U32
    case Sfixed32 => I32
    case Sint32 => I32
    case Int32 => I32
    case Enum => I32
    case Fixed64 => U64
    case Uint64 => U64
    case Sfixed64 => I64
    case Sint64 => I64
    case Int64 => I64
    case Str => EmptyString
    case Bytes => EmptyBytes
    case Bool => False
    case Float => F32
    case Double => F64
  }

  /** The zero is of the Go type a scalar field holds: by width, sign and kind. */
  ghost predicate IsZeroOf(z: Zero, t: ScalarType) {
    && (z == U32 <==> t in {Uint32, Fixed32})
    && (z == I32 <==> t in {Int32, Sint32, Sfixed32, Enum})
    && (z == U64 <==> t in {Uint64, Fixed64})
    && (z == I64 <==> t in {Int64, Sint64, Sfixed64})
    && (z == EmptyString <==> t == Str) && (z == EmptyBytes <==> t == Bytes) && (z == False <==> t == Bool)
    && (z == F32 <==> t == Float) && (z == F64 <==> t == Double)
  }

  /** Setting a member of a oneof clears the others. */
  function SetField(fields: seq<Field>, m: map<nat, FieldValue>, i: nat, v: FieldValue): map<nat, FieldValue>
    requires i < |fields|
  {
    (map j | j in m && !(j < |fields| && fields[j].oneof.Some? && fields[j].oneof == fields[i].oneof) :: m[j])[i := v]
  }

  /** The types not on the path; each deeper frame has one fewer. */
  function OffPath(types: Types, path: seq<nat>): set<nat> {
    set t: nat | t < |types| && t !in path
  }

  // ---- what a template is ------------------------------------------------------------------

  predicate IsSubmessage(f: Field) {
    !f.repeated && f.kind.Message?
  }

  /** A field is shown if it is repeated, or a message that no later message of its oneof displaces. */
  ghost predicate Shown(fields: seq<Field>, i: nat, upTo: nat) {
    && i < upTo <= |fields|
    && (fields[i].repeated
        || (IsSubmessage(fields[i])
            && forall j :: i < j < upTo && IsSubmessage(fields[j]) && fields[i].oneof.Some? ==> fields[j].oneof != fields[i].oneof))
  }

  ghost predicate IsElem(types: Types, e: Elem, t: FieldType, path: seq<nat>)
    requires WellFormed(types)
    decreases OffPath(types, path), 2
  {
    match t
    case Scalar(s) => e.Default? && IsZeroOf(e.zero, s)
    case Message(k) => k < |types| && e.Sub? && IsTemplate(types, e.msg, k, path)
  }

  ghost predicate IsValue(types: Types, v: FieldValue, f: Field, path: seq<nat>)
    requires WellFormed(types)
    decreases OffPath(types, path), 3
  {
    if f.repeated then v.Repeated? && |v.elems| == 1 && IsElem(types, v.elems[0], f.kind, path)
    else v.Single? && f.kind.Message? && f.kind.of < |types| && IsTemplate(types, v.msg, f.kind.of, path)
  }

  /** The fields of a message of type md, the first n of them looked at. */
  ghost predicate AreFields(types: Types, m: map<nat, FieldValue>, md: nat, n: nat, path: seq<nat>)
    requires WellFormed(types) && md < |types| && n <= |types[md].fields| && md !in path
    decreases OffPath(types, path), 0
  {
    && (forall i :: i in m <==> Shown(types[md].fields, i, n))
    && (OffPathShrinks(types, md, path);
        forall i :: i in m ==> i < |types[md].fields| && IsValue(types, m[i], types[md].fields[i], path + [md]))
  }

  /** A template of md below the types on the path: stock values for well-known types, an empty
      message where md comes round again, and otherwise every field that can be shown, shown. */
  ghost predicate IsTemplate(types: Types, t: Msg, md: nat, path: seq<nat>)
    requires WellFormed(types) && md < |types|
    decreases OffPath(types, path), 1
  {
    if types[md].name in WELL_KNOWN then t == Stock(types[md].name)
    else if md in path then t == Dynamic(md, map[])
    else t.Dynamic? && t.of == md && AreFields(types, t.fields, md, |types[md].fields|, path)
  }

  lemma OffPathShrinks(types: Types, md: nat, path: seq<nat>)
    requires md < |types| && md !in path
    ensures OffPath(types, path + [md]) < OffPath(types, path)
  {
    assert md in OffPath(types, path) && md !in OffPath(types, path + [md]);
  }

  // ---- the algorithm ---------------------------------------------------------------------------

  /** Go's append on a path slice: in place while there is room, else into a larger array. */
  method Append(path: array<nat>, n: nat, md: nat) returns (longer: array<nat>)
    requires n <= path.Length
    modifies path
    ensures n < longer.Length && longer[..n+1] == old(path[..n]) + [md]
    ensures path[..n] == old(path[..n]) && (longer == path || fresh(longer))
  {
    if n < path.Length {
      path[n] := md;
      longer := path;
    } else {
      var cap: nat :| n < cap;
      longer := new nat[cap](i requires 0 <= i < cap reads path => if i < n then path[i] else md);
    }
  }

  lemma ShownNext(fields: seq<Field>, i: nat)
    requires i < |fields| && (fields[i].repeated ==> fields[i].oneof.None?)
    ensures forall j: nat :: j != i ==> (Shown(fields, j, i + 1) <==>
              Shown(fields, j, i) && !(IsSubmessage(fields[i]) && IsSubmessage(fields[j]) && fields[j].oneof.Some? && fields[j].oneof == fields[i].oneof))
    ensures Shown(fields, i, i + 1) <==> fields[i].repeated || fields[i].kind.Message?
  {
  }

  /** Setting field i the way the loop does makes the first i + 1 fields right. */
  lemma FieldAdded(types: Types, m: map<nat, FieldValue>, md: nat, i: nat, path: seq<nat>, v: FieldValue)
    requires WellFormed(types) && md < |types| && i < |types[md].fields| && md !in path
    requires AreFields(types, m, md, i, path)
    requires types[md].fields[i].repeated || types[md].fields[i].kind.Message?
    requires OffPath(types, path + [md]) < OffPath(types, path) && IsValue(types, v, types[md].fields[i], path + [md])
    ensures AreFields(types, if types[md].fields[i].repeated then m[i := v] else SetField(types[md].fields, m, i, v), md, i + 1, path)
  {
    assert FieldOk(types, types[md].fields[i]);
    ShownNext(types[md].fields, i);
  }

  lemma FieldSkipped(types: Types, m: map<nat, FieldValue>, md: nat, i: nat, path: seq<nat>)
    requires WellFormed(types) && md < |types| && i < |types[md].fields| && md !in path
    requires AreFields(types, m, md, i, path)
    requires !types[md].fields[i].repeated && !types[md].fields[i].kind.Message?
    ensures AreFields(types, m, md, i + 1, path)
  {
    assert FieldOk(types, types[md].fields[i]);
    ShownNext(types[md].fields, i);
  }

  /** makeTemplate.  Whatever deeper frames append, this frame's own path stays as it was. */
  method MakeTemplate(types: Types, md: nat, path: array<nat>, n: nat) returns (t: Msg)
    requires WellFormed(types) && md < |types| && n <= path.Length
    modifies path
    ensures path[..n] == old(path[..n])
    ensures IsTemplate(types, t, md, old(path[..n]))
    decreases OffPath(types, path[..n])
  {
    ghost var own := path[..n];
    if HasStock(types[md].name) {
      return Stock(types[md].name);
    }
    var seen := Contains(path, n, md);
    if seen {
      return Dynamic(md, map[]);
    }
    var longer := Append(path, n, md);
    OffPathShrinks(types, md, own);
    var m: map<nat, FieldValue> := map[];
    var i := 0;
    while i < |types[md].fields|
      invariant 0 <= i <= |types[md].fields| && n < longer.Length
      invariant longer[..n+1] == own + [md] && path[..n] == own
      invariant AreFields(types, m, md, i, own)
    {
      var f := types[md].fields[i];
      assert FieldOk(types, f);
      if f.repeated {
        var e: Elem;
        match f.kind {
          case Scalar(s) => e := Default(ZeroOf(s));
          case Message(k) =>
            var sub := MakeTemplate(types, k, longer, n + 1);
            e := Sub(sub);
        }
        FieldAdded(types, m, md, i, own, Repeated([e]));
        m := m[i := Repeated([e])];
      } else if f.kind.Message? {
        var sub := MakeTemplate(types, f.kind.of, longer, n + 1);
        FieldAdded(types, m, md, i, own, Single(sub));
        m := SetField(types[md].fields, m, i, Single(sub));
      } else {
        FieldSkipped(types, m, md, i, own);
      }
      assert path[..n] == own by { PrefixKept(path, longer, n, own, md); }
      i := i + 1;
    }
    t := Dynamic(md, m);
  }

  lemma PrefixKept(path: array<nat>, longer: array<nat>, n: nat, own: seq<nat>, md: nat)
    requires n <= path.Length && n < longer.Length && longer[..n+1] == own + [md] && |own| == n
    requires longer == path || path[..n] == own
    ensures path[..n] == own
  {
    if longer == path {
      assert longer[..n+1][..n] == own;
    }
  }

  /** slices.Contains */
  method Contains(path: array<nat>, n: nat, md: nat) returns (found: bool)
    requires n <= path.Length
    ensures found <==> md in path[..n]
  {
    var i := 0;
    while i < n
      invariant 0 <= i <= n && md !in path[..i]
    {
      if path[i] == md {
        assert path[..n][i] == md;
        return true;
      }
      i := i + 1;
    }
    found := false;
  }

  /** There is only one template of a type: IsTemplate says all there is to say about the result. */
  lemma {:induction false} TemplateIsUnique(types: Types, a: Msg, b: Msg, md: nat, path: seq<nat>)
    requires WellFormed(types) && md < |types| && IsTemplate(types, a, md, path) && IsTemplate(types, b, md, path)
    ensures a == b
    decreases OffPath(types, path), 0
  {
    if types[md].name !in WELL_KNOWN && md !in path {
      OffPathShrinks(types, md, path);
      var fields := types[md].fields;
      assert AreFields(types, a.fields, md, |fields|, path) && AreFields(types, b.fields, md, |fields|, path);
      forall i | i in a.fields ensures i in b.fields && a.fields[i] == b.fields[i] {
        assert Shown(fields, i, |fields|);
        ValueIsUnique(types, a.fields[i], b.fields[i], fields[i], path + [md]);
      }
      forall i | i in b.fields ensures i in a.fields {
        assert Shown(fields, i, |fields|);
      }
      assert a.fields == b.fields;
    }
  }

  lemma {:induction false} ValueIsUnique(types: Types, a: FieldValue, b: FieldValue, f: Field, path: seq<nat>)
    requires WellFormed(types) && IsValue(types, a, f, path) && IsValue(types, b, f, path)
    ensures a == b
    decreases OffPath(types, path), 1
  {
    if !f.repeated {
      TemplateIsUnique(types, a.msg, b.msg, f.kind.of, path);
    } else {
      assert IsElem(types, a.elems[0], f.kind, path) && IsElem(types, b.elems[0], f.kind, path);
      if f.kind.Message? {
        TemplateIsUnique(types, a.elems[0].msg, b.elems[0].msg, f.kind.of, path);
      }
      assert a.elems == [a.elems[0]] && b.elems == [b.elems[0]];
    }
  }

  // ---- what that says about recursive types -------------------------------------------------------

  /** b sits in a field of a. */
  ghost predicate Nested(a: Msg, b: Msg) {
    a.Dynamic? && exists i :: i in a.fields && InValue(a.fields[i], b)
  }

  ghost predicate InValue(v: FieldValue, b: Msg) {
    match v
    case Single(msg) => msg == b
    case Repeated(elems) => Sub(b) in elems
  }

  /** The types met on the way down, before the i-th message. */
  function Before(chain: seq<Msg>, i: nat): (ts: seq<nat>)
    requires i <= |chain| && forall j :: 0 <= j < |chain| ==> chain[j].Dynamic?
    ensures |ts| == i && forall j :: 0 <= j < i ==> ts[j] == chain[j].of
  {
    if i == 0 then [] else Before(chain, i - 1) + [chain[i-1].of]
  }

  ghost predicate Chain(chain: seq<Msg>) {
    && (forall j :: 0 <= j < |chain| ==> chain[j].Dynamic?)
    && (forall i :: 0 < i < |chain| ==> Nested(chain[i-1], chain[i]))
  }

  lemma InsideValue(types: Types, v: FieldValue, f: Field, path: seq<nat>, b: Msg)
    requires WellFormed(types) && IsValue(types, v, f, path) && InValue(v, b) && b.Dynamic?
    ensures b.of < |types| && IsTemplate(types, b, b.of, path)
  {
    if f.repeated {
      assert v.elems[0] == Sub(b) && IsElem(types, v.elems[0], f.kind, path);
      assert IsTemplate(types, b, f.kind.of, path);
    } else {
      assert IsTemplate(types, b, f.kind.of, path);
    }
  }

  /** A message inside a template is the template of its own type, one step further down. */
  lemma NestedIsTemplate(types: Types, t: Msg, md: nat, path: seq<nat>, b: Msg)
    requires WellFormed(types) && md < |types| && IsTemplate(types, t, md, path) && Nested(t, b) && b.Dynamic?
    ensures md !in path && t.of == md && b.of < |types| && IsTemplate(types, b, b.of, path + [md])
  {
    var i :| i in t.fields && InValue(t.fields[i], b);
    assert types[md].name !in WELL_KNOWN && md !in path;
    assert AreFields(types, t.fields, md, |types[md].fields|, path);
    OffPathShrinks(types, md, path);
    InsideValue(types, t.fields[i], types[md].fields[i], path + [md], b);
  }

  lemma {:induction false} ChainIsTemplate(types: Types, t: Msg, md: nat, chain: seq<Msg>, i: nat)
    requires WellFormed(types) && md < |types| && IsTemplate(types, t, md, [])
    requires Chain(chain) && i < |chain| && chain[0] == t
    ensures chain[i].of < |types| && IsTemplate(types, chain[i], chain[i].of, Before(chain, i))
    ensures i > 0 ==> chain[i-1].of !in Before(chain, i - 1)
    decreases i
  {
    if i > 0 {
      ChainIsTemplate(types, t, md, chain, i - 1);
      assert Nested(chain[i-1], chain[i]);
      NestedIsTemplate(types, chain[i-1], chain[i-1].of, Before(chain, i - 1), chain[i]);
    }
  }

  /** Going down a template never meets a type twice, except that the last message met may be of
      a type met before; and that one is empty. */
  lemma TypesRepeatOnlyAtTheCut(types: Types, t: Msg, md: nat, chain: seq<Msg>, i: nat, j: nat)
    requires WellFormed(types) && md < |types| && IsTemplate(types, t, md, [])
    requires Chain(chain) && i < j < |chain| && chain[0] == t && chain[i].of == chain[j].of
    ensures j == |chain| - 1 && chain[j].fields == map[]
  {
    ChainIsTemplate(types, t, md, chain, j);
    assert Before(chain, j)[i] == chain[j].of;
    if j < |chain| - 1 {
      ChainIsTemplate(types, t, md, chain, j + 1);
    }
  }

  /** So a chain of messages is at most one longer than there are types. */
  lemma ChainsAreShort(types: Types, t: Msg, md: nat, chain: seq<Msg>)
    requires WellFormed(types) && md < |types| && IsTemplate(types, t, md, []) && Chain(chain) && |chain| > 0 && chain[0] == t
    ensures |chain| <= |types| + 1
  {
    var last := |chain| - 1;
    var front := Before(chain, last);
    forall i | 0 <= i < last ensures front[i] < |types| && front[i] !in front[..i] {
      ChainIsTemplate(types, t, md, chain, i + 1);
      ChainIsTemplate(types, t, md, chain, i);
      assert front[..i] == Before(chain, i);
    }
    DistinctBelow(front, |types|);
  }

  function UpTo(n: nat): (s: set<nat>)
    ensures |s| == n && forall x: nat :: x in s <==> x < n
  {
    if n == 0 then {} else UpTo(n - 1) + {n - 1}
  }

  function Elements(s: seq<nat>): set<nat> {
    set x | x in s
  }

  lemma DistinctBelow(s: seq<nat>, n: nat)
    requires forall i :: 0 <= i < |s| ==> s[i] < n
    requires forall j :: 0 <= j < |s| ==> s[j] !in s[..j]
    ensures |s| <= n
  {
    SetOfDistinct(s);
    assert Elements(s) <= UpTo(n);
    assert UpTo(n) == Elements(s) + (UpTo(n) - Elements(s));
  }

  lemma {:induction false} SetOfDistinct(s: seq<nat>)
    requires forall j :: 0 <= j < |s| ==> s[j] !in s[..j]
    ensures |Elements(s)| == |s|
  {
    if s != [] {
      var front := s[..|s|-1];
      forall j | 0 <= j < |front| ensures front[j] !in front[..j] { assert front[..j] == s[..j]; }
      SetOfDistinct(front);
      assert s == front + [s[|s|-1]];
      assert Elements(s) == Elements(front) + {s[|s|-1]};
    }
  }
}
