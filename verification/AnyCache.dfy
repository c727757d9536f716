/** The resolver of google.protobuf.Any types: a cache over a descriptor source, filled under double-checked locking. */
module AnyCache {
  import opened Wrappers
  import opened Queues

  type Name = string

  /** FindSymbol's answer. */
  datatype Symbol<+D> = Missing | OtherKind | MessageType(desc: D)

  datatype Error = NotFound | UnknownMessage | BadExtensions

  /** A descriptor source that always answers the same, and what the extension registry accepts. */
  datatype Source<!D, !E> = Source(
    find: Name -> Symbol<D>,
    extensions: Name -> Option<seq<E>>,
    accepts: (set<E>, seq<E>) -> bool)

  /** strings.LastIndex, for one character. */
  function LastIndex(s: string, c: char): (i: int)
    ensures -1 <= i < |s| && (i >= 0 ==> s[i] == c)
    ensures forall k :: i < k < |s| ==> s[k] != c
  {
    if s == "" then -1
    else
      var i := LastIndex(s[1..], c);
      assert forall k :: i + 1 < k < |s| ==> s[k] == s[1..][k-1];
      if i >= 0 then i + 1 else if s[0] == c then 0 else -1
  }

  /** What follows the last slash. */
  function BaseName(url: string): Name {
    url[LastIndex(url, '/')+1..]
  }

  /** The name is all of the URL, or what stands behind a slash, and holds no slash itself. */
  ghost predicate IsLastPart(url: string, name: Name) {
    '/' !in name && (url == name || exists p :: url == p + "/" + name)
  }

  lemma BaseNameIsLast(url: string)
    ensures IsLastPart(url, BaseName(url))
  {
    var i := LastIndex(url, '/');
    if i >= 0 {
      assert url == url[..i] + "/" + url[i+1..];
    }
    forall k | 0 <= k < |BaseName(url)| ensures BaseName(url)[k] != '/' { assert BaseName(url)[k] == url[i+1+k]; }
  }

  lemma LastSlash(url: string, n: Name)
    requires IsLastPart(url, n)
    ensures |n| <= |url| && n == url[|url|-|n|..] && (|n| < |url| ==> url[|url|-|n|-1] == '/')
    ensures forall k :: |url| - |n| <= k < |url| ==> url[k] != '/'
  {
    if url != n {
      var p :| url == p + "/" + n;
      assert url[|p|] == '/' && |p| == |url| - |n| - 1;
    }
    forall k | |url| - |n| <= k < |url| ensures url[k] != '/' { assert n[k - (|url| - |n|)] == url[k]; }
  }

  /** Whatever stands before the last slash does not matter: a URL has one last part. */
  lemma LastPartOnce(url: string, n: Name, m: Name)
    requires IsLastPart(url, n) && IsLastPart(url, m)
    ensures n == m
  {
    LastSlash(url, n);
    LastSlash(url, m);
  }

  function ToSet<E(==)>(exts: Option<seq<E>>): set<E> {
    if exts.Some? then set e | e in exts.value else {}
  }

  /** The source lists the extension for the type. */
  ghost predicate ExtensionOf<D, E>(source: Source<D, E>, n: Name, e: E) {
    source.extensions(n).Some? && e in source.extensions(n).value
  }

  /** What the cache holds is what the source says, complete with extensions. */
  ghost predicate CacheOk<D, E(!new)>(source: Source<D, E>, resolved: map<Name, D>, er: set<E>, hasFactory: bool) {
    && (forall n :: n in resolved ==> CachedOk(source, resolved[n], er, n))
    && (resolved != map[] ==> hasFactory)
  }

  ghost predicate CachedOk<D, E(!new)>(source: Source<D, E>, d: D, er: set<E>, n: Name) {
    source.find(n) == MessageType(d) && forall e :: ExtensionOf(source, n, e) ==> e in er
  }

  // ---- one caller at a time ---------------------------------------------------------------------

  class MessageFactory {
    constructor () {
    }
  }

  datatype Message<+D> = Message(desc: D, maker: MessageFactory)

  class AnyResolver<D, E(==, !new)> {
    const source: Source<D, E>
    var er: set<E>
    var mf: MessageFactory?
    var resolved: map<Name, D>

    ghost predicate Valid()
      reads this
    {
      CacheOk(source, resolved, er, mf != null)
    }

    constructor (source: Source<D, E>)
      ensures Valid() && this.source == source && resolved == map[] && mf == null
    {
      this.source, er, mf, resolved := source, {}, null, map[];
    }

    /** Resolve, when nobody else calls it meanwhile; `name` is the part of the URL that counts. */
    method Resolve(typeUrl: string) returns (r: Result<Message<D>, Error>, ghost name: Name)
      requires Valid()
      modifies this
      ensures Valid()
      ensures IsLastPart(typeUrl, name)
      ensures old(er) <= er && (old(mf) != null ==> mf == old(mf))
      ensures r.Ok? ==> source.find(name) == MessageType(r.value.desc) && r.value.maker == mf
      ensures r.Ok? ==> resolved == old(resolved)[name := r.value.desc]
      ensures r.Err? ==> resolved == old(resolved) && mf == old(mf) && name !in resolved
      ensures r == Err(NotFound) <==> source.find(name).Missing?
      ensures r == Err(UnknownMessage) <==> source.find(name).OtherKind?
      ensures r == Err(BadExtensions) <==>
                && name !in old(resolved) && source.find(name).MessageType? && source.extensions(name).Some?
                && !source.accepts(old(er), source.extensions(name).value)
      ensures forall e :: e in er <==>
                e in old(er) || (r.Ok? && name !in old(resolved) && ExtensionOf(source, name, e))
    {
      var mname := BaseName(typeUrl);
      name := mname;
      BaseNameIsLast(typeUrl);
      hide IsLastPart, BaseName, LastIndex;
      if mname in resolved {
        assert CachedOk(source, resolved[mname], er, mname);
        return Ok(Message(resolved[mname], mf)), name;
      }
      var d := source.find(mname);
      if d.Missing? {
        return Err(NotFound), name;
      }
      if !d.MessageType? {
        return Err(UnknownMessage), name;
      }
      var exts := source.extensions(mname);
      if exts.Some? {
        if !source.accepts(er, exts.value) {
          return Err(BadExtensions), name;
        }
        er := er + ToSet(exts);
      }
      if mf == null {
        mf := new MessageFactory();
      }
      ghost var before := resolved;
      resolved := resolved[mname := d.desc];
      forall n | n in resolved ensures CachedOk(source, resolved[n], er, n) {
        assert n != mname ==> CachedOk(source, before[n], old(er), n);
      }
      r := Ok(Message(d.desc, mf));
    }
  }

  // ---- any number of callers at once ------------------------------------------------------------

  /** Where a call to Resolve stands. */
  datatype Pc<+D> =
    | Begin            // before the read lock
    | Hit(desc: D)     // about to run a cached factory, without any lock
    | Waiting          // missed: wants the write lock
    | Checking         // the second look, under the write lock, as all up to the end
    | Finding
    | Extending(d: D)
    | Making(d: D)     // before the test of mf
    | Storing(d: D)
    | Running(d: D)    // about to run the factory
    | Failing(error: Error)
    | Finished(result: Result<(D, nat), Error>)  // the type, and the identity of the message factory
  {
    predicate Locked() {
      Checking? || Finding? || Extending? || Making? || Storing? || Running? || Failing?
    }
  }

  datatype Caller<+D> = Caller(name: Name, pc: Pc<D>)

  datatype State<!D, !E> = State(
    resolved: map<Name, D>,
    er: set<E>,
    mf: Option<nat>,
    writer: Option<nat>,      // the caller that holds the write lock
    made: nat,                // message factories made so far
    stores: seq<Name>,        // every assignment into the cache, in order
    callers: seq<Caller<D>>)
  {
    function At(i: nat, pc: Pc<D>): State<D, E>
      requires i < |callers|
    {
      this.(callers := callers[i := callers[i].(pc := pc)])
    }
  }

  /** One step of caller i. On rejected extensions the registry may keep some of them. */
  ghost predicate Step<D, E(!new)>(source: Source<D, E>, s: State<D, E>, t: State<D, E>, i: nat)
    requires i < |s.callers|
  {
    var name := s.callers[i].name;
    match s.callers[i].pc
    case Begin =>
      s.writer.None? && t == s.At(i, if name in s.resolved then Hit(s.resolved[name]) else Waiting)
    case Hit(d) =>
      s.mf.Some? && t == s.At(i, Finished(Ok((d, s.mf.value))))
    case Waiting =>
      s.writer.None? && t == s.(writer := Some(i)).At(i, Checking)
    case Checking =>
      t == s.At(i, if name in s.resolved then Running(s.resolved[name]) else Finding)
    case Finding =>
      t == s.At(i, match source.find(name)
                   case Missing => Failing(NotFound)
                   case OtherKind => Failing(UnknownMessage)
                   case MessageType(d) => Extending(d))
    case Extending(d) =>
      if source.extensions(name).Some? && !source.accepts(s.er, source.extensions(name).value) then
        s.er <= t.er <= s.er + ToSet(source.extensions(name)) && t == s.(er := t.er).At(i, Failing(BadExtensions))
      else
        t == s.(er := s.er + ToSet(source.extensions(name))).At(i, Making(d))
    case Making(d) =>
      t == (if s.mf.Some? then s else s.(mf := Some(s.made), made := s.made + 1)).At(i, Storing(d))
    case Storing(d) =>
      t == s.(resolved := s.resolved[name := d], stores := s.stores + [name]).At(i, Running(d))
    case Running(d) =>
      s.mf.Some? && t == s.(writer := None).At(i, Finished(Ok((d, s.mf.value))))
    case Failing(e) =>
      t == s.(writer := None).At(i, Finished(Err(e)))
    case Finished(_) => false
  }

  ghost predicate Next<D, E(!new)>(source: Source<D, E>, s: State<D, E>, t: State<D, E>) {
    exists i: nat :: i < |s.callers| && Step(source, s, t, i)
  }

  ghost predicate Initial<D, E(!new)>(s: State<D, E>) {
    && s.resolved == map[] && s.mf.None? && s.writer.None? && s.made == 0 && s.stores == []
    && forall i :: 0 <= i < |s.callers| ==> s.callers[i].pc == Begin
  }

  ghost predicate IsRun<D, E(!new)>(source: Source<D, E>, run: seq<State<D, E>>) {
    && |run| > 0 && Initial(run[0])
    && forall k :: 0 <= k < |run| - 1 ==> Next(source, run[k], run[k+1])
  }

  /** Runs can start with any calls whatever. */
  lemma AnyCallsRun<D, E(!new)>(source: Source<D, E>, names: seq<Name>) returns (run: seq<State<D, E>>)
    ensures IsRun(source, run) && |run| == 1 && |run[0].callers| == |names|
    ensures forall i :: 0 <= i < |names| ==> run[0].callers[i] == Caller(names[i], Begin)
  {
    run := [State(map[], {}, None, None, 0, [], seq(|names|, i requires 0 <= i < |names| => Caller(names[i], Begin)))];
  }

  /** What is known of a caller where it stands. */
  ghost predicate CallerOk<D, E(!new)>(source: Source<D, E>, s: State<D, E>, i: nat)
    requires i < |s.callers|
  {
    var name := s.callers[i].name;
    && (s.callers[i].pc.Locked() <==> s.writer == Some(i))
    && match s.callers[i].pc
       case Hit(d) => name in s.resolved && s.resolved[name] == d && s.mf.Some?
       case Running(d) => name in s.resolved && s.resolved[name] == d && s.mf.Some?
       case Finding => name !in s.resolved
       case Extending(d) => source.find(name) == MessageType(d) && name !in s.resolved
       case Making(d) => CachedOk(source, d, s.er, name) && name !in s.resolved
       case Storing(d) => CachedOk(source, d, s.er, name) && name !in s.resolved && s.mf.Some?
       case Failing(e) => Explained(source, name, e)
       case Finished(Ok(made)) => name in s.resolved && s.resolved[name] == made.0 && s.mf == Some(made.1)
       case Finished(Err(e)) => Explained(source, name, e)
       case _ => true
  }

  /** Every failure is the source's own, or the registry's. */
  ghost predicate Explained<D, E(!new)>(source: Source<D, E>, name: Name, e: Error) {
    match e
    case NotFound => source.find(name).Missing?
    case UnknownMessage => source.find(name).OtherKind?
    case BadExtensions => source.find(name).MessageType? && Rejectable(source, name)
  }

  ghost predicate Rejectable<D, E(!new)>(source: Source<D, E>, name: Name) {
    source.extensions(name).Some? && exists er :: !source.accepts(er, source.extensions(name).value)
  }

  ghost predicate Inv<D, E(!new)>(source: Source<D, E>, s: State<D, E>) {
    && CacheOk(source, s.resolved, s.er, s.mf.Some?)
    && (if s.mf.Some? then s.made == 1 && s.mf.value == 0 else s.made == 0)
    && NoDup(s.stores)
    && (forall n :: n in s.stores <==> n in s.resolved)
    && (s.writer.Some? ==> s.writer.value < |s.callers|)
    && (forall i: nat :: i < |s.callers| ==> CallerOk(source, s, i))
  }

  /** Nothing ever leaves the cache or the registry, and the message factory is never replaced. */
  ghost predicate Grows<D, E>(s: State<D, E>, t: State<D, E>) {
    && (forall n :: n in s.resolved ==> n in t.resolved && t.resolved[n] == s.resolved[n])
    && s.er <= t.er
    && (s.mf.Some? ==> t.mf == s.mf)
    && s.stores <= t.stores
    && |t.callers| == |s.callers|
    && (forall i :: 0 <= i < |s.callers| ==> t.callers[i].name == s.callers[i].name)
  }

  lemma StepGrows<D, E(!new)>(source: Source<D, E>, s: State<D, E>, t: State<D, E>, i: nat)
    requires Inv(source, s) && i < |s.callers| && Step(source, s, t, i)
    ensures Grows(s, t)
  {
    assert CallerOk(source, s, i);
  }

  /** The step's own caller. */
  lemma StepOwn<D, E(!new)>(source: Source<D, E>, s: State<D, E>, t: State<D, E>, i: nat)
    requires Inv(source, s) && i < |s.callers| && Step(source, s, t, i)
    ensures i < |t.callers| && CallerOk(source, t, i)
  {
    assert CallerOk(source, s, i);
    var name := s.callers[i].name;
    if name in s.resolved {
      assert CachedOk(source, s.resolved[name], s.er, name);
    }
  }

  lemma StepOther<D, E(!new)>(source: Source<D, E>, s: State<D, E>, t: State<D, E>, i: nat, j: nat)
    requires Inv(source, s) && i < |s.callers| && Step(source, s, t, i) && j < |s.callers| && j != i
    ensures j < |t.callers| && CallerOk(source, t, j)
  {
    assert CallerOk(source, s, i) && CallerOk(source, s, j);
    StepGrows(source, s, t, i);
    assert t.callers[j] == s.callers[j];
  }

  lemma StepCache<D, E(!new)>(source: Source<D, E>, s: State<D, E>, t: State<D, E>, i: nat)
    requires Inv(source, s) && i < |s.callers| && Step(source, s, t, i)
    ensures CacheOk(source, t.resolved, t.er, t.mf.Some?)
    ensures if t.mf.Some? then t.made == 1 && t.mf.value == 0 else t.made == 0
    ensures NoDup(t.stores) && forall n :: n in t.stores <==> n in t.resolved
    ensures t.writer.Some? ==> t.writer.value < |t.callers|
  {
    assert CallerOk(source, s, i);
    StepGrows(source, s, t, i);
    forall n | n in t.resolved ensures CachedOk(source, t.resolved[n], t.er, n) {
      if n in s.resolved {
        assert CachedOk(source, s.resolved[n], s.er, n);
      }
    }
  }

  lemma StepKeeps<D, E(!new)>(source: Source<D, E>, s: State<D, E>, t: State<D, E>)
    requires Inv(source, s) && Next(source, s, t)
    ensures Inv(source, t) && Grows(s, t)
  {
    var i: nat :| i < |s.callers| && Step(source, s, t, i);
    StepGrows(source, s, t, i);
    StepCache(source, s, t, i);
    StepOwn(source, s, t, i);
    forall j: nat | j < |t.callers| ensures CallerOk(source, t, j) {
      if j != i {
        StepOther(source, s, t, i, j);
      }
    }
  }

  lemma {:induction false} RunInv<D, E(!new)>(source: Source<D, E>, run: seq<State<D, E>>, k: nat)
    requires IsRun(source, run) && k < |run|
    ensures Inv(source, run[k])
  {
    if k == 0 {
      forall i: nat | i < |run[0].callers| ensures CallerOk(source, run[0], i) {
        assert run[0].callers[i].pc == Begin;
      }
    } else {
      RunInv(source, run, k - 1);
      assert Next(source, run[k-1], run[k-1+1]);
      StepKeeps(source, run[k-1], run[k]);
    }
  }

  /** Each name is filled at most once and never changed, and one message factory serves throughout. */
  lemma {:induction false} RunGrows<D, E(!new)>(source: Source<D, E>, run: seq<State<D, E>>, j: nat, k: nat)
    requires IsRun(source, run) && j <= k < |run|
    ensures Grows(run[j], run[k])
    ensures NoDup(run[k].stores) && run[k].made <= 1
  {
    RunInv(source, run, k);
    if j < k {
      RunGrows(source, run, j, k - 1);
      RunInv(source, run, k - 1);
      assert Next(source, run[k-1], run[k-1+1]);
      StepKeeps(source, run[k-1], run[k]);
    }
  }

  /** No caller is ever about to run a factory while the message factory is not there. */
  lemma FactoryIsThere<D, E(!new)>(source: Source<D, E>, run: seq<State<D, E>>, k: nat, i: nat)
    requires IsRun(source, run) && k < |run| && i < |run[k].callers|
    requires run[k].callers[i].pc.Hit? || run[k].callers[i].pc.Running?
    ensures run[k].mf.Some?
  {
    RunInv(source, run, k);
    assert CallerOk(source, run[k], i);
  }

  /** Whatever the interleaving, a call ends as asking the source directly would, with the one message
      factory; the only other end is extensions the registry can refuse. */
  lemma CallsAreDirect<D, E(!new)>(source: Source<D, E>, run: seq<State<D, E>>, k: nat, i: nat)
    requires IsRun(source, run) && k < |run| && i < |run[k].callers| && run[k].callers[i].pc.Finished?
    ensures var name, result := run[k].callers[i].name, run[k].callers[i].pc.result;
            && (result.Ok? ==> source.find(name) == MessageType(result.value.0) && run[k].mf == Some(result.value.1))
            && (result.Ok? ==> name in run[k].resolved && run[k].resolved[name] == result.value.0)
            && (result.Ok? ==> forall e :: ExtensionOf(source, name, e) ==> e in run[k].er)
            && (result == Err(NotFound) <==> source.find(name).Missing?)
            && (result == Err(UnknownMessage) <==> source.find(name).OtherKind?)
            && (result == Err(BadExtensions) ==> source.find(name).MessageType? && Rejectable(source, name))
  {
    RunInv(source, run, k);
    assert CallerOk(source, run[k], i);
    var name := run[k].callers[i].name;
    if name in run[k].resolved { assert CachedOk(source, run[k].resolved[name], run[k].er, name); }
  }

  /** At most one caller is past the write lock, so the fine steps of filling never overlap. */
  lemma OneWriter<D, E(!new)>(source: Source<D, E>, run: seq<State<D, E>>, k: nat, i: nat, j: nat)
    requires IsRun(source, run) && k < |run| && i < |run[k].callers| && j < |run[k].callers|
    requires run[k].callers[i].pc.Locked() && run[k].callers[j].pc.Locked()
    ensures i == j
  {
    RunInv(source, run, k);
    assert CallerOk(source, run[k], i) && CallerOk(source, run[k], j);
  }

  // ---- every call comes to an end -----------------------------------------------------------------

  /** How many steps a call can still take. */
  function Rank<D>(pc: Pc<D>): nat {
    match pc
    case Begin => 9
    case Waiting => 8
    case Checking => 7
    case Finding => 6
    case Extending(_) => 5
    case Making(_) => 4
    case Storing(_) => 3
    case Running(_) => 2
    case Hit(_) => 1
    case Failing(_) => 1
    case Finished(_) => 0
  }

  function Work<D>(callers: seq<Caller<D>>): nat {
    if callers == [] then 0 else Rank(callers[0].pc) + Work(callers[1..])
  }

  lemma {:induction false} WorkAt<D>(callers: seq<Caller<D>>, i: nat, c: Caller<D>)
    requires i < |callers|
    ensures Work(callers[i := c]) == Work(callers) - Rank(callers[i].pc) + Rank(c.pc)
  {
    if i == 0 {
      assert callers[0 := c][1..] == callers[1..];
    } else {
      assert callers[i := c][1..] == callers[1..][i - 1 := c];
      WorkAt(callers[1..], i - 1, c);
    }
  }

  lemma StepIsWork<D, E(!new)>(source: Source<D, E>, s: State<D, E>, t: State<D, E>, i: nat)
    requires i < |s.callers| && Step(source, s, t, i)
    ensures |t.callers| == |s.callers| && Work(t.callers) < Work(s.callers)
  {
    assert t.callers == s.callers[i := t.callers[i]];
    WorkAt(s.callers, i, t.callers[i]);
  }

  lemma {:induction false} FirstWork<D>(callers: seq<Caller<D>>)
    requires forall i :: 0 <= i < |callers| ==> callers[i].pc == Begin
    ensures Work(callers) == 9 * |callers|
  {
    if callers != [] { FirstWork(callers[1..]); }
  }

  /** No run is longer than nine steps a call. */
  lemma {:induction false} RunsEnd<D, E(!new)>(source: Source<D, E>, run: seq<State<D, E>>, k: nat)
    requires IsRun(source, run) && k < |run|
    ensures |run[k].callers| == |run[0].callers|
    ensures k + Work(run[k].callers) <= 9 * |run[0].callers|
  {
    hide Step, Work, Rank;
    if k == 0 {
      FirstWork(run[0].callers);
    } else {
      RunsEnd(source, run, k - 1);
      var i := Stepped(source, run, k);
      StepIsWork(source, run[k-1], run[k], i);
    }
  }

  /** Where a caller that is not done can go next, if it holds the write lock or nobody does. */
  lemma Onward<D, E(!new)>(source: Source<D, E>, s: State<D, E>, i: nat) returns (t: State<D, E>)
    requires Inv(source, s) && i < |s.callers| && !s.callers[i].pc.Finished? && (s.writer.None? || s.writer == Some(i))
    ensures Step(source, s, t, i)
  {
    assert CallerOk(source, s, i);
    var name := s.callers[i].name;
    match s.callers[i].pc
    case Begin => t := s.At(i, if name in s.resolved then Hit(s.resolved[name]) else Waiting);
    case Hit(d) => t := s.At(i, Finished(Ok((d, s.mf.value))));
    case Waiting => t := s.(writer := Some(i)).At(i, Checking);
    case Checking => t := s.At(i, if name in s.resolved then Running(s.resolved[name]) else Finding);
    case Finding =>
      t := s.At(i, match source.find(name)
                   case Missing => Failing(NotFound)
                   case OtherKind => Failing(UnknownMessage)
                   case MessageType(d) => Extending(d));
    case Extending(d) =>
      if source.extensions(name).Some? && !source.accepts(s.er, source.extensions(name).value) {
        t := s.At(i, Failing(BadExtensions));
      } else {
        t := s.(er := s.er + ToSet(source.extensions(name))).At(i, Making(d));
      }
    case Making(d) => t := (if s.mf.Some? then s else s.(mf := Some(s.made), made := s.made + 1)).At(i, Storing(d));
    case Storing(d) => t := s.(resolved := s.resolved[name := d], stores := s.stores + [name]).At(i, Running(d));
    case Running(d) => t := s.(writer := None).At(i, Finished(Ok((d, s.mf.value))));
    case Failing(e) => t := s.(writer := None).At(i, Finished(Err(e)));
  }

  /** No deadlock: while some call is not done, some call can go on. */
  lemma NoDeadlock<D, E(!new)>(source: Source<D, E>, run: seq<State<D, E>>, k: nat, i: nat)
    requires IsRun(source, run) && k < |run| && i < |run[k].callers| && !run[k].callers[i].pc.Finished?
    ensures exists t :: Next(source, run[k], t)
  {
    RunInv(source, run, k);
    var s := run[k];
    var j := if s.writer.Some? then s.writer.value else i;
    assert CallerOk(source, s, j);
    var t := Onward(source, s, j);
    assert Next(source, s, t);
  }

  /** A call that was answered from the cache, is about to be, or has not begun. */
  predicate FromCache<D(==)>(pc: Pc<D>, d: D) {
    pc.Begin? || pc == Hit(d) || (pc.Finished? && pc.result.Ok? && pc.result.value.0 == d)
  }

  lemma FromCacheStep<D, E(!new)>(source: Source<D, E>, s: State<D, E>, t: State<D, E>, p: nat, i: nat, d: D)
    requires p < |s.callers| && Step(source, s, t, p) && i < |s.callers| && FromCache(s.callers[i].pc, d)
    requires s.callers[i].name in s.resolved && s.resolved[s.callers[i].name] == d
    ensures i < |t.callers| && FromCache(t.callers[i].pc, d)
  {
    if i != p { assert t.callers[i] == s.callers[i]; }
  }

  /** A call for a name that is cached as it begins is answered from the cache and never takes the write lock. */
  lemma {:induction false} CachedCallsDoNotLock<D, E(!new)>(source: Source<D, E>, run: seq<State<D, E>>, j: nat, k: nat, i: nat)
    requires IsRun(source, run) && j <= k < |run| && i < |run[j].callers|
    requires run[j].callers[i].pc.Begin? && run[j].callers[i].name in run[j].resolved
    ensures i < |run[k].callers| && FromCache(run[k].callers[i].pc, run[j].resolved[run[j].callers[i].name])
    ensures run[k].writer != Some(i)
    decreases k
  {
    hide Step, IsRun;
    RunInv(source, run, k);
    if j < k {
      CachedCallsDoNotLock(source, run, j, k - 1, i);
      RunGrows(source, run, j, k - 1);
      var p := Stepped(source, run, k);
      FromCacheStep(source, run[k-1], run[k], p, i, run[j].resolved[run[j].callers[i].name]);
    }
    assert CallerOk(source, run[k], i);
  }

  lemma Stepped<D, E(!new)>(source: Source<D, E>, run: seq<State<D, E>>, k: nat) returns (p: nat)
    requires IsRun(source, run) && 0 < k < |run|
    ensures p < |run[k-1].callers| && Step(source, run[k-1], run[k], p)
  {
    assert Next(source, run[k-1], run[k-1+1]);
    p :| p < |run[k-1].callers| && Step(source, run[k-1], run[k], p);
  }
}
