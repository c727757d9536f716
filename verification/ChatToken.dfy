/** A session id is a token, as long as new ids are new: it sits in the waiting queue, or one agent
    stream holds a session of that id, or neither. */
module ChatToken {
  import opened Wrappers
  import opened Int32
  import opened Queues
  import opened ChatModel
  import opened ChatInvariant
  import opened ChatFrames

  /** The session an agent stream has in hand, from the moment its id leaves the queue. */
  function Holds(st: Stream): Option<nat> {
    if st.role.Customer? then None
    else if st.pc.Taken? then Some(st.pc.k)
    else if Attached(st) then st.sess
    else None
  }

  function HeldId(s: State, p: nat): Option<int> {
    if On(s, p) && Holds(s.streams[p]).Some? && Holds(s.streams[p]).value < |s.sessions|
    then Some(s.sessions[Holds(s.streams[p]).value].id)
    else None
  }

  ghost predicate Token(s: State) {
    && NoDup(s.waiting)
    && (forall p: nat :: HeldId(s, p).Some? ==> HeldId(s, p).value !in s.waiting)
    && (forall p: nat, q: nat :: p != q && HeldId(s, p).Some? ==> HeldId(s, p) != HeldId(s, q))
  }

  /** The id that NewSession would hand out is neither queued nor in an agent's hands. */
  ghost predicate FreshId(s: State) {
    && Wrap32(s.lastSession + 1) !in s.waiting
    && forall p: nat :: HeldId(s, p) != Some(Wrap32(s.lastSession + 1))
  }

  // ---- what ids are --------------------------------------------------------------------

  ghost predicate Issued(s: State, id: int) {
    exists k :: 0 <= k < |s.sessions| && s.sessions[k].id == id
  }

  /** Ids count up and wrap; the queue and the map know only ids that were handed out. */
  ghost predicate IdsOk(s: State) {
    && s.lastSession == Wrap32(|s.sessions|)
    && (forall k :: 0 <= k < |s.sessions| ==> s.sessions[k].id == Wrap32(k + 1))
    && (forall x :: x in s.waiting ==> Issued(s, x))
    && (forall x :: x in s.bySession ==> s.bySession[x] < |s.sessions| && s.sessions[s.bySession[x]].id == x)
  }

  lemma IssuedStays(s: State, t: State, x: int)
    requires Issued(s, x) && |s.sessions| <= |t.sessions|
    requires forall k :: 0 <= k < |s.sessions| ==> t.sessions[k].id == s.sessions[k].id
    ensures Issued(t, x)
  {
    var k :| 0 <= k < |s.sessions| && s.sessions[k].id == x;
    assert t.sessions[k].id == x;
  }

  // ---- steps that leave the queue, the ids and the holders alone -------------------

  predicate IsQueueing(a: Action) {
    a.NewSession? || a.RemoveSession? || a.Accept? || a.Detach?
  }

  ghost predicate QueueUntouched(s: State, t: State) {
    && t.waiting == s.waiting && t.bySession == s.bySession && t.lastSession == s.lastSession
    && |t.sessions| == |s.sessions|
    && (forall k :: 0 <= k < |s.sessions| ==> t.sessions[k].id == s.sessions[k].id)
  }

  ghost predicate SameHolders(s: State, t: State) {
    && |s.streams| <= |t.streams|
    && (forall q :: 0 <= q < |t.streams| ==>
          Holds(t.streams[q]) == if q < |s.streams| then Holds(s.streams[q]) else None)
  }

  lemma QuietMove(s: State, t: State, p: nat)
    requires MovesOn(s, t, p) && t.waiting == s.waiting && t.bySession == s.bySession
    ensures QueueUntouched(s, t) && SameHolders(s, t)
  {
  }

  lemma QuietMoving(s: State, a: Action)
    requires Struct(s) && Enabled(s, a) && IsMove(a) && !a.RemoveSession?
    ensures QueueUntouched(s, Apply(s, a)) && SameHolders(s, Apply(s, a))
  {
    Moving(s, a);
    QuietMove(s, Apply(s, a), a.p);
  }

  lemma QuietSend(s: State, a: Action)
    requires Struct(s) && Enabled(s, a) && IsSend(a)
    ensures QueueUntouched(s, Apply(s, a)) && SameHolders(s, Apply(s, a))
  {
    SendOnly(s, a);
    assert StreamOk(s, a.p);
  }

  lemma QuietAsk(s: State, a: Action)
    requires Struct(s) && Enabled(s, a) && (a.ResumeCheck? || a.ResumeTest?)
    ensures QueueUntouched(s, Apply(s, a)) && SameHolders(s, Apply(s, a))
  {
    assert StreamOk(s, a.p);
  }

  lemma QuietJoin(s: State, a: Action)
    requires Struct(s) && Enabled(s, a) && (a.ResumeSet? || a.Register?)
    ensures QueueUntouched(s, Apply(s, a)) && SameHolders(s, Apply(s, a))
  {
    assert StreamOk(s, a.p);
  }

  lemma QuietEnd(s: State, a: Action)
    requires Struct(s) && Enabled(s, a) && (a.Open? || a.Receive? || a.CloseChannel?)
    ensures QueueUntouched(s, Apply(s, a)) && SameHolders(s, Apply(s, a))
  {
    if a.CloseChannel? { assert StreamOk(s, a.p); }
  }

  lemma Quiet(s: State, a: Action)
    requires Struct(s) && Enabled(s, a) && !IsQueueing(a)
    ensures QueueUntouched(s, Apply(s, a)) && SameHolders(s, Apply(s, a))
  {
    if IsMove(a) { QuietMoving(s, a); }
    else if IsSend(a) { QuietSend(s, a); }
    else if a.ResumeCheck? || a.ResumeTest? { QuietAsk(s, a); }
    else if a.ResumeSet? || a.Register? { QuietJoin(s, a); }
    else { QuietEnd(s, a); }
  }

  lemma TokenSame(s: State, t: State)
    requires QueueUntouched(s, t) && SameHolders(s, t)
    ensures forall p: nat :: HeldId(t, p) == HeldId(s, p)
    ensures Token(s) ==> Token(t)
    ensures IdsOk(s) ==> IdsOk(t)
  {
    forall p: nat ensures HeldId(t, p) == HeldId(s, p) { }
    if Token(s) {
      forall p: nat, q: nat | p != q && HeldId(t, p).Some? ensures HeldId(t, p) != HeldId(t, q) {
        assert HeldId(s, p) != HeldId(s, q);
      }
    }
    if IdsOk(s) {
      forall x | x in t.waiting ensures Issued(t, x) { IssuedStays(s, t, x); }
    }
  }

  // ---- the four steps that are about ids --------------------------------------------

  /** The guard of the step that hands out an id decides: the token is kept exactly if the id is new. */
  lemma NewSessionKeepsToken(s: State, p: nat)
    requires Token(s) && Struct(s) && Enabled(s, NewSession(p))
    ensures Token(Apply(s, NewSession(p))) <==> FreshId(s)
  {
    var t := Apply(s, NewSession(p));
    var id := t.lastSession;
    assert StreamOk(s, p);
    forall q: nat ensures HeldId(t, q) == HeldId(s, q) {
      if On(s, q) { assert StreamOk(s, q); }
    }
    assert t.waiting[|s.waiting|] == id && t.waiting[..|s.waiting|] == s.waiting;
    if FreshId(s) {
      forall q: nat, r: nat | q != r && HeldId(t, q).Some? ensures HeldId(t, q) != HeldId(t, r) {
        assert HeldId(s, q) != HeldId(s, r);
      }
    }
  }

  lemma TokenRemoveSession(s: State, p: nat)
    requires Token(s) && Struct(s) && Enabled(s, RemoveSession(p))
    ensures Token(Apply(s, RemoveSession(p)))
    ensures SessOf(s, p).id !in Apply(s, RemoveSession(p)).waiting
  {
    var t := Apply(s, RemoveSession(p));
    assert StreamOk(s, p);
    RemoveFromNoDup(s.waiting, SessOf(s, p).id);
    forall q: nat ensures HeldId(t, q) == HeldId(s, q) { }
    forall q: nat, r: nat | q != r && HeldId(t, q).Some? ensures HeldId(t, q) != HeldId(t, r) {
      assert HeldId(s, q) != HeldId(s, r);
    }
  }

  /** The id acceptSession settles on, if it is queued. */
  function Chosen(s: State, want: Option<int>): Option<int> {
    var id := if want.Some? then want else if s.waiting == [] then None else Some(s.waiting[0]);
    if id.Some? && id.value in s.waiting then id else None
  }

  /** The token passes from the queue to the stream: an id that is chosen leaves the queue, and unless it
      is forgotten altogether the stream comes to hold it. */
  lemma TokenAccept(s: State, p: nat, want: Option<int>)
    requires Token(s) && Struct(s) && IdsOk(s) && Enabled(s, Accept(p, want))
    ensures Token(Apply(s, Accept(p, want)))
    ensures var t := Apply(s, Accept(p, want));
            match Chosen(s, want)
            case None => t.waiting == s.waiting && HeldId(t, p) == None
            case Some(id) =>
              && id in s.waiting && id !in t.waiting && (forall x :: x in t.waiting <==> x in s.waiting && x != id)
              && HeldId(t, p) == if id in s.bySession then Some(id) else None
  {
    var t := Apply(s, Accept(p, want));
    match Chosen(s, want)
    case None =>
      assert t == At(s, p, Done);
      Pass(s, t, p, 0);
    case Some(id) =>
      RemoveFromNoDup(s.waiting, id);
      Pass(s, t, p, id);
  }

  /** An id may leave the queue for the hands of a stream that held nothing. */
  lemma Pass(s: State, t: State, p: nat, id: int)
    requires Token(s) && IdleAs(s, p, Agent) && t.sessions == s.sessions
    requires |t.streams| == |s.streams| && t.streams == s.streams[p := t.streams[p]]
    requires NoDup(t.waiting) && (forall x :: x in t.waiting ==> x in s.waiting)
    requires HeldId(t, p).Some? ==> HeldId(t, p).value == id && id in s.waiting && id !in t.waiting
    ensures Token(t)
  {
    forall q: nat | q != p ensures HeldId(t, q) == HeldId(s, q) { }
    forall q: nat, r: nat | q != r && HeldId(t, q).Some? ensures HeldId(t, q) != HeldId(t, r) {
      if q != p && r != p { assert HeldId(s, q) != HeldId(s, r); }
    }
  }

  lemma DetachQueues(s: State, p: nat)
    requires Struct(s) && CanDetach(s, p)
    ensures var t := DoDetach(s, p);
            && HeldId(t, p) == None && (s.streams[p].role.Agent? ==> HeldId(s, p) == Some(SessOf(s, p).id))
            && (forall q: nat :: q != p ==> HeldId(t, q) == HeldId(s, q))
            && t.waiting == if s.streams[p].role.Agent? && OtherAgents(s, p) == {} then s.waiting + [SessOf(s, p).id] else s.waiting
  {
    assert StreamOk(s, p);
    assert (SessOf(s, p).agents - {s.streams[p].name}).Keys == OtherAgents(s, p);
  }

  /** The leaving stream gives up what it held. */
  lemma TokenDetach(s: State, p: nat)
    requires Token(s) && Struct(s) && Enabled(s, Detach(p))
    ensures Token(Apply(s, Detach(p)))
    ensures HeldId(Apply(s, Detach(p)), p) == None
    ensures Apply(s, Detach(p)).waiting ==
            if s.streams[p].role.Agent? && OtherAgents(s, p) == {} then s.waiting + [SessOf(s, p).id] else s.waiting
  {
    var t := Apply(s, Detach(p));
    DetachQueues(s, p);
    forall q: nat, r: nat | q != r && HeldId(t, q).Some? ensures HeldId(t, q) != HeldId(t, r) {
      if q != p && r != p { assert HeldId(s, q) != HeldId(s, r); }
    }
    forall q: nat | HeldId(t, q).Some? ensures HeldId(t, q).value !in t.waiting {
      assert HeldId(s, q) != HeldId(s, p);
    }
  }

  lemma IdsNewSession(s: State, p: nat)
    requires IdsOk(s) && IdleAs(s, p, Customer)
    ensures IdsOk(DoNewSession(s, p))
  {
    var t := DoNewSession(s, p);
    var n := |s.sessions|;
    WrapStep(n);
    forall x | x in t.waiting ensures Issued(t, x) {
      if x == t.lastSession { assert t.sessions[n].id == x; } else { IssuedStays(s, t, x); }
    }
  }

  lemma IdsAccept(s: State, p: nat, want: Option<int>)
    requires IdsOk(s) && IdleAs(s, p, Agent)
    ensures IdsOk(DoAccept(s, p, want))
  {
    var t := DoAccept(s, p, want);
    forall x | x in t.waiting ensures Issued(t, x) {
      if Chosen(s, want).Some? { RemoveWithin(s.waiting, Chosen(s, want).value, x); }
      IssuedStays(s, t, x);
    }
  }

  lemma IdsRemoveSession(s: State, p: nat)
    requires IdsOk(s) && InSession(s, p)
    ensures IdsOk(DoRemoveSession(s, p))
  {
    var t := DoRemoveSession(s, p);
    forall x | x in t.waiting ensures Issued(t, x) {
      RemoveWithin(s.waiting, SessOf(s, p).id, x);
      IssuedStays(s, t, x);
    }
  }

  lemma IdsDetach(s: State, p: nat)
    requires IdsOk(s) && CanDetach(s, p)
    ensures IdsOk(DoDetach(s, p))
  {
    var t := DoDetach(s, p);
    forall x | x in t.waiting ensures Issued(t, x) {
      if x in s.waiting { IssuedStays(s, t, x); } else { assert t.sessions[s.streams[p].sess.value].id == x; }
    }
  }

  lemma IdsStep(s: State, a: Action)
    requires IdsOk(s) && Struct(s) && Enabled(s, a)
    ensures IdsOk(Apply(s, a))
  {
    if a.NewSession? { IdsNewSession(s, a.p); }
    else if a.Accept? { IdsAccept(s, a.p, a.want); }
    else if a.RemoveSession? { IdsRemoveSession(s, a.p); }
    else if a.Detach? { IdsDetach(s, a.p); }
    else { Quiet(s, a); TokenSame(s, Apply(s, a)); }
  }

  lemma TokenStep(s: State, a: Action)
    requires Token(s) && Struct(s) && IdsOk(s) && Enabled(s, a)
    ensures Token(Apply(s, a)) <==> (a.NewSession? ==> FreshId(s))
  {
    if a.NewSession? { NewSessionKeepsToken(s, a.p); }
    else if a.RemoveSession? { TokenRemoveSession(s, a.p); }
    else if a.Accept? { TokenAccept(s, a.p, a.want); }
    else if a.Detach? { TokenDetach(s, a.p); }
    else { Quiet(s, a); TokenSame(s, Apply(s, a)); }
  }
}
