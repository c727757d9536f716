/** The steps of the chat protocol by what they leave alone: keeping quiet, joining, saying, handing over. */
module ChatFrames {
  import opened Wrappers
  import opened ChatModel
  import opened ChatInvariant

  predicate From(e: Entry, role: Role) {
    e.CustomerMsg? <==> role.Customer?
  }

  /** The history index a stream is in the middle of sending. */
  function Carried(pc: Pc): Option<nat> {
    match pc
    case Appended(at) => Some(at)
    case AtCust(at) => Some(at)
    case ToCust(at) => Some(at)
    case ToAgents(Posted(at), _) => Some(at)
    case _ => None
  }

  // ---- steps in which nothing is said and nobody joins ----------------------------------

  predicate IsHush(a: Action) {
    || a.Disconnect? || a.Request? || a.Return? || a.ResumeCheck? || a.ResumeTest? || a.Accept? || a.RemoveSession?
    || a.HangUp? || a.BeginEnd? || a.EndSend? || a.Detach? || a.CancelListener? || a.CloseChannel?
  }

  /** Same session, same line, same message in hand. */
  ghost predicate Steady(x: Stream, y: Stream) {
    && x.role == y.role && x.name == y.name && x.snap == y.snap && (x.ctxDone ==> y.ctxDone)
    && (Attached(y) ==> Attached(x) && x.sess == y.sess && x.ch == y.ch && (x.pc.Copying? <==> y.pc.Copying?))
    && (Carried(x.pc).Some? || Carried(y.pc).Some? ==>
          x.sess == y.sess && (x.pc == y.pc || (y.pc == Recv && x.pc.ToAgents? && x.pc.pending == {})))
  }

  /** Seats may be given up; nothing is said, sent or taken. */
  ghost predicate QuietSession(x: Session, y: Session) {
    && y.history == x.history
    && (y.cust == x.cust || y.cust.None?)
    && (forall n :: n in y.agents ==> n in x.agents && y.agents[n] == x.agents[n])
    && (y.agents == x.agents || x.readers == {})
  }

  ghost predicate QuietChan(x: Channel, y: Channel, p: nat, attached: bool) {
    && y.sent == x.sent && y.owner == x.owner && y.of == x.of
    && (y.cancelled ==> x.cancelled || (x.owner == p && !attached))
  }

  ghost predicate Hushed(s: State, t: State, p: nat) {
    && On(s, p) && |t.streams| == |s.streams| && |t.sessions| == |s.sessions| && |t.chans| == |s.chans|
    && t.streams == s.streams[p := t.streams[p]]
    && Steady(s.streams[p], t.streams[p])
    && (forall k :: 0 <= k < |s.sessions| ==> QuietSession(s.sessions[k], t.sessions[k]))
    && (forall c :: 0 <= c < |s.chans| ==> QuietChan(s.chans[c], t.chans[c], p, Attached(t.streams[p])))
  }

  /** Neither the sessions nor the channels change; only p's place does. */
  lemma PlaceIsHushed(s: State, t: State, p: nat)
    requires On(s, p) && t.sessions == s.sessions && t.chans == s.chans && |t.streams| == |s.streams|
    requires t.streams == s.streams[p := t.streams[p]] && Steady(s.streams[p], t.streams[p])
    ensures Hushed(s, t, p)
  {
  }

  lemma RequestIsHushed(s: State, p: nat)
    requires On(s, p) && StreamOk(s, p) && s.streams[p].pc.Recv?
    ensures Hushed(s, DoRequest(s, p), p)
  {
    PlaceIsHushed(s, DoRequest(s, p), p);
  }

  lemma ReturnIsHushed(s: State, p: nat)
    requires On(s, p) && StreamOk(s, p) && (s.streams[p].pc.Recv? || s.streams[p].pc.Ready?)
    ensures Hushed(s, DoReturn(s, p), p)
  {
    PlaceIsHushed(s, DoReturn(s, p), p);
  }

  lemma ResumeCheckIsHushed(s: State, p: nat, id: int)
    requires CanResume(s, p, id)
    ensures Hushed(s, DoResumeCheck(s, p, id), p)
  {
    PlaceIsHushed(s, DoResumeCheck(s, p, id), p);
  }

  lemma ResumeTestIsHushed(s: State, p: nat)
    requires CanResumeTest(s, p) && StreamOk(s, p)
    ensures Hushed(s, DoResumeTest(s, p), p)
  {
    PlaceIsHushed(s, DoResumeTest(s, p), p);
  }

  lemma RemoveIsHushed(s: State, p: nat)
    requires InSession(s, p) && s.streams[p].pc.Unlist?
    ensures Hushed(s, DoRemoveSession(s, p), p)
  {
    PlaceIsHushed(s, DoRemoveSession(s, p), p);
  }

  lemma AcceptIsHushed(s: State, p: nat, want: Option<int>)
    requires IdleAs(s, p, Agent)
    ensures Hushed(s, DoAccept(s, p, want), p)
  {
    PlaceIsHushed(s, DoAccept(s, p, want), p);
  }

  /** At most a session's flag and its readers change. */
  lemma SessionIsHushed(s: State, p: nat, sess: Session, pc: Pc)
    requires InSession(s, p) && Steady(s.streams[p], s.streams[p].(pc := pc))
    requires sess == SessOf(s, p).(active := sess.active, readers := sess.readers)
    ensures Hushed(s, At(WithSession(s, s.streams[p].sess.value, sess), p, pc), p)
  {
  }

  lemma HangUpIsHushed(s: State, p: nat)
    requires InSession(s, p) && s.streams[p].pc.Ready?
    ensures Hushed(s, DoHangUp(s, p), p)
  {
    if SessOf(s, p).active {
      SessionIsHushed(s, p, SessOf(s, p).(active := false), Marked);
    } else {
      PlaceIsHushed(s, DoHangUp(s, p), p);
    }
  }

  lemma BeginEndIsHushed(s: State, p: nat)
    requires InSession(s, p) && s.streams[p].pc.Marked?
    ensures Hushed(s, DoBeginEnd(s, p), p)
  {
    SessionIsHushed(s, p, SessOf(s, p).(readers := SessOf(s, p).readers + {p}), ToAgents(Ended, SessOf(s, p).agents.Keys));
  }

  lemma EndSendIsHushed(s: State, p: nat)
    requires CanEndSend(s, p)
    ensures Hushed(s, DoEndSend(s, p), p)
  {
    SessionIsHushed(s, p, SessOf(s, p).(readers := SessOf(s, p).readers - {p}), DoEndSend(s, p).streams[p].pc);
  }

  lemma CancelIsHushed(s: State, p: nat)
    requires HasChan(s, p) && StreamOk(s, p) && s.streams[p].pc.Cancel?
    ensures Hushed(s, DoCancel(s, p), p)
  {
  }

  lemma CloseIsHushed(s: State, p: nat)
    requires HasChan(s, p) && StreamOk(s, p) && s.streams[p].pc.Close?
    ensures Hushed(s, DoClose(s, p), p)
  {
  }

  lemma LeavingIsHushed(s: State, t: State, p: nat)
    requires Struct(s) && Leaves(s, t, p)
    ensures Hushed(s, t, p)
  {
    assert StreamOk(s, p);
  }

  lemma DetachIsHushed(s: State, p: nat)
    requires Struct(s) && CanDetach(s, p)
    ensures Hushed(s, DoDetach(s, p), p)
  {
    assert Leaves(s, DoDetach(s, p), p);
    LeavingIsHushed(s, DoDetach(s, p), p);
  }

  predicate IsAsking(a: Action) {
    a.ResumeCheck? || a.ResumeTest? || a.Accept?
  }

  lemma AskingIsHushed(s: State, a: Action)
    requires Struct(s) && Enabled(s, a) && IsAsking(a)
    ensures Hushed(s, Apply(s, a), a.p)
  {
    assert StreamOk(s, a.p);
    if a.ResumeCheck? { ResumeCheckIsHushed(s, a.p, a.id); }
    else if a.ResumeTest? { ResumeTestIsHushed(s, a.p); }
    else { AcceptIsHushed(s, a.p, a.want); }
  }

  lemma ServingIsHushed(s: State, a: Action)
    requires Struct(s) && Enabled(s, a) && IsHush(a) && !IsAsking(a)
    ensures Hushed(s, Apply(s, a), a.p)
  {
    assert StreamOk(s, a.p);
    match a
    case Disconnect(p) => PlaceIsHushed(s, Apply(s, a), p);
    case Request(p) => RequestIsHushed(s, p);
    case Return(p) => ReturnIsHushed(s, p);
    case RemoveSession(p) => RemoveIsHushed(s, p);
    case CancelListener(p) => CancelIsHushed(s, p);
    case CloseChannel(p) => CloseIsHushed(s, p);
    case Detach(p) => DetachIsHushed(s, p);
    case EndSend(p) => EndSendIsHushed(s, p);
    case HangUp(p) => HangUpIsHushed(s, p);
    case BeginEnd(p) => BeginEndIsHushed(s, p);
  }

  lemma HushIsHushed(s: State, a: Action)
    requires Struct(s) && Enabled(s, a) && IsHush(a)
    ensures Hushed(s, Apply(s, a), a.p)
  {
    if IsAsking(a) { AskingIsHushed(s, a); } else { ServingIsHushed(s, a); }
  }

  /** An agent that finds its session closed leaves without a word. */
  lemma MuteIsHushed(s: State, p: nat, text: string)
    requires Struct(s) && Enabled(s, Post(p, text)) && s.streams[p].role.Agent? && !SessOf(s, p).active
    ensures Hushed(s, Apply(s, Post(p, text)), p)
  {
    assert StreamOk(s, p);
  }

  lemma ReceiveIsHushed(s: State, c: nat)
    requires Struct(s) && Enabled(s, Receive(c))
    ensures Hushed(s, Apply(s, Receive(c)), s.chans[c].owner)
  {
    assert ChanOk(s, c);
  }

  // ---- joining ----------------------------------------------------------------------------

  /** A session before and after a listener on channel c has taken a seat, perhaps in it. */
  ghost predicate JoinedBy(x: Session, y: Session, c: nat) {
    && y.history == x.history
    && (y.cust == x.cust || y.cust == Some(c))
    && (forall n :: n in x.agents ==> n in y.agents)
    && (forall n :: n in y.agents ==> y.agents[n] == c || (n in x.agents && y.agents[n] == x.agents[n]))
  }

  /** Stream p takes a seat in session k with a fresh channel. */
  ghost predicate Joins(s: State, t: State, p: nat, k: nat) {
    && On(s, p) && s.streams[p].sess.None? && Carried(s.streams[p].pc).None?
    && t.streams == s.streams[p := s.streams[p].(sess := Some(k), ch := |s.chans|, snap := None, pc := Copying)]
    && t.chans == s.chans + [Channel(p, k, [], 0, false, 0)]
    && |s.sessions| <= |t.sessions| && k < |t.sessions|
    && (forall j :: 0 <= j < |s.sessions| ==> JoinedBy(s.sessions[j], t.sessions[j], |s.chans|))
  }

  predicate IsSeating(a: Action) {
    a.NewSession? || a.ResumeSet? || a.Register?
  }

  function SeatTaken(s: State, a: Action): nat
    requires Enabled(s, a) && IsSeating(a)
  {
    if a.NewSession? then |s.sessions| else s.streams[a.p].pc.k
  }

  lemma SeatingJoins(s: State, a: Action)
    requires Struct(s) && Enabled(s, a) && IsSeating(a)
    ensures Joins(s, Apply(s, a), a.p, SeatTaken(s, a))
  {
    assert StreamOk(s, a.p);
  }

  // ---- saying something: append, then broadcast ------------------------------------------------

  /** Stream p moves on with a message in hand; at most an entry of its own is appended. */
  ghost predicate Speaks(s: State, t: State, p: nat, k: nat, more: seq<Entry>) {
    && InSession(s, p) && s.streams[p].sess == Some(k) && Attached(s.streams[p]) && !s.streams[p].pc.Copying?
    && |t.streams| == |s.streams| && t.streams == s.streams[p := s.streams[p].(pc := t.streams[p].pc)]
    && Carried(t.streams[p].pc).Some?
    && t.chans == s.chans && |t.sessions| == |s.sessions|
    && (forall j :: 0 <= j < |s.sessions| ==>
          && t.sessions[j].cust == s.sessions[j].cust && t.sessions[j].agents == s.sessions[j].agents
          && t.sessions[j].history == s.sessions[j].history + if j == k then more else [])
  }

  /** What stream p's message is as an entry. */
  function EntryOf(st: Stream, text: string): Entry {
    if st.role.Agent? then AgentMsg(st.name, text) else CustomerMsg(text)
  }

  lemma PostSpeaks(s: State, p: nat, text: string)
    requires Struct(s) && Enabled(s, Post(p, text)) && (s.streams[p].role.Customer? || SessOf(s, p).active)
    ensures Speaks(s, Apply(s, Post(p, text)), p, s.streams[p].sess.value, [EntryOf(s.streams[p], text)])
    ensures Apply(s, Post(p, text)).streams[p].pc == Appended(|SessOf(s, p).history|)
  {
    assert StreamOk(s, p);
  }

  lemma BeginSpeaks(s: State, p: nat)
    requires Struct(s) && Enabled(s, BeginSend(p))
    ensures Speaks(s, Apply(s, BeginSend(p)), p, s.streams[p].sess.value, [])
  {
    assert StreamOk(s, p);
  }

  lemma TestSpeaks(s: State, p: nat)
    requires Struct(s) && Enabled(s, TestCust(p))
    ensures Speaks(s, Apply(s, TestCust(p)), p, s.streams[p].sess.value, [])
  {
    assert StreamOk(s, p);
  }

  // ---- handing over ----------------------------------------------------------------------------------

  /** Stream p puts (or drops) an item on channel c, and goes on to the agents still pending. */
  ghost predicate Hands(s: State, t: State, p: nat, c: nat, item: Item, drop: bool, pc: Pc) {
    && InSession(s, p) && Broadcasting(s.streams[p]) && c < |s.chans| && CanSend(s, c, drop) && s.chans[c].closes == 0
    && pc.ToAgents? && pc.item == item
    && t == At(Send(s, c, item, drop), p, pc)
  }

  /** Handing over touches nothing but the channel and the stream's own place. */
  lemma HandsOnly(s: State, t: State, p: nat, c: nat, item: Item, drop: bool, pc: Pc)
    requires Hands(s, t, p, c, item, drop, pc)
    ensures t == s.(streams := t.streams, chans := t.chans) && t.streams == s.streams[p := s.streams[p].(pc := pc)]
    ensures |t.chans| == |s.chans| && forall d :: 0 <= d < |s.chans| ==> t.chans[d].(sent := []) == s.chans[d].(sent := [])
  {
  }

  lemma SendCustHands(s: State, p: nat, drop: bool)
    requires Struct(s) && Enabled(s, SendCust(p, drop))
    ensures SessOf(s, p).cust.Some?
    ensures var at := s.streams[p].pc.at;
            Hands(s, Apply(s, SendCust(p, drop)), p, SessOf(s, p).cust.value, Posted(at), drop,
                  ToAgents(Posted(at), OtherAgents(s, p)))
    ensures ListensOn(s, SessOf(s, p).cust.value, Customer, SessOf(s, p).custName, s.streams[p].sess.value)
  {
    StructSendCust(s, p, drop);
    assert StreamOk(s, p) && SessionOk(s, s.streams[p].sess.value);
  }

  lemma SendAgentHands(s: State, p: nat, to: string, drop: bool)
    requires Struct(s) && Enabled(s, SendAgent(p, to, drop))
    ensures Hands(s, Apply(s, SendAgent(p, to, drop)), p, SessOf(s, p).agents[to], s.streams[p].pc.item, drop,
                  ToAgents(s.streams[p].pc.item, s.streams[p].pc.pending - {to}))
    ensures ListensOn(s, SessOf(s, p).agents[to], Agent, to, s.streams[p].sess.value)
  {
    StructSendAgent(s, p, to, drop);
    assert StreamOk(s, p) && SessionOk(s, s.streams[p].sess.value);
  }

  // ---- what no step changes --------------------------------------------------------------------------

  predicate IsSend(a: Action) {
    a.SendCust? || a.SendAgent?
  }

  /** What the two kinds of send have in common. */
  lemma SendOnly(s: State, a: Action)
    requires Struct(s) && Enabled(s, a) && IsSend(a)
    ensures InSession(s, a.p) && Broadcasting(s.streams[a.p])
    ensures var t := Apply(s, a);
            && t == s.(streams := t.streams, chans := t.chans) && |t.streams| == |s.streams| && t.streams[a.p].pc.ToAgents?
            && t.streams == s.streams[a.p := s.streams[a.p].(pc := t.streams[a.p].pc)]
            && |t.chans| == |s.chans| && forall d :: 0 <= d < |s.chans| ==> t.chans[d].(sent := []) == s.chans[d].(sent := [])
  {
    if a.SendCust? {
      SendCustHands(s, a.p, a.drop);
      var item := Posted(s.streams[a.p].pc.at);
      HandsOnly(s, Apply(s, a), a.p, SessOf(s, a.p).cust.value, item, a.drop, ToAgents(item, OtherAgents(s, a.p)));
    } else {
      SendAgentHands(s, a.p, a.to, a.drop);
      var pc := s.streams[a.p].pc;
      HandsOnly(s, Apply(s, a), a.p, SessOf(s, a.p).agents[a.to], pc.item, a.drop, ToAgents(pc.item, pc.pending - {a.to}));
    }
  }

  lemma StreamsStay(s: State, a: Action)
    requires Struct(s) && Enabled(s, a)
    ensures |Apply(s, a).streams| == if a.Open? then |s.streams| + 1 else |s.streams|
    ensures forall q :: 0 <= q < |s.streams| ==> Apply(s, a).streams[q].role == s.streams[q].role
  {
    if IsHush(a) { HushIsHushed(s, a); }
    else if IsSeating(a) { SeatingJoins(s, a); }
    else if IsSend(a) { SendOnly(s, a); }
  }

  lemma SessionsStay(s: State, a: Action)
    requires Struct(s) && Enabled(s, a)
    ensures |Apply(s, a).sessions| == if a.NewSession? then |s.sessions| + 1 else |s.sessions|
  {
    if IsHush(a) { HushIsHushed(s, a); }
    else if IsSend(a) { SendOnly(s, a); }
  }
}
