/** The support-chat protocol of bankdemo as interleaved steps.

    One action is one critical section, one channel operation, or one step a
    stream takes on its own.  Objects the program allocates (streams, sessions,
    channels) live in sequences; their index plays the part of the pointer. */
module ChatModel {
  import opened Wrappers
  import opened Queues
  import opened Int32

  datatype Entry = CustomerMsg(text: string) | AgentMsg(agent: string, text: string)

  /** What travels on a channel: the entry appended at a history index, or nil. */
  datatype Item = Posted(at: nat) | Ended

  /** A listener together with its channel, of capacity one.  `sent` logs every
      item ever put in, `taken` counts those received; `cancelled` is the
      listener's own context; `of` is the session it was made for. */
  datatype Channel = Channel(owner: nat, of: nat, sent: seq<Item>, taken: nat, cancelled: bool, closes: nat)

  /** `readers` are the streams that hold the read half of the session lock. */
  datatype Session = Session(
    id: int,
    custName: string,
    active: bool,
    cust: Option<nat>,
    agents: map<string, nat>,
    history: seq<Entry>,
    readers: set<nat>)

  datatype Role = Customer | Agent

  /** Where a stream goes when its cleanup is over. */
  datatype After = Serve | Again | Exit

  datatype Pc =
    | Recv                                       // waiting for a request
    | Ready                                      // request in hand, session checked
    | ResumeSeat(k: nat)                         // in resumeSession, holding s.mu, sess.active read
    | ResumeChecked(k: nat)                      // in resumeSession, holding s.mu, sess.cust read too
    | Taken(k: nat)                              // in acceptSession, id removed from the queue
    | Copying                                    // registered, snapshot not yet copied
    | Appended(at: nat)                          // history appended, read lock not yet taken
    | AtCust(at: nat)                            // read lock held, about to test sess.cust
    | ToCust(at: nat)                            // test saw a listener, about to send to it
    | ToAgents(item: Item, pending: set<string>) // read lock held, ranging over sess.agents
    | Marked                                     // in closeSession, session now inactive
    | Unlist                                     // in closeSession, about to take s.mu
    | Unregister(after: After)
    | Cancel(after: After)
    | Close(after: After)
    | Done

  datatype Stream = Stream(
    role: Role,
    name: string,
    ctxDone: bool,
    sess: Option<nat>,
    ch: nat,
    snap: Option<seq<Entry>>,
    pc: Pc)

  /** `mu` names the stream that stopped inside a section of the server lock. */
  datatype State = State(
    mu: Option<nat>,
    lastSession: int,
    waiting: seq<int>,
    bySession: map<int, nat>,
    sessions: seq<Session>,
    streams: seq<Stream>,
    chans: seq<Channel>,
    panicked: bool)

  datatype Action =
    | Open(role: Role, name: string)
    | Disconnect(p: nat)
    | Receive(c: nat)
    | Request(p: nat)
    | Return(p: nat)
    | NewSession(p: nat)
    | ResumeCheck(p: nat, id: int)
    | ResumeTest(p: nat)
    | ResumeSet(p: nat)
    | CopySession(p: nat)
    | Post(p: nat, text: string)
    | BeginSend(p: nat)
    | TestCust(p: nat)
    | SendCust(p: nat, drop: bool)
    | SendAgent(p: nat, to: string, drop: bool)
    | EndSend(p: nat)
    | HangUp(p: nat)
    | BeginEnd(p: nat)
    | RemoveSession(p: nat)
    | Accept(p: nat, want: Option<int>)
    | Register(p: nat)
    | Detach(p: nat)
    | CancelListener(p: nat)
    | CloseChannel(p: nat)

  const INITIAL := State(None, 0, [], map[], [], [], [], false)

  function NewStream(role: Role, name: string): Stream {
    Stream(role, name, false, None, 0, None, Recv)
  }

  function At(s: State, p: nat, pc: Pc): State
    requires p < |s.streams|
  {
    s.(streams := s.streams[p := s.streams[p].(pc := pc)])
  }

  function WithSession(s: State, k: nat, sess: Session): State
    requires k < |s.sessions|
  {
    s.(sessions := s.sessions[k := sess])
  }

  function WithChan(s: State, c: nat, ch: Channel): State
    requires c < |s.chans|
  {
    s.(chans := s.chans[c := ch])
  }

  /** Attach stream p to session k with a fresh channel, before its snapshot. */
  function Attach(s: State, p: nat, k: nat): State
    requires p < |s.streams|
  {
    s.(streams := s.streams[p := s.streams[p].(sess := Some(k), ch := |s.chans|, snap := None, pc := Copying)],
       chans := s.chans + [Channel(p, k, [], 0, false, 0)])
  }

  predicate On(s: State, p: nat) {
    p < |s.streams|
  }

  /** Stream p runs on a session that exists. */
  predicate InSession(s: State, p: nat) {
    On(s, p) && s.streams[p].sess.Some? && s.streams[p].sess.value < |s.sessions|
  }

  function SessOf(s: State, p: nat): Session
    requires InSession(s, p)
  {
    s.sessions[s.streams[p].sess.value]
  }

  predicate CtxDone(s: State, c: nat) {
    c < |s.chans| && (s.chans[c].cancelled || (On(s, s.chans[c].owner) && s.streams[s.chans[c].owner].ctxDone))
  }

  /** The write half of the session lock is free. */
  predicate Unlocked(s: State, p: nat)
    requires InSession(s, p)
  {
    SessOf(s, p).readers == {}
  }

  /** listener.send: hand the item to the channel, or give up once the context is done. */
  predicate CanSend(s: State, c: nat, drop: bool) {
    c < |s.chans| && if drop then CtxDone(s, c) else s.chans[c].closes > 0 || |s.chans[c].sent| <= s.chans[c].taken
  }

  function Send(s: State, c: nat, item: Item, drop: bool): State
    requires CanSend(s, c, drop)
  {
    if drop then s
    else if s.chans[c].closes > 0 then s.(panicked := true)
    else WithChan(s, c, s.chans[c].(sent := s.chans[c].sent + [item]))
  }

  // ---- streams come, go, and receive ----------------------------------------

  /** Some goroutine of the stream takes an item: its monitor, or one that drains what was closed.  These
      read the variable that holds the channel, so an old one may serve a new channel. */
  predicate CanReceive(s: State, c: nat) {
    c < |s.chans| && s.chans[c].taken < |s.chans[c].sent|
  }

  /** The next request arrives; an agent first leaves a session that was closed. */
  function DoRequest(s: State, p: nat): State
    requires On(s, p)
  {
    if s.streams[p].role.Agent? && InSession(s, p) && !SessOf(s, p).active
    then At(s, p, Unregister(Serve))
    else At(s, p, Ready)
  }

  function DoReturn(s: State, p: nat): State
    requires On(s, p)
  {
    At(s, p, if s.streams[p].sess.Some? then Unregister(Exit) else Done)
  }

  // ---- joining ---------------------------------------------------------------

  predicate IdleAs(s: State, p: nat, role: Role) {
    On(s, p) && s.streams[p].pc.Ready? && s.streams[p].sess.None? && s.streams[p].role == role
  }

  function DoNewSession(s: State, p: nat): State
    requires On(s, p)
  {
    var id := Wrap32(s.lastSession + 1);
    var k := |s.sessions|;
    var sess := Session(id, s.streams[p].name, true, Some(|s.chans|), map[], [], {});
    Attach(s.(lastSession := id,
              waiting := s.waiting + [id],
              sessions := s.sessions + [sess],
              bySession := s.bySession[id := k]), p, k)
  }

  predicate CanResume(s: State, p: nat, id: int) {
    IdleAs(s, p, Customer) && s.mu.None? && (id in s.bySession ==> s.bySession[id] < |s.sessions|)
  }

  /** The look-up and the tests of the customer's name and of sess.active, which s.mu does not guard.
      An id that is not in the map is a nil dereference. */
  function DoResumeCheck(s: State, p: nat, id: int): State
    requires CanResume(s, p, id)
  {
    if id !in s.bySession then s.(panicked := true)
    else
      var k := s.bySession[id];
      if s.sessions[k].custName != s.streams[p].name || !s.sessions[k].active then At(s, p, Done)
      else At(s, p, ResumeSeat(k)).(mu := Some(p))
  }

  predicate CanResumeTest(s: State, p: nat) {
    On(s, p) && s.streams[p].pc.ResumeSeat? && s.streams[p].pc.k < |s.sessions|
  }

  /** The test of sess.cust. */
  function DoResumeTest(s: State, p: nat): State
    requires CanResumeTest(s, p)
  {
    var k := s.streams[p].pc.k;
    if s.sessions[k].cust.Some? then At(s, p, Done).(mu := None) else At(s, p, ResumeChecked(k))
  }

  predicate CanResumeSet(s: State, p: nat) {
    On(s, p) && s.streams[p].pc.ResumeChecked? && s.streams[p].pc.k < |s.sessions|
  }

  function DoResumeSet(s: State, p: nat): State
    requires CanResumeSet(s, p)
  {
    var k := s.streams[p].pc.k;
    Attach(WithSession(s, k, s.sessions[k].(cust := Some(|s.chans|))), p, k).(mu := None)
  }

  function DoCopySession(s: State, p: nat): State
    requires InSession(s, p)
  {
    s.(streams := s.streams[p := s.streams[p].(snap := Some(SessOf(s, p).history), pc := Recv)])
  }

  /** The first section of acceptSession: choose an id, take it from the queue, look it up. */
  function DoAccept(s: State, p: nat, want: Option<int>): State
    requires On(s, p)
  {
    if s.waiting == [] then At(s, p, Done)
    else
      var id := if want.None? then s.waiting[0] else want.value;
      if id !in s.waiting then At(s, p, Done)
      else
        var s1 := s.(waiting := RemoveFirst(s.waiting, id));
        if id in s.bySession then At(s1, p, Taken(s.bySession[id])) else At(s1, p, Done)
  }

  predicate CanRegister(s: State, p: nat) {
    && On(s, p) && s.streams[p].pc.Taken? && s.streams[p].pc.k < |s.sessions|
    && s.sessions[s.streams[p].pc.k].readers == {}
  }

  function DoRegister(s: State, p: nat): State
    requires CanRegister(s, p)
  {
    var k := s.streams[p].pc.k;
    var sess := s.sessions[k];
    Attach(WithSession(s, k, sess.(agents := sess.agents[s.streams[p].name := |s.chans|])), p, k)
  }

  // ---- messages ----------------------------------------------------------------

  /** Append under the write lock.  Only an agent looks at `active`. */
  function DoPost(s: State, p: nat, text: string): State
    requires InSession(s, p)
  {
    var st := s.streams[p];
    var sess := SessOf(s, p);
    if st.role.Agent? && !sess.active then At(s, p, Unregister(Exit))
    else
      var entry := if st.role.Agent? then AgentMsg(st.name, text) else CustomerMsg(text);
      At(WithSession(s, st.sess.value, sess.(history := sess.history + [entry])), p, Appended(|sess.history|))
  }

  function ReadLock(s: State, p: nat): State
    requires InSession(s, p)
  {
    WithSession(s, s.streams[p].sess.value, SessOf(s, p).(readers := SessOf(s, p).readers + {p}))
  }

  function DoBeginSend(s: State, p: nat): State
    requires InSession(s, p) && s.streams[p].pc.Appended?
  {
    var at := s.streams[p].pc.at;
    At(ReadLock(s, p), p,
       if s.streams[p].role.Agent? then AtCust(at) else ToAgents(Posted(at), SessOf(s, p).agents.Keys))
  }

  function OtherAgents(s: State, p: nat): set<string>
    requires InSession(s, p)
  {
    SessOf(s, p).agents.Keys - {s.streams[p].name}
  }

  function DoTestCust(s: State, p: nat): State
    requires InSession(s, p) && s.streams[p].pc.AtCust?
  {
    var at := s.streams[p].pc.at;
    At(s, p, if SessOf(s, p).cust.Some? then ToCust(at) else ToAgents(Posted(at), OtherAgents(s, p)))
  }

  predicate CanSendCust(s: State, p: nat, drop: bool) {
    && InSession(s, p) && s.streams[p].pc.ToCust?
    && (SessOf(s, p).cust.None? || CanSend(s, SessOf(s, p).cust.value, drop))
  }

  /** The second read of sess.cust: a nil here would be a nil dereference. */
  function DoSendCust(s: State, p: nat, drop: bool): State
    requires CanSendCust(s, p, drop)
  {
    var at := s.streams[p].pc.at;
    if SessOf(s, p).cust.None? then s.(panicked := true)
    else At(Send(s, SessOf(s, p).cust.value, Posted(at), drop), p, ToAgents(Posted(at), OtherAgents(s, p)))
  }

  predicate CanSendAgent(s: State, p: nat, to: string, drop: bool) {
    && InSession(s, p) && s.streams[p].pc.ToAgents?
    && to in s.streams[p].pc.pending && to in SessOf(s, p).agents
    && CanSend(s, SessOf(s, p).agents[to], drop)
  }

  function DoSendAgent(s: State, p: nat, to: string, drop: bool): State
    requires CanSendAgent(s, p, to, drop)
  {
    var pc := s.streams[p].pc;
    At(Send(s, SessOf(s, p).agents[to], pc.item, drop), p, ToAgents(pc.item, pc.pending - {to}))
  }

  predicate CanEndSend(s: State, p: nat) {
    InSession(s, p) && s.streams[p].pc.ToAgents? && s.streams[p].pc.pending == {}
  }

  function DoEndSend(s: State, p: nat): State
    requires CanEndSend(s, p)
  {
    At(WithSession(s, s.streams[p].sess.value, SessOf(s, p).(readers := SessOf(s, p).readers - {p})), p,
       if s.streams[p].pc.item.Ended? then Unlist else Recv)
  }

  // ---- leaving -------------------------------------------------------------------

  function DoHangUp(s: State, p: nat): State
    requires InSession(s, p)
  {
    if SessOf(s, p).active
    then At(WithSession(s, s.streams[p].sess.value, SessOf(s, p).(active := false)), p, Marked)
    else At(s, p, Unregister(Again))
  }

  function DoBeginEnd(s: State, p: nat): State
    requires InSession(s, p)
  {
    At(ReadLock(s, p), p, ToAgents(Ended, SessOf(s, p).agents.Keys))
  }

  function DoRemoveSession(s: State, p: nat): State
    requires InSession(s, p)
  {
    var id := SessOf(s, p).id;
    At(s.(bySession := s.bySession - {id}, waiting := RemoveFirst(s.waiting, id)), p, Unregister(Again))
  }

  predicate CanDetach(s: State, p: nat) {
    && InSession(s, p) && s.streams[p].pc.Unregister? && Unlocked(s, p)
    && (s.streams[p].role.Customer? || OtherAgents(s, p) != {} || s.mu.None?)
  }

  /** Cleanup under the write lock; the last agent to go puts the id back in the queue. */
  function DoDetach(s: State, p: nat): State
    requires CanDetach(s, p)
  {
    var st := s.streams[p];
    var sess := SessOf(s, p);
    var next := Cancel(st.pc.after);
    if st.role.Customer? then At(WithSession(s, st.sess.value, sess.(cust := None)), p, next)
    else
      var left := sess.agents - {st.name};
      var s1 := WithSession(s, st.sess.value, sess.(agents := left));
      At(if left == map[] then s1.(waiting := s1.waiting + [sess.id]) else s1, p, next)
  }

  predicate HasChan(s: State, p: nat) {
    InSession(s, p) && s.streams[p].ch < |s.chans|
  }

  function DoCancel(s: State, p: nat): State
    requires HasChan(s, p) && s.streams[p].pc.Cancel?
  {
    var c := s.streams[p].ch;
    At(WithChan(s, c, s.chans[c].(cancelled := true)), p, Close(s.streams[p].pc.after))
  }

  function DoClose(s: State, p: nat): State
    requires HasChan(s, p) && s.streams[p].pc.Close?
  {
    var st := s.streams[p];
    var ch := s.chans[st.ch];
    if ch.closes > 0 then s.(panicked := true)
    else
      var next := match st.pc.after case Serve => Ready case Again => Recv case Exit => Done;
      WithChan(s, st.ch, ch.(closes := ch.closes + 1)).(streams := s.streams[p := st.(sess := None, pc := next)])
  }

  // ---- the transition relation ------------------------------------------------

  predicate Enabled(s: State, a: Action) {
    match a
    case Open(_, name) => name != ""
    case Disconnect(p) => On(s, p)
    case Receive(c) => CanReceive(s, c)
    case Request(p) => On(s, p) && s.streams[p].pc.Recv?
    case Return(p) => On(s, p) && (s.streams[p].pc.Recv? || s.streams[p].pc.Ready?)
    case NewSession(p) => IdleAs(s, p, Customer) && s.mu.None?
    case ResumeCheck(p, id) => CanResume(s, p, id)
    case ResumeTest(p) => CanResumeTest(s, p)
    case ResumeSet(p) => CanResumeSet(s, p)
    case CopySession(p) => InSession(s, p) && s.streams[p].pc.Copying?
    case Post(p, _) => InSession(s, p) && s.streams[p].pc.Ready? && Unlocked(s, p)
    case BeginSend(p) => InSession(s, p) && s.streams[p].pc.Appended?
    case TestCust(p) => InSession(s, p) && s.streams[p].pc.AtCust?
    case SendCust(p, drop) => CanSendCust(s, p, drop)
    case SendAgent(p, to, drop) => CanSendAgent(s, p, to, drop)
    case EndSend(p) => CanEndSend(s, p)
    case HangUp(p) => InSession(s, p) && s.streams[p].pc.Ready? && Unlocked(s, p)
    case BeginEnd(p) => InSession(s, p) && s.streams[p].pc.Marked?
    case RemoveSession(p) => InSession(s, p) && s.streams[p].pc.Unlist? && s.mu.None?
    case Accept(p, _) => IdleAs(s, p, Agent) && s.mu.None?
    case Register(p) => CanRegister(s, p)
    case Detach(p) => CanDetach(s, p)
    case CancelListener(p) => HasChan(s, p) && s.streams[p].pc.Cancel?
    case CloseChannel(p) => HasChan(s, p) && s.streams[p].pc.Close?
  }

  function Apply(s: State, a: Action): State
    requires Enabled(s, a)
  {
    match a
    case Open(role, name) => s.(streams := s.streams + [NewStream(role, name)])
    case Disconnect(p) => s.(streams := s.streams[p := s.streams[p].(ctxDone := true)])
    case Receive(c) => WithChan(s, c, s.chans[c].(taken := s.chans[c].taken + 1))
    case Request(p) => DoRequest(s, p)
    case Return(p) => DoReturn(s, p)
    case NewSession(p) => DoNewSession(s, p)
    case ResumeCheck(p, id) => DoResumeCheck(s, p, id)
    case ResumeTest(p) => DoResumeTest(s, p)
    case ResumeSet(p) => DoResumeSet(s, p)
    case CopySession(p) => DoCopySession(s, p)
    case Post(p, text) => DoPost(s, p, text)
    case BeginSend(p) => DoBeginSend(s, p)
    case TestCust(p) => DoTestCust(s, p)
    case SendCust(p, drop) => DoSendCust(s, p, drop)
    case SendAgent(p, to, drop) => DoSendAgent(s, p, to, drop)
    case EndSend(p) => DoEndSend(s, p)
    case HangUp(p) => DoHangUp(s, p)
    case BeginEnd(p) => DoBeginEnd(s, p)
    case RemoveSession(p) => DoRemoveSession(s, p)
    case Accept(p, want) => DoAccept(s, p, want)
    case Register(p) => DoRegister(s, p)
    case Detach(p) => DoDetach(s, p)
    case CancelListener(p) => DoCancel(s, p)
    case CloseChannel(p) => DoClose(s, p)
  }

  /** The step that looks up an id nobody is listed under. */
  predicate Crashes(s: State, a: Action) {
    a.ResumeCheck? && a.id !in s.bySession
  }

  /** A run: from the empty server, every step is some enabled action; a panic is the end of the process. */
  ghost predicate IsRun(states: seq<State>) {
    && |states| > 0
    && states[0] == INITIAL
    && forall i :: 0 < i < |states| ==> Next(states[i-1], states[i])
  }

  ghost predicate Next(s: State, t: State) {
    !s.panicked && exists a :: Enabled(s, a) && t == Apply(s, a)
  }
}
