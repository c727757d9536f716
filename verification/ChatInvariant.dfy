/** What every step of the chat protocol keeps. */
module ChatInvariant {
  import opened Wrappers
  import opened ChatModel

  // ---- where a stream stands ----------------------------------------------------

  /** The stream's listener is (still) registered with its session. */
  predicate Attached(st: Stream) {
    st.sess.Some? && !st.pc.Cancel? && !st.pc.Close?
  }

  predicate Broadcasting(st: Stream) {
    st.pc.AtCust? || st.pc.ToCust? || st.pc.ToAgents?
  }

  /** Which program points go with which local variables. */
  predicate Shape(st: Stream) {
    match st.pc
    case Recv => true
    case Ready => true
    case Done => st.sess.None?
    case ResumeSeat(_) => st.sess.None? && st.role.Customer?
    case ResumeChecked(_) => st.sess.None? && st.role.Customer?
    case Taken(_) => st.sess.None? && st.role.Agent?
    case AtCust(_) => st.sess.Some? && st.role.Agent?
    case ToCust(_) => st.sess.Some? && st.role.Agent?
    case _ => st.sess.Some?
  }

  predicate Resuming(st: Stream) {
    st.pc.ResumeSeat? || st.pc.ResumeChecked?
  }

  /** The customer stream's listener is the one its session knows. */
  ghost predicate CustomerSeat(s: State, p: nat)
    requires InSession(s, p)
  {
    s.streams[p].role.Customer? ==> SessOf(s, p).cust == Some(s.streams[p].ch)
  }

  ghost predicate OwnChannel(s: State, p: nat)
    requires On(s, p)
  {
    var st := s.streams[p];
    st.sess.Some? ==>
      && InSession(s, p)
      && st.ch < |s.chans|
      && s.chans[st.ch].owner == p
      && s.chans[st.ch].of == st.sess.value
      && s.chans[st.ch].closes == 0
  }

  ghost predicate StreamOk(s: State, p: nat)
    requires On(s, p)
  {
    var st := s.streams[p];
    && Shape(st)
    && OwnChannel(s, p)
    && (Attached(st) ==> CustomerSeat(s, p))
    && (Broadcasting(st) ==> p in SessOf(s, p).readers)
    && (st.pc.ToCust? ==> SessOf(s, p).cust.Some?)
    && (st.pc.ToAgents? ==> st.pc.pending <= SessOf(s, p).agents.Keys)
    && (Resuming(st) ==> st.pc.k < |s.sessions| && s.sessions[st.pc.k].custName == st.name && s.mu == Some(p))
    && (st.pc.ResumeChecked? ==> s.sessions[st.pc.k].cust.None?)
    && (st.pc.Taken? ==> st.pc.k < |s.sessions|)
  }

  /** Channel c belongs to an attached stream of the given role on session k. */
  ghost predicate ListensOn(s: State, c: nat, role: Role, name: string, k: nat) {
    && c < |s.chans|
    && On(s, s.chans[c].owner)
    && var st := s.streams[s.chans[c].owner];
    && Attached(st) && st.role == role && st.name == name && st.sess == Some(k) && st.ch == c
  }

  ghost predicate SessionOk(s: State, k: nat)
    requires k < |s.sessions|
  {
    var sess := s.sessions[k];
    && (sess.cust.Some? ==> ListensOn(s, sess.cust.value, Customer, sess.custName, k))
    && (forall n :: n in sess.agents ==> ListensOn(s, sess.agents[n], Agent, n, k))
    && (forall q :: q in sess.readers ==>
          On(s, q) && Broadcasting(s.streams[q]) && s.streams[q].sess == Some(k))
  }

  ghost predicate ChanOk(s: State, c: nat)
    requires c < |s.chans|
  {
    var ch := s.chans[c];
    && On(s, ch.owner) && ch.of < |s.sessions|
    && ch.closes <= 1 && ch.taken <= |ch.sent| <= ch.taken + 1
    && (ch.closes == 0 ==> s.streams[ch.owner].sess.Some? && s.streams[ch.owner].ch == c)
  }

  ghost predicate MapOk(s: State) {
    forall x :: x in s.bySession ==> s.bySession[x] < |s.sessions|
  }

  ghost predicate Struct(s: State) {
    && MapOk(s)
    && (s.mu.Some? ==> On(s, s.mu.value) && Resuming(s.streams[s.mu.value]))
    && (forall p :: 0 <= p < |s.streams| ==> StreamOk(s, p))
    && (forall k :: 0 <= k < |s.sessions| ==> SessionOk(s, k))
    && (forall c :: 0 <= c < |s.chans| ==> ChanOk(s, c))
  }

  // ---- structure is kept ------------------------------------------------------------

  /** Nothing about session j differs but who reads, what was said, and whether it is active. */
  predicate SameSeats(x: Session, y: Session) {
    x.id == y.id && x.custName == y.custName && x.cust == y.cust && x.agents == y.agents
  }

  predicate SameLine(x: Channel, y: Channel) {
    x.owner == y.owner && x.of == y.of && x.closes == y.closes
  }

  /** Stream p moves on by itself: it stays in its session and on its channel. */
  ghost predicate Moves(s: State, t: State, p: nat) {
    && On(s, p) && |t.streams| == |s.streams| && |t.sessions| == |s.sessions| && |t.chans| == |s.chans|
    && t.mu == s.mu && MapOk(t)
    && t.streams == s.streams[p := t.streams[p]]
    && var x := s.streams[p]; var y := t.streams[p];
    && x.role == y.role && x.name == y.name && x.sess == y.sess && x.ch == y.ch
    && (Resuming(x) || Resuming(y) ==> x.pc == y.pc) && Attached(x) == Attached(y)
    && (forall j :: 0 <= j < |s.sessions| ==>
          && SameSeats(s.sessions[j], t.sessions[j])
          && t.sessions[j].readers - {p} == s.sessions[j].readers - {p}
          && (p in t.sessions[j].readers <==> Broadcasting(y) && y.sess == Some(j)))
    && (forall d :: 0 <= d < |s.chans| ==>
          SameLine(s.chans[d], t.chans[d]) && t.chans[d].taken <= |t.chans[d].sent| <= t.chans[d].taken + 1)
  }

  /** What the new program point of p asks for. */
  ghost predicate Fits(t: State, p: nat)
    requires On(t, p)
  {
    var y := t.streams[p];
    && Shape(y)
    && (y.pc.ToCust? ==> InSession(t, p) && SessOf(t, p).cust.Some?)
    && (y.pc.ToAgents? ==> InSession(t, p) && y.pc.pending <= SessOf(t, p).agents.Keys)
    && (y.pc.Taken? ==> y.pc.k < |t.sessions|)
  }

  /** What the structure says as seen from stream p. */
  ghost predicate Sight(s: State, p: nat) {
    && On(s, p) && StreamOk(s, p) && MapOk(s)
    && (forall j :: 0 <= j < |s.sessions| ==>
          (p in s.sessions[j].readers <==> Broadcasting(s.streams[p]) && s.streams[p].sess == Some(j)))
    && (forall d :: 0 <= d < |s.chans| ==> s.chans[d].taken <= |s.chans[d].sent| <= s.chans[d].taken + 1)
  }

  /** Read sessions and channels through the structure. */
  lemma Reading(s: State, p: nat)
    requires Struct(s) && On(s, p)
    ensures Sight(s, p)
  {
    assert StreamOk(s, p);
    forall j | 0 <= j < |s.sessions|
      ensures p in s.sessions[j].readers <==> Broadcasting(s.streams[p]) && s.streams[p].sess == Some(j)
    {
      assert SessionOk(s, j);
    }
    forall d | 0 <= d < |s.chans| ensures s.chans[d].taken <= |s.chans[d].sent| <= s.chans[d].taken + 1 {
      assert ChanOk(s, d);
    }
  }

  /** A registered listener's channel is open. */
  lemma RegisteredIsOpen(s: State, c: nat, role: Role, name: string, k: nat)
    requires Struct(s) && ListensOn(s, c, role, name, k)
    ensures s.chans[c].closes == 0 && s.chans[c].of == k
  {
    assert StreamOk(s, s.chans[c].owner);
  }

  lemma MoveKeepsSession(s: State, t: State, p: nat, j: nat)
    requires Struct(s) && Moves(s, t, p) && j < |s.sessions|
    ensures SessionOk(t, j)
  {
    assert SessionOk(s, j);
    forall q | q in t.sessions[j].readers && q != p ensures q in s.sessions[j].readers {
      assert q in t.sessions[j].readers - {p};
    }
    forall n | n in t.sessions[j].agents ensures ListensOn(t, t.sessions[j].agents[n], Agent, n, j) {
      assert ListensOn(s, s.sessions[j].agents[n], Agent, n, j);
    }
  }

  lemma MoveKeepsStream(s: State, t: State, p: nat, q: nat)
    requires Struct(s) && Moves(s, t, p) && On(s, q) && Fits(t, p)
    ensures StreamOk(t, q)
  {
    assert StreamOk(s, q);
    if s.streams[q].sess.Some? && q != p {
      var j := s.streams[q].sess.value;
      assert q in s.sessions[j].readers - {p} <==> q in t.sessions[j].readers - {p};
    }
  }

  lemma StructMove(s: State, t: State, p: nat)
    requires Struct(s) && Moves(s, t, p) && Fits(t, p)
    ensures Struct(t)
  {
    forall q | 0 <= q < |t.streams| ensures StreamOk(t, q) { MoveKeepsStream(s, t, p, q); }
    forall j | 0 <= j < |t.sessions| ensures SessionOk(t, j) { MoveKeepsSession(s, t, p, j); }
    forall d | 0 <= d < |t.chans| ensures ChanOk(t, d) { assert ChanOk(s, d); }
  }

  lemma StructOpen(s: State, role: Role, name: string)
    requires Struct(s) && Enabled(s, Open(role, name))
    ensures Struct(Apply(s, Open(role, name)))
  {
    var t := Apply(s, Open(role, name));

    forall q | 0 <= q < |t.streams| ensures StreamOk(t, q) { if On(s, q) { assert StreamOk(s, q); } }
    forall j | 0 <= j < |t.sessions| ensures SessionOk(t, j) { if j < |s.sessions| { assert SessionOk(s, j); } }
    forall d | 0 <= d < |t.chans| ensures ChanOk(t, d) { if d < |s.chans| { assert ChanOk(s, d); } }
  }

  // ---- the steps that move one stream on ---------------------------------------------------------

  predicate IsRoutine(a: Action) {
    a.Disconnect? || a.Request? || a.Return? || a.CopySession?
  }

  predicate IsVoice(a: Action) {
    a.Post? || a.BeginSend? || a.TestCust? || a.EndSend? || a.BeginEnd?
  }

  predicate IsParting(a: Action) {
    a.HangUp? || a.RemoveSession? || a.CancelListener?
  }

  /** Stream p moves on, and has in hand what it had; the queue may only change where a session is taken off. */
  ghost predicate MovesOn(s: State, t: State, p: nat) {
    && Moves(s, t, p) && Fits(t, p)
    && (t.streams[p].pc.Taken? || s.streams[p].pc.Taken? ==> t.streams[p].pc == s.streams[p].pc)
    && t.lastSession == s.lastSession
  }

  /** Stream p may be at pc, with its session as given. */
  ghost predicate MayGo(s: State, p: nat, pc: Pc, sess: Session)
    requires InSession(s, p)
  {
    var x := s.streams[p]; var y := x.(pc := pc);
    && Shape(y) && Attached(x) == Attached(y)
    && !Resuming(x) && !Resuming(y) && !x.pc.Taken? && !y.pc.Taken?
    && (pc.ToCust? ==> sess.cust.Some?)
    && (pc.ToAgents? ==> pc.pending <= sess.agents.Keys)
  }

  /** Moving on without a change in the session. */
  lemma AtMoves(s: State, p: nat, pc: Pc)
    requires Sight(s, p) && InSession(s, p) && MayGo(s, p, pc, SessOf(s, p))
    requires Broadcasting(s.streams[p].(pc := pc)) == Broadcasting(s.streams[p])
    ensures MovesOn(s, At(s, p, pc), p)
  {
  }

  /** Moving on with a change in the session that leaves the seats alone. */
  lemma WithMoves(s: State, p: nat, sess: Session, pc: Pc)
    requires Sight(s, p) && InSession(s, p) && SameSeats(SessOf(s, p), sess) && MayGo(s, p, pc, sess)
    requires sess.readers - {p} == SessOf(s, p).readers - {p}
    requires p in sess.readers <==> Broadcasting(s.streams[p].(pc := pc))
    ensures MovesOn(s, At(WithSession(s, s.streams[p].sess.value, sess), p, pc), p)
  {
  }

  lemma DisconnectMoves(s: State, p: nat)
    requires Sight(s, p)
    ensures MovesOn(s, s.(streams := s.streams[p := s.streams[p].(ctxDone := true)]), p)
  {
  }

  lemma RequestMoves(s: State, p: nat)
    requires Sight(s, p) && s.streams[p].pc.Recv?
    ensures MovesOn(s, DoRequest(s, p), p)
  {
    if InSession(s, p) { AtMoves(s, p, DoRequest(s, p).streams[p].pc); }
  }

  lemma ReturnMoves(s: State, p: nat)
    requires Sight(s, p) && (s.streams[p].pc.Recv? || s.streams[p].pc.Ready?)
    ensures MovesOn(s, DoReturn(s, p), p)
  {
    if InSession(s, p) { AtMoves(s, p, Unregister(Exit)); }
  }

  lemma CopyMoves(s: State, p: nat)
    requires Sight(s, p) && InSession(s, p) && s.streams[p].pc.Copying?
    ensures MovesOn(s, DoCopySession(s, p), p)
  {
  }

  lemma PostMoves(s: State, p: nat, text: string)
    requires Sight(s, p) && InSession(s, p) && s.streams[p].pc.Ready?
    ensures MovesOn(s, DoPost(s, p, text), p)
  {
    var sess, pc := DoPost(s, p, text).sessions[s.streams[p].sess.value], DoPost(s, p, text).streams[p].pc;
    if pc.Appended? { WithMoves(s, p, sess, pc); } else { AtMoves(s, p, pc); }
  }

  lemma BeginSendMoves(s: State, p: nat)
    requires Sight(s, p) && InSession(s, p) && s.streams[p].pc.Appended?
    ensures MovesOn(s, DoBeginSend(s, p), p)
  {
    WithMoves(s, p, SessOf(s, p).(readers := SessOf(s, p).readers + {p}), DoBeginSend(s, p).streams[p].pc);
  }

  lemma TestCustMoves(s: State, p: nat)
    requires Sight(s, p) && InSession(s, p) && s.streams[p].pc.AtCust?
    ensures MovesOn(s, DoTestCust(s, p), p)
  {
    AtMoves(s, p, DoTestCust(s, p).streams[p].pc);
  }

  lemma EndSendMoves(s: State, p: nat)
    requires Sight(s, p) && CanEndSend(s, p)
    ensures MovesOn(s, DoEndSend(s, p), p)
  {
    WithMoves(s, p, SessOf(s, p).(readers := SessOf(s, p).readers - {p}), DoEndSend(s, p).streams[p].pc);
  }

  lemma BeginEndMoves(s: State, p: nat)
    requires Sight(s, p) && InSession(s, p) && s.streams[p].pc.Marked?
    ensures MovesOn(s, DoBeginEnd(s, p), p)
  {
    WithMoves(s, p, SessOf(s, p).(readers := SessOf(s, p).readers + {p}), ToAgents(Ended, SessOf(s, p).agents.Keys));
  }

  lemma HangUpMoves(s: State, p: nat)
    requires Sight(s, p) && InSession(s, p) && s.streams[p].pc.Ready?
    ensures MovesOn(s, DoHangUp(s, p), p)
  {
    if SessOf(s, p).active {
      WithMoves(s, p, SessOf(s, p).(active := false), Marked);
    } else {
      AtMoves(s, p, Unregister(Again));
    }
  }

  lemma RemoveMoves(s: State, p: nat)
    requires Sight(s, p) && InSession(s, p) && s.streams[p].pc.Unlist?
    ensures MovesOn(s, DoRemoveSession(s, p), p)
  {
    AtMoves(s, p, Unregister(Again));
  }

  lemma CancelMoves(s: State, p: nat)
    requires Sight(s, p) && HasChan(s, p) && s.streams[p].pc.Cancel?
    ensures MovesOn(s, DoCancel(s, p), p)
  {
    AtMoves(s, p, Close(s.streams[p].pc.after));
  }

  lemma RoutineMoves(s: State, a: Action)
    requires Struct(s) && Enabled(s, a) && IsRoutine(a)
    ensures MovesOn(s, Apply(s, a), a.p)
  {
    Reading(s, a.p);
    if a.Disconnect? { DisconnectMoves(s, a.p); }
    else if a.Request? { RequestMoves(s, a.p); }
    else if a.Return? { ReturnMoves(s, a.p); }
    else { CopyMoves(s, a.p); }
  }

  lemma VoiceMoves(s: State, a: Action)
    requires Struct(s) && Enabled(s, a) && IsVoice(a)
    ensures MovesOn(s, Apply(s, a), a.p)
  {
    Reading(s, a.p);
    if a.Post? { PostMoves(s, a.p, a.text); }
    else if a.BeginSend? { BeginSendMoves(s, a.p); }
    else if a.TestCust? { TestCustMoves(s, a.p); }
    else if a.EndSend? { EndSendMoves(s, a.p); }
    else { BeginEndMoves(s, a.p); }
  }

  lemma PartingMoves(s: State, a: Action)
    requires Struct(s) && Enabled(s, a) && IsParting(a)
    ensures MovesOn(s, Apply(s, a), a.p)
  {
    Reading(s, a.p);
    if a.HangUp? { HangUpMoves(s, a.p); }
    else if a.RemoveSession? { RemoveMoves(s, a.p); }
    else { CancelMoves(s, a.p); }
  }

  predicate IsMove(a: Action) {
    IsRoutine(a) || IsVoice(a) || IsParting(a)
  }

  lemma Moving(s: State, a: Action)
    requires Struct(s) && Enabled(s, a) && IsMove(a)
    ensures MovesOn(s, Apply(s, a), a.p)
  {
    if IsRoutine(a) { RoutineMoves(s, a); } else if IsVoice(a) { VoiceMoves(s, a); } else { PartingMoves(s, a); }
  }

  lemma StructReceive(s: State, c: nat)
    requires Struct(s) && Enabled(s, Receive(c))
    ensures Struct(Apply(s, Receive(c)))
  {
    var t := Apply(s, Receive(c));

    forall q | 0 <= q < |t.streams| ensures StreamOk(t, q) { if On(s, q) { assert StreamOk(s, q); } }
    forall j | 0 <= j < |t.sessions| ensures SessionOk(t, j) { if j < |s.sessions| { assert SessionOk(s, j); } }
    forall d | 0 <= d < |t.chans| ensures ChanOk(t, d) { if d < |s.chans| { assert ChanOk(s, d); } }
  }

  lemma NewSessionKeepsStream(s: State, p: nat, q: nat)
    requires Struct(s) && IdleAs(s, p, Customer) && On(s, q)
    ensures StreamOk(DoNewSession(s, p), q)
  {
    assert StreamOk(s, p) && StreamOk(s, q);
  }

  lemma NewSessionKeepsSession(s: State, p: nat, j: nat)
    requires Struct(s) && IdleAs(s, p, Customer) && j <= |s.sessions|
    ensures SessionOk(DoNewSession(s, p), j)
  {
    if j < |s.sessions| { assert SessionOk(s, j); }
  }

  lemma NewSessionKeepsChan(s: State, p: nat, d: nat)
    requires Struct(s) && IdleAs(s, p, Customer) && d <= |s.chans|
    ensures ChanOk(DoNewSession(s, p), d)
  {
    if d < |s.chans| { assert ChanOk(s, d); }
  }

  lemma StructNewSession(s: State, p: nat)
    requires Struct(s) && IdleAs(s, p, Customer) && s.mu.None?
    ensures Struct(DoNewSession(s, p))
  {
    var t := DoNewSession(s, p);
    forall q | 0 <= q < |t.streams| ensures StreamOk(t, q) { NewSessionKeepsStream(s, p, q); }
    forall j | 0 <= j < |t.sessions| ensures SessionOk(t, j) { NewSessionKeepsSession(s, p, j); }
    forall d | 0 <= d < |t.chans| ensures ChanOk(t, d) { NewSessionKeepsChan(s, p, d); }
  }

  lemma HeldKeepsSession(s: State, p: nat, pc: Pc, mu: Option<nat>, j: nat)
    requires Struct(s) && On(s, p) && s.streams[p].sess.None? && j < |s.sessions|
    requires pc.Done? || pc.ResumeSeat? || pc.ResumeChecked?
    ensures SessionOk(At(s, p, pc).(mu := mu), j)
  {
    var t := At(s, p, pc).(mu := mu);
    assert StreamOk(s, p) && SessionOk(s, j);
    forall n | n in t.sessions[j].agents ensures ListensOn(t, t.sessions[j].agents[n], Agent, n, j) {
      assert ListensOn(s, s.sessions[j].agents[n], Agent, n, j);
    }
  }

  /** Within resumeSession stream p holds s.mu, takes it, or lets it go. */
  lemma StructHeld(s: State, p: nat, pc: Pc, mu: Option<nat>)
    requires Struct(s) && On(s, p) && s.streams[p].sess.None? && s.streams[p].role.Customer?
    requires (s.mu.None? && s.streams[p].pc.Ready?) || s.mu == Some(p)
    requires pc.Done? || pc.ResumeSeat? || pc.ResumeChecked?
    requires mu == if pc.Done? then None else Some(p)
    requires !pc.Done? ==> pc.k < |s.sessions| && s.sessions[pc.k].custName == s.streams[p].name
    requires pc.ResumeChecked? ==> s.sessions[pc.k].cust.None?
    ensures Struct(At(s, p, pc).(mu := mu))
  {
    var t := At(s, p, pc).(mu := mu);
    assert StreamOk(s, p);
    forall q | 0 <= q < |t.streams| ensures StreamOk(t, q) { assert StreamOk(s, q); }
    forall j | 0 <= j < |t.sessions| ensures SessionOk(t, j) { HeldKeepsSession(s, p, pc, mu, j); }
    forall d | 0 <= d < |t.chans| ensures ChanOk(t, d) { assert ChanOk(s, d); }
  }

  lemma StructResumeCheck(s: State, p: nat, id: int)
    requires Struct(s) && CanResume(s, p, id)
    ensures Struct(DoResumeCheck(s, p, id))
  {
    var t := DoResumeCheck(s, p, id);
    assert StreamOk(s, p);
    if t.panicked != s.panicked {
      Reading(s, p);
      StructMove(s, t, p);
    } else if id in s.bySession {
      StructHeld(s, p, t.streams[p].pc, t.mu);
    }
  }

  lemma StructResumeTest(s: State, p: nat)
    requires Struct(s) && CanResumeTest(s, p)
    ensures Struct(DoResumeTest(s, p))
  {
    var t := DoResumeTest(s, p);
    assert StreamOk(s, p);
    StructHeld(s, p, t.streams[p].pc, t.mu);
  }

  lemma StreamsAfterResume(s: State, p: nat)
    requires Struct(s) && CanResumeSet(s, p)
    ensures var t := DoResumeSet(s, p); forall q | 0 <= q < |t.streams| :: StreamOk(t, q)
  {
    var t := DoResumeSet(s, p);
    assert StreamOk(s, p);
    forall q | 0 <= q < |t.streams| ensures StreamOk(t, q) { if On(s, q) { assert StreamOk(s, q); } }
  }

  lemma StructResumeSet(s: State, p: nat)
    requires Struct(s) && CanResumeSet(s, p)
    ensures Struct(DoResumeSet(s, p))
  {
    var t := DoResumeSet(s, p);
    assert StreamOk(s, p);
    StreamsAfterResume(s, p);
    forall j | 0 <= j < |t.sessions| ensures SessionOk(t, j) { if j < |s.sessions| { assert SessionOk(s, j); } }
    forall d | 0 <= d < |t.chans| ensures ChanOk(t, d) { if d < |s.chans| { assert ChanOk(s, d); } }
  }

  /** A send to a registered listener cannot hit a closed channel. */
  lemma StructSend(s: State, p: nat, c: nat, item: Item, drop: bool, pc: Pc)
    requires Struct(s) && InSession(s, p) && Broadcasting(s.streams[p]) && CanSend(s, c, drop) && s.chans[c].closes == 0
    requires pc.ToAgents? && pc.pending <= SessOf(s, p).agents.Keys
    ensures Struct(At(Send(s, c, item, drop), p, pc))
  {
    assert StreamOk(s, p);
    Reading(s, p);
    StructMove(s, At(Send(s, c, item, drop), p, pc), p);
  }

  lemma StructSendCust(s: State, p: nat, drop: bool)
    requires Struct(s) && CanSendCust(s, p, drop)
    ensures SessOf(s, p).cust.Some? && s.chans[SessOf(s, p).cust.value].closes == 0
    ensures Struct(DoSendCust(s, p, drop))
  {
    var k := s.streams[p].sess.value;
    assert StreamOk(s, p) && SessionOk(s, k);
    RegisteredIsOpen(s, SessOf(s, p).cust.value, Customer, SessOf(s, p).custName, k);
    var at := s.streams[p].pc.at;
    StructSend(s, p, SessOf(s, p).cust.value, Posted(at), drop, ToAgents(Posted(at), OtherAgents(s, p)));
  }

  lemma StructSendAgent(s: State, p: nat, to: string, drop: bool)
    requires Struct(s) && CanSendAgent(s, p, to, drop)
    ensures s.chans[SessOf(s, p).agents[to]].closes == 0
    ensures Struct(DoSendAgent(s, p, to, drop))
  {
    var k := s.streams[p].sess.value;
    assert StreamOk(s, p) && SessionOk(s, k);
    RegisteredIsOpen(s, SessOf(s, p).agents[to], Agent, to, k);
    var pc := s.streams[p].pc;
    StructSend(s, p, SessOf(s, p).agents[to], pc.item, drop, ToAgents(pc.item, pc.pending - {to}));
  }

  /** Taking an id from the queue leaves every seat as it was. */
  lemma StructTaken(s: State, t: State, p: nat)
    requires Struct(s) && IdleAs(s, p, Agent)
    requires |t.streams| == |s.streams| && t.streams == s.streams[p := s.streams[p].(pc := t.streams[p].pc)]
    requires t.sessions == s.sessions && t.chans == s.chans && t.mu == s.mu && t.bySession == s.bySession
    requires t.streams[p].pc.Done? || (t.streams[p].pc.Taken? && t.streams[p].pc.k < |s.sessions|)
    ensures Struct(t)
  {
    assert StreamOk(s, p);
    Reading(s, p);
    StructMove(s, t, p);
  }

  lemma StructAccept(s: State, p: nat, want: Option<int>)
    requires Struct(s) && IdleAs(s, p, Agent)
    ensures Struct(DoAccept(s, p, want))
  {
    StructTaken(s, DoAccept(s, p, want), p);
  }

  lemma RegisterKeepsStream(s: State, p: nat, q: nat)
    requires Struct(s) && CanRegister(s, p) && On(s, q)
    ensures StreamOk(DoRegister(s, p), q)
  {
    assert StreamOk(s, p) && StreamOk(s, q);
  }

  lemma RegisterKeepsSession(s: State, p: nat, j: nat)
    requires Struct(s) && CanRegister(s, p) && j < |s.sessions|
    ensures SessionOk(DoRegister(s, p), j)
  {
    var t := DoRegister(s, p);
    assert StreamOk(s, p) && SessionOk(s, j);
    forall n | n in t.sessions[j].agents ensures ListensOn(t, t.sessions[j].agents[n], Agent, n, j) {
      assert n in s.sessions[j].agents ==> ListensOn(s, s.sessions[j].agents[n], Agent, n, j);
    }
  }

  lemma StructRegister(s: State, p: nat)
    requires Struct(s) && CanRegister(s, p)
    ensures Struct(DoRegister(s, p))
  {
    var t := DoRegister(s, p);
    forall q | 0 <= q < |t.streams| ensures StreamOk(t, q) { RegisterKeepsStream(s, p, q); }
    forall j | 0 <= j < |t.sessions| ensures SessionOk(t, j) { RegisterKeepsSession(s, p, j); }
    assert StreamOk(s, p);
    forall d | 0 <= d < |t.chans| ensures ChanOk(t, d) { if d < |s.chans| { assert ChanOk(s, d); } }
  }

  /** The session once stream st has left it. */
  function Vacated(sess: Session, st: Stream): Session {
    if st.role.Customer? then sess.(cust := None) else sess.(agents := sess.agents - {st.name})
  }

  ghost predicate Leaves(s: State, t: State, p: nat) {
    && InSession(s, p) && s.streams[p].pc.Unregister? && Unlocked(s, p)
    && t.streams == s.streams[p := s.streams[p].(pc := Cancel(s.streams[p].pc.after))]
    && t.sessions == s.sessions[s.streams[p].sess.value := Vacated(SessOf(s, p), s.streams[p])]
    && t.chans == s.chans && t.mu == s.mu && t.bySession == s.bySession
  }

  lemma DetachKeepsStream(s: State, t: State, p: nat, q: nat)
    requires Struct(s) && Leaves(s, t, p) && On(s, q)
    ensures StreamOk(t, q)
  {
    assert StreamOk(s, p) && StreamOk(s, q);
    if q != p && s.streams[q].sess == s.streams[p].sess {
      assert s.streams[q].ch != s.streams[p].ch;
    }
  }

  lemma DetachKeepsSession(s: State, t: State, p: nat, j: nat)
    requires Struct(s) && Leaves(s, t, p) && j < |s.sessions|
    ensures SessionOk(t, j)
  {
    assert StreamOk(s, p) && SessionOk(s, j);
    forall n | n in t.sessions[j].agents ensures ListensOn(t, t.sessions[j].agents[n], Agent, n, j) {
      assert n in s.sessions[j].agents && ListensOn(s, s.sessions[j].agents[n], Agent, n, j);
    }
  }

  lemma StructDetach(s: State, p: nat)
    requires Struct(s) && CanDetach(s, p)
    ensures Struct(DoDetach(s, p))
  {
    var t := DoDetach(s, p);
    assert StreamOk(s, p);
    assert Leaves(s, t, p);
    forall q | 0 <= q < |t.streams| ensures StreamOk(t, q) { DetachKeepsStream(s, t, p, q); }
    forall j | 0 <= j < |t.sessions| ensures SessionOk(t, j) { DetachKeepsSession(s, t, p, j); }
    forall d | 0 <= d < |t.chans| ensures ChanOk(t, d) { assert ChanOk(s, d); }
  }

  lemma CloseKeepsStream(s: State, p: nat, q: nat)
    requires Struct(s) && HasChan(s, p) && s.streams[p].pc.Close? && On(s, q)
    ensures s.chans[s.streams[p].ch].closes == 0
    ensures StreamOk(DoClose(s, p), q)
  {
    assert StreamOk(s, p) && StreamOk(s, q);
  }

  lemma CloseKeepsSession(s: State, p: nat, j: nat)
    requires Struct(s) && HasChan(s, p) && s.streams[p].pc.Close? && j < |s.sessions|
    ensures SessionOk(DoClose(s, p), j)
  {
    assert StreamOk(s, p) && SessionOk(s, j);
    var t := DoClose(s, p);
    forall n | n in t.sessions[j].agents ensures ListensOn(t, t.sessions[j].agents[n], Agent, n, j) {
      assert ListensOn(s, s.sessions[j].agents[n], Agent, n, j);
    }
  }

  lemma StructCloseChannel(s: State, p: nat)
    requires Struct(s) && HasChan(s, p) && s.streams[p].pc.Close?
    ensures Struct(DoClose(s, p))
  {
    var t := DoClose(s, p);
    assert StreamOk(s, p);
    forall q | 0 <= q < |t.streams| ensures StreamOk(t, q) { CloseKeepsStream(s, p, q); }
    forall j | 0 <= j < |t.sessions| ensures SessionOk(t, j) { CloseKeepsSession(s, p, j); }
    forall d | 0 <= d < |t.chans| ensures ChanOk(t, d) { assert ChanOk(s, d); }
  }
}
