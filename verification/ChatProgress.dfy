/** Nobody waits for ever: whoever stands in the middle of something, something the program does by itself can go on. */
module ChatProgress {
  import opened ChatModel
  import opened ChatInvariant
  import opened ChatSafety

  /** Neither waiting for a request, nor with one in hand, nor done. */
  predicate UnderWay(st: Stream) {
    !st.pc.Recv? && !st.pc.Ready? && !st.pc.Done?
  }

  /** What clients ask for or do, as opposed to what the program does by itself. */
  predicate IsClients(a: Action) {
    || a.Open? || a.Disconnect? || a.Request? || a.Return? || a.NewSession?
    || a.ResumeCheck? || a.Accept? || a.Post? || a.HangUp?
  }

  /** The program can go on by itself. */
  ghost predicate GoesOn(s: State) {
    exists a :: !IsClients(a) && Enabled(s, a)
  }

  lemma By(s: State, a: Action)
    requires !IsClients(a) && Enabled(s, a)
    ensures GoesOn(s)
  {
  }

  /** The server's lock is held only by streams that go on without waiting. */
  lemma HolderGoesOn(s: State)
    requires Struct(s) && s.mu.Some?
    ensures GoesOn(s)
  {
    var p := s.mu.value;
    assert StreamOk(s, p);
    By(s, if s.streams[p].pc.ResumeSeat? then ResumeTest(p) else ResumeSet(p));
  }

  /** The read lock of a session is held only by broadcasts; each can send, or its next listener has an item to take. */
  lemma BroadcastGoesOn(s: State, p: nat)
    requires Struct(s) && On(s, p) && Broadcasting(s.streams[p])
    ensures GoesOn(s)
  {
    assert StreamOk(s, p) && SessionOk(s, s.streams[p].sess.value);
    var pc := s.streams[p].pc;
    if pc.AtCust? {
      By(s, TestCust(p));
    } else if pc.ToCust? {
      var c := SessOf(s, p).cust.value;
      By(s, if |s.chans[c].sent| <= s.chans[c].taken then SendCust(p, false) else Receive(c));
    } else if pc.pending == {} {
      By(s, EndSend(p));
    } else {
      var to :| to in pc.pending;
      assert to in SessOf(s, p).agents;
      var c := SessOf(s, p).agents[to];
      By(s, if |s.chans[c].sent| <= s.chans[c].taken then SendAgent(p, to, false) else Receive(c));
    }
  }

  lemma ReaderGoesOn(s: State, k: nat)
    requires Struct(s) && k < |s.sessions| && s.sessions[k].readers != {}
    ensures GoesOn(s)
  {
    assert SessionOk(s, k);
    var q :| q in s.sessions[k].readers;
    BroadcastGoesOn(s, q);
  }

  /** A stream under way waits for nothing but a lock. */
  lemma UnderWayGoesOn(s: State, p: nat)
    requires Struct(s) && On(s, p) && UnderWay(s.streams[p]) && !Broadcasting(s.streams[p])
    requires s.mu.None? && forall k :: 0 <= k < |s.sessions| ==> s.sessions[k].readers == {}
    ensures GoesOn(s)
  {
    assert StreamOk(s, p);
    var pc := s.streams[p].pc;
    By(s,
       if pc.Taken? then Register(p)
       else if pc.Copying? then CopySession(p)
       else if pc.Appended? then BeginSend(p)
       else if pc.Marked? then BeginEnd(p)
       else if pc.Unlist? then RemoveSession(p)
       else if pc.Unregister? then Detach(p)
       else if pc.Cancel? then CancelListener(p)
       else CloseChannel(p));
  }

  /** No deadlock: in every run, while some stream is under way, the program can go on by itself. */
  lemma NoDeadlock(states: seq<State>, i: nat, p: nat)
    requires IsRun(states) && i < |states| && On(states[i], p) && UnderWay(states[i].streams[p])
    ensures GoesOn(states[i])
  {
    RunStruct(states, i);
    var s := states[i];
    if s.mu.Some? {
      HolderGoesOn(s);
    } else if k: nat :| k < |s.sessions| && s.sessions[k].readers != {} {
      ReaderGoesOn(s, k);
    } else if Broadcasting(s.streams[p]) {
      BroadcastGoesOn(s, p);
    } else {
      UnderWayGoesOn(s, p);
    }
  }

  /** Between requests the next may always come, or the end. */
  lemma RequestsArrive(s: State, p: nat)
    requires On(s, p) && s.streams[p].pc.Recv?
    ensures Enabled(s, Request(p)) && Enabled(s, Return(p))
  {
  }

  /** A request in hand is served once the locks it wants are free, and the client may always go instead. */
  lemma RequestsAreServed(states: seq<State>, i: nat, p: nat)
    requires IsRun(states) && i < |states| && On(states[i], p) && states[i].streams[p].pc.Ready? && states[i].mu.None?
    ensures var s := states[i]; var st := s.streams[p];
            && Enabled(s, Return(p))
            && (st.sess.None? && st.role.Customer? ==> Enabled(s, NewSession(p)) && forall id :: Enabled(s, ResumeCheck(p, id)))
            && (st.sess.None? && st.role.Agent? ==> forall want :: Enabled(s, Accept(p, want)))
            && (st.sess.Some? ==>
                  st.sess.value < |s.sessions|
                  && (s.sessions[st.sess.value].readers == {} ==> Enabled(s, HangUp(p)) && forall text :: Enabled(s, Post(p, text))))
  {
    RunStruct(states, i);
    assert StreamOk(states[i], p);
  }
}
