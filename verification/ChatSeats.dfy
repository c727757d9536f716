/** Agents' seats: while ids are tokens, an agent stream is alone on its session and is the one listed there. */
module ChatSeats {
  import opened Wrappers
  import opened ChatModel
  import opened ChatInvariant
  import opened ChatFrames
  import opened ChatToken

  /** An agent stream on a session is listed there with its own channel. */
  ghost predicate Seated(s: State, p: nat) {
    On(s, p) && Attached(s.streams[p]) && s.streams[p].role.Agent? ==>
      && InSession(s, p)
      && s.streams[p].name in SessOf(s, p).agents
      && SessOf(s, p).agents[s.streams[p].name] == s.streams[p].ch
  }

  ghost predicate Seats(s: State) {
    forall p: nat :: Seated(s, p)
  }

  /** Two agent streams never share a session. */
  lemma OneAgent(s: State, p: nat, q: nat)
    requires Struct(s) && Token(s) && On(s, p) && On(s, q) && Attached(s.streams[p]) && Attached(s.streams[q])
    requires s.streams[p].role.Agent? && s.streams[q].role.Agent? && s.streams[p].sess == s.streams[q].sess
    ensures p == q
  {
    assert StreamOk(s, p) && StreamOk(s, q);
    assert HeldId(s, p) == HeldId(s, q);
  }

  /** Nobody but an attached agent is listed on its session. */
  lemma OnlyAgent(s: State, p: nat)
    requires Token(s) && Struct(s) && On(s, p) && Attached(s.streams[p]) && s.streams[p].role.Agent?
    ensures InSession(s, p) && OtherAgents(s, p) == {}
  {
    assert StreamOk(s, p);
    var k := s.streams[p].sess.value;
    assert SessionOk(s, k);
    forall n | n in SessOf(s, p).agents ensures n == s.streams[p].name {
      assert ListensOn(s, SessOf(s, p).agents[n], Agent, n, k);
      OneAgent(s, p, s.chans[SessOf(s, p).agents[n]].owner);
    }
  }

  // ---- steps that leave the agents' seats alone ------------------------------------------

  ghost predicate SeatsUntouched(s: State, t: State) {
    && |s.streams| <= |t.streams| && |s.sessions| <= |t.sessions|
    && (forall k :: 0 <= k < |s.sessions| ==> t.sessions[k].agents == s.sessions[k].agents)
    && (forall q :: 0 <= q < |t.streams| && Attached(t.streams[q]) && t.streams[q].role.Agent? ==>
          q < |s.streams| && Attached(s.streams[q]) && SameSeat(s.streams[q], t.streams[q]))
  }

  predicate SameSeat(x: Stream, y: Stream) {
    x.role == y.role && x.name == y.name && x.sess == y.sess && x.ch == y.ch
  }

  lemma SeatsSame(s: State, t: State)
    requires Seats(s) && SeatsUntouched(s, t)
    ensures Seats(t)
  {
    forall p: nat ensures Seated(t, p) {
      assert Seated(s, p);
    }
  }

  lemma SeatsMove(s: State, t: State, p: nat)
    requires Moves(s, t, p)
    ensures SeatsUntouched(s, t)
  {
  }

  lemma SeatsSend(s: State, a: Action)
    requires Struct(s) && Enabled(s, a) && IsSend(a)
    ensures SeatsUntouched(s, Apply(s, a))
  {
    SendOnly(s, a);
    assert StreamOk(s, a.p);
  }

  lemma SeatsAsk(s: State, a: Action)
    requires Struct(s) && Enabled(s, a) && (a.ResumeCheck? || a.ResumeTest?)
    ensures SeatsUntouched(s, Apply(s, a))
  {
    assert StreamOk(s, a.p);
  }

  lemma SeatsAccept(s: State, p: nat, want: Option<int>)
    requires Struct(s) && IdleAs(s, p, Agent)
    ensures SeatsUntouched(s, DoAccept(s, p, want))
  {
    assert StreamOk(s, p);
  }

  lemma SeatsJoin(s: State, a: Action)
    requires Struct(s) && Enabled(s, a) && (a.NewSession? || a.ResumeSet?)
    ensures SeatsUntouched(s, Apply(s, a))
  {
    assert StreamOk(s, a.p);
  }

  lemma SeatsEnd(s: State, a: Action)
    requires Struct(s) && Enabled(s, a) && (a.Open? || a.Receive? || a.CloseChannel?)
    ensures SeatsUntouched(s, Apply(s, a))
  {
    if a.CloseChannel? { assert StreamOk(s, a.p); }
  }

  lemma SeatsOther(s: State, a: Action)
    requires Struct(s) && Enabled(s, a) && !a.Register? && !a.Detach?
    ensures SeatsUntouched(s, Apply(s, a))
  {
    if IsMove(a) { Moving(s, a); SeatsMove(s, Apply(s, a), a.p); }
    else if IsSend(a) { SeatsSend(s, a); }
    else if a.ResumeCheck? || a.ResumeTest? { SeatsAsk(s, a); }
    else if a.Accept? { SeatsAccept(s, a.p, a.want); }
    else if a.NewSession? || a.ResumeSet? { SeatsJoin(s, a); }
    else { SeatsEnd(s, a); }
  }

  // ---- registering and leaving --------------------------------------------------------------

  lemma SeatsRegister(s: State, p: nat)
    requires Struct(s) && Token(s) && Seats(s) && Enabled(s, Register(p))
    ensures Seats(Apply(s, Register(p)))
  {
    var t := Apply(s, Register(p));
    assert StreamOk(s, p);
    forall q: nat ensures Seated(t, q) {
      assert Seated(s, q);
      if q != p && On(s, q) {
        assert StreamOk(s, q) && HeldId(s, p).Some?;
        assert HeldId(s, p) != HeldId(s, q);
      }
    }
  }

  lemma SeatsDetach(s: State, p: nat)
    requires Struct(s) && Token(s) && Seats(s) && Enabled(s, Detach(p))
    ensures Seats(Apply(s, Detach(p)))
  {
    var t := Apply(s, Detach(p));
    assert StreamOk(s, p);
    forall q: nat ensures Seated(t, q) {
      assert Seated(s, q);
      if q != p && On(t, q) && Attached(t.streams[q]) && t.streams[q].role.Agent?
         && s.streams[p].role.Agent? && s.streams[q].sess == s.streams[p].sess {
        OneAgent(s, p, q);
      }
    }
  }

  lemma SeatsStep(s: State, a: Action)
    requires Struct(s) && Token(s) && Seats(s) && Enabled(s, a)
    ensures Seats(Apply(s, a))
  {
    if a.Register? { SeatsRegister(s, a.p); }
    else if a.Detach? { SeatsDetach(s, a.p); }
    else {
      SeatsOther(s, a);
      SeatsSame(s, Apply(s, a));
    }
  }
}
