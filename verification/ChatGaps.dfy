/** No message is missed by joining.  For customers this needs nothing but the server's structure;
    for agents, that each is the one listed on its session. */
module ChatGaps {
  import opened Wrappers
  import opened ChatModel
  import opened ChatInvariant
  import opened ChatFrames
  import opened ChatSeats

  /** Stream q has appended entry i and not yet come to p in its broadcast. */
  predicate InFlight(s: State, q: nat, p: nat, i: nat) {
    && On(s, q) && On(s, p)
    && s.streams[q].sess == s.streams[p].sess && s.streams[q].role != s.streams[p].role
    && Carried(s.streams[q].pc) == Some(i)
    && (s.streams[q].pc.ToAgents? ==> s.streams[p].role.Agent? && s.streams[p].name in s.streams[q].pc.pending)
  }

  ghost predicate Covered(s: State, p: nat, i: nat)
    requires HasChan(s, p)
  {
    Posted(i) in s.chans[s.streams[p].ch].sent || exists q :: InFlight(s, q, p, i)
  }

  /** Stream p got its snapshot, still listens, and its client is still there. */
  predicate Following(st: Stream) {
    Attached(st) && st.snap.Some? && !st.ctxDone
  }

  /** Entry i of p's session was said by the other side after p's snapshot. */
  predicate Due(s: State, p: nat, i: nat) {
    && InSession(s, p) && s.streams[p].snap.Some?
    && |s.streams[p].snap.value| <= i < |SessOf(s, p).history|
    && !From(SessOf(s, p).history[i], s.streams[p].role)
  }

  ghost predicate NoGap(s: State, p: nat)
    requires On(s, p)
  {
    var st := s.streams[p];
    && (Attached(st) ==> HasChan(s, p) && !s.chans[st.ch].cancelled && (st.pc.Copying? || st.snap.Some?))
    && (Attached(st) && st.snap.Some? ==> st.snap.value <= SessOf(s, p).history)
    && (Following(st) ==> forall i :: Due(s, p, i) ==> Covered(s, p, i))
  }

  lemma HushedNoGap(s: State, t: State, p: nat, q: nat)
    requires Struct(s) && Hushed(s, t, p) && On(s, q) && NoGap(s, q)
    ensures NoGap(t, q)
  {
    assert StreamOk(s, q);
    if Following(t.streams[q]) {
      forall i: nat | Due(t, q, i) ensures Covered(t, q, i) {
        assert Due(s, q, i) && Covered(s, q, i);
        if r :| InFlight(s, r, q, i) { assert InFlight(t, r, q, i); }
      }
    }
  }

  lemma OpenNoGap(s: State, role: Role, name: string, q: nat)
    requires Struct(s) && Enabled(s, Open(role, name)) && On(s, q) && NoGap(s, q)
    ensures NoGap(Apply(s, Open(role, name)), q)
  {
    var t := Apply(s, Open(role, name));
    assert StreamOk(s, q);
    forall i: nat | Following(t.streams[q]) && Due(t, q, i) ensures Covered(t, q, i) {
      assert Due(s, q, i) && Covered(s, q, i);
      if r :| InFlight(s, r, q, i) { assert InFlight(t, r, q, i); }
    }
  }

  lemma JoinNoGap(s: State, t: State, p: nat, k: nat, q: nat)
    requires Struct(s) && Joins(s, t, p, k) && On(s, q) && NoGap(s, q)
    ensures NoGap(t, q)
  {
    assert StreamOk(s, q);
    if Following(t.streams[q]) {
      forall i: nat | Due(t, q, i) ensures Covered(t, q, i) {
        assert Due(s, q, i) && Covered(s, q, i);
        if r :| InFlight(s, r, q, i) { assert InFlight(t, r, q, i); }
      }
    }
  }

  /** The snapshot is copied after registering, so it starts with nothing due. */
  lemma CopyNoGap(s: State, p: nat, q: nat)
    requires Struct(s) && Enabled(s, CopySession(p)) && On(s, q) && NoGap(s, q)
    ensures NoGap(Apply(s, CopySession(p)), q)
  {
    var t := Apply(s, CopySession(p));
    assert StreamOk(s, q);
    if Following(t.streams[q]) && q != p {
      forall i: nat | Due(t, q, i) ensures Covered(t, q, i) {
        assert Due(s, q, i) && Covered(s, q, i);
        if r :| InFlight(s, r, q, i) { assert InFlight(t, r, q, i); }
      }
    }
  }

  /** What was covered stays covered if p goes on carrying what it carried, and a new entry is in p's hands. */
  lemma SpeakNoGap(s: State, t: State, p: nat, k: nat, more: seq<Entry>, q: nat)
    requires Struct(s) && Speaks(s, t, p, k, more) && On(s, q) && NoGap(s, q)
    requires forall i: nat :: InFlight(s, p, q, i) && Following(s.streams[q]) ==> InFlight(t, p, q, i)
    requires forall i: nat :: s.streams[q].sess == Some(k) && Due(t, q, i) && i >= |s.sessions[k].history| ==> InFlight(t, p, q, i)
    ensures NoGap(t, q)
  {
    assert StreamOk(s, q);
    if Following(t.streams[q]) {
      forall i: nat | Due(t, q, i) ensures Covered(t, q, i) {
        if i < |SessOf(s, q).history| {
          assert Due(s, q, i) && Covered(s, q, i);
          if r :| InFlight(s, r, q, i) { assert InFlight(t, r, q, i); }
        } else {
          assert InFlight(t, p, q, i);
        }
      }
    }
  }

  /** An entry just appended is on its way to every listener of the other side. */
  lemma NewEntryFlies(s: State, p: nat, text: string, q: nat)
    requires Struct(s) && Enabled(s, Post(p, text)) && On(s, q) && (s.streams[p].role.Customer? || SessOf(s, p).active)
    ensures var t := Apply(s, Post(p, text));
            && (forall i: nat :: !InFlight(s, p, q, i))
            && (forall i: nat :: s.streams[q].sess == s.streams[p].sess && Due(t, q, i) && i >= |SessOf(s, p).history|
                  ==> InFlight(t, p, q, i))
  {
  }

  lemma PostNoGap(s: State, p: nat, text: string, q: nat)
    requires Struct(s) && Enabled(s, Post(p, text)) && On(s, q) && NoGap(s, q)
    ensures NoGap(Apply(s, Post(p, text)), q)
  {
    var t := Apply(s, Post(p, text));
    if s.streams[p].role.Agent? && !SessOf(s, p).active {
      MuteIsHushed(s, p, text);
      HushedNoGap(s, t, p, q);
    } else {
      PostSpeaks(s, p, text);
      NewEntryFlies(s, p, text, q);
      SpeakNoGap(s, t, p, s.streams[p].sess.value, [EntryOf(s.streams[p], text)], q);
    }
  }

  lemma BeginNoGap(s: State, p: nat, q: nat)
    requires Struct(s) && Enabled(s, BeginSend(p)) && On(s, q) && NoGap(s, q) && Seated(s, q)
    ensures NoGap(Apply(s, BeginSend(p)), q)
  {
    var t := Apply(s, BeginSend(p));
    assert StreamOk(s, q);
    BeginSpeaks(s, p);
    SpeakNoGap(s, t, p, s.streams[p].sess.value, [], q);
  }

  lemma TestNoGap(s: State, p: nat, q: nat)
    requires Struct(s) && Enabled(s, TestCust(p)) && On(s, q) && NoGap(s, q)
    ensures NoGap(Apply(s, TestCust(p)), q)
  {
    var t := Apply(s, TestCust(p));
    assert StreamOk(s, q) && StreamOk(s, p);
    TestSpeaks(s, p);
    SpeakNoGap(s, t, p, s.streams[p].sess.value, [], q);
  }

  /** The listener served is covered by its channel; whoever is still pending is covered as before. */
  lemma HandNoGap(s: State, t: State, p: nat, c: nat, item: Item, drop: bool, pc: Pc, q: nat)
    requires Struct(s) && Hands(s, t, p, c, item, drop, pc) && On(s, q) && NoGap(s, q)
    requires s.streams[p].role.Agent? && item.Posted? ==> Carried(s.streams[p].pc) == Some(item.at)
    requires forall i: nat :: InFlight(s, p, q, i) && Following(s.streams[q]) ==>
               InFlight(t, p, q, i) || (item == Posted(i) && c == s.streams[q].ch)
    ensures NoGap(t, q)
  {
    assert StreamOk(s, q);
    if Following(t.streams[q]) {
      var own := s.streams[q].ch;
      forall i: nat | Due(t, q, i) ensures Covered(t, q, i) {
        assert Due(s, q, i) && Covered(s, q, i);
        if Posted(i) in s.chans[own].sent {
          assert Posted(i) in t.chans[own].sent;
        } else {
          var r :| InFlight(s, r, q, i);
          if r == p && !InFlight(t, p, q, i) {
            assert !drop;
            assert t.chans[own].sent[|s.chans[own].sent|] == Posted(i);
          } else {
            assert InFlight(t, r, q, i);
          }
        }
      }
    }
  }

  lemma SendCustNoGap(s: State, p: nat, drop: bool, q: nat)
    requires Struct(s) && Enabled(s, SendCust(p, drop)) && On(s, q) && NoGap(s, q)
    ensures NoGap(Apply(s, SendCust(p, drop)), q)
  {
    var t := Apply(s, SendCust(p, drop));
    var item := Posted(s.streams[p].pc.at);
    SendCustHands(s, p, drop);
    assert StreamOk(s, q) && StreamOk(s, p);
    HandNoGap(s, t, p, SessOf(s, p).cust.value, item, drop, ToAgents(item, OtherAgents(s, p)), q);
  }

  lemma SendAgentNoGap(s: State, p: nat, to: string, drop: bool, q: nat)
    requires Struct(s) && Enabled(s, SendAgent(p, to, drop)) && On(s, q) && NoGap(s, q) && Seated(s, q)
    ensures NoGap(Apply(s, SendAgent(p, to, drop)), q)
  {
    var t := Apply(s, SendAgent(p, to, drop));
    var pc := s.streams[p].pc;
    SendAgentHands(s, p, to, drop);
    assert StreamOk(s, q);
    HandNoGap(s, t, p, SessOf(s, p).agents[to], pc.item, drop, ToAgents(pc.item, pc.pending - {to}), q);
  }

  lemma TalkNoGap(s: State, a: Action, q: nat)
    requires Struct(s) && Enabled(s, a) && !IsHush(a) && !IsSeating(a) && !a.Open? && !a.Receive?
    requires On(s, q) && NoGap(s, q) && Seated(s, q)
    ensures On(Apply(s, a), q) && NoGap(Apply(s, a), q)
  {
    if a.CopySession? { CopyNoGap(s, a.p, q); }
    else if a.Post? { PostNoGap(s, a.p, a.text, q); }
    else if a.BeginSend? { BeginNoGap(s, a.p, q); }
    else if a.TestCust? { TestNoGap(s, a.p, q); }
    else if a.SendCust? { SendCustNoGap(s, a.p, a.drop, q); }
    else { SendAgentNoGap(s, a.p, a.to, a.drop, q); }
  }

  /** Whatever happens, a stream that has its seat misses nothing. */
  lemma GapStep(s: State, a: Action, q: nat)
    requires Struct(s) && Enabled(s, a) && On(s, q) && NoGap(s, q) && Seated(s, q)
    ensures On(Apply(s, a), q) && NoGap(Apply(s, a), q)
  {
    if IsHush(a) { HushIsHushed(s, a); HushedNoGap(s, Apply(s, a), a.p, q); }
    else if IsSeating(a) { SeatingJoins(s, a); JoinNoGap(s, Apply(s, a), a.p, SeatTaken(s, a), q); }
    else if a.Open? { OpenNoGap(s, a.role, a.name, q); }
    else if a.Receive? { ReceiveIsHushed(s, a.c); HushedNoGap(s, Apply(s, a), s.chans[a.c].owner, q); }
    else { TalkNoGap(s, a, q); }
  }

  /** A stream starts with nothing to follow. */
  lemma NewcomerNoGap(s: State, role: Role, name: string)
    requires Enabled(s, Open(role, name))
    ensures On(Apply(s, Open(role, name)), |s.streams|) && NoGap(Apply(s, Open(role, name)), |s.streams|)
  {
  }
}
