/** While ids are tokens, a listener is sent nothing but what the other side said. */
module ChatSides {
  import opened ChatModel
  import opened ChatInvariant
  import opened ChatToken
  import opened ChatSeats
  import opened ChatFrames
  import opened ChatOrder

  ghost predicate ChanSided(s: State, c: nat)
    requires c < |s.chans|
  {
    var ch := s.chans[c];
    && ch.of < |s.sessions| && On(s, ch.owner)
    && forall a :: 0 <= a < |ch.sent| ==> Foreign(ch.sent[a], s.sessions[ch.of].history, s.streams[ch.owner].role)
  }

  /** An agent has no other agent to hand its message to. */
  predicate Alone(s: State, q: nat) {
    On(s, q) && s.streams[q].role.Agent? && s.streams[q].pc.ToAgents? && s.streams[q].pc.item.Posted?
    ==> s.streams[q].pc.pending == {}
  }

  ghost predicate Sided(s: State) {
    && (forall c :: 0 <= c < |s.chans| ==> ChanSided(s, c))
    && (forall q: nat :: Alone(s, q))
  }

  lemma SidedStays(s: State, t: State)
    requires Sided(s) && |s.chans| <= |t.chans| && forall q: nat :: Alone(t, q)
    requires forall c: nat :: c < |s.chans| ==> On(s, s.chans[c].owner) && Untouched(s, t, c, s.streams[s.chans[c].owner].role)
    requires forall c: nat :: |s.chans| <= c < |t.chans| ==> Unused(t, c)
    ensures Sided(t)
  {
    forall c: nat | c < |t.chans| ensures ChanSided(t, c) {
      if c < |s.chans| {
        assert ChanSided(s, c) && Untouched(s, t, c, s.streams[s.chans[c].owner].role);
      } else {
        assert Unused(t, c);
      }
    }
  }

  /** Steps that put nothing on a channel. */
  lemma MuteSides(s: State, t: State)
    requires Order(s, Customer) && Sided(s) && SameLines(s, t) && forall q: nat :: Alone(t, q)
    ensures Sided(t)
  {
    forall c: nat | c < |s.chans|
      ensures On(s, s.chans[c].owner) && Untouched(s, t, c, s.streams[s.chans[c].owner].role)
    {
      assert ChanOrder(s, c, Customer);
    }
    SidedStays(s, t);
  }

  lemma HushedSides(s: State, t: State, p: nat)
    requires Struct(s) && Order(s, Customer) && Sided(s) && Hushed(s, t, p)
    ensures Sided(t)
  {
    forall q: nat ensures Alone(t, q) { assert Alone(s, q); }
    MuteSides(s, t);
  }

  lemma JoinSides(s: State, t: State, p: nat, k: nat)
    requires Struct(s) && Order(s, Customer) && Sided(s) && Joins(s, t, p, k)
    ensures Sided(t)
  {
    forall q: nat ensures Alone(t, q) { assert Alone(s, q); }
    MuteSides(s, t);
  }

  lemma ComeSides(s: State, a: Action)
    requires Order(s, Customer) && Sided(s) && Enabled(s, a) && (a.Open? || a.CopySession?)
    ensures Sided(Apply(s, a))
  {
    var t := Apply(s, a);
    forall q: nat ensures Alone(t, q) { assert Alone(s, q); }
    MuteSides(s, t);
  }

  lemma SpeakSides(s: State, t: State, p: nat, k: nat, more: seq<Entry>)
    requires Order(s, Customer) && Sided(s) && Speaks(s, t, p, k, more) && Alone(t, p)
    ensures Sided(t)
  {
    forall q: nat ensures Alone(t, q) { assert Alone(s, q); }
    MuteSides(s, t);
  }

  lemma PostSides(s: State, p: nat, text: string)
    requires Struct(s) && Order(s, Customer) && Sided(s) && Enabled(s, Post(p, text))
    ensures Sided(Apply(s, Post(p, text)))
  {
    var t := Apply(s, Post(p, text));
    if s.streams[p].role.Agent? && !SessOf(s, p).active {
      MuteIsHushed(s, p, text);
      HushedSides(s, t, p);
    } else {
      PostSpeaks(s, p, text);
      SpeakSides(s, t, p, s.streams[p].sess.value, [EntryOf(s.streams[p], text)]);
    }
  }

  lemma GoOnSides(s: State, a: Action)
    requires Struct(s) && Token(s) && Order(s, Customer) && Sided(s) && Enabled(s, a) && (a.BeginSend? || a.TestCust?)
    ensures Sided(Apply(s, a))
  {
    GoOnSpeaks(s, a);
    if s.streams[a.p].role.Agent? { OnlyAgent(s, a.p); }
    SpeakSides(s, Apply(s, a), a.p, s.streams[a.p].sess.value, []);
  }

  lemma ServeSides(s: State, t: State, p: nat, c: nat, item: Item, drop: bool, pc: Pc)
    requires Order(s, Customer) && Sided(s) && Serves(s, t, p, c, item, drop, pc) && Alone(t, p)
    requires item.Posted? ==> On(s, s.chans[c].owner) && s.streams[s.chans[c].owner].role != s.streams[p].role
    ensures Sided(t)
  {
    HandsOnly(s, t, p, c, item, drop, pc);
    forall d: nat | d < |s.chans|
      ensures On(s, s.chans[d].owner) && Untouched(s, t, d, s.streams[s.chans[d].owner].role)
    {
      assert ChanOrder(s, d, Customer);
      ServeLine(s, t, p, c, item, drop, pc, d, s.streams[s.chans[d].owner].role, Customer);
    }
    forall q: nat ensures Alone(t, q) { assert Alone(s, q); }
    SidedStays(s, t);
  }

  lemma SendSides(s: State, a: Action)
    requires Struct(s) && Token(s) && Order(s, Customer) && Sided(s) && Enabled(s, a) && IsSend(a)
    ensures Sided(Apply(s, a))
  {
    var t := Apply(s, a);
    if a.SendCust? {
      CustServes(s, a.p, a.drop);
      AwaitedListens(s, a.p, SessOf(s, a.p).cust.value);
      CarrierIsAttached(s, a.p);
      OnlyAgent(s, a.p);
      var item := Posted(s.streams[a.p].pc.at);
      ServeSides(s, t, a.p, SessOf(s, a.p).cust.value, item, a.drop, ToAgents(item, OtherAgents(s, a.p)));
    } else {
      AgentServed(s, a.p, a.to, a.drop);
      assert Alone(s, a.p);
      var pc := s.streams[a.p].pc;
      ServeSides(s, t, a.p, SessOf(s, a.p).agents[a.to], pc.item, a.drop, ToAgents(pc.item, pc.pending - {a.to}));
    }
  }

  lemma SidesStep(s: State, a: Action)
    requires Struct(s) && Token(s) && Order(s, Customer) && Sided(s) && Enabled(s, a)
    ensures Sided(Apply(s, a))
  {
    if IsHush(a) { HushIsHushed(s, a); HushedSides(s, Apply(s, a), a.p); }
    else if IsSeating(a) { SeatingJoins(s, a); JoinSides(s, Apply(s, a), a.p, SeatTaken(s, a)); }
    else if a.Receive? { ReceiveIsHushed(s, a.c); HushedSides(s, Apply(s, a), s.chans[a.c].owner); }
    else if a.Open? || a.CopySession? { ComeSides(s, a); }
    else if a.Post? { PostSides(s, a.p, a.text); }
    else if a.BeginSend? || a.TestCust? { GoOnSides(s, a); }
    else { SendSides(s, a); }
  }
}
