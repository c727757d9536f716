/** What one side says reaches the listeners of the other side in history order: the customer's messages
    always, the agents' while an agent is alone on its session. */
module ChatOrder {
  import opened Wrappers
  import opened ChatModel
  import opened ChatInvariant
  import opened ChatSafety
  import opened ChatToken
  import opened ChatSeats
  import opened ChatFrames

  // ---- order on a channel -----------------------------------------------------------

  /** An item is an entry of the history, by the given side. */
  predicate SaidBy(item: Item, history: seq<Entry>, who: Role) {
    item.Posted? && item.at < |history| && From(history[item.at], who)
  }

  ghost predicate AllBelow(sent: seq<Item>, history: seq<Entry>, who: Role, i: nat) {
    forall a :: 0 <= a < |sent| && SaidBy(sent[a], history, who) ==> sent[a].at < i
  }

  ghost predicate Increasing(sent: seq<Item>, history: seq<Entry>, who: Role) {
    forall a, b :: 0 <= a < b < |sent| && SaidBy(sent[a], history, who) && SaidBy(sent[b], history, who)
      ==> sent[a].at < sent[b].at
  }

  ghost predicate InRange(sent: seq<Item>, n: nat) {
    forall a :: 0 <= a < |sent| && sent[a].Posted? ==> sent[a].at < n
  }

  /** What the given side said is in order on the channels of the other side. */
  ghost predicate ChanOrder(s: State, c: nat, who: Role)
    requires c < |s.chans|
  {
    var ch := s.chans[c];
    && ch.of < |s.sessions| && On(s, ch.owner)
    && InRange(ch.sent, |s.sessions[ch.of].history|)
    && (s.streams[ch.owner].role != who ==> Increasing(ch.sent, s.sessions[ch.of].history, who))
  }

  // ---- a message between append and hand-over ----------------------------------------

  /** The agents stream q may still send its message to. */
  function Pending(s: State, q: nat): set<string>
    requires InSession(s, q)
  {
    var pc := s.streams[q].pc;
    if pc.Appended? then SessOf(s, q).agents.Keys
    else if pc.ToAgents? then pc.pending
    else {}
  }

  /** Channel c belongs to a listener of the other side that stream q's message may still go to. */
  ghost predicate Awaits(s: State, q: nat, c: nat) {
    InSession(s, q) &&
    if s.streams[q].role.Customer?
    then exists n :: n in Pending(s, q) && n in SessOf(s, q).agents && SessOf(s, q).agents[n] == c
    else !s.streams[q].pc.ToAgents? && SessOf(s, q).cust == Some(c)
  }

  ghost predicate NothingLater(s: State, c: nat, who: Role, i: nat) {
    && c < |s.chans| && s.chans[c].of < |s.sessions|
    && AllBelow(s.chans[c].sent, s.sessions[s.chans[c].of].history, who, i)
  }

  /** What q carries is its own; and if q is of the given side, nothing newer went to the listeners still due. */
  ghost predicate FlightOk(s: State, q: nat, who: Role)
    requires On(s, q)
  {
    var st := s.streams[q];
    Carried(st.pc).Some? ==>
      && InSession(s, q)
      && var i := Carried(st.pc).value;
      && SaidBy(Posted(i), SessOf(s, q).history, st.role)
      && (st.role == who ==> forall c: nat :: Awaits(s, q, c) ==> NothingLater(s, c, who, i))
  }

  ghost predicate Order(s: State, who: Role) {
    && (forall c :: 0 <= c < |s.chans| ==> ChanOrder(s, c, who))
    && (forall q :: 0 <= q < |s.streams| ==> FlightOk(s, q, who))
  }

  // ---- what does not disturb it ----------------------------------------------------------------

  /** An item that is nil, or an entry of the history by the other side. */
  predicate Foreign(item: Item, history: seq<Entry>, who: Role) {
    item.Posted? ==> item.at < |history| && !From(history[item.at], who)
  }

  /** At most the session's history has grown, and an item put on the channel that the given side did not say. */
  ghost predicate Untouched(s: State, t: State, c: nat, who: Role) {
    && c < |s.chans| <= |t.chans|
    && var x := s.chans[c]; var y := t.chans[c];
    && y.of == x.of < |s.sessions| <= |t.sessions| && y.owner == x.owner
    && On(s, x.owner) && On(t, x.owner) && t.streams[x.owner].role == s.streams[x.owner].role
    && s.sessions[x.of].history <= t.sessions[x.of].history
    && (y.sent == x.sent || exists item :: y.sent == x.sent + [item] && Foreign(item, t.sessions[x.of].history, who))
  }

  ghost predicate Unused(t: State, c: nat) {
    c < |t.chans| && t.chans[c].of < |t.sessions| && On(t, t.chans[c].owner) && t.chans[c].sent == []
  }

  ghost predicate CalmLines(s: State, t: State, who: Role) {
    && |s.chans| <= |t.chans|
    && (forall c: nat :: c < |s.chans| ==> Untouched(s, t, c, who))
    && (forall c: nat :: |s.chans| <= c < |t.chans| ==> Unused(t, c))
  }

  /** Stream q carries what it carried, if anything, and to no other used channel. */
  ghost predicate CalmFlight(s: State, t: State, q: nat) {
    On(t, q) && Carried(t.streams[q].pc).Some? ==>
      && On(s, q) && Carried(s.streams[q].pc) == Carried(t.streams[q].pc) && t.streams[q].role == s.streams[q].role
      && InSession(s, q) && InSession(t, q) && SessOf(s, q).history <= SessOf(t, q).history
      && (forall c: nat :: Awaits(t, q, c) ==> Awaits(s, q, c) || Unused(t, c))
  }

  /** Nothing was put on a channel. */
  ghost predicate SameLines(s: State, t: State) {
    && |s.chans| <= |t.chans| && |s.sessions| <= |t.sessions| && |s.streams| <= |t.streams|
    && (forall c :: 0 <= c < |s.chans| ==>
          t.chans[c].sent == s.chans[c].sent && t.chans[c].of == s.chans[c].of && t.chans[c].owner == s.chans[c].owner)
    && (forall c: nat :: |s.chans| <= c < |t.chans| ==> Unused(t, c))
    && (forall k :: 0 <= k < |s.sessions| ==> s.sessions[k].history <= t.sessions[k].history)
    && (forall q :: 0 <= q < |s.streams| ==> t.streams[q].role == s.streams[q].role)
  }

  lemma SameLinesAreCalm(s: State, t: State, who: Role)
    requires Order(s, who) && SameLines(s, t)
    ensures CalmLines(s, t, who)
  {
    forall c: nat | c < |s.chans| ensures Untouched(s, t, c, who) { assert ChanOrder(s, c, who); }
  }

  lemma ChanStays(s: State, t: State, c: nat, who: Role)
    requires Untouched(s, t, c, who) && ChanOrder(s, c, who)
    ensures ChanOrder(t, c, who)
  {
  }

  lemma LaterStays(s: State, t: State, c: nat, who: Role, i: nat)
    requires Untouched(s, t, c, who) && ChanOrder(s, c, who) && NothingLater(s, c, who, i)
    ensures NothingLater(t, c, who, i)
  {
  }

  lemma LinesStay(s: State, t: State, who: Role)
    requires Order(s, who) && CalmLines(s, t, who)
    ensures forall c :: 0 <= c < |t.chans| ==> ChanOrder(t, c, who)
  {
    forall c | 0 <= c < |t.chans| ensures ChanOrder(t, c, who) {
      if c < |s.chans| {
        assert ChanOrder(s, c, who);
        ChanStays(s, t, c, who);
      } else {
        assert Unused(t, c);
      }
    }
  }

  lemma FlightStays(s: State, t: State, q: nat, who: Role)
    requires Order(s, who) && CalmLines(s, t, who) && On(t, q) && CalmFlight(s, t, q)
    ensures FlightOk(t, q, who)
  {
    if Carried(t.streams[q].pc).Some? {
      assert FlightOk(s, q, who);
      var i := Carried(t.streams[q].pc).value;
      forall c: nat | t.streams[q].role == who && Awaits(t, q, c) ensures NothingLater(t, c, who, i) {
        if !Unused(t, c) {
          assert NothingLater(s, c, who, i) && ChanOrder(s, c, who);
          LaterStays(s, t, c, who, i);
        }
      }
    }
  }

  lemma OrderStays(s: State, t: State, who: Role)
    requires Order(s, who) && CalmLines(s, t, who) && forall q: nat :: CalmFlight(s, t, q)
    ensures Order(t, who)
  {
    LinesStay(s, t, who);
    forall q | 0 <= q < |t.streams| ensures FlightOk(t, q, who) { FlightStays(s, t, q, who); }
  }

  // ---- opening, keeping quiet, joining -----------------------------------------------------------

  lemma OpenOrder(s: State, role: Role, name: string, who: Role)
    requires Order(s, who) && Enabled(s, Open(role, name))
    ensures Order(Apply(s, Open(role, name)), who)
  {
    var t := Apply(s, Open(role, name));
    SameLinesAreCalm(s, t, who);
    forall q: nat ensures CalmFlight(s, t, q) {
      if On(s, q) {
        assert FlightOk(s, q, who);
        forall c: nat | Awaits(t, q, c) ensures Awaits(s, q, c) { assert Pending(t, q) == Pending(s, q); }
      }
    }
    OrderStays(s, t, who);
  }

  lemma HushedFlight(s: State, t: State, p: nat, q: nat)
    requires Struct(s) && Hushed(s, t, p)
    ensures CalmFlight(s, t, q)
  {
    if On(s, q) && Carried(t.streams[q].pc).Some? {
      assert StreamOk(s, q);
      forall c: nat | Awaits(t, q, c) ensures Awaits(s, q, c) {
        if n :| s.streams[q].role.Customer? && n in Pending(t, q) && n in SessOf(t, q).agents && SessOf(t, q).agents[n] == c {
          assert n in Pending(s, q) && n in SessOf(s, q).agents;
        }
      }
    }
  }

  lemma HushedOrder(s: State, t: State, p: nat, who: Role)
    requires Struct(s) && Order(s, who) && Hushed(s, t, p)
    ensures Order(t, who)
  {
    SameLinesAreCalm(s, t, who);
    forall q: nat ensures CalmFlight(s, t, q) { HushedFlight(s, t, p, q); }
    OrderStays(s, t, who);
  }

  lemma JoinFlight(s: State, t: State, p: nat, k: nat, q: nat)
    requires Struct(s) && Joins(s, t, p, k)
    ensures CalmFlight(s, t, q)
  {
    if On(s, q) && Carried(t.streams[q].pc).Some? {
      assert StreamOk(s, q) && Unused(t, |s.chans|);
      forall c: nat | Awaits(t, q, c) && c != |s.chans| ensures Awaits(s, q, c) {
        if n :| s.streams[q].role.Customer? && n in Pending(t, q) && n in SessOf(t, q).agents && SessOf(t, q).agents[n] == c {
          assert n in Pending(s, q) && n in SessOf(s, q).agents;
        }
      }
    }
  }

  lemma JoinOrder(s: State, t: State, p: nat, k: nat, who: Role)
    requires Struct(s) && Order(s, who) && Joins(s, t, p, k)
    ensures Order(t, who)
  {
    SameLinesAreCalm(s, t, who);
    forall q: nat ensures CalmFlight(s, t, q) { JoinFlight(s, t, p, k, q); }
    OrderStays(s, t, who);
  }

  /** The session a stream is on, and what it carries, is the same apart from who reads. */
  ghost predicate SameMail(s: State, t: State, q: nat) {
    On(t, q) && Carried(t.streams[q].pc).Some? ==>
      && On(s, q) && Carried(s.streams[q].pc) == Carried(t.streams[q].pc) && t.streams[q].role == s.streams[q].role
      && InSession(s, q) && InSession(t, q) && SessOf(s, q).history <= SessOf(t, q).history
      && SessOf(t, q).agents == SessOf(s, q).agents && SessOf(t, q).cust == SessOf(s, q).cust
      && (s.streams[q].role.Customer? ==> Pending(t, q) <= Pending(s, q)) && (s.streams[q].pc.ToAgents? ==> t.streams[q].pc.ToAgents?)
  }

  lemma SameMailIsCalm(s: State, t: State, q: nat)
    requires SameMail(s, t, q)
    ensures CalmFlight(s, t, q)
  {
  }

  lemma CopyOrder(s: State, p: nat, who: Role)
    requires Struct(s) && Order(s, who) && Enabled(s, CopySession(p))
    ensures Order(Apply(s, CopySession(p)), who)
  {
    var t := Apply(s, CopySession(p));
    SameLinesAreCalm(s, t, who);
    forall q: nat ensures CalmFlight(s, t, q) {
      if On(s, q) { assert FlightOk(s, q, who); }
      SameMailIsCalm(s, t, q);
    }
    OrderStays(s, t, who);
  }

  // ---- saying something ------------------------------------------------------------------------

  lemma SpeakLines(s: State, t: State, p: nat, k: nat, more: seq<Entry>, who: Role)
    requires Order(s, who) && Speaks(s, t, p, k, more)
    ensures CalmLines(s, t, who)
  {
    SameLinesAreCalm(s, t, who);
  }

  lemma SpeakFlight(s: State, t: State, p: nat, k: nat, more: seq<Entry>, q: nat, who: Role)
    requires Order(s, who) && Speaks(s, t, p, k, more) && q != p
    ensures CalmFlight(s, t, q)
  {
    if On(s, q) { assert FlightOk(s, q, who); }
    SameMailIsCalm(s, t, q);
  }

  /** Nothing on the listeners of a session is newer than its history. */
  lemma AwaitedAreBehind(s: State, t: State, p: nat, k: nat, entry: Entry, c: nat, who: Role)
    requires Struct(s) && Order(s, who) && Speaks(s, t, p, k, [entry]) && Awaits(t, p, c)
    ensures c < |s.chans| && s.chans[c].of == k
    ensures NothingLater(t, c, who, |s.sessions[k].history|)
  {
    assert SessionOk(s, k);
    var sess := s.sessions[k];
    if s.streams[p].role.Customer? {
      var n :| n in Pending(t, p) && n in sess.agents && sess.agents[n] == c;
      RegisteredIsOpen(s, c, Agent, n, k);
    } else {
      RegisteredIsOpen(s, c, Customer, sess.custName, k);
    }
    assert ChanOrder(s, c, who);
  }

  lemma AppendFlight(s: State, t: State, p: nat, k: nat, entry: Entry, who: Role)
    requires Struct(s) && Order(s, who) && Speaks(s, t, p, k, [entry]) && From(entry, s.streams[p].role)
    requires t.streams[p].pc == Appended(|s.sessions[k].history|)
    ensures FlightOk(t, p, who)
  {
    var i := |s.sessions[k].history|;
    assert SessOf(t, p).history[i] == entry;
    forall c: nat | Awaits(t, p, c) ensures NothingLater(t, c, who, i) { AwaitedAreBehind(s, t, p, k, entry, c, who); }
  }

  /** Appending under the write lock: every listener still has all of the history before the entry at most. */
  lemma PostOrder(s: State, p: nat, text: string, who: Role)
    requires Struct(s) && Order(s, who) && Enabled(s, Post(p, text))
    ensures Order(Apply(s, Post(p, text)), who)
  {
    var t := Apply(s, Post(p, text));
    if s.streams[p].role.Agent? && !SessOf(s, p).active {
      MuteIsHushed(s, p, text);
      HushedOrder(s, t, p, who);
    } else {
      var k, entry := s.streams[p].sess.value, EntryOf(s.streams[p], text);
      PostSpeaks(s, p, text);
      SpeakLines(s, t, p, k, [entry], who);
      LinesStay(s, t, who);
      AppendFlight(s, t, p, k, entry, who);
      forall q | 0 <= q < |t.streams| ensures FlightOk(t, q, who) {
        if q != p {
          SpeakFlight(s, t, p, k, [entry], q, who);
          FlightStays(s, t, q, who);
        }
      }
    }
  }

  lemma GoOnSpeaks(s: State, a: Action)
    requires Struct(s) && Enabled(s, a) && (a.BeginSend? || a.TestCust?)
    ensures Speaks(s, Apply(s, a), a.p, s.streams[a.p].sess.value, [])
    ensures SameMail(s, Apply(s, a), a.p)
  {
    assert StreamOk(s, a.p);
    if a.BeginSend? { BeginSpeaks(s, a.p); } else { TestSpeaks(s, a.p); }
  }

  /** Going on to the listeners. */
  lemma GoOnOrder(s: State, a: Action, who: Role)
    requires Struct(s) && Order(s, who) && Enabled(s, a) && (a.BeginSend? || a.TestCust?)
    ensures Order(Apply(s, a), who)
  {
    var t, k := Apply(s, a), s.streams[a.p].sess.value;
    GoOnSpeaks(s, a);
    SpeakLines(s, t, a.p, k, [], who);
    forall q: nat ensures CalmFlight(s, t, q) {
      if q == a.p { SameMailIsCalm(s, t, q); } else { SpeakFlight(s, t, a.p, k, [], q, who); }
    }
    OrderStays(s, t, who);
  }

  // ---- handing over ----------------------------------------------------------------------------------

  /** Stream p hands its message, or nil, to a listener of its session. */
  ghost predicate Serves(s: State, t: State, p: nat, c: nat, item: Item, drop: bool, pc: Pc) {
    && Hands(s, t, p, c, item, drop, pc)
    && (item.Posted? ==> Carried(s.streams[p].pc) == Some(item.at))
    && s.chans[c].of == s.streams[p].sess.value
  }

  lemma ServeLine(s: State, t: State, p: nat, c: nat, item: Item, drop: bool, pc: Pc, d: nat, who: Role, any: Role)
    requires Order(s, any) && Serves(s, t, p, c, item, drop, pc) && d < |s.chans|
    requires d != c || drop || item.Ended? || s.streams[p].role != who
    ensures Untouched(s, t, d, who)
  {
    assert ChanOrder(s, d, any) && FlightOk(s, p, any);
    if d == c && !drop { assert t.chans[c].sent == s.chans[c].sent + [item]; }
  }

  predicate ListenerIs(s: State, c: nat, role: Role) {
    c < |s.chans| && On(s, s.chans[c].owner) && s.streams[s.chans[c].owner].role == role
  }

  lemma ServeChan(s: State, t: State, p: nat, c: nat, item: Item, drop: bool, pc: Pc, d: nat, who: Role)
    requires Order(s, who) && Serves(s, t, p, c, item, drop, pc) && d < |s.chans|
    requires item.Posted? && s.streams[p].role == who ==> Awaits(s, p, c) || ListenerIs(s, c, who)
    ensures ChanOrder(t, d, who)
  {
    assert ChanOrder(s, d, who) && FlightOk(s, p, who);
    if d == c && !drop && item.Posted? && s.streams[p].role == who {
      assert t.chans[c].sent == s.chans[c].sent + [item];
      if !ListenerIs(s, c, who) { assert NothingLater(s, c, who, item.at); }
    } else {
      ServeLine(s, t, p, c, item, drop, pc, d, who, who);
      ChanStays(s, t, d, who);
    }
  }

  /** A stream for which nothing changes but that channel c, which its message is not bound for, got an item. */
  lemma ServeFlight(s: State, t: State, p: nat, c: nat, item: Item, drop: bool, pc: Pc, q: nat, who: Role)
    requires Order(s, who) && Serves(s, t, p, c, item, drop, pc) && On(t, q) && SameMail(s, t, q)
    requires item.Posted? && s.streams[p].role == s.streams[q].role == who && Carried(t.streams[q].pc).Some? ==> !Awaits(t, q, c)
    ensures FlightOk(t, q, who)
  {
    if Carried(t.streams[q].pc).Some? {
      assert FlightOk(s, q, who);
      SameMailIsCalm(s, t, q);
      var i := Carried(t.streams[q].pc).value;
      forall d: nat | t.streams[q].role == who && Awaits(t, q, d) ensures NothingLater(t, d, who, i) {
        if Awaits(s, q, d) {
          assert NothingLater(s, d, who, i) && ChanOrder(s, d, who);
          ServeLine(s, t, p, c, item, drop, pc, d, who, who);
          LaterStays(s, t, d, who, i);
        }
      }
    }
  }

  /** Whoever a message may still go to listens on the session, from the other side. */
  lemma AwaitedListens(s: State, q: nat, c: nat)
    requires Struct(s) && Awaits(s, q, c)
    ensures c < |s.chans| && On(s, s.chans[c].owner) && s.chans[c].closes == 0 && s.chans[c].of == s.streams[q].sess.value
    ensures !ListenerIs(s, c, s.streams[q].role)
  {
    var k := s.streams[q].sess.value;
    assert SessionOk(s, k);
    if s.streams[q].role.Customer? {
      var n :| n in Pending(s, q) && n in SessOf(s, q).agents && SessOf(s, q).agents[n] == c;
      RegisteredIsOpen(s, c, Agent, n, k);
    } else {
      RegisteredIsOpen(s, c, Customer, s.sessions[k].custName, k);
    }
  }

  lemma CarrierIsAttached(s: State, q: nat)
    requires Struct(s) && On(s, q) && Carried(s.streams[q].pc).Some?
    ensures Attached(s.streams[q])
  {
    assert StreamOk(s, q);
  }

  lemma CustServes(s: State, p: nat, drop: bool)
    requires Struct(s) && Enabled(s, SendCust(p, drop))
    ensures SessOf(s, p).cust.Some? && Awaits(s, p, SessOf(s, p).cust.value) && s.streams[p].role.Agent?
    ensures var at := s.streams[p].pc.at;
            Serves(s, Apply(s, SendCust(p, drop)), p, SessOf(s, p).cust.value, Posted(at), drop,
                   ToAgents(Posted(at), OtherAgents(s, p)))
  {
    SendCustHands(s, p, drop);
    assert StreamOk(s, p);
    AwaitedListens(s, p, SessOf(s, p).cust.value);
  }

  lemma AgentServed(s: State, p: nat, to: string, drop: bool)
    requires Struct(s) && Enabled(s, SendAgent(p, to, drop))
    ensures ListenerIs(s, SessOf(s, p).agents[to], Agent)
    ensures Serves(s, Apply(s, SendAgent(p, to, drop)), p, SessOf(s, p).agents[to], s.streams[p].pc.item, drop,
                   ToAgents(s.streams[p].pc.item, s.streams[p].pc.pending - {to}))
  {
    SendAgentHands(s, p, to, drop);
    RegisteredIsOpen(s, SessOf(s, p).agents[to], Agent, to, s.streams[p].sess.value);
  }

  /** Handing the customer its copy: the agents' messages stay in order while an agent is alone. */
  lemma SendCustOrder(s: State, p: nat, drop: bool, who: Role)
    requires Struct(s) && Order(s, who) && Enabled(s, SendCust(p, drop)) && (who.Customer? || Token(s))
    ensures Order(Apply(s, SendCust(p, drop)), who)
  {
    var t := Apply(s, SendCust(p, drop));
    CustServes(s, p, drop);
    var c, item := SessOf(s, p).cust.value, Posted(s.streams[p].pc.at);
    var pc := ToAgents(item, OtherAgents(s, p));
    forall d | 0 <= d < |t.chans| ensures ChanOrder(t, d, who) { ServeChan(s, t, p, c, item, drop, pc, d, who); }
    forall q | 0 <= q < |t.streams| ensures FlightOk(t, q, who) {
      if q != p && who.Agent? && s.streams[q].role.Agent? && Carried(s.streams[q].pc).Some? && Awaits(s, q, c) {
        AwaitedListens(s, p, c);
        AwaitedListens(s, q, c);
        CarrierIsAttached(s, q);
        CarrierIsAttached(s, p);
        OneAgent(s, p, q);
      }
      assert FlightOk(s, q, who);
      ServeFlight(s, t, p, c, item, drop, pc, q, who);
    }
  }

  /** Serving the agents one by one, in whatever order the map is walked. */
  lemma SendAgentOrder(s: State, p: nat, to: string, drop: bool, who: Role)
    requires Struct(s) && Order(s, who) && Enabled(s, SendAgent(p, to, drop))
    ensures Order(Apply(s, SendAgent(p, to, drop)), who)
  {
    var t := Apply(s, SendAgent(p, to, drop));
    AgentServed(s, p, to, drop);
    var c, item := SessOf(s, p).agents[to], s.streams[p].pc.item;
    var pc := ToAgents(item, s.streams[p].pc.pending - {to});
    assert s.streams[p].role.Customer? ==> Awaits(s, p, c);
    forall d | 0 <= d < |t.chans| ensures ChanOrder(t, d, who) { ServeChan(s, t, p, c, item, drop, pc, d, who); }
    forall q | 0 <= q < |t.streams| ensures FlightOk(t, q, who) {
      assert FlightOk(s, q, who);
      if item.Posted? && Carried(t.streams[q].pc).Some? && s.streams[p].role == s.streams[q].role == who && Awaits(t, q, c) {
        ServedOnce(s, p, to, drop, q);
      }
      ServeFlight(s, t, p, c, item, drop, pc, q, who);
    }
  }

  /** After an agent was served, no message of the sender's side is bound for its channel. */
  lemma ServedOnce(s: State, p: nat, to: string, drop: bool, q: nat)
    requires Struct(s) && Enabled(s, SendAgent(p, to, drop)) && On(s, q) && s.streams[q].role == s.streams[p].role
    requires Carried(s.streams[q].pc).Some? && s.streams[p].pc.item.Posted?
    ensures !Awaits(Apply(s, SendAgent(p, to, drop)), q, SessOf(s, p).agents[to])
  {
    var t := Apply(s, SendAgent(p, to, drop));
    var c, k := SessOf(s, p).agents[to], s.streams[p].sess.value;
    AgentServed(s, p, to, drop);
    CarrierIsAttached(s, p);
    CarrierIsAttached(s, q);
    if q == p {
      assert SessionOk(s, k);
      forall n | n in SessOf(s, p).agents && n != to ensures SessOf(s, p).agents[n] != c {
        assert ListensOn(s, SessOf(s, p).agents[n], Agent, n, k);
      }
    } else if Awaits(t, q, c) {
      assert Pending(t, q) == Pending(s, q) && Awaits(s, q, c);
      AwaitedListens(s, q, c);
      if s.streams[p].role.Customer? { OneCustomer(s, p, q); }
    }
  }

  lemma TalkOrder(s: State, a: Action, who: Role)
    requires Struct(s) && Order(s, who) && (who.Customer? || Token(s)) && Enabled(s, a)
    requires !IsHush(a) && !IsSeating(a) && !a.Open? && !a.Receive?
    ensures Order(Apply(s, a), who)
  {
    if a.CopySession? { CopyOrder(s, a.p, who); }
    else if a.Post? { PostOrder(s, a.p, a.text, who); }
    else if a.SendCust? { SendCustOrder(s, a.p, a.drop, who); }
    else if a.SendAgent? { SendAgentOrder(s, a.p, a.to, a.drop, who); }
    else { GoOnOrder(s, a, who); }
  }

  /** The customer's messages stay in order in every step, the agents' while ids are tokens. */
  lemma OrderStep(s: State, a: Action, who: Role)
    requires Struct(s) && Order(s, who) && (who.Customer? || Token(s)) && Enabled(s, a)
    ensures Order(Apply(s, a), who)
  {
    if IsHush(a) { HushIsHushed(s, a); HushedOrder(s, Apply(s, a), a.p, who); }
    else if IsSeating(a) { SeatingJoins(s, a); JoinOrder(s, Apply(s, a), a.p, SeatTaken(s, a), who); }
    else if a.Open? { OpenOrder(s, a.role, a.name, who); }
    else if a.Receive? { ReceiveIsHushed(s, a.c); HushedOrder(s, Apply(s, a), s.chans[a.c].owner, who); }
    else { TalkOrder(s, a, who); }
  }
}
