/** What a whole request does to the chat server's state when nothing comes between its steps. */
module ChatHandling {
  import opened Wrappers
  import opened Int32
  import opened Queues
  import opened ChatModel
  import opened ChatPaths
  import opened ChatInvariant
  import opened ChatSafety
  import opened ChatToken

  lemma NextKeepsStruct(s: State, t: State)
    requires Struct(s) && Next(s, t)
    ensures Struct(t)
  {
    var a :| Enabled(s, a) && t == Apply(s, a);
    StructStep(s, a);
  }

  /** What a handler leaves behind is as good as what it found. */
  lemma LeadsKeepsStruct(s: State, t: State)
    requires Struct(s) && Leads(s, t)
    ensures Struct(t)
  {
    forall x, y | Struct(x) && Next(x, y) ensures Struct(y) { NextKeepsStruct(x, y); }
    Paths.ClosedHolds(Next, Struct, s, t);
  }

  /** A closed channel is on no session's list. */
  lemma ClosedIsUnlisted(s: State, c: nat, k: nat)
    requires Struct(s) && c < |s.chans| && s.chans[c].closes > 0 && k < |s.sessions|
    ensures s.sessions[k].cust != Some(c) && forall n :: n in s.sessions[k].agents ==> s.sessions[k].agents[n] != c
  {
    assert SessionOk(s, k);
    if s.sessions[k].cust == Some(c) {
      RegisteredIsOpen(s, c, Customer, s.sessions[k].custName, k);
    }
    forall n | n in s.sessions[k].agents ensures s.sessions[k].agents[n] != c {
      if s.sessions[k].agents[n] == c { RegisteredIsOpen(s, c, Agent, n, k); }
    }
  }

  // ---- a broadcast ----------------------------------------------------------------------------

  /** Channel c is that of an agent among the given who is not dropped. */
  ghost predicate Bound(sess: Session, to: set<string>, drop: set<string>, c: nat) {
    exists n :: n in to && n !in drop && n in sess.agents && sess.agents[n] == c
  }

  /** Channel c once the item has gone to the given agents. */
  ghost function Served(ch: Channel, sess: Session, to: set<string>, drop: set<string>, item: Item, c: nat): Channel {
    if Bound(sess, to, drop, c) then ch.(sent := ch.sent + [item]) else ch
  }

  /** No send to any of the given agents would have to wait. */
  ghost predicate NoWait(s: State, p: nat, to: set<string>, drop: set<string>) {
    InSession(s, p) && forall n :: n in to ==> n in SessOf(s, p).agents && CanSend(s, SessOf(s, p).agents[n], n in drop)
  }

  lemma AgentsDiffer(s: State, k: nat, n: string, m: string)
    requires Struct(s) && k < |s.sessions| && n in s.sessions[k].agents && m in s.sessions[k].agents && n != m
    ensures s.sessions[k].agents[n] != s.sessions[k].agents[m]
  {
    assert SessionOk(s, k);
    assert ListensOn(s, s.sessions[k].agents[n], Agent, n, k) && ListensOn(s, s.sessions[k].agents[m], Agent, m, k);
  }

  /** One more agent served. */
  lemma ServedNext(s: State, k: nat, to: set<string>, n: string, drop: set<string>, item: Item, c: nat)
    requires Struct(s) && k < |s.sessions| && n in s.sessions[k].agents && n !in to && c < |s.chans|
    requires forall m :: m in to ==> m in s.sessions[k].agents
    ensures var sess := s.sessions[k];
            Served(s.chans[c], sess, to + {n}, drop, item, c) ==
            if c == sess.agents[n] && n !in drop then s.chans[c].(sent := s.chans[c].sent + [item])
            else Served(s.chans[c], sess, to, drop, item, c)
    ensures s.sessions[k].agents[n] == c ==> Served(s.chans[c], s.sessions[k], to, drop, item, c) == s.chans[c]
  {
    var sess := s.sessions[k];
    forall m | m in to ensures sess.agents[m] != sess.agents[n] { AgentsDiffer(s, k, m, n); }
    if Bound(sess, to + {n}, drop, c) {
      var m :| m in to + {n} && m !in drop && m in sess.agents && sess.agents[m] == c;
      if m in to { assert Bound(sess, to, drop, c); }
    }
    if Bound(sess, to, drop, c) {
      var m :| m in to && m !in drop && m in sess.agents && sess.agents[m] == c;
      assert m in to + {n};
    }
    if c == sess.agents[n] && n !in drop {
      assert n in to + {n};
    }
  }

  /** In the middle of a broadcast: the agents in `rest` are still to come. */
  ghost predicate Broadcast(s: State, t: State, p: nat, item: Item, all: set<string>, rest: set<string>, drop: set<string>) {
    && InSession(s, p) && rest <= all
    && t == s.(streams := s.streams[p := s.streams[p].(pc := ToAgents(item, rest))], chans := t.chans)
    && |t.chans| == |s.chans|
    && forall c :: 0 <= c < |s.chans| ==> t.chans[c] == Served(s.chans[c], SessOf(s, p), all - rest, drop, item, c)
  }

  lemma BroadcastStarts(s: State, p: nat, drop: set<string>)
    requires InSession(s, p) && s.streams[p].pc.ToAgents?
    ensures Broadcast(s, s, p, s.streams[p].pc.item, s.streams[p].pc.pending, s.streams[p].pc.pending, drop)
  {
    var pc := s.streams[p].pc;
    assert pc.pending - pc.pending == {} && s.streams[p := s.streams[p].(pc := ToAgents(pc.item, pc.pending))] == s.streams;
  }

  lemma ServedBut(s: State, t: State, p: nat, item: Item, all: set<string>, rest: set<string>, drop: set<string>, n: string, c: nat)
    requires Struct(s) && Broadcast(s, t, p, item, all, rest, drop) && n in rest && c < |s.chans|
    requires forall m :: m in all ==> m in SessOf(s, p).agents
    ensures var own := SessOf(s, p).agents[n];
            && Served(s.chans[c], SessOf(s, p), all - (rest - {n}), drop, item, c) ==
               (if c == own && n !in drop then s.chans[c].(sent := s.chans[c].sent + [item])
                else Served(s.chans[c], SessOf(s, p), all - rest, drop, item, c))
            && (c == own ==> t.chans[c] == s.chans[c])
  {
    assert all - (rest - {n}) == all - rest + {n};
    ServedNext(s, s.streams[p].sess.value, all - rest, n, drop, item, c);
  }

  /** Whoever is still to come may be sent to now. */
  lemma BroadcastGoesOn(s: State, t: State, p: nat, item: Item, all: set<string>, rest: set<string>, drop: set<string>, n: string)
    requires Struct(s) && Broadcast(s, t, p, item, all, rest, drop) && NoWait(s, p, all, drop) && n in rest
    ensures CanSendAgent(t, p, n, n in drop) && t.chans[SessOf(t, p).agents[n]].closes == 0
  {
    ServedBut(s, t, p, item, all, rest, drop, n, SessOf(s, p).agents[n]);
    RegisteredStaysOpen(s, t, p, item, all, rest, drop, n);
  }

  lemma SentTo(t: State, p: nat, n: string, drop: bool)
    requires CanSendAgent(t, p, n, drop) && t.chans[SessOf(t, p).agents[n]].closes == 0
    ensures var pc, own := t.streams[p].pc, SessOf(t, p).agents[n];
            DoSendAgent(t, p, n, drop) ==
            t.(streams := t.streams[p := t.streams[p].(pc := ToAgents(pc.item, pc.pending - {n}))],
               chans := if drop then t.chans else t.chans[own := t.chans[own].(sent := t.chans[own].sent + [pc.item])])
  {
  }

  lemma BroadcastNext(s: State, t: State, p: nat, item: Item, all: set<string>, rest: set<string>, drop: set<string>, n: string)
    requires Struct(s) && Broadcast(s, t, p, item, all, rest, drop) && NoWait(s, p, all, drop) && n in rest
    ensures CanSendAgent(t, p, n, n in drop) && t.chans[SessOf(t, p).agents[n]].closes == 0
    ensures Broadcast(s, DoSendAgent(t, p, n, n in drop), p, item, all, rest - {n}, drop)
  {
    BroadcastGoesOn(s, t, p, item, all, rest, drop, n);
    var u := DoSendAgent(t, p, n, n in drop);
    SentTo(t, p, n, n in drop);
    forall c | 0 <= c < |s.chans|
      ensures u.chans[c] == Served(s.chans[c], SessOf(s, p), all - (rest - {n}), drop, item, c)
    {
      ServedBut(s, t, p, item, all, rest, drop, n, c);
    }
  }

  lemma RegisteredStaysOpen(s: State, t: State, p: nat, item: Item, all: set<string>, rest: set<string>, drop: set<string>, n: string)
    requires Struct(s) && Broadcast(s, t, p, item, all, rest, drop) && NoWait(s, p, all, drop) && n in rest
    ensures t.chans[SessOf(s, p).agents[n]].closes == 0
  {
    var own := SessOf(s, p).agents[n];
    assert SessionOk(s, s.streams[p].sess.value);
    RegisteredIsOpen(s, own, Agent, n, s.streams[p].sess.value);
  }

  // ---- what the handlers do ------------------------------------------------------------------

  /** The message is at the end of the history, every agent listed on the session was sent it once, unless its
      context is done, and nothing else is different. */
  ghost predicate CustomerSaid(s: State, t: State, p: nat, text: string, drop: set<string>) {
    && InSession(s, p)
    && var k, sess := s.streams[p].sess.value, SessOf(s, p);
    && t == s.(sessions := s.sessions[k := sess.(history := sess.history + [CustomerMsg(text)])],
               streams := s.streams[p := s.streams[p].(pc := Recv)], chans := t.chans)
    && |t.chans| == |s.chans|
    && forall c :: 0 <= c < |s.chans| ==>
         t.chans[c] == Served(s.chans[c], sess, sess.agents.Keys, drop, Posted(|sess.history|), c)
  }

  /** The same for an agent: the customer and every other agent were sent the message. */
  ghost predicate AgentSaid(s: State, t: State, p: nat, text: string, dropCust: bool, drop: set<string>) {
    && InSession(s, p)
    && var k, sess, item := s.streams[p].sess.value, SessOf(s, p), Posted(|SessOf(s, p).history|);
    && t == s.(sessions := s.sessions[k := sess.(history := sess.history + [AgentMsg(s.streams[p].name, text)])],
               streams := s.streams[p := s.streams[p].(pc := Recv)], chans := t.chans)
    && |t.chans| == |s.chans|
    && forall c :: 0 <= c < |s.chans| ==>
         if sess.cust == Some(c)
         then t.chans[c] == if dropCust then s.chans[c] else s.chans[c].(sent := s.chans[c].sent + [item])
         else t.chans[c] == Served(s.chans[c], sess, OtherAgents(s, p), drop, item, c)
  }

  /** The session is inactive, every agent on it was told once, its id leads nowhere and is queued one time less. */
  ghost predicate SessionClosed(s: State, t: State, p: nat, drop: set<string>) {
    && InSession(s, p)
    && var k, sess := s.streams[p].sess.value, SessOf(s, p);
    && t == s.(sessions := s.sessions[k := sess.(active := false)],
               bySession := s.bySession - {sess.id}, waiting := RemoveFirst(s.waiting, sess.id),
               streams := s.streams[p := s.streams[p].(pc := Unregister(Again))], chans := t.chans)
    && |t.chans| == |s.chans|
    && forall c :: 0 <= c < |s.chans| ==> t.chans[c] == Served(s.chans[c], sess, sess.agents.Keys, drop, Ended, c)
  }

  /** Stream p follows session k, in which it has taken a seat: it listens on an open channel of its own, has
      the history so far, and the session is otherwise what it was. */
  ghost predicate Joined(s: State, t: State, p: nat, k: nat, sess: Session) {
    && On(s, p) && k < |t.sessions| && t.sessions[k] == sess
    && t.chans == s.chans + [Channel(p, k, [], 0, false, 0)]
    && t.streams == s.streams[p := s.streams[p].(sess := Some(k), ch := |s.chans|, snap := Some(sess.history), pc := Recv)]
    && (if s.streams[p].role.Customer? then sess.cust == Some(|s.chans|)
        else s.streams[p].name in sess.agents && sess.agents[s.streams[p].name] == |s.chans|)
  }

  // ---- the steps around a broadcast ----------------------------------------------------------------

  /** Stream p has appended its message and holds the read lock, with all agents to come. */
  function Spoken(s: State, p: nat, text: string): State
    requires InSession(s, p)
  {
    var k, sess := s.streams[p].sess.value, SessOf(s, p);
    s.(sessions := s.sessions[k := sess.(history := sess.history + [CustomerMsg(text)], readers := {p})],
       streams := s.streams[p := s.streams[p].(pc := ToAgents(Posted(|sess.history|), sess.agents.Keys))])
  }

  lemma SayBegins(s: State, p: nat, text: string, drop: set<string>)
    requires !s.panicked && Struct(s) && Enabled(s, Post(p, text)) && s.streams[p].role.Customer?
    requires NoWait(s, p, SessOf(s, p).agents.Keys, drop)
    ensures Leads(s, Spoken(s, p, text)) && Struct(Spoken(s, p, text))
    ensures NoWait(Spoken(s, p, text), p, SessOf(s, p).agents.Keys, drop)
  {
    LeadsNowhere(s);
    LeadsOn(s, s, Post(p, text));
    var t := Apply(s, Post(p, text));
    LeadsOn(s, t, BeginSend(p));
    assert SessOf(t, p).readers + {p} == {p};
    assert Apply(t, BeginSend(p)).sessions == Spoken(s, p, text).sessions;
    assert Apply(t, BeginSend(p)).streams == Spoken(s, p, text).streams;
    LeadsKeepsStruct(s, Spoken(s, p, text));
  }

  /** Stream p lets go of the read lock. */
  function LetGo(s: State, p: nat, next: Pc): State
    requires InSession(s, p)
  {
    var k, sess := s.streams[p].sess.value, SessOf(s, p);
    s.(sessions := s.sessions[k := sess.(readers := sess.readers - {p})], streams := s.streams[p := s.streams[p].(pc := next)])
  }

  lemma BroadcastEnds(s: State, u: State, v: State, p: nat, item: Item, drop: set<string>)
    requires !u.panicked && InSession(u, p) && u.streams[p].pc.ToAgents? && Leads(s, u) && Leads(u, v)
    requires Broadcast(u, v, p, item, u.streams[p].pc.pending, {}, drop)
    ensures Leads(s, LetGo(v, p, if item.Ended? then Unlist else Recv))
  {
    LeadsThrough(s, u, v);
    LeadsOn(s, v, EndSend(p));
    assert Apply(v, EndSend(p)) == LetGo(v, p, if item.Ended? then Unlist else Recv);
  }

  lemma SayEnds(s: State, v: State, p: nat, text: string, drop: set<string>)
    requires !s.panicked && InSession(s, p) && SessOf(s, p).readers == {}
    requires Leads(s, Spoken(s, p, text)) && Leads(Spoken(s, p, text), v)
    requires Broadcast(Spoken(s, p, text), v, p, Posted(|SessOf(s, p).history|), SessOf(s, p).agents.Keys, {}, drop)
    ensures Leads(s, LetGo(v, p, Recv)) && CustomerSaid(s, LetGo(v, p, Recv), p, text, drop)
  {
    var item, all := Posted(|SessOf(s, p).history|), SessOf(s, p).agents.Keys;
    BroadcastEnds(s, Spoken(s, p, text), v, p, item, drop);
    assert all - {} == all && {p} - {p} == {};
    assert LetGo(v, p, Recv).sessions == s.sessions[s.streams[p].sess.value :=
             SessOf(s, p).(history := SessOf(s, p).history + [CustomerMsg(text)])];
  }

  /** The same for an agent, who has also served the customer. */
  function AgentSpoken(s: State, p: nat, text: string, drop: bool): State
    requires InSession(s, p) && (SessOf(s, p).cust.Some? ==> SessOf(s, p).cust.value < |s.chans|)
  {
    var k, sess := s.streams[p].sess.value, SessOf(s, p);
    var item := Posted(|sess.history|);
    s.(sessions := s.sessions[k := sess.(history := sess.history + [AgentMsg(s.streams[p].name, text)], readers := {p})],
       streams := s.streams[p := s.streams[p].(pc := ToAgents(item, OtherAgents(s, p)))],
       chans := if sess.cust.Some? && !drop
                then s.chans[sess.cust.value := s.chans[sess.cust.value].(sent := s.chans[sess.cust.value].sent + [item])]
                else s.chans)
  }

  /** An agent's message on an open session, and nobody it is for would have to be waited for. */
  ghost predicate AgentMaySay(s: State, p: nat, text: string, dropCust: bool, drop: set<string>) {
    && !s.panicked && Struct(s) && Enabled(s, Post(p, text)) && s.streams[p].role.Agent? && SessOf(s, p).active
    && (SessOf(s, p).cust.Some? ==> CanSend(s, SessOf(s, p).cust.value, dropCust))
    && NoWait(s, p, OtherAgents(s, p), drop)
  }

  lemma CustomerIsOpen(s: State, p: nat)
    requires Struct(s) && InSession(s, p) && SessOf(s, p).cust.Some?
    ensures SessOf(s, p).cust.value < |s.chans| && s.chans[SessOf(s, p).cust.value].closes == 0
    ensures forall n :: n in SessOf(s, p).agents ==> SessOf(s, p).agents[n] != SessOf(s, p).cust.value
  {
    var k := s.streams[p].sess.value;
    assert SessionOk(s, k);
    RegisteredIsOpen(s, SessOf(s, p).cust.value, Customer, SessOf(s, p).custName, k);
  }

  /** The agent has appended its message, holds the read lock, and has looked for the customer. */
  function AgentTested(s: State, p: nat, text: string): State
    requires InSession(s, p)
  {
    var k, sess := s.streams[p].sess.value, SessOf(s, p);
    var at := |sess.history|;
    s.(sessions := s.sessions[k := sess.(history := sess.history + [AgentMsg(s.streams[p].name, text)], readers := {p})],
       streams := s.streams[p := s.streams[p].(pc := if sess.cust.Some? then ToCust(at) else ToAgents(Posted(at), OtherAgents(s, p)))])
  }

  lemma AgentTests(s: State, p: nat, text: string)
    requires !s.panicked && Struct(s) && Enabled(s, Post(p, text)) && s.streams[p].role.Agent? && SessOf(s, p).active
    ensures Leads(s, AgentTested(s, p, text))
  {
    LeadsNowhere(s);
    LeadsOn(s, s, Post(p, text));
    var t := Apply(s, Post(p, text));
    LeadsOn(s, t, BeginSend(p));
    var u := Apply(t, BeginSend(p));
    LeadsOn(s, u, TestCust(p));
    assert SessOf(t, p).readers + {p} == {p};
    assert Apply(u, TestCust(p)).sessions == AgentTested(s, p, text).sessions;
    assert Apply(u, TestCust(p)).streams == AgentTested(s, p, text).streams;
  }

  lemma AgentBegins(s: State, p: nat, text: string, dropCust: bool, drop: set<string>)
    requires AgentMaySay(s, p, text, dropCust, drop)
    ensures SessOf(s, p).cust.Some? ==> SessOf(s, p).cust.value < |s.chans|
    ensures var t := AgentSpoken(s, p, text, dropCust); Leads(s, t) && Struct(t) && NoWait(t, p, OtherAgents(s, p), drop)
  {
    AgentTests(s, p, text);
    if SessOf(s, p).cust.Some? {
      CustomerIsOpen(s, p);
      var t := AgentTested(s, p, text);
      LeadsOn(s, t, SendCust(p, dropCust));
      assert Apply(t, SendCust(p, dropCust)).streams == AgentSpoken(s, p, text, dropCust).streams;
    }
    LeadsKeepsStruct(s, AgentSpoken(s, p, text, dropCust));
  }

  lemma AgentEnds(s: State, v: State, p: nat, text: string, dropCust: bool, drop: set<string>)
    requires AgentMaySay(s, p, text, dropCust, drop) && (SessOf(s, p).cust.Some? ==> SessOf(s, p).cust.value < |s.chans|)
    requires Leads(s, AgentSpoken(s, p, text, dropCust)) && Leads(AgentSpoken(s, p, text, dropCust), v)
    requires Broadcast(AgentSpoken(s, p, text, dropCust), v, p, Posted(|SessOf(s, p).history|), OtherAgents(s, p), {}, drop)
    ensures Leads(s, LetGo(v, p, Recv)) && AgentSaid(s, LetGo(v, p, Recv), p, text, dropCust, drop)
  {
    var item, all := Posted(|SessOf(s, p).history|), OtherAgents(s, p);
    BroadcastEnds(s, AgentSpoken(s, p, text, dropCust), v, p, item, drop);
    if SessOf(s, p).cust.Some? { CustomerIsOpen(s, p); }
    assert all - {} == all && {p} - {p} == {};
    assert LetGo(v, p, Recv).sessions == s.sessions[s.streams[p].sess.value :=
             SessOf(s, p).(history := SessOf(s, p).history + [AgentMsg(s.streams[p].name, text)])];
  }

  /** An agent whose session was closed says nothing and is on its way out. */
  lemma AgentIsMute(s: State, p: nat, text: string)
    requires !s.panicked && Enabled(s, Post(p, text)) && s.streams[p].role.Agent? && !SessOf(s, p).active
    ensures Leads(s, At(s, p, Unregister(Exit)))
  {
    LeadsNowhere(s);
    LeadsOn(s, s, Post(p, text));
  }

  /** Stream p has closed its session and holds the read lock, with all agents to be told. */
  function Ending(s: State, p: nat): State
    requires InSession(s, p)
  {
    var k, sess := s.streams[p].sess.value, SessOf(s, p);
    s.(sessions := s.sessions[k := sess.(active := false, readers := {p})],
       streams := s.streams[p := s.streams[p].(pc := ToAgents(Ended, sess.agents.Keys))])
  }

  lemma CloseBegins(s: State, p: nat, drop: set<string>)
    requires !s.panicked && Struct(s) && Enabled(s, HangUp(p)) && SessOf(s, p).active
    requires NoWait(s, p, SessOf(s, p).agents.Keys, drop)
    ensures Leads(s, Ending(s, p)) && Struct(Ending(s, p)) && NoWait(Ending(s, p), p, SessOf(s, p).agents.Keys, drop)
  {
    LeadsNowhere(s);
    LeadsOn(s, s, HangUp(p));
    var t := Apply(s, HangUp(p));
    LeadsOn(s, t, BeginEnd(p));
    assert SessOf(t, p).readers + {p} == {p};
    assert Apply(t, BeginEnd(p)).sessions == Ending(s, p).sessions;
    assert Apply(t, BeginEnd(p)).streams == Ending(s, p).streams;
    LeadsKeepsStruct(s, Ending(s, p));
  }

  /** Stream p lets go of the read lock, and the session is forgotten. */
  function Forgotten(v: State, p: nat): State
    requires InSession(v, p)
  {
    var k, sess := v.streams[p].sess.value, SessOf(v, p);
    v.(sessions := v.sessions[k := sess.(readers := sess.readers - {p})],
       bySession := v.bySession - {sess.id}, waiting := RemoveFirst(v.waiting, sess.id),
       streams := v.streams[p := v.streams[p].(pc := Unregister(Again))])
  }

  lemma Forgets(s: State, v: State, p: nat)
    requires !v.panicked && InSession(v, p) && v.mu.None?
    requires Leads(s, LetGo(v, p, Unlist))
    ensures Leads(s, Forgotten(v, p))
  {
    var w := LetGo(v, p, Unlist);
    LeadsOn(s, w, RemoveSession(p));
    assert Apply(w, RemoveSession(p)).streams == Forgotten(v, p).streams;
  }

  lemma CloseEnds(s: State, v: State, p: nat, drop: set<string>)
    requires !s.panicked && InSession(s, p) && SessOf(s, p).readers == {} && s.mu.None?
    requires Leads(s, Ending(s, p)) && Leads(Ending(s, p), v)
    requires Broadcast(Ending(s, p), v, p, Ended, SessOf(s, p).agents.Keys, {}, drop)
    ensures Leads(s, Forgotten(v, p)) && SessionClosed(s, Forgotten(v, p), p, drop)
  {
    BroadcastEnds(s, Ending(s, p), v, p, Ended, drop);
    Forgets(s, v, p);
    assert SessOf(s, p).agents.Keys - {} == SessOf(s, p).agents.Keys && {p} - {p} == {};
    assert Forgotten(v, p).sessions == s.sessions[s.streams[p].sess.value := SessOf(s, p).(active := false)];
  }

  lemma CloseAgain(s: State, p: nat)
    requires !s.panicked && Enabled(s, HangUp(p)) && !SessOf(s, p).active
    ensures Leads(s, At(s, p, Unregister(Again)))
  {
    LeadsNowhere(s);
    LeadsOn(s, s, HangUp(p));
  }

  /** Stream p has given up its seat; with the last agent the id is queued. */
  function Vacant(s: State, p: nat): State
    requires HasChan(s, p) && s.streams[p].pc.Unregister?
  {
    var st, k, sess := s.streams[p], s.streams[p].sess.value, SessOf(s, p);
    s.(waiting := if st.role.Agent? && OtherAgents(s, p) == {} then s.waiting + [sess.id] else s.waiting,
       sessions := s.sessions[k := Vacated(sess, st)],
       streams := s.streams[p := st.(pc := Cancel(st.pc.after))])
  }

  /** And then its channel is closed. */
  function Cleaned(s: State, p: nat): State
    requires HasChan(s, p) && s.streams[p].pc.Unregister?
  {
    var st := s.streams[p];
    Vacant(s, p).(chans := s.chans[st.ch := s.chans[st.ch].(cancelled := true, closes := 1)],
                  streams := s.streams[p := st.(sess := None, pc := Onward(st.pc.after))])
  }

  function Onward(after: After): Pc {
    match after case Serve => Ready case Again => Recv case Exit => Done
  }

  /** No session lists a channel that was closed. */
  lemma ClosedIsNowhere(s: State, c: nat)
    requires Struct(s) && c < |s.chans| && s.chans[c].closes > 0
    ensures forall k :: 0 <= k < |s.sessions| ==>
              s.sessions[k].cust != Some(c) && forall n :: n in s.sessions[k].agents ==> s.sessions[k].agents[n] != c
  {
    forall k | 0 <= k < |s.sessions|
      ensures s.sessions[k].cust != Some(c) && forall n :: n in s.sessions[k].agents ==> s.sessions[k].agents[n] != c
    {
      ClosedIsUnlisted(s, c, k);
    }
  }

  lemma Vacates(s: State, p: nat)
    requires !s.panicked && Struct(s) && Enabled(s, Detach(p))
    ensures HasChan(s, p) && s.chans[s.streams[p].ch].closes == 0 && Leads(s, Vacant(s, p))
  {
    assert StreamOk(s, p);
    LeadsNowhere(s);
    LeadsOn(s, s, Detach(p));
    assert (SessOf(s, p).agents - {s.streams[p].name}).Keys == OtherAgents(s, p);
    assert Apply(s, Detach(p)).waiting == Vacant(s, p).waiting;
  }

  lemma ShutsDown(t: State, p: nat)
    requires !t.panicked && HasChan(t, p) && t.streams[p].pc.Cancel? && t.chans[t.streams[p].ch].closes == 0
    ensures var st := t.streams[p];
            Leads(t, t.(chans := t.chans[st.ch := t.chans[st.ch].(cancelled := true, closes := 1)],
                        streams := t.streams[p := st.(sess := None, pc := Onward(st.pc.after))]))
  {
    LeadsNowhere(t);
    LeadsOn(t, t, CancelListener(p));
    var u := Apply(t, CancelListener(p));
    LeadsOn(t, u, CloseChannel(p));
    var st := t.streams[p];
    assert Apply(u, CloseChannel(p)).chans == t.chans[st.ch := t.chans[st.ch].(cancelled := true, closes := 1)];
    assert Apply(u, CloseChannel(p)).streams == t.streams[p := st.(sess := None, pc := Onward(st.pc.after))];
  }

  lemma CleansUp(s: State, p: nat)
    requires !s.panicked && Struct(s) && Enabled(s, Detach(p))
    ensures HasChan(s, p) && s.chans[s.streams[p].ch].closes == 0
    ensures Leads(s, Cleaned(s, p)) && Struct(Cleaned(s, p))
  {
    Vacates(s, p);
    ShutsDown(Vacant(s, p), p);
    assert Vacant(s, p).streams[p := s.streams[p].(sess := None, pc := Onward(s.streams[p].pc.after))] == Cleaned(s, p).streams;
    LeadsThrough(s, Vacant(s, p), Cleaned(s, p));
    LeadsKeepsStruct(s, Cleaned(s, p));
  }

  // ---- a stream that leaves --------------------------------------------------------------------------

  /** An agent stream on a session that was closed. */
  predicate Stranded(s: State, p: nat) {
    InSession(s, p) && s.streams[p].role.Agent? && !SessOf(s, p).active
  }

  /** The stream is off its session and goes on at pc; its channel was open and is closed for good, on no session's
      list; and an agent's session, left by its last agent, has its id at the end of the queue. */
  ghost predicate Left(s: State, t: State, p: nat, pc: Pc) {
    && HasChan(s, p)
    && var st, k, sess := s.streams[p], s.streams[p].sess.value, SessOf(s, p);
    && t == s.(streams := s.streams[p := st.(sess := None, pc := pc)],
               sessions := s.sessions[k := if st.role.Customer? then sess.(cust := None) else sess.(agents := sess.agents - {st.name})],
               chans := s.chans[st.ch := s.chans[st.ch].(cancelled := true, closes := 1)],
               waiting := s.waiting + if st.role.Agent? && sess.agents.Keys <= {st.name} then [sess.id] else [])
    && s.chans[st.ch].closes == 0
    && forall j :: 0 <= j < |t.sessions| ==>
         t.sessions[j].cust != Some(st.ch) && forall n :: n in t.sessions[j].agents ==> t.sessions[j].agents[n] != st.ch
  }

  lemma RequestLeads(s: State, p: nat)
    requires !s.panicked && Struct(s) && Enabled(s, Request(p))
    ensures s.streams[p].sess.Some? ==> InSession(s, p)
    ensures var t := At(s, p, if Stranded(s, p) then Unregister(Serve) else Ready);
            Leads(s, t) && Struct(t)
  {
    assert StreamOk(s, p);
    LeadsNowhere(s);
    LeadsOn(s, s, Request(p));
    LeadsKeepsStruct(s, Apply(s, Request(p)));
  }

  lemma ReturnLeads(s: State, p: nat)
    requires !s.panicked && Struct(s) && Enabled(s, Return(p))
    ensures s.streams[p].sess.Some? ==> InSession(s, p)
    ensures var t := At(s, p, if s.streams[p].sess.Some? then Unregister(Exit) else Done);
            Leads(s, t) && Struct(t)
  {
    assert StreamOk(s, p);
    LeadsNowhere(s);
    LeadsOn(s, s, Return(p));
    LeadsKeepsStruct(s, Apply(s, Return(p)));
  }

  /** Through the cleanup. */
  lemma CleanedIsLeft(t: State, u: State, p: nat, after: After)
    requires Struct(u) && HasChan(t, p) && t.streams[p].pc == Unregister(after) && u == Cleaned(t, p)
    requires t.chans[t.streams[p].ch].closes == 0
    ensures Left(t, u, p, match after case Serve => Ready case Again => Recv case Exit => Done)
  {
    ClosedIsNowhere(u, t.streams[p].ch);
    var sess := SessOf(t, p);
    assert sess.agents.Keys <= {t.streams[p].name} <==> sess.agents.Keys - {t.streams[p].name} == {};
  }

  lemma LeftFrom(s: State, t: State, u: State, p: nat, pc: Pc, out: Pc)
    requires InSession(s, p) && t == At(s, p, out) && Left(t, u, p, pc)
    ensures Left(s, u, p, pc)
  {
    assert t.streams[p := t.streams[p].(sess := None, pc := pc)] == s.streams[p := s.streams[p].(sess := None, pc := pc)];
  }

  /** On its way out, and then through the cleanup. */
  lemma LeavesSession(s: State, t: State, u: State, p: nat, after: After)
    requires Struct(s) && InSession(s, p) && t == At(s, p, Unregister(after)) && Leads(s, t) && Leads(t, u)
    requires HasChan(t, p) && u == Cleaned(t, p) && t.chans[t.streams[p].ch].closes == 0
    ensures Leads(s, u) && Struct(u)
    ensures Left(s, u, p, match after case Serve => Ready case Again => Recv case Exit => Done)
  {
    LeadsThrough(s, t, u);
    LeadsKeepsStruct(s, u);
    CleanedIsLeft(t, u, p, after);
    LeftFrom(s, t, u, p, match after case Serve => Ready case Again => Recv case Exit => Done, Unregister(after));
  }

  lemma FreeToAccept(s: State, u: State, p: nat)
    requires Left(s, u, p, Ready) && s.streams[p].role.Agent? && s.mu.None?
    ensures forall want :: Enabled(u, Accept(p, want))
  {
  }

  lemma MayCleanUp(s: State, t: State, p: nat, drop: set<string>)
    requires Enabled(s, HangUp(p)) && s.mu.None? && !s.panicked
    requires if SessOf(s, p).active then SessionClosed(s, t, p, drop) else t == At(s, p, Unregister(Again))
    ensures !t.panicked && Enabled(t, Detach(p)) && t.streams[p].pc == Unregister(Again)
  {
  }

  // ---- the steps of joining ------------------------------------------------------------------------

  /** Stream p has its seat in session k, which becomes sess, and has copied it. */
  function Placed(s: State, p: nat, k: nat, sess: Session): State
    requires On(s, p) && k < |s.sessions|
  {
    s.(sessions := s.sessions[k := sess], chans := s.chans + [Channel(p, k, [], 0, false, 0)],
       streams := s.streams[p := s.streams[p].(sess := Some(k), ch := |s.chans|, snap := Some(sess.history), pc := Recv)])
  }

  lemma Copies(t: State, p: nat)
    requires !t.panicked && InSession(t, p) && t.streams[p].pc.Copying?
    ensures Leads(t, t.(streams := t.streams[p := t.streams[p].(snap := Some(SessOf(t, p).history), pc := Recv)]))
  {
    LeadsNowhere(t);
    LeadsOn(t, t, CopySession(p));
  }

  /** The three tests of resumeSession. */
  predicate MayResume(s: State, p: nat, id: int)
    requires CanResume(s, p, id)
  {
    id in s.bySession
    && var sess := s.sessions[s.bySession[id]]; sess.custName == s.streams[p].name && sess.active && sess.cust.None?
  }

  lemma ResumeFails(s: State, p: nat, id: int)
    requires !s.panicked && Enabled(s, ResumeCheck(p, id)) && !MayResume(s, p, id)
    ensures Leads(s, if id in s.bySession then At(s, p, Done) else s.(panicked := true))
  {
    LeadsNowhere(s);
    LeadsOn(s, s, ResumeCheck(p, id));
    var t := Apply(s, ResumeCheck(p, id));
    if id in s.bySession && t.streams[p].pc.ResumeSeat? {
      LeadsOn(s, t, ResumeTest(p));
      assert Apply(t, ResumeTest(p)).streams == At(s, p, Done).streams;
    }
  }

  lemma Resumes(s: State, p: nat, id: int)
    requires !s.panicked && Enabled(s, ResumeCheck(p, id)) && MayResume(s, p, id)
    ensures var k := s.bySession[id]; Leads(s, Placed(s, p, k, s.sessions[k].(cust := Some(|s.chans|))))
  {
    var k := s.bySession[id];
    LeadsNowhere(s);
    LeadsOn(s, s, ResumeCheck(p, id));
    var t := Apply(s, ResumeCheck(p, id));
    LeadsOn(s, t, ResumeTest(p));
    var u := Apply(t, ResumeTest(p));
    LeadsOn(s, u, ResumeSet(p));
    var v := Apply(u, ResumeSet(p));
    Copies(v, p);
    var w := v.(streams := v.streams[p := v.streams[p].(snap := Some(SessOf(v, p).history), pc := Recv)]);
    assert w.streams == Placed(s, p, k, s.sessions[k].(cust := Some(|s.chans|))).streams;
    LeadsThrough(s, v, w);
  }

  /** The write lock of the session that would be accepted is free. */
  ghost predicate LockIsFree(s: State, want: Option<int>)
  {
    Chosen(s, want).Some? && Chosen(s, want).value in s.bySession && s.bySession[Chosen(s, want).value] < |s.sessions|
    ==> s.sessions[s.bySession[Chosen(s, want).value]].readers == {}
  }

  lemma KnownIsThere(s: State, id: int)
    requires Struct(s) && id in s.bySession
    ensures s.bySession[id] < |s.sessions|
  {
  }

  lemma AcceptFails(s: State, p: nat, want: Option<int>)
    requires !s.panicked && Enabled(s, Accept(p, want))
    requires Chosen(s, want).Some? ==> Chosen(s, want).value !in s.bySession
    ensures var left := if Chosen(s, want).Some? then RemoveFirst(s.waiting, Chosen(s, want).value) else s.waiting;
            Leads(s, At(s, p, Done).(waiting := left))
  {
    LeadsNowhere(s);
    LeadsOn(s, s, Accept(p, want));
  }

  lemma Accepts(s: State, p: nat, want: Option<int>, k: nat)
    requires !s.panicked && Enabled(s, Accept(p, want)) && Chosen(s, want).Some? && k < |s.sessions|
    requires Chosen(s, want).value in s.bySession && s.bySession[Chosen(s, want).value] == k && s.sessions[k].readers == {}
    ensures var sess := s.sessions[k].(agents := s.sessions[k].agents[s.streams[p].name := |s.chans|]);
            Leads(s, Placed(s, p, k, sess).(waiting := RemoveFirst(s.waiting, Chosen(s, want).value)))
  {
    LeadsNowhere(s);
    LeadsOn(s, s, Accept(p, want));
    var t := Apply(s, Accept(p, want));
    LeadsOn(s, t, Register(p));
    var u := Apply(t, Register(p));
    Copies(u, p);
    var w := u.(streams := u.streams[p := u.streams[p].(snap := Some(SessOf(u, p).history), pc := Recv)]);
    var sess := s.sessions[k].(agents := s.sessions[k].agents[s.streams[p].name := |s.chans|]);
    assert w.streams == Placed(s, p, k, sess).streams;
    LeadsThrough(s, u, w);
  }

  lemma Opens(s: State, p: nat)
    requires !s.panicked && Enabled(s, NewSession(p))
    ensures var id, k := Wrap32(s.lastSession + 1), |s.sessions|;
            var sess := Session(id, s.streams[p].name, true, Some(|s.chans|), map[], [], {});
            Leads(s, Placed(s.(sessions := s.sessions + [sess]), p, k, sess)
                       .(lastSession := id, waiting := s.waiting + [id], bySession := s.bySession[id := k]))
  {
    LeadsNowhere(s);
    LeadsOn(s, s, NewSession(p));
    var t := Apply(s, NewSession(p));
    Copies(t, p);
    var w := t.(streams := t.streams[p := t.streams[p].(snap := Some(SessOf(t, p).history), pc := Recv)]);
    var sess := Session(t.lastSession, s.streams[p].name, true, Some(|s.chans|), map[], [], {});
    assert (s.sessions + [sess])[|s.sessions| := sess] == s.sessions + [sess];
    assert w.streams == Placed(s.(sessions := s.sessions + [sess]), p, |s.sessions|, sess).streams;
    LeadsThrough(s, t, w);
  }
}
