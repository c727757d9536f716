/** The chat server's handlers over mutable fields, each run by itself from one wait to the next.
    Every one of them is a sequence of the protocol's steps, so what holds of all runs holds of it. */
module ChatServer {
  import opened Wrappers
  import opened Int32
  import opened Queues
  import opened ChatModel
  import opened ChatPaths
  import opened ChatInvariant
  import opened ChatToken
  import opened ChatHandling

  class Server {
    var mu: Option<nat>
    var lastSession: int
    var chatsAwaitingAgent: seq<int>
    var chatsBySession: map<int, nat>
    var sessions: seq<Session>
    var streams: seq<Stream>
    var chans: seq<Channel>
    var panicked: bool

    ghost function View(): State
      reads this
    {
      State(mu, lastSession, chatsAwaitingAgent, chatsBySession, sessions, streams, chans, panicked)
    }

    constructor ()
      ensures View() == INITIAL && Struct(View())
    {
      mu, lastSession, chatsAwaitingAgent, chatsBySession := None, 0, [], map[];
      sessions, streams, chans, panicked := [], [], [], false;
    }

    /** The loop both acceptSession and closeSession run over the queue: delete the first match. */
    method DeleteWaiting(id: int) returns (found: bool)
      modifies this`chatsAwaitingAgent
      ensures found <==> id in old(chatsAwaitingAgent)
      ensures chatsAwaitingAgent == RemoveFirst(old(chatsAwaitingAgent), id)
    {
      found := false;
      var i := 0;
      while i < |chatsAwaitingAgent|
        invariant 0 <= i <= |chatsAwaitingAgent|
        invariant chatsAwaitingAgent == old(chatsAwaitingAgent) && id !in chatsAwaitingAgent[..i] && !found
      {
        if chatsAwaitingAgent[i] == id {
          chatsAwaitingAgent := DeleteAt(chatsAwaitingAgent, i, id);
          return true;
        }
        i := i + 1;
      }
      RemoveAbsent(chatsAwaitingAgent, id);
    }

    /** listener.send to one agent: the item goes into its channel, unless its context is done. */
    method SendTo(p: nat, n: string, drop: bool)
      requires CanSendAgent(View(), p, n, drop) && chans[SessOf(View(), p).agents[n]].closes == 0
      modifies this`streams, this`chans
      ensures View() == DoSendAgent(old(View()), p, n, drop)
    {
      var c := sessions[streams[p].sess.value].agents[n];
      var pc := streams[p].pc;
      if !drop {
        chans := chans[c := chans[c].(sent := chans[c].sent + [pc.item])];
      }
      streams := streams[p := streams[p].(pc := ToAgents(pc.item, pc.pending - {n}))];
    }

    /** The loop over sess.agents of both kinds of message and of closeSession, in any order the map
        is walked: every agent still due is sent the item once, and no other channel is touched. */
    method SendToAgents(p: nat, drop: set<string>)
      requires !panicked && Struct(View()) && InSession(View(), p) && streams[p].pc.ToAgents?
      requires NoWait(View(), p, streams[p].pc.pending, drop)
      modifies this`streams, this`chans
      ensures Leads(old(View()), View())
      ensures Broadcast(old(View()), View(), p, old(streams)[p].pc.item, old(streams)[p].pc.pending, {}, drop)
    {
      ghost var s := View();
      ghost var item, all := streams[p].pc.item, streams[p].pc.pending;
      var rest := streams[p].pc.pending;
      LeadsNowhere(s);
      BroadcastStarts(s, p, drop);
      while rest != {}
        invariant Broadcast(s, View(), p, item, all, rest, drop) && Leads(s, View())
        decreases rest
      {
        ghost var t := View();
        var n :| n in rest;
        BroadcastNext(s, t, p, item, all, rest, drop, n);
        LeadsOn(s, t, SendAgent(p, n, n in drop));
        SendTo(p, n, n in drop);
        rest := rest - {n};
      }
    }

    /** ChatCustomer on a message. */
    method Say(p: nat, text: string, drop: set<string>)
      requires !panicked && Struct(View()) && Enabled(View(), Post(p, text)) && streams[p].role.Customer?
      requires NoWait(View(), p, SessOf(View(), p).agents.Keys, drop)
      modifies this`sessions, this`streams, this`chans
      ensures Leads(old(View()), View())
      ensures CustomerSaid(old(View()), View(), p, text, drop)
    {
      ghost var s := View();
      SayBegins(s, p, text, drop);
      var k := streams[p].sess.value;
      var at := |sessions[k].history|;
      sessions := sessions[k := sessions[k].(history := sessions[k].history + [CustomerMsg(text)])];
      sessions := sessions[k := sessions[k].(readers := sessions[k].readers + {p})];
      streams := streams[p := streams[p].(pc := ToAgents(Posted(at), sessions[k].agents.Keys))];
      assert SessOf(s, p).readers + {p} == {p} && View().sessions == Spoken(s, p, text).sessions;
      SendToAgents(p, drop);
      SayEnds(s, View(), p, text, drop);
      sessions := sessions[k := sessions[k].(readers := sessions[k].readers - {p})];
      streams := streams[p := streams[p].(pc := Recv)];
    }

    /** ChatAgent on a message. */
    method AgentSay(p: nat, text: string, dropCust: bool, drop: set<string>)
      requires !panicked && Struct(View()) && Enabled(View(), Post(p, text)) && streams[p].role.Agent?
      requires SessOf(View(), p).active ==> AgentMaySay(View(), p, text, dropCust, drop)
      modifies this`sessions, this`streams, this`chans
      ensures Leads(old(View()), View())
      ensures if SessOf(old(View()), p).active then AgentSaid(old(View()), View(), p, text, dropCust, drop)
              else View() == At(old(View()), p, Unregister(Exit))
    {
      if sessions[streams[p].sess.value].active {
        AgentTell(p, text, dropCust, drop);
      } else {
        AgentIsMute(View(), p, text);
        streams := streams[p := streams[p].(pc := Unregister(Exit))];
      }
    }

    /** What ChatAgent does with a message on an open session. */
    method AgentTell(p: nat, text: string, dropCust: bool, drop: set<string>)
      requires AgentMaySay(View(), p, text, dropCust, drop)
      modifies this`sessions, this`streams, this`chans
      ensures Leads(old(View()), View())
      ensures AgentSaid(old(View()), View(), p, text, dropCust, drop)
    {
      ghost var s := View();
      AgentBegins(s, p, text, dropCust, drop);
      var st := streams[p];
      var k := st.sess.value;
      var item := Posted(|sessions[k].history|);
      sessions := sessions[k := sessions[k].(history := sessions[k].history + [AgentMsg(st.name, text)])];
      sessions := sessions[k := sessions[k].(readers := sessions[k].readers + {p})];
      if sessions[k].cust.Some? && !dropCust {
        var c := sessions[k].cust.value;
        chans := chans[c := chans[c].(sent := chans[c].sent + [item])];
      }
      streams := streams[p := st.(pc := ToAgents(item, sessions[k].agents.Keys - {st.name}))];
      assert SessOf(s, p).readers + {p} == {p} && View().sessions == AgentSpoken(s, p, text, dropCust).sessions;
      assert View() == AgentSpoken(s, p, text, dropCust);
      SendToAgents(p, drop);
      AgentEnds(s, View(), p, text, dropCust, drop);
      sessions := sessions[k := sessions[k].(readers := sessions[k].readers - {p})];
      streams := streams[p := streams[p].(pc := Recv)];
    }

    /** closeSession: only the first to close does anything. */
    method CloseSession(p: nat, drop: set<string>)
      requires !panicked && Struct(View()) && Enabled(View(), HangUp(p)) && mu.None?
      requires SessOf(View(), p).active ==> NoWait(View(), p, SessOf(View(), p).agents.Keys, drop)
      modifies this`sessions, this`streams, this`chans, this`chatsBySession, this`chatsAwaitingAgent
      ensures Leads(old(View()), View())
      ensures if SessOf(old(View()), p).active then SessionClosed(old(View()), View(), p, drop)
              else View() == At(old(View()), p, Unregister(Again))
    {
      ghost var s := View();
      var k := streams[p].sess.value;
      if !sessions[k].active {
        CloseAgain(s, p);
        streams := streams[p := streams[p].(pc := Unregister(Again))];
        return;
      }
      CloseBegins(s, p, drop);
      sessions := sessions[k := sessions[k].(active := false)];
      sessions := sessions[k := sessions[k].(readers := sessions[k].readers + {p})];
      streams := streams[p := streams[p].(pc := ToAgents(Ended, sessions[k].agents.Keys))];
      assert SessOf(s, p).readers + {p} == {p} && View() == Ending(s, p);
      SendToAgents(p, drop);
      CloseEnds(s, View(), p, drop);
      Forget(p);
    }

    /** The end of closeSession: the read lock is let go, and the session's id leads nowhere. */
    method Forget(p: nat)
      requires InSession(View(), p)
      modifies this`sessions, this`streams, this`chatsBySession, this`chatsAwaitingAgent
      ensures View() == Forgotten(old(View()), p)
    {
      var k := streams[p].sess.value;
      sessions := sessions[k := sessions[k].(readers := sessions[k].readers - {p})];
      chatsBySession := chatsBySession - {sessions[k].id};
      var _ := DeleteWaiting(sessions[k].id);
      streams := streams[p := streams[p].(pc := Unregister(Again))];
    }

    /** What the cleanup closures do under the session's lock. */
    method Vacate(p: nat)
      requires HasChan(View(), p) && streams[p].pc.Unregister?
      modifies this`sessions, this`streams, this`chatsAwaitingAgent
      ensures View() == Vacant(old(View()), p)
    {
      var st := streams[p];
      var k := st.sess.value;
      if st.role.Customer? {
        sessions := sessions[k := sessions[k].(cust := None)];
      } else {
        ghost var others := OtherAgents(View(), p);
        sessions := sessions[k := sessions[k].(agents := sessions[k].agents - {st.name})];
        assert sessions[k].agents.Keys == others;
        if |sessions[k].agents| == 0 {
          chatsAwaitingAgent := chatsAwaitingAgent + [sessions[k].id];
        }
      }
      streams := streams[p := st.(pc := Cancel(st.pc.after))];
    }

    /** Both cleanup closures.  The stream is off its session, its channel closed for the first time and on no
        session's list; the id of a session that loses its last agent is queued, closed or not. */
    method Cleanup(p: nat)
      requires !panicked && Struct(View()) && Enabled(View(), Detach(p))
      modifies this`sessions, this`streams, this`chans, this`chatsAwaitingAgent
      ensures Leads(old(View()), View())
      ensures HasChan(old(View()), p) && View() == Cleaned(old(View()), p)
      ensures var c := old(streams)[p].ch;
              && old(chans)[c].closes == 0 && chans[c].closes == 1 && streams[p].sess.None?
              && forall k :: 0 <= k < |sessions| ==>
                   sessions[k].cust != Some(c) && forall n :: n in sessions[k].agents ==> sessions[k].agents[n] != c
    {
      ghost var s := View();
      CleansUp(s, p);
      var st := streams[p];
      Vacate(p);
      chans := chans[st.ch := chans[st.ch].(cancelled := true, closes := chans[st.ch].closes + 1)];
      streams := streams[p := st.(sess := None, pc := Onward(st.pc.after))];
      assert View() == Cleaned(s, p);
      ClosedIsNowhere(Cleaned(s, p), st.ch);
    }

    /** A request arrives.  An agent whose session was closed meanwhile first leaves it, and is then free to accept
        another; for every other stream nothing but its place changes. */
    method NextRequest(p: nat)
      requires !panicked && Struct(View()) && Enabled(View(), Request(p))
      requires Stranded(View(), p) ==> SessOf(View(), p).readers == {} && mu.None?
      modifies this`sessions, this`streams, this`chans, this`chatsAwaitingAgent
      ensures Leads(old(View()), View()) && Struct(View())
      ensures Stranded(old(View()), p) ==> Left(old(View()), View(), p, Ready)
      ensures Stranded(old(View()), p) ==> forall want :: Enabled(View(), Accept(p, want))
      ensures !Stranded(old(View()), p) ==> View() == old(View()).(streams := old(streams)[p := old(streams)[p].(pc := Ready)])
    {
      hide Left, Leads, Struct;
      ghost var s := View();
      RequestLeads(s, p);
      var st := streams[p];
      if st.role.Agent? && st.sess.Some? && !sessions[st.sess.value].active {
        streams := streams[p := st.(pc := Unregister(Serve))];
        ghost var t := View();
        Cleanup(p);
        LeavesSession(s, t, View(), p, Serve);
        FreeToAccept(s, View(), p);
      } else {
        streams := streams[p := st.(pc := Ready)];
      }
    }

    /** The client hangs up, or leaves: the session is closed if it was not yet, the stream is off it, and waits
        for what comes next.  In between, at `closed`, the stream still had its seat. */
    method Leave(p: nat, drop: set<string>) returns (ghost closed: State)
      requires !panicked && Struct(View()) && Enabled(View(), HangUp(p)) && mu.None?
      requires SessOf(View(), p).active ==> NoWait(View(), p, SessOf(View(), p).agents.Keys, drop)
      modifies this`sessions, this`streams, this`chans, this`chatsBySession, this`chatsAwaitingAgent
      ensures Leads(old(View()), View()) && Struct(View())
      ensures if SessOf(old(View()), p).active then SessionClosed(old(View()), closed, p, drop)
              else closed == At(old(View()), p, Unregister(Again))
      ensures Left(closed, View(), p, Recv)
    {
      ghost var s := View();
      CloseSession(p, drop);
      closed := View();
      LeadsKeepsStruct(s, closed);
      MayCleanUp(s, closed, p, drop);
      Cleanup(p);
      LeadsThrough(s, closed, View());
      LeadsKeepsStruct(s, View());
      CleanedIsLeft(closed, View(), p, Again);
    }

    /** The stream ends, because its client is done or its request is refused: the deferred cleanup. */
    method Finish(p: nat)
      requires !panicked && Struct(View()) && Enabled(View(), Return(p))
      requires InSession(View(), p) ==> SessOf(View(), p).readers == {} && mu.None?
      modifies this`sessions, this`streams, this`chans, this`chatsAwaitingAgent
      ensures Leads(old(View()), View()) && Struct(View())
      ensures old(streams)[p].sess.Some? ==> Left(old(View()), View(), p, Done)
      ensures old(streams)[p].sess.None? ==> View() == old(View()).(streams := old(streams)[p := old(streams)[p].(pc := Done)])
    {
      ghost var s := View();
      ReturnLeads(s, p);
      var st := streams[p];
      if st.sess.Some? {
        streams := streams[p := st.(pc := Unregister(Exit))];
        ghost var t := View();
        Cleanup(p);
        LeavesSession(s, t, View(), p, Exit);
      } else {
        streams := streams[p := st.(pc := Done)];
      }
    }

    /** A listener's goroutine takes the oldest item it has not had. */
    method TakeItem(c: nat) returns (item: Item)
      requires !panicked && Enabled(View(), Receive(c))
      modifies this`chans
      ensures Leads(old(View()), View())
      ensures item == old(chans)[c].sent[old(chans)[c].taken]
      ensures chans == old(chans)[c := old(chans)[c].(taken := old(chans)[c].taken + 1)]
    {
      LeadsNowhere(View());
      LeadsOn(View(), View(), Receive(c));
      item := chans[c].sent[chans[c].taken];
      chans := chans[c := chans[c].(taken := chans[c].taken + 1)];
    }

    /** make(chan), the listener over it, and the copy of the session that the client gets. */
    method Listen(p: nat, k: nat)
      requires p < |streams| && k < |sessions|
      modifies this`chans, this`streams
      ensures chans == old(chans) + [Channel(p, k, [], 0, false, 0)]
      ensures streams == old(streams)[p := old(streams)[p].(sess := Some(k), ch := |old(chans)|, snap := Some(sessions[k].history), pc := Recv)]
    {
      streams := streams[p := streams[p].(sess := Some(k), ch := |chans|, snap := Some(sessions[k].history), pc := Recv)];
      chans := chans + [Channel(p, k, [], 0, false, 0)];
    }

    /** newSession: the customer follows a session of its own, empty and active, whose id is queued last and known. */
    method OpenSession(p: nat)
      requires !panicked && Enabled(View(), NewSession(p))
      modifies this`lastSession, this`chatsAwaitingAgent, this`chatsBySession, this`sessions, this`chans, this`streams
      ensures Leads(old(View()), View())
      ensures |sessions| == |old(sessions)| + 1 && sessions[..|old(sessions)|] == old(sessions)
      ensures var k := |old(sessions)|; var sess := sessions[k];
              && Joined(old(View()), View(), p, k, sess) && sess.active && sess.agents == map[] && sess.history == []
              && sess.custName == old(streams)[p].name && sess.id == lastSession
              && chatsAwaitingAgent == old(chatsAwaitingAgent) + [sess.id]
              && chatsBySession == old(chatsBySession)[sess.id := k]
    {
      Opens(View(), p);
      lastSession := Wrap32(lastSession + 1);
      chatsAwaitingAgent := chatsAwaitingAgent + [lastSession];
      var k := |sessions|;
      var sess := Session(lastSession, streams[p].name, true, Some(|chans|), map[], [], {});
      sessions := sessions + [sess];
      assert sessions[k := sess] == sessions;
      chatsBySession := chatsBySession[lastSession := k];
      Listen(p, k);
    }

    /** resumeSession: the customer follows the session if it is its own, open, and has no customer stream;
        an unknown id is a panic; otherwise nothing happens and the stream is done. */
    method ResumeSession(p: nat, id: int) returns (ok: bool)
      requires !panicked && Enabled(View(), ResumeCheck(p, id))
      modifies this`sessions, this`chans, this`streams, this`panicked
      ensures Leads(old(View()), View())
      ensures ok <==> MayResume(old(View()), p, id)
      ensures panicked <==> id !in chatsBySession
      ensures ok ==> var k := chatsBySession[id];
                && Joined(old(View()), View(), p, k, old(sessions)[k].(cust := Some(|old(chans)|)))
                && sessions == old(sessions)[k := sessions[k]]
      ensures !ok && !panicked ==> View() == At(old(View()), p, Done)
    {
      ghost var s := View();
      if id !in chatsBySession {
        ResumeFails(s, p, id);
        panicked := true;
        return false;
      }
      var k := chatsBySession[id];
      ok := sessions[k].custName == streams[p].name && sessions[k].active && sessions[k].cust.None?;
      if ok {
        Resumes(s, p, id);
        sessions := sessions[k := sessions[k].(cust := Some(|chans|))];
        Listen(p, k);
      } else {
        ResumeFails(s, p, id);
        streams := streams[p := streams[p].(pc := Done)];
      }
    }

    /** The section of acceptSession that takes an id off the queue: the first, or the wanted one if it is there. */
    method TakeId(want: Option<int>) returns (id: Option<int>)
      modifies this`chatsAwaitingAgent
      ensures want.None? && old(chatsAwaitingAgent) != [] ==>
                id == Some(old(chatsAwaitingAgent)[0]) && chatsAwaitingAgent == old(chatsAwaitingAgent)[1..]
      ensures want.Some? ==> id == if want.value in old(chatsAwaitingAgent) then want else None
      ensures want.None? && old(chatsAwaitingAgent) == [] ==> id == None
      ensures chatsAwaitingAgent == if id.Some? then RemoveFirst(old(chatsAwaitingAgent), id.value) else old(chatsAwaitingAgent)
    {
      if |chatsAwaitingAgent| == 0 {
        return None;
      }
      if want.None? {
        id := Some(chatsAwaitingAgent[0]);
        chatsAwaitingAgent := chatsAwaitingAgent[1..];
      } else {
        var found := DeleteWaiting(want.value);
        id := if found then want else None;
        if !found { RemoveAbsent(old(chatsAwaitingAgent), want.value); }
      }
    }

    /** acceptSession: if the id taken off the queue still leads to a session, the agent follows that. */
    method AcceptSession(p: nat, want: Option<int>) returns (ok: bool)
      requires !panicked && Struct(View()) && Enabled(View(), Accept(p, want))
      requires LockIsFree(View(), want)
      modifies this`chatsAwaitingAgent, this`sessions, this`chans, this`streams
      ensures Leads(old(View()), View())
      ensures var queue := old(chatsAwaitingAgent);
              var id := if want.None? && queue != [] then Some(queue[0]) else want;
              && (ok <==> id.Some? && id.value in queue && id.value in chatsBySession)
              && chatsAwaitingAgent == (if id.Some? then RemoveFirst(queue, id.value) else queue)
              && (ok ==>
                    var k := chatsBySession[id.value];
                    && k < |old(sessions)| == |sessions| && sessions == old(sessions)[k := sessions[k]]
                    && Joined(old(View()), View(), p, k,
                         old(sessions)[k].(agents := old(sessions)[k].agents[old(streams)[p].name := |old(chans)|])))
      ensures !ok ==> sessions == old(sessions) && chans == old(chans) && streams == old(streams)[p := old(streams)[p].(pc := Done)]
    {
      hide Struct, Leads, RemoveFirst;
      ghost var s := View();
      if want.Some? && want.value !in chatsAwaitingAgent { RemoveAbsent(chatsAwaitingAgent, want.value); }
      var id := TakeId(want);
      assert id == Chosen(s, want);
      ok := id.Some? && id.value in chatsBySession;
      if ok {
        var k := chatsBySession[id.value];
        KnownIsThere(s, id.value);
        Accepts(s, p, want, k);
        sessions := sessions[k := sessions[k].(agents := sessions[k].agents[streams[p].name := |chans|])];
        Listen(p, k);
      } else {
        AcceptFails(s, p, want);
        streams := streams[p := streams[p].(pc := Done)];
      }
    }
  }
}
