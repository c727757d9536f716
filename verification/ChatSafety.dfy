/** What holds of locks, seats and channels in every state the server can reach, however many sessions there were. */
module ChatSafety {
  import opened ChatModel
  import opened ChatInvariant
  import opened ChatFrames

  predicate IsJoin(a: Action) {
    || a.NewSession? || a.ResumeCheck? || a.ResumeTest? || a.ResumeSet?
    || a.CopySession? || a.Accept? || a.Register?
  }

  lemma StructCome(s: State, a: Action)
    requires Struct(s) && Enabled(s, a) && IsJoin(a) && !IsMove(a)
    ensures Struct(Apply(s, a))
  {
    if a.NewSession? { StructNewSession(s, a.p); }
    else if a.ResumeCheck? { StructResumeCheck(s, a.p, a.id); }
    else if a.ResumeTest? { StructResumeTest(s, a.p); }
    else if a.ResumeSet? { StructResumeSet(s, a.p); }
    else if a.Accept? { StructAccept(s, a.p, a.want); }
    else { StructRegister(s, a.p); }
  }

  lemma StructRest(s: State, a: Action)
    requires Struct(s) && Enabled(s, a) && !IsJoin(a) && !IsMove(a)
    ensures Struct(Apply(s, a))
  {
    if a.Open? { StructOpen(s, a.role, a.name); }
    else if a.Receive? { StructReceive(s, a.c); }
    else if a.SendCust? { StructSendCust(s, a.p, a.drop); }
    else if a.SendAgent? { StructSendAgent(s, a.p, a.to, a.drop); }
    else if a.Detach? { StructDetach(s, a.p); }
    else { StructCloseChannel(s, a.p); }
  }

  lemma StructStep(s: State, a: Action)
    requires Struct(s) && Enabled(s, a)
    ensures Struct(Apply(s, a))
  {
    if IsMove(a) {
      Moving(s, a);
      StructMove(s, Apply(s, a), a.p);
    }
    else if IsJoin(a) { StructCome(s, a); }
    else { StructRest(s, a); }
  }

  lemma PanicStep(s: State, a: Action)
    requires Struct(s) && Enabled(s, a)
    ensures Apply(s, a).panicked <==> s.panicked || Crashes(s, a)
  {
    if IsSend(a) { SendOnly(s, a); }
    else if a.CloseChannel? { assert StreamOk(s, a.p); }
  }

  /** Every reachable state, with no bound on anything. */
  lemma {:induction false} RunStruct(states: seq<State>, i: nat)
    requires IsRun(states) && i < |states|
    ensures Struct(states[i])
  {
    if i > 0 {
      RunStruct(states, i - 1);
      assert Next(states[i-1], states[i]);
      var a :| Enabled(states[i-1], a) && states[i] == Apply(states[i-1], a);
      StructStep(states[i-1], a);
    }
  }

  // ---- the main results --------------------------------------------------------------------

  /** A run panics exactly when it resumes an id that is not in the map: no interleaving sends on
      a closed channel, closes one twice, or follows a listener that is gone. */
  lemma PanicsExactly(states: seq<State>, i: nat, a: Action)
    requires IsRun(states) && i < |states| && !states[i].panicked && Enabled(states[i], a)
    ensures Apply(states[i], a).panicked <==> a.ResumeCheck? && a.id !in states[i].bySession
  {
    RunStruct(states, i);
    PanicStep(states[i], a);
  }

  /** A send that is about to happen has an open channel to go to. */
  lemma SendsHitOpenChannels(states: seq<State>, i: nat, p: nat)
    requires IsRun(states) && i < |states| && InSession(states[i], p)
    ensures states[i].streams[p].pc.ToCust? ==>
              SessOf(states[i], p).cust.Some?
              && SessOf(states[i], p).cust.value < |states[i].chans|
              && states[i].chans[SessOf(states[i], p).cust.value].closes == 0
    ensures states[i].streams[p].pc.ToAgents? ==>
              forall n :: n in states[i].streams[p].pc.pending ==>
                n in SessOf(states[i], p).agents
                && SessOf(states[i], p).agents[n] < |states[i].chans|
                && states[i].chans[SessOf(states[i], p).agents[n]].closes == 0
  {
    var s := states[i];
    RunStruct(states, i);
    var k := s.streams[p].sess.value;
    assert StreamOk(s, p) && SessionOk(s, k);
    var sess := SessOf(s, p);
    if s.streams[p].pc.ToCust? { RegisteredIsOpen(s, sess.cust.value, Customer, sess.custName, k); }
    if s.streams[p].pc.ToAgents? {
      forall n | n in s.streams[p].pc.pending
        ensures n in sess.agents && sess.agents[n] < |s.chans| && s.chans[sess.agents[n]].closes == 0
      {
        RegisteredIsOpen(s, sess.agents[n], Agent, n, k);
      }
    }
  }

  /** Nobody has to wait for a stream whose client is gone: a send to it can be given up. */
  lemma GoneIsNotWaitedFor(s: State, p: nat, c: nat)
    requires On(s, p) && c < |s.chans| && s.chans[c].owner == p
    ensures Enabled(s, Disconnect(p)) && CanSend(Apply(s, Disconnect(p)), c, true)
  {
  }

  predicate IsLists(a: Action) {
    a.NewSession? || a.Accept? || a.RemoveSession? || a.Detach?
  }

  /** The queue, the map and the counter. */
  predicate SameLists(s: State, t: State) {
    t.waiting == s.waiting && t.bySession == s.bySession && t.lastSession == s.lastSession
  }

  lemma SpeakersLeaveTheLists(s: State, a: Action)
    requires Enabled(s, a) && (IsVoice(a) || IsSend(a))
    ensures SameLists(s, Apply(s, a))
  {
  }

  lemma JoinersLeaveTheLists(s: State, a: Action)
    requires Enabled(s, a) && IsJoin(a) && !IsLists(a)
    ensures SameLists(s, Apply(s, a))
  {
  }

  lemma OthersLeaveTheLists(s: State, a: Action)
    requires Enabled(s, a) && !IsLists(a) && !IsVoice(a) && !IsSend(a) && !IsJoin(a)
    ensures SameLists(s, Apply(s, a))
  {
  }

  /** While a stream is inside a section of the server's lock nobody touches the queue, the map or the counter. */
  lemma ListsAreGuarded(s: State, a: Action)
    requires Enabled(s, a) && s.mu.Some?
    ensures SameLists(s, Apply(s, a))
  {
    if a.Detach? {
      var left := SessOf(s, a.p).agents - {s.streams[a.p].name};
      assert s.streams[a.p].role.Agent? ==> left.Keys == OtherAgents(s, a.p);
    }
    else if IsLists(a) { }
    else if IsVoice(a) || IsSend(a) { SpeakersLeaveTheLists(s, a); }
    else if IsJoin(a) { JoinersLeaveTheLists(s, a); }
    else { OthersLeaveTheLists(s, a); }
  }

  lemma BusyAsStreamsCome(s: State, a: Action, k: nat)
    requires Enabled(s, a) && IsJoin(a) && !a.ResumeSet? && k < |s.sessions| && s.sessions[k].readers != {}
    ensures k < |Apply(s, a).sessions| && Apply(s, a).sessions[k] == s.sessions[k]
  {
  }

  lemma BusyWhileSending(s: State, a: Action, k: nat)
    requires Enabled(s, a) && IsSend(a) && k < |s.sessions|
    ensures k < |Apply(s, a).sessions| && Apply(s, a).sessions[k] == s.sessions[k]
  {
  }

  lemma BusyWhileSpeaking(s: State, a: Action, k: nat)
    requires Enabled(s, a) && IsVoice(a) && k < |s.sessions| && s.sessions[k].readers != {}
    ensures k < |Apply(s, a).sessions| && Apply(s, a).sessions[k].(readers := s.sessions[k].readers) == s.sessions[k]
  {
  }

  /** Whoever hangs up or leaves has to wait. */
  lemma BusyWhileParting(s: State, a: Action, k: nat)
    requires Enabled(s, a) && (a.HangUp? || a.Detach?) && k < |s.sessions| && s.sessions[k].readers != {}
    ensures k < |Apply(s, a).sessions| && Apply(s, a).sessions[k] == s.sessions[k]
  {
  }

  lemma BusyOtherwise(s: State, a: Action)
    requires Enabled(s, a) && !IsJoin(a) && !IsSend(a) && !IsVoice(a) && !a.HangUp? && !a.Detach?
    ensures Apply(s, a).sessions == s.sessions
  {
  }

  /** Nothing of a session changes while a broadcast reads it, but for the seat a resuming customer takes, and that
      seat is then empty: the one write the session's own lock does not guard takes no listener away. */
  lemma ReadersSeeNoWrites(states: seq<State>, i: nat, a: Action, k: nat)
    requires IsRun(states) && i < |states| && Enabled(states[i], a)
    requires k < |states[i].sessions| && states[i].sessions[k].readers != {}
    ensures var s := states[i]; var t := Apply(s, a);
            k < |t.sessions| && t.sessions[k].(cust := s.sessions[k].cust, readers := s.sessions[k].readers) == s.sessions[k]
    ensures var s := states[i]; var t := Apply(s, a);
            t.sessions[k].cust != s.sessions[k].cust ==> a.ResumeSet? && s.sessions[k].cust.None?
  {
    RunStruct(states, i);
    if a.ResumeSet? { assert StreamOk(states[i], a.p); }
    else if IsJoin(a) { BusyAsStreamsCome(states[i], a, k); }
    else if IsSend(a) { BusyWhileSending(states[i], a, k); }
    else if IsVoice(a) { BusyWhileSpeaking(states[i], a, k); }
    else if a.HangUp? || a.Detach? { BusyWhileParting(states[i], a, k); }
    else { BusyOtherwise(states[i], a); }
  }

  /** A channel is open exactly while its owner still has it; once the owner is gone it was closed once. */
  lemma ClosedExactlyOnce(states: seq<State>, i: nat, c: nat)
    requires IsRun(states) && i < |states| && c < |states[i].chans|
    ensures var s := states[i]; var ch := s.chans[c];
            && On(s, ch.owner)
            && ch.closes == if s.streams[ch.owner].sess.Some? && s.streams[ch.owner].ch == c then 0 else 1
  {
    RunStruct(states, i);
    var s := states[i];
    assert ChanOk(s, c) && StreamOk(s, s.chans[c].owner);
  }

  lemma OthersDoNotClose(s: State, a: Action, c: nat)
    requires Struct(s) && Enabled(s, a) && !a.CloseChannel? && c < |s.chans|
    ensures c < |Apply(s, a).chans| && Apply(s, a).chans[c].closes == s.chans[c].closes
  {
    if IsSend(a) {
      SendOnly(s, a);
      assert Apply(s, a).chans[c].(sent := []) == s.chans[c].(sent := []);
    }
  }

  /** Only the stream that owns a channel ever closes it. */
  lemma ClosedByOwner(states: seq<State>, i: nat, a: Action, c: nat)
    requires IsRun(states) && i < |states|
    requires Enabled(states[i], a) && c < |states[i].chans|
    ensures c < |Apply(states[i], a).chans|
    ensures Apply(states[i], a).chans[c].closes != states[i].chans[c].closes ==> a == CloseChannel(states[i].chans[c].owner)
  {
    RunStruct(states, i);
    if a.CloseChannel? {
      assert StreamOk(states[i], a.p);
    } else {
      OthersDoNotClose(states[i], a, c);
    }
  }

  /** Two customer streams never share a session. */
  lemma OneCustomer(s: State, p: nat, q: nat)
    requires Struct(s) && On(s, p) && On(s, q) && Attached(s.streams[p]) && Attached(s.streams[q])
    requires s.streams[p].role.Customer? && s.streams[q].role.Customer? && s.streams[p].sess == s.streams[q].sess
    ensures p == q
  {
    assert StreamOk(s, p) && StreamOk(s, q);
  }

  lemma CustomersAreExclusive(states: seq<State>, i: nat, p: nat, q: nat)
    requires IsRun(states) && i < |states| && On(states[i], p) && On(states[i], q)
    requires Attached(states[i].streams[p]) && Attached(states[i].streams[q])
    requires states[i].streams[p].role.Customer? && states[i].streams[q].role.Customer?
    requires states[i].streams[p].sess == states[i].streams[q].sess
    ensures p == q
  {
    RunStruct(states, i);
    OneCustomer(states[i], p, q);
  }
}
