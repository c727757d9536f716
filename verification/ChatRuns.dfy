/** The chat protocol over whole runs: the token and what follows from it, and that nothing is missed. */
module ChatRuns {
  import opened Wrappers
  import opened Int32
  import opened Queues
  import opened ChatModel
  import opened ChatInvariant
  import opened ChatSafety
  import opened ChatToken
  import opened ChatSeats
  import opened ChatFrames
  import opened ChatGaps
  import opened ChatOrder
  import opened ChatSides

  lemma Stepped(states: seq<State>, i: nat) returns (a: Action)
    requires IsRun(states) && 0 < i < |states|
    ensures Struct(states[i-1]) && Enabled(states[i-1], a) && states[i] == Apply(states[i-1], a)
  {
    RunStruct(states, i - 1);
    assert Next(states[i-1], states[i]);
    a :| Enabled(states[i-1], a) && states[i] == Apply(states[i-1], a);
  }

  lemma {:induction false} RunIds(states: seq<State>, i: nat)
    requires IsRun(states) && i < |states|
    ensures IdsOk(states[i])
  {
    if i > 0 {
      RunIds(states, i - 1);
      var a := Stepped(states, i);
      IdsStep(states[i-1], a);
    }
  }

  // ---- the token ------------------------------------------------------------------------------

  /** If the step opened a session, the id it handed out was new. */
  ghost predicate FreshStep(s: State, t: State) {
    |t.sessions| > |s.sessions| ==> FreshId(s)
  }

  ghost predicate FreshUpTo(states: seq<State>, i: nat)
    requires i < |states|
  {
    forall j :: 0 < j <= i ==> FreshStep(states[j-1], states[j])
  }

  lemma FreshBefore(states: seq<State>, i: nat, j: nat)
    requires j <= i < |states| && FreshUpTo(states, i)
    ensures FreshUpTo(states, j)
  {
  }

  lemma StepIsFresh(s: State, a: Action)
    requires Struct(s) && IdsOk(s) && Token(s) && Enabled(s, a)
    ensures Token(Apply(s, a)) <==> FreshStep(s, Apply(s, a))
  {
    SessionsStay(s, a);
    TokenStep(s, a);
  }

  lemma StepOfRunIsFresh(states: seq<State>, i: nat)
    requires IsRun(states) && 0 < i < |states| && Token(states[i-1])
    ensures Token(states[i]) <==> FreshStep(states[i-1], states[i])
  {
    hide *;
    RunIds(states, i - 1);
    var a := Stepped(states, i);
    StepIsFresh(states[i-1], a);
  }

  lemma StartsWithToken(states: seq<State>)
    requires IsRun(states)
    ensures Token(states[0])
  {
  }

  /** The token is kept through a run exactly if each id the run hands out is new: neither queued nor
      in an agent's hands at that moment. */
  lemma {:induction false} TokenExactly(states: seq<State>, i: nat)
    requires IsRun(states) && i < |states|
    ensures (forall j :: 0 <= j <= i ==> Token(states[j])) <==> FreshUpTo(states, i)
  {
    hide Token, FreshStep, IsRun;
    StartsWithToken(states);
    if i > 0 {
      TokenExactly(states, i - 1);
      if forall j :: 0 <= j <= i - 1 ==> Token(states[j]) {
        assert Token(states[i-1]);
        StepOfRunIsFresh(states, i);
      }
    }
  }

  /** What customers say is in order in every run. */
  lemma {:induction false} RunOrder(states: seq<State>, i: nat)
    requires IsRun(states) && i < |states|
    ensures Order(states[i], Customer)
  {
    if i > 0 {
      RunOrder(states, i - 1);
      var a := Stepped(states, i);
      OrderStep(states[i-1], a, Customer);
    }
  }

  lemma {:induction false} RunToken(states: seq<State>, i: nat)
    requires IsRun(states) && i < |states| && FreshUpTo(states, i)
    ensures Token(states[i]) && Seats(states[i]) && Order(states[i], Agent) && Sided(states[i])
  {
    TokenExactly(states, i);
    assert Token(states[i]);
    if i > 0 {
      RunToken(states, i - 1);
      var a := Stepped(states, i);
      SeatsStep(states[i-1], a);
      RunOrder(states, i - 1);
      OrderStep(states[i-1], a, Agent);
      SidesStep(states[i-1], a);
    }
  }

  lemma NewIdIsNew(s: State)
    requires IdsOk(s) && |s.sessions| < 0x1_0000_0000
    ensures FreshId(s)
  {
    var n := |s.sessions|;
    var id := Wrap32(s.lastSession + 1);
    WrapStep(n);
    forall k | 0 <= k < n ensures s.sessions[k].id != id {
      WrapsApart(k + 1, n + 1);
    }
    assert !Issued(s, id);
  }

  lemma FewIsFresh(s: State, a: Action)
    requires Struct(s) && IdsOk(s) && Enabled(s, a) && |Apply(s, a).sessions| <= 0x1_0000_0000
    ensures FreshStep(s, Apply(s, a)) && |s.sessions| <= 0x1_0000_0000
  {
    SessionsStay(s, a);
    if a.NewSession? {
      NewIdIsNew(s);
    }
  }

  /** In particular while at most 2^32 sessions have been opened. */
  lemma {:induction false} FewSessionsAreFresh(states: seq<State>, i: nat)
    requires IsRun(states) && i < |states| && |states[i].sessions| <= 0x1_0000_0000
    ensures FreshUpTo(states, i)
  {
    hide IsRun, Next, Struct, IdsOk, FreshStep, Enabled, Apply;
    if i > 0 {
      var a := Stepped(states, i);
      RunIds(states, i - 1);
      FewIsFresh(states[i-1], a);
      FewSessionsAreFresh(states, i - 1);
    }
  }

  /** Queue positions of an id plus agent streams that hold a session of that id number at most one. */
  lemma IdIsAToken(states: seq<State>, i: nat, id: int)
    requires IsRun(states) && i < |states| && FreshUpTo(states, i)
    ensures multiset(states[i].waiting)[id] + |set p: nat | p < |states[i].streams| && HeldId(states[i], p) == Some(id)| <= 1
  {
    RunToken(states, i);
    var s := states[i];
    var holders := set p: nat | p < |s.streams| && HeldId(s, p) == Some(id);
    NoDupCount(s.waiting, id);
    if holders != {} {
      var h :| h in holders;
      assert holders == {h};
    }
  }

  /** So (whatever support.proto says) no two agents are in one session at a time. */
  lemma AgentsAreExclusive(states: seq<State>, i: nat, p: nat, q: nat)
    requires IsRun(states) && i < |states| && FreshUpTo(states, i) && On(states[i], p) && On(states[i], q)
    requires Attached(states[i].streams[p]) && Attached(states[i].streams[q])
    requires states[i].streams[p].role.Agent? && states[i].streams[q].role.Agent?
    requires states[i].streams[p].sess == states[i].streams[q].sess
    ensures p == q
  {
    RunStruct(states, i);
    RunToken(states, i);
    OneAgent(states[i], p, q);
  }

  /** In every run, a customer's messages reach an agent in the order of its session's history. */
  lemma CustomerOrder(states: seq<State>, n: nat, c: nat, x: nat, y: nat)
    requires IsRun(states) && n < |states| && c < |states[n].chans| && x < y < |states[n].chans[c].sent|
    ensures var s := states[n]; var ch := s.chans[c];
            && ch.of < |s.sessions| && On(s, ch.owner)
            && (ch.sent[x].Posted? ==> ch.sent[x].at < |s.sessions[ch.of].history|)
            && (ch.sent[y].Posted? ==> ch.sent[y].at < |s.sessions[ch.of].history|)
            && (s.streams[ch.owner].role.Agent? && ch.sent[x].Posted? && ch.sent[y].Posted?
                && s.sessions[ch.of].history[ch.sent[x].at].CustomerMsg? && s.sessions[ch.of].history[ch.sent[y].at].CustomerMsg?
                ==> ch.sent[x].at < ch.sent[y].at)
  {
    RunOrder(states, n);
    assert ChanOrder(states[n], c, Customer);
  }

  /** While an agent is alone, what any listener receives is the other side's part of the history, in history order. */
  lemma HistoryOrder(states: seq<State>, n: nat, c: nat, x: nat, y: nat)
    requires IsRun(states) && n < |states| && FreshUpTo(states, n) && c < |states[n].chans|
    requires x < y < |states[n].chans[c].sent|
    requires states[n].chans[c].sent[x].Posted? && states[n].chans[c].sent[y].Posted?
    ensures var s := states[n]; var ch := s.chans[c];
            && ch.sent[x].at < ch.sent[y].at
            && ch.of < |s.sessions| && ch.sent[y].at < |s.sessions[ch.of].history| && On(s, ch.owner)
            && !From(s.sessions[ch.of].history[ch.sent[y].at], s.streams[ch.owner].role)
  {
    RunToken(states, n);
    RunOrder(states, n);
    assert ChanSided(states[n], c) && ChanOrder(states[n], c, Agent) && ChanOrder(states[n], c, Customer);
  }

  // ---- nothing missed ---------------------------------------------------------------------------

  lemma {:induction false} RunGap(states: seq<State>, i: nat, p: nat)
    requires IsRun(states) && i < |states| && On(states[i], p)
    requires states[i].streams[p].role.Customer? || FreshUpTo(states, i)
    ensures NoGap(states[i], p)
  {
    if i > 0 {
      var s := states[i-1];
      var a := Stepped(states, i);
      StreamsStay(s, a);
      if On(s, p) {
        RunGap(states, i - 1, p);
        if s.streams[p].role.Agent? {
          RunToken(states, i - 1);
        }
        assert Seated(s, p);
        GapStep(s, a, p);
      } else {
        NewcomerNoGap(s, a.role, a.name);
      }
    }
  }

  /** No gap on joining.  Whatever the other side said in the history is in the snapshot the
      stream got, went to its channel, or is still on its way there: for a customer in every
      run, for an agent in every run that hands out new ids. */
  lemma NothingMissed(states: seq<State>, n: nat, p: nat, i: nat)
    requires IsRun(states) && n < |states| && On(states[n], p) && Following(states[n].streams[p])
    requires states[n].streams[p].role.Customer? || FreshUpTo(states, n)
    ensures HasChan(states[n], p)
    ensures i < |SessOf(states[n], p).history| && !From(SessOf(states[n], p).history[i], states[n].streams[p].role) ==>
              var s := states[n];
              || (i < |s.streams[p].snap.value| && s.streams[p].snap.value[i] == SessOf(s, p).history[i])
              || Posted(i) in s.chans[s.streams[p].ch].sent
              || exists q :: InFlight(s, q, p, i)
  {
    RunGap(states, n, p);
    var s := states[n];
    if i < |SessOf(s, p).history| && !From(SessOf(s, p).history[i], s.streams[p].role) && i >= |s.streams[p].snap.value| {
      assert Due(s, p, i) && Covered(s, p, i);
    }
  }
}
