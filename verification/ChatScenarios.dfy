/** Runs of the chat server that end otherwise than one might expect. */
module ChatScenarios {
  import opened Wrappers
  import opened Int32
  import opened ChatModel
  import opened ChatPaths
  import opened ChatToken

  ghost predicate Reaches(s: State) {
    Leads(INITIAL, s)
  }

  const ANN := "ann"
  const AGNES := "agent-agnes"

  /** A customer opened session 1 and an agent is on it; both are about to read a request. */
  function Paired(active: bool, history: seq<Entry>): State {
    State(None, 1, [], map[1 := 0],
          [Session(1, ANN, active, Some(0), map[AGNES := 1], history, {})],
          [Stream(Customer, ANN, false, Some(0), 0, None, Copying),
           Stream(Agent, AGNES, false, Some(0), 1, Some([]), Recv)],
          [Channel(0, 0, [], 0, false, 0), Channel(1, 0, [], 0, false, 0)],
          false)
  }

  /** Session 1 waits for an agent, who has just connected. */
  function Opened(): State {
    State(None, 1, [1], map[1 := 0],
          [Session(1, ANN, true, Some(0), map[], [], {})],
          [Stream(Customer, ANN, false, Some(0), 0, None, Copying), NewStream(Agent, AGNES)],
          [Channel(0, 0, [], 0, false, 0)],
          false)
  }

  lemma ReachesOpened()
    ensures Reaches(Opened())
  {
    LeadsNowhere(INITIAL);
    LeadsOn(INITIAL, INITIAL, Open(Customer, ANN));
    var s := Apply(INITIAL, Open(Customer, ANN));
    LeadsOn(INITIAL, s, Request(0));
    s := Apply(s, Request(0));
    LeadsOn(INITIAL, s, NewSession(0));
    s := Apply(s, NewSession(0));
    LeadsOn(INITIAL, s, Open(Agent, AGNES));
    s := Apply(s, Open(Agent, AGNES));
    assert s == Opened();
  }

  /** The agent has taken the id off the queue. */
  function Claimed(): State {
    var s := Opened();
    s.(waiting := [], streams := [s.streams[0], NewStream(Agent, AGNES).(pc := Taken(0))])
  }

  lemma ReachesClaimed()
    ensures Reaches(Claimed())
  {
    ReachesOpened();
    var s := Opened();
    LeadsOn(INITIAL, s, Request(1));
    s := Apply(s, Request(1));
    LeadsOn(INITIAL, s, Accept(1, None));
    s := Apply(s, Accept(1, None));
    assert s == Claimed();
  }

  /** The agent listens, and has not copied the session yet. */
  function Joined(): State {
    var s := Paired(true, []);
    s.(streams := s.streams[1 := s.streams[1].(pc := Copying, snap := None)])
  }

  lemma ReachesJoined()
    ensures Reaches(Joined())
  {
    ReachesClaimed();
    var s := Claimed();
    LeadsOn(INITIAL, s, Register(1));
    s := Apply(s, Register(1));
    assert s == Joined();
  }

  lemma ReachesPaired()
    ensures Reaches(Paired(true, []))
  {
    ReachesJoined();
    var s := Joined();
    LeadsOn(INITIAL, s, CopySession(1));
    s := Apply(s, CopySession(1));
    assert s == Paired(true, []);
  }

  /** The agent has left, closing the session on the way. */
  function Deserted(): State {
    var s := Paired(false, []);
    s.(bySession := map[], waiting := [1],
       sessions := [s.sessions[0].(agents := map[])],
       streams := s.streams[1 := s.streams[1].(pc := Cancel(Again))],
       chans := s.chans[1 := s.chans[1].(sent := [Ended])])
  }

  /** The agent has marked the session closed. */
  function Leaving(): State {
    var s := Paired(false, []);
    s.(streams := s.streams[1 := s.streams[1].(pc := Marked)])
  }

  lemma ReachesLeaving()
    ensures Reaches(Leaving())
  {
    ReachesPaired();
    var s := Paired(true, []);
    LeadsOn(INITIAL, s, Request(1));
    s := Apply(s, Request(1));
    LeadsOn(INITIAL, s, HangUp(1));
    s := Apply(s, HangUp(1));
    assert s == Leaving();
  }

  /** The agent holds the read lock and is about to send nil to itself. */
  function Telling(): State {
    var s := Leaving();
    s.(sessions := [s.sessions[0].(readers := {1})],
       streams := s.streams[1 := s.streams[1].(pc := ToAgents(Ended, {AGNES}))])
  }

  /** Nobody is left to tell. */
  function Told(): State {
    var s := Telling();
    s.(streams := s.streams[1 := s.streams[1].(pc := ToAgents(Ended, {}))], chans := s.chans[1 := s.chans[1].(sent := [Ended])])
  }

  /** The agent has closed the session and told itself so, and is about to unlist it. */
  function JustEnded(): State {
    var s := Paired(false, []);
    s.(streams := s.streams[1 := s.streams[1].(pc := Unlist)], chans := s.chans[1 := s.chans[1].(sent := [Ended])])
  }

  lemma ReachesTelling()
    ensures Reaches(Telling())
  {
    ReachesLeaving();
    var s := Leaving();
    LeadsOn(INITIAL, s, BeginEnd(1));
    s := Apply(s, BeginEnd(1));
    assert s.sessions[0].agents.Keys == {AGNES};
    assert s.sessions[0].readers == {1};
    assert s == Telling();
  }

  lemma ReachesTold()
    ensures Reaches(Told())
  {
    ReachesTelling();
    var s := Telling();
    LeadsOn(INITIAL, s, SendAgent(1, AGNES, false));
    s := Apply(s, SendAgent(1, AGNES, false));
    assert s.streams[1].pc.pending == {} && s.chans[1].sent == [Ended];
    assert s == Told();
  }

  lemma ReachesJustEnded()
    ensures Reaches(JustEnded())
  {
    ReachesTold();
    var s := Told();
    LeadsOn(INITIAL, s, EndSend(1));
    s := Apply(s, EndSend(1));
    assert s.sessions[0].readers == {};
    assert s == JustEnded();
  }

  lemma ReachesDeserted()
    ensures Reaches(Deserted())
  {
    ReachesJustEnded();
    var s := JustEnded();
    LeadsOn(INITIAL, s, RemoveSession(1));
    s := Apply(s, RemoveSession(1));
    assert s.bySession == map[];
    LeadsOn(INITIAL, s, Detach(1));
    s := Apply(s, Detach(1));
    assert s == Deserted();
  }

  /** An agent that leaves puts the id of the session it has just closed back in the queue. */
  lemma DeadIdIsQueued()
    ensures exists states: seq<State> :: IsRun(states) &&
              var s := states[|states|-1];
              1 in s.waiting && 1 !in s.bySession && |s.sessions| == 1 && s.sessions[0].id == 1 && !s.sessions[0].active
  {
    ReachesDeserted();
    ReachedByRun(Deserted());
  }

  /** A customer still talks to a closed session: its messages are appended all the same. */
  lemma ClosedSessionGrows(text: string)
    ensures exists states: seq<State> :: IsRun(states) &&
              var s := states[|states|-1];
              |s.sessions| == 1 && !s.sessions[0].active && s.sessions[0].history == [CustomerMsg(text)]
  {
    ReachesDeserted();
    var s := Deserted();
    LeadsOn(INITIAL, s, CopySession(0));
    s := Apply(s, CopySession(0));
    LeadsOn(INITIAL, s, Request(0));
    s := Apply(s, Request(0));
    LeadsOn(INITIAL, s, Post(0, text));
    s := Apply(s, Post(0, text));
    ReachedByRun(s);
  }

  /** Resuming an id that was never handed out brings the server down. */
  lemma UnknownIdPanics(id: int)
    ensures exists states: seq<State> :: IsRun(states) && states[|states|-1].panicked
  {
    LeadsNowhere(INITIAL);
    var s := INITIAL;
    LeadsOn(INITIAL, s, Open(Customer, ANN));
    s := Apply(s, Open(Customer, ANN));
    LeadsOn(INITIAL, s, Request(0));
    s := Apply(s, Request(0));
    LeadsOn(INITIAL, s, ResumeCheck(0, id));
    ReachedByRun(Apply(s, ResumeCheck(0, id)));
  }

  // ---- when the counter has gone round ---------------------------------------------------------

  /** One more customer comes and opens a session. */
  function OneMore(s: State): State {
    var t := s.(streams := s.streams + [NewStream(Customer, ANN).(pc := Ready)]);
    DoNewSession(t, |s.streams|)
  }

  function Many(n: nat): State {
    if n == 0 then INITIAL else OneMore(Many(n - 1))
  }

  lemma OneMoreIsReached(s: State)
    requires Reaches(s) && !s.panicked && s.mu.None?
    ensures Reaches(OneMore(s))
  {
    var p := |s.streams|;
    LeadsOn(INITIAL, s, Open(Customer, ANN));
    var t := Apply(s, Open(Customer, ANN));
    LeadsOn(INITIAL, t, Request(p));
    t := Apply(t, Request(p));
    assert t == s.(streams := s.streams + [NewStream(Customer, ANN).(pc := Ready)]);
    LeadsOn(INITIAL, t, NewSession(p));
  }

  /** The first n ids handed out. */
  function Ids(n: nat): seq<int> {
    if n == 0 then [] else Ids(n - 1) + [Wrap32(n)]
  }

  lemma {:induction false} IdsAt(n: nat, i: nat)
    requires i < n
    ensures |Ids(n)| == n && Ids(n)[i] == Wrap32(i + 1)
  {
    if i < n - 1 { IdsAt(n - 1, i); } else if n > 1 { IdsAt(n - 1, 0); }
  }

  lemma OneMoreQueues(s: State, n: nat)
    requires n > 0 && s.lastSession == Wrap32(n - 1) && s.waiting == Ids(n - 1)
    ensures OneMore(s).lastSession == Wrap32(n) && OneMore(s).waiting == Ids(n)
    ensures OneMore(s).mu == s.mu && OneMore(s).panicked == s.panicked
  {
    WrapStep(n - 1);
  }

  lemma {:induction false} ManyAreReached(n: nat)
    ensures Reaches(Many(n)) && Many(n).mu.None? && !Many(n).panicked
    ensures Many(n).lastSession == Wrap32(n) && Many(n).waiting == Ids(n)
  {
    if n == 0 {
      LeadsNowhere(INITIAL);
    } else {
      ManyAreReached(n - 1);
      OneMoreIsReached(Many(n - 1));
      OneMoreQueues(Many(n - 1), n);
    }
  }

  /** After more than 2^32 sessions an id can be queued twice. */
  lemma IdsCanRepeat(n: nat)
    requires n > 0x1_0000_0000
    ensures exists states: seq<State> :: IsRun(states) &&
              var s := states[|states|-1];
              |s.waiting| == n && s.waiting[0] == s.waiting[0x1_0000_0000] && !Token(s)
  {
    ManyAreReached(n);
    IdsAt(n, 0);
    IdsAt(n, 0x1_0000_0000);
    WrapsApart(1, 0x1_0000_0001);
    var s := Many(n);
    assert s.waiting[0] == s.waiting[0x1_0000_0000];
    ReachedByRun(s);
  }
}
