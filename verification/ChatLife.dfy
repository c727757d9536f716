/** What a closed session still does: its id can come back to the queue, and its history can grow.  When exactly. */
module ChatLife {
  import opened Wrappers
  import opened Queues
  import opened ChatModel
  import opened ChatInvariant
  import opened ChatToken
  import opened ChatFrames
  import opened ChatRuns

  /** Every queued id leads to a session. */
  ghost predicate Live(s: State) {
    forall x :: x in s.waiting ==> x in s.bySession
  }

  /** The last agent leaves a session that was taken off the map. */
  predicate ReturnsDead(s: State, p: nat) {
    CanDetach(s, p) && s.streams[p].role.Agent? && OtherAgents(s, p) == {} && SessOf(s, p).id !in s.bySession
  }

  /** A session is taken off the map, and its id off the queue, where it stands twice. */
  predicate LeavesTwin(s: State, p: nat) {
    InSession(s, p) && SessOf(s, p).id in RemoveFirst(s.waiting, SessOf(s, p).id)
  }

  predicate Deadens(s: State, a: Action) {
    (a.Detach? && ReturnsDead(s, a.p)) || (a.RemoveSession? && LeavesTwin(s, a.p))
  }

  lemma LiveDetach(s: State, p: nat)
    requires Struct(s) && Live(s) && Enabled(s, Detach(p))
    ensures Live(Apply(s, Detach(p))) <==> !ReturnsDead(s, p)
  {
    DetachQueues(s, p);
    var t := Apply(s, Detach(p));
    assert t.bySession == s.bySession;
    if ReturnsDead(s, p) {
      assert t.waiting[|s.waiting|] == SessOf(s, p).id;
    }
  }

  lemma LiveRemoveSession(s: State, p: nat)
    requires Live(s) && Enabled(s, RemoveSession(p))
    ensures Live(Apply(s, RemoveSession(p))) <==> !LeavesTwin(s, p)
  {
    var t, id := Apply(s, RemoveSession(p)), SessOf(s, p).id;
    forall x | x in t.waiting && x != id ensures x in t.bySession { RemoveWithin(s.waiting, id, x); }
    assert id !in t.bySession;
  }

  lemma LiveAccept(s: State, p: nat, want: Option<int>)
    requires Live(s) && Enabled(s, Accept(p, want))
    ensures Live(Apply(s, Accept(p, want)))
  {
    var t := Apply(s, Accept(p, want));
    forall x | x in t.waiting ensures x in t.bySession {
      if Chosen(s, want).Some? { RemoveWithin(s.waiting, Chosen(s, want).value, x); }
    }
  }

  /** From a queue of live ids, a step leads to a queue of live ids unless the last agent leaves a session that
      is off the map, or a session goes off the map while its id is queued twice. */
  lemma LiveStep(s: State, a: Action)
    requires Struct(s) && Live(s) && Enabled(s, a)
    ensures Live(Apply(s, a)) <==> !Deadens(s, a)
  {
    if a.NewSession? { }
    else if a.Detach? { LiveDetach(s, a.p); }
    else if a.RemoveSession? { LiveRemoveSession(s, a.p); }
    else if a.Accept? { LiveAccept(s, a.p, a.want); }
    else { Quiet(s, a); }
  }

  ghost predicate DeadStep(s: State, t: State) {
    exists a :: Enabled(s, a) && Deadens(s, a) && t == Apply(s, a)
  }

  lemma LiveUnlessDeadened(s: State, a: Action)
    requires Struct(s) && Live(s) && Enabled(s, a)
    ensures Live(Apply(s, a)) <==> !DeadStep(s, Apply(s, a))
  {
    LiveStep(s, a);
    if b :| Enabled(s, b) && Deadens(s, b) && Apply(s, a) == Apply(s, b) {
      LiveStep(s, b);
    }
  }

  lemma LiveStepOfRun(states: seq<State>, i: nat)
    requires IsRun(states) && 0 < i < |states| && Live(states[i-1])
    ensures Live(states[i]) <==> !DeadStep(states[i-1], states[i])
  {
    var a := Stepped(states, i);
    LiveUnlessDeadened(states[i-1], a);
  }

  lemma StartsLive(states: seq<State>)
    requires IsRun(states)
    ensures Live(states[0])
  {
  }

  /** In every run: all queued ids are live throughout exactly if no step is of those two kinds. */
  lemma {:induction false} LiveExactly(states: seq<State>, i: nat)
    requires IsRun(states) && i < |states|
    ensures (forall j :: 0 <= j <= i ==> Live(states[j])) <==> (forall j :: 0 < j <= i ==> !DeadStep(states[j-1], states[j]))
  {
    hide Live, DeadStep, IsRun;
    StartsLive(states);
    if i > 0 {
      LiveExactly(states, i - 1);
      if forall j :: 0 <= j <= i - 1 ==> Live(states[j]) {
        assert Live(states[i-1]);
        LiveStepOfRun(states, i);
      }
    }
  }

  ghost predicate DeadReturn(s: State, t: State) {
    exists p: nat :: ReturnsDead(s, p) && t == Apply(s, Detach(p))
  }

  lemma NoTwins(s: State, t: State)
    requires Token(s)
    ensures DeadStep(s, t) <==> DeadReturn(s, t)
  {
    if a :| Enabled(s, a) && Deadens(s, a) && t == Apply(s, a) {
      if a.RemoveSession? { RemoveFromNoDup(s.waiting, SessOf(s, a.p).id); }
    }
    if p: nat :| ReturnsDead(s, p) && t == Apply(s, Detach(p)) {
      assert Enabled(s, Detach(p)) && Deadens(s, Detach(p));
    }
  }

  /** In runs that hand out new ids the second kind does not come up. */
  lemma LiveWhenFresh(states: seq<State>, i: nat)
    requires IsRun(states) && i < |states| && FreshUpTo(states, i)
    ensures (forall j :: 0 <= j <= i ==> Live(states[j])) <==> (forall j :: 0 < j <= i ==> !DeadReturn(states[j-1], states[j]))
  {
    hide *;
    LiveExactly(states, i);
    forall j | 0 < j <= i ensures DeadStep(states[j-1], states[j]) <==> DeadReturn(states[j-1], states[j]) {
      FreshBefore(states, i, j - 1);
      RunToken(states, j - 1);
      NoTwins(states[j-1], states[j]);
    }
  }

  /** No step but a Post changes a history. */
  lemma OthersSayNothing(s: State, a: Action, k: nat)
    requires Struct(s) && Enabled(s, a) && k < |s.sessions| && !a.Post?
    ensures k < |Apply(s, a).sessions| && Apply(s, a).sessions[k].history == s.sessions[k].history
  {
    var t := Apply(s, a);
    if IsHush(a) {
      HushIsHushed(s, a);
      assert QuietSession(s.sessions[k], t.sessions[k]);
    } else if IsSeating(a) {
      SeatingJoins(s, a);
      assert JoinedBy(s.sessions[k], t.sessions[k], |s.chans|);
    } else if IsSend(a) {
      SendOnly(s, a);
    } else if a.BeginSend? {
      BeginSpeaks(s, a.p);
    } else if a.TestCust? {
      TestSpeaks(s, a.p);
    }
  }

  /** The history of a closed session changes in a step exactly if its own customer stream posts. */
  lemma ClosedHistoryGrowsExactly(s: State, a: Action, k: nat)
    requires Struct(s) && Enabled(s, a) && k < |s.sessions| && !s.sessions[k].active
    ensures k < |Apply(s, a).sessions|
    ensures Apply(s, a).sessions[k].history != s.sessions[k].history
            <==> a.Post? && s.streams[a.p].role.Customer? && s.streams[a.p].sess == Some(k)
  {
    if !a.Post? {
      OthersSayNothing(s, a, k);
    } else if s.streams[a.p].role.Agent? && !SessOf(s, a.p).active {
      MuteIsHushed(s, a.p, a.text);
      assert QuietSession(s.sessions[k], Apply(s, a).sessions[k]);
    } else {
      PostSpeaks(s, a.p, a.text);
    }
  }

  lemma ClosedHistoriesInRuns(states: seq<State>, i: nat, k: nat)
    requires IsRun(states) && 0 < i < |states| && k < |states[i-1].sessions| && !states[i-1].sessions[k].active
    ensures k < |states[i].sessions|
    ensures states[i].sessions[k].history != states[i-1].sessions[k].history <==>
            exists p: nat, text :: Enabled(states[i-1], Post(p, text)) && states[i] == Apply(states[i-1], Post(p, text))
                                   && states[i-1].streams[p].role.Customer? && states[i-1].streams[p].sess == Some(k)
  {
    var a := Stepped(states, i);
    ClosedHistoryGrowsExactly(states[i-1], a, k);
    if p: nat, text :| Enabled(states[i-1], Post(p, text)) && states[i] == Apply(states[i-1], Post(p, text))
                       && states[i-1].streams[p].role.Customer? && states[i-1].streams[p].sess == Some(k)
    {
      ClosedHistoryGrowsExactly(states[i-1], Post(p, text), k);
    }
  }
}
