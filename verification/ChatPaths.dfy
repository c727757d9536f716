/** Going from one state of the chat server to another by steps of the protocol. */
module ChatPaths {
  import opened ChatModel
  import Paths

  /** Some steps of the protocol lead from s to t. */
  ghost predicate Leads(s: State, t: State) {
    Paths.Connects(Next, s, t)
  }

  lemma LeadsNowhere(s: State)
    ensures Leads(s, s)
  {
    Paths.ConnectsSelf(Next, s);
  }

  lemma LeadsOn(s: State, t: State, a: Action)
    requires Leads(s, t) && !t.panicked && Enabled(t, a)
    ensures Leads(s, Apply(t, a))
  {
    Paths.ConnectsEdge(Next, t, Apply(t, a));
    Paths.ConnectsThrough(Next, s, t, Apply(t, a));
  }

  lemma LeadsThrough(s: State, t: State, u: State)
    requires Leads(s, t) && Leads(t, u)
    ensures Leads(s, u)
  {
    Paths.ConnectsThrough(Next, s, t, u);
  }

  /** What can be reached from the empty server is a state of some run. */
  lemma ReachedByRun(s: State)
    requires Leads(INITIAL, s)
    ensures exists states: seq<State> :: IsRun(states) && states[|states|-1] == s
  {
    var states :| Paths.IsPath(Next, states, INITIAL, s);
    assert IsRun(states);
  }
}
