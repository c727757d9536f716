/** invokeBidi: a sender goroutine and a receiver loop over one stream, step by step.
    The environment chooses every outcome of every call on the stream. */
module Bidi {
  import opened Wrappers
  import opened Invoke

  type Data = string

  /** What goes out on the stream: a message (as the pieces merged into it), or CloseSend. */
  datatype Op = Msg(fills: seq<Data>) | HalfClose

  datatype SenderPc =
    | Absent                         // never started
    | AskSupplier
    | HaveData
    | JustSent(err: Option<Error>)   // SendMsg returned, req not yet reset
    | AtEnd                          // supplier said io.EOF, CloseSend is next
    | Failed                         // supplier said something else, cancel() is next
    | Leaving(err: Option<Error>)    // out of the loop, about to store the error
    | Stored
    | Gone                           // wg.Done has run

  datatype ReceiverPc =
    | Opening
    | ReadHeader
    | Recv
    | LoadCell(err: Option<Error>)
    | Judge(err: Option<Error>)
    | Waiting(ok: bool)              // deferred wg.Wait
    | Returned(ok: bool)

  /** What the run is given: the supplier's data and last word, and whether the stream opens. */
  datatype Setup = Setup(data: seq<Data>, end: Error, open: Option<Error>)

  datatype State = State(
    spc: SenderPc,
    pos: nat,                        // pieces taken from the supplier
    ended: bool,                     // the supplier has said its last word
    req: seq<Data>,                  // the shared request message
    ops: seq<Op>,
    cell: Option<Error>,             // sendErr
    cancelled: bool,
    rpc: ReceiverPc,
    header: bool,
    got: seq<string>,                // responses received
    recvErr: Option<Error>,          // what the receive loop ended with
    seen: Option<Error>,             // what the load of sendErr found
    events: seq<Event<string>>)

  const INITIAL := State(Absent, 0, false, [], [], None, false, Opening, false, [], None, None, [])

  datatype Action =
    | Open
    | Ask
    | CancelCall
    | SendMsg(outcome: Option<Error>)
    | Reset
    | CloseSend(outcome: Option<Error>)
    | Store
    | Done
    | Header(ok: bool)
    | Receive(r: Result<string, Error>)
    | Load
    | Verdict
    | Join

  predicate Enabled(s: State, a: Action) {
    match a
    case Open => s.rpc.Opening?
    case Ask => s.spc.AskSupplier?
    case CancelCall => s.spc.Failed?
    case SendMsg(_) => s.spc.HaveData?
    case Reset => s.spc.JustSent?
    case CloseSend(_) => s.spc.AtEnd?
    case Store => s.spc.Leaving?
    case Done => s.spc.Stored?
    case Header(_) => s.rpc.ReadHeader?
    case Receive(_) => s.rpc.Recv?
    case Load => s.rpc.LoadCell?
    case Verdict => s.rpc.Judge?
    case Join => s.rpc.Waiting? && (s.spc.Absent? || s.spc.Gone?)
  }

  /** The stored error takes precedence, unless it is io.EOF. */
  function Prefer(cell: Option<Error>, err: Option<Error>): Option<Error> {
    if cell.Some? && !cell.value.Eof? then cell else err
  }

  function Apply(g: Setup, s: State, a: Action): State
    requires Enabled(s, a)
  {
    match a
    case Open =>
      if g.open.None? then s.(spc := AskSupplier, rpc := ReadHeader)
      else s.(rpc := LoadCell(g.open), recvErr := g.open)
    case Ask =>
      if s.pos < |g.data| then s.(spc := HaveData, pos := s.pos + 1, req := s.req + [g.data[s.pos]])
      else s.(spc := if g.end.Eof? then AtEnd else Failed, ended := true)
    case CancelCall => s.(spc := Leaving(Some(Plain)), cancelled := true)
    case SendMsg(outcome) => s.(spc := JustSent(outcome), ops := s.ops + [Msg(s.req)])
    case Reset => s.(spc := if s.spc.err.None? then AskSupplier else Leaving(s.spc.err), req := [])
    case CloseSend(outcome) => s.(spc := Leaving(outcome), ops := s.ops + [HalfClose])
    case Store => s.(spc := Stored, cell := if s.spc.err.Some? then s.spc.err else s.cell)
    case Done => s.(spc := Gone)
    case Header(ok) => s.(rpc := Recv, header := ok, events := s.events + if ok then [Headers] else [])
    case Receive(Ok(r)) => s.(got := s.got + [r], events := s.events + [Response(r)])
    case Receive(Err(e)) => s.(rpc := LoadCell(EndOf(e)), recvErr := EndOf(e))
    case Load => s.(rpc := Judge(Prefer(s.cell, s.rpc.err)), seen := s.cell)
    case Verdict =>
      var code := StatusOf(s.rpc.err);
      if code.None? then s.(rpc := Waiting(false))
      else s.(rpc := Waiting(true), events := s.events + if g.open.None? then [Trailers(code.value)] else [])
    case Join => s.(rpc := Returned(s.rpc.ok))
  }

  ghost predicate Next(g: Setup, s: State, t: State) {
    exists a :: Enabled(s, a) && t == Apply(g, s, a)
  }

  ghost predicate IsRun(g: Setup, states: seq<State>) {
    && |states| > 0 && states[0] == INITIAL
    && forall i :: 0 < i < |states| ==> Next(g, states[i-1], states[i])
  }

  // ---- the invariant -----------------------------------------------------------------------

  function Messages(data: seq<Data>): seq<Op> {
    seq(|data|, i requires 0 <= i < |data| => Msg([data[i]]))
  }

  /** How many pieces have gone out. */
  function SentCount(s: State): nat {
    if s.spc.HaveData? && s.pos > 0 then s.pos - 1 else s.pos
  }

  /** The sender is past CloseSend (rather than on its way there). */
  predicate HalfClosed(g: Setup, s: State) {
    s.ended && g.end.Eof? && !s.spc.AtEnd?
  }

  ghost predicate SenderInv(g: Setup, s: State) {
    && s.pos <= |g.data|
    && (s.spc.HaveData? ==> s.pos > 0)
    && (s.spc.HaveData? || s.spc.JustSent? ==> s.pos > 0 && s.req == [g.data[s.pos - 1]])
    && (s.spc.Absent? || s.spc.AskSupplier? || s.spc.AtEnd? || s.spc.Failed? ==> s.req == [])
    && (s.ended ==> s.pos == |g.data| && !s.spc.Absent? && !s.spc.AskSupplier? && !s.spc.HaveData? && !s.spc.JustSent?)
    && (s.spc.AtEnd? || s.spc.Failed? ==> s.ended && (s.spc.AtEnd? <==> g.end.Eof?))
  }

  /** What has gone out on the stream. */
  ghost predicate OpsInv(g: Setup, s: State)
    requires s.pos <= |g.data|
  {
    s.ops == Messages(g.data[..SentCount(s)]) + (if HalfClosed(g, s) then [HalfClose] else [])
  }

  /** What becomes of the sender's error. */
  ghost predicate ErrorInv(g: Setup, s: State) {
    && (s.ended ==> !s.spc.Absent? && !s.spc.AskSupplier? && !s.spc.HaveData? && !s.spc.JustSent?)
    && (s.spc.AtEnd? || s.spc.Failed? ==> s.ended && (s.spc.AtEnd? <==> g.end.Eof?))
    && (s.cell.Some? ==> s.spc.Stored? || s.spc.Gone?)
    && (s.ended && !g.end.Eof? && !s.spc.Failed? ==> s.cancelled)
    && (s.cancelled ==> s.ended && !g.end.Eof?)
    && (s.ended && !g.end.Eof? && s.spc.Leaving? ==> s.spc.err == Some(Plain))
    && (s.ended && !g.end.Eof? && (s.spc.Stored? || s.spc.Gone?) ==> s.cell == Some(Plain))
    && (s.spc.Leaving? && !s.ended ==> s.spc.err.Some?)
    && ((s.spc.Stored? || s.spc.Gone?) && !s.ended ==> s.cell.Some?)
  }

  predicate Judged(s: State) {
    s.rpc.Judge? || s.rpc.Waiting? || s.rpc.Returned?
  }

  /** The verdict the receiver passes, from what it read and what it found in the cell. */
  function FinalError(s: State): Option<Error> {
    Prefer(s.seen, s.recvErr)
  }

  ghost predicate ReceiverInv(g: Setup, s: State) {
    && (s.rpc.Opening? ==> s.spc.Absent?)
    && (s.spc.Absent? && !s.rpc.Opening? ==> g.open.Some?)
    && (g.open.Some? ==> s.spc.Absent? && !s.rpc.ReadHeader? && !s.rpc.Recv? && !s.header && s.got == []
                         && (!s.rpc.Opening? ==> s.recvErr == g.open))
    && (s.rpc.LoadCell? ==> s.rpc.err == s.recvErr)
    && (s.rpc.Judge? ==> s.rpc.err == FinalError(s))
    && (s.rpc.Opening? || s.rpc.ReadHeader? ==> !s.header && s.got == [])
    && (s.rpc.Waiting? ==> (s.rpc.ok <==> StatusOf(FinalError(s)).Some?))
    && (s.rpc.Returned? ==> (s.rpc.ok <==> StatusOf(FinalError(s)).Some?) && (s.spc.Absent? || s.spc.Gone?))
    && (Judged(s) && s.seen.Some? ==> s.seen == s.cell)
  }

  /** The status code an error stands for. */
  function CodeOf(err: Option<Error>): nat {
    match StatusOf(err) case Some(code) => code case None => OK
  }

  /** The trailers, once they have been reported. */
  function Tail(g: Setup, s: State): seq<Event<string>> {
    if (s.rpc.Waiting? || s.rpc.Returned?) && s.rpc.ok && g.open.None?
    then [Trailers(CodeOf(FinalError(s)))] else []
  }

  ghost predicate EventsInv(g: Setup, s: State) {
    s.events == (if s.header then [Headers] else []) + Responses(s.got) + Tail(g, s)
  }

  ghost predicate Inv(g: Setup, s: State) {
    SenderInv(g, s) && OpsInv(g, s) && ErrorInv(g, s) && ReceiverInv(g, s) && EventsInv(g, s)
  }

  lemma MessagesNext(data: seq<Data>, i: nat)
    requires i < |data|
    ensures Messages(data[..i+1]) == Messages(data[..i]) + [Msg([data[i]])]
  {
  }

  lemma ResponsesSnoc(rs: seq<string>, r: string)
    ensures Responses(rs + [r]) == Responses(rs) + [Response(r)]
  {
  }

  lemma SenderStep(g: Setup, s: State, a: Action)
    requires SenderInv(g, s) && Enabled(s, a) && (a.Open? ==> s.spc.Absent?)
    ensures SenderInv(g, Apply(g, s, a))
  {
    if a.Ask? && s.pos < |g.data| {
      assert s.req + [g.data[s.pos]] == [g.data[s.pos]];
    }
  }

  lemma SendMsgOps(g: Setup, s: State, outcome: Option<Error>)
    requires SenderInv(g, s) && OpsInv(g, s) && Enabled(s, SendMsg(outcome))
    ensures OpsInv(g, Apply(g, s, SendMsg(outcome)))
  {
    var t := Apply(g, s, SendMsg(outcome));
    MessagesNext(g.data, s.pos - 1);
    assert !HalfClosed(g, s) && !HalfClosed(g, t);
    assert t.ops == Messages(g.data[..s.pos]);
  }

  lemma CloseSendOps(g: Setup, s: State, outcome: Option<Error>)
    requires SenderInv(g, s) && OpsInv(g, s) && Enabled(s, CloseSend(outcome))
    ensures OpsInv(g, Apply(g, s, CloseSend(outcome)))
  {
    assert !HalfClosed(g, s) && HalfClosed(g, Apply(g, s, CloseSend(outcome)));
  }

  lemma OpsStep(g: Setup, s: State, a: Action)
    requires SenderInv(g, s) && OpsInv(g, s) && Enabled(s, a) && (a.Open? ==> s.spc.Absent?)
    ensures SenderInv(g, Apply(g, s, a)) && OpsInv(g, Apply(g, s, a))
  {
    SenderStep(g, s, a);
    var t := Apply(g, s, a);
    if a.SendMsg? {
      SendMsgOps(g, s, a.outcome);
    } else if a.CloseSend? {
      CloseSendOps(g, s, a.outcome);
    } else {
      assert t.ops == s.ops && SentCount(t) == SentCount(s) && (HalfClosed(g, t) <==> HalfClosed(g, s));
    }
  }

  lemma ErrorStep(g: Setup, s: State, a: Action)
    requires ErrorInv(g, s) && Enabled(s, a) && (a.Open? ==> s.spc.Absent?)
    ensures ErrorInv(g, Apply(g, s, a))
  {
  }

  predicate IsSending(a: Action) {
    a.Ask? || a.CancelCall? || a.SendMsg? || a.Reset? || a.CloseSend? || a.Store? || a.Done?
  }

  lemma ReceiverWaits(g: Setup, s: State, a: Action)
    requires ErrorInv(g, s) && ReceiverInv(g, s) && Enabled(s, a) && IsSending(a)
    ensures ReceiverInv(g, Apply(g, s, a))
  {
  }

  lemma ReceiverReads(g: Setup, s: State, a: Action)
    requires ErrorInv(g, s) && ReceiverInv(g, s) && Enabled(s, a) && (a.Open? || a.Header? || a.Receive?)
    ensures ReceiverInv(g, Apply(g, s, a))
  {
  }

  lemma ReceiverEnds(g: Setup, s: State, a: Action)
    requires ErrorInv(g, s) && ReceiverInv(g, s) && Enabled(s, a) && (a.Load? || a.Verdict? || a.Join?)
    ensures ReceiverInv(g, Apply(g, s, a))
  {
  }

  lemma ReceiverStep(g: Setup, s: State, a: Action)
    requires ErrorInv(g, s) && ReceiverInv(g, s) && Enabled(s, a)
    ensures ReceiverInv(g, Apply(g, s, a))
  {
    if IsSending(a) { ReceiverWaits(g, s, a); }
    else if a.Open? || a.Header? || a.Receive? { ReceiverReads(g, s, a); }
    else { ReceiverEnds(g, s, a); }
  }

  predicate Reports(a: Action) {
    a.Receive? || a.Header? || a.Verdict?
  }

  lemma EventsQuiet(g: Setup, s: State, a: Action)
    requires ReceiverInv(g, s) && EventsInv(g, s) && Enabled(s, a) && !Reports(a)
    ensures EventsInv(g, Apply(g, s, a))
  {
    var t := Apply(g, s, a);
    assert t.events == s.events && t.header == s.header && t.got == s.got && Tail(g, t) == Tail(g, s);
  }

  lemma EventsHeader(g: Setup, s: State, ok: bool)
    requires ReceiverInv(g, s) && EventsInv(g, s) && Enabled(s, Header(ok))
    ensures EventsInv(g, Apply(g, s, Header(ok)))
  {
    assert s.events == [];
  }

  lemma EventsReceive(g: Setup, s: State, r: Result<string, Error>)
    requires ReceiverInv(g, s) && EventsInv(g, s) && Enabled(s, Receive(r))
    ensures EventsInv(g, Apply(g, s, Receive(r)))
  {
    assert Tail(g, s) == [];
    if r.Ok? {
      ResponsesSnoc(s.got, r.value);
    }
  }

  lemma EventsVerdict(g: Setup, s: State)
    requires ReceiverInv(g, s) && EventsInv(g, s) && Enabled(s, Verdict)
    ensures EventsInv(g, Apply(g, s, Verdict))
  {
    assert Tail(g, s) == [];
  }

  lemma EventsStep(g: Setup, s: State, a: Action)
    requires ReceiverInv(g, s) && EventsInv(g, s) && Enabled(s, a)
    ensures EventsInv(g, Apply(g, s, a))
  {
    match a
    case Header(ok) => EventsHeader(g, s, ok);
    case Receive(r) => EventsReceive(g, s, r);
    case Verdict => EventsVerdict(g, s);
    case _ => EventsQuiet(g, s, a);
  }

  lemma {:induction false} RunInv(g: Setup, states: seq<State>, i: nat)
    requires IsRun(g, states) && i < |states|
    ensures Inv(g, states[i])
    decreases i
  {
    if i > 0 {
      RunInv(g, states, i - 1);
      assert Next(g, states[i-1], states[i]);
      var a :| Enabled(states[i-1], a) && states[i] == Apply(g, states[i-1], a);
      OpsStep(g, states[i-1], a);
      ErrorStep(g, states[i-1], a);
      ReceiverStep(g, states[i-1], a);
      EventsStep(g, states[i-1], a);
    }
  }

  // ---- the main results ------------------------------------------------------------------------

  /** What went out is the supplier's data in order, one piece to a message, up to some point;
      CloseSend comes once, last, and only after the supplier's clean end with nothing held back. */
  lemma SendsInOrder(g: Setup, states: seq<State>, i: nat)
    requires IsRun(g, states) && i < |states|
    ensures var s := states[i];
            exists n :: 0 <= n <= |g.data| &&
              (s.ops == Messages(g.data[..n]) || (s.ops == Messages(g.data) + [HalfClose] && s.ended && g.end.Eof?))
  {
    RunInv(g, states, i);
    var s := states[i];
    var n := SentCount(s);
    assert 0 <= n <= |g.data|;
    if HalfClosed(g, s) {
      assert g.data[..n] == g.data;
    } else {
      assert s.ops == Messages(g.data[..n]);
    }
  }

  /** Once the sender is gone, CloseSend was called if and only if the supplier ended cleanly;
      if the supplier never got to its end, a send failed and its error is on record. */
  lemma CloseSendExactly(g: Setup, states: seq<State>, i: nat)
    requires IsRun(g, states) && i < |states| && (states[i].spc.Gone? || states[i].spc.Absent?)
    ensures HalfClose in states[i].ops <==> states[i].ended && g.end.Eof?
    ensures states[i].spc.Gone? && !states[i].ended ==> states[i].cell.Some?
  {
    RunInv(g, states, i);
    var s := states[i];
    if s.ended && g.end.Eof? {
      assert s.ops[|s.ops|-1] == HalfClose;
    } else {
      assert s.ops == Messages(g.data[..SentCount(s)]);
    }
  }

  /** The handler hears headers at most once, then the responses in order, then trailers at most
      once; and trailers exactly when the call is over with a nil result on a stream that opened. */
  lemma Callbacks(g: Setup, states: seq<State>, i: nat)
    requires IsRun(g, states) && i < |states|
    ensures var s := states[i];
            exists tail: seq<Event<string>> ::
              && s.events == (if s.header then [Headers] else []) + Responses(s.got) + tail
              && |tail| <= 1
              && (tail != [] ==> tail[0].Trailers?)
              && (s.rpc.Returned? ==> (tail != [] <==> s.rpc.ok && g.open.None?))
  {
    RunInv(g, states, i);
    var s := states[i];
    var tail := Tail(g, s);
    assert s.events == (if s.header then [Headers] else []) + Responses(s.got) + tail;
  }

  /** The call does not return while the sender goroutine is alive. */
  lemma SenderIsJoined(g: Setup, states: seq<State>, i: nat)
    requires IsRun(g, states) && i < |states| && states[i].rpc.Returned?
    ensures states[i].spc == if g.open.None? then Gone else Absent
  {
    RunInv(g, states, i);
  }

  /** The steps after which the sender asks for no more, and the error it is left with: a send that failed, the
      half-close, and the cancellation after a supplier's error. */
  predicate Stops(a: Action, err: Option<Error>) {
    (a == SendMsg(err) && err.Some?) || a == CloseSend(err) || (a.CancelCall? && err == Some(Plain))
  }

  /** On its way out with that error, which nothing before has taken the place of. */
  ghost predicate IsStopping(s: State, err: Option<Error>) {
    || (((s.spc == JustSent(err) && err.Some?) || s.spc == Leaving(err)) && s.cell.None?)
    || ((s.spc.Stored? || s.spc.Gone?) && s.cell == err)
  }

  lemma StopsHere(g: Setup, s: State, a: Action, err: Option<Error>)
    requires ErrorInv(g, s) && Enabled(s, a) && Stops(a, err)
    ensures IsStopping(Apply(g, s, a), err)
  {
  }

  lemma StoppingStep(g: Setup, s: State, a: Action, err: Option<Error>)
    requires IsStopping(s, err) && Enabled(s, a) && (a.Open? ==> s.spc.Absent?)
    ensures IsStopping(Apply(g, s, a), err)
    ensures Apply(g, s, a).ops == s.ops && Apply(g, s, a).pos == s.pos
  {
  }

  /** The sender stops at the first failure, or at the half-close: it takes nothing more from the supplier, nothing
      more goes out, and that failure, if it is one, is what the error cell holds in the end. */
  lemma {:induction false} SenderStops(g: Setup, states: seq<State>, j: nat, a: Action, err: Option<Error>, i: nat)
    requires IsRun(g, states) && j <= i < |states| && Takes(g, states, j, a) && Stops(a, err)
    ensures IsStopping(states[i], err) && states[i].ops == states[j].ops && states[i].pos == states[j].pos
    ensures states[i].spc.Gone? ==> states[i].cell == err
    decreases i
  {
    hide Apply, Enabled, IsRun, Stops;
    RunInv(g, states, i - 1);
    if i == j {
      StopsHere(g, states[j-1], a, err);
    } else {
      SenderStops(g, states, j, a, err, i - 1);
      var b := Stepped(g, states, i);
      OpensOnce(g, states[i-1], b);
      StoppingStep(g, states[i-1], b, err);
    }
  }

  lemma OpensOnce(g: Setup, s: State, a: Action)
    requires Inv(g, s) && Enabled(s, a)
    ensures a.Open? ==> s.spc.Absent?
  {
  }

  /** The call is cancelled when the supplier fails, and never otherwise. */
  lemma CancelledExactly(g: Setup, states: seq<State>, i: nat)
    requires IsRun(g, states) && i < |states| && states[i].spc.Gone?
    ensures states[i].cancelled <==> states[i].ended && !g.end.Eof?
  {
    RunInv(g, states, i);
  }

  /** The receiver waits for nothing but the sender at the end, and the sender for nothing, whatever the stream answers. */
  lemma NeverStuck(s: State, err: Option<Error>, r: Result<string, Error>, ok: bool)
    ensures || s.rpc.Returned?
            || (exists a :: a in {Open, Header(ok), Receive(r), Load, Verdict} && Enabled(s, a))
            || (s.rpc.Waiting? &&
                 exists a :: a in {Ask, CancelCall, SendMsg(err), Reset, CloseSend(err), Store, Done, Join} && Enabled(s, a))
  {
    var a := match s.rpc
      case Opening => Open
      case ReadHeader => Header(ok)
      case Recv => Receive(r)
      case LoadCell(_) => Load
      case _ => Verdict;
    assert !s.rpc.Waiting? && !s.rpc.Returned? ==> Enabled(s, a);
    var b := match s.spc
      case AskSupplier => Ask
      case Failed => CancelCall
      case HaveData => SendMsg(err)
      case JustSent(_) => Reset
      case AtEnd => CloseSend(err)
      case Leaving(_) => Store
      case Stored => Done
      case _ => Join;
    assert s.rpc.Waiting? ==> Enabled(s, b);
  }

  // ---- the result ------------------------------------------------------------------------------

  /** After this step the receive loop is over, or the look at the cell is. */
  predicate PastLoop(s: State) {
    s.rpc.LoadCell? || s.rpc.Judge? || s.rpc.Waiting? || s.rpc.Returned?
  }

  lemma Stepped(g: Setup, states: seq<State>, i: nat) returns (a: Action)
    requires IsRun(g, states) && 0 < i < |states|
    ensures Enabled(states[i-1], a) && states[i] == Apply(g, states[i-1], a)
  {
    assert Next(g, states[i-1], states[i]);
    a :| Enabled(states[i-1], a) && states[i] == Apply(g, states[i-1], a);
  }

  lemma PastLoopStep(g: Setup, s: State, a: Action)
    requires PastLoop(s) && Enabled(s, a)
    ensures PastLoop(Apply(g, s, a)) && Apply(g, s, a).recvErr == s.recvErr
    ensures !s.rpc.LoadCell? ==> !Apply(g, s, a).rpc.LoadCell? && Apply(g, s, a).seen == s.seen
  {
  }

  lemma {:induction false} LoopStaysOver(g: Setup, states: seq<State>, j: nat, i: nat)
    requires IsRun(g, states) && j <= i < |states| && PastLoop(states[j])
    ensures PastLoop(states[i]) && states[i].recvErr == states[j].recvErr
    ensures !states[j].rpc.LoadCell? ==> !states[i].rpc.LoadCell? && states[i].seen == states[j].seen
    decreases i
  {
    hide *;
    if i > j {
      LoopStaysOver(g, states, j, i - 1);
      var a := Stepped(g, states, i);
      PastLoopStep(g, states[i-1], a);
    }
  }

  /** The step from states[i-1] to states[i]. */
  ghost predicate Takes(g: Setup, states: seq<State>, i: nat, a: Action) {
    0 < i < |states| && Enabled(states[i-1], a) && states[i] == Apply(g, states[i-1], a)
  }

  /** Nil, and trailers with the code last; or an error, and no trailers. */
  ghost predicate EndsWith(s: State, code: Option<nat>)
    requires s.rpc.Returned?
  {
    match code
    case Some(c) => s.rpc.ok && s.events != [] && s.events[|s.events|-1] == Trailers(c)
    case None => !s.rpc.ok && forall c :: Trailers(c) !in s.events
  }

  /** Which error counts, and what it comes to: a status or a plain error the sender had stored by the time of the
      look at the cell; otherwise the receive loop's, where io.EOF is a clean end. */
  function Outcome(stored: Option<Error>, last: Error): Option<nat> {
    match stored
    case Some(Status(code)) => Some(code as nat)
    case Some(Plain) => None
    case _ =>
      match last
      case Eof => Some(0)
      case Status(code) => Some(code as nat)
      case Plain => None
  }

  lemma ReturnsOutcome(g: Setup, s: State, last: Error)
    requires Inv(g, s) && s.rpc.Returned? && g.open.None?
    requires s.recvErr == if last.Eof? then None else Some(last)
    ensures EndsWith(s, Outcome(s.seen, last))
  {
    assert s.events == (if s.header then [Headers] else []) + Responses(s.got) + Tail(g, s);
  }

  lemma ReceivedLast(g: Setup, s: State, last: Error)
    requires Enabled(s, Receive(Err(last)))
    ensures PastLoop(Apply(g, s, Receive(Err(last))))
    ensures Apply(g, s, Receive(Err(last))).recvErr == if last.Eof? then None else Some(last)
  {
  }

  lemma LoadIs(g: Setup, s: State)
    requires Enabled(s, Load)
    ensures PastLoop(Apply(g, s, Load)) && !Apply(g, s, Load).rpc.LoadCell? && Apply(g, s, Load).seen == s.cell
  {
  }

  lemma ReceivesOnlyOpen(g: Setup, s: State, last: Error)
    requires Inv(g, s) && Enabled(s, Receive(Err(last)))
    ensures g.open.None?
  {
  }

  /** The result of a call on an opened stream, by what the stream's last RecvMsg said and what the sender had
      stored when the receiver looked. */
  lemma ResultIsTheVerdict(g: Setup, states: seq<State>, j: nat, last: Error, l: nat, i: nat)
    requires IsRun(g, states) && j < l <= i < |states| && states[i].rpc.Returned?
    requires Takes(g, states, j, Receive(Err(last))) && Takes(g, states, l, Load)
    ensures EndsWith(states[i], Outcome(states[l-1].cell, last))
  {
    hide Inv, IsRun, Apply, Enabled, EndsWith, Outcome;
    RunInv(g, states, i);
    RunInv(g, states, j - 1);
    ReceivesOnlyOpen(g, states[j-1], last);
    ReceivedLast(g, states[j-1], last);
    LoadIs(g, states[l-1]);
    LoopStaysOver(g, states, j, i);
    LoopStaysOver(g, states, l, i);
    ReturnsOutcome(g, states[i], last);
  }

  lemma IntoPastLoop(g: Setup, s: State, a: Action)
    requires Enabled(s, a) && !PastLoop(s) && PastLoop(Apply(g, s, a)) && g.open.None?
    ensures a.Receive? && a.r.Err? && Apply(g, s, a).rpc.LoadCell?
  {
  }

  lemma OutOfLoad(g: Setup, s: State, a: Action)
    requires Enabled(s, a) && PastLoop(s)
    ensures !a.Receive? && (a.Load? || (Apply(g, s, a).rpc.LoadCell? <==> s.rpc.LoadCell?))
  {
  }

  /** Every call on an opened stream that is past its receive loop has had its last RecvMsg, and its look at the cell. */
  lemma {:induction false} ReturnedWasJudged(g: Setup, states: seq<State>, i: nat) returns (j: nat, last: Error, l: nat)
    requires IsRun(g, states) && i < |states| && g.open.None? && PastLoop(states[i])
    ensures 0 < j <= i && Takes(g, states, j, Receive(Err(last)))
    ensures !states[i].rpc.LoadCell? ==> j < l <= i && Takes(g, states, l, Load)
    decreases i
  {
    assert i > 0;
    var a := Stepped(g, states, i);
    hide Apply, Enabled, IsRun, PastLoop;
    if PastLoop(states[i-1]) {
      j, last, l := ReturnedWasJudged(g, states, i - 1);
      OutOfLoad(g, states[i-1], a);
      if a.Load? { l := i; }
    } else {
      IntoPastLoop(g, states[i-1], a);
      j, last, l := i, a.r.error, 0;
    }
  }

  /** A supplier's error comes out as a non-nil result, with no trailers, whenever the sender had stored it by the
      time of the receiver's look at the cell; otherwise the receive loop alone decides. */
  lemma SupplierErrorSurfaces(g: Setup, states: seq<State>, j: nat, last: Error, l: nat, i: nat)
    requires IsRun(g, states) && j < l <= i < |states| && states[i].rpc.Returned?
    requires Takes(g, states, j, Receive(Err(last))) && Takes(g, states, l, Load)
    requires states[i].ended && !g.end.Eof?
    ensures states[i].cell == Some(Plain) && states[i].cancelled
    ensures states[i].rpc.ok <==> states[l-1].cell.None? && !last.Plain?
    ensures !states[i].rpc.ok ==> forall c :: Trailers(c) !in states[i].events
  {
    hide IsRun, Apply, Enabled;
    RunInv(g, states, i);
    RunInv(g, states, j - 1);
    ReceivesOnlyOpen(g, states[j-1], last);
    LoadIs(g, states[l-1]);
    LoopStaysOver(g, states, l, i);
    ResultIsTheVerdict(g, states, j, last, l, i);
    assert states[i].seen == states[l-1].cell;
  }

  /** A nil result with no trailers means exactly that the stream failed to open with a status error. */
  lemma SilentSuccess(g: Setup, states: seq<State>, i: nat)
    requires IsRun(g, states) && i < |states| && states[i].rpc.Returned?
    ensures (states[i].rpc.ok && states[i].events == []) <==> (g.open.Some? && g.open.value.Status?)
  {
    RunInv(g, states, i);
  }

  /** The supplier fails, the call is cancelled, the receiver sees the cancellation before the
      sender stores the error: the call returns nil and reports trailers instead. */
  lemma SupplierErrorCanBeLost() returns (g: Setup, states: seq<State>)
    ensures IsRun(g, states)
    ensures var s := states[|states|-1]; s.ended && g.end == Plain && s.rpc == Returned(true) && s.events == [Headers, Trailers(1)]
  {
    hide Enabled, Apply;
    g := Setup([], Plain, None);
    states := [INITIAL];
    var i := 0;
    while i < 10
      invariant 0 <= i <= 10 && |states| == i + 1 && IsRun(g, states)
      invariant states[i] == LostAfter(i)
    {
      var a := LostStep(g, i);
      states := states + [LostAfter(i + 1)];
      assert Next(g, states[i], states[i + 1]);
      i := i + 1;
    }
  }

  lemma LostStep(g: Setup, i: nat) returns (a: Action)
    requires i < 10 && g == Setup([], Plain, None)
    ensures Enabled(LostAfter(i), a) && Apply(g, LostAfter(i), a) == LostAfter(i + 1)
  {
    a := [Open, Header(true), Ask, CancelCall, Receive(Err(Status(1))), Load, Verdict, Store, Done, Join][i];
  }

  /** The states of that run. */
  function LostAfter(i: nat): State
    requires i <= 10
  {
    var a := INITIAL.(spc := AskSupplier, rpc := ReadHeader);
    var b := a.(rpc := Recv, header := true, events := [Headers]);
    var c := b.(spc := Leaving(Some(Plain)), ended := true, cancelled := true);
    var d := c.(recvErr := Some(Status(1)));
    var e := d.(rpc := Waiting(true), events := [Headers, Trailers(1)]);
    match i
    case 0 => INITIAL
    case 1 => a
    case 2 => b
    case 3 => b.(spc := Failed, ended := true)
    case 4 => c
    case 5 => d.(rpc := LoadCell(Some(Status(1))))
    case 6 => d.(rpc := Judge(Some(Status(1))))
    case 7 => e
    case 8 => e.(spc := Stored, cell := Some(Plain))
    case 9 => e.(spc := Gone, cell := Some(Plain))
    case _ => e.(spc := Gone, cell := Some(Plain), rpc := Returned(true))
  }
}
