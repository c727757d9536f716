/** Invoking one RPC: unary, client-streaming and server-streaming, against any supplier and any server. */
module Invoke {
  import opened Wrappers

  /** Errors as this code tells them apart: io.EOF, gRPC status errors, and the rest. */
  datatype Error = Eof | Status(code: ErrorCode) | Plain

  const OK := 0

  /** A status error never carries the code OK. */
  type ErrorCode = c: nat | c != OK witness 2

  /** status.FromError: no error is status OK; an error that carries no status gives none. */
  function StatusOf(err: Option<Error>): Option<nat> {
    match err
    case None => Some(OK)
    case Some(Status(code)) => Some(code)
    case Some(_) => None
  }

  datatype Event<Resp> = Headers | Response(resp: Resp) | Trailers(code: nat)

  /** A request message, as the pieces of data merged into it since the last reset. */
  class Message<Data> {
    var fills: seq<Data>

    constructor ()
      ensures fills == []
    {
      fills := [];
    }

    method Reset()
      modifies this
      ensures fills == []
    {
      fills := [];
    }
  }

  /** A request supplier: some data, then an error (io.EOF at the natural end) for ever. */
  class Supplier<Data> {
    const data: seq<Data>
    const end: Error
    var pos: nat

    ghost predicate Valid()
      reads this
    {
      pos <= |data|
    }

    constructor (data: seq<Data>, end: Error)
      ensures Valid() && this.data == data && this.end == end && pos == 0
    {
      this.data, this.end, pos := data, end, 0;
    }

    method Fill(req: Message<Data>) returns (err: Option<Error>)
      requires Valid()
      modifies this`pos, req
      ensures Valid()
      ensures old(pos) < |data| ==> err.None? && pos == old(pos) + 1 && req.fills == old(req.fills) + [data[old(pos)]]
      ensures old(pos) == |data| ==> err == Some(end) && pos == old(pos) && req.fills == old(req.fills)
    {
      if pos == |data| {
        return Some(end);
      }
      req.fills := req.fills + [data[pos]];
      pos := pos + 1;
      err := None;
    }
  }

  /** The event handler, remembering what it was told. */
  class Handler<Resp> {
    var events: seq<Event<Resp>>

    constructor ()
      ensures events == []
    {
      events := [];
    }

    method On(e: Event<Resp>)
      modifies this
      ensures events == old(events) + [e]
    {
      events := events + [e];
    }
  }

  /** The server's side of a call: how each operation on the stream turns out. */
  datatype Server<Resp> = Server(
    sendErr: nat -> Option<Error>,     // the i-th SendMsg
    answer: Result<Resp, Error>,       // CloseAndReceive, or the whole unary call
    headerOk: bool,                    // Header() succeeds
    responses: seq<Resp>,              // RecvMsg yields these,
    last: Error)                       // then this

  /** An open call; it remembers every message passed to SendMsg. */
  class Call<Data, Resp> {
    const server: Server<Resp>
    var sent: seq<seq<Data>>
    var halfCloses: nat
    var received: nat

    constructor (server: Server<Resp>)
      ensures this.server == server && sent == [] && halfCloses == 0 && received == 0
    {
      this.server, sent, halfCloses, received := server, [], 0, 0;
    }

    method SendMsg(req: Message<Data>) returns (err: Option<Error>)
      modifies this`sent
      ensures sent == old(sent) + [req.fills] && err == server.sendErr(|old(sent)|)
    {
      err := server.sendErr(|sent|);
      sent := sent + [req.fills];
    }

    method CloseAndReceive() returns (answer: Result<Resp, Error>)
      modifies this`halfCloses
      ensures halfCloses == old(halfCloses) + 1 && answer == server.answer
    {
      halfCloses := halfCloses + 1;
      answer := server.answer;
    }

    /** A whole unary call: one message out, the answer back. */
    method Exchange(req: Message<Data>) returns (answer: Result<Resp, Error>)
      modifies this`sent
      ensures sent == old(sent) + [req.fills] && answer == server.answer
    {
      sent := sent + [req.fills];
      answer := server.answer;
    }

    method RecvMsg() returns (answer: Result<Resp, Error>)
      requires received <= |server.responses|
      modifies this`received
      ensures old(received) < |server.responses| ==>
                received == old(received) + 1 && answer == Ok(server.responses[old(received)])
      ensures old(received) == |server.responses| ==> received == old(received) && answer == Err(server.last)
    {
      if received == |server.responses| {
        return Err(server.last);
      }
      answer := Ok(server.responses[received]);
      received := received + 1;
    }
  }

  // ---- what a call should do --------------------------------------------------------------

  /** How an upload ends, and after how many messages. */
  datatype Stop = SupplierFailed(n: nat) | Answered(n: nat) | SendFailed(n: nat, err: Error)

  function Upload<Data>(data: seq<Data>, end: Error, sendErr: nat -> Option<Error>, i: nat): (stop: Stop)
    requires i <= |data|
    ensures i <= stop.n <= |data|
    decreases |data| - i
  {
    if i == |data| then if end.Eof? then Answered(i) else SupplierFailed(i)
    else match sendErr(i)
      case None => Upload(data, end, sendErr, i + 1)
      case Some(Eof) => Answered(i + 1)
      case Some(e) => SendFailed(i + 1, e)
  }

  /** The first send error, if any, decides; otherwise the supplier's last word does. */
  lemma {:induction false} UploadEnds<Data>(data: seq<Data>, end: Error, sendErr: nat -> Option<Error>, i: nat)
    requires i <= |data|
    ensures var stop := Upload(data, end, sendErr, i);
            && (forall j :: i <= j < stop.n - 1 ==> sendErr(j).None?)
            && (stop.SupplierFailed? <==> !end.Eof? && forall j :: i <= j < |data| ==> sendErr(j).None?)
            && (stop.Answered? && stop.n < |data| ==> i < stop.n && sendErr(stop.n - 1) == Some(Eof))
            && (stop.SendFailed? ==> i < stop.n && sendErr(stop.n - 1) == Some(stop.err) && stop.err != Eof)
    decreases |data| - i
  {
    if i < |data| && sendErr(i).None? {
      UploadEnds(data, end, sendErr, i + 1);
    }
  }

  /** Each piece of data in a message of its own. */
  function Singly<Data>(data: seq<Data>): seq<seq<Data>> {
    seq(|data|, i requires 0 <= i < |data| => [data[i]])
  }

  lemma SinglyNext<Data>(data: seq<Data>, i: nat)
    requires i < |data|
    ensures Singly(data[..i+1]) == Singly(data[..i]) + [[] + [data[i]]]
  {
    assert [] + [data[i]] == [data[i]];
  }

  function ErrorOf<T>(r: Result<T, Error>): Option<Error> {
    match r case Ok(_) => None case Err(e) => Some(e)
  }

  /** What the caller and the handler learn from an answer: a response is followed by trailers with code 0, a status
      by trailers with its code, and any other error comes back with the handler told nothing. */
  ghost predicate Tells<Resp>(answer: Result<Resp, Error>, before: seq<Event<Resp>>, ok: bool, events: seq<Event<Resp>>) {
    match answer
    case Ok(resp) => ok && events == before + [Response(resp), Trailers(0)]
    case Err(Status(code)) => ok && events == before + [Trailers(code)]
    case Err(_) => !ok && events == []
  }

  /** invokeClientStream.  The result is true for a nil error. */
  method InvokeClientStream<Data, Resp>(call: Result<Call<Data, Resp>, Error>, h: Handler<Resp>,
                                        supplier: Supplier<Data>, req: Message<Data>, noResp: Resp)
    returns (ok: bool)
    requires supplier.Valid() && supplier.pos == 0 && req.fills == []
    requires call.Ok? ==> call.value.sent == [] && call.value.halfCloses == 0
    requires h.events == []
    modifies supplier, req, h
    modifies if call.Ok? then {call.value} else {}
    ensures call.Err? ==> supplier.pos == 0 && h.events == [] && (ok <==> call.error.Status?)
    ensures call.Ok? ==>
              var stop := Upload(supplier.data, supplier.end, call.value.server.sendErr, 0);
              && call.value.sent == Singly(supplier.data[..stop.n])
              && call.value.halfCloses == (if stop.Answered? then 1 else 0)
              && (stop.SupplierFailed? ==> !ok && h.events == [])
              && (!stop.SupplierFailed? ==>
                    Tells(if stop.Answered? then call.value.server.answer else Err(stop.err),
                          if call.value.server.headerOk then [Headers] else [], ok, h.events))
  {
    var err := ErrorOf(call);
    var resp := noResp;
    if call.Ok? {
      var str := call.value;
      ghost var i := 0;
      while err.None?
        invariant supplier.Valid() && supplier.pos == i <= |supplier.data|
        invariant str.sent == Singly(supplier.data[..i])
        invariant str.halfCloses == 0 && h.events == [] && resp == noResp && req.fills == []
        invariant err.None? ==> Upload(supplier.data, supplier.end, str.server.sendErr, 0)
                                == Upload(supplier.data, supplier.end, str.server.sendErr, i)
        invariant err.Some? ==> Upload(supplier.data, supplier.end, str.server.sendErr, 0) == SendFailed(i, err.value)
        decreases err.None?, |supplier.data| - supplier.pos
      {
        err := supplier.Fill(req);
        if err == Some(Eof) {
          var answer := str.CloseAndReceive();
          err := ErrorOf(answer);
          if answer.Ok? { resp := answer.value; }
          break;
        }
        if err.Some? {
          return false;
        }
        err := str.SendMsg(req);
        SinglyNext(supplier.data, i);
        i := i + 1;
        if err == Some(Eof) {
          var answer := str.CloseAndReceive();
          err := ErrorOf(answer);
          if answer.Ok? { resp := answer.value; }
          break;
        }
        req.Reset();
      }
    }
    var stat := StatusOf(err);
    if stat.None? {
      return false;
    }
    if call.Ok? && call.value.server.headerOk {
      h.On(Headers);
    }
    if stat.value == OK {
      h.On(Response(resp));
    }
    if call.Ok? {
      h.On(Trailers(stat.value));
    }
    ok := true;
  }

  // ---- one request only -----------------------------------------------------------------------

  /** Unary and server-streaming calls accept no data or one piece, and then a clean end. */
  predicate AtMostOne<Data>(data: seq<Data>, end: Error) {
    |data| <= 1 && end.Eof?
  }

  /** The two reads both kinds of call begin with. */
  method OnlyRequest<Data>(supplier: Supplier<Data>, req: Message<Data>) returns (ok: bool)
    requires supplier.Valid() && supplier.pos == 0 && req.fills == []
    modifies supplier, req
    ensures ok <==> AtMostOne(supplier.data, supplier.end)
    ensures ok ==> req.fills == supplier.data
  {
    var err := supplier.Fill(req);
    if err.Some? && err != Some(Eof) {
      return false;
    }
    if err != Some(Eof) {
      var again := supplier.Fill(req);
      if again.None? || again != Some(Eof) {
        return false;
      }
    }
    ok := true;
  }

  /** invokeUnary.  Either nothing is sent and nobody is told, or exactly one request goes out
      (empty when there was no data) and the handler hears all of the answer. */
  method InvokeUnary<Data, Resp>(call: Call<Data, Resp>, h: Handler<Resp>,
                                 supplier: Supplier<Data>, req: Message<Data>)
    returns (ok: bool)
    requires supplier.Valid() && supplier.pos == 0 && req.fills == [] && call.sent == [] && h.events == []
    modifies supplier, req, h, call
    ensures call.sent == if AtMostOne(supplier.data, supplier.end) then [supplier.data] else []
    ensures if AtMostOne(supplier.data, supplier.end) then Tells(call.server.answer, [Headers], ok, h.events)
            else !ok && h.events == []
  {
    ok := OnlyRequest(supplier, req);
    if !ok {
      return;
    }
    var answer := call.Exchange(req);
    var stat := StatusOf(ErrorOf(answer));
    if stat.None? {
      return false;
    }
    h.On(Headers);
    if stat.value == OK {
      h.On(Response(answer.value));
    }
    h.On(Trailers(stat.value));
  }

  function Responses<Resp>(rs: seq<Resp>): seq<Event<Resp>> {
    seq(|rs|, i requires 0 <= i < |rs| => Response(rs[i]))
  }

  /** The error a receive loop leaves: io.EOF is a clean end. */
  function EndOf(last: Error): Option<Error> {
    if last.Eof? then None else Some(last)
  }

  /** invokeServerStream: every response the server gave is passed on, in order, between
      headers and trailers; trailers come exactly when the result is nil and a stream was open. */
  method InvokeServerStream<Data, Resp>(call: Result<Call<Data, Resp>, Error>, h: Handler<Resp>,
                                        supplier: Supplier<Data>, req: Message<Data>)
    returns (ok: bool)
    requires supplier.Valid() && supplier.pos == 0 && req.fills == [] && h.events == []
    requires call.Ok? ==> call.value.received == 0 && call.value.sent == []
    modifies supplier, req, h
    modifies if call.Ok? then {call.value} else {}
    ensures !AtMostOne(supplier.data, supplier.end) ==> !ok && h.events == [] && (call.Ok? ==> call.value.sent == [])
    ensures AtMostOne(supplier.data, supplier.end) && call.Err? ==> h.events == [] && (ok <==> call.error.Status?)
    ensures AtMostOne(supplier.data, supplier.end) && call.Ok? ==>
              var server := call.value.server;
              var heard := (if server.headerOk then [Headers] else []) + Responses(server.responses);
              && call.value.sent == [supplier.data]
              && match server.last
                 case Eof => ok && h.events == heard + [Trailers(0)]
                 case Status(code) => ok && h.events == heard + [Trailers(code)]
                 case Plain => !ok && h.events == heard
  {
    ok := OnlyRequest(supplier, req);
    if !ok {
      return;
    }
    var err := ErrorOf(call);
    if call.Ok? {
      var str := call.value;
      str.sent := str.sent + [req.fills];
      if str.server.headerOk {
        h.On(Headers);
      }
      ghost var head := h.events;
      while err.None?
        invariant err.None? && str.received <= |str.server.responses|
        invariant str.sent == [supplier.data]
        invariant h.events == head + Responses(str.server.responses[..str.received])
        decreases |str.server.responses| - str.received
      {
        var answer := str.RecvMsg();
        if answer.Err? {
          err := EndOf(answer.error);
          assert str.server.responses[..str.received] == str.server.responses;
          break;
        }
        h.On(Response(answer.value));
        ResponsesNext(str.server.responses, str.received - 1);
      }
    }
    var stat := StatusOf(err);
    if stat.None? {
      return false;
    }
    if call.Ok? {
      h.On(Trailers(stat.value));
    }
  }

  lemma ResponsesNext<Resp>(rs: seq<Resp>, i: nat)
    requires i < |rs|
    ensures Responses(rs[..i+1]) == Responses(rs[..i]) + [Response(rs[i])]
  {
    assert rs[..i+1][..i] == rs[..i];
  }
}
