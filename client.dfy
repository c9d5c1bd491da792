/** The client session: one logical connection to the hub across any number of
    sockets, with a frame dispatcher, a ping timer and a server-silence timer,
    and the peer-to-peer facade built on it.

    The WebSocket is modelled by what the client hands to it (an outbox per
    socket) and by which of its event handlers are still attached; the timers by
    their armed flags; application handlers and callbacks by opaque handles whose
    calls are recorded, in order, in `trace`. */
module ClientSession {
  import opened JsValues
  import opened Common

  /** A frame the client hands to a socket. */
  datatype Outbound =
    | PingFrame                                                          // {type: "ping"}
    | ReqFrame(req: Request)                                             // {type: "req", id, what, data}
    | ResFrame(id: Option<Json>, err: Option<Json>, data: Option<Json>)  // {type: "res", id, err, data}

  /** An inbound message after JSON.parse, told apart by its `type` field. */
  datatype Inbound =
    | InRes(id: Option<Json>, err: Option<Json>, data: Option<Json>)
    | InPush(what: Option<Json>, data: Option<Json>)
    | InReq(id: Option<Json>, what: Option<Json>, data: Option<Json>)
    | InOther

  /** `parsed.type === ...`; a value without a `type` of "res", "push" or "req"
      (a pong, a number) is `InOther`. */
  function Classify(parsed: Json): (r: Inbound)
    ensures r.InRes? <==> Field(parsed, "type") == Some(JStr("res"))
    ensures r.InPush? <==> Field(parsed, "type") == Some(JStr("push"))
    ensures r.InReq? <==> Field(parsed, "type") == Some(JStr("req"))
    ensures r.InRes? || r.InReq? ==> r.id == Field(parsed, "id")
  {
    var ty := Field(parsed, "type");
    if ty == Some(JStr("res")) then
      InRes(Field(parsed, "id"), Field(parsed, "err"), Field(parsed, "data"))
    else if ty == Some(JStr("push")) then
      InPush(Field(parsed, "what"), Field(parsed, "data"))
    else if ty == Some(JStr("req")) then
      InReq(Field(parsed, "id"), Field(parsed, "what"), Field(parsed, "data"))
    else InOther
  }

  /** The `reply` closure made for an inbound request: it answers on the socket the
      request came in on, with the request's own id. */
  datatype Replier = Replier(socket: nat, id: Option<Json>)

  /** A registered event handler: an application function, or the filter that a
      PeerToPeer facade installs on `receiveReq`. */
  datatype Listener = Handler(handle: nat) | PeerFilter(handlers: map<string, nat>)

  datatype Event = Connected | Disconnected | ReceivePush | ReceiveReq

  /** The arguments an event's handlers are called with. */
  datatype Args =
    | ConnectedArgs(socket: nat)
    | NoArgs
    | PushArgs(what: Option<Json>, data: Option<Json>)
    | ReqArgs(what: Option<Json>, data: Option<Json>, reply: Replier)

  /** What the client has called, in order. */
  datatype Effect =
    | Called(handler: nat, args: Args)
    | PeerHandlerCalled(handler: nat, from: Option<Json>, data: Option<Json>, reply: Replier)
    | ResponseDelivered(call: Invocation)

  /** What the PeerToPeer filter does with one inbound request. */
  datatype PeerOutcome =
    | Ignored
    | Invoke(handler: nat, from: Option<Json>, data: Option<Json>)
    | Throws

  /** The PeerToPeer filter: only a request whose `what` is "msg" is considered; its
      `data.msg.what` selects an own property of the handler table. Destructuring
      an undefined or null `data` or `msg` throws a TypeError, and so does a
      `what` that cannot be converted to a property key. */
  function PeerReceive(handlers: map<string, nat>, what: Option<Json>, data: Option<Json>): (r: PeerOutcome)
    ensures what != Some(JStr("msg")) ==> r == Ignored
    ensures r.Invoke? ==> r.handler in handlers.Values
  {
    if what != Some(JStr("msg")) then Ignored
    else match FieldOf(data, "from")
      case None => Throws
      case Some(from) =>
        var msg := Field(data.value, "msg");
        match FieldOf(msg, "what")
        case None => Throws
        case Some(w) =>
          match KeyText(w)
          case None => Throws
          case Some(key) =>
            if key in handlers then Invoke(handlers[key], from, Field(msg.value, "data"))
            else Ignored
  }

  /** A hub delivery `{from, msg: {what, data}}` reaches the handler registered under
      `what` with `(from, data)`, and nothing is called when there is none. */
  lemma PeerReceiveDelivery(handlers: map<string, nat>, from: Json, what: string, data: Json)
    ensures var msg := JObj(map["what" := JStr(what), "data" := data]);
      PeerReceive(handlers, Some(JStr("msg")), Some(JObj(map["from" := from, "msg" := msg])))
        == if what in handlers then Invoke(handlers[what], Some(from), Some(data)) else Ignored
  {
  }

  /** A request whose `what` is not "msg" never reaches a peer handler. */
  lemma PeerReceiveIgnoresOthers(handlers: map<string, nat>, what: Option<Json>, data: Option<Json>)
    requires what != Some(JStr("msg"))
    ensures PeerReceive(handlers, what, data) == Ignored
  {
  }

  /** A `msg` whose `what` is an object with its own `toString` field makes the
      filter throw: `hasOwnProperty` cannot convert it to a key. */
  lemma PeerReceiveUnconvertibleWhat(handlers: map<string, nat>, from: Json, fields: map<string, Json>)
    requires "toString" in fields
    ensures var msg := JObj(map["what" := JObj(fields)]);
      PeerReceive(handlers, Some(JStr("msg")), Some(JObj(map["from" := from, "msg" := msg]))) == Throws
  {
    OwnToStringThrows(fields, []);
  }

  /** The calls `ls.forEach(h => h(args))` makes, stopping where a PeerToPeer filter
      throws. A PeerToPeer filter reacts only to requests. */
  function Dispatch(ls: seq<Listener>, args: Args): seq<Effect>
  {
    if |ls| == 0 then []
    else match ls[0]
      case Handler(h) => [Called(h, args)] + Dispatch(ls[1..], args)
      case PeerFilter(hs) =>
        if !args.ReqArgs? then Dispatch(ls[1..], args)
        else match PeerReceive(hs, args.what, args.data)
          case Ignored => Dispatch(ls[1..], args)
          case Invoke(h, from, d) => [PeerHandlerCalled(h, from, d, args.reply)] + Dispatch(ls[1..], args)
          case Throws => []
  }

  predicate AllHandlers(ls: seq<Listener>)
  {
    forall i :: 0 <= i < |ls| ==> ls[i].Handler?
  }

  /** Application handlers are all called, each once, in the order they were
      registered, with the event's arguments. */
  lemma {:induction false} DispatchCallsEveryHandler(ls: seq<Listener>, args: Args)
    requires AllHandlers(ls)
    ensures |Dispatch(ls, args)| == |ls|
    ensures forall i :: 0 <= i < |ls| ==> Dispatch(ls, args)[i] == Called(ls[i].handle, args)
  {
    if |ls| > 0 {
      DispatchCallsEveryHandler(ls[1..], args);
    }
  }

  /** A filter that throws ends the forEach: the handlers registered before it have
      been called, and none of those after it is. */
  lemma {:induction false} DispatchStopsAtThrow(before: seq<Listener>, hs: map<string, nat>, after: seq<Listener>, args: Args)
    requires AllHandlers(before)
    requires args.ReqArgs? && PeerReceive(hs, args.what, args.data) == Throws
    ensures Dispatch(before + [PeerFilter(hs)] + after, args) == Dispatch(before, args)
  {
    if |before| == 0 {
      assert before + [PeerFilter(hs)] + after == [PeerFilter(hs)] + after;
    } else {
      assert (before + [PeerFilter(hs)] + after)[1..] == before[1..] + [PeerFilter(hs)] + after;
      DispatchStopsAtThrow(before[1..], hs, after, args);
    }
  }

  /** The frames a replay sends: each stored request frame, unchanged, in order. */
  function Resend(entries: seq<Entry>): seq<Outbound>
  {
    if |entries| == 0 then []
    else Resend(entries[..|entries| - 1]) + [ReqFrame(entries[|entries| - 1].request)]
  }

  lemma {:induction false} ResendUnchanged(entries: seq<Entry>)
    ensures |Resend(entries)| == |entries|
    ensures forall i :: 0 <= i < |entries| ==> Resend(entries)[i] == ReqFrame(entries[i].request)
  {
    if |entries| > 0 {
      ResendUnchanged(entries[..|entries| - 1]);
    }
  }

  /** Replay fidelity: on a valid correlator, a replay sends exactly the pending
      request frames, unchanged (same id, what and data), in ascending id order, and
      every pending request is among them. */
  lemma {:induction false} ReplayFidelity(pending: map<nat, Entry>, nextId: nat)
    requires WellKeyed(pending) && forall id :: id in pending ==> id < nextId
    ensures var out := Resend(PendingList(pending, nextId));
      && (forall i :: 0 <= i < |out| ==>
            out[i].ReqFrame? && out[i].req.id in pending && out[i].req == pending[out[i].req.id].request)
      && (forall i, j :: 0 <= i < j < |out| ==> out[i].req.id < out[j].req.id)
      && (forall id :: id in pending ==> ReqFrame(pending[id].request) in out)
  {
    ReplaySendsStoredFrames(pending, nextId);
    ReplayComplete(pending, nextId);
  }

  lemma {:induction false} ReplaySendsStoredFrames(pending: map<nat, Entry>, nextId: nat)
    requires WellKeyed(pending)
    ensures var out := Resend(PendingList(pending, nextId));
      && (forall i :: 0 <= i < |out| ==>
            out[i].ReqFrame? && out[i].req.id in pending && out[i].req == pending[out[i].req.id].request)
      && (forall i, j :: 0 <= i < j < |out| ==> out[i].req.id < out[j].req.id)
  {
    var entries := PendingList(pending, nextId);
    ResendUnchanged(entries);
  }

  lemma {:induction false} ReplayComplete(pending: map<nat, Entry>, nextId: nat)
    requires WellKeyed(pending) && forall id :: id in pending ==> id < nextId
    ensures forall id :: id in pending ==> ReqFrame(pending[id].request) in Resend(PendingList(pending, nextId))
  {
    var entries := PendingList(pending, nextId);
    ResendUnchanged(entries);
    var out := Resend(entries);
    forall id | id in pending
      ensures ReqFrame(pending[id].request) in out
    {
      PendingListComplete(pending, nextId, id);
      var i :| 0 <= i < |entries| && entries[i].request.id == id;
      assert out[i] == ReqFrame(pending[id].request);
    }
  }

  /** One socket as the client left it: what was handed to it, and which of its
      handlers are still attached. */
  datatype Socket = Socket(
    outbox: seq<Outbound>,
    listening: bool,     // onmessage attached
    closeWatched: bool,  // onclose attached (only after it opened)
    hasOpened: bool,
    closed: bool)

  const NewSocket := Socket([], true, false, false, false)

  /** A socket that `connect` replaced: handlers detached and closed. */
  function Retire(s: Socket): Socket
  {
    s.(listening := false, closeWatched := false, closed := true)
  }

  function SendOn(log: seq<Socket>, n: nat, f: Outbound): (r: seq<Socket>)
    requires n < |log|
    ensures |r| == |log| && r[n].outbox == log[n].outbox + [f]
  {
    log[n := log[n].(outbox := log[n].outbox + [f])]
  }

  /** `send` on a socket that has opened: a closed socket discards the frame, an
      open one transmits it. */
  function Transmit(log: seq<Socket>, n: nat, f: Outbound): (r: seq<Socket>)
    requires n < |log|
    ensures |r| == |log| && forall i :: 0 <= i < |r| && i != n ==> r[i] == log[i]
    ensures r[n] == if log[n].closed then log[n] else log[n].(outbox := log[n].outbox + [f])
  {
    if log[n].closed then log else SendOn(log, n, f)
  }

  /** `getPending().forEach(([req,]) => socket.sendJSON(req))`: the outbox after
      each stored frame has been sent in turn. */
  method SendAll(outbox: seq<Outbound>, entries: seq<Entry>) returns (out: seq<Outbound>)
    ensures out == outbox + Resend(entries)
  {
    out := outbox;
    var i := 0;
    while i < |entries|
      invariant 0 <= i <= |entries|
      invariant out == outbox + Resend(entries[..i])
    {
      out := out + [ReqFrame(entries[i].request)];
      assert entries[..i + 1][..i] == entries[..i];
      i := i + 1;
    }
    assert entries[..|entries|] == entries;
  }

  /** `connect` retires the current socket, if there is one. */
  function RetireLast(log: seq<Socket>): (r: seq<Socket>)
    ensures |r| == |log|
  {
    if |log| == 0 then log else log[|log| - 1 := Retire(log[|log| - 1])]
  }

  /** The `{to, msg: {what, data}}` payload of a `forw` request. */
  function ForwPayload(to: Json, what: Json, data: Json): Json
  {
    JObj(map["to" := to, "msg" := JObj(map["what" := what, "data" := data])])
  }

  class Client {
    const requestReply: RequestReply
    /** Re-armed by every request sent; on firing, sends a ping and re-arms. */
    const sendPingTimer: Timer
    /** Re-armed by every inbound frame; on firing, reconnects. */
    const serverTimeoutTimer: Timer

    var connectedHandlers: seq<Listener>
    var disconnectedHandlers: seq<Listener>
    var receivePushHandlers: seq<Listener>
    var receiveReqHandlers: seq<Listener>

    /** How many sockets have been created. */
    var sockets: nat
    /** The number of the current socket; -1 before the first `Connect`. */
    var socketNumber: int
    /** Every socket created, by number; the last one is the current socket. */
    var socketLog: seq<Socket>

    /** Handler and callback calls, in order. */
    var trace: seq<Effect>

    ghost predicate Valid()
      reads this, requestReply, sendPingTimer
    {
      && requestReply.Valid()
      && sendPingTimer != serverTimeoutTimer
      && |socketLog| == sockets
      && socketNumber == sockets - 1
      && (forall i :: 0 <= i < sockets - 1 ==> socketLog[i] == Retire(socketLog[i]))
      && (sockets > 0 ==>
            var s := socketLog[sockets - 1];
            s.listening && s.closeWatched == s.hasOpened && (s.hasOpened ==> !s.closed))
      && (sendPingTimer.armed ==> SendReturns())
      && AllHandlers(connectedHandlers)
      && AllHandlers(disconnectedHandlers)
      && AllHandlers(receivePushHandlers)
    }

    /** The four handler lists. */
    ghost function Handlers(): seq<seq<Listener>>
      reads this
    {
      [connectedHandlers, disconnectedHandlers, receivePushHandlers, receiveReqHandlers]
    }

    /** Sending on the current socket returns normally: there is one, and it is no
        longer connecting (it has opened, or closed without opening). */
    predicate SendReturns()
      reads this
    {
      0 <= socketNumber < |socketLog| && (socketLog[socketNumber].hasOpened || socketLog[socketNumber].closed)
    }

    constructor ()
      ensures Valid()
      ensures fresh(requestReply) && fresh(sendPingTimer) && fresh(serverTimeoutTimer)
      ensures requestReply.nextId == 0 && requestReply.pending == map[]
      ensures !sendPingTimer.armed && !serverTimeoutTimer.armed
      ensures sockets == 0 && socketNumber == -1 && socketLog == [] && trace == []
      ensures connectedHandlers == disconnectedHandlers == receivePushHandlers == receiveReqHandlers == []
    {
      requestReply := new RequestReply();
      sendPingTimer := new Timer();
      serverTimeoutTimer := new Timer();
      connectedHandlers, disconnectedHandlers := [], [];
      receivePushHandlers, receiveReqHandlers := [], [];
      sockets, socketNumber, socketLog := 0, -1, [];
      trace := [];
    }

    /** Registers a handler for an event. Only `receiveReq` is given a PeerToPeer
        filter. */
    method On(event: Event, l: Listener)
      requires Valid()
      requires event != ReceiveReq ==> l.Handler?
      modifies this
      ensures Valid()
      ensures connectedHandlers == old(connectedHandlers) + (if event == Connected then [l] else [])
      ensures disconnectedHandlers == old(disconnectedHandlers) + (if event == Disconnected then [l] else [])
      ensures receivePushHandlers == old(receivePushHandlers) + (if event == ReceivePush then [l] else [])
      ensures receiveReqHandlers == old(receiveReqHandlers) + (if event == ReceiveReq then [l] else [])
      ensures sockets == old(sockets) && socketNumber == old(socketNumber)
      ensures socketLog == old(socketLog) && trace == old(trace)
    {
      match event
      case Connected => connectedHandlers := connectedHandlers + [l];
      case Disconnected => disconnectedHandlers := disconnectedHandlers + [l];
      case ReceivePush => receivePushHandlers := receivePushHandlers + [l];
      case ReceiveReq => receiveReqHandlers := receiveReqHandlers + [l];
    }

    /** `ls.forEach(h => h(args))`. */
    method Emit(ls: seq<Listener>, args: Args)
      modifies this`trace
      ensures trace == old(trace) + Dispatch(ls, args)
    {
      var i := 0;
      while i < |ls|
        invariant 0 <= i <= |ls|
        invariant trace + Dispatch(ls[i..], args) == old(trace) + Dispatch(ls, args)
        decreases |ls| - i
      {
        assert ls[i..][0] == ls[i] && ls[i..][1..] == ls[i + 1..];
        match ls[i] {
          case Handler(h) =>
            trace := trace + [Called(h, args)];
          case PeerFilter(hs) =>
            if args.ReqArgs? {
              match PeerReceive(hs, args.what, args.data) {
                case Ignored =>
                case Invoke(h, from, d) =>
                  trace := trace + [PeerHandlerCalled(h, from, d, args.reply)];
                case Throws =>
                  return;
              }
            }
        }
        i := i + 1;
      }
      assert ls[i..] == [];
    }

    /** (Re)connects. The ping timer is disarmed. An existing socket first has the
        disconnected handlers run, then its message and close handlers detached, and
        is closed. The new socket gets the next number, and the server-silence timer
        is armed. */
    method Connect()
      requires Valid()
      modifies this, sendPingTimer, serverTimeoutTimer
      ensures Valid()
      ensures sockets == old(sockets) + 1 && socketNumber == old(sockets)
      ensures socketLog == RetireLast(old(socketLog)) + [NewSocket]
      ensures trace == old(trace) + (if old(sockets) > 0 then Dispatch(old(disconnectedHandlers), NoArgs) else [])
      ensures !sendPingTimer.armed && serverTimeoutTimer.armed
      ensures Handlers() == old(Handlers())
      ensures unchanged(requestReply)
    {
      sendPingTimer.Unset();
      if sockets > 0 {
        Emit(disconnectedHandlers, NoArgs);
        socketLog := RetireLast(socketLog);
      }
      socketLog := socketLog + [NewSocket];
      socketNumber := sockets;
      sockets := sockets + 1;
      serverTimeoutTimer.Set();
    }

    /** The current socket opens. Its close handler is attached; every pending
        request frame is sent again, unchanged, in ascending id order; then both
        timers are armed and the connected handlers run with the socket. */
    method Open()
      requires Valid() && sockets > 0 && !socketLog[sockets - 1].hasOpened && !socketLog[sockets - 1].closed
      modifies this, sendPingTimer, serverTimeoutTimer
      ensures Valid()
      ensures var n := old(sockets) - 1;
        var s := old(socketLog[sockets - 1]);
        var replay := Resend(PendingList(requestReply.pending, requestReply.nextId));
        socketLog == old(socketLog)[n := s.(hasOpened := true, closeWatched := true, outbox := s.outbox + replay)]
      ensures sendPingTimer.armed && serverTimeoutTimer.armed
      ensures trace == old(trace) + Dispatch(connectedHandlers, ConnectedArgs(old(sockets) - 1))
      ensures sockets == old(sockets) && socketNumber == old(socketNumber)
      ensures Handlers() == old(Handlers())
      ensures unchanged(requestReply)
    {
      var n := sockets - 1;
      var entries := requestReply.GetPending();
      var out := SendAll(socketLog[n].outbox, entries);
      socketLog := socketLog[n := socketLog[n].(hasOpened := true, closeWatched := true, outbox := out)];
      sendPingTimer.Set();
      serverTimeoutTimer.Set();
      Emit(connectedHandlers, ConnectedArgs(n));
    }

    /** A message arrives on socket `n`. On a socket whose message handler was
        detached, and for a message that does not parse or parses to null (reading
        its `type` throws inside the same `try`), nothing happens. Otherwise the
        server-silence timer is re-armed, and the frame goes by its type: a `res` to
        the correlator only, a `push` to every receivePush handler, a `req` to every
        receiveReq handler with a reply bound to this socket and the request's id;
        any other frame (a pong) does nothing more. */
    method Receive(n: nat, msg: Option<Json>)
      requires Valid() && n < sockets && socketLog[n].hasOpened
      modifies this, requestReply, serverTimeoutTimer
      ensures Valid()
      ensures socketLog == old(socketLog) && sockets == old(sockets) && socketNumber == old(socketNumber)
      ensures Handlers() == old(Handlers()) && requestReply.nextId == old(requestReply.nextId)
      ensures !old(socketLog[n].listening) || msg.None? || msg == Some(JNull) ==>
        unchanged(this, requestReply, serverTimeoutTimer)
      ensures old(socketLog[n].listening) && msg.Some? && msg != Some(JNull) ==>
        serverTimeoutTimer.armed &&
        match Classify(msg.value)
        case InRes(id, err, data) =>
          if KeyIndex(id).Some? && KeyIndex(id).value in old(requestReply.pending) then
            var entry := old(requestReply.pending)[KeyIndex(id).value];
            && requestReply.pending == old(requestReply.pending) - {KeyIndex(id).value}
            && trace == old(trace) + (match Fire(entry.callback, err, data)
                                      case None => []
                                      case Some(call) => [ResponseDelivered(call)])
          else requestReply.pending == old(requestReply.pending) && trace == old(trace)
        case InPush(what, data) =>
          requestReply.pending == old(requestReply.pending)
          && trace == old(trace) + Dispatch(receivePushHandlers, PushArgs(what, data))
        case InReq(id, what, data) =>
          requestReply.pending == old(requestReply.pending)
          && trace == old(trace) + Dispatch(receiveReqHandlers, ReqArgs(what, data, Replier(n, id)))
        case InOther =>
          requestReply.pending == old(requestReply.pending) && trace == old(trace)
    {
      if !socketLog[n].listening || msg.None? || msg == Some(JNull) {
        return;
      }
      serverTimeoutTimer.Set();
      match Classify(msg.value) {
        case InRes(id, err, data) =>
          var fired := requestReply.HandleResponse(id, err, data);
          if fired.Some? {
            trace := trace + [ResponseDelivered(fired.value)];
          }
        case InPush(what, data) =>
          Emit(receivePushHandlers, PushArgs(what, data));
        case InReq(id, what, data) =>
          Emit(receiveReqHandlers, ReqArgs(what, data, Replier(n, id)));
        case InOther =>
      }
    }

    /** The `reply` closure of an inbound request: `{type: "res", id, err, data}`
        with the request's id, on the socket the request came in on. A socket that
        has since been closed discards it. The ping timer is not re-armed. */
    method Reply(r: Replier, err: Option<Json>, data: Option<Json>)
      requires Valid() && r.socket < sockets && socketLog[r.socket].hasOpened
      modifies this
      ensures Valid()
      ensures socketLog == Transmit(old(socketLog), r.socket, ResFrame(r.id, err, data))
      ensures sockets == old(sockets) && socketNumber == old(socketNumber)
      ensures trace == old(trace) && Handlers() == old(Handlers())
    {
      socketLog := Transmit(socketLog, r.socket, ResFrame(r.id, err, data));
    }

    /** Socket `n` closes. Only the current socket, once it has opened, still has a
        close handler: the disconnected handlers run, the ping timer is disarmed and
        `Connect` runs, which runs the disconnected handlers a second time. Any other
        socket (a retired one, or the current one refused before it opened) is just
        closed. */
    method CloseEvent(n: nat)
      requires Valid() && n < sockets
      modifies this, sendPingTimer, serverTimeoutTimer
      ensures Valid()
      ensures Handlers() == old(Handlers()) && unchanged(requestReply)
      ensures !old(socketLog[n].closeWatched) ==>
        && socketLog == old(socketLog)[n := old(socketLog[n]).(closed := true)]
        && sockets == old(sockets) && socketNumber == old(socketNumber) && trace == old(trace)
        && unchanged(sendPingTimer, serverTimeoutTimer)
      ensures old(socketLog[n].closeWatched) ==>
        && n == old(sockets) - 1
        && sockets == old(sockets) + 1 && socketNumber == old(sockets)
        && socketLog == old(socketLog)[n := Retire(old(socketLog[n]))] + [NewSocket]
        && trace == old(trace) + Dispatch(disconnectedHandlers, NoArgs) + Dispatch(disconnectedHandlers, NoArgs)
        && !sendPingTimer.armed && serverTimeoutTimer.armed
    {
      if socketLog[n].closeWatched {
        Emit(disconnectedHandlers, NoArgs);
        sendPingTimer.Unset();
        Connect();
      } else {
        socketLog := socketLog[n := socketLog[n].(closed := true)];
      }
    }

    /** The ping timer elapses: a ping is sent on the current socket (a socket that
        closed without opening discards it) and the timer is armed again. */
    method PingTimerFires()
      requires Valid()
      modifies this, sendPingTimer
      ensures Valid()
      ensures old(sendPingTimer.armed) ==>
        socketLog == Transmit(old(socketLog), old(sockets) - 1, PingFrame) && sendPingTimer.armed
      ensures !old(sendPingTimer.armed) ==> socketLog == old(socketLog) && !sendPingTimer.armed
      ensures sockets == old(sockets) && socketNumber == old(socketNumber)
      ensures trace == old(trace) && Handlers() == old(Handlers())
    {
      var fired := sendPingTimer.Fire();
      if fired.Some? {
        socketLog := Transmit(socketLog, sockets - 1, PingFrame);
        sendPingTimer.Set();
      }
    }

    /** The server-silence timer elapses: the client reconnects. */
    method ServerTimeoutFires()
      requires Valid()
      modifies this, sendPingTimer, serverTimeoutTimer
      ensures Valid()
      ensures Handlers() == old(Handlers()) && unchanged(requestReply)
      ensures !old(serverTimeoutTimer.armed) ==> unchanged(this, sendPingTimer) && !serverTimeoutTimer.armed
      ensures old(serverTimeoutTimer.armed) ==>
        && sockets == old(sockets) + 1 && socketNumber == old(sockets)
        && socketLog == RetireLast(old(socketLog)) + [NewSocket]
        && trace == old(trace) + (if old(sockets) > 0 then Dispatch(disconnectedHandlers, NoArgs) else [])
        && !sendPingTimer.armed && serverTimeoutTimer.armed
    {
      var fired := serverTimeoutTimer.Fire();
      if fired.Some? {
        Connect();
      }
    }

    /** Sends a new request. The correlator stores it first; the returned frame is
        then sent on the current socket and the ping timer re-armed. A socket that
        closed without opening discards the frame without complaint. With no socket,
        or one still connecting, sending throws: the request stays pending (the next
        open replays it) and the timer is left as it was. */
    method Request(what: string, data: Json, callback: Callback) returns (sent: bool)
      requires Valid()
      modifies this, requestReply, sendPingTimer
      ensures Valid()
      ensures sent == old(SendReturns())
      ensures var req := Common.Request(old(requestReply.nextId), what, data);
        && requestReply.nextId == old(requestReply.nextId) + 1
        && requestReply.pending == old(requestReply.pending)[req.id := Entry(req, callback)]
        && socketLog == (if sent then Transmit(old(socketLog), old(sockets) - 1, ReqFrame(req)) else old(socketLog))
      ensures sent ==> sendPingTimer.armed
      ensures !sent ==> sendPingTimer.armed == old(sendPingTimer.armed)
      ensures sockets == old(sockets) && socketNumber == old(socketNumber)
      ensures trace == old(trace) && Handlers() == old(Handlers())
    {
      var req := requestReply.CreateRequest(what, data, callback);
      sent := SendReturns();
      if sent {
        socketLog := Transmit(socketLog, sockets - 1, ReqFrame(req));
        sendPingTimer.Set();
      }
    }
  }

  /** The peer-to-peer facade: it registers its filter on the client's
      `receiveReq` event and wraps every send as a `forw` request to the hub. */
  class PeerToPeer {
    const client: Client
    const handlers: map<string, nat>

    constructor (client: Client, handlers: map<string, nat>)
      requires client.Valid()
      modifies client
      ensures this.client == client && this.handlers == handlers
      ensures client.Valid()
      ensures client.receiveReqHandlers == old(client.receiveReqHandlers) + [PeerFilter(handlers)]
      ensures client.connectedHandlers == old(client.connectedHandlers)
      ensures client.disconnectedHandlers == old(client.disconnectedHandlers)
      ensures client.receivePushHandlers == old(client.receivePushHandlers)
      ensures client.socketLog == old(client.socketLog) && client.trace == old(client.trace)
    {
      this.client := client;
      this.handlers := handlers;
      new;
      client.On(ReceiveReq, PeerFilter(handlers));
    }

    /** `send(to, what, data, cb)` is `request("forw", {to, msg: {what, data}}, cb)`. */
    method Send(to: Json, what: Json, data: Json, callback: Callback) returns (sent: bool)
      requires client.Valid()
      modifies client, client.requestReply, client.sendPingTimer
      ensures client.Valid()
      ensures sent == old(client.SendReturns())
      ensures var req := Request(old(client.requestReply.nextId), "forw", ForwPayload(to, what, data));
        && client.requestReply.nextId == old(client.requestReply.nextId) + 1
        && client.requestReply.pending == old(client.requestReply.pending)[req.id := Entry(req, callback)]
        && client.socketLog == (if sent then Transmit(old(client.socketLog), old(client.sockets) - 1, ReqFrame(req))
                                else old(client.socketLog))
      ensures sent ==> client.sendPingTimer.armed
      ensures !sent ==> client.sendPingTimer.armed == old(client.sendPingTimer.armed)
      ensures client.sockets == old(client.sockets) && client.socketNumber == old(client.socketNumber)
      ensures client.trace == old(client.trace) && client.Handlers() == old(client.Handlers())
    {
      sent := client.Request("forw", ForwPayload(to, what, data), callback);
    }
  }
}
