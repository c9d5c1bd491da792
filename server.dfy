/** The hub: a registry of live connections, each given a sequential id, and the
    per-message command dispatcher (`lspeers`, `broadcast`, `narrowcast`, `ping`,
    `leave`) with its two kinds of error.

    A socket is named by the id its connection was given (each connection event
    brings one socket). Ids travel on the wire as their decimal text
    (NatToString). What the hub sends is recorded, in order, as pairs of
    destination and frame. */
module Hub {
  import opened JsValues

  /** The `param` of a `{what, param}` push. */
  datatype PushBody =
    | SetPeers(you: nat, peers: seq<nat>)                   // what: "setPeers"
    | Broadcast(from: nat, msg: Option<Json>)               // what: "broadcast"
    | Narrowcast(from: nat, reqId: int, msg: Option<Json>)  // what: "narrowcast"

  /** The `param` of a reply; `NoParam` is an undefined one, left out of the frame. */
  datatype ReplyParam = NoParam | PeerList(peers: seq<nat>)

  datatype HubFrame =
    | Push(body: PushBody)                          // {what, param}
    | Reply(reqId: int, param: ReplyParam)          // {reqId, param}
    | ErrorReply(rawReqId: Option<Json>, err: string)  // {reqId, err}; an undefined reqId is left out

  type Send = (nat, HubFrame)

  /** What the handler throws: an InvalidRequest carries the message the client
      sees; anything else is reported as "server error". */
  datatype Failure = InvalidRequest(message: string) | ServerError

  function ErrorText(f: Failure): string
  {
    match f
    case InvalidRequest(m) => m
    case ServerError => "server error"
  }

  /** The registry after one message, and what the message made the hub send. */
  datatype Outcome = Outcome(connections: set<nat>, sends: seq<Send>)

  /** The same push to every socket in `ids`, in order. */
  function PushAll(ids: seq<nat>, body: PushBody): seq<Send>
  {
    if |ids| == 0 then []
    else PushAll(ids[..|ids| - 1], body) + [(ids[|ids| - 1], Push(body))]
  }

  /** The sockets the sends go to, in order. */
  function Destinations(sends: seq<Send>): (r: seq<nat>)
    ensures |r| == |sends| && forall i :: 0 <= i < |r| ==> r[i] == sends[i].0
  {
    seq(|sends|, i requires 0 <= i < |sends| => sends[i].0)
  }

  /** `PushAll` sends exactly one frame to each socket of `ids`, in that order, and
      every frame is the push. */
  lemma {:induction false} PushAllShape(ids: seq<nat>, body: PushBody)
    ensures Destinations(PushAll(ids, body)) == ids
    ensures forall i :: 0 <= i < |PushAll(ids, body)| ==> PushAll(ids, body)[i].1 == Push(body)
  {
    if |ids| > 0 {
      PushAllShape(ids[..|ids| - 1], body);
    }
  }

  /** One more id for the enumeration adds at most one push, at the end. */
  lemma PushAllStep(conns: set<nat>, k: nat, body: PushBody)
    ensures PushAll(IdsBelow(conns, k + 1), body) ==
      PushAll(IdsBelow(conns, k), body) + (if k in conns then [(k, Push(body))] else [])
  {
    var before := IdsBelow(conns, k);
    if k in conns {
      assert IdsBelow(conns, k + 1) == before + [k];
      assert (before + [k])[..|before|] == before;
    } else {
      assert IdsBelow(conns, k + 1) == before + [];
      assert before + [] == before;
    }
  }

  /** `pushSetPeers(you)`: every registered socket, in ascending id order, is told
      `you` and the registered ids other than `you`. */
  function SetPeersPushes(conns: set<nat>, bound: nat, you: nat): seq<Send>
  {
    PushAll(IdsBelow(conns, bound), SetPeers(you, IdsBelow(conns - {you}, bound)))
  }

  /** A parsed message: either its `reqId` is an integer, or handling stops with a
      plain Error (`reqId` is None when JSON.parse or the destructuring threw
      before it was read). */
  datatype Parsed =
    | Unreadable(rawReqId: Option<Json>)
    | Parsed(reqId: int, cmd: Option<Json>, param: Option<Json>)

  function ParseRequest(message: Option<Json>): (r: Parsed)
    ensures r.Parsed? <==> message.Some? && Field(message.value, "reqId").Some? && Field(message.value, "reqId").value.JInt?
    ensures r.Parsed? ==>
      Field(message.value, "reqId") == Some(JInt(r.reqId)) && r.cmd == Field(message.value, "cmd") && r.param == Field(message.value, "param")
    ensures r.Unreadable? && message.Some? ==> r.rawReqId == Field(message.value, "reqId")
  {
    match message
    case None => Unreadable(None)
    case Some(JNull) => Unreadable(None)
    case Some(v) =>
      match Field(v, "reqId")
      case Some(JInt(r)) => Parsed(r, Field(v, "cmd"), Field(v, "param"))
      case other => Unreadable(other)
  }

  /** `dst in connections` when only the registry's own keys count: the value's
      text must be the decimal text of a registered id. */
  predicate Registered(conns: set<nat>, dst: Option<Json>)
  {
    KeyIndex(dst).Some? && KeyIndex(dst).value in conns
  }

  function Fail(conns: set<nat>, sender: nat, reqId: int, f: Failure): Outcome
  {
    Outcome(conns, [(sender, ErrorReply(Some(JInt(reqId)), ErrorText(f)))])
  }

  /** `narrowcast`, with `dst` checked against the registry's own keys. Destructuring
      a missing `param`, or a `dst` that cannot be converted to a key, throws a
      TypeError. A push only ever goes to a registered socket, and the last frame
      always goes to the sender. */
  function NarrowcastCommand(conns: set<nat>, sender: nat, reqId: int, param: Option<Json>): (r: Outcome)
    ensures r.connections == conns && 1 <= |r.sends| <= 2 && r.sends[|r.sends| - 1].0 == sender
    ensures |r.sends| == 2 ==> r.sends[0].1.Push? && r.sends[0].0 in conns
  {
    if param.None? || param == Some(JNull) then Fail(conns, sender, reqId, ServerError)
    else
      var dst := Field(param.value, "dst");
      if KeyText(dst).None? then Fail(conns, sender, reqId, ServerError)
      else if Registered(conns, dst) then
        Outcome(conns, [(KeyIndex(dst).value, Push(Narrowcast(sender, reqId, Field(param.value, "msg")))),
                        (sender, Reply(reqId, NoParam))])
      else Fail(conns, sender, reqId, InvalidRequest("invalid dst"))
  }

  /** One command with an integer `reqId`, from connection `sender`. The registry
      changes only on `leave`, which removes the sender alone. */
  function Command(conns: set<nat>, bound: nat, sender: nat, reqId: int, cmd: Option<Json>, param: Option<Json>): (r: Outcome)
    ensures r.connections == if cmd == Some(JStr("leave")) then conns - {sender} else conns
  {
    if cmd == Some(JStr("lspeers")) then
      Outcome(conns, [(sender, Reply(reqId, PeerList(IdsBelow(conns, bound))))])
    else if cmd == Some(JStr("broadcast")) then
      if param.None? || param == Some(JNull) then
        // `param.msg` throws on the first registered socket, if there is one
        if IdsBelow(conns, bound) == [] then Outcome(conns, [])
        else Fail(conns, sender, reqId, ServerError)
      else Outcome(conns, PushAll(IdsBelow(conns, bound), Broadcast(sender, Field(param.value, "msg"))))
    else if cmd == Some(JStr("narrowcast")) then
      NarrowcastCommand(conns, sender, reqId, param)
    else if cmd == Some(JStr("ping")) then
      Outcome(conns, [(sender, Reply(reqId, NoParam))])
    else if cmd == Some(JStr("leave")) then
      Outcome(conns - {sender}, [(sender, Reply(reqId, NoParam))])
    else match KeyText(cmd)
      case None => Fail(conns, sender, reqId, ServerError)  // `+` cannot convert `cmd`
      case Some(t) => Fail(conns, sender, reqId, InvalidRequest("invalid command: " + t))
  }

  /** The whole message handler: parse, check `reqId`, run the command, and turn
      what it throws into an error reply to the sender. */
  function Respond(conns: set<nat>, bound: nat, sender: nat, message: Option<Json>): (r: Outcome)
    ensures ParseRequest(message).Unreadable? ==>
      r == Outcome(conns, [(sender, ErrorReply(ParseRequest(message).rawReqId, "server error"))])
    ensures r.connections ==
      if ParseRequest(message).Parsed? && ParseRequest(message).cmd == Some(JStr("leave")) then conns - {sender} else conns
  {
    match ParseRequest(message)
    case Unreadable(raw) => Outcome(conns, [(sender, ErrorReply(raw, "server error"))])
    case Parsed(reqId, cmd, param) => Command(conns, bound, sender, reqId, cmd, param)
  }

  // ---------------------------------------------------------------------------
  // What one message does

  /** The registered ids in an enumeration bounded above every id. */
  lemma IdsBelowAll(conns: set<nat>, bound: nat)
    requires forall k :: k in conns ==> k < bound
    ensures forall k :: k in IdsBelow(conns, bound) <==> k in conns
  {
  }

  /** A message that does not parse, or parses to null, is answered "server error"
      with no reqId, and nothing else happens. */
  lemma UnreadableMessage(conns: set<nat>, bound: nat, sender: nat, message: Option<Json>)
    requires message == None || message == Some(JNull)
    ensures Respond(conns, bound, sender, message) == Outcome(conns, [(sender, ErrorReply(None, "server error"))])
  {
  }

  /** A `reqId` that is not an integer is a plain error, not an InvalidRequest: the
      reply is "server error", carrying the `reqId` as it came, and no command runs. */
  lemma NonIntegerReqId(conns: set<nat>, bound: nat, sender: nat, v: Json)
    requires v != JNull
    requires !(Field(v, "reqId").Some? && Field(v, "reqId").value.JInt?)
    ensures Respond(conns, bound, sender, Some(v)) ==
      Outcome(conns, [(sender, ErrorReply(Field(v, "reqId"), "server error"))])
  {
  }

  /** `lspeers` replies to the sender alone, under its reqId, with every registered id
      (the sender's own included), each once, in ascending order. */
  lemma LsPeersListsEveryone(conns: set<nat>, bound: nat, sender: nat, reqId: int, param: Option<Json>)
    requires forall k :: k in conns ==> k < bound
    ensures var o := Command(conns, bound, sender, reqId, Some(JStr("lspeers")), param);
      && o.connections == conns
      && |o.sends| == 1 && o.sends[0].0 == sender && o.sends[0].1.Reply?
      && o.sends[0].1.reqId == reqId && o.sends[0].1.param.PeerList?
      && (forall k :: k in o.sends[0].1.param.peers <==> k in conns)
      && (forall i, j :: 0 <= i < j < |o.sends[0].1.param.peers| ==>
            o.sends[0].1.param.peers[i] < o.sends[0].1.param.peers[j])
  {
  }

  /** `broadcast` with a `param` sends the push `{from: sender, msg: param.msg}` to
      every registered socket, the sender's included, once each in ascending order,
      and sends no reply. */
  lemma BroadcastReachesEveryone(conns: set<nat>, bound: nat, sender: nat, reqId: int, p: Json)
    requires forall k :: k in conns ==> k < bound
    requires p != JNull
    ensures var o := Command(conns, bound, sender, reqId, Some(JStr("broadcast")), Some(p));
      && o.connections == conns
      && Destinations(o.sends) == IdsBelow(conns, bound)
      && (forall k :: k in Destinations(o.sends) <==> k in conns)
      && (forall i :: 0 <= i < |o.sends| ==> o.sends[i].1 == Push(Broadcast(sender, Field(p, "msg"))))
  {
    PushAllShape(IdsBelow(conns, bound), Broadcast(sender, Field(p, "msg")));
  }

  /** `broadcast` without a usable `param` fails with "server error" as soon as there
      is a registered socket, having pushed nothing. */
  lemma BroadcastWithoutParam(conns: set<nat>, bound: nat, sender: nat, reqId: int, param: Option<Json>)
    requires param == None || param == Some(JNull)
    requires exists k :: k in conns && k < bound
    ensures Command(conns, bound, sender, reqId, Some(JStr("broadcast")), param) ==
      Outcome(conns, [(sender, ErrorReply(Some(JInt(reqId)), "server error"))])
  {
    var k :| k in conns && k < bound;
    assert k in IdsBelow(conns, bound);
  }

  /** `narrowcast` to a registered `dst` pushes `{from: sender, reqId, msg}` to that
      socket and then replies to the sender with no param; a number or its decimal
      text both name the socket. */
  lemma NarrowcastToRegistered(conns: set<nat>, bound: nat, sender: nat, reqId: int, p: Json, dst: nat)
    requires p != JNull && dst in conns
    requires Field(p, "dst") == Some(JInt(dst)) || Field(p, "dst") == Some(JStr(NatToString(dst)))
    ensures Command(conns, bound, sender, reqId, Some(JStr("narrowcast")), Some(p)) ==
      Outcome(conns, [(dst, Push(Narrowcast(sender, reqId, Field(p, "msg")))), (sender, Reply(reqId, NoParam))])
  {
    KeyIndexOfId(dst);
  }

  /** `narrowcast` to anything that is not a registered id is an InvalidRequest: the
      sender gets "invalid dst" and no push is sent. */
  lemma NarrowcastToUnregistered(conns: set<nat>, bound: nat, sender: nat, reqId: int, p: Json)
    requires p != JNull && KeyText(Field(p, "dst")).Some?
    requires forall k :: k in conns ==> KeyText(Field(p, "dst")) != Some(NatToString(k))
    ensures var o := Command(conns, bound, sender, reqId, Some(JStr("narrowcast")), Some(p));
      && o == Outcome(conns, [(sender, ErrorReply(Some(JInt(reqId)), "invalid dst"))])
      && forall i :: 0 <= i < |o.sends| ==> !o.sends[i].1.Push?
  {
    var dst := Field(p, "dst");
    if Registered(conns, dst) {
      KeyIndexExact(dst, KeyIndex(dst).value);
      assert false;
    }
  }

  /** A `dst` that cannot be converted to a key (an object with its own `toString`
      field) makes the `in` check throw: "server error", and no push. */
  lemma NarrowcastUnconvertibleDst(conns: set<nat>, bound: nat, sender: nat, reqId: int, fields: map<string, Json>)
    requires "toString" in fields
    ensures var param := Some(JObj(map["dst" := JObj(fields)]));
      && Command(conns, bound, sender, reqId, Some(JStr("narrowcast")), param) ==
           Outcome(conns, [(sender, ErrorReply(Some(JInt(reqId)), "server error"))])
      && NarrowcastAsWritten(conns, sender, reqId, param) == NarrowcastCommand(conns, sender, reqId, param)
  {
    OwnToStringThrows(fields, []);
  }

  /** `leave` removes the sender's id and no other, and replies with no param. */
  lemma LeaveRemovesOnlySender(conns: set<nat>, bound: nat, sender: nat, reqId: int, param: Option<Json>)
    ensures var o := Command(conns, bound, sender, reqId, Some(JStr("leave")), param);
      && o.connections == conns - {sender}
      && (forall k :: k != sender ==> (k in o.connections <==> k in conns))
      && o.sends == [(sender, Reply(reqId, NoParam))]
  {
  }

  /** A command other than the five is an InvalidRequest naming it, with the
      command's text as `+` produces it; when `+` cannot convert the command (an
      object with its own `toString` field) the TypeError gives "server error".
      Nothing else happens. */
  lemma UnknownCommand(conns: set<nat>, bound: nat, sender: nat, reqId: int, cmd: Option<Json>, param: Option<Json>)
    requires cmd !in {Some(JStr("lspeers")), Some(JStr("broadcast")), Some(JStr("narrowcast")),
                      Some(JStr("ping")), Some(JStr("leave"))}
    ensures KeyText(cmd).Some? ==>
      Command(conns, bound, sender, reqId, cmd, param) ==
        Outcome(conns, [(sender, ErrorReply(Some(JInt(reqId)), "invalid command: " + KeyText(cmd).value))])
    ensures KeyText(cmd).None? ==>
      Command(conns, bound, sender, reqId, cmd, param) ==
        Outcome(conns, [(sender, ErrorReply(Some(JInt(reqId)), "server error"))])
  {
  }

  /** Only `leave` changes the registry, and it never gains an id from a message. */
  lemma OnlyLeaveChangesRegistry(conns: set<nat>, bound: nat, sender: nat, message: Option<Json>)
    ensures Respond(conns, bound, sender, message).connections <= conns
    ensures Respond(conns, bound, sender, message).connections != conns ==>
      && ParseRequest(message).Parsed?
      && ParseRequest(message).cmd == Some(JStr("leave"))
      && Respond(conns, bound, sender, message).connections == conns - {sender}
  {
  }

  /** Error handling: a message that fails is answered by exactly one error frame, to
      the sender, and has sent nothing before it; replies, too, go only to the
      sender and carry its reqId. */
  lemma {:induction false} FailuresSendNothingElse(conns: set<nat>, bound: nat, sender: nat, message: Option<Json>)
    ensures var o := Respond(conns, bound, sender, message);
      forall i :: 0 <= i < |o.sends| && o.sends[i].1.ErrorReply? ==>
        o.sends == [(sender, o.sends[i].1)] && o.connections == conns
    ensures var o := Respond(conns, bound, sender, message);
      forall i :: 0 <= i < |o.sends| && o.sends[i].1.Reply? ==>
        o.sends[i].0 == sender && ParseRequest(message).Parsed? && o.sends[i].1.reqId == ParseRequest(message).reqId
  {
    var o := Respond(conns, bound, sender, message);
    match ParseRequest(message)
    case Unreadable(_) =>
    case Parsed(reqId, cmd, param) =>
      if cmd == Some(JStr("broadcast")) && !(param.None? || param == Some(JNull)) {
        PushAllShape(IdsBelow(conns, bound), Broadcast(sender, Field(param.value, "msg")));
      }
  }

  /** `peers` lists the registered ids other than `you`. */
  ghost predicate PeersExcept(peers: seq<nat>, conns: set<nat>, you: nat)
  {
    forall k :: k in peers <==> k in conns && k != you
  }

  /** `pushSetPeers(you)` reaches every registered socket once, in ascending order,
      and tells each `you` and every registered id except `you`. */
  lemma SetPeersReachesEveryone(conns: set<nat>, bound: nat, you: nat)
    requires forall k :: k in conns ==> k < bound
    ensures var sends := SetPeersPushes(conns, bound, you);
      && Destinations(sends) == IdsBelow(conns, bound)
      && (forall k :: k in Destinations(sends) <==> k in conns)
      && forall i :: 0 <= i < |sends| ==>
           sends[i].1 == Push(SetPeers(you, IdsBelow(conns - {you}, bound)))
    ensures PeersExcept(IdsBelow(conns - {you}, bound), conns, you)
  {
    var peers := IdsBelow(conns - {you}, bound);
    PushAllShape(IdsBelow(conns, bound), SetPeers(you, peers));
    assert PeersExcept(peers, conns, you);
  }

  // ---------------------------------------------------------------------------
  // `dst in connections` as written

  /** The names every plain object inherits from Object.prototype. */
  const InheritedKeys: set<string> := {
    "constructor", "hasOwnProperty", "isPrototypeOf", "propertyIsEnumerable",
    "toLocaleString", "toString", "valueOf", "__proto__",
    "__defineGetter__", "__defineSetter__", "__lookupGetter__", "__lookupSetter__"
  }

  /** `narrowcast` as written: the `in` check also accepts an inherited name, and
      `connections[dst]` is then no socket, so sending to it throws a TypeError.
      A push still only goes to a registered socket. */
  function NarrowcastAsWritten(conns: set<nat>, sender: nat, reqId: int, param: Option<Json>): (r: Outcome)
    ensures r.connections == conns && 1 <= |r.sends| <= 2 && r.sends[|r.sends| - 1].0 == sender
    ensures |r.sends| == 2 ==> r.sends[0].1.Push? && r.sends[0].0 in conns
  {
    if param.None? || param == Some(JNull) then Fail(conns, sender, reqId, ServerError)
    else
      var dst := Field(param.value, "dst");
      if !Registered(conns, dst) && KeyText(dst).Some? && KeyText(dst).value in InheritedKeys then
        Fail(conns, sender, reqId, ServerError)
      else NarrowcastCommand(conns, sender, reqId, param)
  }

  /** With `dst` "toString" the code as written answers "server error" where the
      hub's own check answers "invalid dst". */
  lemma InheritedDstAsWritten(conns: set<nat>, sender: nat, reqId: int)
    ensures var param := Some(JObj(map["dst" := JStr("toString")]));
      && NarrowcastAsWritten(conns, sender, reqId, param) ==
           Outcome(conns, [(sender, ErrorReply(Some(JInt(reqId)), "server error"))])
      && NarrowcastCommand(conns, sender, reqId, param) ==
           Outcome(conns, [(sender, ErrorReply(Some(JInt(reqId)), "invalid dst"))])
  {
    var s := "toString";
    assert !IsDigit(s[0]);
    assert ParseIndex(s) == None;
  }

  /** The two checks differ only on inherited names: everywhere else the code as
      written and the corrected check agree. */
  lemma NarrowcastAgreesOffInheritedKeys(conns: set<nat>, sender: nat, reqId: int, param: Option<Json>)
    requires param.Some? && param != Some(JNull) && KeyText(Field(param.value, "dst")).Some? ==>
      KeyText(Field(param.value, "dst")).value !in InheritedKeys
    ensures NarrowcastAsWritten(conns, sender, reqId, param) == NarrowcastCommand(conns, sender, reqId, param)
  {
  }

  /** The sends of `forEach` over the registered sockets (ids below `bound`, in
      ascending order), each sent the same push. */
  method PushLoop(conns: set<nat>, bound: nat, body: PushBody) returns (sent: seq<Send>)
    ensures sent == PushAll(IdsBelow(conns, bound), body)
  {
    sent := [];
    var k := 0;
    while k < bound
      invariant 0 <= k <= bound
      invariant sent == PushAll(IdsBelow(conns, k), body)
    {
      PushAllStep(conns, k, body);
      if k in conns {
        sent := sent + [(k, Push(body))];
      }
      k := k + 1;
    }
  }

  class Hub {
    /** The registered connection ids. */
    var connections: set<nat>
    var nextId: nat
    /** Every frame sent, in order, with its destination socket. */
    var outbox: seq<Send>

    ghost predicate Valid()
      reads this
    {
      forall k :: k in connections ==> k < nextId
    }

    constructor ()
      ensures Valid()
      ensures connections == {} && nextId == 0 && outbox == []
    {
      connections := {};
      nextId := 0;
      outbox := [];
    }

    /** `Object.values(connections).forEach(ws => sendPush(ws, ...))`. */
    method PushToAll(body: PushBody)
      requires Valid()
      modifies this`outbox
      ensures outbox == old(outbox) + PushAll(IdsBelow(connections, nextId), body)
    {
      var sent := PushLoop(connections, nextId, body);
      outbox := outbox + sent;
    }

    /** `pushSetPeers(you)`. */
    method PushSetPeers(you: nat)
      requires Valid()
      modifies this`outbox
      ensures outbox == old(outbox) + SetPeersPushes(connections, nextId, you)
    {
      PushToAll(SetPeers(you, IdsBelow(connections - {you}, nextId)));
    }

    /** A new connection: it gets the counter's value as its id, the counter moves
        on, the registry gains exactly that id, and every registered socket (the new
        one included) is pushed the peer list. */
    method Connection() returns (id: nat)
      requires Valid()
      modifies this
      ensures Valid()
      ensures id == old(nextId) && nextId == old(nextId) + 1
      ensures id !in old(connections) && connections == old(connections) + {id}
      ensures outbox == old(outbox) + SetPeersPushes(connections, nextId, id)
    {
      id := nextId;
      nextId := nextId + 1;
      connections := connections + {id};
      PushSetPeers(id);
    }

    /** A message from connection `sender` (None: it did not parse). */
    method Message(sender: nat, message: Option<Json>)
      requires Valid()
      modifies this`connections, this`outbox
      ensures Valid()
      ensures var o := Respond(old(connections), nextId, sender, message);
        connections == o.connections && outbox == old(outbox) + o.sends
    {
      var parsed := ParseRequest(message);
      if parsed.Unreadable? {
        outbox := outbox + [(sender, ErrorReply(parsed.rawReqId, "server error"))];
        return;
      }
      var reqId, cmd, param := parsed.reqId, parsed.cmd, parsed.param;
      var failure: Option<Failure> := None;
      if cmd == Some(JStr("lspeers")) {
        outbox := outbox + [(sender, Reply(reqId, PeerList(IdsBelow(connections, nextId))))];
      } else if cmd == Some(JStr("broadcast")) {
        match FieldOf(param, "msg") {
          case Some(msg) =>
            PushToAll(Broadcast(sender, msg));
          case None =>
            // `param.msg` throws on the first registered socket, before anything is sent
            if IdsBelow(connections, nextId) != [] {
              failure := Some(ServerError);
            }
        }
      } else if cmd == Some(JStr("narrowcast")) {
        if param.None? || param == Some(JNull) {
          failure := Some(ServerError);
        } else {
          var dst := Field(param.value, "dst");
          if KeyText(dst).None? {
            failure := Some(ServerError);
          } else if Registered(connections, dst) {
            outbox := outbox + [(KeyIndex(dst).value, Push(Narrowcast(sender, reqId, Field(param.value, "msg"))))];
            outbox := outbox + [(sender, Reply(reqId, NoParam))];
          } else {
            failure := Some(InvalidRequest("invalid dst"));
          }
        }
      } else if cmd == Some(JStr("ping")) {
        outbox := outbox + [(sender, Reply(reqId, NoParam))];
      } else if cmd == Some(JStr("leave")) {
        connections := connections - {sender};
        outbox := outbox + [(sender, Reply(reqId, NoParam))];
      } else {
        match KeyText(cmd) {
          case None => failure := Some(ServerError);
          case Some(t) => failure := Some(InvalidRequest("invalid command: " + t));
        }
      }
      if failure.Some? {
        outbox := outbox + [(sender, ErrorReply(Some(JInt(reqId)), ErrorText(failure.value)))];
      }
    }
  }
}
