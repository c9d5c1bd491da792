# Peer messaging hub and client session — a Dafny model

This project models the three pieces of sequential logic in a small WebSocket
messaging system.

- **Request correlator and timer** (`common.js`, module `Common`).
  - `RequestReply` numbers outgoing requests with a counter that is never reset.
  - It keeps each request frame with its callback until a response with the same id arrives.
  - It can list the pending requests oldest first, for replay, and drop them all.
  - `Timer` is a restartable one-shot timer. It is modelled by an armed flag and an explicit firing step.
- **Client session** (`client.js`, module `ClientSession`).
  - `Client` keeps one logical session to the hub across any number of sockets. Each socket it creates gets the next socket number, and a replaced socket is detached and closed.
  - When a socket opens, every pending request frame is sent again, unchanged and oldest first. Then both timers are armed and the `connected` handlers run.
  - Inbound frames are routed by `type`: `res` to the correlator, `push` and `req` to the registered handlers. A `req` comes with a reply closure that answers with the request's id.
  - `PeerToPeer` wraps each send as a `forw` request. It passes an inbound `msg` request only to the handler registered for its `what`.
  - A socket is modelled by what the client hands it (its outbox) and which of its event handlers are still attached. Handler and callback calls are recorded, in order, as a trace.
- **Hub** (`server.js`, module `Hub`).
  - The hub keeps a registry of connections. Each connection is given the next id from a counter, and its socket is named by that id.
  - It handles each message with the commands `lspeers`, `broadcast`, `narrowcast`, `ping` and `leave`.
  - Errors fall into two classes. An `InvalidRequest` sends its own message; anything else thrown sends `"server error"`.
  - `Hub.Respond` is a pure function from (registry, sender, parsed message) to (new registry, list of (destination, frame)). The imperative `Hub.Hub.Message` is proved to do exactly that.

`values.dfy` (module `JsValues`) holds the parsed-JSON value type. It also holds
the JavaScript coercions the code relies on when a value is used as a property
key or joined to a string: `String(v)`, and the canonical decimal form of
array-index keys. With them the model can state which ids a response or a `dst`
designates. For example, the number 3, the string "3" and the array [3] all
designate key 3.

The conversion is partial. A parsed object with its own `toString` field, or an
array holding one, cannot be converted: the conversion throws a TypeError. The
model carries that error through to where it lands:
- the hub answers "server error" for such a `cmd` or `dst`;
- the PeerToPeer filter throws, which ends the `receiveReq` handler loop.

The hub in `server.js` speaks an older frame format than `client.js`:
- replies are `{reqId, param}` and `{reqId, err}`;
- pushes are `{what, param}` with no `type` field.

Each side is therefore modelled against its own frames. No client–hub round trip
is claimed.

Two behaviours are modelled as written:
- On a server-side close, the client runs its `disconnected` handlers twice (client.js:110, then again in `connect` at client.js:62).
- The hub has no close handler, so a closed connection stays registered for the rest of the hub's life.

One behaviour is corrected rather than modelled as written: the hub's `dst in
connections` check (see Findings). `Hub.NarrowcastAsWritten` keeps the code as
written, and the hub handler uses the corrected check.

## Model

| member | source | states |
|---|---|---|
| JsValues.PrintThenParse | server.js:40 | the decimal text of an id parses back to the same id |
| JsValues.ParseThenPrint | server.js:40 | a canonical index key is the printed form of its value, so no two texts name the same id |
| JsValues.KeyIndexOfId | common.js:18 | the number n, the text of n and the one-element array [n] all designate the key of id n |
| JsValues.KeyIndexExact | server.js:99 | a value designates id n exactly when its String() text is the decimal text of n |
| JsValues.IdsBelow | server.js:86 | the enumeration lists exactly the registered ids, each once, in ascending order, as Object.keys does for integer keys |
| Common.PendingList | common.js:28-30 | the listing holds only stored entries, each under its own id, in strictly ascending id order |
| Common.PendingListComplete | common.js:28-30 | every entry stored under an id below the counter is in the listing |
| Common.PendingListIsTable | common.js:28-30 | on a valid correlator the listing holds exactly the stored entries |
| Common.RequestReply.constructor | common.js:3-6 | a new correlator starts at id 0 with nothing pending |
| Common.RequestReply.CreateRequest | common.js:8-15 | returns the frame with the old counter as id; the counter grows by one; the id was never issued before; the table gains exactly that frame with its callback |
| Common.RequestReply.HandleResponse | common.js:17-26 | a response naming a pending id removes that entry alone and fires its callback once with (err, data), or nothing for a falsy callback; any other response changes nothing |
| Common.ResponseFiresOnce | common.js:17-26 | a second response with the same id fires nothing and leaves that id absent |
| Common.RequestReply.GetPending | common.js:28-30 | returns every pending entry in ascending id order and changes nothing |
| Common.RequestReply.ClearPending | common.js:32-34 | the table is emptied, no callback is fired, and the counter is kept |
| Common.Timer.constructor | common.js:39-43 | a new timer has no firing outstanding |
| Common.Timer.Set | common.js:46-51 | setting cancels any outstanding firing and arms one new firing |
| Common.Timer.Unset | common.js:53-55 | no firing is left outstanding |
| Common.Timer.Fire | common.js:48-50 | only an outstanding setting fires, and then none is left |
| Common.RescheduleFiresOnce | common.js:46-51 | on any timer, two settings before the timeout give a single firing, of the later setting |
| JsValues.OwnToStringThrows | server.js:116 | an object with its own `toString` field, or an array holding one, has no text: converting it throws |
| ClientSession.Classify | client.js:89-96 | an inbound frame is a response, a push or a request exactly when its `type` is "res", "push" or "req"; responses and requests keep their `id` |
| ClientSession.PeerReceive | client.js:141-148 | only a request whose `what` is "msg" can reach a peer handler, and only a handler from the table is called |
| ClientSession.PeerReceiveDelivery | client.js:141-148 | a `msg` request `{from, msg: {what, data}}` calls the handler registered under `what` with (from, data), and calls nothing when there is none |
| ClientSession.PeerReceiveIgnoresOthers | client.js:142 | a request whose `what` is not "msg" reaches no peer handler |
| ClientSession.PeerReceiveUnconvertibleWhat | client.js:144 | a `msg` whose `what` is an object with its own `toString` field makes the filter throw |
| ClientSession.DispatchStopsAtThrow | client.js:101 | when the peer filter throws, the handlers before it have run and none after it runs |
| ClientSession.DispatchCallsEveryHandler | client.js:94 | every registered handler is called once, in registration order, with the event's arguments |
| ClientSession.ResendUnchanged | client.js:116-118 | the replay sends one request frame per stored entry, unchanged and in order |
| ClientSession.ReplaySendsStoredFrames | client.js:116-118 | every replayed frame is a stored request frame, sent in ascending id order |
| ClientSession.ReplayComplete | client.js:116-118 | every pending request frame is replayed |
| ClientSession.ReplayFidelity | client.js:115-118 | the replay is exactly the pending frames (same id, what and data) in ascending id order |
| ClientSession.SendAll | client.js:116-118 | the socket's outbox afterwards is the old outbox followed by the replay frames |
| ClientSession.Client.constructor | client.js:21-50 | a new client has no socket (number -1), no handlers, nothing pending and both timers disarmed |
| ClientSession.Client.On | client.js:52-54 | the handler is appended to its event's list and no other list changes |
| ClientSession.Client.Emit | client.js:62 | the trace gains the calls of the handlers in order, stopping where a peer filter throws (including on a `what` that cannot be converted to a key) |
| ClientSession.Client.Connect | client.js:57-128 | disarms the ping timer; an existing socket has the disconnected handlers run and is then detached and closed; the new socket gets the next number; the counter grows; the silence timer is armed; nothing pending is lost |
| ClientSession.Client.Open | client.js:105-124 | the close handler is attached; the outbox gains every pending frame, unchanged and in id order, before both timers are armed and before the connected handlers run with this socket |
| ClientSession.Client.Receive | client.js:79-103 | a message that does not parse, parses to null, or arrives on a detached socket changes nothing; otherwise the silence timer is re-armed and `res` only resolves a pending request, `push` calls every push handler with (what, data), `req` calls the request handlers in order with a reply bound to this socket and id, stopping where a peer filter throws, and any other frame does nothing more |
| ClientSession.Client.Reply | client.js:98-100 | the reply `{type: "res", id, err, data}` carries the request's id and goes to the socket the request came in on, unless that socket has closed |
| ClientSession.Client.CloseEvent | client.js:108-113 | only the open current socket reacts: the disconnected handlers run, the ping timer is disarmed and the client reconnects; any other socket, including a current one refused before opening, is just marked closed |
| ClientSession.Client.PingTimerFires | client.js:39-42 | a due ping is sent on the current socket (discarded if it closed without opening) and the timer is armed again |
| ClientSession.Client.ServerTimeoutFires | client.js:46-49 | a due silence timeout reconnects |
| ClientSession.Client.Request | client.js:130-134 | the correlator stores the new frame; when sending does not throw (the current socket has opened or has closed), exactly that frame is transmitted on an open socket or discarded by a closed one, and the ping timer is re-armed; otherwise only the correlator changes |
| ClientSession.PeerToPeer.constructor | client.js:138-149 | the peer filter for the handler table is appended to the client's request handlers and nothing else changes |
| ClientSession.PeerToPeer.Send | client.js:151-153 | the request stored and sent is `forw` with payload `{to, msg: {what, data}}` and the caller's callback; the counter, the ping timer, the sockets, the trace and the handler lists change exactly as for `Client.Request` |
| Hub.PushAllShape | server.js:90-95 | a forEach push sends one frame to each registered socket, in order, and every frame is that push |
| Hub.PushLoop | server.js:31-36 | the loop over the registry yields the push to every registered socket in ascending id order |
| Hub.Hub.constructor | server.js:10-12 | the hub starts with no connections and id 0 |
| Hub.Hub.PushToAll | server.js:90-95 | the outbox gains the push for every registered socket, in ascending id order |
| Hub.Hub.PushSetPeers | server.js:30-37 | the outbox gains one setPeers push per registered socket |
| Hub.SetPeersReachesEveryone | server.js:30-37 | setPeers reaches every registered socket once and tells each `you` and every registered id except `you` |
| Hub.Hub.Connection | server.js:39-48 | the new connection gets the counter's value, which no registered connection has; the counter grows by one; the registry gains exactly that id; and every registered socket, the new one included, is sent the peer list |
| Hub.ParseRequest | server.js:79-81 | a command runs exactly when the message parses to a value whose `reqId` is an integer, with that value's `cmd` and `param`; otherwise the raw `reqId` is kept for the error |
| Hub.NarrowcastCommand | server.js:97-106 | narrowcast never changes the registry, pushes only to a registered socket, and always ends with a frame to the sender |
| Hub.NarrowcastAsWritten | server.js:97-106 | the as-written narrowcast, too, pushes only to a registered socket and ends with a frame to the sender |
| Hub.Command | server.js:83-117 | the registry changes only on `leave`, which removes the sender alone |
| Hub.Respond | server.js:63-127 | a message that does not parse or has a non-integer reqId gets only "server error"; the registry changes only on `leave` |
| Hub.Hub.Message | server.js:63-127 | the registry and the outbox become what `Respond` gives for the message |
| Hub.UnreadableMessage | server.js:79 | a message that fails to parse or parses to null gets "server error" with no reqId, and nothing else happens |
| Hub.NonIntegerReqId | server.js:81 | a non-integer reqId gets "server error" carrying that reqId, and no command runs |
| Hub.LsPeersListsEveryone | server.js:84-88 | lspeers answers only the sender, with every registered id, the sender's included, once each in ascending order |
| Hub.IdsBelowAll | server.js:86 | the peer enumeration holds exactly the registered ids |
| Hub.BroadcastReachesEveryone | server.js:89-96 | broadcast pushes `{from, msg}` once to every registered socket, the sender's included, and sends no reply |
| Hub.BroadcastWithoutParam | server.js:90-93 | broadcast without a param fails with "server error" before anything is pushed, whenever a socket is registered |
| Hub.NarrowcastToRegistered | server.js:97-106 | narrowcast to a registered id, given as a number or as its text, pushes `{from, reqId, msg}` to that socket and then replies to the sender |
| Hub.NarrowcastToUnregistered | server.js:97-99 | narrowcast to any convertible value that names no registered id answers "invalid dst" and pushes nothing |
| Hub.NarrowcastUnconvertibleDst | server.js:99 | a `dst` object with its own `toString` field makes the `in` check throw: "server error", and no push |
| Hub.LeaveRemovesOnlySender | server.js:110-114 | leave removes the sender's id and no other, and replies |
| Hub.UnknownCommand | server.js:115-116 | any other command answers "invalid command: " followed by the command's text, or "server error" when the command cannot be converted to text, and changes nothing |
| Hub.OnlyLeaveChangesRegistry | server.js:83-117 | no message adds an id, and only leave removes one (the sender's) |
| Hub.FailuresSendNothingElse | server.js:118-124 | a failing message is answered by exactly one error frame, to the sender, with nothing sent before it and the registry unchanged; replies go only to the sender and carry its reqId |
| Hub.InheritedDstAsWritten | server.js:99 | with dst "toString", the code as written answers "server error" where the own-key check answers "invalid dst" |
| Hub.NarrowcastAgreesOffInheritedKeys | server.js:99 | the as-written and the corrected narrowcast agree on every dst that is not an inherited Object.prototype name |

## Left out

- The WebSocket transport and JSON text.
  - Messages are already-parsed values, and `None` stands for a message that does not parse.
  - The frames the model records are the objects handed to `JSON.stringify`.
- Real time.
  - Timer durations and the interval constants are not modelled.
  - A timer is an armed flag, and a firing is an explicit step (`Timer.Fire`, `Client.PingTimerFires`, `Client.ServerTimeoutFires`).
- `console.log` output, and any interleaving between connections or events.
- JavaScript number precision. Integers are unbounded, so precision above 2^53 is not modelled. So is the exponent form that `String()` gives integers of 10^21 and above.
- Application handlers and response callbacks are opaque handles assumed to return normally. Only the TypeError of the PeerToPeer filter is modelled as stopping a handler loop.
- Client.On: event names are a closed set, so the TypeError for an unknown name does not arise. A PeerToPeer filter can only be registered on `receiveReq`, the one event it is used on.
- Client.Request: when there is no socket yet, or it is still connecting, the send throws after the correlator has stored the request. The model returns `sent == false` and does not model the exception reaching the caller.
- PeerToPeer.constructor: the filter keeps the handler table as it was at construction. The source's filter reads the caller's object on every request, so handlers added to it or removed from it later are seen; the model does not capture that aliasing.
- Hub.Hub.Message: uses the corrected own-key check for `dst`, so a `dst` that is an inherited Object.prototype name (such as "toString") gets "invalid dst". The code as written answers "server error" there; `Hub.NarrowcastAsWritten` models that, and the two agree on every other `dst`.
- Client.Receive: requires a socket that has opened, since no message arrives before a socket's open event.
- The client's server address and the WebSocket constructor.
- Hub: socket state is not modelled, so a send to a connection whose socket has closed is recorded like any other.
- The hub's commented-out per-connection timeout (server.js:50-60), with its unused `timers` table and `CLIENT_TIMEOUT`.
- demo_server.js and run_server.js are not part of this model. They only start a process and serve static files. The `Server` class and the `logArrivalDeparture`, `notifyPeers`, `installRequestHandler`, `installRequestResponseProtocol` and `messagingBroker` functions they import are defined in neither of them nor in server.js.

## Findings

| source | as written | input that shows it | evidently intended | confidence | as-written member | corrected member |
|---|---|---|---|---|---|---|
| server.js:99 | `dst in connections` also accepts the names every object inherits from Object.prototype; `connections[dst]` is then a function or the prototype, sending to it throws a TypeError, and the sender gets "server error" | `{reqId: 1, cmd: "narrowcast", param: {dst: "toString"}}` | a dst that names no registered connection is answered "invalid dst" | not executed | Hub.InheritedDstAsWritten | Hub.NarrowcastToUnregistered |
