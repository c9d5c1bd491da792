/** The request correlator and the restartable one-shot timer that the client
    session is built from. */
module Common {
  import opened JsValues

  /** A response callback as stored with a request; `NoCallback` is a falsy one. */
  datatype Callback = NoCallback | Callback(handle: nat)

  /** The `{type: "req", id, what, data}` frame the correlator hands out. */
  datatype Request = Request(id: nat, what: string, data: Json)

  /** What the correlator remembers of one request: the frame itself, so that it can
      be sent again unchanged, and its callback. */
  datatype Entry = Entry(request: Request, callback: Callback)

  /** One call of a response callback with `(err, data)`; None stands for undefined. */
  datatype Invocation = Invocation(callback: nat, err: Option<Json>, data: Option<Json>)

  /** Every entry is stored under the id of its own request frame. */
  ghost predicate WellKeyed(pending: map<nat, Entry>)
  {
    forall id :: id in pending ==> pending[id].request.id == id
  }

  /** The entries stored under ids below `n`, in ascending id order: the order in
      which Object.values lists the integer keys of the pending table. */
  function PendingList(pending: map<nat, Entry>, n: nat): (r: seq<Entry>)
    requires WellKeyed(pending)
    ensures forall i :: 0 <= i < |r| ==>
      r[i].request.id < n && r[i].request.id in pending && pending[r[i].request.id] == r[i]
    ensures forall i, j :: 0 <= i < j < |r| ==> r[i].request.id < r[j].request.id
  {
    if n == 0 then []
    else
      var r := PendingList(pending, n - 1);
      if n - 1 in pending then r + [pending[n - 1]] else r
  }

  /** Every entry stored under an id below `n` is listed. */
  lemma {:induction false} PendingListComplete(pending: map<nat, Entry>, n: nat, id: nat)
    requires WellKeyed(pending) && id in pending && id < n
    ensures exists i :: 0 <= i < |PendingList(pending, n)| && PendingList(pending, n)[i].request.id == id
  {
    var r := PendingList(pending, n - 1);
    if id == n - 1 {
      assert PendingList(pending, n)[|r|].request.id == id;
    } else {
      PendingListComplete(pending, n - 1, id);
      var i :| 0 <= i < |r| && r[i].request.id == id;
      assert PendingList(pending, n)[i] == r[i];
    }
  }

  /** The call a response makes of a stored callback: none when it is falsy. */
  function Fire(callback: Callback, err: Option<Json>, data: Option<Json>): Option<Invocation>
  {
    match callback
    case NoCallback => None
    case Callback(h) => Some(Invocation(h, err, data))
  }

  /** The correlator: a counter that is never reset and a table from id to the
      request frame and its callback. */
  class RequestReply {
    var nextId: nat
    var pending: map<nat, Entry>
    /** Every id handed out so far. */
    ghost var issued: set<nat>

    ghost predicate Valid()
      reads this
    {
      && WellKeyed(pending)
      && (forall id :: id in pending ==> id < nextId)
      && (forall k :: k in issued ==> k < nextId)
    }

    constructor ()
      ensures Valid()
      ensures nextId == 0 && pending == map[] && issued == {}
    {
      nextId := 0;
      pending := map[];
      issued := {};
    }

    /** Allocates the next id, remembers the frame with its callback and returns it. */
    method CreateRequest(what: string, data: Json, callback: Callback) returns (req: Request)
      requires Valid()
      modifies this
      ensures Valid()
      ensures req == Request(old(nextId), what, data)
      ensures nextId == old(nextId) + 1
      ensures req.id !in old(issued) && issued == old(issued) + {req.id}
      ensures req.id !in old(pending)
      ensures pending == old(pending)[req.id := Entry(req, callback)]
    {
      req := Request(nextId, what, data);
      pending := pending[nextId := Entry(req, callback)];
      nextId := nextId + 1;
      issued := issued + {req.id};
    }

    /** Resolves the request whose key the response's id designates, if one is
        pending: the entry is removed and its callback, when there is one, is fired
        once with `(err, data)`. Any other response changes nothing. */
    method HandleResponse(id: Option<Json>, err: Option<Json>, data: Option<Json>)
      returns (fired: Option<Invocation>)
      requires Valid()
      modifies this`pending
      ensures Valid()
      ensures KeyIndex(id).Some? && KeyIndex(id).value in old(pending) ==>
        && pending == old(pending) - {KeyIndex(id).value}
        && fired == Fire(old(pending)[KeyIndex(id).value].callback, err, data)
      ensures !(KeyIndex(id).Some? && KeyIndex(id).value in old(pending)) ==>
        pending == old(pending) && fired == None
    {
      var key := KeyIndex(id);
      fired := None;
      if key.Some? && key.value in pending {
        var entry := pending[key.value];
        pending := pending - {key.value};
        fired := Fire(entry.callback, err, data);
      }
    }

    /** Lists the pending entries, oldest first, without removing any. */
    method GetPending() returns (entries: seq<Entry>)
      requires Valid()
      ensures entries == PendingList(pending, nextId)
    {
      entries := [];
      var k := 0;
      while k < nextId
        invariant 0 <= k <= nextId
        invariant entries == PendingList(pending, k)
      {
        if k in pending {
          entries := entries + [pending[k]];
        }
        k := k + 1;
      }
    }

    /** Drops every pending entry without calling any callback; the counter stays. */
    method ClearPending()
      requires Valid()
      modifies this`pending
      ensures Valid()
      ensures pending == map[]
    {
      pending := map[];
    }
  }

  /** Every pending entry is listed, and only pending entries are: on a valid
      correlator the listing is the whole table in ascending id order. */
  lemma PendingListIsTable(pending: map<nat, Entry>, nextId: nat)
    requires WellKeyed(pending) && forall id :: id in pending ==> id < nextId
    ensures forall e :: e in PendingList(pending, nextId) <==> e in pending.Values
  {
    var r := PendingList(pending, nextId);
    forall e | e in pending.Values
      ensures e in r
    {
      var id :| id in pending && pending[id] == e;
      PendingListComplete(pending, nextId, id);
      var i :| 0 <= i < |r| && r[i].request.id == id;
    }
  }

  /** A second response for an id that has just been answered fires nothing and
      leaves the table as the first one left it. */
  method ResponseFiresOnce(rr: RequestReply, id: Option<Json>, err: Option<Json>, data: Option<Json>)
    returns (first: Option<Invocation>, second: Option<Invocation>)
    requires rr.Valid()
    modifies rr
    ensures rr.Valid()
    ensures second == None
    ensures first.Some? ==> KeyIndex(id).Some? && KeyIndex(id).value in old(rr.pending)
    ensures KeyIndex(id).Some? ==> KeyIndex(id).value !in rr.pending
    ensures rr.nextId == old(rr.nextId)
  {
    first := rr.HandleResponse(id, err, data);
    second := rr.HandleResponse(id, err, data);
  }

  /** A restartable one-shot timer: `Set` cancels any outstanding firing before it
      arms, so at most one firing is ever outstanding. The duration and the wall
      clock are not modelled; `Fire` is the clock's step. */
  class Timer {
    /** A firing is outstanding. */
    var armed: bool
    /** How many times the timer has been set; a firing reports the setting it
        belongs to. */
    var epoch: nat

    constructor ()
      ensures !armed && epoch == 0
    {
      armed := false;
      epoch := 0;
    }

    method Set()
      modifies this
      ensures armed && epoch == old(epoch) + 1
    {
      armed := true;
      epoch := epoch + 1;
    }

    method Unset()
      modifies this`armed
      ensures !armed
    {
      armed := false;
    }

    /** The timeout elapses: only an outstanding setting fires, and only once. */
    method Fire() returns (fired: Option<nat>)
      modifies this`armed
      ensures !armed
      ensures fired == if old(armed) then Some(epoch) else None
    {
      fired := if armed then Some(epoch) else None;
      armed := false;
    }
  }

  /** Setting a timer twice before it fires gives one firing, of the second setting. */
  method RescheduleFiresOnce(t: Timer) returns (first: Option<nat>, second: Option<nat>)
    modifies t
    ensures first == Some(old(t.epoch) + 2) && second == None
  {
    t.Set();
    t.Set();
    first := t.Fire();
    second := t.Fire();
  }
}
