/** The WebSocket hub: registered clients, the rooms they joined, their buffered send
    channels, and the eviction of clients that cannot keep up. */
module WebSocketHub {
  import opened Wrappers

  type ID = string

  /** The identity of a client object: two clients may carry the same ID. */
  datatype Ref = Ref(address: nat)

  datatype Cause = Slow | Unregistered | SessionRevoked | ShuttingDown

  const SEND_BUFFER := 256
  const MAX_SLOW_DROPS := 5
  const NIL_WORKSPACE: string := "00000000-0000-0000-0000-000000000000"

  /** A client: who it is, what waits in its send channel, why the channel was closed if
      it was, and the counter of consecutive drops. `history` records every attempt to
      send to it, in order. */
  datatype Client = Client(
    id: ID, user: string, session: string, workspace: string,
    queue: seq<string>, closed: Option<Cause>, drops: nat, history: seq<bool>)

  /** `panicked` is set by a send on, or a second close of, a closed channel. */
  datatype State = State(
    clients: map<ID, Ref>,
    rooms: map<string, set<ID>>,
    heap: map<Ref, Client>,
    panicked: bool)

  // ---- Sending ----

  /** One attempt: a full buffer is a drop, and a success resets the counter. */
  function Attempt(c: Client, data: string): (c': Client) {
    if |c.queue| < SEND_BUFFER
    then c.(queue := c.queue + [data], drops := 0, history := c.history + [true])
    else c.(drops := c.drops + 1, history := c.history + [false])
  }

  /** A registered client among the targets. */
  predicate Targeted(h: State, targets: set<ID>, x: Ref) {
    x in h.heap && h.heap[x].id in targets && h.heap[x].id in h.clients && h.clients[h.heap[x].id] == x
  }

  /** One attempt at every target that is registered. */
  function Sent(h: State, targets: set<ID>, data: string): (h': State) {
    h.(heap := map x | x in h.heap :: if Targeted(h, targets, x) then Attempt(h.heap[x], data) else h.heap[x],
       panicked := h.panicked || exists x :: x in h.heap && Targeted(h, targets, x) && h.heap[x].closed != None)
  }

  /** The targets that have now failed too often in a row. */
  function TooSlow(h: State, targets: set<ID>): (ids: set<ID>) {
    set id | id in targets && id in h.clients && h.clients[id] in h.heap
             && h.heap[h.clients[id]].drops >= MAX_SLOW_DROPS
  }

  /** A whole broadcast with nothing in between: send, then evict who is too slow. */
  function Broadcast(h: State, targets: set<ID>, data: string): (h': State) {
    var sent := Sent(h, targets, data);
    Removed(sent, TooSlow(sent, targets), Slow)
  }

  // ---- Membership ----

  function SignalRoom(user: string): (room: string) {
    "aloqa.signal." + user
  }

  function Joined(rooms: map<string, set<ID>>, room: string, id: ID): (r: map<string, set<ID>>)
    ensures room in r && id in r[room]
  {
    rooms[room := (if room in rooms then rooms[room] else {}) + {id}]
  }

  /** A client as the handler makes it, with an empty send channel. */
  function NewClient(id: ID, user: string, session: string, workspace: string): (c: Client)
    ensures c.closed == None && c.drops == 0
  {
    Client(id, user, session, workspace, [], None, 0, [])
  }

  function Registered(h: State, x: Ref): (h': State)
    requires x in h.heap
  {
    var c := h.heap[x];
    h.(clients := h.clients[c.id := x], rooms := Joined(h.rooms, SignalRoom(c.user), c.id))
  }

  function Subscribed(h: State, id: ID, room: string): (h': State) {
    if id !in h.clients then h else h.(rooms := Joined(h.rooms, room, id))
  }

  function Unsubscribed(h: State, id: ID, room: string): (h': State) {
    if room !in h.rooms then h
    else if h.rooms[room] - {id} == {} then h.(rooms := h.rooms - {room})
    else h.(rooms := h.rooms[room := h.rooms[room] - {id}])
  }

  /** Rooms without some members; rooms left empty disappear. */
  function RoomsWithout(rooms: map<string, set<ID>>, ids: set<ID>): (r: map<string, set<ID>>) {
    map room | room in rooms && rooms[room] - ids != {} :: rooms[room] - ids
  }

  /** The registered clients among `ids` leave the hub and their channels are closed. */
  function Removed(h: State, ids: set<ID>, cause: Cause): (h': State) {
    if ids !! h.clients.Keys then h
    else
      State(h.clients - ids,
            RoomsWithout(h.rooms, ids * h.clients.Keys),
            map x | x in h.heap :: if Targeted(h, ids, x) then h.heap[x].(closed := Some(cause)) else h.heap[x],
            h.panicked || exists x :: x in h.heap && Targeted(h, ids, x) && h.heap[x].closed != None)
  }

  function InSession(h: State, session: string): (ids: set<ID>) {
    set id | id in h.clients && h.clients[id] in h.heap && h.heap[h.clients[id]].session == session
  }

  function OfUser(h: State, workspace: string, user: string): (ids: set<ID>) {
    set id | id in h.clients && h.clients[id] in h.heap && h.heap[h.clients[id]].user == user
             && (workspace == NIL_WORKSPACE || h.heap[h.clients[id]].workspace == workspace)
  }

  // ---- Consistency ----

  /** Consecutive failures at the end of a history. */
  function Trailing(history: seq<bool>): (n: nat)
    ensures n <= |history|
  {
    if |history| == 0 || history[|history| - 1] then 0 else 1 + Trailing(history[..|history| - 1])
  }

  predicate FiveFailedBefore(history: seq<bool>, n: nat) {
    MAX_SLOW_DROPS <= n <= |history| && forall i :: n - MAX_SLOW_DROPS <= i < n ==> !history[i]
  }

  /** Some five attempts in a row failed. */
  ghost predicate FiveInARow(history: seq<bool>) {
    exists n :: FiveFailedBefore(history, n)
  }

  /** The counter counts what it should. */
  ghost predicate Counted(c: Client) {
    |c.queue| <= SEND_BUFFER && c.drops == Trailing(c.history)
  }

  /** And nobody is evicted for slowness without cause. */
  ghost predicate Sound(c: Client) {
    Counted(c) && (c.closed == Some(Slow) ==> FiveInARow(c.history))
  }

  /** The client map names clients by their own IDs. */
  ghost predicate ClientsKnown(h: State) {
    forall id :: id in h.clients ==> h.clients[id] in h.heap && h.heap[h.clients[id]].id == id
  }

  predicate IsRegistered(h: State, x: Ref)
    requires x in h.heap
  {
    h.heap[x].id in h.clients && h.clients[h.heap[x].id] == x
  }

  /** A channel is open exactly while its client is registered. */
  ghost predicate ChannelsMatch(h: State) {
    ClientsKnown(h) && forall x :: x in h.heap ==> (h.heap[x].closed == None <==> IsRegistered(h, x))
  }

  ghost predicate RoomsMatch(h: State) {
    forall room :: room in h.rooms ==> h.rooms[room] != {} && h.rooms[room] <= h.clients.Keys
  }

  /** What no step can break: rooms hold registered clients and the counters are right. */
  ghost predicate Tidy(h: State) {
    ClientsKnown(h) && RoomsMatch(h) && forall x :: x in h.heap ==> Counted(h.heap[x])
  }

  /** Nothing panicked, and the next send or removal will not: registered clients' channels
      are open. */
  ghost predicate Safe(h: State) {
    Tidy(h) && !h.panicked && forall x :: x in h.heap && IsRegistered(h, x) ==> h.heap[x].closed == None
  }

  ghost predicate Consistent(h: State) {
    && ChannelsMatch(h) && RoomsMatch(h) && !h.panicked
    && (forall x :: x in h.heap ==> Sound(h.heap[x]))
  }

  // ---- The hub as it runs ----

  lemma {:induction false} TargetsSplit(h: State, targets: set<ID>, id: ID, x: Ref)
    requires id !in targets
    ensures Targeted(h, targets + {id}, x) <==> Targeted(h, targets, x) || Targeted(h, {id}, x)
    ensures Targeted(h, targets, x) ==> !Targeted(h, {id}, x)
  {
  }

  lemma {:induction false} SendKeepsTargets(h: State, targets: set<ID>, data: string, ids: set<ID>, x: Ref)
    ensures Targeted(Sent(h, targets, data), ids, x) <==> Targeted(h, ids, x)
  {
  }

  lemma {:induction false} SendOneMore(h: State, targets: set<ID>, id: ID, data: string)
    requires ClientsKnown(h) && id !in targets
    ensures Sent(Sent(h, targets, data), {id}, data) == Sent(h, targets + {id}, data)
  {
    forall x
      ensures Targeted(Sent(h, targets, data), {id}, x) <==> Targeted(h, {id}, x)
      ensures Targeted(h, targets + {id}, x) <==> Targeted(h, targets, x) || Targeted(h, {id}, x)
      ensures Targeted(h, targets, x) ==> !Targeted(h, {id}, x)
    {
      SendKeepsTargets(h, targets, data, {id}, x);
      TargetsSplit(h, targets, id, x);
    }
  }

  /** Only registered clients matter to a removal. */
  lemma {:induction false} SameRemoval(h: State, a: set<ID>, b: set<ID>, cause: Cause)
    requires a * h.clients.Keys == b * h.clients.Keys
    ensures Removed(h, a, cause) == Removed(h, b, cause)
  {
    forall id | id in h.clients
      ensures id in a <==> id in b
    {
      assert id in a * h.clients.Keys <==> id in b * h.clients.Keys;
    }
    assert forall x :: Targeted(h, a, x) <==> Targeted(h, b, x);
    assert h.clients - a == h.clients - b;
  }

  lemma {:induction false} RemoveBoth(h: State, ids: set<ID>, id: ID, cause: Cause)
    requires id !in ids && id in h.clients && !(ids !! h.clients.Keys)
    ensures Removed(Removed(h, ids, cause), {id}, cause) == Removed(h, ids + {id}, cause)
  {
    var mid := Removed(h, ids, cause);
    assert forall x :: Targeted(mid, {id}, x) <==> Targeted(h, {id}, x);
    assert forall x :: Targeted(h, ids + {id}, x) <==> Targeted(h, ids, x) || Targeted(h, {id}, x);
    RoomsWithoutTwice(h.rooms, ids * h.clients.Keys, {id});
    assert (ids + {id}) * h.clients.Keys == ids * h.clients.Keys + {id};
    assert {id} * mid.clients.Keys == {id};
  }

  lemma {:induction false} RemoveOneMore(h: State, ids: set<ID>, id: ID, cause: Cause)
    requires id !in ids
    ensures Removed(Removed(h, ids, cause), {id}, cause) == Removed(h, ids + {id}, cause)
  {
    if id !in h.clients {
      SameRemoval(h, ids, ids + {id}, cause);
    } else if ids !! h.clients.Keys {
      SameRemoval(h, {id}, ids + {id}, cause);
    } else {
      RemoveBoth(h, ids, id, cause);
    }
  }

  /** The rooms while a client leaves them one by one; those in `todo` are still to come. */
  function LeavingRooms(rooms: map<string, set<ID>>, todo: set<string>, id: ID): (r: map<string, set<ID>>) {
    map room | room in rooms && (room in todo || rooms[room] - {id} != {})
      :: if room in todo then rooms[room] else rooms[room] - {id}
  }

  lemma {:induction false} LeaveOneRoom(rooms: map<string, set<ID>>, todo: set<string>, room: string, id: ID)
    requires room in rooms && room in todo
    ensures LeavingRooms(rooms, todo - {room}, id) ==
      (if rooms[room] - {id} == {} then LeavingRooms(rooms, todo, id) - {room}
       else LeavingRooms(rooms, todo, id)[room := rooms[room] - {id}])
  {
  }

  lemma {:induction false} RoomsWithoutTwice(rooms: map<string, set<ID>>, a: set<ID>, b: set<ID>)
    ensures RoomsWithout(RoomsWithout(rooms, a), b) == RoomsWithout(rooms, a + b)
  {
    forall room | room in rooms
      ensures rooms[room] - a - b == rooms[room] - (a + b)
    {
    }
  }

  class Hub {
    var clients: map<ID, Ref>
    var rooms: map<string, set<ID>>
    var heap: map<Ref, Client>
    var panicked: bool

    function Contents(): (h: State)
      reads this
    {
      State(clients, rooms, heap, panicked)
    }

    constructor ()
      ensures Contents() == State(map[], map[], map[], false)
    {
      clients, rooms, heap, panicked := map[], map[], map[], false;
    }

    /** Register a client object; a reference denotes one object, known to the hub or new. */
    method Register(x: Ref, c: Client)
      requires x in heap ==> heap[x] == c
      modifies this
      ensures Contents() == Registered(old(Contents()).(heap := old(heap)[x := c]), x)
      ensures old(ClientsKnown(Contents())) ==> ClientsKnown(Contents())
    {
      heap := heap[x := c];
      clients := clients[c.id := x];
      var room := SignalRoom(c.user);
      if room !in rooms {
        rooms := rooms[room := {}];
      }
      rooms := rooms[room := rooms[room] + {c.id}];
    }

    /** The client ID comes as text; `None` is one that does not parse. */
    method Subscribe(client: Option<ID>, room: string)
      modifies this
      ensures Contents() == if client == None then old(Contents()) else Subscribed(old(Contents()), client.value, room)
      ensures old(Consistent(Contents())) ==> Consistent(Contents())
    {
      if Consistent(Contents()) && client != None {
        SubscribeKeepsConsistent(Contents(), client.value, room);
      }
      if client == None || client.value !in clients {
        return;
      }
      if room !in rooms {
        rooms := rooms[room := {}];
      }
      rooms := rooms[room := rooms[room] + {client.value}];
    }

    method Unsubscribe(client: Option<ID>, room: string)
      modifies this
      ensures Contents() ==
        (if client == None then old(Contents()) else Unsubscribed(old(Contents()), client.value, room))
      ensures old(Consistent(Contents())) ==> Consistent(Contents())
    {
      if Consistent(Contents()) && client != None {
        UnsubscribeKeepsConsistent(Contents(), client.value, room);
      }
      if client == None || room !in rooms {
        return;
      }
      var members := rooms[room] - {client.value};
      if members == {} {
        rooms := rooms - {room};
      } else {
        rooms := rooms[room := members];
      }
    }

    /** Take one client out, close its channel, and leave every room. */
    method RemoveClientLocked(id: ID, cause: Cause) returns (found: bool)
      requires ClientsKnown(Contents())
      modifies this
      ensures found <==> id in old(clients)
      ensures Contents() == Removed(old(Contents()), {id}, cause)
    {
      if id !in clients {
        return false;
      }
      var x := clients[id];
      clients := clients - {id};
      panicked := panicked || heap[x].closed != None;
      heap := heap[x := heap[x].(closed := Some(cause))];
      LeaveRooms(id);
      RemovedOne(old(Contents()), id, cause);
      found := true;
    }

    method LeaveRooms(id: ID)
      modifies this`rooms
      ensures rooms == RoomsWithout(old(rooms), {id})
    {
      var todo := rooms.Keys;
      while todo != {}
        invariant todo <= old(rooms).Keys
        invariant rooms == LeavingRooms(old(rooms), todo, id)
        decreases |todo|
      {
        var room :| room in todo;
        LeaveOneRoom(old(rooms), todo, room, id);
        var members := rooms[room] - {id};
        if members == {} {
          rooms := rooms - {room};
        } else {
          rooms := rooms[room := members];
        }
        todo := todo - {room};
      }
    }

    method RemoveAll(ids: set<ID>, cause: Cause)
      requires ClientsKnown(Contents())
      modifies this
      ensures Contents() == Removed(old(Contents()), ids, cause)
    {
      var todo := ids;
      NothingRemoved(Contents(), {}, cause);
      while todo != {}
        invariant todo <= ids
        invariant Contents() == Removed(old(Contents()), ids - todo, cause)
        decreases |todo|
      {
        var id :| id in todo;
        RemovalKeepsKnown(old(Contents()), ids - todo, cause);
        RemoveOneMore(old(Contents()), ids - todo, id, cause);
        assert ids - todo + {id} == ids - (todo - {id});
        var found := RemoveClientLocked(id, cause);
        todo := todo - {id};
      }
      assert ids - {} == ids;
    }

    /** Every local client of a session goes; an empty session ID is ignored. */
    method EvictSession(session: string)
      requires ClientsKnown(Contents())
      modifies this
      ensures Contents() ==
        (if session == "" then old(Contents())
         else Removed(old(Contents()), InSession(old(Contents()), session), SessionRevoked))
      ensures old(Consistent(Contents())) ==> Consistent(Contents())
    {
      if Consistent(Contents()) {
        RemovalKeepsConsistent(Contents(), InSession(Contents(), session), SessionRevoked);
      }
      if session == "" {
        return;
      }
      RemoveAll(InSession(Contents(), session), SessionRevoked);
    }

    method Shutdown()
      requires ClientsKnown(Contents())
      modifies this
      ensures Contents() == Removed(old(Contents()), old(clients).Keys, ShuttingDown)
      ensures old(Consistent(Contents())) ==> Consistent(Contents())
    {
      if Consistent(Contents()) {
        RemovalKeepsConsistent(Contents(), clients.Keys, ShuttingDown);
      }
      RemoveAll(clients.Keys, ShuttingDown);
    }

    /** One non-blocking send with its counter update. */
    method TrySend(id: ID, data: string) returns (slow: bool)
      requires ClientsKnown(Contents())
      modifies this`heap, this`panicked
      ensures Contents() == Sent(old(Contents()), {id}, data)
      ensures slow <==> id in clients && heap[clients[id]].drops >= MAX_SLOW_DROPS
    {
      SentOne(Contents(), id, data);
      if id !in clients {
        return false;
      }
      var x := clients[id];
      panicked := panicked || heap[x].closed != None;
      if |heap[x].queue| < SEND_BUFFER {
        heap := heap[x := heap[x].(queue := heap[x].queue + [data], drops := 0, history := heap[x].history + [true])];
        return false;
      }
      heap := heap[x := heap[x].(drops := heap[x].drops + 1, history := heap[x].history + [false])];
      slow := heap[x].drops >= MAX_SLOW_DROPS;
    }

    /** Serve the next target and list it if it has become too slow. */
    method SendNext(ghost start: State, ghost done: set<ID>, id: ID, data: string, toEvict: set<ID>)
      returns (toEvict': set<ID>)
      requires SentSoFar(start, Contents(), done, data, toEvict) && id !in done
      modifies this`heap, this`panicked
      ensures SentSoFar(start, Contents(), done + {id}, data, toEvict')
    {
      ghost var mid := Contents();
      var slow := TrySend(id, data);
      SendStep(start, mid, done, data, toEvict, id, slow);
      toEvict' := if slow then toEvict + {id} else toEvict;
    }

    /** The send phase of a broadcast: one non-blocking attempt per target. */
    method SendPhase(targets: set<ID>, data: string) returns (toEvict: set<ID>)
      requires ClientsKnown(Contents())
      modifies this`heap, this`panicked
      ensures Contents() == Sent(old(Contents()), targets, data)
      ensures toEvict == TooSlow(Contents(), targets)
    {
      var todo := targets;
      ghost var start, done := Contents(), {};
      toEvict := {};
      NothingSent(start, data);
      while todo != {}
        invariant done !! todo && done + todo == targets
        invariant SentSoFar(start, Contents(), done, data, toEvict)
        decreases |todo|
      {
        var id :| id in todo;
        toEvict := SendNext(start, done, id, data, toEvict);
        todo, done := todo - {id}, done + {id};
      }
    }

    method EvictSlowClients(ids: set<ID>)
      requires ClientsKnown(Contents())
      modifies this
      ensures Contents() == Removed(old(Contents()), ids, Slow)
    {
      NothingRemoved(Contents(), ids, Slow);
      if ids == {} {
        return;
      }
      RemoveAll(ids, Slow);
    }

    method BroadcastToRoom(room: string, data: string)
      requires ClientsKnown(Contents())
      modifies this
      ensures ClientsKnown(Contents())
      ensures old(Consistent(Contents())) ==> Consistent(Contents())
      ensures Contents() ==
        (if room in old(rooms) then Broadcast(old(Contents()), old(rooms)[room], data) else old(Contents()))
    {
      if room !in rooms {
        return;
      }
      BroadcastKeepsKnown(Contents(), rooms[room], data);
      if Consistent(Contents()) {
        BroadcastKeepsConsistent(Contents(), rooms[room], data);
      }
      var toEvict := SendPhase(rooms[room], data);
      EvictSlowClients(toEvict);
    }

    /** Every connection of a user, in one workspace unless the workspace is nil. */
    method SendToUser(workspace: string, user: string, data: string)
      requires ClientsKnown(Contents())
      modifies this
      ensures ClientsKnown(Contents())
      ensures old(Consistent(Contents())) ==> Consistent(Contents())
      ensures Contents() == Broadcast(old(Contents()), OfUser(old(Contents()), workspace, user), data)
    {
      var targets := OfUser(Contents(), workspace, user);
      BroadcastKeepsKnown(Contents(), targets, data);
      if Consistent(Contents()) {
        BroadcastKeepsConsistent(Contents(), targets, data);
      }
      var toEvict := SendPhase(targets, data);
      EvictSlowClients(toEvict);
    }
  }

  lemma {:induction false} RemovedOne(h: State, id: ID, cause: Cause)
    requires ClientsKnown(h) && id in h.clients
    ensures var x := h.clients[id];
      Removed(h, {id}, cause) ==
      State(h.clients - {id}, RoomsWithout(h.rooms, {id}), h.heap[x := h.heap[x].(closed := Some(cause))],
            h.panicked || h.heap[x].closed != None)
  {
    var x := h.clients[id];
    assert {id} * h.clients.Keys == {id};
    assert forall y :: Targeted(h, {id}, y) <==> y == x;
  }

  lemma {:induction false} SentOne(h: State, id: ID, data: string)
    requires ClientsKnown(h)
    ensures id in h.clients ==>
      var x := h.clients[id];
      Sent(h, {id}, data) == h.(heap := h.heap[x := Attempt(h.heap[x], data)],
                                panicked := h.panicked || h.heap[x].closed != None)
    ensures id !in h.clients ==> Sent(h, {id}, data) == h
  {
    assert forall y :: Targeted(h, {id}, y) <==> id in h.clients && y == h.clients[id];
    if id !in h.clients {
      assert Sent(h, {id}, data).heap == h.heap;
    }
  }

  lemma {:induction false} NothingSent(h: State, data: string)
    ensures Sent(h, {}, data) == h
  {
    assert forall y :: !Targeted(h, {}, y);
    assert Sent(h, {}, data).heap == h.heap;
  }

  lemma {:induction false} NothingRemoved(h: State, ids: set<ID>, cause: Cause)
    ensures ids == {} ==> Removed(h, ids, cause) == h
  {
  }

  lemma {:induction false} SlowOneMore(h: State, done: set<ID>, id: ID, data: string)
    requires ClientsKnown(h) && id !in done
    ensures var h' := Sent(h, {id}, data);
      TooSlow(h', done + {id}) ==
      TooSlow(h, done) + (if id in h.clients && h'.heap[h.clients[id]].drops >= MAX_SLOW_DROPS then {id} else {})
  {
    SentOne(h, id, data);
  }

  /** A send phase that has served the clients in `done`. */
  ghost predicate SentSoFar(h: State, h': State, done: set<ID>, data: string, toEvict: set<ID>) {
    ClientsKnown(h) && ClientsKnown(h') && h' == Sent(h, done, data) && toEvict == TooSlow(h', done)
  }

  lemma {:induction false} SendStep(h: State, mid: State, done: set<ID>, data: string, toEvict: set<ID>, id: ID,
                                    slow: bool)
    requires SentSoFar(h, mid, done, data, toEvict) && id !in done
    requires var h' := Sent(mid, {id}, data);
      slow <==> id in h'.clients && h'.clients[id] in h'.heap && h'.heap[h'.clients[id]].drops >= MAX_SLOW_DROPS
    ensures SentSoFar(h, Sent(mid, {id}, data), done + {id}, data, if slow then toEvict + {id} else toEvict)
  {
    SendOneMore(h, done, id, data);
    SendingKeepsKnown(mid, {id}, data);
    SlowOneMore(mid, done, id, data);
  }

  lemma {:induction false} SendingKeepsKnown(h: State, targets: set<ID>, data: string)
    requires ClientsKnown(h)
    ensures ClientsKnown(Sent(h, targets, data))
  {
  }

  lemma {:induction false} RemovalKeepsKnown(h: State, ids: set<ID>, cause: Cause)
    requires ClientsKnown(h)
    ensures ClientsKnown(Removed(h, ids, cause))
  {
  }

  lemma {:induction false} BroadcastKeepsKnown(h: State, targets: set<ID>, data: string)
    requires ClientsKnown(h)
    ensures ClientsKnown(Sent(h, targets, data)) && ClientsKnown(Broadcast(h, targets, data))
  {
    SendingKeepsKnown(h, targets, data);
    RemovalKeepsKnown(Sent(h, targets, data), TooSlow(Sent(h, targets, data), targets), Slow);
  }

  lemma {:induction false} SendingKeepsChannels(h: State, targets: set<ID>, data: string)
    requires ChannelsMatch(h)
    ensures ChannelsMatch(Sent(h, targets, data))
  {
  }

  lemma {:induction false} RemovalKeepsChannels(h: State, ids: set<ID>, cause: Cause)
    requires ChannelsMatch(h)
    ensures ChannelsMatch(Removed(h, ids, cause))
  {
  }

  // ---- What every operation keeps ----

  /** The counter of trailing failures: exactly that many at the end, and no more. */
  lemma {:induction false} TrailingMeaning(history: seq<bool>)
    ensures var n := Trailing(history);
      && (forall i :: |history| - n <= i < |history| ==> !history[i])
      && (n < |history| ==> history[|history| - n - 1])
  {
    if |history| > 0 && !history[|history| - 1] {
      TrailingMeaning(history[..|history| - 1]);
    }
  }

  lemma {:induction false} FiveDropsMeanFiveInARow(history: seq<bool>)
    requires Trailing(history) >= MAX_SLOW_DROPS
    ensures FiveInARow(history)
  {
    TrailingMeaning(history);
    assert FiveFailedBefore(history, |history|);
  }

  lemma {:induction false} FiveInARowStays(history: seq<bool>, ok: bool)
    requires FiveInARow(history)
    ensures FiveInARow(history + [ok])
  {
    var n :| FiveFailedBefore(history, n);
    assert FiveFailedBefore(history + [ok], n);
  }

  lemma {:induction false} AttemptKeepsSound(c: Client, data: string)
    requires Counted(c)
    ensures Counted(Attempt(c, data)) && (Sound(c) ==> Sound(Attempt(c, data)))
    ensures FiveInARow(c.history) ==> FiveInARow(Attempt(c, data).history)
  {
    var c' := Attempt(c, data);
    assert c'.history[..|c.history|] == c.history;
    if FiveInARow(c.history) {
      FiveInARowStays(c.history, c'.history[|c.history|]);
    }
  }

  lemma {:induction false} SendKeepsTidy(h: State, targets: set<ID>, data: string)
    requires Tidy(h)
    ensures Tidy(Sent(h, targets, data))
  {
    var h' := Sent(h, targets, data);
    forall x | x in h'.heap
      ensures Counted(h'.heap[x])
    {
      AttemptKeepsSound(h.heap[x], data);
    }
    SendingKeepsKnown(h, targets, data);
  }

  lemma {:induction false} RemovalKeepsTidy(h: State, ids: set<ID>, cause: Cause)
    requires Tidy(h)
    ensures Tidy(Removed(h, ids, cause))
  {
    var h' := Removed(h, ids, cause);
    forall x | x in h'.heap
      ensures Counted(h'.heap[x])
    {
      assert Counted(h.heap[x]);
    }
    RemovalKeepsKnown(h, ids, cause);
    RemovalKeepsRooms(h, ids, cause);
  }

  lemma {:induction false} RegisterKeepsTidy(h: State, x: Ref, c: Client)
    requires Tidy(h) && (x in h.heap ==> h.heap[x] == c) && Counted(c)
    ensures Tidy(Registered(h.(heap := h.heap[x := c]), x))
  {
    var added := h.(heap := h.heap[x := c], clients := h.clients[c.id := x]);
    JoiningKeepsRooms(added, SignalRoom(c.user), c.id);
  }

  lemma {:induction false} SendKeepsSafe(h: State, targets: set<ID>, data: string)
    requires Safe(h)
    ensures Safe(Sent(h, targets, data))
  {
    var h' := Sent(h, targets, data);
    assert forall x :: x in h'.heap ==> (IsRegistered(h', x) <==> IsRegistered(h, x));
    SendKeepsTidy(h, targets, data);
  }

  lemma {:induction false} RemovalKeepsSafe(h: State, ids: set<ID>, cause: Cause)
    requires Safe(h)
    ensures Safe(Removed(h, ids, cause))
  {
    var h' := Removed(h, ids, cause);
    assert forall x :: x in h'.heap && IsRegistered(h', x) ==> IsRegistered(h, x) && h'.heap[x] == h.heap[x];
    RemovalKeepsTidy(h, ids, cause);
  }

  lemma {:induction false} RegistersItself(h: State, x: Ref, c: Client)
    requires ClientsKnown(h) && (x in h.heap ==> h.heap[x] == c)
    ensures var h' := Registered(h.(heap := h.heap[x := c]), x);
      && x in h'.heap && h'.heap[x] == c && IsRegistered(h', x)
      && (forall y :: y in h'.heap && y != x && IsRegistered(h', y) ==>
            y in h.heap && IsRegistered(h, y) && h'.heap[y] == h.heap[y])
  {
  }

  /** Registering a client object, new or known, under any ID keeps the hub safe exactly
      when its channel is open. */
  lemma {:induction false} RegisterKeepsSafeExactly(h: State, x: Ref, c: Client)
    requires Safe(h) && (x in h.heap ==> h.heap[x] == c) && Counted(c)
    ensures Safe(Registered(h.(heap := h.heap[x := c]), x)) <==> c.closed == None
  {
    RegisterKeepsTidy(h, x, c);
    RegistersItself(h, x, c);
  }

  lemma {:induction false} SendKeepsConsistent(h: State, targets: set<ID>, data: string)
    requires Consistent(h)
    ensures Consistent(Sent(h, targets, data))
  {
    SendingKeepsChannels(h, targets, data);
    var h' := Sent(h, targets, data);
    forall x | x in h'.heap
      ensures Sound(h'.heap[x])
    {
      AttemptKeepsSound(h.heap[x], data);
    }
  }

  /** Clients may be removed at any time, but for slowness only after five failures in
      a row. */
  lemma {:induction false} RemovalKeepsConsistent(h: State, ids: set<ID>, cause: Cause)
    requires Consistent(h)
    requires cause == Slow ==> forall id :: id in ids && id in h.clients ==> FiveInARow(h.heap[h.clients[id]].history)
    ensures Consistent(Removed(h, ids, cause))
  {
    RemovalKeepsChannels(h, ids, cause);
    RemovalKeepsRooms(h, ids, cause);
    var h' := Removed(h, ids, cause);
    forall x | x in h'.heap
      ensures Sound(h'.heap[x])
    {
      assert Sound(h.heap[x]);
    }
  }

  lemma {:induction false} RemovalKeepsRooms(h: State, ids: set<ID>, cause: Cause)
    requires RoomsMatch(h)
    ensures RoomsMatch(Removed(h, ids, cause))
  {
  }

  lemma {:induction false} BroadcastKeepsConsistent(h: State, targets: set<ID>, data: string)
    requires Consistent(h)
    ensures Consistent(Sent(h, targets, data)) && Consistent(Broadcast(h, targets, data))
  {
    var sent := Sent(h, targets, data);
    SendKeepsConsistent(h, targets, data);
    var ids := TooSlow(sent, targets);
    forall id | id in ids && id in sent.clients
      ensures FiveInARow(sent.heap[sent.clients[id]].history)
    {
      assert Sound(sent.heap[sent.clients[id]]);
      FiveDropsMeanFiveInARow(sent.heap[sent.clients[id]].history);
    }
    RemovalKeepsConsistent(sent, ids, Slow);
  }

  lemma {:induction false} JoiningKeepsRooms(h: State, room: string, id: ID)
    requires RoomsMatch(h) && id in h.clients
    ensures RoomsMatch(h.(rooms := Joined(h.rooms, room, id)))
  {
  }

  /** Registering a new client object keeps the hub consistent exactly when its ID is not
      in use: otherwise the earlier client's channel is open and no longer in the map. */
  lemma {:induction false} RegisterKeepsConsistentExactly(h: State, x: Ref, c: Client)
    requires Consistent(h) && x !in h.heap && Sound(c) && c.closed == None
    ensures Consistent(Registered(h.(heap := h.heap[x := c]), x)) <==> c.id !in h.clients
  {
    var heap' := h.heap[x := c];
    var added := h.(heap := heap', clients := h.clients[c.id := x]);
    JoiningKeepsRooms(added, SignalRoom(c.user), c.id);
    if c.id in h.clients {
      var y := h.clients[c.id];
      assert heap'[y].closed == None && added.clients[heap'[y].id] != y;
    }
  }

  lemma {:induction false} SubscribeKeepsConsistent(h: State, id: ID, room: string)
    requires Consistent(h)
    ensures Consistent(Subscribed(h, id, room))
  {
    if id in h.clients {
      JoiningKeepsRooms(h, room, id);
    }
  }

  lemma {:induction false} LeavingKeepsRooms(h: State, id: ID, room: string)
    requires RoomsMatch(h)
    ensures RoomsMatch(Unsubscribed(h, id, room))
  {
  }

  lemma {:induction false} UnsubscribeKeepsConsistent(h: State, id: ID, room: string)
    requires Consistent(h)
    ensures Consistent(Unsubscribed(h, id, room))
  {
    LeavingKeepsRooms(h, id, room);
  }

  /** What sending to any set of clients does to one client. */
  lemma {:induction false} TargetsServed(h: State, targets: set<ID>, data: string, x: Ref)
    requires Consistent(h) && x in h.heap
    ensures var h' := Broadcast(h, targets, data);
      var c, c' := h.heap[x], h'.heap[x];
      var target := c.closed == None && c.id in targets;
      var struck := target && |c.queue| == 256 && Trailing(c.history) >= 4;
      && c'.queue == (if target && |c.queue| < 256 then c.queue + [data] else c.queue)
      && c'.history == (if target then c.history + [|c.queue| < 256] else c.history)
      && c'.closed == (if struck then Some(Slow) else c.closed)
      && (c'.id, c'.user, c'.session, c'.workspace) == (c.id, c.user, c.session, c.workspace)
      && (c'.closed == None <==> c.id in h'.clients && h'.clients[c.id] == x)
  {
    var sent := Sent(h, targets, data);
    BroadcastKeepsConsistent(h, targets, data);
    assert Sound(h.heap[x]);
    assert sent.heap[x].id == h.heap[x].id;
    var ids := TooSlow(sent, targets);
    assert Targeted(sent, ids, x) <==> Targeted(h, targets, x) && sent.heap[x].drops >= MAX_SLOW_DROPS;
  }

  /** Delivery: a broadcast to a room puts the message at the end of the queue of exactly
      those members that have space, and leaves every other queue alone; exactly the members
      that reach five failures in a row are closed as slow. */
  lemma {:induction false} BroadcastDelivers(h: State, room: string, data: string, x: Ref)
    requires Consistent(h) && room in h.rooms && x in h.heap
    ensures var h' := Broadcast(h, h.rooms[room], data);
      var c, c' := h.heap[x], h'.heap[x];
      var member := c.closed == None && c.id in h.rooms[room];
      && c'.queue == (if member && |c.queue| < 256 then c.queue + [data] else c.queue)
      && c'.closed == (if member && |c.queue| == 256 && Trailing(c.history) >= 4 then Some(Slow) else c.closed)
      && (c'.closed == None <==> c.id in h'.clients && h'.clients[c.id] == x)
  {
    TargetsServed(h, h.rooms[room], data, x);
  }

  /** A message to a user reaches exactly that user's open clients, in the named workspace
      only unless it is nil, and nobody else. */
  lemma {:induction false} UserMessageDelivers(h: State, workspace: string, user: string, data: string, x: Ref)
    requires Consistent(h) && x in h.heap
    ensures var h' := Broadcast(h, OfUser(h, workspace, user), data);
      var c, c' := h.heap[x], h'.heap[x];
      var addressed := c.closed == None && c.user == user
        && (workspace == "00000000-0000-0000-0000-000000000000" || c.workspace == workspace);
      && c'.queue == (if addressed && |c.queue| < 256 then c.queue + [data] else c.queue)
      && c'.closed == (if addressed && |c.queue| == 256 && Trailing(c.history) >= 4 then Some(Slow) else c.closed)
      && (c'.closed == None <==> c.id in h'.clients && h'.clients[c.id] == x)
  {
    TargetsServed(h, OfUser(h, workspace, user), data, x);
  }

  // ---- Who is in which room ----

  function Members(h: State, room: string): (ids: set<ID>) {
    if room in h.rooms then h.rooms[room] else {}
  }

  /** A client object comes in under its ID and into its user's signal room; nothing else
      changes. */
  lemma {:induction false} RegisterExactly(h: State, x: Ref, c: Client, id: ID, room: string)
    ensures var h' := Registered(h.(heap := h.heap[x := c]), x);
      && (id in h'.clients <==> id in h.clients || id == c.id)
      && (id in h'.clients ==> h'.clients[id] == if id == c.id then x else h.clients[id])
      && (id in Members(h', room) <==> id in Members(h, room) || (id == c.id && room == "aloqa.signal." + c.user))
      && h'.heap == h.heap[x := c] && h'.panicked == h.panicked
  {
  }

  /** Exactly a registered client gets into the room it names. */
  lemma {:induction false} SubscribeExactly(h: State, client: ID, to: string, id: ID, room: string)
    ensures var h' := Subscribed(h, client, to);
      && (id in Members(h', room) <==>
            id in Members(h, room) || (id == client && room == to && client in h.clients))
      && (h'.clients, h'.heap, h'.panicked) == (h.clients, h.heap, h.panicked)
  {
  }

  lemma {:induction false} UnsubscribeExactly(h: State, client: ID, from: string, id: ID, room: string)
    ensures var h' := Unsubscribed(h, client, from);
      && (id in Members(h', room) <==> id in Members(h, room) && !(id == client && room == from))
      && (h'.clients, h'.heap, h'.panicked) == (h.clients, h.heap, h.panicked)
  {
  }

  /** Whoever is removed is closed for the reason given, unregistered and in no room; everyone
      else stays as they were. */
  lemma {:induction false} RemovalExactly(h: State, ids: set<ID>, cause: Cause, x: Ref, room: string)
    requires Consistent(h) && x in h.heap
    ensures var h' := Removed(h, ids, cause);
      var c := h.heap[x];
      && h'.heap[x] == c.(closed := if c.closed == None && c.id in ids then Some(cause) else c.closed)
      && h'.clients == h.clients - ids
      && Members(h', room) == Members(h, room) - ids
  {
    assert Targeted(h, ids, x) <==> h.heap[x].closed == None && h.heap[x].id in ids;
    if room in h.rooms {
      assert h.rooms[room] - ids * h.clients.Keys == h.rooms[room] - ids;
    }
  }

  /** Revoking a session takes out exactly its open clients. */
  lemma {:induction false} SessionGoesExactly(h: State, session: string, x: Ref, room: string)
    requires Consistent(h) && x in h.heap
    ensures var h' := Removed(h, InSession(h, session), SessionRevoked);
      var c := h.heap[x];
      var revoked := c.closed == None && c.session == session;
      && h'.heap[x] == c.(closed := if revoked then Some(SessionRevoked) else c.closed)
      && (c.closed == None ==> (h'.heap[x].closed == None <==> c.id in h'.clients))
      && (c.closed == None ==> (c.id in Members(h', room) <==> c.id in Members(h, room) && !revoked))
  {
    RemovalExactly(h, InSession(h, session), SessionRevoked, x, room);
  }

  /** After a shutdown nobody is registered, every channel is closed and no room is left. */
  lemma {:induction false} ShutdownLeavesNobody(h: State, x: Ref)
    requires Consistent(h) && x in h.heap
    ensures var h' := Removed(h, h.clients.Keys, ShuttingDown);
      && h'.clients == map[] && h'.rooms == map[]
      && h'.heap[x] == h.heap[x].(closed := if h.heap[x].closed == None then Some(ShuttingDown) else h.heap[x].closed)
  {
    RemovalExactly(h, h.clients.Keys, ShuttingDown, x, "");
    if h.clients == map[] {
      assert h.rooms == map[];
    }
  }
}
