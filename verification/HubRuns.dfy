/** Many goroutines at the hub: broadcasts send under the read lock one client at a time,
    release it, and evict under the write lock later; everything else that writes waits
    for readers. */
module HubRuns {
  import opened Wrappers
  import opened Lists
  import opened WebSocketHub

  datatype Phase =
    | Sending(pending: set<ID>, slow: set<ID>)
    | Evicting(slow: set<ID>)
    | Returned

  /** One call of a broadcast. */
  datatype Call = Call(data: string, phase: Phase)

  /** An attempt of a call that left a client at five or more failures in a row. */
  datatype Strike = Strike(call: string, client: Ref)

  datatype Machine = Machine(hub: State, calls: map<string, Call>, strikes: set<Strike>)

  datatype Op =
    | Connect(client: Ref, id: ID, user: string, session: string, workspace: string)
    | RegisterAgain(client: Ref)
    | Join(id: ID, room: string)
    | Leave(id: ID, room: string)
    | Unregister(client: Ref)
    | Revoke(session: string)
    | Stop
    | StartRoom(call: string, room: string, data: string)
    | StartUser(call: string, workspace: string, user: string, data: string)
    | SendTo(call: string, id: ID)
    | FinishSending(call: string)
    | EvictSlow(call: string)
    | Drain(client: Ref)

  /** Nobody holds the read lock. */
  predicate WriteLockFree(m: Machine) {
    forall c :: c in m.calls ==> !m.calls[c].phase.Sending?
  }

  predicate Enabled(m: Machine, op: Op) {
    match op
    case Connect(x, _, _, _, _) => WriteLockFree(m) && x !in m.hub.heap
    case RegisterAgain(x) => WriteLockFree(m) && x in m.hub.heap
    case Join(_, _) => WriteLockFree(m)
    case Leave(_, _) => WriteLockFree(m)
    case Unregister(x) => WriteLockFree(m) && x in m.hub.heap
    case Revoke(session) => WriteLockFree(m) && session != ""
    case Stop => WriteLockFree(m)
    case StartRoom(c, room, _) => c !in m.calls && room in m.hub.rooms
    case StartUser(c, _, _, _) => c !in m.calls
    case SendTo(c, id) => c in m.calls && m.calls[c].phase.Sending? && id in m.calls[c].phase.pending
    case FinishSending(c) => c in m.calls && m.calls[c].phase.Sending? && m.calls[c].phase.pending == {}
    case EvictSlow(c) => WriteLockFree(m) && c in m.calls && m.calls[c].phase.Evicting?
    case Drain(x) => x in m.hub.heap && m.hub.heap[x].queue != []
  }

  /** The client that holds an ID has now failed too often. */
  predicate Struck(h: State, id: ID) {
    id in h.clients && h.clients[id] in h.heap && h.heap[h.clients[id]].drops >= MAX_SLOW_DROPS
  }

  function SentTo(m: Machine, c: string, id: ID): (m': Machine)
    requires c in m.calls && m.calls[c].phase.Sending?
  {
    var call := m.calls[c];
    var hub := Sent(m.hub, {id}, call.data);
    var struck := Struck(hub, id);
    Machine(hub,
            m.calls[c := call.(phase := Sending(call.phase.pending - {id},
                                                call.phase.slow + if struck then {id} else {}))],
            m.strikes + if struck then {Strike(c, hub.clients[id])} else {})
  }

  function Next(m: Machine, op: Op): (m': Machine) {
    if !Enabled(m, op) then m
    else
      match op
      case Connect(x, id, user, session, workspace) =>
        m.(hub := Registered(m.hub.(heap := m.hub.heap[x := NewClient(id, user, session, workspace)]), x))
      case RegisterAgain(x) => m.(hub := Registered(m.hub, x))
      case Join(id, room) => m.(hub := Subscribed(m.hub, id, room))
      case Leave(id, room) => m.(hub := Unsubscribed(m.hub, id, room))
      case Unregister(x) => m.(hub := Removed(m.hub, {m.hub.heap[x].id}, Unregistered))
      case Revoke(session) => m.(hub := Removed(m.hub, InSession(m.hub, session), SessionRevoked))
      case Stop => m.(hub := Removed(m.hub, m.hub.clients.Keys, ShuttingDown))
      case StartRoom(c, room, data) => m.(calls := m.calls[c := Call(data, Sending(m.hub.rooms[room], {}))])
      case StartUser(c, workspace, user, data) =>
        m.(calls := m.calls[c := Call(data, Sending(OfUser(m.hub, workspace, user), {}))])
      case SendTo(c, id) => SentTo(m, c, id)
      case FinishSending(c) => m.(calls := m.calls[c := m.calls[c].(phase := Evicting(m.calls[c].phase.slow))])
      case EvictSlow(c) =>
        m.(hub := Removed(m.hub, m.calls[c].phase.slow, Slow), calls := m.calls[c := m.calls[c].(phase := Returned)])
      case Drain(x) => m.(hub := m.hub.(heap := m.hub.heap[x := m.hub.heap[x].(queue := m.hub.heap[x].queue[1..])]))
  }

  function After(ops: seq<Op>): (m: Machine) {
    if |ops| == 0 then Machine(State(map[], map[], map[], false), map[], {})
    else Next(After(ops[..|ops| - 1]), ops[|ops| - 1])
  }

  // ---- What every run keeps ----

  lemma {:induction false} RegistrationKeepsTidy(m: Machine, op: Op)
    requires Tidy(m.hub) && Enabled(m, op) && (op.Connect? || op.RegisterAgain?)
    ensures Tidy(Next(m, op).hub)
  {
    if op.Connect? {
      RegisterKeepsTidy(m.hub, op.client, NewClient(op.id, op.user, op.session, op.workspace));
    } else {
      RegisterKeepsTidy(m.hub, op.client, m.hub.heap[op.client]);
      assert m.hub.(heap := m.hub.heap[op.client := m.hub.heap[op.client]]) == m.hub;
    }
  }

  lemma {:induction false} MembershipKeepsRooms(h: State, id: ID, room: string)
    requires RoomsMatch(h)
    ensures RoomsMatch(Subscribed(h, id, room)) && RoomsMatch(Unsubscribed(h, id, room))
  {
    LeavingKeepsRooms(h, id, room);
    if id in h.clients {
      JoiningKeepsRooms(h, room, id);
    }
  }

  lemma {:induction false} TidyStep(m: Machine, op: Op)
    requires Tidy(m.hub)
    ensures Tidy(Next(m, op).hub)
  {
    if Enabled(m, op) {
      match op
      case Connect(_, _, _, _, _) => RegistrationKeepsTidy(m, op);
      case RegisterAgain(_) => RegistrationKeepsTidy(m, op);
      case Join(id, room) => MembershipKeepsRooms(m.hub, id, room);
      case Leave(id, room) => MembershipKeepsRooms(m.hub, id, room);
      case Unregister(x) => RemovalKeepsTidy(m.hub, {m.hub.heap[x].id}, Unregistered);
      case Revoke(session) => RemovalKeepsTidy(m.hub, InSession(m.hub, session), SessionRevoked);
      case Stop => RemovalKeepsTidy(m.hub, m.hub.clients.Keys, ShuttingDown);
      case SendTo(c, id) => SendKeepsTidy(m.hub, {id}, m.calls[c].data);
      case EvictSlow(c) => RemovalKeepsTidy(m.hub, m.calls[c].phase.slow, Slow);
      case Drain(x) => assert Counted(m.hub.heap[x]);
      case _ =>
    }
  }

  lemma {:induction false} EveryRunIsTidy(ops: seq<Op>)
    ensures Tidy(After(ops).hub)
    decreases |ops|
  {
    if |ops| > 0 {
      EveryRunIsTidy(ops[..|ops| - 1]);
      TidyStep(After(ops[..|ops| - 1]), ops[|ops| - 1]);
    }
  }

  /** In every run, whoever registers under whatever ID: every room member is a registered
      client, no room is empty, and the drop counter is the length of the trailing run of
      failures. */
  lemma {:induction false} RoomsAndCountersHold(ops: seq<Op>)
    ensures var h := After(ops).hub;
      && (forall room :: room in h.rooms ==> h.rooms[room] != {} && h.rooms[room] <= h.clients.Keys)
      && (forall x :: x in h.heap ==> h.heap[x].drops == Trailing(h.heap[x].history))
  {
    EveryRunIsTidy(ops);
    var h := After(ops).hub;
    assert forall x :: x in h.heap ==> Counted(h.heap[x]);
  }

  /** Clients are never forgotten; their IDs stay, their histories only grow, and a closed
      channel stays closed. */
  ghost predicate HeapGrows(heap: map<Ref, Client>, heap': map<Ref, Client>) {
    forall x :: x in heap ==>
      && x in heap' && heap'[x].id == heap[x].id
      && (heap[x].closed != None ==> heap'[x].closed != None)
      && (FiveInARow(heap[x].history) ==> FiveInARow(heap'[x].history))
  }

  lemma {:induction false} RemovalGrows(h: State, ids: set<ID>, cause: Cause)
    ensures HeapGrows(h.heap, Removed(h, ids, cause).heap)
  {
  }

  lemma {:induction false} SendGrows(h: State, targets: set<ID>, data: string)
    requires Tidy(h)
    ensures HeapGrows(h.heap, Sent(h, targets, data).heap)
  {
    var heap' := Sent(h, targets, data).heap;
    forall x | x in h.heap
      ensures FiveInARow(h.heap[x].history) ==> FiveInARow(heap'[x].history)
    {
      AttemptKeepsSound(h.heap[x], data);
    }
  }

  /** A step that neither registers, removes nor sends. */
  predicate IsQuiet(op: Op) {
    op.Join? || op.Leave? || op.StartRoom? || op.StartUser? || op.FinishSending? || op.Drain?
  }

  /** Clients as they were, but for what waits in their queues. */
  ghost predicate OnlyDrained(heap: map<Ref, Client>, heap': map<Ref, Client>) {
    heap'.Keys == heap.Keys && forall x :: x in heap ==> heap'[x] == heap[x].(queue := heap'[x].queue)
  }

  lemma {:induction false} QuietStepKeepsClients(m: Machine, op: Op)
    requires IsQuiet(op)
    ensures Next(m, op).hub.clients == m.hub.clients && Next(m, op).hub.panicked == m.hub.panicked
    ensures OnlyDrained(m.hub.heap, Next(m, op).hub.heap)
  {
  }

  lemma {:induction false} DrainGrows(heap: map<Ref, Client>, heap': map<Ref, Client>)
    requires OnlyDrained(heap, heap')
    ensures HeapGrows(heap, heap')
  {
    assert forall x :: x in heap ==> heap'[x].history == heap[x].history;
  }

  lemma {:induction false} RegistrationGrows(m: Machine, op: Op)
    requires op.Connect? || op.RegisterAgain?
    ensures HeapGrows(m.hub.heap, Next(m, op).hub.heap)
  {
  }

  lemma {:induction false} StepGrowsHeap(m: Machine, op: Op)
    requires Tidy(m.hub)
    ensures HeapGrows(m.hub.heap, Next(m, op).hub.heap)
  {
    if IsQuiet(op) {
      QuietStepKeepsClients(m, op);
      DrainGrows(m.hub.heap, Next(m, op).hub.heap);
    } else if op.Connect? || op.RegisterAgain? {
      RegistrationGrows(m, op);
    } else if Enabled(m, op) {
      if op.SendTo? {
        SendGrows(m.hub, {op.id}, m.calls[op.call].data);
      } else {
        RemovalShape(m, op);
        RemovalGrows(m.hub, RemovedIDs(m, op), CauseOf(op));
      }
    }
  }

  /** A step that removes clients, whom, and why. */
  predicate IsRemoval(op: Op) {
    op.Unregister? || op.Revoke? || op.Stop? || op.EvictSlow?
  }

  function RemovedIDs(m: Machine, op: Op): (ids: set<ID>)
    requires IsRemoval(op) && Enabled(m, op)
  {
    match op
    case Unregister(x) => {m.hub.heap[x].id}
    case Revoke(session) => InSession(m.hub, session)
    case Stop => m.hub.clients.Keys
    case EvictSlow(c) => m.calls[c].phase.slow
  }

  function CauseOf(op: Op): (c: Cause) {
    if op.Unregister? then Unregistered
    else if op.Revoke? then SessionRevoked
    else if op.Stop? then ShuttingDown
    else Slow
  }

  lemma {:induction false} RemovalShape(m: Machine, op: Op)
    requires IsRemoval(op) && Enabled(m, op)
    ensures Next(m, op).hub == Removed(m.hub, RemovedIDs(m, op), CauseOf(op))
  {
  }

  // ---- Panics ----

  /** The step puts a client back whose channel is closed. */
  predicate Revives(m: Machine, op: Op) {
    Enabled(m, op) && op.RegisterAgain? && m.hub.heap[op.client].closed != None
  }

  predicate NoRevival(ops: seq<Op>) {
    |ops| > 0 ==> NoRevival(ops[..|ops| - 1]) && !Revives(After(ops[..|ops| - 1]), ops[|ops| - 1])
  }

  lemma {:induction false} RegistrationKeepsSafeExactly(m: Machine, op: Op)
    requires Safe(m.hub) && Enabled(m, op) && (op.Connect? || op.RegisterAgain?)
    ensures Safe(Next(m, op).hub) <==> !Revives(m, op)
  {
    if op.Connect? {
      RegisterKeepsSafeExactly(m.hub, op.client, NewClient(op.id, op.user, op.session, op.workspace));
    } else {
      RegisterKeepsSafeExactly(m.hub, op.client, m.hub.heap[op.client]);
      assert m.hub.(heap := m.hub.heap[op.client := m.hub.heap[op.client]]) == m.hub;
    }
  }

  /** Reviving is exactly what makes a hub unsafe. */
  lemma {:induction false} SafeStepExactly(m: Machine, op: Op)
    requires Safe(m.hub)
    ensures Safe(Next(m, op).hub) <==> !Revives(m, op)
  {
    if Enabled(m, op) {
      match op
      case Connect(_, _, _, _, _) => RegistrationKeepsSafeExactly(m, op);
      case RegisterAgain(_) => RegistrationKeepsSafeExactly(m, op);
      case Unregister(x) => RemovalKeepsSafe(m.hub, {m.hub.heap[x].id}, Unregistered);
      case Revoke(session) => RemovalKeepsSafe(m.hub, InSession(m.hub, session), SessionRevoked);
      case Stop => RemovalKeepsSafe(m.hub, m.hub.clients.Keys, ShuttingDown);
      case SendTo(c, id) => SendKeepsSafe(m.hub, {id}, m.calls[c].data);
      case EvictSlow(c) => RemovalKeepsSafe(m.hub, m.calls[c].phase.slow, Slow);
      case _ => QuietStepKeepsSafe(m, op);
    }
  }

  lemma {:induction false} QuietStepKeepsSafe(m: Machine, op: Op)
    requires Safe(m.hub) && Enabled(m, op) && IsQuiet(op)
    ensures Safe(Next(m, op).hub)
  {
    TidyStep(m, op);
    QuietStepKeepsClients(m, op);
    SameClientsStaySafe(m.hub, Next(m, op).hub);
  }

  lemma {:induction false} SameClientsStaySafe(h: State, h': State)
    requires Safe(h) && Tidy(h') && h'.clients == h.clients && h'.panicked == h.panicked && OnlyDrained(h.heap, h'.heap)
    ensures Safe(h')
  {
    assert forall x :: x in h.heap ==> (IsRegistered(h', x) <==> IsRegistered(h, x));
  }

  lemma {:induction false} RunsWithoutRevivalAreSafe(ops: seq<Op>)
    requires NoRevival(ops)
    ensures Safe(After(ops).hub)
    decreases |ops|
  {
    if |ops| > 0 {
      RunsWithoutRevivalAreSafe(ops[..|ops| - 1]);
      SafeStepExactly(After(ops[..|ops| - 1]), ops[|ops| - 1]);
    }
  }

  /** Unless a client is registered again after its channel was closed, nobody sends on a
      closed channel or closes one twice, and a registered client's channel is open. */
  lemma {:induction false} HubNeverPanics(ops: seq<Op>)
    requires NoRevival(ops)
    ensures var h := After(ops).hub;
      && !h.panicked
      && (forall x :: x in h.heap && IsRegistered(h, x) ==> h.heap[x].closed == None)
  {
    RunsWithoutRevivalAreSafe(ops);
  }

  /** The assumption is needed: once a closed client is registered again, a broadcast that
      reaches it panics. */
  lemma {:induction false} RevivedClientPanics(m: Machine, x: Ref, call: string, data: string)
    requires Tidy(m.hub) && Revives(m, RegisterAgain(x)) && call !in m.calls
    ensures var room, id := SignalRoom(m.hub.heap[x].user), m.hub.heap[x].id;
      var back := Next(m, RegisterAgain(x));
      var sending := Next(back, StartRoom(call, room, data));
      && Enabled(back, StartRoom(call, room, data)) && Enabled(sending, SendTo(call, id))
      && Next(sending, SendTo(call, id)).hub.panicked
  {
    var id := m.hub.heap[x].id;
    var back := Next(m, RegisterAgain(x));
    assert Targeted(back.hub, {id}, x);
  }

  lemma {:induction false} RemovalKeepsCause(h: State, ids: set<ID>, cause: Cause, x: Ref)
    requires x in h.heap && !IsRegistered(h, x)
    ensures Removed(h, ids, cause).heap[x] == h.heap[x]
  {
  }

  lemma {:induction false} CauseStays(m: Machine, op: Op, x: Ref)
    requires Safe(m.hub) && x in m.hub.heap && m.hub.heap[x].closed != None
    ensures x in Next(m, op).hub.heap && Next(m, op).hub.heap[x].closed == m.hub.heap[x].closed
  {
    if IsRemoval(op) && Enabled(m, op) {
      RemovalShape(m, op);
      RemovalKeepsCause(m.hub, RemovedIDs(m, op), CauseOf(op), x);
    } else if IsQuiet(op) {
      QuietStepKeepsClients(m, op);
    }
  }

  /** A channel once closed stays closed; and for the reason it was closed, unless somebody
      is registered again after that. */
  lemma {:induction false} ClosedForGood(ops: seq<Op>, n: nat, x: Ref)
    requires n <= |ops| && x in After(ops[..n]).hub.heap && After(ops[..n]).hub.heap[x].closed != None
    ensures x in After(ops).hub.heap && After(ops).hub.heap[x].closed != None
    ensures NoRevival(ops) ==> After(ops).hub.heap[x].closed == After(ops[..n]).hub.heap[x].closed
    decreases |ops|
  {
    if n == |ops| {
      assert ops[..n] == ops;
    } else {
      var shorter := ops[..|ops| - 1];
      assert shorter[..n] == ops[..n];
      ClosedForGood(shorter, n, x);
      EveryRunIsTidy(shorter);
      StepGrowsHeap(After(shorter), ops[|ops| - 1]);
      if NoRevival(ops) {
        RunsWithoutRevivalAreSafe(shorter);
        CauseStays(After(shorter), ops[|ops| - 1], x);
      }
    }
  }

  // ---- Orphans ----

  /** A client whose channel is open although it is not registered. */
  predicate Orphan(h: State, x: Ref) {
    x in h.heap && h.heap[x].closed == None && !IsRegistered(h, x)
  }

  /** The step registers another client under the ID of a registered one. */
  predicate TakesOver(m: Machine, op: Op, x: Ref) {
    && x in m.hub.heap && IsRegistered(m.hub, x) && Enabled(m, op)
    && ((op.Connect? && op.id == m.hub.heap[x].id)
        || (op.RegisterAgain? && op.client != x && m.hub.heap[op.client].id == m.hub.heap[x].id))
  }

  lemma {:induction false} RemovalAndOrphans(h: State, ids: set<ID>, cause: Cause, x: Ref)
    requires ClientsKnown(h) && x in h.heap
    ensures Orphan(Removed(h, ids, cause), x) <==> Orphan(h, x)
  {
  }

  lemma {:induction false} RegistrationAndOrphans(h: State, y: Ref, c: Client, x: Ref)
    requires x in h.heap && (y in h.heap ==> h.heap[y] == c) && (IsRegistered(h, x) ==> h.heap[x].closed == None)
    ensures Orphan(Registered(h.(heap := h.heap[y := c]), y), x) <==>
      y != x && (Orphan(h, x) || (IsRegistered(h, x) && c.id == h.heap[x].id))
  {
  }

  lemma {:induction false} RegisteringAndOrphans(m: Machine, op: Op, x: Ref)
    requires Safe(m.hub) && x in m.hub.heap && Enabled(m, op) && (op.Connect? || op.RegisterAgain?)
    ensures Orphan(Next(m, op).hub, x) <==> TakesOver(m, op, x) || (Orphan(m.hub, x) && op != RegisterAgain(x))
  {
    if op.Connect? {
      RegistrationAndOrphans(m.hub, op.client, NewClient(op.id, op.user, op.session, op.workspace), x);
    } else {
      RegistrationAndOrphans(m.hub, op.client, m.hub.heap[op.client], x);
      assert m.hub.(heap := m.hub.heap[op.client := m.hub.heap[op.client]]) == m.hub;
    }
  }

  /** A step that registers nobody makes and unmakes no orphan. */
  lemma {:induction false} OrphansOtherwise(m: Machine, op: Op, x: Ref)
    requires ClientsKnown(m.hub) && x in m.hub.heap && Enabled(m, op) && !op.Connect? && !op.RegisterAgain?
    ensures Orphan(Next(m, op).hub, x) <==> Orphan(m.hub, x)
  {
    match op
    case Unregister(y) => RemovalAndOrphans(m.hub, {m.hub.heap[y].id}, Unregistered, x);
    case Revoke(session) => RemovalAndOrphans(m.hub, InSession(m.hub, session), SessionRevoked, x);
    case Stop => RemovalAndOrphans(m.hub, m.hub.clients.Keys, ShuttingDown, x);
    case EvictSlow(c) => RemovalAndOrphans(m.hub, m.calls[c].phase.slow, Slow, x);
    case SendTo(c, id) => SendingAndOrphans(m.hub, {id}, m.calls[c].data, x);
    case _ =>
  }

  lemma {:induction false} SendingAndOrphans(h: State, targets: set<ID>, data: string, x: Ref)
    requires x in h.heap
    ensures Orphan(Sent(h, targets, data), x) <==> Orphan(h, x)
  {
  }

  /** An orphan is made by a takeover and unmade only by registering it again. */
  lemma {:induction false} OrphanStepExactly(m: Machine, op: Op, x: Ref)
    requires Safe(m.hub) && x in m.hub.heap
    ensures Orphan(Next(m, op).hub, x) <==>
      TakesOver(m, op, x) || (Orphan(m.hub, x) && !(op == RegisterAgain(x) && Enabled(m, op)))
  {
    if Enabled(m, op) {
      if op.Connect? || op.RegisterAgain? {
        RegisteringAndOrphans(m, op, x);
      } else {
        OrphansOtherwise(m, op, x);
      }
    }
  }

  /** The last thing that happened to the client's registration was a takeover. */
  predicate Displaced(ops: seq<Op>, x: Ref) {
    |ops| > 0
    && var m, op := After(ops[..|ops| - 1]), ops[|ops| - 1];
       TakesOver(m, op, x) || (Displaced(ops[..|ops| - 1], x) && !(op == RegisterAgain(x) && Enabled(m, op)))
  }

  lemma {:induction false} NewcomerIsNoOrphan(m: Machine, op: Op, x: Ref)
    requires x !in m.hub.heap && x in Next(m, op).hub.heap
    ensures !Orphan(Next(m, op).hub, x)
  {
  }

  /** Over every run without a revival the orphans are exactly the displaced clients. */
  lemma {:induction false} OrphansAreDisplaced(ops: seq<Op>, x: Ref)
    requires NoRevival(ops)
    ensures Displaced(ops, x) ==> x in After(ops).hub.heap
    ensures x in After(ops).hub.heap ==> (Orphan(After(ops).hub, x) <==> Displaced(ops, x))
    decreases |ops|
  {
    if |ops| > 0 {
      var before, op := ops[..|ops| - 1], ops[|ops| - 1];
      OrphansAreDisplaced(before, x);
      RunsWithoutRevivalAreSafe(before);
      StepGrowsHeap(After(before), op);
      if x in After(before).hub.heap {
        OrphanStepExactly(After(before), op, x);
      } else if x in After(ops).hub.heap {
        NewcomerIsNoOrphan(After(before), op, x);
      }
    }
  }

  /** A channel is open exactly while its client is registered or displaced. */
  lemma {:induction false} OpenExactlyWhileRegistered(ops: seq<Op>, x: Ref)
    requires NoRevival(ops) && x in After(ops).hub.heap
    ensures After(ops).hub.heap[x].closed == None <==> IsRegistered(After(ops).hub, x) || Displaced(ops, x)
  {
    OrphansAreDisplaced(ops, x);
    RunsWithoutRevivalAreSafe(ops);
  }

  lemma {:induction false} OrphanStays(m: Machine, op: Op, x: Ref)
    requires ClientsKnown(m.hub) && Orphan(m.hub, x) && op != RegisterAgain(x)
    ensures Orphan(Next(m, op).hub, x)
  {
    if Enabled(m, op) {
      if op.Connect? {
        RegistrationAndOrphans(m.hub, op.client, NewClient(op.id, op.user, op.session, op.workspace), x);
      } else if op.RegisterAgain? {
        RegistrationAndOrphans(m.hub, op.client, m.hub.heap[op.client], x);
        assert m.hub.(heap := m.hub.heap[op.client := m.hub.heap[op.client]]) == m.hub;
      } else {
        OrphansOtherwise(m, op, x);
      }
    }
  }

  /** In any run an orphan's channel stays open until somebody registers it again: nothing
      else the hub does closes it, not even a shutdown. */
  lemma {:induction false} OrphanForGood(ops: seq<Op>, n: nat, x: Ref)
    requires n <= |ops| && Orphan(After(ops[..n]).hub, x)
    requires forall k :: n <= k < |ops| ==> ops[k] != RegisterAgain(x)
    ensures Orphan(After(ops).hub, x)
    decreases |ops|
  {
    if n == |ops| {
      assert ops[..n] == ops;
    } else {
      var shorter := ops[..|ops| - 1];
      assert shorter[..n] == ops[..n];
      OrphanForGood(shorter, n, x);
      EveryRunIsTidy(shorter);
      OrphanStays(After(shorter), ops[|ops| - 1], x);
    }
  }

  // ---- Slow clients ----

  function SlowOf(p: Phase): (ids: set<ID>) {
    match p
    case Sending(_, slow) => slow
    case Evicting(slow) => slow
    case Returned => {}
  }

  /** Some broadcast that has not returned is going to evict this ID. */
  predicate Listed(m: Machine, id: ID) {
    exists c :: c in m.calls && id in SlowOf(m.calls[c].phase)
  }

  /** The step registers a client under an ID that waits for eviction, other than the one
      that holds it. */
  predicate TakesListed(m: Machine, op: Op) {
    && Enabled(m, op)
    && ((op.Connect? && Listed(m, op.id))
        || (op.RegisterAgain? && Listed(m, m.hub.heap[op.client].id) && !IsRegistered(m.hub, op.client)))
  }

  predicate SparesListed(ops: seq<Op>) {
    |ops| > 0 ==> SparesListed(ops[..|ops| - 1]) && !TakesListed(After(ops[..|ops| - 1]), ops[|ops| - 1])
  }

  /** Whoever holds an ID that waits for eviction has failed five times in a row. */
  ghost predicate HoldersSlow(m: Machine) {
    forall id :: Listed(m, id) && id in m.hub.clients && m.hub.clients[id] in m.hub.heap ==>
      FiveInARow(m.hub.heap[m.hub.clients[id]].history)
  }

  /** Whoever was evicted as slow had failed five times in a row. */
  ghost predicate EvictionsEarned(heap: map<Ref, Client>) {
    forall x :: x in heap && heap[x].closed == Some(Slow) ==> FiveInARow(heap[x].history)
  }

  /** A struck client is closed, or listed by that call and registered. */
  predicate StrikeSound(m: Machine, s: Strike) {
    && s.client in m.hub.heap && s.call in m.calls
    && (m.hub.heap[s.client].closed != None
        || (m.hub.heap[s.client].id in SlowOf(m.calls[s.call].phase) && IsRegistered(m.hub, s.client)))
  }

  ghost predicate Just(m: Machine) {
    HoldersSlow(m) && EvictionsEarned(m.hub.heap) && forall s :: s in m.strikes ==> StrikeSound(m, s)
  }

  lemma {:induction false} ListedStep(m: Machine, op: Op, id: ID)
    requires Listed(Next(m, op), id)
    ensures Listed(m, id) || (op.SendTo? && op.id == id && Struck(Next(m, op).hub, id))
  {
    var m' := Next(m, op);
    var c :| c in m'.calls && id in SlowOf(m'.calls[c].phase);
    assert c in m.calls ==> id in SlowOf(m.calls[c].phase) || (op.SendTo? && op.call == c);
  }

  /** Who holds an ID after a step: whoever did, or whoever the step registers. */
  lemma {:induction false} HolderStep(m: Machine, op: Op, id: ID)
    requires id in Next(m, op).hub.clients
    ensures
      || (id in m.hub.clients && Next(m, op).hub.clients[id] == m.hub.clients[id])
      || (Enabled(m, op) && op.Connect? && op.id == id && Next(m, op).hub.clients[id] == op.client)
      || (Enabled(m, op) && op.RegisterAgain? && m.hub.heap[op.client].id == id
          && Next(m, op).hub.clients[id] == op.client)
  {
  }

  lemma {:induction false} StruckIsSlow(h: State, id: ID)
    requires Tidy(h) && Struck(h, id)
    ensures FiveInARow(h.heap[h.clients[id]].history)
  {
    var x := h.clients[id];
    assert Counted(h.heap[x]);
    FiveDropsMeanFiveInARow(h.heap[x].history);
  }

  lemma {:induction false} HoldersStep(m: Machine, op: Op)
    requires Tidy(m.hub) && HoldersSlow(m) && !TakesListed(m, op)
    ensures HoldersSlow(Next(m, op))
  {
    var m' := Next(m, op);
    TidyStep(m, op);
    StepGrowsHeap(m, op);
    forall id | Listed(m', id) && id in m'.hub.clients && m'.hub.clients[id] in m'.hub.heap
      ensures FiveInARow(m'.hub.heap[m'.hub.clients[id]].history)
    {
      ListedStep(m, op, id);
      HolderStep(m, op, id);
      if !Listed(m, id) {
        StruckIsSlow(m'.hub, id);
      }
    }
  }

  /** Only an eviction phase closes a channel for slowness, and only of registered holders
      of its own list. */
  lemma {:induction false} SlowCloseIsEviction(m: Machine, op: Op, x: Ref)
    requires x in Next(m, op).hub.heap && Next(m, op).hub.heap[x].closed == Some(Slow)
    ensures x in m.hub.heap
    ensures m.hub.heap[x].closed != Some(Slow) ==>
      && op.EvictSlow? && op.call in m.calls && m.hub.heap[x].id in SlowOf(m.calls[op.call].phase)
      && IsRegistered(m.hub, x)
  {
  }

  lemma {:induction false} EarnedStep(m: Machine, op: Op)
    requires Tidy(m.hub) && HoldersSlow(m) && EvictionsEarned(m.hub.heap)
    ensures EvictionsEarned(Next(m, op).hub.heap)
  {
    var heap, heap' := m.hub.heap, Next(m, op).hub.heap;
    StepGrowsHeap(m, op);
    forall x | x in heap' && heap'[x].closed == Some(Slow)
      ensures FiveInARow(heap'[x].history)
    {
      SlowCloseIsEviction(m, op, x);
      assert heap[x].closed == Some(Slow) || Listed(m, heap[x].id);
      assert FiveInARow(heap[x].history);
    }
  }

  lemma {:induction false} RemovalClosesHolder(h: State, ids: set<ID>, cause: Cause, x: Ref)
    requires x in h.heap && IsRegistered(h, x)
    ensures var h' := Removed(h, ids, cause);
      h'.heap[x].closed != None || IsRegistered(h', x)
  {
  }

  lemma {:induction false} HolderKeepsID(m: Machine, op: Op, x: Ref)
    requires Tidy(m.hub) && x in m.hub.heap && IsRegistered(m.hub, x) && Listed(m, m.hub.heap[x].id)
    requires !TakesListed(m, op)
    requires Enabled(m, op) && (op.Connect? || op.RegisterAgain?)
    ensures x in Next(m, op).hub.heap && IsRegistered(Next(m, op).hub, x)
  {
    assert op.Connect? ==> op.id != m.hub.heap[x].id;
  }

  lemma {:induction false} SendKeepsHolder(h: State, targets: set<ID>, data: string, x: Ref)
    requires x in h.heap && IsRegistered(h, x)
    ensures x in Sent(h, targets, data).heap && IsRegistered(Sent(h, targets, data), x)
  {
  }

  /** A listed holder is registered or closed after any step that leaves it its ID. */
  lemma {:induction false} HolderStaysOrCloses(m: Machine, op: Op, x: Ref)
    requires Tidy(m.hub) && x in m.hub.heap && IsRegistered(m.hub, x) && Listed(m, m.hub.heap[x].id)
    requires !TakesListed(m, op)
    ensures x in Next(m, op).hub.heap
    ensures Next(m, op).hub.heap[x].closed != None || IsRegistered(Next(m, op).hub, x)
  {
    if IsQuiet(op) {
      QuietStepKeepsClients(m, op);
    } else if Enabled(m, op) {
      if IsRemoval(op) {
        RemovalShape(m, op);
        RemovalClosesHolder(m.hub, RemovedIDs(m, op), CauseOf(op), x);
      } else if op.SendTo? {
        SendKeepsHolder(m.hub, {op.id}, m.calls[op.call].data, x);
      } else {
        HolderKeepsID(m, op, x);
      }
    }
  }

  lemma {:induction false} ListKept(m: Machine, op: Op, c: string, id: ID)
    requires c in m.calls && id in SlowOf(m.calls[c].phase)
    ensures c in Next(m, op).calls
    ensures id in SlowOf(Next(m, op).calls[c].phase) || (op == EvictSlow(c) && Enabled(m, op))
  {
  }

  lemma {:induction false} EvictedIsClosed(m: Machine, c: string, x: Ref)
    requires Enabled(m, EvictSlow(c)) && x in m.hub.heap && IsRegistered(m.hub, x)
    requires m.hub.heap[x].id in SlowOf(m.calls[c].phase)
    ensures x in Next(m, EvictSlow(c)).hub.heap && Next(m, EvictSlow(c)).hub.heap[x].closed != None
  {
  }

  lemma {:induction false} OldStrikeStep(m: Machine, op: Op, s: Strike)
    requires Tidy(m.hub) && StrikeSound(m, s) && !TakesListed(m, op)
    ensures StrikeSound(Next(m, op), s)
  {
    StepGrowsHeap(m, op);
    if m.hub.heap[s.client].closed == None {
      var id := m.hub.heap[s.client].id;
      assert Listed(m, id);
      HolderStaysOrCloses(m, op, s.client);
      ListKept(m, op, s.call, id);
      if op == EvictSlow(s.call) && Enabled(m, op) {
        EvictedIsClosed(m, s.call, s.client);
      }
    } else {
      CallsKept(m, op, s.call);
    }
  }

  lemma {:induction false} CallsKept(m: Machine, op: Op, c: string)
    requires c in m.calls
    ensures c in Next(m, op).calls
  {
  }

  lemma {:induction false} NewStrikeStep(m: Machine, op: Op, s: Strike)
    requires Tidy(m.hub) && s in Next(m, op).strikes && s !in m.strikes
    ensures StrikeSound(Next(m, op), s)
  {
    TidyStep(m, op);
  }

  lemma {:induction false} JustStep(m: Machine, op: Op)
    requires Tidy(m.hub) && Just(m) && !TakesListed(m, op)
    ensures Just(Next(m, op))
  {
    HoldersStep(m, op);
    EarnedStep(m, op);
    forall s | s in Next(m, op).strikes
      ensures StrikeSound(Next(m, op), s)
    {
      if s in m.strikes {
        OldStrikeStep(m, op, s);
      } else {
        NewStrikeStep(m, op, s);
      }
    }
  }

  lemma {:induction false} SparingRunsAreJust(ops: seq<Op>)
    requires SparesListed(ops)
    ensures Just(After(ops))
    decreases |ops|
  {
    if |ops| > 0 {
      SparingRunsAreJust(ops[..|ops| - 1]);
      EveryRunIsTidy(ops[..|ops| - 1]);
      JustStep(After(ops[..|ops| - 1]), ops[|ops| - 1]);
    }
  }

  /** Unless somebody registers under an ID that waits for eviction, a client is evicted for
      slowness only after five failures in a row. */
  lemma {:induction false} SlowEvictionIsEarned(ops: seq<Op>, x: Ref)
    requires SparesListed(ops) && x in After(ops).hub.heap && After(ops).hub.heap[x].closed == Some(Slow)
    ensures FiveInARow(After(ops).hub.heap[x].history)
  {
    SparingRunsAreJust(ops);
  }

  lemma {:induction false} StrikesStay(ops: seq<Op>, n: nat, s: Strike)
    requires n <= |ops| && s in After(ops[..n]).strikes
    ensures s in After(ops).strikes
    decreases |ops|
  {
    if n == |ops| {
      assert ops[..n] == ops;
    } else {
      var shorter := ops[..|ops| - 1];
      assert shorter[..n] == ops[..n];
      StrikesStay(shorter, n, s);
    }
  }

  /** The run ends with a failed attempt of the call, and it was at least the client's
      fifth in a row. */
  predicate EndsInFifthFailure(ops: seq<Op>, call: string, id: ID) {
    && |ops| > 0 && ops[|ops| - 1] == SendTo(call, id) && Enabled(After(ops[..|ops| - 1]), SendTo(call, id))
    && var h := After(ops).hub;
       id in h.clients && h.clients[id] in h.heap && Trailing(h.heap[h.clients[id]].history) >= MAX_SLOW_DROPS
  }

  lemma {:induction false} FifthFailureIsRecorded(ops: seq<Op>, call: string, id: ID)
    requires EndsInFifthFailure(ops, call, id)
    ensures Strike(call, After(ops).hub.clients[id]) in After(ops).strikes
  {
    RoomsAndCountersHold(ops);
  }

  /** A struck client's channel is closed once its call has returned, and the client is no
      longer registered unless somebody revived it. */
  lemma {:induction false} StruckIsGoneOnReturn(ops: seq<Op>, call: string, x: Ref)
    requires SparesListed(ops) && Strike(call, x) in After(ops).strikes
    ensures call in After(ops).calls && x in After(ops).hub.heap
    ensures After(ops).calls[call].phase == Returned ==>
      After(ops).hub.heap[x].closed != None && (NoRevival(ops) ==> !IsRegistered(After(ops).hub, x))
  {
    SparingRunsAreJust(ops);
    assert StrikeSound(After(ops), Strike(call, x));
    if NoRevival(ops) {
      RunsWithoutRevivalAreSafe(ops);
    }
  }

  /** Whatever happens in between, a client whose fifth failure in a row came from a
      broadcast is gone when that broadcast has returned, unless somebody registered under
      an ID that waited for eviction. */
  lemma {:induction false} FiveFailuresMeanGoneOnReturn(ops: seq<Op>, n: nat, call: string, id: ID)
    requires SparesListed(ops) && n <= |ops| && EndsInFifthFailure(ops[..n], call, id)
    ensures var x := After(ops[..n]).hub.clients[id];
      && x in After(ops).hub.heap && call in After(ops).calls
      && (After(ops).calls[call].phase == Returned ==>
            After(ops).hub.heap[x].closed != None && (NoRevival(ops) ==> !IsRegistered(After(ops).hub, x)))
  {
    FifthFailureIsRecorded(ops[..n], call, id);
    var x := After(ops[..n]).hub.clients[id];
    StrikesStay(ops, n, Strike(call, x));
    StruckIsGoneOnReturn(ops, call, x);
  }

  // ---- Why listed IDs must be spared ----

  /** Connecting keeps the holders of listed IDs slow exactly when its ID is not listed. */
  lemma {:induction false} ConnectKeepsHoldersSlowExactly(m: Machine, op: Op)
    requires Tidy(m.hub) && HoldersSlow(m) && op.Connect? && Enabled(m, op)
    ensures HoldersSlow(Next(m, op)) <==> !Listed(m, op.id)
  {
    if Listed(m, op.id) {
      var m' := Next(m, op);
      var c :| c in m.calls && op.id in SlowOf(m.calls[c].phase);
      assert Listed(m', op.id) by {
        assert c in m'.calls && op.id in SlowOf(m'.calls[c].phase);
      }
      NothingFailedYet(m'.hub.heap[op.client].history);
    } else {
      HoldersStep(m, op);
    }
  }

  /** Registering a known client again does so exactly when it takes no listed ID or has
      itself failed five times in a row. */
  lemma {:induction false} AgainKeepsHoldersSlowExactly(m: Machine, x: Ref)
    requires Tidy(m.hub) && HoldersSlow(m) && Enabled(m, RegisterAgain(x))
    ensures HoldersSlow(Next(m, RegisterAgain(x))) <==>
      !TakesListed(m, RegisterAgain(x)) || FiveInARow(m.hub.heap[x].history)
  {
    var id, m' := m.hub.heap[x].id, Next(m, RegisterAgain(x));
    assert forall i :: Listed(m', i) <==> Listed(m, i);
    assert m'.hub.clients == m.hub.clients[id := x] && m'.hub.heap == m.hub.heap;
    if !TakesListed(m, RegisterAgain(x)) {
      HoldersStep(m, RegisterAgain(x));
    }
  }

  lemma {:induction false} NothingFailedYet(history: seq<bool>)
    requires history == []
    ensures !FiveInARow(history)
  {
  }

  /** A client that connects under a listed ID is evicted in the slow one's place, without a
      single attempt to send to it; the slow one is left with an open channel. */
  lemma {:induction false} ListedIDEvictsNewcomer(m: Machine, c: string, op: Op)
    requires Tidy(m.hub) && op.Connect? && Enabled(m, op)
    requires c in m.calls && m.calls[c].phase.Evicting? && op.id in m.calls[c].phase.slow
    ensures var end := Next(Next(m, op), EvictSlow(c));
      && Enabled(Next(m, op), EvictSlow(c)) && end.calls[c].phase == Returned
      && op.client in end.hub.heap && end.hub.heap[op.client].closed == Some(Slow)
      && end.hub.heap[op.client].history == []
      && !EvictionsEarned(end.hub.heap)
      && (op.id in m.hub.clients && m.hub.heap[m.hub.clients[op.id]].closed == None ==>
            Orphan(end.hub, m.hub.clients[op.id]))
  {
    var connected := Next(m, op);
    var end := Next(connected, EvictSlow(c));
    assert Targeted(connected.hub, m.calls[c].phase.slow, op.client);
    NothingFailedYet(end.hub.heap[op.client].history);
    if op.id in m.hub.clients && m.hub.heap[m.hub.clients[op.id]].closed == None {
      TakenOverIsLeftOpen(m, c, op);
    }
  }

  /** So is a known client that registers again under a listed ID without having failed. */
  lemma {:induction false} ListedIDEvictsReturner(m: Machine, c: string, x: Ref)
    requires Enabled(m, RegisterAgain(x)) && m.hub.heap[x].closed == None && !FiveInARow(m.hub.heap[x].history)
    requires c in m.calls && m.calls[c].phase.Evicting? && m.hub.heap[x].id in m.calls[c].phase.slow
    ensures var back := Next(m, RegisterAgain(x));
      var end := Next(back, EvictSlow(c));
      && Enabled(back, EvictSlow(c)) && end.calls[c].phase == Returned
      && x in end.hub.heap && end.hub.heap[x] == m.hub.heap[x].(closed := Some(Slow))
      && !EvictionsEarned(end.hub.heap)
  {
    var back := Next(m, RegisterAgain(x));
    assert Targeted(back.hub, m.calls[c].phase.slow, x);
  }

  lemma {:induction false} TakenOverIsLeftOpen(m: Machine, c: string, op: Op)
    requires Tidy(m.hub) && op.Connect? && Enabled(m, op) && op.id in m.hub.clients
    requires m.hub.heap[m.hub.clients[op.id]].closed == None && c in m.calls && m.calls[c].phase.Evicting?
    ensures Orphan(Next(Next(m, op), EvictSlow(c)).hub, m.hub.clients[op.id])
  {
    var x := m.hub.clients[op.id];
    RegistrationAndOrphans(m.hub, op.client, NewClient(op.id, op.user, op.session, op.workspace), x);
    RegistrationKeepsTidy(m, op);
    RemovalAndOrphans(Next(m, op).hub, m.calls[c].phase.slow, Slow, x);
  }

  // ---- A broadcast nobody interferes with ----

  /** The sends of one call, in the order the targets happen to be walked. */
  function AllSent(m: Machine, c: string, order: seq<ID>): (m': Machine) {
    if |order| == 0 then m else Next(AllSent(m, c, order[..|order| - 1]), SendTo(c, order[|order| - 1]))
  }

  lemma {:induction false} LastSend(m: Machine, c: string, done: set<ID>, pending: set<ID>, id: ID, start: State)
    requires c in m.calls && m.calls[c].phase == Sending(pending, TooSlow(m.hub, done))
    requires ClientsKnown(start) && id in pending && id !in done && m.hub == Sent(start, done, m.calls[c].data)
    ensures var m' := Next(m, SendTo(c, id));
      && m'.hub == Sent(start, done + {id}, m.calls[c].data)
      && m'.calls == m.calls[c := Call(m.calls[c].data, Sending(pending - {id}, TooSlow(m'.hub, done + {id})))]
  {
    SendingKeepsKnown(start, done, m.calls[c].data);
    SendOneMore(start, done, id, m.calls[c].data);
    SlowOneMore(m.hub, done, id, m.calls[c].data);
  }

  lemma {:induction false} SendsAreOnePhase(m: Machine, c: string, targets: set<ID>, data: string, order: seq<ID>)
    requires ClientsKnown(m.hub) && c in m.calls && m.calls[c] == Call(data, Sending(targets, {}))
    requires NoDuplicates(order) && Elements(order) <= targets
    ensures var m' := AllSent(m, c, order);
      && m'.hub == Sent(m.hub, Elements(order), data)
      && m'.calls == m.calls[c := Call(data, Sending(targets - Elements(order), TooSlow(m'.hub, Elements(order))))]
  {
    if |order| == 0 {
      NothingSent(m.hub, data);
      assert Elements(order) == {} && targets - {} == targets && TooSlow(m.hub, {}) == {};
      assert m.calls[c := Call(data, Sending(targets, {}))] == m.calls;
    } else {
      var before, id := order[..|order| - 1], order[|order| - 1];
      assert Elements(order) == Elements(before) + {id} && id !in before;
      assert targets - Elements(before) - {id} == targets - Elements(order);
      SendsAreOnePhase(m, c, targets, data, before);
      LastSend(AllSent(m, c, before), c, Elements(before), targets - Elements(before), id, m.hub);
    }
  }

  lemma {:induction false} CallEnds(m: Machine, sent: Machine, c: string, data: string, slow: set<ID>)
    requires WriteLockFree(m) && sent.calls == m.calls[c := Call(data, Sending({}, slow))]
    ensures var end := Next(Next(sent, FinishSending(c)), EvictSlow(c));
      end.hub == Removed(sent.hub, slow, Slow) && end.calls == m.calls[c := Call(data, Returned)]
  {
    var finished := Next(sent, FinishSending(c));
    assert finished.calls == m.calls[c := Call(data, Evicting(slow))];
    assert WriteLockFree(finished);
  }

  /** Whatever the order of its targets, a broadcast with nothing in between is the one-step
      broadcast, to a room as to a user. */
  lemma {:induction false} UndisturbedBroadcastIsOneStep(m: Machine, start: Op, targets: set<ID>, order: seq<ID>)
    requires ClientsKnown(m.hub) && WriteLockFree(m) && Enabled(m, start) && (start.StartRoom? || start.StartUser?)
    requires targets ==
      if start.StartRoom? then m.hub.rooms[start.room] else OfUser(m.hub, start.workspace, start.user)
    requires NoDuplicates(order) && Elements(order) == targets
    ensures var sent := AllSent(Next(m, start), start.call, order);
      var end := Next(Next(sent, FinishSending(start.call)), EvictSlow(start.call));
      end.hub == Broadcast(m.hub, targets, start.data) && end.calls == m.calls[start.call := Call(start.data, Returned)]
  {
    var started := Next(m, start);
    SendsAreOnePhase(started, start.call, targets, start.data, order);
    assert targets - Elements(order) == {};
    CallEnds(m, AllSent(started, start.call, order), start.call, start.data,
             TooSlow(Sent(m.hub, targets, start.data), targets));
  }
}
