/** A run that reaches a wrong eviction: a client that never reads fills its buffer, fails
    five times, and another connects under its ID before the last broadcast evicts. */
module HubWitness {
  import opened Wrappers
  import opened WebSocketHub
  import opened HubRuns

  const SLOW := Ref(0)
  const LATE := Ref(1)

  /** The name of the n-th broadcast. */
  function Name(n: nat): (c: string)
    ensures |c| == n
  {
    seq(n, _ => 'c')
  }

  /** A client that has been sent to n times and never read. */
  predicate NeverRead(c: Client, id: ID, user: string, n: nat) {
    && c.id == id && c.user == user && c.closed == None
    && |c.queue| == (if n < SEND_BUFFER then n else SEND_BUFFER)
    && c.drops == (if n < SEND_BUFFER then 0 else n - SEND_BUFFER)
  }

  /** It is the only client, and every broadcast so far is up to its eviction phase. */
  predicate Unread(m: Machine, id: ID, user: string, n: nat) {
    && m.hub.clients == map[id := SLOW] && m.hub.heap.Keys == {SLOW}
    && NeverRead(m.hub.heap[SLOW], id, user, n)
    && forall c :: c in m.calls ==> |c| < n && m.calls[c].phase.Evicting?
  }

  function Slowed(id: ID, n: nat): (ids: set<ID>) {
    if n >= SEND_BUFFER + MAX_SLOW_DROPS then {id} else {}
  }

  lemma {:induction false} StartsWithIt(m: Machine, id: ID, user: string, n: nat, c: string)
    requires Unread(m, id, user, n) && |c| == n
    ensures Next(m, StartUser(c, NIL_WORKSPACE, user, "")) == m.(calls := m.calls[c := Call("", Sending({id}, {}))])
  {
    assert OfUser(m.hub, NIL_WORKSPACE, user) == {id};
  }

  lemma {:induction false} OneMoreAttempt(c: Client, id: ID, user: string, n: nat)
    requires NeverRead(c, id, user, n)
    ensures NeverRead(Attempt(c, ""), id, user, n + 1)
    ensures Attempt(c, "").drops >= MAX_SLOW_DROPS <==> n + 1 >= SEND_BUFFER + MAX_SLOW_DROPS
  {
  }

  lemma {:induction false} SendsToIt(m: Machine, id: ID, user: string, n: nat, c: string)
    requires Unread(m, id, user, n)
    ensures var started := m.(calls := m.calls[c := Call("", Sending({id}, {}))]);
      Enabled(started, SendTo(c, id)) && OneSent(m, Next(started, SendTo(c, id)), id, n + 1, c)
  {
    var started := m.(calls := m.calls[c := Call("", Sending({id}, {}))]);
    var sent := Next(started, SendTo(c, id));
    SentOne(m.hub, id, "");
    OneMoreAttempt(m.hub.heap[SLOW], id, user, n);
    assert {id} - {id} == {} && {} + Slowed(id, n + 1) == Slowed(id, n + 1);
    assert Struck(sent.hub, id) <==> n + 1 >= SEND_BUFFER + MAX_SLOW_DROPS;
  }

  /** Broadcast c has made its one attempt. */
  predicate OneSent(m: Machine, sent: Machine, id: ID, n: nat, c: string)
    requires SLOW in m.hub.heap
  {
    && sent.hub.clients == m.hub.clients
    && sent.hub.heap == m.hub.heap[SLOW := Attempt(m.hub.heap[SLOW], "")]
    && sent.calls == m.calls[c := Call("", Sending({}, Slowed(id, n)))]
  }

  lemma {:induction false} FinishesUnread(m: Machine, sent: Machine, id: ID, user: string, n: nat, c: string)
    requires Unread(m, id, user, n) && |c| == n && OneSent(m, sent, id, n + 1, c)
    ensures Unread(Next(sent, FinishSending(c)), id, user, n + 1)
    ensures c in Next(sent, FinishSending(c)).calls
    ensures Next(sent, FinishSending(c)).calls[c].phase == Evicting(Slowed(id, n + 1))
  {
    OneMoreAttempt(m.hub.heap[SLOW], id, user, n);
    assert Enabled(sent, FinishSending(c));
  }

  /** One more broadcast to that client, up to its eviction phase. */
  function Broadcasted(m: Machine, id: ID, user: string, c: string): (m': Machine) {
    Next(Next(Next(m, StartUser(c, NIL_WORKSPACE, user, "")), SendTo(c, id)), FinishSending(c))
  }

  lemma {:induction false} OneMoreUnread(m: Machine, id: ID, user: string, n: nat, c: string)
    requires Unread(m, id, user, n) && |c| == n
    ensures var m' := Broadcasted(m, id, user, c);
      Unread(m', id, user, n + 1) && c in m'.calls && m'.calls[c].phase == Evicting(Slowed(id, n + 1))
  {
    StartsWithIt(m, id, user, n, c);
    SendsToIt(m, id, user, n, c);
    FinishesUnread(m, Next(m.(calls := m.calls[c := Call("", Sending({id}, {}))]), SendTo(c, id)), id, user, n, c);
  }

  lemma {:induction false} OneMoreStep(ops: seq<Op>, op: Op)
    ensures After(ops + [op]) == Next(After(ops), op)
    ensures !op.Connect? && !op.RegisterAgain? ==>
      (SparesListed(ops) ==> SparesListed(ops + [op])) && (NoRevival(ops) ==> NoRevival(ops + [op]))
  {
    assert (ops + [op])[..|ops|] == ops;
  }

  lemma {:induction false} FirstClient(id: ID, user: string) returns (ops: seq<Op>)
    ensures Unread(After(ops), id, user, 0) && SparesListed(ops) && NoRevival(ops)
  {
    var op := Connect(SLOW, id, user, "", "");
    ops := [op];
    assert ops[..0] == [];
    assert After([]) == Machine(State(map[], map[], map[], false), map[], {});
    assert !Listed(After([]), id);
  }

  lemma {:induction false} UnreadRun(id: ID, user: string, n: nat) returns (ops: seq<Op>)
    ensures Unread(After(ops), id, user, n) && SparesListed(ops) && NoRevival(ops)
    ensures n > 0 ==> Name(n - 1) in After(ops).calls && After(ops).calls[Name(n - 1)].phase == Evicting(Slowed(id, n))
    decreases n
  {
    if n == 0 {
      ops := FirstClient(id, user);
    } else {
      var before := UnreadRun(id, user, n - 1);
      var c := Name(n - 1);
      OneMoreUnread(After(before), id, user, n - 1, c);
      ops := OneMoreBroadcast(before, c, user, id);
    }
  }

  lemma {:induction false} OneMoreBroadcast(before: seq<Op>, c: string, user: string, id: ID) returns (ops: seq<Op>)
    requires SparesListed(before) && NoRevival(before)
    ensures SparesListed(ops) && NoRevival(ops)
    ensures After(ops) == Broadcasted(After(before), id, user, c)
  {
    OneMoreStep(before, StartUser(c, NIL_WORKSPACE, user, ""));
    var started := before + [StartUser(c, NIL_WORKSPACE, user, "")];
    OneMoreStep(started, SendTo(c, id));
    OneMoreStep(started + [SendTo(c, id)], FinishSending(c));
    ops := started + [SendTo(c, id)] + [FinishSending(c)];
  }

  /** The wrong eviction is reached: a run that spares listed IDs up to its last connect and
      ends with a client evicted as slow that nothing was ever sent to. */
  lemma {:induction false} WrongEvictionIsReached(id: ID, user: string)
    returns (before: seq<Op>, connect: Op, evict: Op)
    ensures SparesListed(before) && NoRevival(before)
    ensures connect.Connect? && connect.id == id && TakesListed(After(before), connect) && evict.EvictSlow?
    ensures var h := After(before + [connect] + [evict]).hub;
      && LATE in h.heap && h.heap[LATE].closed == Some(Slow) && h.heap[LATE].history == []
      && !EvictionsEarned(h.heap) && Orphan(h, SLOW)
  {
    var n := SEND_BUFFER + MAX_SLOW_DROPS;
    before := UnreadRun(id, user, n);
    connect, evict := Connect(LATE, id, user, "", ""), EvictSlow(Name(n - 1));
    var m := After(before);
    EveryRunIsTidy(before);
    assert Listed(m, id) by {
      assert id in SlowOf(m.calls[Name(n - 1)].phase);
    }
    ListedIDEvictsNewcomer(m, Name(n - 1), connect);
    OneMoreStep(before, connect);
    OneMoreStep(before + [connect], evict);
  }
}
