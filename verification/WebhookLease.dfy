/** The webhook lease: any number of claimants race to process an event; a lease with
    reclaim and token fencing decides who may, and who may record that it was done. */
module WebhookLease {
  import opened Wrappers

  datatype Status = Processing | Processed

  datatype Row = Row(status: Status, token: string, lease: Option<int>)

  type Table = map<string, Row>

  datatype ClaimResult = Process | Duplicate | InProgress | InvalidInput | ConstraintViolated

  // ---- The SQL statements, one atomic step each ----

  /** Insert unless the event is there. */
  function Inserted(rows: Table, event: string, token: string, lease: int): (r: Table) {
    if event in rows then rows else rows[event := Row(Processing, token, Some(lease))]
  }

  /** The guard of the reclaiming update, evaluated on the database clock. */
  predicate Reclaimable(rows: Table, event: string, now: int) {
    && event in rows && rows[event].status == Processing
    && (rows[event].lease == None || rows[event].lease.value <= now)
  }

  function Reclaimed(rows: Table, event: string, token: string, lease: int, now: int): (r: Table) {
    if Reclaimable(rows, event, now) then rows[event := rows[event].(token := token, lease := Some(lease))] else rows
  }

  predicate Markable(rows: Table, event: string, token: string) {
    event in rows && rows[event].token == token && rows[event].status == Processing
  }

  function MarkedTable(rows: Table, event: string, token: string): (r: Table) {
    if Markable(rows, event, token) then rows[event := rows[event].(status := Processed, lease := None)] else rows
  }

  /** What the loaded row says, judged on the application clock. */
  function Precheck(rows: Table, event: string, appClock: int): (r: Option<ClaimResult>) {
    if event !in rows then Some(InProgress)
    else if rows[event].status == Processed then Some(Duplicate)
    else if rows[event].lease.Some? && rows[event].lease.value > appClock then Some(InProgress)
    else None
  }

  class EventTable {
    var rows: Table

    constructor ()
      ensures rows == map[]
    {
      rows := map[];
    }

    method InsertClaim(event: string, token: string, lease: int) returns (affected: nat)
      modifies this
      ensures affected == if event in old(rows) then 0 else 1
      ensures rows == if event in old(rows) then old(rows) else old(rows)[event := Row(Processing, token, Some(lease))]
    {
      affected := 0;
      if event !in rows {
        rows := rows[event := Row(Processing, token, Some(lease))];
        affected := 1;
      }
    }

    method UpdateClaim(event: string, token: string, lease: int, now: int) returns (affected: nat)
      modifies this
      ensures affected == 1 <==>
        && event in old(rows) && old(rows)[event].status == Processing
        && (old(rows)[event].lease == None || old(rows)[event].lease.value <= now)
      ensures affected == 0 || affected == 1
      ensures rows ==
        (if affected == 1 then old(rows)[event := Row(Processing, token, Some(lease))] else old(rows))
    {
      affected := 0;
      if event in rows {
        var row := rows[event];
        if row.status == Processing && (row.lease == None || row.lease.value <= now) {
          rows := rows[event := Row(row.status, token, Some(lease))];
          affected := 1;
        }
      }
    }

    /** Claim without interference: a fresh event or one whose lease has run out on
        both clocks goes to the caller; nothing else changes the table. */
    method Claim(event: string, token: string, lease: int, appClock: int, now: int) returns (r: ClaimResult)
      modifies this
      ensures r == InvalidInput <==> token == ""
      ensures r == ConstraintViolated <==> token != "" && event == ""
      ensures r == Process <==>
        && token != "" && event != ""
        && (event in old(rows) ==>
              && old(rows)[event].status == Processing
              && (old(rows)[event].lease == None
                  || (old(rows)[event].lease.value <= appClock && old(rows)[event].lease.value <= now)))
      ensures r == Duplicate <==>
        token != "" && event != "" && event in old(rows) && old(rows)[event].status == Processed
      ensures rows == if r == Process then old(rows)[event := Row(Processing, token, Some(lease))] else old(rows)
    {
      if token == "" {
        return InvalidInput;
      }
      if event == "" {
        // The table's check constraint refuses an empty event ID.
        return ConstraintViolated;
      }
      var affected := InsertClaim(event, token, lease);
      if affected == 1 {
        return Process;
      }
      if rows[event].status == Processed {
        return Duplicate;
      }
      if rows[event].lease.Some? && rows[event].lease.value > appClock {
        return InProgress;
      }
      affected := UpdateClaim(event, token, lease, now);
      r := if affected == 1 then Process else InProgress;
    }

    /** Only the current holder's token marks the event, and only once. Calls without
        an event or token succeed and do nothing. */
    method MarkProcessed(event: string, token: string) returns (ok: bool)
      modifies this
      ensures event == "" || token == "" ==> ok && rows == old(rows)
      ensures event != "" && token != "" ==>
        && (ok <==> event in old(rows) && old(rows)[event].token == token && old(rows)[event].status == Processing)
        && rows == if ok then old(rows)[event := Row(Processed, token, None)] else old(rows)
    {
      if event == "" || token == "" {
        return true;
      }
      ok := event in rows && rows[event].token == token && rows[event].status == Processing;
      if ok {
        rows := rows[event := Row(Processed, token, None)];
      }
    }
  }

  // ---- Claimants interleaved statement by statement ----

  /** Where one claimant is: between its statements, or done. */
  datatype Phase = Loading | Updating | Done(result: ClaimResult)

  datatype Claimant = Claimant(event: string, lease: int, phase: Phase)

  datatype Entry = Claimed(event: string, token: string) | Marked(event: string, token: string)

  /** Database clock, table, claimants by token, and the log of successful claims and marks. */
  datatype State = State(now: int, rows: Table, claimants: map<string, Claimant>, log: seq<Entry>)

  datatype Op =
    | Tick(time: int)
    | Start(token: string, event: string, lease: int)
    | Load(token: string, appClock: int)
    | Reclaim(token: string)
    | Mark(event: string, token: string)

  /** Claimants use fresh non-empty tokens, take their statements in order, and the
      database clock never goes back; anything else does not happen. */
  predicate Enabled(s: State, op: Op) {
    match op
    case Tick(t) => t >= s.now
    case Start(token, event, _) => token != "" && event != "" && token !in s.claimants
    case Load(token, _) => token in s.claimants && s.claimants[token].phase == Loading
    case Reclaim(token) => token in s.claimants && s.claimants[token].phase == Updating
    case Mark(event, token) => event != "" && token != ""
  }

  function Next(s: State, op: Op): (r: State) {
    if !Enabled(s, op) then s else
    match op
    case Tick(t) => s.(now := t)
    case Start(token, event, lease) =>
      if event in s.rows then s.(claimants := s.claimants[token := Claimant(event, lease, Loading)])
      else s.(rows := Inserted(s.rows, event, token, lease),
              claimants := s.claimants[token := Claimant(event, lease, Done(Process))],
              log := s.log + [Claimed(event, token)])
    case Load(token, appClock) =>
      var c := s.claimants[token];
      var checked := Precheck(s.rows, c.event, appClock);
      s.(claimants := s.claimants[token := c.(phase := if checked == None then Updating else Done(checked.value))])
    case Reclaim(token) =>
      var c := s.claimants[token];
      if Reclaimable(s.rows, c.event, s.now)
      then s.(rows := Reclaimed(s.rows, c.event, token, c.lease, s.now),
              claimants := s.claimants[token := c.(phase := Done(Process))],
              log := s.log + [Claimed(c.event, token)])
      else s.(claimants := s.claimants[token := c.(phase := Done(InProgress))])
    case Mark(event, token) =>
      if Markable(s.rows, event, token)
      then s.(rows := MarkedTable(s.rows, event, token), log := s.log + [Marked(event, token)])
      else s
  }

  function After(s: State, ops: seq<Op>): (r: State) {
    if |ops| == 0 then s else Next(After(s, ops[..|ops| - 1]), ops[|ops| - 1])
  }

  function Initial(now: int): (s: State) {
    State(now, map[], map[], [])
  }

  // ---- What every interleaving keeps ----

  predicate Won(claimants: map<string, Claimant>, token: string, event: string) {
    token in claimants && claimants[token].event == event && claimants[token].phase == Done(Process)
  }

  /** A claimant that was told to process and whose lease has not run out. */
  predicate Holds(s: State, token: string, event: string) {
    Won(s.claimants, token, event) && s.claimants[token].lease > s.now
  }

  function LatestClaim(log: seq<Entry>, event: string): (t: Option<string>) {
    if |log| == 0 then None
    else
      var last := log[|log| - 1];
      if last.Claimed? && last.event == event then Some(last.token) else LatestClaim(log[..|log| - 1], event)
  }

  /** After an event is marked the log never mentions it again, and a mark carries the
      token of the latest successful claim before it. */
  predicate Fenced(log: seq<Entry>) {
    && (forall i, j :: 0 <= i < j < |log| && log[i].Marked? ==> log[j].event != log[i].event)
    && (forall i :: 0 <= i < |log| && log[i].Marked? ==> LatestClaim(log[..i], log[i].event) == Some(log[i].token))
  }

  predicate RowsMatchLog(rows: Table, log: seq<Entry>) {
    && (forall e :: e in rows ==> LatestClaim(log, e) == Some(rows[e].token))
    && (forall i :: 0 <= i < |log| ==> log[i].event in rows)
    && (forall i :: 0 <= i < |log| && log[i].Marked? ==> rows[log[i].event].status == Processed)
  }

  /** A row in progress belongs to a claimant that won it; whoever else won the event has
      no lease left. */
  ghost predicate RowsMatchClaimants(now: int, rows: Table, claimants: map<string, Claimant>) {
    && (forall e :: e in rows && rows[e].status == Processing ==>
          Won(claimants, rows[e].token, e) && rows[e].lease == Some(claimants[rows[e].token].lease))
    && (forall c, e :: Won(claimants, c, e) ==> e in rows && (rows[e].token == c || claimants[c].lease <= now))
  }

  ghost predicate Invariant(s: State) {
    Fenced(s.log) && RowsMatchLog(s.rows, s.log) && RowsMatchClaimants(s.now, s.rows, s.claimants)
  }

  lemma {:induction false} LogGrows(log: seq<Entry>, e: Entry, event: string)
    ensures LatestClaim(log + [e], event) ==
      (if e.Claimed? && e.event == event then Some(e.token) else LatestClaim(log, event))
  {
    assert (log + [e])[..|log|] == log;
  }

  lemma {:induction false} FencedOneMore(log: seq<Entry>, entry: Entry)
    requires Fenced(log)
    requires forall i :: 0 <= i < |log| && log[i].Marked? ==> log[i].event != entry.event
    requires entry.Marked? ==> LatestClaim(log, entry.event) == Some(entry.token)
    ensures Fenced(log + [entry])
  {
    var log' := log + [entry];
    assert log'[..|log|] == log;
    forall i | 0 <= i < |log| && log'[i].Marked?
      ensures LatestClaim(log'[..i], log'[i].event) == Some(log'[i].token)
    {
      assert log'[..i] == log[..i];
    }
  }

  lemma {:induction false} ClaimKeepsLog(rows: Table, log: seq<Entry>, event: string, row: Row)
    requires Fenced(log) && RowsMatchLog(rows, log)
    requires event in rows ==> rows[event].status == Processing
    ensures Fenced(log + [Claimed(event, row.token)])
    ensures RowsMatchLog(rows[event := row], log + [Claimed(event, row.token)])
  {
    FencedOneMore(log, Claimed(event, row.token));
    forall e | e in rows[event := row]
      ensures LatestClaim(log + [Claimed(event, row.token)], e) == Some(rows[event := row][e].token)
    {
      LogGrows(log, Claimed(event, row.token), e);
    }
  }

  lemma {:induction false} MarkKeepsLog(rows: Table, log: seq<Entry>, event: string, token: string)
    requires Fenced(log) && RowsMatchLog(rows, log) && Markable(rows, event, token)
    ensures Fenced(log + [Marked(event, token)])
    ensures RowsMatchLog(MarkedTable(rows, event, token), log + [Marked(event, token)])
  {
    FencedOneMore(log, Marked(event, token));
    forall e | e in rows
      ensures LatestClaim(log + [Marked(event, token)], e) == LatestClaim(log, e)
    {
      LogGrows(log, Marked(event, token), e);
    }
  }

  lemma {:induction false} WaitersKeepClaimants(now: int, rows: Table, claimants: map<string, Claimant>, token: string,
                                                c: Claimant)
    requires RowsMatchClaimants(now, rows, claimants) && c.phase != Done(Process)
    requires token in claimants ==> claimants[token].phase != Done(Process)
    ensures RowsMatchClaimants(now, rows, claimants[token := c])
  {
    var after := claimants[token := c];
    assert forall t, e :: Won(after, t, e) <==> Won(claimants, t, e);
    assert forall t, e :: Won(claimants, t, e) ==> after[t] == claimants[t];
  }

  /** A claim succeeds: whoever held the row before has no unexpired lease left. */
  lemma {:induction false} ClaimKeepsClaimants(now: int, rows: Table, claimants: map<string, Claimant>, event: string,
                                               token: string, lease: int)
    requires RowsMatchClaimants(now, rows, claimants)
    requires event !in rows || Reclaimable(rows, event, now)
    requires token in claimants ==> claimants[token].phase != Done(Process)
    ensures RowsMatchClaimants(now, rows[event := Row(Processing, token, Some(lease))],
                               claimants[token := Claimant(event, lease, Done(Process))])
  {
    var rows' := rows[event := Row(Processing, token, Some(lease))];
    var claimants' := claimants[token := Claimant(event, lease, Done(Process))];
    assert forall c, e :: c != token ==> (Won(claimants', c, e) <==> Won(claimants, c, e));
    forall e | e in rows' && rows'[e].status == Processing
      ensures Won(claimants', rows'[e].token, e) && rows'[e].lease == Some(claimants'[rows'[e].token].lease)
    {
      if e != event {
        assert Won(claimants, rows[e].token, e);
      }
    }
  }

  lemma {:induction false} MarkKeepsClaimants(now: int, rows: Table, claimants: map<string, Claimant>, event: string,
                                              token: string)
    requires RowsMatchClaimants(now, rows, claimants)
    ensures RowsMatchClaimants(now, MarkedTable(rows, event, token), claimants)
  {
  }

  lemma {:induction false} TimeKeepsClaimants(now: int, rows: Table, claimants: map<string, Claimant>, t: int)
    requires RowsMatchClaimants(now, rows, claimants) && t >= now
    ensures RowsMatchClaimants(t, rows, claimants)
  {
  }

  lemma {:induction false} StartKeepsInvariant(s: State, op: Op)
    requires Invariant(s) && Enabled(s, op) && op.Start?
    ensures Invariant(Next(s, op))
  {
    if op.event in s.rows {
      WaitersKeepClaimants(s.now, s.rows, s.claimants, op.token, Claimant(op.event, op.lease, Loading));
    } else {
      ClaimKeepsLog(s.rows, s.log, op.event, Row(Processing, op.token, Some(op.lease)));
      ClaimKeepsClaimants(s.now, s.rows, s.claimants, op.event, op.token, op.lease);
    }
  }

  lemma {:induction false} ReclaimKeepsInvariant(s: State, op: Op)
    requires Invariant(s) && Enabled(s, op) && op.Reclaim?
    ensures Invariant(Next(s, op))
  {
    var c := s.claimants[op.token];
    if Reclaimable(s.rows, c.event, s.now) {
      ClaimKeepsLog(s.rows, s.log, c.event, Row(Processing, op.token, Some(c.lease)));
      ClaimKeepsClaimants(s.now, s.rows, s.claimants, c.event, op.token, c.lease);
    } else {
      WaitersKeepClaimants(s.now, s.rows, s.claimants, op.token, c.(phase := Done(InProgress)));
    }
  }

  lemma {:induction false} StepKeepsInvariant(s: State, op: Op)
    requires Invariant(s)
    ensures Invariant(Next(s, op))
  {
    if Enabled(s, op) {
      match op
      case Tick(t) => TimeKeepsClaimants(s.now, s.rows, s.claimants, t);
      case Start(_, _, _) => StartKeepsInvariant(s, op);
      case Load(token, _) => WaitersKeepClaimants(s.now, s.rows, s.claimants, token, Next(s, op).claimants[token]);
      case Reclaim(_) => ReclaimKeepsInvariant(s, op);
      case Mark(event, token) =>
        if Markable(s.rows, event, token) {
          MarkKeepsLog(s.rows, s.log, event, token);
          MarkKeepsClaimants(s.now, s.rows, s.claimants, event, token);
        }
    }
  }

  lemma {:induction false} EveryRunKeepsInvariant(now: int, ops: seq<Op>)
    ensures Invariant(After(Initial(now), ops))
    decreases |ops|
  {
    if |ops| > 0 {
      EveryRunKeepsInvariant(now, ops[..|ops| - 1]);
      StepKeepsInvariant(After(Initial(now), ops[..|ops| - 1]), ops[|ops| - 1]);
    }
  }

  /** Mutual exclusion: in every interleaving, whatever the application clocks say, at
      most one claimant holds an unexpired lease on an event. */
  lemma {:induction false} AtMostOneHolder(now: int, ops: seq<Op>, event: string, a: string, b: string)
    requires Holds(After(Initial(now), ops), a, event) && Holds(After(Initial(now), ops), b, event)
    ensures a == b
  {
    EveryRunKeepsInvariant(now, ops);
  }

  /** Fencing: marking succeeds at most once per event, only with the token of the
      latest successful claim, and no claim succeeds afterwards. */
  lemma {:induction false} MarksAreFinal(now: int, ops: seq<Op>, i: nat)
    requires i < |After(Initial(now), ops).log| && After(Initial(now), ops).log[i].Marked?
    ensures var log := After(Initial(now), ops).log;
      && LatestClaim(log[..i], log[i].event) == Some(log[i].token)
      && (forall j :: i < j < |log| ==> log[j].event != log[i].event)
  {
    EveryRunKeepsInvariant(now, ops);
  }

  /** A superseded claimant can no longer mark the event. */
  lemma {:induction false} StaleTokenCannotMark(now: int, ops: seq<Op>, event: string, token: string)
    requires Markable(After(Initial(now), ops).rows, event, token)
    ensures LatestClaim(After(Initial(now), ops).log, event) == Some(token)
    ensures Won(After(Initial(now), ops).claimants, token, event)
  {
    EveryRunKeepsInvariant(now, ops);
  }

  // ---- Claims succeed when they should ----

  /** A claimant nobody interferes with gets what the one-step claim gives: a new event, or
      one whose lease has run out on both clocks. An expired lease is always taken over. */
  lemma {:induction false} UndisturbedClaimExactly(s: State, token: string, event: string, lease: int, appClock: int)
    requires token != "" && event != "" && token !in s.claimants
    ensures var started := Next(s, Start(token, event, lease));
      var loaded := Next(started, Load(token, appClock));
      var end := Next(loaded, Reclaim(token));
      var won := event in s.rows ==>
        && s.rows[event].status == Processing
        && (s.rows[event].lease == None
            || (s.rows[event].lease.value <= appClock && s.rows[event].lease.value <= s.now));
      && end.claimants[token].phase ==
        Done(if won then Process else if s.rows[event].status == Processed then Duplicate else InProgress)
      && end.rows == (if won then s.rows[event := Row(Processing, token, Some(lease))] else s.rows)
      && end.log == (if won then s.log + [Claimed(event, token)] else s.log)
      && end.now == s.now
  {
  }

  /** A reclaiming update finds what is there when it runs, however long ago the row was
      loaded: it claims exactly a row in progress whose lease has run out on its clock. */
  lemma {:induction false} ReclaimSucceedsExactly(s: State, token: string)
    requires token in s.claimants && s.claimants[token].phase == Updating
    ensures var event := s.claimants[token].event;
      var won := event in s.rows && s.rows[event].status == Processing
                 && (s.rows[event].lease == None || s.rows[event].lease.value <= s.now);
      && Next(s, Reclaim(token)).log == (if won then s.log + [Claimed(event, token)] else s.log)
      && Next(s, Reclaim(token)).claimants[token].phase == Done(if won then Process else InProgress)
      && Next(s, Reclaim(token)).rows ==
        (if won then s.rows[event := Row(Processing, token, Some(s.claimants[token].lease))] else s.rows)
  {
  }

  /** Whoever is in progress with this token marks the event, and nobody else does. */
  lemma {:induction false} MarkSucceedsExactly(s: State, event: string, token: string)
    requires event != "" && token != ""
    ensures var done := event in s.rows && s.rows[event].status == Processing && s.rows[event].token == token;
      Next(s, Mark(event, token)) ==
      (if done then s.(rows := s.rows[event := Row(Processed, token, None)], log := s.log + [Marked(event, token)])
       else s)
  {
  }

  /** From claim to mark: a claimant whose event nobody reclaims marks it. Everybody who
      asks afterwards is told that it is a duplicate. */
  lemma {:induction false} ClaimedMarkedDuplicate(s: State, event: string, a: string, b: string, lease: int,
                                                  appClock: int)
    requires event != "" && a != "" && b != "" && event !in s.rows && a !in s.claimants && b !in s.claimants && a != b
    ensures var marked := Next(Next(s, Start(a, event, lease)), Mark(event, a));
      && marked.log == s.log + [Claimed(event, a), Marked(event, a)]
      && Next(Next(marked, Start(b, event, lease)), Load(b, appClock)).claimants[b].phase == Done(Duplicate)
  {
  }
}
