/** Concurrent publishers over the reminder outbox, statement by statement. Each works in
    a transaction: it locks what it claims, sees its own writes, and others see them only
    when it commits. */
module OutboxRuns {
  import opened Wrappers
  import opened Arithmetic
  import opened ReminderOutbox

  datatype Tx = Tx(now: int, messages: seq<Message>, answers: seq<bool>, writes: Table, tally: Tally)

  /** A committed round. */
  datatype Round = Round(claimed: nat, tally: Tally)

  datatype State = State(rows: Table, open: map<string, Tx>, log: seq<Round>)

  datatype Op =
    | Enqueue(id: ID, at: int)
    | Begin(tx: string, limit: int, at: int)
    | Try(tx: string, accepted: bool)
    | Commit(tx: string)
    | Rollback(tx: string)

  predicate Locked(open: map<string, Tx>, k: ID) {
    exists t :: t in open && Lists(open[t].messages, k)
  }

  function LockedRows(s: State): (ks: set<ID>)
    ensures forall k :: k in ks <==> k in s.rows && Locked(s.open, k)
  {
    set k | k in s.rows && Locked(s.open, k)
  }

  predicate Enabled(s: State, op: Op) {
    match op
    case Enqueue(id, _) => id !in s.rows
    case Begin(t, _, _) => t !in s.open
    case Try(t, _) => t in s.open && |s.open[t].answers| < |s.open[t].messages|
    case Commit(t) => t in s.open && |s.open[t].answers| == |s.open[t].messages|
    case Rollback(t) => t in s.open
  }

  /** The next message is tried and its row updated within the transaction. */
  function Tried(rows: Table, tx: Tx, accepted: bool, max: nat): (tx': Tx)
    requires |tx.answers| < |tx.messages|
  {
    var m := tx.messages[|tx.answers|];
    var view := rows + tx.writes;
    tx.(answers := tx.answers + [accepted],
        writes := if m.id in view then tx.writes[m.id := Attempted(view[m.id], accepted, tx.now)] else tx.writes,
        tally := Counted(tx.tally, m, accepted, max))
  }

  function Next(s: State, op: Op, max: nat): (s': State) {
    if !Enabled(s, op) then s
    else
      match op
      case Enqueue(id, at) => s.(rows := s.rows[id := Row(at, None, 0)])
      case Begin(t, limit, now) =>
        var messages := Claim(s.rows, LockedRows(s), EffectiveLimit(limit), max);
        s.(open := s.open[t := Tx(now, messages, [], map[], Tally(0, 0, 0))])
      case Try(t, accepted) => s.(open := s.open[t := Tried(s.rows, s.open[t], accepted, max)])
      case Commit(t) =>
        State(s.rows + s.open[t].writes, s.open - {t}, s.log + [Round(|s.open[t].messages|, s.open[t].tally)])
      case Rollback(t) => s.(open := s.open - {t})
  }

  function After(ops: seq<Op>, max: nat): (s: State) {
    if |ops| == 0 then State(map[], map[], [])
    else Next(After(ops[..|ops| - 1], max), ops[|ops| - 1], max)
  }

  // ---- What every interleaving keeps ----

  /** A transaction writes only rows whose messages it has tried. */
  ghost predicate WritesListed(tx: Tx) {
    |tx.answers| <= |tx.messages| && forall k :: k in tx.writes ==> Lists(tx.messages[..|tx.answers|], k)
  }

  /** A transaction has dealt with its first messages exactly as an undisturbed round. */
  ghost predicate TxOk(rows: Table, tx: Tx, max: nat) {
    && WritesListed(tx)
    && RoundUpTo(rows, tx.messages, tx.answers, tx.now, max, |tx.answers|, rows + tx.writes, tx.tally)
  }

  ghost predicate Apart(a: seq<Message>, b: seq<Message>) {
    forall k :: Lists(a, k) ==> !Lists(b, k)
  }

  ghost predicate NoSharedRow(open: map<string, Tx>) {
    forall t, u :: t in open && u in open && t != u ==> Apart(open[t].messages, open[u].messages)
  }

  ghost predicate TxsOk(rows: Table, open: map<string, Tx>, max: nat) {
    forall t :: t in open ==> TxOk(rows, open[t], max)
  }

  predicate AttemptsBounded(rows: Table, max: nat) {
    forall k :: k in rows ==> rows[k].attempts <= max
  }

  predicate LogAddsUp(log: seq<Round>) {
    forall i :: 0 <= i < |log| ==> log[i].tally.Total() == log[i].claimed
  }

  ghost predicate Invariant(s: State, max: nat) {
    TxsOk(s.rows, s.open, max) && NoSharedRow(s.open) && AttemptsBounded(s.rows, max) && LogAddsUp(s.log)
  }

  /** A transaction is not disturbed by changes to rows it does not hold. */
  lemma {:induction false} RoundFrame(rows: Table, rows': Table, writes: Table, ms: seq<Message>, answers: seq<bool>,
                                      now: int)
    requires |ms| <= |answers| && rows.Keys <= rows'.Keys
    requires RoundResult(rows, ms, answers, now, rows + writes)
    requires forall k :: k in writes ==> Lists(ms, k)
    requires forall i :: 0 <= i < |ms| ==> rows'[ms[i].id] == rows[ms[i].id]
    ensures RoundResult(rows', ms, answers, now, rows' + writes)
  {
    assert forall k :: Lists(ms, k) ==> k in rows;
  }

  lemma {:induction false} TallyFrame(rows: Table, rows': Table, ms: seq<Message>, max: nat, t: Tally)
    requires Present(rows, ms) && Present(rows', ms) && Tallied(rows, ms, max, t)
    requires forall i :: 0 <= i < |ms| ==> rows[ms[i].id] == rows'[ms[i].id]
    ensures Tallied(rows', ms, max, t)
  {
    CountFrame(rows, rows', ms, max, Published);
    CountFrame(rows, rows', ms, max, Retry);
    CountFrame(rows, rows', ms, max, Dead);
  }

  /** Rows a transaction claimed and nobody changed are claimed as well as before. */
  lemma {:induction false} ClaimFrame(rows: Table, rows': Table, ms: seq<Message>, max: nat)
    requires WellClaimed(rows, ms, max) && rows.Keys <= rows'.Keys
    requires forall i :: 0 <= i < |ms| ==> rows'[ms[i].id] == rows[ms[i].id]
    ensures WellClaimed(rows', ms, max)
  {
  }

  lemma {:induction false} HeldUnchanged(rows: Table, rows': Table, ms: seq<Message>, n: nat)
    requires Present(rows, ms) && rows.Keys <= rows'.Keys && n <= |ms|
    requires forall k :: k in rows && Lists(ms, k) ==> rows'[k] == rows[k]
    ensures forall i :: 0 <= i < |ms| ==> rows'[ms[i].id] == rows[ms[i].id]
    ensures forall i :: 0 <= i < |ms[..n]| ==> rows'[ms[..n][i].id] == rows[ms[..n][i].id]
  {
    assert forall i :: 0 <= i < |ms| ==> Lists(ms, ms[i].id);
  }

  lemma {:induction false} TxFrame(rows: Table, rows': Table, tx: Tx, max: nat)
    requires TxOk(rows, tx, max) && rows.Keys <= rows'.Keys
    requires forall k :: k in rows && Lists(tx.messages, k) ==> rows'[k] == rows[k]
    ensures TxOk(rows', tx, max)
  {
    var done := tx.messages[..|tx.answers|];
    HeldUnchanged(rows, rows', tx.messages, |tx.answers|);
    ClaimFrame(rows, rows', tx.messages, max);
    RoundFrame(rows, rows', tx.writes, done, tx.answers, tx.now);
    TallyFrame(rows + tx.writes, rows' + tx.writes, done, max, tx.tally);
  }

  lemma {:induction false} AnswersGrow(before: Table, ms: seq<Message>, answers: seq<bool>, a: bool, now: int, max: nat,
                                       rows: Table, t: Tally)
    requires RoundUpTo(before, ms, answers, now, max, |answers|, rows, t)
    ensures RoundUpTo(before, ms, answers + [a], now, max, |answers|, rows, t)
  {
  }

  lemma {:induction false} TryView(rows: Table, tx: Tx, accepted: bool, max: nat)
    requires |tx.answers| < |tx.messages| && tx.messages[|tx.answers|].id in rows + tx.writes
    ensures var id, view := tx.messages[|tx.answers|].id, rows + tx.writes;
      rows + Tried(rows, tx, accepted, max).writes == view[id := Attempted(view[id], accepted, tx.now)]
  {
    var id, view := tx.messages[|tx.answers|].id, rows + tx.writes;
    MergeWrite(rows, tx.writes, id, Attempted(view[id], accepted, tx.now));
  }

  lemma {:induction false} TryKeepsTx(rows: Table, tx: Tx, accepted: bool, max: nat)
    requires TxOk(rows, tx, max) && |tx.answers| < |tx.messages|
    ensures TxOk(rows, Tried(rows, tx, accepted, max), max)
  {
    var n, view := |tx.answers|, rows + tx.writes;
    AnswersGrow(rows, tx.messages, tx.answers, accepted, tx.now, max, view, tx.tally);
    RoundStep(rows, tx.messages, tx.answers + [accepted], tx.now, max, n, view, tx.tally);
    TryView(rows, tx, accepted, max);
    TryKeepsWrites(rows, tx, accepted, max);
  }

  lemma {:induction false} TryKeepsWrites(rows: Table, tx: Tx, accepted: bool, max: nat)
    requires WritesListed(tx) && |tx.answers| < |tx.messages|
    ensures WritesListed(Tried(rows, tx, accepted, max))
  {
    forall k | k in Tried(rows, tx, accepted, max).writes
      ensures Lists(tx.messages[..|tx.answers| + 1], k)
    {
      ListsOneMore(tx.messages, |tx.answers|, k);
    }
  }

  lemma {:induction false} MergeWrite(rows: Table, writes: Table, k: ID, r: Row)
    ensures rows + writes[k := r] == (rows + writes)[k := r]
  {
  }

  lemma {:induction false} BeginKeepsTx(s: State, limit: nat, now: int, max: nat)
    ensures TxOk(s.rows, Tx(now, Claim(s.rows, LockedRows(s), limit, max), [], map[], Tally(0, 0, 0)), max)
  {
    var ms := Claim(s.rows, LockedRows(s), limit, max);
    ClaimedWell(s.rows, LockedRows(s), limit, max);
    RoundStarts(s.rows, ms, [], now, max);
    assert s.rows + map[] == s.rows;
  }

  /** What a commit leaves: each claimed row attempted once, every other row alone. */
  lemma {:induction false} CommitIsRound(s: State, t: string, max: nat)
    requires t in s.open && TxOk(s.rows, s.open[t], max) && Enabled(s, Commit(t))
    ensures var tx := s.open[t];
      var after := Next(s, Commit(t), max).rows;
      && RoundResult(s.rows, tx.messages, tx.answers, tx.now, after)
      && Tallied(after, tx.messages, max, tx.tally)
      && WellClaimed(s.rows, tx.messages, max)
  {
    var tx := s.open[t];
    RoundEnds(s.rows, tx.messages, tx.answers, tx.now, max, s.rows + tx.writes, tx.tally);
  }

  lemma {:induction false} BeginKeepsSharing(s: State, t: string, limit: nat, max: nat, tx: Tx)
    requires NoSharedRow(s.open) && t !in s.open && tx.messages == Claim(s.rows, LockedRows(s), limit, max)
    ensures NoSharedRow(s.open[t := tx])
  {
    forall u | u in s.open
      ensures Apart(s.open[u].messages, tx.messages)
    {
      forall k | Lists(s.open[u].messages, k)
        ensures !Lists(tx.messages, k)
      {
        assert Locked(s.open, k);
        assert !Claimable(s.rows, LockedRows(s), max, k);
      }
    }
  }

  lemma {:induction false} SharingKept(open: map<string, Tx>, t: string, tx: Tx)
    requires NoSharedRow(open) && t in open && tx.messages == open[t].messages
    ensures NoSharedRow(open[t := tx]) && NoSharedRow(open - {t})
  {
  }

  lemma {:induction false} AttemptsAfterRound(rows: Table, ms: seq<Message>, answers: seq<bool>, now: int, max: nat,
                                              after: Table)
    requires WellClaimed(rows, ms, max) && |ms| <= |answers| && RoundResult(rows, ms, answers, now, after)
    requires AttemptsBounded(rows, max)
    ensures AttemptsBounded(after, max)
  {
    forall k | k in after
      ensures after[k].attempts <= max
    {
      if i :| 0 <= i < |ms| && ms[i].id == k {
        assert after[k] == Attempted(rows[k], answers[i], now);
      } else {
        assert !Lists(ms, k);
      }
    }
  }

  /** A commit leaves the other transactions alone: they hold none of its rows. */
  lemma {:induction false} CommitKeepsOthers(s: State, t: string, max: nat, u: string)
    requires t in s.open && u in s.open && t != u && NoSharedRow(s.open)
    requires TxOk(s.rows, s.open[t], max) && TxOk(s.rows, s.open[u], max) && Enabled(s, Commit(t))
    ensures TxOk(Next(s, Commit(t), max).rows, s.open[u], max)
  {
    var after := Next(s, Commit(t), max).rows;
    CommitIsRound(s, t, max);
    assert Apart(s.open[u].messages, s.open[t].messages);
    TxFrame(s.rows, after, s.open[u], max);
  }

  lemma {:induction false} TallyAddsUp(rows: Table, ms: seq<Message>, max: nat, t: Tally)
    requires Present(rows, ms) && Tallied(rows, ms, max, t)
    ensures t.Total() == |ms|
  {
    CountsAddUp(rows, ms, max);
  }

  lemma {:induction false} CommitKeepsTxs(s: State, t: string, max: nat)
    requires TxsOk(s.rows, s.open, max) && NoSharedRow(s.open) && Enabled(s, Commit(t))
    ensures TxsOk(Next(s, Commit(t), max).rows, s.open - {t}, max)
  {
    var others := s.open - {t};
    forall u | u in others
      ensures TxOk(Next(s, Commit(t), max).rows, others[u], max)
    {
      CommitKeepsOthers(s, t, max, u);
    }
  }

  lemma {:induction false} CommitKeepsInvariant(s: State, t: string, max: nat)
    requires Invariant(s, max) && Enabled(s, Commit(t))
    ensures Invariant(Next(s, Commit(t), max), max)
  {
    var s' := Next(s, Commit(t), max);
    var tx := s.open[t];
    CommitKeepsTxs(s, t, max);
    SharingKept(s.open, t, tx);
    CommitKeepsCounts(s.rows, tx, max, s'.rows);
    LogGrows(s.log, Round(|tx.messages|, tx.tally));
  }

  lemma {:induction false} LogGrows(log: seq<Round>, r: Round)
    requires LogAddsUp(log) && r.tally.Total() == r.claimed
    ensures LogAddsUp(log + [r])
  {
  }

  lemma {:induction false} CommitKeepsCounts(rows: Table, tx: Tx, max: nat, after: Table)
    requires TxOk(rows, tx, max) && |tx.answers| == |tx.messages| && AttemptsBounded(rows, max)
    requires after == rows + tx.writes
    ensures AttemptsBounded(after, max) && tx.tally.Total() == |tx.messages|
  {
    RoundEnds(rows, tx.messages, tx.answers, tx.now, max, after, tx.tally);
    TallyAddsUp(after, tx.messages, max, tx.tally);
    AttemptsAfterRound(rows, tx.messages, tx.answers, tx.now, max, after);
  }

  lemma {:induction false} OneTxMore(rows: Table, open: map<string, Tx>, t: string, tx: Tx, max: nat)
    requires TxsOk(rows, open, max) && TxOk(rows, tx, max)
    ensures TxsOk(rows, open[t := tx], max)
  {
  }

  lemma {:induction false} TryKeepsInvariant(s: State, t: string, accepted: bool, max: nat)
    requires Invariant(s, max) && Enabled(s, Try(t, accepted))
    ensures Invariant(Next(s, Try(t, accepted), max), max)
  {
    var tx := Tried(s.rows, s.open[t], accepted, max);
    TryKeepsTx(s.rows, s.open[t], accepted, max);
    OneTxMore(s.rows, s.open, t, tx, max);
    SharingKept(s.open, t, tx);
  }

  lemma {:induction false} RollbackKeepsInvariant(s: State, t: string, max: nat)
    requires Invariant(s, max) && t in s.open
    ensures Invariant(s.(open := s.open - {t}), max)
  {
    SharingKept(s.open, t, s.open[t]);
  }

  lemma {:induction false} BeginKeepsInvariant(s: State, t: string, limit: nat, now: int, max: nat)
    requires Invariant(s, max) && t !in s.open
    ensures var tx := Tx(now, Claim(s.rows, LockedRows(s), limit, max), [], map[], Tally(0, 0, 0));
      Invariant(s.(open := s.open[t := tx]), max)
  {
    var tx := Tx(now, Claim(s.rows, LockedRows(s), limit, max), [], map[], Tally(0, 0, 0));
    BeginKeepsTx(s, limit, now, max);
    OneTxMore(s.rows, s.open, t, tx, max);
    BeginKeepsSharing(s, t, limit, max, tx);
  }

  lemma {:induction false} EnqueueKeepsInvariant(s: State, id: ID, at: int, max: nat)
    requires Invariant(s, max) && id !in s.rows
    ensures Invariant(s.(rows := s.rows[id := Row(at, None, 0)]), max)
  {
    var rows' := s.rows[id := Row(at, None, 0)];
    forall t | t in s.open
      ensures TxOk(rows', s.open[t], max)
    {
      TxFrame(s.rows, rows', s.open[t], max);
    }
  }

  lemma {:induction false} StepKeepsInvariant(s: State, op: Op, max: nat)
    requires Invariant(s, max)
    ensures Invariant(Next(s, op, max), max)
  {
    if Enabled(s, op) {
      match op
      case Enqueue(id, at) =>
        EnqueueKeepsInvariant(s, id, at, max);
      case Begin(t, limit, now) =>
        BeginKeepsInvariant(s, t, EffectiveLimit(limit), now, max);
      case Try(t, accepted) =>
        TryKeepsInvariant(s, t, accepted, max);
      case Commit(t) =>
        CommitKeepsInvariant(s, t, max);
      case Rollback(t) =>
        RollbackKeepsInvariant(s, t, max);
    }
  }

  lemma {:induction false} EveryRunKeepsInvariant(ops: seq<Op>, max: nat)
    ensures Invariant(After(ops, max), max)
    decreases |ops|
  {
    if |ops| > 0 {
      EveryRunKeepsInvariant(ops[..|ops| - 1], max);
      StepKeepsInvariant(After(ops[..|ops| - 1], max), ops[|ops| - 1], max);
    }
  }

  // ---- Safety over whole runs ----

  /** No two open transactions ever hold the same row. */
  lemma {:induction false} NeverHeldTwice(ops: seq<Op>, max: nat, t: string, u: string, i: nat, j: nat)
    requires var open := After(ops, max).open;
      && t in open && u in open && i < |open[t].messages| && j < |open[u].messages|
      && open[t].messages[i].id == open[u].messages[j].id
    ensures t == u && i == j
  {
    EveryRunKeepsInvariant(ops, max);
    var open := After(ops, max).open;
    assert Lists(open[t].messages, open[t].messages[i].id) && Lists(open[u].messages, open[u].messages[j].id);
    assert t != u ==> Apart(open[t].messages, open[u].messages);
    assert TxOk(After(ops, max).rows, open[t], max);
  }

  /** Attempts never exceed the limit, and every committed round accounts for each row
      it claimed. */
  lemma {:induction false} AttemptsAndTalliesHold(ops: seq<Op>, max: nat)
    ensures var s := After(ops, max);
      && (forall k :: k in s.rows ==> s.rows[k].attempts <= max)
      && (forall i :: 0 <= i < |s.log| ==>
            s.log[i].tally.processed + s.log[i].tally.failed + s.log[i].tally.dead == s.log[i].claimed)
  {
    EveryRunKeepsInvariant(ops, max);
    var s := After(ops, max);
    assert forall i :: 0 <= i < |s.log| ==> s.log[i].tally.Total() == s.log[i].claimed;
  }

  /** Once published, or once dead, a row is never touched again. */
  lemma {:induction false} SettledRowStays(s: State, op: Op, max: nat, k: ID)
    requires Invariant(s, max) && k in s.rows && FateOf(s.rows[k], max) != Retry
    ensures k in Next(s, op, max).rows && Next(s, op, max).rows[k] == s.rows[k]
  {
    if Enabled(s, op) && op.Commit? {
      CommitIsRound(s, op.tx, max);
      assert !Lists(s.open[op.tx].messages, k);
    }
  }

  lemma {:induction false} PublishedOnce(ops: seq<Op>, n: nat, max: nat, k: ID)
    requires n <= |ops| && k in After(ops[..n], max).rows && FateOf(After(ops[..n], max).rows[k], max) != Retry
    ensures k in After(ops, max).rows && After(ops, max).rows[k] == After(ops[..n], max).rows[k]
    decreases |ops|
  {
    if n == |ops| {
      assert ops[..n] == ops;
    } else {
      var shorter := ops[..|ops| - 1];
      assert shorter[..n] == ops[..n];
      PublishedOnce(shorter, n, max, k);
      EveryRunKeepsInvariant(shorter, max);
      SettledRowStays(After(shorter, max), ops[|ops| - 1], max, k);
    }
  }

  // ---- The outbox drains ----

  lemma {:induction false} AttemptUsesWork(r: Row, accepted: bool, now: int, max: nat)
    requires r.Waiting(max)
    ensures Attempted(r, accepted, now).Left(max) < r.Left(max)
  {
  }

  /** The work left strictly decreases at every committed round that claimed anything. */
  lemma {:induction false} CommitUsesWork(s: State, t: string, max: nat)
    requires Invariant(s, max) && Enabled(s, Commit(t))
    ensures Remaining(Next(s, Commit(t), max).rows, max) + |s.open[t].messages| <= Remaining(s.rows, max)
  {
    var tx := s.open[t];
    var after := Next(s, Commit(t), max).rows;
    CommitIsRound(s, t, max);
    forall i | 0 <= i < |tx.messages|
      ensures after[tx.messages[i].id].Left(max) < s.rows[tx.messages[i].id].Left(max)
    {
      AttemptUsesWork(s.rows[tx.messages[i].id], tx.answers[i], tx.now, max);
    }
    RoundUsesWork(s.rows, tx.messages, max, after);
  }

  /** Only a new row adds work, and no more than the attempt limit. */
  lemma {:induction false} EnqueueAddsWork(rows: Table, id: ID, at: int, max: nat)
    requires id !in rows
    ensures Remaining(rows[id := Row(at, None, 0)], max) == Remaining(rows, max) + max
    ensures max * |rows[id := Row(at, None, 0)]| == max * |rows| + max
  {
    RemainingAfterWrite(rows, max, id, Row(at, None, 0));
    assert |rows[id := Row(at, None, 0)]| == |rows| + 1;
    OneMoreTimes(max, |rows|, |rows[id := Row(at, None, 0)]|);
  }

  /** All the rows claimed by committed rounds, each time they were claimed. */
  function Claims(log: seq<Round>): (n: nat) {
    if |log| == 0 then 0 else Claims(log[..|log| - 1]) + log[|log| - 1].claimed
  }

  /** Over any run, the claims of all committed rounds and the work left together never
      exceed the attempt limit times the rows ever enqueued: the outbox drains. */
  lemma {:induction false} OutboxDrains(ops: seq<Op>, max: nat)
    ensures Claims(After(ops, max).log) + Remaining(After(ops, max).rows, max) <= max * |After(ops, max).rows|
    decreases |ops|
  {
    if |ops| > 0 {
      var shorter, op := ops[..|ops| - 1], ops[|ops| - 1];
      OutboxDrains(shorter, max);
      EveryRunKeepsInvariant(shorter, max);
      StepKeepsBudget(After(shorter, max), op, max);
    }
  }

  lemma {:induction false} StepKeepsBudget(s: State, op: Op, max: nat)
    requires Invariant(s, max)
    requires Claims(s.log) + Remaining(s.rows, max) <= max * |s.rows|
    ensures Claims(Next(s, op, max).log) + Remaining(Next(s, op, max).rows, max) <= max * |Next(s, op, max).rows|
  {
    if Enabled(s, op) {
      match op
      case Enqueue(id, at) =>
        EnqueueAddsWork(s.rows, id, at, max);
      case Commit(t) =>
        CommitUsesWork(s, t, max);
        CommitKeepsKeys(s, t, max);
      case _ =>
    }
  }

  lemma {:induction false} CommitKeepsKeys(s: State, t: string, max: nat)
    requires Invariant(s, max) && Enabled(s, Commit(t))
    ensures |Next(s, Commit(t), max).rows| == |s.rows|
    ensures Claims(Next(s, Commit(t), max).log) == Claims(s.log) + |s.open[t].messages|
  {
    var s' := Next(s, Commit(t), max);
    CommitIsRound(s, t, max);
    assert |s'.rows| == |s'.rows.Keys| && |s.rows| == |s.rows.Keys|;
    assert s'.log[..|s.log|] == s.log;
  }
}
