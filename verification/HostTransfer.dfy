/** The single host of a call: a transfer locks two rows in user order, checks them and
    swaps their roles in one transaction, interleaved with everything else that may
    touch the rows. */
module HostTransfer {

  datatype Role = Host | CoHost | Presenter | Participant | Viewer

  datatype Status = Invited | Waiting | Joining | Connected | Disconnected | Declined

  /** Rows are unique per call and user; user IDs are totally ordered. */
  datatype RowKey = RowKey(call: string, user: int)

  datatype Row = Row(role: Role, status: Status)

  type Table = map<RowKey, Row>

  predicate Eligible(r: Row) {
    r.role != Host && r.status == Connected
  }

  function WithRole(rows: Table, k: RowKey, role: Role): (r: Table)
    requires k in rows
  {
    rows[k := rows[k].(role := role)]
  }

  /** Both rows after a transfer that went through. */
  function Swapped(rows: Table, call: string, from: int, to: int): (r: Table)
    requires RowKey(call, from) in rows && RowKey(call, to) in rows
  {
    WithRole(WithRole(rows, RowKey(call, from), Participant), RowKey(call, to), Host)
  }

  /** The keys a transfer selects, in the order it locks them. */
  function Selected(rows: Table, call: string, from: int, to: int): (ks: seq<RowKey>)
    ensures forall k :: k in ks <==> k in rows && k.call == call && (k.user == from || k.user == to)
  {
    var lo, hi := if from <= to then from else to, if from <= to then to else from;
    (if RowKey(call, lo) in rows then [RowKey(call, lo)] else [])
    + (if lo != hi && RowKey(call, hi) in rows then [RowKey(call, hi)] else [])
  }

  class ParticipantTable {
    var rows: Table

    /** A transfer nobody interferes with: it goes through exactly when the actor is
        host and a different, connected non-host is the target. */
    method TransferHost(call: string, from: int, to: int) returns (moved: bool)
      modifies this
      ensures moved <==>
        && from != to
        && RowKey(call, from) in old(rows) && old(rows)[RowKey(call, from)].role == Host
        && RowKey(call, to) in old(rows) && old(rows)[RowKey(call, to)].role != Host
        && old(rows)[RowKey(call, to)].status == Connected
      ensures rows.Keys == old(rows).Keys
      ensures forall k :: k in rows ==>
        rows[k] ==
        (if moved && k == RowKey(call, from) then old(rows)[k].(role := Participant)
         else if moved && k == RowKey(call, to) then old(rows)[k].(role := Host)
         else old(rows)[k])
    {
      var locked := Selected(rows, call, from, to);
      var fromIsHost, targetEligible := false, false;
      for i := 0 to |locked|
        invariant fromIsHost <==>
          exists j :: 0 <= j < i && locked[j].user == from && rows[locked[j]].role == Host
        invariant targetEligible <==>
          exists j :: 0 <= j < i && locked[j].user == to && to != from && Eligible(rows[locked[j]])
      {
        var row := rows[locked[i]];
        if locked[i].user == from {
          fromIsHost := row.role == Host;
        } else if locked[i].user == to {
          targetEligible := row.role != Host && row.status == Connected;
        }
      }
      assert RowKey(call, from) in rows ==> RowKey(call, from) in locked;
      assert RowKey(call, to) in rows ==> RowKey(call, to) in locked;
      if !fromIsHost || !targetEligible {
        return false;
      }
      rows := WithRole(rows, RowKey(call, from), Participant);
      rows := WithRole(rows, RowKey(call, to), Host);
      moved := true;
    }

    /** Role updates never touch a host row. */
    method UpdateParticipantRole(k: RowKey, role: Role) returns (found: bool)
      modifies this
      ensures found <==> k in old(rows) && old(rows)[k].role != Host
      ensures rows == if found then old(rows)[k := Row(role, old(rows)[k].status)] else old(rows)
    {
      found := k in rows && rows[k].role != Host;
      if found {
        rows := WithRole(rows, k, role);
      }
    }
  }

  // ---- One host ----

  ghost predicate HostIs(rows: Table, call: string, user: int) {
    && RowKey(call, user) in rows && rows[RowKey(call, user)].role == Host
    && forall k :: k in rows && k.call == call && rows[k].role == Host ==> k.user == user
  }

  ghost predicate ExactlyOneHost(rows: Table, call: string) {
    exists u :: HostIs(rows, call, u)
  }

  lemma {:induction false} SwapKeepsOneHost(rows: Table, call: string, from: int, to: int, c: string)
    requires RowKey(call, from) in rows && rows[RowKey(call, from)].role == Host
    requires RowKey(call, to) in rows && from != to
    requires ExactlyOneHost(rows, c)
    ensures ExactlyOneHost(Swapped(rows, call, from, to), c)
    ensures c == call ==> HostIs(Swapped(rows, call, from, to), call, to)
  {
    var u :| HostIs(rows, c, u);
    var rows' := Swapped(rows, call, from, to);
    if c == call {
      assert u == from;
      assert HostIs(rows', call, to);
    } else {
      assert HostIs(rows', c, u);
    }
  }

  /** Writing a non-host row keeps the host exactly when it does not write a host. */
  lemma {:induction false} NonHostWriteKeepsOneHostExactly(rows: Table, k: RowKey, row: Row, c: string)
    requires k in rows ==> rows[k].role != Host
    requires ExactlyOneHost(rows, c)
    ensures ExactlyOneHost(rows[k := row], c) <==> row.role != Host || k.call != c
  {
    var u :| HostIs(rows, c, u);
    if row.role != Host || k.call != c {
      assert HostIs(rows[k := row], c, u);
    } else {
      var rows' := rows[k := row];
      assert k != RowKey(c, u);
      forall v
        ensures !HostIs(rows', c, v)
      {
        assert RowKey(c, u) in rows' && rows'[RowKey(c, u)].role == Host;
        assert k in rows' && rows'[k].role == Host && k.user != u;
      }
    }
  }

  // ---- Transactions interleaved at row-lock granularity ----

  datatype Phase = Locking | Demoting | Promoting | Committing

  /** An open transfer: the keys it selected, how many it has locked, what it read. */
  datatype Transfer = Transfer(
    call: string,
    from: int,
    to: int,
    selected: seq<RowKey>,
    got: nat,
    fromIsHost: bool,
    targetEligible: bool,
    phase: Phase)
  {
    function Holding(): (ks: seq<RowKey>) {
      if got <= |selected| then selected[..got] else selected
    }
  }

  datatype State = State(rows: Table, open: map<string, Transfer>)

  datatype Op =
    | Begin(tx: string, call: string, from: int, to: int)
    | Lock(tx: string)
    | Check(tx: string)
    | Demote(tx: string)
    | Promote(tx: string)
    | Commit(tx: string)
    | Rollback(tx: string)
    | SetRole(key: RowKey, role: Role)
    | SetStatus(key: RowKey, status: Status)
    | Insert(key: RowKey, row: Row)

  predicate HeldBy(s: State, tx: string, k: RowKey) {
    tx in s.open && k in s.open[tx].Holding()
  }

  ghost predicate Locked(s: State, k: RowKey) {
    exists tx :: HeldBy(s, tx, k)
  }

  ghost predicate Enabled(s: State, op: Op) {
    match op
    case Begin(tx, _, _, _) => tx !in s.open
    case Lock(tx) =>
      && tx in s.open && s.open[tx].phase == Locking && s.open[tx].got < |s.open[tx].selected|
      && !Locked(s, s.open[tx].selected[s.open[tx].got])
    case Check(tx) => tx in s.open && s.open[tx].phase == Locking && s.open[tx].got == |s.open[tx].selected|
    case Demote(tx) => tx in s.open && s.open[tx].phase == Demoting
    case Promote(tx) => tx in s.open && s.open[tx].phase == Promoting
    case Commit(tx) => tx in s.open && s.open[tx].phase == Committing
    case Rollback(tx) => tx in s.open
    // Single statements wait for the row and re-check its current version.
    case SetRole(k, _) => k in s.rows && !Locked(s, k) && s.rows[k].role != Host
    case SetStatus(k, _) => k in s.rows && !Locked(s, k)
    case Insert(k, _) => k !in s.rows
  }

  /** Reading the next row, now locked: the actor's row counts as the actor's even if
      the target is the same user. */
  function Read(t: Transfer, rows: Table): (r: Transfer)
    requires t.got < |t.selected| && t.selected[t.got] in rows
  {
    var k := t.selected[t.got];
    t.(got := t.got + 1,
       fromIsHost := if k.user == t.from then rows[k].role == Host else t.fromIsHost,
       targetEligible := if k.user != t.from && k.user == t.to then Eligible(rows[k]) else t.targetEligible)
  }

  /** The next state; a step that is not enabled does not happen. The two role writes
      stay private to the transaction until it commits. */
  ghost function Next(s: State, op: Op): (r: State) {
    if !Enabled(s, op) then s else
    match op
    case Begin(tx, call, from, to) =>
      s.(open := s.open[tx := Transfer(call, from, to, Selected(s.rows, call, from, to), 0, false, false, Locking)])
    case Lock(tx) =>
      if s.open[tx].selected[s.open[tx].got] in s.rows then s.(open := s.open[tx := Read(s.open[tx], s.rows)]) else s
    case Check(tx) =>
      if s.open[tx].fromIsHost && s.open[tx].targetEligible
      then s.(open := s.open[tx := s.open[tx].(phase := Demoting)])
      else s.(open := s.open - {tx})
    case Demote(tx) => s.(open := s.open[tx := s.open[tx].(phase := Promoting)])
    case Promote(tx) => s.(open := s.open[tx := s.open[tx].(phase := Committing)])
    case Commit(tx) =>
      var t := s.open[tx];
      State(if RowKey(t.call, t.from) in s.rows && RowKey(t.call, t.to) in s.rows
            then Swapped(s.rows, t.call, t.from, t.to) else s.rows,
            s.open - {tx})
    case Rollback(tx) => s.(open := s.open - {tx})
    case SetRole(k, role) => s.(rows := WithRole(s.rows, k, role))
    case SetStatus(k, status) => s.(rows := s.rows[k := s.rows[k].(status := status)])
    case Insert(k, row) => s.(rows := s.rows[k := row])
  }

  ghost function After(s: State, ops: seq<Op>): (r: State) {
    if |ops| == 0 then s else Next(After(s, ops[..|ops| - 1]), ops[|ops| - 1])
  }

  // ---- What every interleaving keeps ----

  /** Keys are of the transfer's call and its two users, present, in strict user order. */
  predicate WellSelected(t: Transfer, rows: Table) {
    && t.got <= |t.selected|
    && (forall i :: 0 <= i < |t.selected| ==>
          t.selected[i] in rows && t.selected[i].call == t.call && t.selected[i].user in {t.from, t.to})
    && (forall i, j :: 0 <= i < j < |t.selected| ==> t.selected[i].user < t.selected[j].user)
  }

  /** What the transfer read is still so, because it holds the rows. */
  predicate ReadsStable(t: Transfer, rows: Table) {
    && (t.fromIsHost ==>
          && RowKey(t.call, t.from) in t.Holding() && RowKey(t.call, t.from) in rows
          && rows[RowKey(t.call, t.from)].role == Host)
    && (t.targetEligible ==>
          && t.from != t.to && RowKey(t.call, t.to) in t.Holding() && RowKey(t.call, t.to) in rows
          && Eligible(rows[RowKey(t.call, t.to)]))
    && (t.phase != Locking ==> t.fromIsHost && t.targetEligible && t.got == |t.selected|)
  }

  ghost predicate TransfersSound(s: State) {
    forall tx :: tx in s.open ==> WellSelected(s.open[tx], s.rows) && ReadsStable(s.open[tx], s.rows)
  }

  ghost predicate LocksExclusive(s: State) {
    forall a, b, k :: HeldBy(s, a, k) && HeldBy(s, b, k) ==> a == b
  }

  ghost predicate Sound(s: State) {
    TransfersSound(s) && LocksExclusive(s)
  }

  lemma {:induction false} SelectedSound(rows: Table, call: string, from: int, to: int)
    ensures WellSelected(Transfer(call, from, to, Selected(rows, call, from, to), 0, false, false, Locking), rows)
  {
  }

  lemma {:induction false} ReadSound(t: Transfer, rows: Table)
    requires WellSelected(t, rows) && ReadsStable(t, rows) && t.phase == Locking && t.got < |t.selected|
    ensures WellSelected(Read(t, rows), rows) && ReadsStable(Read(t, rows), rows)
    ensures Read(t, rows).Holding() == t.Holding() + [t.selected[t.got]]
  {
    var t' := Read(t, rows);
    var k := t.selected[t.got];
    assert t'.Holding() == t.Holding() + [k];
    assert k == RowKey(t.call, k.user);
    assert forall h :: h in t.Holding() ==> h in t'.Holding();
    assert k in t'.Holding();
  }

  /** A write to a row nobody holds leaves every open transfer's reading true. */
  lemma {:induction false} WriteKeepsSound(s: State, k: RowKey, row: Row)
    requires Sound(s) && !Locked(s, k)
    ensures Sound(s.(rows := s.rows[k := row]))
  {
    var s' := s.(rows := s.rows[k := row]);
    forall tx | tx in s.open
      ensures WellSelected(s'.open[tx], s'.rows) && ReadsStable(s'.open[tx], s'.rows)
    {
      assert !HeldBy(s, tx, k);
    }
    forall a, b, h | HeldBy(s', a, h) && HeldBy(s', b, h)
      ensures a == b
    {
      assert HeldBy(s, a, h) && HeldBy(s, b, h);
    }
  }

  lemma {:induction false} InsertUnlocked(s: State, k: RowKey)
    requires TransfersSound(s) && k !in s.rows
    ensures !Locked(s, k)
  {
    forall tx
      ensures !HeldBy(s, tx, k)
    {
      if tx in s.open {
        var t := s.open[tx];
        assert forall h :: h in t.Holding() ==> h in s.rows;
      }
    }
  }

  /** Opening, closing or advancing one transfer without new locks. */
  lemma {:induction false} OpenKeepsSound(s: State, open: map<string, Transfer>)
    requires Sound(s)
    requires forall tx :: tx in open ==> WellSelected(open[tx], s.rows) && ReadsStable(open[tx], s.rows)
    requires forall tx :: tx in open ==>
      open[tx].Holding() == [] || (tx in s.open && open[tx].Holding() == s.open[tx].Holding())
    ensures Sound(s.(open := open))
  {
    var s' := s.(open := open);
    forall a, b, h | HeldBy(s', a, h) && HeldBy(s', b, h)
      ensures a == b
    {
      assert HeldBy(s, a, h) && HeldBy(s, b, h);
    }
  }

  lemma {:induction false} CloseKeepsSound(s: State, tx: string)
    requires Sound(s)
    ensures Sound(s.(open := s.open - {tx}))
  {
    OpenKeepsSound(s, s.open - {tx});
  }

  lemma {:induction false} AdvanceKeepsSound(s: State, tx: string, phase: Phase)
    requires Sound(s) && tx in s.open && s.open[tx].fromIsHost && s.open[tx].targetEligible
    requires s.open[tx].got == |s.open[tx].selected|
    ensures Sound(s.(open := s.open[tx := s.open[tx].(phase := phase)]))
  {
    OpenKeepsSound(s, s.open[tx := s.open[tx].(phase := phase)]);
  }

  lemma {:induction false} BeginKeepsSound(s: State, tx: string, call: string, from: int, to: int)
    requires Sound(s) && tx !in s.open
    ensures Sound(Next(s, Begin(tx, call, from, to)))
  {
    SelectedSound(s.rows, call, from, to);
    OpenKeepsSound(s, Next(s, Begin(tx, call, from, to)).open);
  }

  lemma {:induction false} LockKeepsSound(s: State, tx: string)
    requires Sound(s) && Enabled(s, Lock(tx))
    ensures Sound(Next(s, Lock(tx)))
  {
    var t := s.open[tx];
    var k := t.selected[t.got];
    ReadSound(t, s.rows);
    var s' := Next(s, Lock(tx));
    forall a, b, h | HeldBy(s', a, h) && HeldBy(s', b, h)
      ensures a == b
    {
      if h != k {
        assert HeldBy(s, a, h) && HeldBy(s, b, h);
      } else {
        assert !HeldBy(s, a, k) && !HeldBy(s, b, k);
      }
    }
  }

  /** A commit writes only rows it holds, so nobody else read them. */
  lemma {:induction false} CommitKeepsSound(s: State, tx: string)
    requires Sound(s) && Enabled(s, Commit(tx))
    ensures Sound(Next(s, Commit(tx)))
  {
    var t := s.open[tx];
    var s' := Next(s, Commit(tx));
    forall x | x in s'.open
      ensures WellSelected(s'.open[x], s'.rows) && ReadsStable(s'.open[x], s'.rows)
    {
      assert HeldBy(s, tx, RowKey(t.call, t.from)) && HeldBy(s, tx, RowKey(t.call, t.to));
      assert !HeldBy(s, x, RowKey(t.call, t.from)) && !HeldBy(s, x, RowKey(t.call, t.to));
    }
    forall a, b, h | HeldBy(s', a, h) && HeldBy(s', b, h)
      ensures a == b
    {
      assert HeldBy(s, a, h) && HeldBy(s, b, h);
    }
  }

  lemma {:induction false} StepKeepsSound(s: State, op: Op)
    requires Sound(s)
    ensures Sound(Next(s, op))
  {
    if Enabled(s, op) {
      match op
      case Begin(tx, call, from, to) => BeginKeepsSound(s, tx, call, from, to);
      case Lock(tx) => LockKeepsSound(s, tx);
      case Check(tx) =>
        if s.open[tx].fromIsHost && s.open[tx].targetEligible {
          AdvanceKeepsSound(s, tx, Demoting);
        } else {
          CloseKeepsSound(s, tx);
        }
      case Demote(tx) => AdvanceKeepsSound(s, tx, Promoting);
      case Promote(tx) => AdvanceKeepsSound(s, tx, Committing);
      case Commit(tx) => CommitKeepsSound(s, tx);
      case Rollback(tx) => CloseKeepsSound(s, tx);
      case SetRole(k, role) => WriteKeepsSound(s, k, s.rows[k].(role := role));
      case SetStatus(k, status) => WriteKeepsSound(s, k, s.rows[k].(status := status));
      case Insert(k, row) =>
        InsertUnlocked(s, k);
        WriteKeepsSound(s, k, row);
    }
  }

  lemma {:induction false} StatusKeepsHost(rows: Table, k: RowKey, status: Status, c: string)
    requires k in rows && ExactlyOneHost(rows, c)
    ensures ExactlyOneHost(rows[k := rows[k].(status := status)], c)
  {
    var u :| HostIs(rows, c, u);
    assert HostIs(rows[k := rows[k].(status := status)], c, u);
  }

  /** A single statement that makes somebody host of a call, which neither guard forbids. */
  ghost predicate WritesHost(s: State, op: Op, c: string) {
    && Enabled(s, op)
    && ((op.SetRole? && op.key.call == c && op.role == Host) || (op.Insert? && op.key.call == c && op.row.role == Host))
  }

  lemma {:induction false} StepKeepsOneHost(s: State, op: Op, c: string)
    requires Sound(s) && ExactlyOneHost(s.rows, c) && !WritesHost(s, op, c)
    ensures ExactlyOneHost(Next(s, op).rows, c)
  {
    if Enabled(s, op) {
      match op
      case Commit(tx) =>
        var t := s.open[tx];
        SwapKeepsOneHost(s.rows, t.call, t.from, t.to, c);
      case SetRole(k, role) => NonHostWriteKeepsOneHostExactly(s.rows, k, s.rows[k].(role := role), c);
      case SetStatus(k, status) => StatusKeepsHost(s.rows, k, status, c);
      case Insert(k, row) => NonHostWriteKeepsOneHostExactly(s.rows, k, row, c);
      case _ =>
    }
  }

  // ---- A second host never goes away ----

  predicate IsHost(rows: Table, c: string, u: int) {
    RowKey(c, u) in rows && rows[RowKey(c, u)].role == Host
  }

  ghost predicate TwoHosts(rows: Table, c: string) {
    exists u, v :: u != v && IsHost(rows, c, u) && IsHost(rows, c, v)
  }

  lemma {:induction false} TwoAreNotOne(rows: Table, c: string)
    requires TwoHosts(rows, c)
    ensures !ExactlyOneHost(rows, c)
  {
    var u, v :| u != v && IsHost(rows, c, u) && IsHost(rows, c, v);
    forall w
      ensures !HostIs(rows, c, w)
    {
      assert RowKey(c, u).user != w || RowKey(c, v).user != w;
    }
  }

  lemma {:induction false} HostWriteMakesTwo(s: State, op: Op, c: string)
    requires ExactlyOneHost(s.rows, c) && WritesHost(s, op, c)
    ensures TwoHosts(Next(s, op).rows, c)
  {
    var u :| HostIs(s.rows, c, u);
    assert op.key == RowKey(c, op.key.user) && op.key.user != u;
    assert IsHost(Next(s, op).rows, c, u) && IsHost(Next(s, op).rows, c, op.key.user);
  }

  /** Who is host after a step that found u host: u, or the target u handed over to. */
  lemma {:induction false} HostsMoveTogether(s: State, op: Op, c: string, u: int, v: int)
    requires Sound(s) && u != v && IsHost(s.rows, c, u) && IsHost(s.rows, c, v)
    ensures TwoHosts(Next(s, op).rows, c)
  {
    var rows' := Next(s, op).rows;
    if Enabled(s, op) && op.Commit? && s.open[op.tx].call == c && s.open[op.tx].from in {u, v} {
      var t := s.open[op.tx];
      assert IsHost(rows', c, t.to) && IsHost(rows', c, if t.from == u then v else u);
    } else {
      assert IsHost(rows', c, u) && IsHost(rows', c, v);
    }
  }

  lemma {:induction false} AlwaysSound(rows: Table, ops: seq<Op>)
    ensures Sound(After(State(rows, map[]), ops))
    decreases |ops|
  {
    if |ops| > 0 {
      AlwaysSound(rows, ops[..|ops| - 1]);
      StepKeepsSound(After(State(rows, map[]), ops[..|ops| - 1]), ops[|ops| - 1]);
    }
  }

  /** No step of the run writes a host into the call by a single statement. */
  ghost predicate NoHostWritten(rows: Table, ops: seq<Op>, call: string) {
    |ops| > 0 ==>
      var before := ops[..|ops| - 1];
      NoHostWritten(rows, before, call) && !WritesHost(After(State(rows, map[]), before), ops[|ops| - 1], call)
  }

  /** Single host: from a table where a call has exactly one host and no transfer is open,
      an interleaving of transfers, role and status updates and inserts leaves exactly one
      if and only if no role update or insert wrote a host; otherwise it leaves several. */
  lemma {:induction false} AlwaysOneHost(rows: Table, ops: seq<Op>, call: string)
    requires ExactlyOneHost(rows, call)
    ensures ExactlyOneHost(After(State(rows, map[]), ops).rows, call) <==> NoHostWritten(rows, ops, call)
    ensures !NoHostWritten(rows, ops, call) ==> TwoHosts(After(State(rows, map[]), ops).rows, call)
    decreases |ops|
  {
    if |ops| > 0 {
      var before, op := ops[..|ops| - 1], ops[|ops| - 1];
      var s := After(State(rows, map[]), before);
      AlwaysOneHost(rows, before, call);
      AlwaysSound(rows, before);
      if !NoHostWritten(rows, before, call) {
        var u, v :| u != v && IsHost(s.rows, call, u) && IsHost(s.rows, call, v);
        HostsMoveTogether(s, op, call, u, v);
        TwoAreNotOne(Next(s, op).rows, call);
      } else if WritesHost(s, op, call) {
        HostWriteMakesTwo(s, op, call);
        TwoAreNotOne(Next(s, op).rows, call);
      } else {
        StepKeepsOneHost(s, op, call);
      }
    }
  }

  /** In every interleaving a transfer that commits takes the role from the host, who becomes
      a participant, and gives it to a connected user of the call who was not host; no other
      row changes. */
  lemma {:induction false} CommitHandsOver(rows: Table, ops: seq<Op>, tx: string)
    requires Enabled(After(State(rows, map[]), ops), Commit(tx))
    ensures var s := After(State(rows, map[]), ops);
      var t := s.open[tx];
      var source, target, rows' := RowKey(t.call, t.from), RowKey(t.call, t.to), Next(s, Commit(tx)).rows;
      && source in s.rows && s.rows[source].role == Host
      && target in s.rows && s.rows[target].role != Host && s.rows[target].status == Connected
      && rows' == s.rows[source := Row(Participant, s.rows[source].status)][target := Row(Host, Connected)]
  {
    AlwaysSound(rows, ops);
  }

  /** The statements of one transfer, in order. */
  ghost function Alone(s: State, tx: string, call: string, from: int, to: int): (r: State) {
    var locked := Next(Next(Next(s, Begin(tx, call, from, to)), Lock(tx)), Lock(tx));
    Next(Next(Next(Next(locked, Check(tx)), Demote(tx)), Promote(tx)), Commit(tx))
  }

  lemma {:induction false} LocksNext(rows: Table, tx: string, t: Transfer)
    requires t.phase == Locking && WellSelected(t, rows)
    ensures Next(State(rows, map[tx := t]), Lock(tx)) ==
      (if t.got < |t.selected| then State(rows, map[tx := Read(t, rows)]) else State(rows, map[tx := t]))
  {
    var s := State(rows, map[tx := t]);
    if t.got < |t.selected| {
      var k := t.selected[t.got];
      assert t.Holding() == t.selected[..t.got];
      forall other
        ensures !HeldBy(s, other, k)
      {
        assert forall i :: 0 <= i < t.got ==> t.selected[i].user < k.user;
      }
    }
  }

  lemma {:induction false} LocksBoth(rows: Table, tx: string, call: string, from: int, to: int)
    ensures var s := Next(Next(Next(State(rows, map[]), Begin(tx, call, from, to)), Lock(tx)), Lock(tx));
      var source, target := RowKey(call, from), RowKey(call, to);
      var sel := Selected(rows, call, from, to);
      s == State(rows, map[tx := Transfer(call, from, to, sel, |sel|, source in rows && rows[source].role == Host,
                                          from != to && target in rows && Eligible(rows[target]), Locking)])
  {
    var sel := Selected(rows, call, from, to);
    var t0 := Transfer(call, from, to, sel, 0, false, false, Locking);
    SelectedSound(rows, call, from, to);
    LocksNext(rows, tx, t0);
    if |sel| > 0 {
      var t1 := Read(t0, rows);
      LocksNext(rows, tx, t1);
    }
  }

  lemma {:induction false} FromCheckToCommit(rows: Table, tx: string, t: Transfer)
    requires t.phase == Locking && t.got == |t.selected|
    requires t.fromIsHost && t.targetEligible ==> RowKey(t.call, t.from) in rows && RowKey(t.call, t.to) in rows
    ensures var s := State(rows, map[tx := t]);
      Next(Next(Next(Next(s, Check(tx)), Demote(tx)), Promote(tx)), Commit(tx)) ==
      State(if t.fromIsHost && t.targetEligible then Swapped(rows, t.call, t.from, t.to) else rows, map[])
  {
  }

  /** With nothing in between they are the one-step transfer: it goes through if and only if
      the actor is host and the target a different user, connected and not host. */
  lemma {:induction false} UndisturbedTransferExactly(rows: Table, tx: string, call: string, from: int, to: int)
    ensures var source, target := RowKey(call, from), RowKey(call, to);
      var moved := && from != to && source in rows && rows[source].role == Host
        && target in rows && rows[target].role != Host && rows[target].status == Connected;
      Alone(State(rows, map[]), tx, call, from, to) ==
      State(if moved then rows[source := Row(Participant, rows[source].status)][target := Row(Host, Connected)]
            else rows, map[])
  {
    var sel := Selected(rows, call, from, to);
    var source, target := RowKey(call, from), RowKey(call, to);
    LocksBoth(rows, tx, call, from, to);
    FromCheckToCommit(rows, tx, Transfer(call, from, to, sel, |sel|, source in rows && rows[source].role == Host,
                                         from != to && target in rows && Eligible(rows[target]), Locking));
  }

  /** A role update goes through exactly for a row that is there, not host and not locked. */
  lemma {:induction false} RoleUpdateExactly(s: State, k: RowKey, role: Role)
    requires !Locked(s, k)
    ensures Next(s, SetRole(k, role)) ==
      if k in s.rows && s.rows[k].role != Host then s.(rows := s.rows[k := Row(role, s.rows[k].status)]) else s
  {
  }

  /** A transfer to oneself never gets past its check: it can only be given up. */
  lemma {:induction false} SelfTransferIsNoOp(rows: Table, ops: seq<Op>, tx: string)
    requires tx in After(State(rows, map[]), ops).open
    requires After(State(rows, map[]), ops).open[tx].from == After(State(rows, map[]), ops).open[tx].to
    ensures var s := After(State(rows, map[]), ops);
      s.open[tx].phase == Locking && !s.open[tx].targetEligible && Next(s, Check(tx)).rows == s.rows
  {
    AlwaysSound(rows, ops);
  }

  // ---- No cyclic wait ----

  /** `a` is blocked on a row that `b` holds. */
  predicate WaitsFor(s: State, a: string, b: string) {
    && a in s.open && s.open[a].phase == Locking && s.open[a].got < |s.open[a].selected|
    && HeldBy(s, b, s.open[a].selected[s.open[a].got])
  }

  predicate WaitChain(s: State, txs: seq<string>) {
    forall i :: 0 <= i < |txs| - 1 ==> WaitsFor(s, txs[i], txs[i + 1])
  }

  function WaitingOn(s: State, a: string): (u: int)
    requires a in s.open && s.open[a].got < |s.open[a].selected|
  {
    s.open[a].selected[s.open[a].got].user
  }

  /** Whoever holds a row waits only for rows of later users. */
  lemma {:induction false} WaitsClimb(s: State, a: string, b: string, c: string)
    requires TransfersSound(s) && WaitsFor(s, a, b) && WaitsFor(s, b, c)
    ensures WaitingOn(s, a) < WaitingOn(s, b)
  {
    var t := s.open[b];
    var k := s.open[a].selected[s.open[a].got];
    assert t.Holding() == t.selected[..t.got];
    var i :| 0 <= i < t.got && t.selected[i] == k;
  }

  lemma {:induction false} ChainClimbs(s: State, txs: seq<string>)
    requires TransfersSound(s) && WaitChain(s, txs) && |txs| >= 3
    ensures WaitsFor(s, txs[0], txs[1]) && WaitsFor(s, txs[|txs| - 2], txs[|txs| - 1])
    ensures WaitingOn(s, txs[0]) < WaitingOn(s, txs[|txs| - 2])
    decreases |txs|
  {
    assert WaitsFor(s, txs[0], txs[0 + 1]) && WaitsFor(s, txs[1], txs[1 + 1]);
    WaitsClimb(s, txs[0], txs[1], txs[2]);
    if |txs| > 3 {
      var rest := txs[1..];
      forall i | 0 <= i < |rest| - 1
        ensures WaitsFor(s, rest[i], rest[i + 1])
      {
        assert WaitsFor(s, txs[i + 1], txs[(i + 1) + 1]);
      }
      ChainClimbs(s, rest);
    }
  }

  /** Deadlock freedom: locking in user order never yields a cyclic wait. */
  lemma {:induction false} NoCyclicWait(rows: Table, ops: seq<Op>, txs: seq<string>)
    requires |txs| >= 1 && WaitChain(After(State(rows, map[]), ops), txs)
    ensures !WaitsFor(After(State(rows, map[]), ops), txs[|txs| - 1], txs[0])
  {
    var s := After(State(rows, map[]), ops);
    AlwaysSound(rows, ops);
    var last, first := txs[|txs| - 1], txs[0];
    if |txs| == 1 {
      NotWaitingForItself(s, first);
    } else {
      assert WaitsFor(s, txs[0], txs[0 + 1]);
      var round := txs + [first, txs[1]];
      if WaitsFor(s, last, first) {
        forall i | 0 <= i < |round| - 1
          ensures WaitsFor(s, round[i], round[i + 1])
        {
        }
        ChainClimbs(s, round);
      }
    }
  }

  lemma {:induction false} NotWaitingForItself(s: State, a: string)
    requires TransfersSound(s)
    ensures !WaitsFor(s, a, a)
  {
    if a in s.open && s.open[a].got < |s.open[a].selected| {
      var t := s.open[a];
      assert t.Holding() == t.selected[..t.got];
      assert forall i :: 0 <= i < t.got ==> t.selected[i].user < t.selected[t.got].user;
    }
  }
}
