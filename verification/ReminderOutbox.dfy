/** The reminder outbox: publishers claim batches of waiting rows under row locks, try
    each message once and commit; a row is retried until it is published or has used up
    its attempts. */
module ReminderOutbox {
  import opened Wrappers

  /** A row's identifier and its place in the database's order of identifiers. */
  datatype ID = ID(order: int)

  datatype Row = Row(enqueuedAt: int, publishedAt: Option<int>, attempts: nat)
  {
    predicate Waiting(max: nat) {
      publishedAt == None && attempts < max
    }

    /** The attempts a row may still use. */
    function Left(max: nat): (n: nat)
      ensures n > 0 <==> Waiting(max)
    {
      if publishedAt == None && attempts < max then max - attempts else 0
    }
  }

  type Table = map<ID, Row>

  /** A claimed row as the publisher read it. */
  datatype Message = Message(id: ID, attempts: nat)

  function EffectiveLimit(limit: int): (n: nat)
    ensures n > 0
  {
    if limit <= 0 then 100 else limit
  }

  function EffectiveMax(maxAttempts: int): (n: nat)
    ensures n > 0
  {
    if maxAttempts <= 0 then 10 else maxAttempts
  }

  // ---- Claiming ----

  predicate Before(rows: Table, a: ID, b: ID)
    requires a in rows && b in rows
  {
    rows[a].enqueuedAt < rows[b].enqueuedAt || (rows[a].enqueuedAt == rows[b].enqueuedAt && a.order < b.order)
  }

  predicate Claimable(rows: Table, locked: set<ID>, max: nat, k: ID) {
    k in rows && rows[k].Waiting(max) && k !in locked
  }

  function ClaimableRows(rows: Table, locked: set<ID>, max: nat): (ks: set<ID>)
    ensures forall k :: k in ks <==> Claimable(rows, locked, max, k)
  {
    set k | k in rows && Claimable(rows, locked, max, k)
  }

  predicate IsOldest(rows: Table, ks: set<ID>, k: ID)
    requires ks <= rows.Keys
  {
    k in ks && forall j :: j in ks && j != k ==> Before(rows, k, j)
  }

  lemma {:induction false} OldestExists(rows: Table, ks: set<ID>)
    requires ks <= rows.Keys && ks != {}
    ensures exists k :: IsOldest(rows, ks, k)
    decreases |ks|
  {
    var x :| x in ks;
    if ks == {x} {
      assert IsOldest(rows, ks, x);
    } else {
      assert ks == (ks - {x}) + {x};
      OldestExists(rows, ks - {x});
      var y :| IsOldest(rows, ks - {x}, y);
      assert IsOldest(rows, ks, if Before(rows, x, y) then x else y);
    }
  }

  /** Oldest first, unlocked, waiting rows, and nothing passed over within the limit. */
  ghost predicate IsClaim(rows: Table, locked: set<ID>, limit: nat, max: nat, ms: seq<Message>) {
    && |ms| <= limit
    && (forall i :: 0 <= i < |ms| ==>
          Claimable(rows, locked, max, ms[i].id) && ms[i].attempts == rows[ms[i].id].attempts)
    && (forall i, j :: 0 <= i < j < |ms| ==> Before(rows, ms[i].id, ms[j].id))
    && (forall k :: Claimable(rows, locked, max, k) ==> Lists(ms, k) || (|ms| == limit && AllBefore(rows, ms, k)))
  }

  predicate Lists(ms: seq<Message>, k: ID) {
    exists i :: 0 <= i < |ms| && ms[i].id == k
  }

  predicate AllBefore(rows: Table, ms: seq<Message>, k: ID)
    requires k in rows && forall i :: 0 <= i < |ms| ==> ms[i].id in rows
  {
    forall i :: 0 <= i < |ms| ==> Before(rows, ms[i].id, k)
  }

  /** The claiming query: rows locked by others are skipped. */
  function Claim(rows: Table, locked: set<ID>, limit: nat, max: nat): (ms: seq<Message>)
    ensures IsClaim(rows, locked, limit, max, ms)
    decreases limit
  {
    var ks := ClaimableRows(rows, locked, max);
    if limit == 0 || ks == {} then []
    else
      OldestExists(rows, ks);
      var k :| k in ks && IsOldest(rows, ks, k);
      var rest := Claim(rows, locked + {k}, limit - 1, max);
      ClaimOneMore(rows, locked, limit, max, ks, k, rest);
      [Message(k, rows[k].attempts)] + rest
  }

  lemma {:induction false} ClaimOneMore(rows: Table, locked: set<ID>, limit: nat, max: nat, ks: set<ID>, k: ID,
                                        rest: seq<Message>)
    requires limit > 0 && ks <= rows.Keys && IsOldest(rows, ks, k)
    requires forall j :: j in ks <==> Claimable(rows, locked, max, j)
    requires IsClaim(rows, locked + {k}, limit - 1, max, rest)
    ensures IsClaim(rows, locked, limit, max, [Message(k, rows[k].attempts)] + rest)
  {
    var ms := [Message(k, rows[k].attempts)] + rest;
    assert forall i :: 0 < i < |ms| ==> ms[i] == rest[i - 1] && ms[i].id in ks && ms[i].id != k;
    forall j | Claimable(rows, locked, max, j)
      ensures Lists(ms, j) || (|ms| == limit && AllBefore(rows, ms, j))
    {
      if j == k {
        assert ms[0].id == j;
      } else {
        assert Claimable(rows, locked + {k}, max, j) && j in ks;
        if i :| 0 <= i < |rest| && rest[i].id == j {
          assert ms[i + 1].id == j;
        }
      }
    }
  }

  // ---- One round ----

  predicate Distinct(ms: seq<Message>) {
    forall i, j :: 0 <= i < j < |ms| ==> ms[i].id != ms[j].id
  }

  predicate Present(rows: Table, ms: seq<Message>) {
    forall i :: 0 <= i < |ms| ==> ms[i].id in rows
  }

  /** One attempt at a row; only an unpublished row is stamped. */
  function Attempted(r: Row, accepted: bool, now: int): (r': Row) {
    if !accepted then r.(attempts := r.attempts + 1)
    else if r.publishedAt == None then r.(publishedAt := Some(now), attempts := r.attempts + 1)
    else r
  }

  /** A row keeps its first stamp. */
  lemma {:induction false} SecondStampChangesNothing(r: Row, now: int, later: int)
    ensures Attempted(Attempted(r, true, now), true, later) == Attempted(r, true, now)
    ensures Attempted(r, true, now).publishedAt == if r.publishedAt.Some? then r.publishedAt else Some(now)
  {
  }

  /** Every claimed row was attempted exactly once and no other row changed. */
  ghost predicate RoundResult(before: Table, ms: seq<Message>, answers: seq<bool>, now: int, after: Table)
    requires |ms| <= |answers|
  {
    && Present(before, ms)
    && after.Keys == before.Keys
    && (forall i :: 0 <= i < |ms| ==> after[ms[i].id] == Attempted(before[ms[i].id], answers[i], now))
    && (forall k :: k in before && !Lists(ms, k) ==> after[k] == before[k])
  }

  datatype Fate = Published | Retry | Dead

  function FateOf(r: Row, max: nat): (f: Fate) {
    if r.publishedAt != None then Published else if r.attempts < max then Retry else Dead
  }

  /** How many of the listed rows have a given fate. */
  ghost function Count(rows: Table, ms: seq<Message>, max: nat, f: Fate): (n: nat)
    requires Present(rows, ms)
  {
    if |ms| == 0 then 0
    else Count(rows, ms[..|ms| - 1], max, f) + if FateOf(rows[ms[|ms| - 1].id], max) == f then 1 else 0
  }

  lemma {:induction false} CountsAddUp(rows: Table, ms: seq<Message>, max: nat)
    requires Present(rows, ms)
    ensures Count(rows, ms, max, Published) + Count(rows, ms, max, Retry) + Count(rows, ms, max, Dead) == |ms|
  {
    if |ms| > 0 {
      CountsAddUp(rows, ms[..|ms| - 1], max);
    }
  }

  lemma {:induction false} CountFrame(rows: Table, rows': Table, ms: seq<Message>, max: nat, f: Fate)
    requires Present(rows, ms) && Present(rows', ms)
    requires forall i :: 0 <= i < |ms| ==> rows[ms[i].id] == rows'[ms[i].id]
    ensures Count(rows, ms, max, f) == Count(rows', ms, max, f)
  {
    if |ms| > 0 {
      CountFrame(rows, rows', ms[..|ms| - 1], max, f);
    }
  }

  datatype Tally = Tally(processed: nat, failed: nat, dead: nat)
  {
    function Total(): (n: nat) { processed + failed + dead }
  }

  /** The counters say what became of the claimed rows. */
  ghost predicate Tallied(rows: Table, ms: seq<Message>, max: nat, t: Tally)
    requires Present(rows, ms)
  {
    && t.processed == Count(rows, ms, max, Published)
    && t.failed == Count(rows, ms, max, Retry)
    && t.dead == Count(rows, ms, max, Dead)
  }

  /** The counters after one more message, from the attempts read at claim time. */
  function Counted(t: Tally, m: Message, accepted: bool, max: nat): (t': Tally) {
    if accepted then t.(processed := t.processed + 1)
    else if m.attempts + 1 >= max then t.(dead := t.dead + 1)
    else t.(failed := t.failed + 1)
  }

  /** The claimed rows are waiting rows, read correctly, each once. */
  ghost predicate WellClaimed(rows: Table, ms: seq<Message>, max: nat) {
    && Present(rows, ms) && Distinct(ms)
    && forall i :: 0 <= i < |ms| ==> rows[ms[i].id].Waiting(max) && ms[i].attempts == rows[ms[i].id].attempts
  }

  lemma {:induction false} TryOne(before: Table, ms: seq<Message>, answers: seq<bool>, now: int, mid: Table, i: nat)
    requires Present(before, ms) && Distinct(ms) && i < |ms| && i < |answers|
    requires RoundResult(before, ms[..i], answers, now, mid)
    ensures mid[ms[i].id] == before[ms[i].id]
    ensures RoundResult(before, ms[..i + 1], answers, now, mid[ms[i].id := Attempted(mid[ms[i].id], answers[i], now)])
  {
    ListsOneMore(ms, i, ms[i].id);
    var after := mid[ms[i].id := Attempted(mid[ms[i].id], answers[i], now)];
    forall j | 0 <= j < i
      ensures after[ms[j].id] == Attempted(before[ms[j].id], answers[j], now)
    {
      assert ms[..i][j] == ms[j];
    }
    forall k | k in before && !Lists(ms[..i + 1], k)
      ensures after[k] == before[k]
    {
      ListsOneMore(ms, i, k);
    }
  }

  lemma {:induction false} ListsOneMore(ms: seq<Message>, i: nat, k: ID)
    requires i < |ms|
    ensures Lists(ms[..i + 1], k) <==> Lists(ms[..i], k) || ms[i].id == k
    ensures Distinct(ms) ==> !Lists(ms[..i], ms[i].id)
  {
    var upto, one := ms[..i], ms[..i + 1];
    assert one[i] == ms[i] && forall j :: 0 <= j < i ==> upto[j] == one[j];
  }

  lemma {:induction false} CountOne(mid: Table, ms: seq<Message>, accepted: bool, now: int, max: nat, t: Tally, i: nat)
    requires Distinct(ms) && i < |ms| && Present(mid, ms)
    requires mid[ms[i].id].Waiting(max) && ms[i].attempts == mid[ms[i].id].attempts
    requires Tallied(mid, ms[..i], max, t)
    ensures var after := mid[ms[i].id := Attempted(mid[ms[i].id], accepted, now)];
      Tallied(after, ms[..i + 1], max, Counted(t, ms[i], accepted, max))
  {
    var after := mid[ms[i].id := Attempted(mid[ms[i].id], accepted, now)];
    assert ms[..i + 1][..i] == ms[..i];
    CountFrame(mid, after, ms[..i], max, Published);
    CountFrame(mid, after, ms[..i], max, Retry);
    CountFrame(mid, after, ms[..i], max, Dead);
  }

  /** A round that has dealt with the first `i` of its messages. */
  ghost predicate RoundUpTo(before: Table, ms: seq<Message>, answers: seq<bool>, now: int, max: nat, i: nat,
                            rows: Table, t: Tally) {
    && WellClaimed(before, ms, max) && i <= |ms| && i <= |answers|
    && RoundResult(before, ms[..i], answers, now, rows)
    && Tallied(rows, ms[..i], max, t)
  }

  lemma {:induction false} RoundStep(before: Table, ms: seq<Message>, answers: seq<bool>, now: int, max: nat, i: nat,
                                     rows: Table, t: Tally)
    requires RoundUpTo(before, ms, answers, now, max, i, rows, t) && i < |ms| && i < |answers|
    ensures ms[i].id in rows
    ensures RoundUpTo(before, ms, answers, now, max, i + 1,
                      rows[ms[i].id := Attempted(rows[ms[i].id], answers[i], now)], Counted(t, ms[i], answers[i], max))
  {
    TryOne(before, ms, answers, now, rows, i);
    CountOne(rows, ms, answers[i], now, max, t, i);
  }

  lemma {:induction false} RoundStarts(before: Table, ms: seq<Message>, answers: seq<bool>, now: int, max: nat)
    requires WellClaimed(before, ms, max)
    ensures RoundUpTo(before, ms, answers, now, max, 0, before, Tally(0, 0, 0))
  {
  }

  lemma {:induction false} RoundEnds(before: Table, ms: seq<Message>, answers: seq<bool>, now: int, max: nat,
                                     rows: Table, t: Tally)
    requires RoundUpTo(before, ms, answers, now, max, |ms|, rows, t)
    ensures RoundResult(before, ms, answers, now, rows) && Tallied(rows, ms, max, t)
  {
    assert ms[..|ms|] == ms;
  }

  lemma {:induction false} ClaimedWell(rows: Table, locked: set<ID>, limit: nat, max: nat)
    ensures WellClaimed(rows, Claim(rows, locked, limit, max), max)
  {
    var ms := Claim(rows, locked, limit, max);
    assert forall i, j :: 0 <= i < j < |ms| ==> Before(rows, ms[i].id, ms[j].id);
  }

  datatype PublishResult = Unavailable | Finished(tally: Tally)

  function Answers(ms: seq<Message>, publish: Message -> bool): (a: seq<bool>) {
    seq(|ms|, i requires 0 <= i < |ms| => publish(ms[i]))
  }

  class Outbox {
    var rows: Table
    const hasPool: bool

    /** One round with nobody else at the table; `publish` is the transport's answer for
        each message, always true when no publisher is configured. */
    method PublishReminderOutbox(limit: int, maxAttempts: int, publish: Message -> bool, now: int)
      returns (r: PublishResult)
      modifies this
      ensures !hasPool ==> r == Unavailable && rows == old(rows)
      ensures hasPool ==>
        var max := EffectiveMax(maxAttempts);
        var ms := Claim(old(rows), {}, EffectiveLimit(limit), max);
        && r.Finished?
        && RoundResult(old(rows), ms, Answers(ms, publish), now, rows)
        && Tallied(rows, ms, max, r.tally)
    {
      if !hasPool {
        return Unavailable;
      }
      var max := EffectiveMax(maxAttempts);
      var messages := Claim(rows, {}, EffectiveLimit(limit), max);
      ClaimedWell(rows, {}, EffectiveLimit(limit), max);
      var tally := PublishAll(messages, publish, max, now);
      r := Finished(tally);
    }

    method PublishAll(messages: seq<Message>, publish: Message -> bool, max: nat, now: int) returns (tally: Tally)
      requires WellClaimed(rows, messages, max)
      modifies this
      ensures RoundResult(old(rows), messages, Answers(messages, publish), now, rows)
      ensures Tallied(rows, messages, max, tally)
    {
      ghost var answers := Answers(messages, publish);
      RoundStarts(rows, messages, answers, now, max);
      var processed, failed, dead := 0, 0, 0;
      for i := 0 to |messages|
        invariant RoundUpTo(old(rows), messages, answers, now, max, i, rows, Tally(processed, failed, dead))
      {
        var msg := messages[i];
        RoundStep(old(rows), messages, answers, now, max, i, rows, Tally(processed, failed, dead));
        if !publish(msg) {
          rows := rows[msg.id := rows[msg.id].(attempts := rows[msg.id].attempts + 1)];
          if msg.attempts + 1 >= max {
            dead := dead + 1;
          } else {
            failed := failed + 1;
          }
        } else {
          StampPublished(msg.id, now);
          processed := processed + 1;
        }
      }
      RoundEnds(old(rows), messages, answers, now, max, rows, Tally(processed, failed, dead));
      tally := Tally(processed, failed, dead);
    }

    method StampPublished(id: ID, now: int)
      requires id in rows
      modifies this
      ensures rows == old(rows)[id := Attempted(old(rows)[id], true, now)]
    {
      if rows[id].publishedAt == None {
        rows := rows[id := rows[id].(publishedAt := Some(now), attempts := rows[id].attempts + 1)];
      }
    }
  }

  // ---- The work that is left ----

  /** The attempts still to be used by unpublished rows, all together. */
  ghost function Remaining(rows: Table, max: nat): (n: nat)
    decreases |rows|
  {
    if rows == map[] then 0
    else
      var k :| k in rows;
      rows[k].Left(max) + Remaining(rows - {k}, max)
  }

  lemma {:induction false} RemainingSplit(rows: Table, max: nat, k: ID)
    requires k in rows
    ensures Remaining(rows, max) == rows[k].Left(max) + Remaining(rows - {k}, max)
    decreases |rows|
  {
    var j :| j in rows && Remaining(rows, max) == rows[j].Left(max) + Remaining(rows - {j}, max);
    if j != k {
      RemainingSplit(rows - {j}, max, k);
      RemainingSplit(rows - {k}, max, j);
      assert rows - {j} - {k} == rows - {k} - {j};
    }
  }

  lemma {:induction false} RemainingAfterWrite(rows: Table, max: nat, k: ID, r: Row)
    ensures Remaining(rows[k := r], max) + (if k in rows then rows[k].Left(max) else 0)
      == Remaining(rows, max) + r.Left(max)
  {
    RemainingSplit(rows[k := r], max, k);
    if k in rows {
      RemainingSplit(rows, max, k);
      assert rows[k := r] - {k} == rows - {k};
    } else {
      assert rows[k := r] - {k} == rows;
    }
  }

  /** Nothing is left exactly when every row is published or dead. */
  lemma {:induction false} DrainedExactly(rows: Table, max: nat)
    ensures Remaining(rows, max) == 0 <==> forall k :: k in rows ==> FateOf(rows[k], max) != Retry
    decreases |rows|
  {
    if rows != map[] {
      var k :| k in rows;
      RemainingSplit(rows, max, k);
      DrainedExactly(rows - {k}, max);
      assert forall j :: j in rows ==> j == k || (j in rows - {k} && (rows - {k})[j] == rows[j]);
      assert forall j :: j in rows - {k} ==> j in rows;
    }
  }

  lemma {:induction false} RoundUsesWork(before: Table, ms: seq<Message>, max: nat, after: Table)
    requires WellClaimed(before, ms, max) && after.Keys == before.Keys
    requires forall i :: 0 <= i < |ms| ==> after[ms[i].id].Left(max) < before[ms[i].id].Left(max)
    requires forall k :: k in before && !Lists(ms, k) ==> after[k] == before[k]
    ensures Remaining(after, max) + |ms| <= Remaining(before, max)
    decreases |ms|
  {
    if |ms| == 0 {
      assert forall k :: k in before ==> !Lists(ms, k);
      assert after == before;
    } else {
      var n := |ms| - 1;
      var k := ms[n].id;
      var mid := after[k := before[k]];
      forall j | j in before && !Lists(ms[..n], j)
        ensures mid[j] == before[j]
      {
        if j != k {
          assert !Lists(ms, j);
        }
      }
      RoundUsesWork(before, ms[..n], max, mid);
      RemainingAfterWrite(after, max, k, before[k]);
    }
  }

  /** A round uses at least one unit of work per claimed row; and unless nothing is
      left to do, a round with no competitors claims something. */
  lemma {:induction false} RoundMakesProgress(before: Table, limit: int, maxAttempts: int, answers: seq<bool>, now: int,
                                              after: Table)
    requires var ms := Claim(before, {}, EffectiveLimit(limit), EffectiveMax(maxAttempts));
      |answers| == |ms| && RoundResult(before, ms, answers, now, after)
    ensures Remaining(before, EffectiveMax(maxAttempts)) > 0 ==>
      Remaining(after, EffectiveMax(maxAttempts)) < Remaining(before, EffectiveMax(maxAttempts))
    ensures Remaining(before, EffectiveMax(maxAttempts)) == 0 ==> after == before
  {
    var max := EffectiveMax(maxAttempts);
    var ms := Claim(before, {}, EffectiveLimit(limit), max);
    ClaimedWell(before, {}, EffectiveLimit(limit), max);
    RoundUsesWork(before, ms, max, after);
    DrainedExactly(before, max);
    if k :| k in before && FateOf(before[k], max) == Retry {
      assert Claimable(before, {}, max, k);
    }
    if |ms| == 0 {
      assert forall k :: k in before ==> !Lists(ms, k);
      assert after == before;
    }
  }

  // ---- What a round does to each row ----

  /** The claim takes waiting, unlocked rows, oldest first and by identifier among equals; a
      row it leaves behind is as young as all of them, and the limit is reached. */
  lemma {:induction false} ClaimTakesOldest(rows: Table, locked: set<ID>, limit: nat, max: nat, i: nat, k: ID)
    requires k in rows && i < |Claim(rows, locked, limit, max)|
    ensures var ms := Claim(rows, locked, limit, max);
      var m := ms[i].id;
      && |ms| <= limit && m in rows && m !in locked
      && rows[m].publishedAt == None && rows[m].attempts < max && ms[i].attempts == rows[m].attempts
      && (forall j :: i < j < |ms| ==>
            && ms[j].id in rows && rows[m].enqueuedAt <= rows[ms[j].id].enqueuedAt
            && (rows[m].enqueuedAt == rows[ms[j].id].enqueuedAt ==> m.order < ms[j].id.order))
      && (k !in locked && rows[k].publishedAt == None && rows[k].attempts < max && !Lists(ms, k) ==>
            && |ms| == limit && rows[m].enqueuedAt <= rows[k].enqueuedAt
            && (rows[m].enqueuedAt == rows[k].enqueuedAt ==> m.order < k.order))
  {
    var ms := Claim(rows, locked, limit, max);
    assert IsClaim(rows, locked, limit, max, ms);
    assert forall j :: i < j < |ms| ==> Before(rows, ms[i].id, ms[j].id);
  }

  /** A whole round: an accepted message is published now, a refused one has an attempt less,
      and is retried or dead by the attempts it has left; other rows stay as they were. */
  lemma {:induction false} RoundExactly(before: Table, limit: int, maxAttempts: int, answers: seq<bool>, now: int,
                                        after: Table, i: nat)
    requires var ms := Claim(before, {}, EffectiveLimit(limit), EffectiveMax(maxAttempts));
      |answers| == |ms| && i < |ms| && RoundResult(before, ms, answers, now, after)
    ensures var max: nat := if maxAttempts <= 0 then 10 else maxAttempts;
      var batch: nat := if limit <= 0 then 100 else limit;
      var ms := Claim(before, {}, batch, max);
      && i < |ms| && ms[i].id in before && ms[i].id in after
      && var was, left := before[ms[i].id], after[ms[i].id];
      && left == Row(was.enqueuedAt, if answers[i] then Some(now) else None, was.attempts + 1)
      && (FateOf(left, max) == Published <==> answers[i])
      && (FateOf(left, max) == Dead <==> !answers[i] && was.attempts + 1 >= max)
      && (FateOf(left, max) == Retry <==> !answers[i] && was.attempts + 1 < max)
  {
    ClaimedWell(before, {}, EffectiveLimit(limit), EffectiveMax(maxAttempts));
  }

  /** How many messages were accepted. */
  function Accepted(answers: seq<bool>): (n: nat) {
    if |answers| == 0 then 0
    else Accepted(answers[..|answers| - 1]) + if answers[|answers| - 1] then 1 else 0
  }

  lemma {:induction false} PublishedCount(before: Table, ms: seq<Message>, answers: seq<bool>, now: int, max: nat,
                                          after: Table, n: nat)
    requires WellClaimed(before, ms, max) && |answers| == |ms| && n <= |ms|
    requires RoundResult(before, ms, answers, now, after) && Present(after, ms)
    ensures Count(after, ms[..n], max, Published) == Accepted(answers[..n])
  {
    if n > 0 {
      PublishedCount(before, ms, answers, now, max, after, n - 1);
      assert ms[..n][..n - 1] == ms[..n - 1] && answers[..n][..n - 1] == answers[..n - 1];
    }
  }

  /** The first counter is the number of accepted messages, the others share the refused. */
  lemma {:induction false} TallyCountsAnswers(before: Table, ms: seq<Message>, answers: seq<bool>, now: int, max: nat,
                                              after: Table, t: Tally)
    requires WellClaimed(before, ms, max) && |answers| == |ms|
    requires RoundResult(before, ms, answers, now, after) && Tallied(after, ms, max, t)
    ensures t.processed == Accepted(answers) && t.failed + t.dead == |ms| - Accepted(answers)
  {
    PublishedCount(before, ms, answers, now, max, after, |ms|);
    CountsAddUp(after, ms, max);
    assert ms[..|ms|] == ms && answers[..|answers|] == answers;
  }
}
