/** Discovery of due reminders: each poll looks at a window of occurrences around now
    and inserts a dispatch row for what has come due. Times are in nanoseconds. */
module ReminderDiscovery {
  import opened Wrappers

  const SECOND := 1_000_000_000
  const MINUTE := 60 * SECOND

  /** How far back a poll looks. */
  const WINDOW := 30 * SECOND

  /** A recurrence rule is the instants it generates; an empty rule string counts as none. */
  datatype Recurrence = NoRule | EmptyRule | Rule(generates: int -> bool, exdates: seq<int>)

  datatype Event = Event(scheduledAt: int, durationMinutes: nat, recurrence: Recurrence)

  datatype Reminder = Reminder(id: string, event: Event, offsetMinutes: nat)
  {
    function FireAt(occurrence: int): (t: int) {
      occurrence - offsetMinutes * MINUTE
    }
  }

  /** When the event takes place; a rule generates nothing before its start. */
  predicate OccursAt(e: Event, x: int) {
    if e.recurrence.Rule? then e.recurrence.generates(x) && x >= e.scheduledAt && x !in e.recurrence.exdates
    else x == e.scheduledAt
  }

  datatype DispatchKey = DispatchKey(reminder: string, occurrence: int)

  /** Dispatch rows with the time they were sent, if any. */
  type Dispatches = map<DispatchKey, Option<int>>

  // ---- One poll ----

  /** The query's condition on the event row. */
  predicate Candidate(e: Event, from: int, to: int) {
    e.scheduledAt <= to && (e.recurrence != NoRule || e.scheduledAt >= from)
  }

  /** The occurrences the expansion returns for a window. */
  predicate Expanded(e: Event, x: int, from: int, to: int) {
    && OccursAt(e, x)
    && (if e.recurrence.Rule? then from <= x <= to
        else x <= to && x + e.durationMinutes * MINUTE >= from)
  }

  predicate Discovered(r: Reminder, x: int, now: int, horizon: int) {
    && Candidate(r.event, now - WINDOW, now + horizon)
    && Expanded(r.event, x, now - WINDOW, now + horizon)
    && r.FireAt(x) <= now
  }

  ghost predicate Finds(reminders: seq<Reminder>, k: DispatchKey, now: int, horizon: int) {
    exists i :: 0 <= i < |reminders| && reminders[i].id == k.reminder
                && Discovered(reminders[i], k.occurrence, now, horizon)
  }

  /** What a poll leaves in the table: every row there was, untouched, and one unsent
      row for each discovered occurrence. */
  ghost predicate Polled(before: Dispatches, reminders: seq<Reminder>, now: int, horizon: int, after: Dispatches) {
    && (forall k :: k in after <==> k in before || Finds(reminders, k, now, horizon))
    && (forall k :: k in after ==> after[k] == if k in before then before[k] else None)
  }

  /** Rule instants between two times, less the excluded dates. */
  method Expand(rule: Recurrence, between: seq<int>) returns (xs: seq<int>)
    requires rule.Rule?
    ensures forall x :: x in xs <==> x in between && x !in rule.exdates
  {
    xs := [];
    for i := 0 to |between|
      invariant forall x :: x in xs <==> x in between[..i] && x !in rule.exdates
    {
      if between[i] !in rule.exdates {
        xs := xs + [between[i]];
      }
    }
    assert between[..|between|] == between;
  }

  /** The event's occurrences in a window; `between` is the rule library's answer. */
  method ExpandOccurrences(e: Event, from: int, to: int, between: seq<int>) returns (xs: seq<int>)
    requires e.recurrence.Rule? ==>
      forall x :: x in between <==> e.recurrence.generates(x) && x >= e.scheduledAt && from <= x <= to
    ensures forall x :: x in xs <==> Expanded(e, x, from, to)
  {
    if !e.recurrence.Rule? {
      var endAt := e.scheduledAt + e.durationMinutes * MINUTE;
      if e.scheduledAt > to || endAt < from {
        return [];
      }
      return [e.scheduledAt];
    }
    xs := Expand(e.recurrence, between);
  }

  class DispatchTable {
    var rows: Dispatches

    constructor ()
      ensures rows == map[]
    {
      rows := map[];
    }

    /** Insert the due occurrences of one reminder. */
    method InsertDue(r: Reminder, occurrences: seq<int>, now: int)
      modifies this
      ensures forall k :: k in rows <==>
        || k in old(rows)
        || (k.reminder == r.id && k.occurrence in occurrences
            && k.occurrence - r.offsetMinutes * 60_000_000_000 <= now)
      ensures forall k :: k in rows ==> rows[k] == if k in old(rows) then old(rows)[k] else None
    {
      for j := 0 to |occurrences|
        invariant forall k :: k in rows <==>
          k in old(rows) || (k.reminder == r.id && k.occurrence in occurrences[..j] && r.FireAt(k.occurrence) <= now)
        invariant forall k :: k in rows ==> rows[k] == if k in old(rows) then old(rows)[k] else None
      {
        var x := occurrences[j];
        if r.FireAt(x) <= now {
          var key := DispatchKey(r.id, x);
          if key !in rows {
            rows := rows[key := None];
          }
        }
      }
      assert occurrences[..|occurrences|] == occurrences;
    }

    /** One poll over the reminders of all events; `between` holds the rule library's
        answers for the poll's window. */
    method Discover(reminders: seq<Reminder>, between: seq<seq<int>>, now: int, horizon: int)
      requires |between| == |reminders|
      requires forall i :: 0 <= i < |reminders| && reminders[i].event.recurrence.Rule? ==>
        forall x :: x in between[i] <==>
          && reminders[i].event.recurrence.generates(x)
          && x >= reminders[i].event.scheduledAt && now - WINDOW <= x <= now + horizon
      modifies this
      ensures Polled(old(rows), reminders, now, horizon, rows)
    {
      for i := 0 to |reminders|
        invariant Polled(old(rows), reminders[..i], now, horizon, rows)
      {
        var r := reminders[i];
        ghost var mid := rows;
        if r.event.scheduledAt <= now + horizon
           && (!r.event.recurrence.NoRule? || r.event.scheduledAt >= now - WINDOW) {
          var occurrences := ExpandOccurrences(r.event, now - WINDOW, now + horizon, between[i]);
          InsertDue(r, occurrences, now);
        }
        PolledOneMore(old(rows), reminders, i, now, horizon, mid, rows);
      }
      assert reminders[..|reminders|] == reminders;
    }

    /** Sending marks the row once and never removes it. */
    method MarkDispatched(reminder: string, occurrence: int, at: int)
      modifies this
      ensures rows.Keys == old(rows).Keys
      ensures forall k :: k in rows ==>
        rows[k] == (if k == DispatchKey(reminder, occurrence) && old(rows)[k] == None then Some(at) else old(rows)[k])
    {
      var key := DispatchKey(reminder, occurrence);
      if key in rows && rows[key] == None {
        rows := rows[key := Some(at)];
      }
    }
  }

  lemma {:induction false} PolledOneMore(before: Dispatches, reminders: seq<Reminder>, i: nat, now: int, horizon: int,
                                         mid: Dispatches, after: Dispatches)
    requires i < |reminders| && Polled(before, reminders[..i], now, horizon, mid)
    requires forall k :: k in after <==>
      k in mid || (k.reminder == reminders[i].id && Discovered(reminders[i], k.occurrence, now, horizon))
    requires forall k :: k in after ==> after[k] == if k in mid then mid[k] else None
    ensures Polled(before, reminders[..i + 1], now, horizon, after)
  {
    forall k
      ensures k in after <==> k in before || Finds(reminders[..i + 1], k, now, horizon)
    {
      FindsOneMore(reminders, i, k, now, horizon);
    }
  }

  lemma {:induction false} FindsOneMore(reminders: seq<Reminder>, i: nat, k: DispatchKey, now: int, horizon: int)
    requires i < |reminders|
    ensures Finds(reminders[..i + 1], k, now, horizon) <==>
      Finds(reminders[..i], k, now, horizon)
      || (k.reminder == reminders[i].id && Discovered(reminders[i], k.occurrence, now, horizon))
  {
    var upto, one := reminders[..i], reminders[..i + 1];
    assert one[i] == reminders[i];
    assert forall j :: 0 <= j < i ==> one[j] == upto[j];
  }

  // ---- Whole runs of polls ----

  /** One poll as it happened: its time, the reminders it saw, the table around it. */
  datatype Poll = Poll(now: int, reminders: seq<Reminder>, before: Dispatches, after: Dispatches)

  /** A run of polls during which reminder `r` exists unchanged: between polls anything
      else may happen, but nobody removes or adds rows of this reminder. */
  ghost predicate PollRun(polls: seq<Poll>, r: Reminder, horizon: int) {
    && (forall i :: 0 <= i < |polls| ==>
          && Polled(polls[i].before, polls[i].reminders, polls[i].now, horizon, polls[i].after)
          && r in polls[i].reminders
          && (forall q :: q in polls[i].reminders && q.id == r.id ==> q == r))
    && (forall i :: 0 < i < |polls| ==>
          && polls[i - 1].now <= polls[i].now
          && forall x :: DispatchKey(r.id, x) in polls[i].before <==> DispatchKey(r.id, x) in polls[i - 1].after)
  }

  /** A poll discovers exactly the event's own instants, from the reminder's fire time, or
      from the moment they enter the horizon if that is later, until the window has passed
      them; an event with an empty rule is found until the window has passed its end. */
  lemma {:induction false} DiscoveredExactly(r: Reminder, x: int, now: int, horizon: int)
    ensures var e := r.event;
      Discovered(r, x, now, horizon) <==>
        && (if e.recurrence.Rule? then e.recurrence.generates(x) && x >= e.scheduledAt && x !in e.recurrence.exdates
            else x == e.scheduledAt)
        && now >= x - r.offsetMinutes * 60_000_000_000 && now >= x - horizon
        && now <= x + 30_000_000_000
                    + if e.recurrence == EmptyRule then e.durationMinutes * 60_000_000_000 else 0
  {
    assert r.event.durationMinutes * MINUTE >= 0;
  }

  /** One poll: an occurrence of an unchanged reminder has its row afterwards if and only if
      it had one or this poll is in its time span; every earlier row stays as it was and a
      new one is unsent. */
  lemma {:induction false} PollDispatchesExactly(p: Poll, r: Reminder, x: int, horizon: int)
    requires Polled(p.before, p.reminders, p.now, horizon, p.after)
    requires r in p.reminders && forall q :: q in p.reminders && q.id == r.id ==> q == r
    requires OccursAt(r.event, x)
    ensures var k := DispatchKey(r.id, x);
      && (k in p.after <==>
            || k in p.before
            || (p.now >= x - r.offsetMinutes * 60_000_000_000 && p.now >= x - horizon && p.now <= LastChance(r, x)))
      && (k in p.after ==> p.after[k] == if k in p.before then p.before[k] else None)
  {
    PollEffect(p, r, x, horizon);
    DiscoveredExactly(r, x, p.now, horizon);
  }

  /** The last instant at which a poll still looks back far enough. */
  function LastChance(r: Reminder, x: int): (t: int)
    ensures t >= x + 30_000_000_000
    ensures r.event.recurrence != EmptyRule ==> t == x + 30_000_000_000
  {
    assert r.event.durationMinutes * MINUTE >= 0;
    x + WINDOW + if r.event.recurrence == EmptyRule then r.event.durationMinutes * MINUTE else 0
  }

  lemma {:induction false} PollEffect(p: Poll, r: Reminder, x: int, horizon: int)
    requires Polled(p.before, p.reminders, p.now, horizon, p.after)
    requires r in p.reminders && forall q :: q in p.reminders && q.id == r.id ==> q == r
    ensures DispatchKey(r.id, x) in p.after <==>
      DispatchKey(r.id, x) in p.before || Discovered(r, x, p.now, horizon)
  {
    var k := DispatchKey(r.id, x);
    var j :| 0 <= j < |p.reminders| && p.reminders[j] == r;
    if k in p.after && k !in p.before {
      var i :| 0 <= i < |p.reminders| && p.reminders[i].id == k.reminder
               && Discovered(p.reminders[i], k.occurrence, p.now, horizon);
      assert p.reminders[i] in p.reminders;
    }
  }

  /** What any run of polls does, whatever the gaps: an occurrence has its dispatch row
      after exactly those polls that are, or come after, a poll in its time span. */
  lemma {:induction false} DispatchedExactly(polls: seq<Poll>, r: Reminder, x: int, horizon: int, i: nat)
    requires PollRun(polls, r, horizon) && i < |polls|
    requires OccursAt(r.event, x) && DispatchKey(r.id, x) !in polls[0].before
    ensures DispatchKey(r.id, x) in polls[i].after <==>
      exists j :: 0 <= j <= i
        && polls[j].now >= x - r.offsetMinutes * 60_000_000_000 && polls[j].now >= x - horizon
        && polls[j].now <= LastChance(r, x)
    decreases i
  {
    PollDispatchesExactly(polls[i], r, x, horizon);
    if i > 0 {
      DispatchedExactly(polls, r, x, horizon, i - 1);
    }
  }

  /** Coverage: with polls at most the window apart, or one tick more, every occurrence
      that comes due after the first poll has its dispatch row after exactly those polls
      that are at or past its due time. It is inserted at the first such poll and never
      earlier. It comes due at its fire time, or when it enters the horizon. */
  lemma {:induction false} EveryDueReminderIsDispatched(polls: seq<Poll>, r: Reminder, x: int, horizon: int, i: nat)
    requires PollRun(polls, r, horizon) && i < |polls| && horizon >= 0
    requires forall j :: 0 < j < |polls| ==> polls[j].now - polls[j - 1].now <= 30_000_000_001
    requires OccursAt(r.event, x) && DispatchKey(r.id, x) !in polls[0].before
    requires polls[0].now < x - r.offsetMinutes * 60_000_000_000 || polls[0].now < x - horizon
    ensures DispatchKey(r.id, x) in polls[i].after <==>
      polls[i].now >= x - r.offsetMinutes * 60_000_000_000 && polls[i].now >= x - horizon
    decreases i
  {
    PollDispatchesExactly(polls[i], r, x, horizon);
    assert r.offsetMinutes * 60_000_000_000 >= 0;
    if i > 0 {
      EveryDueReminderIsDispatched(polls, r, x, horizon, i - 1);
    }
  }

  /** For an offset within the horizon: the row is there exactly from the first poll that is
      that many minutes, or fewer, before the occurrence. */
  lemma {:induction false} DispatchedMinutesBefore(polls: seq<Poll>, r: Reminder, x: int, horizon: int, i: nat)
    requires PollRun(polls, r, horizon) && i < |polls|
    requires forall j :: 0 < j < |polls| ==> polls[j].now - polls[j - 1].now <= 30_000_000_001
    requires OccursAt(r.event, x) && DispatchKey(r.id, x) !in polls[0].before
    requires r.offsetMinutes * 60_000_000_000 <= horizon && polls[0].now < x - r.offsetMinutes * 60_000_000_000
    ensures DispatchKey(r.id, x) in polls[i].after <==> polls[i].now >= x - r.offsetMinutes * 60_000_000_000
  {
    assert r.offsetMinutes * 60_000_000_000 >= 0;
    EveryDueReminderIsDispatched(polls, r, x, horizon, i);
  }

  /** The window is exactly wide enough: a wider gap between two polls loses a one-off
      reminder that fires just after the first, at the second and at every later poll. */
  lemma {:induction false} WiderGapLosesReminder(id: string, first: int, second: int, horizon: int, later: int)
    requires second - first > 30_000_000_001 && horizon >= 0 && later >= second
    ensures var r := Reminder(id, Event(first + 1, 0, NoRule), 0);
      && OccursAt(r.event, first + 1)
      && !Discovered(r, first + 1, first, horizon)
      && !Discovered(r, first + 1, later, horizon)
  {
  }
}
