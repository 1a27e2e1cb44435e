/** The life of a call: guarded status updates, and the one statement that ends a call,
    disconnects whoever is still live and retires the call's start event. */
module CallLifecycle {
  import opened Wrappers

  type ID = string

  datatype CallStatus = Ringing | Active | Ended

  datatype ParticipantStatus = Invited | Waiting | Joining | Connected | Disconnected | Declined

  datatype Call = Call(status: CallStatus, startedAt: Option<int>, endedAt: Option<int>, endReason: Option<string>)

  datatype Participant = Participant(
    callID: ID,
    status: ParticipantStatus,
    leftAt: Option<int>,
    leftReason: Option<string>)

  /** A durable realtime event; `callID` is the call ID found in its body, as text. */
  datatype RealtimeEvent = RealtimeEvent(kind: string, replayable: bool, callID: Option<ID>)

  datatype State = State(
    calls: map<ID, Call>,
    participants: map<ID, Participant>,
    events: map<ID, RealtimeEvent>)

  datatype Op =
    | Activate(id: ID, now: int)
    | End(id: ID, now: int, reason: string)
    | Cancel(id: ID, now: int, reason: string)

  datatype Outcome = Changed | Unchanged | NotFound

  function Coalesce<T>(a: Option<T>, b: Option<T>): (r: Option<T>)
    ensures a.Some? ==> r == a
    ensures a.None? ==> r == b
  {
    if a.Some? then a else b
  }

  function Nullable(s: string): (r: Option<string>) {
    if s == "" then None else Some(s)
  }

  predicate StillLive(p: Participant) {
    p.status == Joining || p.status == Connected || p.status == Waiting
  }

  function Disconnect(p: Participant, now: int, reason: string): (r: Participant) {
    Participant(p.callID, Disconnected, Coalesce(p.leftAt, Some(now)), Coalesce(p.leftReason, Some(reason)))
  }

  predicate Announces(e: RealtimeEvent, id: ID) {
    e.kind == "call.started" && e.replayable && e.callID == Some(id)
  }

  /** The ending statement once its guard has let the call through. */
  function EndedState(s: State, id: ID, now: int, reason: string, leftReason: string): (r: State)
    requires id in s.calls
  {
    var c := s.calls[id];
    State(
      s.calls[id := Call(Ended, c.startedAt, Coalesce(c.endedAt, Some(now)), Coalesce(c.endReason, Nullable(reason)))],
      map p | p in s.participants ::
        if s.participants[p].callID == id && StillLive(s.participants[p])
        then Disconnect(s.participants[p], now, leftReason) else s.participants[p],
      map e | e in s.events ::
        if Announces(s.events[e], id) then s.events[e].(replayable := false) else s.events[e])
  }

  /** The statement's guard holds: it reports a change. */
  predicate Fires(s: State, op: Op) {
    op.id in s.calls &&
    match op
    case Activate(id, _) => s.calls[id].status == Ringing
    case End(id, _, _) => s.calls[id].status != Ended
    case Cancel(id, _, _) => s.calls[id].status == Ringing
  }

  function Next(s: State, op: Op): (r: State) {
    if !Fires(s, op) then s
    else match op
      case Activate(id, now) => s.(calls := s.calls[id := s.calls[id].(status := Active, startedAt := Some(now))])
      case End(id, now, reason) => EndedState(s, id, now, reason, "timeout")
      case Cancel(id, now, reason) => EndedState(s, id, now, reason, "missed")
  }

  function OutcomeOf(s: State, op: Op): (r: Outcome) {
    if Fires(s, op) then Changed else if op.id in s.calls then Unchanged else NotFound
  }

  class CallStore {
    var calls: map<ID, Call>
    var participants: map<ID, Participant>
    var events: map<ID, RealtimeEvent>

    ghost function View(): (s: State)
      reads this
    {
      State(calls, participants, events)
    }

    method ActivateRinging(id: ID, now: int) returns (r: Outcome)
      modifies this
      ensures View() == Next(old(View()), Activate(id, now)) && r == OutcomeOf(old(View()), Activate(id, now))
    {
      if id in calls && calls[id].status == Ringing {
        calls := calls[id := calls[id].(status := Active, startedAt := Some(now))];
        return Changed;
      }
      r := if id in calls then Unchanged else NotFound;
    }

    /** The three writes of the ending statement. */
    method EndAndDisconnect(id: ID, now: int, reason: string, leftReason: string)
      requires id in calls
      modifies this
      ensures View() == EndedState(old(View()), id, now, reason, leftReason)
    {
      var c := calls[id];
      calls := calls[id := Call(Ended, c.startedAt,
                                Coalesce(c.endedAt, Some(now)), Coalesce(c.endReason, Nullable(reason)))];
      participants := map p | p in participants ::
        if participants[p].callID == id && StillLive(participants[p])
        then Disconnect(participants[p], now, leftReason) else participants[p];
      events := map e | e in events :: if Announces(events[e], id) then events[e].(replayable := false) else events[e];
    }

    method EndWithReasonIfNotEnded(id: ID, now: int, reason: string) returns (r: Outcome)
      modifies this
      ensures View() == Next(old(View()), End(id, now, reason)) && r == OutcomeOf(old(View()), End(id, now, reason))
    {
      if id in calls && calls[id].status != Ended {
        EndAndDisconnect(id, now, reason, "timeout");
        return Changed;
      }
      r := if id in calls then Unchanged else NotFound;
    }

    method CancelRingingWithReason(id: ID, now: int, reason: string) returns (r: Outcome)
      modifies this
      ensures View() == Next(old(View()), Cancel(id, now, reason))
      ensures r == OutcomeOf(old(View()), Cancel(id, now, reason))
    {
      if id in calls && calls[id].status == Ringing {
        EndAndDisconnect(id, now, reason, "missed");
        return Changed;
      }
      r := if id in calls then Unchanged else NotFound;
    }
  }

  // ---- Runs ----

  function After(s: State, ops: seq<Op>): (r: State) {
    if |ops| == 0 then s else Next(After(s, ops[..|ops| - 1]), ops[|ops| - 1])
  }

  /** The i-th step of the run ended the call. */
  predicate EndsAt(s: State, ops: seq<Op>, i: nat, id: ID)
    requires i < |ops|
  {
    ops[i].id == id && !ops[i].Activate? && Fires(After(s, ops[..i]), ops[i])
  }

  function StatusRank(c: CallStatus): (r: nat) {
    match c
    case Ringing => 0
    case Active => 1
    case Ended => 2
  }

  /** Calls are neither created nor removed, and an ended call's row is frozen. */
  lemma {:induction false} StepMovesForward(s: State, op: Op, id: ID)
    ensures Next(s, op).calls.Keys == s.calls.Keys
    ensures id in s.calls ==>
      && StatusRank(s.calls[id].status) <= StatusRank(Next(s, op).calls[id].status)
      && (s.calls[id].status == Ended ==> Next(s, op).calls[id] == s.calls[id])
      && (Next(s, op).calls[id].status == Ended && s.calls[id].status != Ended ==>
            op.id == id && !op.Activate? && Fires(s, op))
  {
  }

  /** Over any run a call's status only moves ringing, active, ended; once ended, its
      end time and reason (its whole row) never change again. */
  lemma {:induction false} LifecycleMovesForward(s: State, ops: seq<Op>, id: ID, i: nat)
    requires id in s.calls && i <= |ops|
    ensures id in After(s, ops[..i]).calls && id in After(s, ops).calls
    ensures StatusRank(After(s, ops[..i]).calls[id].status) <= StatusRank(After(s, ops).calls[id].status)
    ensures After(s, ops[..i]).calls[id].status == Ended ==> After(s, ops).calls[id] == After(s, ops[..i]).calls[id]
    decreases |ops|
  {
    if i == |ops| {
      assert ops[..i] == ops;
      if i > 0 {
        LifecycleMovesForward(s, ops[..i - 1], id, 0);
        StepMovesForward(After(s, ops[..i - 1]), ops[i - 1], id);
      }
    } else {
      var init := ops[..|ops| - 1];
      assert init[..i] == ops[..i];
      LifecycleMovesForward(s, init, id, i);
      StepMovesForward(After(s, init), ops[|ops| - 1], id);
    }
  }

  lemma {:induction false} EndingEnds(s: State, op: Op)
    requires !op.Activate? && Fires(s, op)
    ensures Next(s, op).calls[op.id].status == Ended
  {
  }

  /** At most one end or cancel of a call reports a change in any run. */
  lemma {:induction false} EndsOnlyOnce(s: State, ops: seq<Op>, id: ID, i: nat, j: nat)
    requires id in s.calls && i < j < |ops| && EndsAt(s, ops, i, id)
    ensures !EndsAt(s, ops, j, id)
  {
    var upto := ops[..j];
    assert upto[..i] == ops[..i] && ops[..i + 1][..i] == ops[..i] && upto[..i + 1] == ops[..i + 1];
    EndingEnds(After(s, ops[..i]), ops[i]);
    LifecycleMovesForward(s, upto, id, i + 1);
  }

  /** A call that was not ended and now is was ended by exactly one step. */
  lemma {:induction false} EndedBySomeStep(s: State, ops: seq<Op>, id: ID) returns (i: nat)
    requires id in s.calls && s.calls[id].status != Ended
    requires id in After(s, ops).calls && After(s, ops).calls[id].status == Ended
    ensures i < |ops| && EndsAt(s, ops, i, id)
    decreases |ops|
  {
    var init := ops[..|ops| - 1];
    LifecycleMovesForward(s, init, id, 0);
    StepMovesForward(After(s, init), ops[|ops| - 1], id);
    if After(s, init).calls[id].status == Ended {
      i := EndedBySomeStep(s, init, id);
      assert init[..i] == ops[..i];
    } else {
      i := |ops| - 1;
    }
  }

  /** The call is ended, now and for the reason given unless an earlier end time or reason is
      there; an empty reason is none. No other call changed. */
  ghost predicate CleanCall(s: State, op: Op, s': State)
    requires !op.Activate?
  {
    && s'.calls.Keys == s.calls.Keys
    && op.id in s.calls && s'.calls[op.id].status == Ended
    && s'.calls[op.id].startedAt == s.calls[op.id].startedAt
    && s'.calls[op.id].endedAt == Some(if s.calls[op.id].endedAt.Some? then s.calls[op.id].endedAt.value else op.now)
    && s'.calls[op.id].endReason ==
      (if s.calls[op.id].endReason.Some? then s.calls[op.id].endReason
       else if op.reason == "" then None else Some(op.reason))
    && (forall c :: c in s.calls && c != op.id ==> s'.calls[c] == s.calls[c])
  }

  /** Everyone who was joining, connected or waiting in the call is disconnected, now and as
      timed out or missed unless an earlier time or reason is there; no other participant
      changed, and nobody of the call is live. */
  ghost predicate CleanParticipants(s: State, op: Op, s': State)
    requires !op.Activate?
  {
    && s'.participants.Keys == s.participants.Keys
    && (forall p :: p in s.participants ==>
          var was, left := s.participants[p], s'.participants[p];
          if was.callID == op.id && was.status in {Joining, Connected, Waiting} then
            && left.callID == op.id && left.status == Disconnected
            && left.leftAt == Some(if was.leftAt.Some? then was.leftAt.value else op.now)
            && left.leftReason == Some(if was.leftReason.Some? then was.leftReason.value
                                     else if op.End? then "timeout" else "missed")
          else left == was)
    && (forall p :: p in s'.participants && s'.participants[p].callID == op.id ==> !StillLive(s'.participants[p]))
  }

  /** The call's start events are retired; no other event changed. */
  ghost predicate CleanEvents(s: State, op: Op, s': State) {
    && s'.events.Keys == s.events.Keys
    && (forall e :: e in s.events ==>
          var was := s.events[e];
          s'.events[e] ==
          was.(replayable := was.replayable && !(was.kind == "call.started" && was.callID == Some(op.id))))
    && (forall e :: e in s'.events ==> !Announces(s'.events[e], op.id))
  }

  ghost predicate CleanEnd(s: State, op: Op, s': State)
    requires !op.Activate?
  {
    CleanCall(s, op, s') && CleanParticipants(s, op, s') && CleanEvents(s, op, s')
  }

  lemma {:induction false} ParticipantsEndClean(s: State, op: Op)
    requires !op.Activate? && Fires(s, op)
    ensures CleanParticipants(s, op, Next(s, op))
  {
    var s' := Next(s, op);
    forall p | p in s.participants
      ensures s'.participants[p].callID == op.id ==> !StillLive(s'.participants[p])
    {
      assert s'.participants[p] == s.participants[p]
        || s'.participants[p] == Disconnect(s.participants[p], op.now, if op.End? then "timeout" else "missed");
    }
  }

  lemma {:induction false} EventsEndClean(s: State, op: Op)
    requires !op.Activate? && Fires(s, op)
    ensures CleanEvents(s, op, Next(s, op))
  {
  }

  lemma {:induction false} EndIsClean(s: State, op: Op)
    requires !op.Activate? && Fires(s, op)
    ensures CleanEnd(s, op, Next(s, op))
  {
    ParticipantsEndClean(s, op);
    EventsEndClean(s, op);
  }

  // ---- What is answered and what changes ----

  /** An end goes through exactly for a call that has not ended, a cancel or activation for a
      ringing one; an unknown call is reported as such, and nothing else is touched. */
  lemma {:induction false} AnsweredExactly(s: State, op: Op)
    ensures OutcomeOf(s, op) == Changed <==>
      op.id in s.calls && if op.End? then s.calls[op.id].status != Ended else s.calls[op.id].status == Ringing
    ensures OutcomeOf(s, op) == NotFound <==> op.id !in s.calls
    ensures OutcomeOf(s, op) != Changed ==> Next(s, op) == s
    ensures OutcomeOf(s, op) == Changed ==>
      Next(s, op).calls[op.id].status == if op.Activate? then Active else Ended
    ensures OutcomeOf(s, op) == Changed && op.Activate? ==>
      var c := s.calls[op.id];
      Next(s, op) == s.(calls := s.calls[op.id := Call(Active, Some(op.now), c.endedAt, c.endReason)])
  {
  }

  /** A call that rang and is active was activated, and it started at that activation. */
  lemma {:induction false} ActivatedBySomeStep(s: State, ops: seq<Op>, id: ID) returns (i: nat)
    requires id in s.calls && s.calls[id].status == Ringing
    requires id in After(s, ops).calls && After(s, ops).calls[id].status == Active
    ensures i < |ops| && ops[i].Activate? && ops[i].id == id && OutcomeOf(After(s, ops[..i]), ops[i]) == Changed
    ensures After(s, ops).calls[id].startedAt == Some(ops[i].now)
    decreases |ops|
  {
    var init, last := ops[..|ops| - 1], ops[|ops| - 1];
    LifecycleMovesForward(s, init, id, 0);
    if After(s, init).calls[id].status == Active {
      i := ActivatedBySomeStep(s, init, id);
      assert init[..i] == ops[..i];
    } else {
      i := |ops| - 1;
    }
  }

  /** Nobody of the call is live and no event announces it. */
  ghost predicate Quiet(s: State, id: ID) {
    && (forall p :: p in s.participants && s.participants[p].callID == id ==> !StillLive(s.participants[p]))
    && (forall e :: e in s.events ==> !Announces(s.events[e], id))
  }

  lemma {:induction false} QuietStays(s: State, op: Op, id: ID)
    requires Quiet(s, id)
    ensures Quiet(Next(s, op), id)
  {
    var s' := Next(s, op);
    forall p | p in s'.participants && s'.participants[p].callID == id
      ensures !StillLive(s'.participants[p])
    {
      assert p in s.participants && s.participants[p].callID == id;
    }
  }

  lemma {:induction false} QuietToTheEnd(s: State, ops: seq<Op>, id: ID, n: nat)
    requires n <= |ops| && Quiet(After(s, ops[..n]), id)
    ensures Quiet(After(s, ops), id)
    decreases |ops|
  {
    if n == |ops| {
      assert ops[..n] == ops;
    } else {
      var init := ops[..|ops| - 1];
      assert init[..n] == ops[..n];
      QuietToTheEnd(s, init, id, n);
      QuietStays(After(s, init), ops[|ops| - 1], id);
    }
  }

  /** Call end is final and clean: the step that ended the call was clean, every other
      end or cancel of it in the run reports no change, the row it left is final, and at
      the end of the run nobody of the call is live and nothing announces it. */
  lemma {:induction false} EndIsFinalAndClean(s: State, ops: seq<Op>, id: ID, i: nat)
    requires id in s.calls && i < |ops| && EndsAt(s, ops, i, id)
    ensures CleanEnd(After(s, ops[..i]), ops[i], After(s, ops[..i + 1]))
    ensures forall j :: 0 <= j < |ops| && j != i ==> !EndsAt(s, ops, j, id)
    ensures id in After(s, ops).calls && id in After(s, ops[..i + 1]).calls
      && After(s, ops).calls[id] == After(s, ops[..i + 1]).calls[id]
    ensures Quiet(After(s, ops), id)
  {
    assert ops[..i + 1][..i] == ops[..i];
    EndIsClean(After(s, ops[..i]), ops[i]);
    LifecycleMovesForward(s, ops, id, i + 1);
    QuietToTheEnd(s, ops, id, i + 1);
    forall j | 0 <= j < |ops| && j != i
      ensures !EndsAt(s, ops, j, id)
    {
      if j > i {
        EndsOnlyOnce(s, ops, id, i, j);
      } else if EndsAt(s, ops, j, id) {
        EndsOnlyOnce(s, ops, id, j, i);
      }
    }
  }
}
