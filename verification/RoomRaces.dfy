/** Publishing a track takes the room's lock twice, once for the policy check and once to
    store the router. Here the two are separate steps, with anything in between, and the
    theorems say what is left of the cap on what one presenter may publish. */
module RoomRaces {
  import opened Lists
  import opened Quality
  import opened RoomState
  import opened RoomProofs
  import opened RoomLayers
  import opened RoomWitness

  /** A track that has passed the check and is not stored yet. */
  datatype Ticket = Ticket(user: string, id: string)

  datatype Race = Race(room: State, waiting: multiset<Ticket>)

  datatype Move =
    | Check(user: string, id: string)
    | Store(user: string, id: string)
    | Drop(user: string, id: string)
    | Whole(op: Op)

  /** The room's other operations are one step each. A track whose router cannot be made is
      dropped, and so is one that finds the room closed. */
  ghost predicate Moves(m: Race, move: Move, m': Race) {
    match move
    case Check(u, id) =>
      m' == if CanPublish(m.room, u, id) then m.(waiting := m.waiting + multiset{Ticket(u, id)}) else m
    case Store(u, id) =>
      && Ticket(u, id) in m.waiting
      && m' == Race(if m.room.closed then m.room else TrackPublished(m.room, u, id),
                    m.waiting - multiset{Ticket(u, id)})
    case Drop(u, id) => Ticket(u, id) in m.waiting && m' == m.(waiting := m.waiting - multiset{Ticket(u, id)})
    case Whole(op) => !op.PublishTrack? && Step(m.room, op, m'.room) && m'.waiting == m.waiting
  }

  ghost predicate RaceRun(limits: Limits, ms: seq<Race>, moves: seq<Move>) {
    && |ms| == |moves| + 1
    && ms[0] == Race(NewRoom(limits), multiset{})
    && forall i :: 0 <= i < |moves| ==> Moves(ms[i], moves[i], ms[i + 1])
  }

  /** With nothing in between, the check and the store are the room's one publishing step. */
  lemma {:induction false} UndisturbedPublishIsOneStep(m: Race, user: string, id: string, checked: Race)
    requires Moves(m, Check(user, id), checked)
    ensures checked == m ==> Step(m.room, PublishTrack(user, id), m.room)
    ensures checked != m ==> exists end: Race ::
      && Moves(checked, Store(user, id), end) && end.waiting == m.waiting
      && Step(m.room, PublishTrack(user, id), end.room)
  {
    if checked != m {
      var room := if m.room.closed then m.room else TrackPublished(m.room, user, id);
      assert checked.waiting - multiset{Ticket(user, id)} == m.waiting;
      assert Moves(checked, Store(user, id), Race(room, m.waiting));
    }
  }

  function WaitingIDs(m: Race, user: string): (ids: set<string>) {
    set t | t in m.waiting && t.user == user :: t.id
  }

  /** What a user owns and what it may still store. */
  function Booked(m: Race, user: string): (n: nat) {
    |OwnedTracks(m.room, user) + WaitingIDs(m, user)| + |OwnedStreams(m.room, user)|
  }

  /** At most `slack` tracks of a local user are waiting when it begins another track or stream. */
  predicate OverlapsAtMost(m: Race, move: Move, locals: iset<string>, slack: nat) {
    match move
    case Check(u, _) => u in locals ==> |WaitingIDs(m, u)| <= slack
    case Whole(PublishLayer(u, _, _)) => u in locals ==> |WaitingIDs(m, u)| <= slack
    case _ => true
  }

  /** What the cap needs without any race: no relay of a local source, no ID reused. */
  predicate Plain(m: Race, move: Move, locals: iset<string>) {
    match move
    case Check(u, id) => !ReusesOwnID(m.room, PublishTrack(u, id))
    case Whole(op) => NoLocalRelay(op, locals) && !ReusesOwnID(m.room, op)
    case _ => true
  }

  ghost predicate BookedWithin(m: Race, locals: iset<string>, slack: nat) {
    && m.room.limits.maxTracks > 0
    && forall u :: u in locals ==> Booked(m, u) <= m.room.limits.maxTracks + slack
  }

  lemma {:induction false} UnionSize(a: set<string>, b: set<string>)
    ensures |a + b| <= |a| + |b|
    ensures |a| <= |a + b|
  {
    SubsetSize(a, a + b);
  }

  // ---- One move ----

  lemma {:induction false} WaitingAfterCheck(m: Race, user: string, id: string, u: string)
    ensures WaitingIDs(m.(waiting := m.waiting + multiset{Ticket(user, id)}), u)
      == WaitingIDs(m, u) + (if u == user then {id} else {})
  {
    var m' := m.(waiting := m.waiting + multiset{Ticket(user, id)});
    assert forall t :: t in m'.waiting <==> t in m.waiting || t == Ticket(user, id);
  }

  lemma {:induction false} WaitingAfterTake(m: Race, m': Race, user: string, id: string, u: string)
    requires Ticket(user, id) in m.waiting && m'.waiting == m.waiting - multiset{Ticket(user, id)}
    ensures WaitingIDs(m', u) <= WaitingIDs(m, u)
    ensures u == user ==> id in WaitingIDs(m, u)
  {
    assert Ticket(user, id) in m.waiting;
  }

  lemma {:induction false} OneMoreWaiting(owned: set<string>, waiting: set<string>, id: string)
    ensures id in owned ==> |owned + (waiting + {id})| == |owned + waiting|
    ensures |owned + (waiting + {id})| <= |owned| + |waiting| + 1
  {
    if id in owned {
      assert owned + (waiting + {id}) == owned + waiting;
    }
    UnionSize(owned, waiting + {id});
    UnionSize(waiting, {id});
  }

  lemma {:induction false} CheckBooks(m: Race, user: string, id: string, m': Race, slack: nat)
    requires Moves(m, Check(user, id), m') && !ReusesOwnID(m.room, PublishTrack(user, id))
    requires m.room.limits.maxTracks > 0 && |WaitingIDs(m, user)| <= slack
    requires Booked(m, user) <= m.room.limits.maxTracks + slack
    ensures Booked(m', user) <= m.room.limits.maxTracks + slack
  {
    if m' != m {
      WaitingAfterCheck(m, user, id, user);
      OneMoreWaiting(OwnedTracks(m.room, user), WaitingIDs(m, user), id);
    }
  }

  lemma {:induction false} StreamBooks(m: Race, user: string, id: string, q: QualityLayer, m': Race)
    requires m'.waiting == m.waiting
    requires m'.room == if id in m.room.streams then LayerAdded(m.room, id, q) else StreamPublished(m.room, user, id, q)
    ensures Booked(m', user) <= Booked(m, user) + if id in m.room.streams then 0 else 1
  {
    assert WaitingIDs(m', user) == WaitingIDs(m, user);
    if id in m.room.streams {
      CountOfLayer(m.room, id, q, user);
    } else {
      CountOfStream(m.room, user, id, q, user);
      SubsetSize(OwnedStreams(m'.room, user), OwnedStreams(m.room, user) + {id});
    }
  }

  lemma {:induction false} LayerBooks(m: Race, user: string, id: string, rid: string, m': Race, slack: nat)
    requires Moves(m, Whole(PublishLayer(user, id, rid)), m')
    requires !ReusesOwnID(m.room, PublishLayer(user, id, rid))
    requires m.room.limits.maxTracks > 0 && |WaitingIDs(m, user)| <= slack
    requires Booked(m, user) <= m.room.limits.maxTracks + slack
    ensures Booked(m', user) <= m.room.limits.maxTracks + slack
  {
    if m' != m {
      StreamBooks(m, user, id, LayerFromRID(rid), m');
      UnionSize(OwnedTracks(m.room, user), WaitingIDs(m, user));
    }
  }

  /** Storing or dropping a track books nothing new, for anybody. */
  lemma {:induction false} TakeBooksNothing(m: Race, move: Move, m': Race, u: string)
    requires Moves(m, move, m') && (move.Store? || move.Drop?)
    ensures Booked(m', u) <= Booked(m, u)
  {
    WaitingAfterTake(m, m', move.user, move.id, u);
    if m'.room != m.room {
      CountOfTrack(m.room, move.user, move.id, u);
    }
    SubsetSize(OwnedTracks(m'.room, u) + WaitingIDs(m', u), OwnedTracks(m.room, u) + WaitingIDs(m, u));
  }

  lemma {:induction false} OwnersOfOthers(s: State, op: Op, s': State, u: string)
    requires Step(s, op, s') && !op.PublishTrack? && !IsSource(op, u)
    ensures OwnedTracks(s', u) <= OwnedTracks(s, u) && OwnedStreams(s', u) <= OwnedStreams(s, u)
  {
    match op
    case PublishLayer(v, id, rid) => OwnersOfStreamStep(s, v, id, LayerFromRID(rid), u);
    case InjectTrack(v, id) => CountOfTrack(s, v, id, u);
    case InjectLayer(v, id, layer) => OwnersOfStreamStep(s, v, id, layer, u);
    case _ => SameOrFewer(s, op, s', u);
  }

  lemma {:induction false} OwnersOfStreamStep(s: State, source: string, id: string, q: QualityLayer, u: string)
    requires u != source
    ensures var s' := if id in s.streams then LayerAdded(s, id, q) else StreamPublished(s, source, id, q);
      OwnedTracks(s', u) <= OwnedTracks(s, u) && OwnedStreams(s', u) <= OwnedStreams(s, u)
  {
    if id in s.streams {
      CountOfLayer(s, id, q, u);
    } else {
      CountOfStream(s, source, id, q, u);
    }
  }

  lemma {:induction false} OthersBookNothing(m: Race, op: Op, m': Race, u: string)
    requires Moves(m, Whole(op), m') && !IsSource(op, u)
    ensures Booked(m', u) <= Booked(m, u)
  {
    OwnersOfOthers(m.room, op, m'.room, u);
    assert WaitingIDs(m', u) == WaitingIDs(m, u);
    SubsetSize(OwnedTracks(m'.room, u) + WaitingIDs(m', u), OwnedTracks(m.room, u) + WaitingIDs(m, u));
    SubsetSize(OwnedStreams(m'.room, u), OwnedStreams(m.room, u));
  }

  lemma {:induction false} BookingOfUser(m: Race, move: Move, m': Race, u: string, locals: iset<string>, slack: nat)
    requires BookedWithin(m, locals, slack) && Moves(m, move, m') && u in locals
    requires Plain(m, move, locals) && OverlapsAtMost(m, move, locals, slack)
    ensures Booked(m', u) <= m.room.limits.maxTracks + slack
  {
    match move
    case Check(v, id) =>
      if v == u {
        CheckBooks(m, u, id, m', slack);
      } else {
        WaitingAfterCheck(m, v, id, u);
      }
    case Store(_, _) => TakeBooksNothing(m, move, m', u);
    case Drop(_, _) => TakeBooksNothing(m, move, m', u);
    case Whole(op) =>
      if IsSource(op, u) {
        LayerBooks(m, u, op.id, op.rid, m', slack);
      } else {
        OthersBookNothing(m, op, m', u);
      }
  }

  // ---- Whole runs ----

  lemma {:induction false} BookedOverRuns(
    limits: Limits, ms: seq<Race>, moves: seq<Move>, locals: iset<string>, slack: nat, i: nat)
    requires RaceRun(limits, ms, moves) && i < |ms|
    requires forall k :: 0 <= k < |moves| ==>
      Plain(ms[k], moves[k], locals) && OverlapsAtMost(ms[k], moves[k], locals, slack)
    ensures BookedWithin(ms[i], locals, slack)
    decreases i
  {
    if i == 0 {
      NothingBookedYet(ms[0], limits, locals, slack);
    } else {
      BookedOverRuns(limits, ms, moves, locals, slack, i - 1);
      var m, move, m' := ms[i - 1], moves[i - 1], ms[i];
      forall u | u in locals
        ensures Booked(m', u) <= m.room.limits.maxTracks + slack
      {
        BookingOfUser(m, move, m', u, locals, slack);
      }
      if move.Whole? {
        LimitsKept(m.room, move.op, m'.room);
      }
    }
  }

  lemma {:induction false} NothingBookedYet(m: Race, limits: Limits, locals: iset<string>, slack: nat)
    requires m == Race(NewRoom(limits), multiset{})
    ensures BookedWithin(m, locals, slack)
  {
    forall u
      ensures Booked(m, u) == 0
    {
      assert OwnedTracks(m.room, u) == {} && OwnedStreams(m.room, u) == {} && WaitingIDs(m, u) == {};
    }
  }

  /** The race costs at most what overlaps: if a local user never begins a track or stream
      while more than `slack` of its tracks wait to be stored, it never owns more than
      `slack` above the limit. Without overlap, `slack == 0`, the limit holds. */
  lemma {:induction false} OverlapBoundsExcess(
    limits: Limits, ms: seq<Race>, moves: seq<Move>, locals: iset<string>, slack: nat, i: nat, u: string)
    requires RaceRun(limits, ms, moves) && i < |ms| && u in locals
    requires forall k :: 0 <= k < |moves| ==>
      Plain(ms[k], moves[k], locals) && OverlapsAtMost(ms[k], moves[k], locals, slack)
    ensures PublisherCount(ms[i].room, u) <= ms[i].room.limits.maxTracks + slack
  {
    BookedOverRuns(limits, ms, moves, locals, slack, i);
    UnionSize(OwnedTracks(ms[i].room, u), WaitingIDs(ms[i], u));
  }

  // ---- The bound is reached ----

  /** The first `stored` of the user's tracks are stored, those up to `checked` wait. */
  ghost predicate Progress(m: Race, user: string, ids: seq<string>, stored: nat, checked: nat) {
    && stored <= checked <= |ids| && !m.room.closed && m.room.streams == map[]
    && OwnedTracks(m.room, user) == Elements(ids[..stored])
    && forall t :: m.waiting[t] == if t.user == user && t.id in ids[stored..checked] then 1 else 0
  }

  lemma {:induction false} ProgressCounts(m: Race, user: string, ids: seq<string>, stored: nat, checked: nat)
    requires NoDuplicates(ids) && Progress(m, user, ids, stored, checked)
    ensures PublisherCount(m.room, user) == stored && |WaitingIDs(m, user)| == checked - stored
    ensures OwnedStreams(m.room, user) == {}
  {
    ElementsSize(ids[..stored]);
    ElementsSize(ids[stored..checked]);
    assert OwnedStreams(m.room, user) == {};
    forall id
      ensures id in WaitingIDs(m, user) <==> id in ids[stored..checked]
    {
      assert m.waiting[Ticket(user, id)] == if id in ids[stored..checked] then 1 else 0;
    }
    assert WaitingIDs(m, user) == Elements(ids[stored..checked]);
  }

  lemma {:induction false} CheckProgress(m: Race, user: string, ids: seq<string>, stored: nat, checked: nat)
    returns (m': Race)
    requires NoDuplicates(ids) && Progress(m, user, ids, stored, checked) && checked < |ids|
    requires stored < m.room.limits.maxTracks
    ensures Moves(m, Check(user, ids[checked]), m') && m'.room == m.room
    ensures Progress(m', user, ids, stored, checked + 1)
  {
    ProgressCounts(m, user, ids, stored, checked);
    var ticket := Ticket(user, ids[checked]);
    m' := m.(waiting := m.waiting + multiset{ticket});
    assert ids[stored..checked + 1] == ids[stored..checked] + [ids[checked]];
    assert ids[checked] !in ids[stored..checked];
  }

  lemma {:induction false} StoredOneMore(s: State, user: string, ids: seq<string>, stored: nat)
    requires stored < |ids| && OwnedTracks(s, user) == Elements(ids[..stored])
    ensures OwnedTracks(TrackPublished(s, user, ids[stored]), user) == Elements(ids[..stored + 1])
  {
    assert ids[..stored + 1] == ids[..stored] + [ids[stored]];
    assert OwnedTracks(TrackPublished(s, user, ids[stored]), user) == OwnedTracks(s, user) + {ids[stored]};
  }

  lemma {:induction false} StoreProgress(m: Race, user: string, ids: seq<string>, stored: nat, checked: nat)
    returns (m': Race)
    requires NoDuplicates(ids) && Progress(m, user, ids, stored, checked) && stored < checked
    ensures Moves(m, Store(user, ids[stored]), m') && m'.room.limits == m.room.limits
    ensures Progress(m', user, ids, stored + 1, checked)
  {
    var ticket := Ticket(user, ids[stored]);
    m' := Race(TrackPublished(m.room, user, ids[stored]), m.waiting - multiset{ticket});
    StoredOneMore(m.room, user, ids, stored);
    assert ids[stored..checked] == [ids[stored]] + ids[stored + 1..checked];
    assert ids[stored] !in ids[stored + 1..checked];
    assert m.waiting[ticket] == 1;
  }

  ghost predicate OverlappingRun(limits: Limits, user: string, slack: nat, ms: seq<Race>, moves: seq<Move>) {
    && RaceRun(limits, ms, moves)
    && forall k :: 0 <= k < |moves| ==>
      Plain(ms[k], moves[k], iset{user}) && OverlapsAtMost(ms[k], moves[k], iset{user}, slack)
  }

  /** A run that got this far. */
  ghost predicate Reaches(limits: Limits, user: string, ids: seq<string>, slack: nat, ms: seq<Race>,
                          moves: seq<Move>, stored: nat, checked: nat)
  {
    && OverlappingRun(limits, user, slack, ms, moves)
    && Progress(ms[|moves|], user, ids, stored, checked)
    && ms[|moves|].room.limits == limits.WithDefaults()
  }

  lemma {:induction false} LongerRun(limits: Limits, user: string, slack: nat, ms: seq<Race>, moves: seq<Move>,
                                     move: Move, m': Race)
    requires OverlappingRun(limits, user, slack, ms, moves) && Moves(ms[|moves|], move, m')
    requires Plain(ms[|moves|], move, iset{user}) && OverlapsAtMost(ms[|moves|], move, iset{user}, slack)
    ensures OverlappingRun(limits, user, slack, ms + [m'], moves + [move])
  {
  }

  lemma {:induction false} RaceStart(limits: Limits, user: string, ids: seq<string>, slack: nat)
    returns (ms: seq<Race>, moves: seq<Move>)
    ensures Reaches(limits, user, ids, slack, ms, moves, 0, 0)
  {
    var room := NewRoom(limits);
    JoinsSilentRoom(room, user);
    var joined := room.(presenters := room.presenters[user := Peer(Presenter, map[])]);
    ms, moves := [Race(room, multiset{}), Race(joined, multiset{})], [Whole(AddPresenter(user))];
    assert OwnedTracks(joined, user) == {} == Elements(ids[..0]);
  }

  lemma {:induction false} OneMoreCheck(limits: Limits, user: string, ids: seq<string>, slack: nat, ms: seq<Race>,
                                        moves: seq<Move>, stored: nat, checked: nat)
    returns (ms': seq<Race>, moves': seq<Move>)
    requires NoDuplicates(ids) && Reaches(limits, user, ids, slack, ms, moves, stored, checked)
    requires checked < |ids| && stored < limits.WithDefaults().maxTracks && checked - stored <= slack
    ensures Reaches(limits, user, ids, slack, ms', moves', stored, checked + 1)
  {
    var m, move := ms[|moves|], Check(user, ids[checked]);
    var m' := CheckProgress(m, user, ids, stored, checked);
    ProgressCounts(m, user, ids, stored, checked);
    LongerRun(limits, user, slack, ms, moves, move, m');
    ms', moves' := ms + [m'], moves + [move];
    assert ms'[|moves'|] == m';
  }

  lemma {:induction false} OneMoreStore(limits: Limits, user: string, ids: seq<string>, slack: nat, ms: seq<Race>,
                                        moves: seq<Move>, stored: nat, checked: nat)
    returns (ms': seq<Race>, moves': seq<Move>)
    requires NoDuplicates(ids) && Reaches(limits, user, ids, slack, ms, moves, stored, checked) && stored < checked
    ensures Reaches(limits, user, ids, slack, ms', moves', stored + 1, checked)
  {
    var m, move := ms[|moves|], Store(user, ids[stored]);
    var m' := StoreProgress(m, user, ids, stored, checked);
    LongerRun(limits, user, slack, ms, moves, move, m');
    ms', moves' := ms + [m'], moves + [move];
    assert ms'[|moves'|] == m';
  }

  /** First one track at a time. */
  lemma {:induction false} OneAtATime(limits: Limits, user: string, ids: seq<string>, slack: nat, stored: nat)
    returns (ms: seq<Race>, moves: seq<Move>)
    requires NoDuplicates(ids) && stored <= |ids| && stored < limits.WithDefaults().maxTracks
    ensures Reaches(limits, user, ids, slack, ms, moves, stored, stored)
  {
    if stored == 0 {
      ms, moves := RaceStart(limits, user, ids, slack);
    } else {
      ms, moves := OneAtATime(limits, user, ids, slack, stored - 1);
      ms, moves := OneMoreCheck(limits, user, ids, slack, ms, moves, stored - 1, stored - 1);
      ms, moves := OneMoreStore(limits, user, ids, slack, ms, moves, stored - 1, stored);
    }
  }

  /** Then, one below the limit, as many checks as may overlap. */
  lemma {:induction false} ThenChecks(limits: Limits, user: string, ids: seq<string>, slack: nat, stored: nat,
                                      checked: nat)
    returns (ms: seq<Race>, moves: seq<Move>)
    requires NoDuplicates(ids) && stored == limits.WithDefaults().maxTracks - 1
    requires stored <= checked <= |ids| && checked - stored <= slack + 1
    ensures Reaches(limits, user, ids, slack, ms, moves, stored, checked)
    decreases checked
  {
    if checked == stored {
      ms, moves := OneAtATime(limits, user, ids, slack, stored);
    } else {
      ms, moves := ThenChecks(limits, user, ids, slack, stored, checked - 1);
      ms, moves := OneMoreCheck(limits, user, ids, slack, ms, moves, stored, checked - 1);
    }
  }

  /** Then everything is stored. */
  lemma {:induction false} ThenStores(limits: Limits, user: string, ids: seq<string>, slack: nat, stored: nat)
    returns (ms: seq<Race>, moves: seq<Move>)
    requires NoDuplicates(ids) && |ids| == limits.WithDefaults().maxTracks + slack
    requires limits.WithDefaults().maxTracks - 1 <= stored <= |ids|
    ensures Reaches(limits, user, ids, slack, ms, moves, stored, |ids|)
    decreases stored
  {
    if stored == limits.WithDefaults().maxTracks - 1 {
      ms, moves := ThenChecks(limits, user, ids, slack, stored, |ids|);
    } else {
      ms, moves := ThenStores(limits, user, ids, slack, stored - 1);
      ms, moves := OneMoreStore(limits, user, ids, slack, ms, moves, stored - 1, |ids|);
    }
  }

  /** No smaller bound holds: for any limit and any overlap there is a run that ends exactly
      that far above the limit, with nothing relayed and no ID used twice. */
  lemma {:induction false} ExcessIsReached(limits: Limits, user: string, ids: seq<string>, slack: nat)
    returns (ms: seq<Race>, moves: seq<Move>)
    requires NoDuplicates(ids) && |ids| == limits.WithDefaults().maxTracks + slack
    ensures RaceRun(limits, ms, moves)
    ensures forall k :: 0 <= k < |moves| ==>
      Plain(ms[k], moves[k], iset{user}) && OverlapsAtMost(ms[k], moves[k], iset{user}, slack)
    ensures PublisherCount(ms[|moves|].room, user) == limits.WithDefaults().maxTracks + slack
  {
    ms, moves := ThenStores(limits, user, ids, slack, |ids|);
    ProgressCounts(ms[|moves|], user, ids, |ids|, |ids|);
  }
}
