/** Short runs that reach the failures the guards of the run theorems keep out. */
module RoomWitness {
  import opened Quality
  import opened RoomState
  import opened RoomProofs
  import opened RoomLayers
  import opened RoomSenders

  // ---- Reaching a room with two people and nothing published ----

  /** Joining a room in which nothing is published. */
  lemma {:induction false} JoinsSilentRoom(s: State, user: string)
    requires s.tracks == map[] && s.streams == map[]
    ensures Admits(s, user, Viewer) ==>
      Step(s, AddViewer(user), s.(viewers := s.viewers[user := Peer(Viewer, map[])])) && KeepsIDs(s, AddViewer(user))
    ensures Admits(s, user, Presenter) ==>
      && Step(s, AddPresenter(user), s.(presenters := s.presenters[user := Peer(Presenter, map[])]))
      && KeepsIDs(s, AddPresenter(user))
  {
    assert Receivable(s, user, Viewer) == {} && Receivable(s, user, Presenter) == {};
    assert TracksWith(s.tracks, user, Viewer) == map[] && TracksWith(s.tracks, user, Presenter) == map[];
  }

  /** A room with one viewer and one presenter and nothing published. */
  function SilentRoom(limits: Limits, viewer: string, presenter: string): (s: State) {
    NewRoom(limits).(viewers := map[viewer := Peer(Viewer, map[])],
                     presenters := map[presenter := Peer(Presenter, map[])])
  }

  lemma {:induction false} SilentRoomReached(limits: Limits, viewer: string, presenter: string)
    requires viewer != presenter
    ensures var s := SilentRoom(limits, viewer, presenter);
      var waiting := s.(presenters := map[]);
      && Step(NewRoom(limits), AddViewer(viewer), waiting) && KeepsIDs(NewRoom(limits), AddViewer(viewer))
      && Step(waiting, AddPresenter(presenter), s) && KeepsIDs(waiting, AddPresenter(presenter))
  {
    JoinsSilentRoom(NewRoom(limits), viewer);
    JoinsSilentRoom(SilentRoom(limits, viewer, presenter).(presenters := map[]), presenter);
  }

  lemma {:induction false} FourSteps(limits: Limits, s0: State, s1: State, s2: State, s3: State, s4: State, a: Op,
                                     b: Op, c: Op, d: Op)
    returns (ss: seq<State>, ops: seq<Op>)
    requires s0 == NewRoom(limits) && Step(s0, a, s1) && Step(s1, b, s2) && Step(s2, c, s3) && Step(s3, d, s4)
    ensures ss == [s0, s1, s2, s3, s4] && ops == [a, b, c, d] && Run(limits, ss, ops)
    ensures KeepsIDs(s0, a) && KeepsIDs(s1, b) && KeepsIDs(s2, c) && KeepsIDs(s3, d) ==> KeepIDs(ss, ops)
  {
    ss, ops := [s0, s1, s2, s3, s4], [a, b, c, d];
    assert ss[0] == s0 && ss[1] == s1 && ss[2] == s2 && ss[3] == s3 && ss[4] == s4;
    FourSteppedRun(limits, ss, ops);
    FourKeepIDs(s0, s1, s2, s3, s4, a, b, c, d);
  }

  lemma {:induction false} FourSteppedRun(limits: Limits, ss: seq<State>, ops: seq<Op>)
    requires |ss| == 5 && |ops| == 4 && ss[0] == NewRoom(limits)
    requires Step(ss[0], ops[0], ss[1]) && Step(ss[1], ops[1], ss[2]) && Step(ss[2], ops[2], ss[3])
    requires Step(ss[3], ops[3], ss[4])
    ensures Run(limits, ss, ops)
  {
    forall i | 0 <= i < 4
      ensures Step(ss[i], ops[i], ss[i + 1])
    {
      assert i == 0 || i == 1 || i == 2 || i == 3;
    }
  }

  lemma {:induction false} FourKeepIDs(s0: State, s1: State, s2: State, s3: State, s4: State, a: Op, b: Op, c: Op,
                                       d: Op)
    ensures KeepsIDs(s0, a) && KeepsIDs(s1, b) && KeepsIDs(s2, c) && KeepsIDs(s3, d) ==>
      KeepIDs([s0, s1, s2, s3, s4], [a, b, c, d])
  {
    var ss, ops := [s0, s1, s2, s3, s4], [a, b, c, d];
    if KeepsIDs(s0, a) && KeepsIDs(s1, b) && KeepsIDs(s2, c) && KeepsIDs(s3, d) {
      forall i | 0 <= i < 4
        ensures KeepsIDs(ss[i], ops[i])
      {
        assert i == 0 || i == 1 || i == 2 || i == 3;
      }
    }
  }

  predicate KeepIDs(ss: seq<State>, ops: seq<Op>) {
    |ops| <= |ss| && forall k :: 0 <= k < |ops| ==> KeepsIDs(ss[k], ops[k])
  }

  lemma {:induction false} NothingOwned(s: State, user: string)
    requires s.tracks == map[] && s.streams == map[]
    ensures PublisherCount(s, user) == 0
  {
    assert OwnedTracks(s, user) == {} && OwnedStreams(s, user) == {};
  }

  // ---- Single steps ----

  lemma {:induction false} NewStreamStep(s: State, user: string, id: string, rid: string)
    requires !s.closed && id !in s.tracks && id !in s.streams && CanPublish(s, user, id)
    ensures Step(s, PublishLayer(user, id, rid), StreamPublished(s, user, id, LayerFromRID(rid)))
    ensures KeepsIDs(s, PublishLayer(user, id, rid))
  {
  }

  lemma {:induction false} NextLayerStep(s: State, user: string, id: string, rid: string)
    requires !s.closed && id !in s.tracks && id in s.streams
    ensures Step(s, PublishLayer(user, id, rid), LayerAdded(s, id, LayerFromRID(rid)))
    ensures KeepsIDs(s, PublishLayer(user, id, rid))
  {
  }

  lemma {:induction false} TrackStep(s: State, user: string, id: string)
    requires !s.closed && CanPublish(s, user, id)
    ensures Step(s, PublishTrack(user, id), TrackPublished(s, user, id))
  {
  }

  lemma {:induction false} RelayStep(s: State, source: string, id: string)
    requires id !in s.tracks && id !in s.streams
    ensures Step(s, InjectTrack(source, id), TrackPublished(s, source, id)) && KeepsIDs(s, InjectTrack(source, id))
  {
  }

  // ---- Layers ----

  /** Two RIDs that are both unrecognised count as full resolution: publishing one after
      the other leaves every viewer on the first one's local track. */
  lemma {:induction false} SameLayerTwice(s: State, user: string, id: string, viewer: string)
    requires !s.closed && viewer in s.viewers && id !in s.tracks && id !in s.streams && CanPublish(s, user, id)
    ensures var first := StreamPublished(s, user, id, High);
      var second := LayerAdded(first, id, High);
      && Step(s, PublishLayer(user, id, "a"), first) && KeepsIDs(s, PublishLayer(user, id, "a"))
      && Step(first, PublishLayer(user, id, "b"), second) && KeepsIDs(first, PublishLayer(user, id, "b"))
      && !LayersAgree(second)
  {
    NewStreamStep(s, user, id, "a");
    NextLayerStep(StreamPublished(s, user, id, High), user, id, "b");
    ViewerMissesLayer(s, user, id, viewer);
  }

  lemma {:induction false} ViewerMissesLayer(s: State, user: string, id: string, viewer: string)
    requires viewer in s.viewers
    ensures !LayersAgree(LayerAdded(StreamPublished(s, user, id, High), id, High))
  {
    var first := StreamPublished(s, user, id, High);
    var second := LayerAdded(first, id, High);
    assert second.viewers == first.viewers && first.viewers[viewer].subs[id] == s.next;
    assert second.streams[id].layers[High] == s.next + 1 && second.streams[id].subscribers[viewer] == High;
    assert !Agrees(second.streams[id], id, viewer, second.viewers[viewer].subs);
  }

  /** So there is a run in which every RID is added once and which still ends with a
      record that does not match its sender. */
  lemma {:induction false} DistinctRIDsCanShareALayer(limits: Limits, viewer: string, presenter: string, id: string)
    returns (ss: seq<State>, ops: seq<Op>)
    requires viewer != presenter
    ensures Run(limits, ss, ops) && KeepIDs(ss, ops)
    ensures ops == [AddViewer(viewer), AddPresenter(presenter),
                    PublishLayer(presenter, id, "a"), PublishLayer(presenter, id, "b")]
    ensures !LayersAgree(ss[4])
  {
    var s2 := SilentRoom(limits, viewer, presenter);
    var s3 := StreamPublished(s2, presenter, id, High);
    SilentRoomReached(limits, viewer, presenter);
    NothingOwned(s2, presenter);
    SameLayerTwice(s2, presenter, id, viewer);
    ss, ops := FourSteps(limits, NewRoom(limits), s2.(presenters := map[]), s2, s3, LayerAdded(s3, id, High),
                         AddViewer(viewer), AddPresenter(presenter),
                         PublishLayer(presenter, id, "a"), PublishLayer(presenter, id, "b"));
  }

  // ---- Republishing ----

  lemma {:induction false} PublishedOnce(s: State, user: string, id: string)
    requires !s.closed && s.tracks == map[] && s.streams == map[] && s.limits.maxTracks > 0
    ensures Step(s, PublishTrack(user, id), TrackPublished(s, user, id)) && KeepsIDs(s, PublishTrack(user, id))
  {
    NothingOwned(s, user);
  }

  lemma {:induction false} OwnTrackAgain(s: State, user: string, id: string)
    requires !s.closed && id in s.tracks && s.tracks[id].source == user && id !in s.streams
    ensures Step(s, PublishTrack(user, id), TrackPublished(s, user, id)) && KeepsIDs(s, PublishTrack(user, id))
  {
  }

  lemma {:induction false} TrackTwice(s: State, viewer: string, user: string, id: string)
    requires !s.closed && id !in s.streams && viewer in s.viewers && s.presenters.Keys !! s.viewers.Keys
    ensures var s1 := TrackPublished(s, user, id);
      && Step(s1, PublishTrack(user, id), TrackPublished(s1, user, id)) && KeepsIDs(s1, PublishTrack(user, id))
      && !TracksAgree(TrackPublished(s1, user, id))
  {
    var s1 := TrackPublished(s, user, id);
    OwnTrackAgain(s1, user, id);
    HolderIsStranded(s1, user, id, viewer);
  }

  /** A presenter that publishes its own track a second time strands the viewer on the
      router that is replaced. */
  lemma {:induction false} RepublishingStrandsViewer(limits: Limits, viewer: string, presenter: string, id: string)
    returns (ss: seq<State>, ops: seq<Op>)
    requires viewer != presenter
    ensures Run(limits, ss, ops) && KeepIDs(ss, ops)
    ensures ops == [AddViewer(viewer), AddPresenter(presenter),
                    PublishTrack(presenter, id), PublishTrack(presenter, id)]
    ensures !TracksAgree(ss[4])
  {
    var s2 := SilentRoom(limits, viewer, presenter);
    var s3 := TrackPublished(s2, presenter, id);
    SilentRoomReached(limits, viewer, presenter);
    PublishedOnce(s2, presenter, id);
    TrackTwice(s2, viewer, presenter, id);
    ss, ops := FourSteps(limits, NewRoom(limits), s2.(presenters := map[]), s2, s3, TrackPublished(s3, presenter, id),
                         AddViewer(viewer), AddPresenter(presenter),
                         PublishTrack(presenter, id), PublishTrack(presenter, id));
  }

  /** A room with two presenters and nothing published. */
  function TwoPresenters(limits: Limits, a: string, b: string): (s: State) {
    NewRoom(limits).(presenters := map[a := Peer(Presenter, map[]), b := Peer(Presenter, map[])])
  }

  lemma {:induction false} TwoPresentersReached(limits: Limits, a: string, b: string)
    requires a != b && limits.WithDefaults().maxPresenters >= 2
    ensures var s1 := NewRoom(limits).(presenters := map[a := Peer(Presenter, map[])]);
      && Step(NewRoom(limits), AddPresenter(a), s1)
      && Step(s1, AddPresenter(b), TwoPresenters(limits, a, b))
  {
    JoinsSilentRoom(NewRoom(limits), a);
    var s1 := NewRoom(limits).(presenters := map[a := Peer(Presenter, map[])]);
    assert |s1.presenters| == 1;
    JoinsSilentRoom(s1, b);
    assert s1.presenters[b := Peer(Presenter, map[])] == TwoPresenters(limits, a, b).presenters;
  }

  lemma {:induction false} OthersTrackAgain(s: State, a: string, b: string, id: string)
    requires !s.closed && s.tracks == map[] && s.streams == map[] && s.limits.maxTracks > 0
    requires a != b && b in s.presenters && id !in s.presenters[b].subs
    ensures var s1 := TrackPublished(s, a, id);
      Step(s1, PublishTrack(b, id), TrackPublished(s1, b, id)) && !ExactFanOut(TrackPublished(s1, b, id))
  {
    var s1 := TrackPublished(s, a, id);
    var s2 := TrackPublished(s1, b, id);
    assert OwnedTracks(s1, b) == {} && OwnedStreams(s1, b) == {};
    assert id in s2.presenters[b].subs && !Due(Src(s2), b, Presenter, id);
    assert !PeerExact(Src(s2), b, Presenter, s2.presenters[b].subs);
  }

  /** A presenter that takes over the other one's track ID receives its own track. */
  lemma {:induction false} TakeoverReceivesItself(limits: Limits, a: string, b: string, id: string)
    returns (ss: seq<State>, ops: seq<Op>)
    requires a != b && limits.WithDefaults().maxPresenters >= 2
    ensures Run(limits, ss, ops)
    ensures ops == [AddPresenter(a), AddPresenter(b), PublishTrack(a, id), PublishTrack(b, id)]
    ensures !ExactFanOut(ss[4])
  {
    var s2 := TwoPresenters(limits, a, b);
    var s3 := TrackPublished(s2, a, id);
    TwoPresentersReached(limits, a, b);
    PublishedOnce(s2, a, id);
    OthersTrackAgain(s2, a, b, id);
    ss, ops := FourSteps(limits, NewRoom(limits), NewRoom(limits).(presenters := map[a := Peer(Presenter, map[])]),
                         s2, s3, TrackPublished(s3, b, id),
                         AddPresenter(a), AddPresenter(b), PublishTrack(a, id), PublishTrack(b, id));
  }

  // ---- Over the limit ----

  lemma {:induction false} OverTheCap(s: State, user: string)
    requires PublisherCount(s, user) > s.limits.maxTracks
    ensures !TrackCap(s, iset{user})
  {
    assert user in iset{user};
  }

  lemma {:induction false} TwoRelays(s: State, source: string, first: string, second: string)
    requires first != second && s.tracks == map[] && s.streams == map[]
    ensures var s1 := TrackPublished(s, source, first);
      var s2 := TrackPublished(s1, source, second);
      && Step(s, InjectTrack(source, first), s1) && KeepsIDs(s, InjectTrack(source, first))
      && Step(s1, InjectTrack(source, second), s2) && KeepsIDs(s1, InjectTrack(source, second))
      && PublisherCount(s2, source) >= 2
  {
    RelayStep(s, source, first);
    RelayStep(TrackPublished(s, source, first), source, second);
    TwoOwned(TrackPublished(s, source, first), source, first, second);
  }

  lemma {:induction false} TwoOwned(s: State, source: string, first: string, second: string)
    requires first != second && s.tracks.Keys == {first} && s.tracks[first].source == source
    ensures PublisherCount(TrackPublished(s, source, second), source) >= 2
  {
    assert OwnedTracks(TrackPublished(s, source, second), source) == {first, second};
  }

  /** Two relayed tracks take a local source over a limit of one. */
  lemma {:induction false} RelaysExceedCap(limits: Limits, viewer: string, presenter: string, first: string,
                                           second: string)
    returns (ss: seq<State>, ops: seq<Op>)
    requires viewer != presenter && first != second && limits.WithDefaults().maxTracks == 1
    ensures Run(limits, ss, ops) && KeepIDs(ss, ops)
    ensures ops == [AddViewer(viewer), AddPresenter(presenter),
                    InjectTrack(presenter, first), InjectTrack(presenter, second)]
    ensures !TrackCap(ss[4], iset{presenter})
  {
    var s2 := SilentRoom(limits, viewer, presenter);
    var s3 := TrackPublished(s2, presenter, first);
    var s4 := TrackPublished(s3, presenter, second);
    SilentRoomReached(limits, viewer, presenter);
    TwoRelays(s2, presenter, first, second);
    OverTheCap(s4, presenter);
    ss, ops := FourSteps(limits, NewRoom(limits), s2.(presenters := map[]), s2, s3, s4,
                         AddViewer(viewer), AddPresenter(presenter),
                         InjectTrack(presenter, first), InjectTrack(presenter, second));
  }

  /** Its own stream's ID gets a publisher past the check. */
  lemma {:induction false} OwnStreamIDAllowed(s: State, user: string, id: string)
    requires !s.closed && id in s.streams && s.streams[id].source == user
    ensures Step(s, PublishTrack(user, id), TrackPublished(s, user, id))
  {
    TrackStep(s, user, id);
  }

  lemma {:induction false} OneEach(s: State, user: string, id: string)
    requires s.tracks == map[] && s.streams.Keys == {id} && s.streams[id].source == user
    ensures PublisherCount(TrackPublished(s, user, id), user) == 2
  {
    var s' := TrackPublished(s, user, id);
    assert OwnedTracks(s', user) == {id} && OwnedStreams(s', user) == {id};
  }

  lemma {:induction false} FirstStream(s: State, user: string, id: string)
    requires !s.closed && s.tracks == map[] && s.streams == map[] && s.limits.maxTracks > 0
    ensures Step(s, PublishLayer(user, id, "f"), StreamPublished(s, user, id, High))
  {
    NothingOwned(s, user);
    NewStreamStep(s, user, id, "f");
  }

  lemma {:induction false} TrackOverCap(s: State, user: string, id: string)
    requires !s.closed && s.tracks == map[] && s.streams.Keys == {id} && s.streams[id].source == user
    requires s.limits.maxTracks == 1
    ensures Step(s, PublishTrack(user, id), TrackPublished(s, user, id))
    ensures !TrackCap(TrackPublished(s, user, id), iset{user})
  {
    OwnStreamIDAllowed(s, user, id);
    OneEach(s, user, id);
    OverTheCap(TrackPublished(s, user, id), user);
  }

  lemma {:induction false} StreamThenTrack(s: State, user: string, id: string)
    requires !s.closed && s.tracks == map[] && s.streams == map[] && s.limits.maxTracks == 1
    ensures var s1 := StreamPublished(s, user, id, High);
      && Step(s, PublishLayer(user, id, "f"), s1)
      && Step(s1, PublishTrack(user, id), TrackPublished(s1, user, id))
      && !TrackCap(TrackPublished(s1, user, id), iset{user})
  {
    FirstStream(s, user, id);
    TrackOverCap(StreamPublished(s, user, id, High), user, id);
  }

  /** A publisher at its limit gets past the policy check with a track under the ID of its
      own stream. */
  lemma {:induction false} OwnStreamIDExceedsCap(limits: Limits, viewer: string, presenter: string, id: string)
    returns (ss: seq<State>, ops: seq<Op>)
    requires viewer != presenter && limits.WithDefaults().maxTracks == 1
    ensures Run(limits, ss, ops)
    ensures ops == [AddViewer(viewer), AddPresenter(presenter),
                    PublishLayer(presenter, id, "f"), PublishTrack(presenter, id)]
    ensures !TrackCap(ss[4], iset{presenter})
  {
    var s2 := SilentRoom(limits, viewer, presenter);
    var s3 := StreamPublished(s2, presenter, id, High);
    var s4 := TrackPublished(s3, presenter, id);
    SilentRoomReached(limits, viewer, presenter);
    StreamThenTrack(s2, presenter, id);
    ss, ops := FourSteps(limits, NewRoom(limits), s2.(presenters := map[]), s2, s3, s4,
                         AddViewer(viewer), AddPresenter(presenter),
                         PublishLayer(presenter, id, "f"), PublishTrack(presenter, id));
  }

  lemma {:induction false} OneOfEach(s: State, user: string, id: string)
    requires s.tracks.Keys == {id} && s.tracks[id].source == user && s.streams == map[]
    ensures PublisherCount(StreamPublished(s, user, id, High), user) == 2
  {
    var s' := StreamPublished(s, user, id, High);
    assert OwnedTracks(s', user) == {id} && OwnedStreams(s', user) == {id};
  }

  /** Its own track's ID gets a publisher past the check with a stream. */
  lemma {:induction false} StreamOverCap(s: State, user: string, id: string)
    requires !s.closed && s.tracks.Keys == {id} && s.tracks[id].source == user && s.streams == map[]
    requires s.limits.maxTracks == 1
    ensures Step(s, PublishLayer(user, id, "f"), StreamPublished(s, user, id, High))
    ensures !TrackCap(StreamPublished(s, user, id, High), iset{user})
  {
    OneOfEach(s, user, id);
    OverTheCap(StreamPublished(s, user, id, High), user);
  }

  lemma {:induction false} TrackThenStream(s: State, user: string, id: string)
    requires !s.closed && s.tracks == map[] && s.streams == map[] && s.limits.maxTracks == 1
    ensures var s1 := TrackPublished(s, user, id);
      && Step(s, PublishTrack(user, id), s1)
      && Step(s1, PublishLayer(user, id, "f"), StreamPublished(s1, user, id, High))
      && !TrackCap(StreamPublished(s1, user, id, High), iset{user})
  {
    PublishedOnce(s, user, id);
    StreamOverCap(TrackPublished(s, user, id), user, id);
  }

  /** And the other way round, with a stream under the ID of its own track. */
  lemma {:induction false} OwnTrackIDExceedsCap(limits: Limits, viewer: string, presenter: string, id: string)
    returns (ss: seq<State>, ops: seq<Op>)
    requires viewer != presenter && limits.WithDefaults().maxTracks == 1
    ensures Run(limits, ss, ops)
    ensures ops == [AddViewer(viewer), AddPresenter(presenter),
                    PublishTrack(presenter, id), PublishLayer(presenter, id, "f")]
    ensures !TrackCap(ss[4], iset{presenter})
  {
    var s2 := SilentRoom(limits, viewer, presenter);
    var s3 := TrackPublished(s2, presenter, id);
    var s4 := StreamPublished(s3, presenter, id, High);
    SilentRoomReached(limits, viewer, presenter);
    TrackThenStream(s2, presenter, id);
    ss, ops := FourSteps(limits, NewRoom(limits), s2.(presenters := map[]), s2, s3, s4,
                         AddViewer(viewer), AddPresenter(presenter),
                         PublishTrack(presenter, id), PublishLayer(presenter, id, "f"));
  }
}
