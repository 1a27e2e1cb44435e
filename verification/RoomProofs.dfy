/** What every reachable room state keeps: the limits on peers and exact fan-out. */
module RoomProofs {
  import opened Quality
  import opened RoomState

  // ---- Capacity of peers ----

  ghost predicate PeersInvariant(s: State) {
    && s.limits.maxPresenters > 0 && s.limits.maxViewers > 0 && s.limits.maxTracks > 0
    && s.presenters.Keys !! s.viewers.Keys
    && |s.presenters| <= s.limits.maxPresenters
    && |s.viewers| <= s.limits.maxViewers
    && (forall u :: u in s.presenters ==> s.presenters[u].role == Presenter)
    && (forall u :: u in s.viewers ==> s.viewers[u].role == Viewer)
  }

  lemma {:induction false} InsertedSize<V>(m: map<string, V>, k: string, v: V)
    requires k !in m
    ensures |m[k := v]| == |m| + 1
  {
    assert m[k := v].Keys == m.Keys + {k};
    assert |m[k := v]| == |m[k := v].Keys| && |m| == |m.Keys|;
  }

  lemma {:induction false} SmallerSize<V, W>(a: map<string, V>, b: map<string, W>)
    requires a.Keys <= b.Keys
    ensures |a| <= |b|
  {
    SubsetSize(a.Keys, b.Keys);
    assert |a| == |a.Keys| && |b| == |b.Keys|;
  }

  lemma {:induction false} SubsetSize<T>(a: set<T>, b: set<T>)
    requires a <= b
    ensures |a| <= |b|
    decreases |a|
  {
    if a != {} {
      var x :| x in a;
      SubsetSize(a - {x}, b - {x});
    }
  }

  ghost predicate KeepsPeers(peers: map<string, Peer>, peers': map<string, Peer>) {
    peers'.Keys <= peers.Keys && forall u :: u in peers' ==> peers'[u].role == peers[u].role
  }

  lemma {:induction false} PeersOfSwitch(s: State, user: string, id: string, q: QualityLayer)
    requires id in s.streams && q in s.streams[id].layers
    ensures KeepsPeers(s.presenters, OnLayer(s, user, id, q).presenters)
    ensures KeepsPeers(s.viewers, OnLayer(s, user, id, q).viewers)
  {
  }

  /** Everything but a join keeps at most the peers there were. */
  lemma {:induction false} PeersOfOtherSteps(s: State, op: Op, s': State)
    requires Step(s, op, s') && !op.AddPresenter? && !op.AddViewer?
    ensures s'.limits == s.limits && KeepsPeers(s.presenters, s'.presenters) && KeepsPeers(s.viewers, s'.viewers)
  {
    if op.SetQuality? {
      PeersOfQuality(s, op.user, op.id, op.quality, s');
    } else if op.RemovePeer? {
      PeersOfLeave(s, op.user);
    } else if !op.CloseRoom? {
      PeersOfPublish(s, op, s');
    }
  }

  lemma {:induction false} PeersOfPublish(s: State, op: Op, s': State)
    requires Step(s, op, s') && (op.PublishTrack? || op.PublishLayer? || op.InjectTrack? || op.InjectLayer?)
    ensures s'.limits == s.limits && KeepsPeers(s.presenters, s'.presenters) && KeepsPeers(s.viewers, s'.viewers)
  {
  }

  lemma {:induction false} PeersOfQuality(s: State, user: string, id: string, q: QualityLayer, s': State)
    requires QualitySet(s, user, id, q, s')
    ensures s'.limits == s.limits && KeepsPeers(s.presenters, s'.presenters) && KeepsPeers(s.viewers, s'.viewers)
  {
    if s' != s {
      var actual :| actual in s.streams[id].layers && s' == OnLayer(s, user, id, actual);
      PeersOfSwitch(s, user, id, actual);
    }
  }

  lemma {:induction false} PeersOfLeave(s: State, user: string)
    ensures KeepsPeers(s.presenters, PresenterLeft(s, user).presenters)
    ensures KeepsPeers(s.viewers, PresenterLeft(s, user).viewers)
    ensures KeepsPeers(s.presenters, ViewerLeft(s, user).presenters)
    ensures KeepsPeers(s.viewers, ViewerLeft(s, user).viewers)
  {
    assert PresenterLeft(s, user).presenters == WithoutSubs(s.presenters - {user}, OwnedIDs(s, user));
  }

  lemma {:induction false} PeersOfJoin(s: State, user: string, role: Role, s': State)
    requires PeersInvariant(s) && JoinedAs(s, user, role, s')
    ensures PeersInvariant(s')
  {
    if Admits(s, user, role) {
      if role == Presenter {
        InsertedSize(s.presenters, user, s'.presenters[user]);
      } else {
        InsertedSize(s.viewers, user, s'.viewers[user]);
      }
    }
  }

  lemma {:induction false} PeersStep(s: State, op: Op, s': State)
    requires PeersInvariant(s) && Step(s, op, s')
    ensures PeersInvariant(s')
  {
    if op.AddPresenter? {
      PeersOfJoin(s, op.user, Presenter, s');
    } else if op.AddViewer? {
      PeersOfJoin(s, op.user, Viewer, s');
    } else {
      PeersOfOtherSteps(s, op, s');
      SmallerSize(s'.presenters, s.presenters);
      SmallerSize(s'.viewers, s.viewers);
    }
  }

  /** Presenters and viewers stay disjoint and within their maxima in every run. */
  lemma {:induction false} PeersWithinLimits(limits: Limits, ss: seq<State>, ops: seq<Op>, i: nat)
    requires Run(limits, ss, ops) && i < |ss|
    ensures PeersInvariant(ss[i])
    decreases i
  {
    if i > 0 {
      PeersWithinLimits(limits, ss, ops, i - 1);
      PeersStep(ss[i - 1], ops[i - 1], ss[i]);
    }
  }

  // ---- Exact fan-out ----

  /** What the run's steps must not do: reuse a live ID for the other kind, republish
      another source's track from a live presenter, or move a presenter onto its own stream. */
  predicate KeepsIDs(s: State, op: Op) {
    match op
    case PublishTrack(u, id) => id !in s.streams && (id in s.tracks ==> s.tracks[id].source == u || u !in s.presenters)
    case PublishLayer(_, id, _) => id !in s.tracks
    case InjectTrack(_, id) => id !in s.streams
    case InjectLayer(_, id, _) => id !in s.tracks
    case SetQuality(u, id, _) => u in s.presenters && id in s.streams ==> s.streams[id].source != u
    case _ => true
  }

  /** The source of every live ID. */
  function Sources(tracks: map<string, Router>, streams: map<string, Stream>): (src: map<string, string>)
    ensures src.Keys == tracks.Keys + streams.Keys
    ensures forall x :: x in streams ==> src[x] == streams[x].source
    ensures forall t :: t in tracks && t !in streams ==> src[t] == tracks[t].source
  {
    map id | id in tracks.Keys + streams.Keys :: if id in streams then streams[id].source else tracks[id].source
  }

  function Src(s: State): (src: map<string, string>) {
    Sources(s.tracks, s.streams)
  }

  lemma {:induction false} SourcesSame(tracks: map<string, Router>, streams: map<string, Stream>,
                                       tracks': map<string, Router>, streams': map<string, Stream>)
    requires tracks'.Keys == tracks.Keys && streams'.Keys == streams.Keys
    requires forall t :: t in tracks ==> tracks'[t].source == tracks[t].source
    requires forall x :: x in streams ==> streams'[x].source == streams[x].source
    ensures Sources(tracks', streams') == Sources(tracks, streams)
  {
  }

  lemma {:induction false} SourcesWithTrack(tracks: map<string, Router>, streams: map<string, Stream>, id: string,
                                            r: Router)
    requires id !in streams
    ensures Sources(tracks[id := r], streams) == Sources(tracks, streams)[id := r.source]
  {
  }

  lemma {:induction false} SourcesWithStream(tracks: map<string, Router>, streams: map<string, Stream>, id: string,
                                             st: Stream)
    ensures Sources(tracks, streams[id := st]) == Sources(tracks, streams)[id := st.source]
  {
  }

  /** A live ID the participant should receive. */
  predicate Due(src: map<string, string>, user: string, role: Role, id: string) {
    id in src && Receives(role, user, src[id])
  }

  ghost predicate PeerExact(src: map<string, string>, user: string, role: Role, subs: map<string, nat>) {
    forall id :: id in subs <==> Due(src, user, role, id)
  }

  ghost predicate AllExact(src: map<string, string>, peers: map<string, Peer>, role: Role) {
    forall u :: u in peers ==> PeerExact(src, u, role, peers[u].subs)
  }

  ghost predicate WellFormedIDs(s: State) {
    s.tracks.Keys !! s.streams.Keys && forall x :: x in s.streams ==> s.streams[x].layers != map[]
  }

  ghost predicate ExactFanOut(s: State) {
    && WellFormedIDs(s)
    && AllExact(Src(s), s.presenters, Presenter)
    && AllExact(Src(s), s.viewers, Viewer)
  }

  /** New router: everyone but its source gains the ID, once. */
  lemma {:induction false} SubscribedExact(src: map<string, string>, peers: map<string, Peer>, role: Role,
                                           source: string, id: string, local: nat)
    requires AllExact(src, peers, role)
    requires role == Viewer || (id in src ==> src[id] == source) || source !in peers
    ensures AllExact(src[id := source],
                     Subscribed(peers, if role == Presenter then {source} else {}, id, local), role)
  {
    var after := Subscribed(peers, if role == Presenter then {source} else {}, id, local);
    forall u | u in after
      ensures PeerExact(src[id := source], u, role, after[u].subs)
    {
      assert PeerExact(src, u, role, peers[u].subs);
    }
  }

  /** New stream: the same through its first layer. */
  lemma {:induction false} SwitchedExact(src: map<string, string>, peers: map<string, Peer>, role: Role, source: string,
                                         id: string, local: nat)
    requires AllExact(src, peers, role) && id !in src
    ensures AllExact(src[id := source],
                     Switched(peers, if role == Presenter then {source} else {}, id, local), role)
  {
    var after := Switched(peers, if role == Presenter then {source} else {}, id, local);
    forall u | u in after
      ensures PeerExact(src[id := source], u, role, after[u].subs)
    {
      assert PeerExact(src, u, role, peers[u].subs);
    }
  }

  /** A source disappears with everything it published. */
  lemma {:induction false} WithoutExact(src: map<string, string>, src': map<string, string>, peers: map<string, Peer>,
                                        role: Role, gone: set<string>)
    requires AllExact(src, peers, role)
    requires forall id :: id in src' <==> id in src && id !in gone
    requires forall id :: id in src' ==> src'[id] == src[id]
    ensures AllExact(src', WithoutSubs(peers, gone), role)
  {
    var after := WithoutSubs(peers, gone);
    forall u | u in after
      ensures PeerExact(src', u, role, after[u].subs)
    {
      assert PeerExact(src, u, role, peers[u].subs);
    }
  }

  lemma {:induction false} SourcesOfJoin(s: State, user: string, role: Role, s': State, subs: map<string, nat>)
    requires Attached(s, user, role, subs, s'.tracks, s'.streams) && WellFormedIDs(s)
    ensures Src(s') == Src(s) && WellFormedIDs(s')
  {
    forall x | x in s.streams
      ensures s'.streams[x].source == s.streams[x].source && s'.streams[x].layers == s.streams[x].layers
    {
      assert StreamJoined(s.streams[x], s'.streams[x], user, role);
    }
    SourcesSame(s.tracks, s.streams, s'.tracks, s'.streams);
  }

  lemma {:induction false} ReceivableIsDue(s: State, user: string, role: Role, id: string)
    requires WellFormedIDs(s)
    ensures id in Receivable(s, user, role) <==> Due(Src(s), user, role, id)
  {
    if id in s.streams {
      assert id !in s.tracks && Src(s)[id] == s.streams[id].source;
    }
  }

  lemma {:induction false} JoinedExact(s: State, user: string, role: Role, subs: map<string, nat>)
    requires subs.Keys == Receivable(s, user, role) && WellFormedIDs(s)
    ensures PeerExact(Src(s), user, role, subs)
  {
    forall id
      ensures id in subs <==> Due(Src(s), user, role, id)
    {
      ReceivableIsDue(s, user, role, id);
    }
  }

  lemma {:induction false} FanOutOfJoin(s: State, user: string, role: Role, s': State)
    requires ExactFanOut(s) && JoinedAs(s, user, role, s')
    ensures ExactFanOut(s')
  {
    if Admits(s, user, role) {
      var p := if role == Presenter then s'.presenters[user] else s'.viewers[user];
      SourcesOfJoin(s, user, role, s', p.subs);
      JoinedExact(s, user, role, p.subs);
    }
  }

  lemma {:induction false} SourcesWithout(tracks: map<string, Router>, streams: map<string, Stream>, gone: string)
    requires tracks.Keys !! streams.Keys
    ensures var src := Sources(tracks, streams);
      var src' := Sources(map t | t in tracks && tracks[t].source != gone :: tracks[t],
                          map x | x in streams && streams[x].source != gone :: streams[x]);
      && (forall id :: id in src' <==> id in src && src[id] != gone)
      && (forall id :: id in src' ==> src'[id] == src[id])
  {
  }

  lemma {:induction false} IDsOfPresenterLeave(s: State, gone: string)
    requires WellFormedIDs(s)
    ensures WellFormedIDs(PresenterLeft(s, gone))
  {
  }

  lemma {:induction false} OwnedIsSource(s: State, gone: string, id: string)
    requires WellFormedIDs(s)
    ensures id in OwnedIDs(s, gone) <==> id in Src(s) && Src(s)[id] == gone
  {
  }

  lemma {:induction false} SourcesOfPresenterLeave(s: State, gone: string)
    requires WellFormedIDs(s)
    ensures var src, src' := Src(s), Src(PresenterLeft(s, gone));
      && (forall id :: id in src' <==> id in src && id !in OwnedIDs(s, gone))
      && (forall id :: id in src' ==> src'[id] == src[id])
  {
    SourcesWithout(s.tracks, s.streams, gone);
    forall id
      ensures id in OwnedIDs(s, gone) <==> id in Src(s) && Src(s)[id] == gone
    {
      OwnedIsSource(s, gone, id);
    }
  }

  lemma {:induction false} FanOutOfPresenterLeave(s: State, gone: string)
    requires ExactFanOut(s)
    ensures ExactFanOut(PresenterLeft(s, gone))
  {
    IDsOfPresenterLeave(s, gone);
    SourcesOfPresenterLeave(s, gone);
    var src' := Src(PresenterLeft(s, gone));
    WithoutExact(Src(s), src', s.presenters - {gone}, Presenter, OwnedIDs(s, gone));
    WithoutExact(Src(s), src', s.viewers, Viewer, OwnedIDs(s, gone));
  }

  lemma {:induction false} FanOutOfViewerLeave(s: State, gone: string)
    requires ExactFanOut(s)
    ensures ExactFanOut(ViewerLeft(s, gone))
  {
    var s' := ViewerLeft(s, gone);
    SourcesSame(s.tracks, s.streams, s'.tracks, s'.streams);
  }

  lemma {:induction false} FanOutOfTrack(s: State, source: string, id: string)
    requires ExactFanOut(s) && id !in s.streams
    requires (id in s.tracks ==> s.tracks[id].source == source || source !in s.presenters)
    ensures ExactFanOut(TrackPublished(s, source, id))
  {
    SourcesWithTrack(s.tracks, s.streams, id, TrackPublished(s, source, id).tracks[id]);
    SubscribedExact(Src(s), s.presenters, Presenter, source, id, s.next);
    SubscribedExact(Src(s), s.viewers, Viewer, source, id, s.next);
  }

  lemma {:induction false} IDsOfStream(s: State, source: string, id: string, q: QualityLayer)
    requires WellFormedIDs(s) && id !in s.streams && id !in s.tracks
    ensures WellFormedIDs(StreamPublished(s, source, id, q))
    ensures Src(StreamPublished(s, source, id, q)) == Src(s)[id := source]
  {
    var st := StreamPublished(s, source, id, q).streams[id];
    assert q in st.layers;
    SourcesWithStream(s.tracks, s.streams, id, st);
  }

  lemma {:induction false} FanOutOfStream(s: State, source: string, id: string, q: QualityLayer)
    requires ExactFanOut(s) && id !in s.streams && id !in s.tracks
    ensures ExactFanOut(StreamPublished(s, source, id, q))
  {
    IDsOfStream(s, source, id, q);
    SwitchedExact(Src(s), s.presenters, Presenter, source, id, s.next);
    SwitchedExact(Src(s), s.viewers, Viewer, source, id, s.next);
  }

  lemma {:induction false} FanOutOfLayer(s: State, id: string, q: QualityLayer)
    requires ExactFanOut(s) && id in s.streams
    ensures ExactFanOut(LayerAdded(s, id, q))
  {
    assert q in LayerAdded(s, id, q).streams[id].layers;
    SourcesSame(s.tracks, s.streams, s.tracks, LayerAdded(s, id, q).streams);
  }

  lemma {:induction false} MovedExact(src: map<string, string>, peers: map<string, Peer>, role: Role, user: string,
                                      id: string, local: nat)
    requires AllExact(src, peers, role) && user in peers && Due(src, user, role, id)
    ensures AllExact(src, peers[user := peers[user].(subs := peers[user].subs[id := local])], role)
  {
    assert PeerExact(src, user, role, peers[user].subs);
    assert id in peers[user].subs;
  }

  lemma {:induction false} IDsOfSwitch(s: State, user: string, id: string, q: QualityLayer)
    requires WellFormedIDs(s) && id in s.streams && q in s.streams[id].layers
    ensures WellFormedIDs(OnLayer(s, user, id, q)) && Src(OnLayer(s, user, id, q)) == Src(s)
  {
    SourcesSame(s.tracks, s.streams, s.tracks, OnLayer(s, user, id, q).streams);
  }

  lemma {:induction false} FanOutOfSwitch(s: State, user: string, id: string, q: QualityLayer)
    requires ExactFanOut(s) && id in s.streams && q in s.streams[id].layers && Live(s, user)
    requires user in s.presenters ==> s.streams[id].source != user
    ensures ExactFanOut(OnLayer(s, user, id, q))
  {
    IDsOfSwitch(s, user, id, q);
    if user in s.presenters {
      MovedExact(Src(s), s.presenters, Presenter, user, id, s.streams[id].layers[q]);
    } else {
      MovedExact(Src(s), s.viewers, Viewer, user, id, s.streams[id].layers[q]);
    }
  }

  lemma {:induction false} FanOutOfQuality(s: State, user: string, id: string, q: QualityLayer, s': State)
    requires ExactFanOut(s) && QualitySet(s, user, id, q, s')
    requires user in s.presenters && id in s.streams ==> s.streams[id].source != user
    ensures ExactFanOut(s')
  {
    if s' != s {
      var actual :| actual in s.streams[id].layers && Live(s, user) && s' == OnLayer(s, user, id, actual);
      FanOutOfSwitch(s, user, id, actual);
    }
  }

  lemma {:induction false} FanOutStep(s: State, op: Op, s': State)
    requires ExactFanOut(s) && Step(s, op, s') && KeepsIDs(s, op)
    ensures ExactFanOut(s')
  {
    if IsPeerOp(op) {
      FanOutOfPeerOp(s, op, s');
    } else if op.SetQuality? {
      FanOutOfQuality(s, op.user, op.id, op.quality, s');
    } else {
      FanOutOfMediaOp(s, op, s');
    }
  }

  lemma {:induction false} FanOutOfPeerOp(s: State, op: Op, s': State)
    requires ExactFanOut(s) && Step(s, op, s') && IsPeerOp(op)
    ensures ExactFanOut(s')
  {
    match op
    case AddPresenter(u) => FanOutOfJoin(s, u, Presenter, s');
    case AddViewer(u) => FanOutOfJoin(s, u, Viewer, s');
    case RemovePeer(u) =>
      if u in s.presenters {
        FanOutOfPresenterLeave(s, u);
      } else if u in s.viewers {
        FanOutOfViewerLeave(s, u);
      }
    case CloseRoom =>
  }

  lemma {:induction false} FanOutOfMediaOp(s: State, op: Op, s': State)
    requires ExactFanOut(s) && Step(s, op, s') && KeepsIDs(s, op) && !IsPeerOp(op) && !op.SetQuality?
    ensures ExactFanOut(s')
  {
    match op
    case PublishTrack(u, id) => FanOutOfTrack(s, u, id);
    case PublishLayer(u, id, rid) => FanOutOfAnyLayer(s, u, id, LayerFromRID(rid));
    case InjectTrack(source, id) =>
      if id !in s.tracks {
        FanOutOfTrack(s, source, id);
      }
    case InjectLayer(source, id, layer) => FanOutOfAnyLayer(s, source, id, layer);
  }

  lemma {:induction false} FanOutOfAnyLayer(s: State, source: string, id: string, q: QualityLayer)
    requires ExactFanOut(s) && id !in s.tracks
    ensures id in s.streams ==> ExactFanOut(LayerAdded(s, id, q))
    ensures id !in s.streams ==> ExactFanOut(StreamPublished(s, source, id, q))
  {
    if id in s.streams {
      FanOutOfLayer(s, id, q);
    } else {
      FanOutOfStream(s, source, id, q);
    }
  }

  /** Exact fan-out: in every reachable state a live presenter's subscriptions are
      exactly the live tracks and streams of other sources, a live viewer's all of them. */
  lemma {:induction false} FanOutIsExact(limits: Limits, ss: seq<State>, ops: seq<Op>, i: nat)
    requires Run(limits, ss, ops) && i < |ss|
    requires forall k :: 0 <= k < |ops| ==> KeepsIDs(ss[k], ops[k])
    ensures ExactFanOut(ss[i])
    decreases i
  {
    if i > 0 {
      FanOutIsExact(limits, ss, ops, i - 1);
      FanOutStep(ss[i - 1], ops[i - 1], ss[i]);
    }
  }

  /** The same as sets of IDs. */
  lemma {:induction false} FanOutAsSets(s: State, user: string)
    requires ExactFanOut(s)
    ensures user in s.presenters ==>
      s.presenters[user].subs.Keys
      == (set t | t in s.tracks && s.tracks[t].source != user) + (set x | x in s.streams && s.streams[x].source != user)
    ensures user in s.viewers ==> s.viewers[user].subs.Keys == s.tracks.Keys + s.streams.Keys
  {
    if user in s.presenters {
      assert PeerExact(Src(s), user, Presenter, s.presenters[user].subs);
    }
    if user in s.viewers {
      assert PeerExact(Src(s), user, Viewer, s.viewers[user].subs);
    }
  }

  /** The restrictions on publishing are exact. A track keeps exact fan-out if and only if
      its ID is no stream's and not another source's track that a live presenter takes
      over: such a presenter would keep receiving its own track. */
  lemma {:induction false} TrackKeepsFanOutExactly(s: State, b: string, id: string)
    requires ExactFanOut(s)
    ensures ExactFanOut(TrackPublished(s, b, id)) <==>
      id !in s.streams && (id in s.tracks ==> s.tracks[id].source == b || b !in s.presenters)
  {
    var s' := TrackPublished(s, b, id);
    if id in s.streams {
      assert id in s'.tracks && id in s'.streams;
    } else if id in s.tracks && s.tracks[id].source != b && b in s.presenters {
      assert PeerExact(Src(s), b, Presenter, s.presenters[b].subs);
      assert id in s'.presenters[b].subs && !Due(Src(s'), b, Presenter, id);
      assert !PeerExact(Src(s'), b, Presenter, s'.presenters[b].subs);
    } else {
      FanOutOfTrack(s, b, id);
    }
  }

  /** A new stream keeps it if and only if its ID is no track's. */
  lemma {:induction false} StreamKeepsFanOutExactly(s: State, source: string, id: string, q: QualityLayer)
    requires ExactFanOut(s) && id !in s.streams
    ensures ExactFanOut(StreamPublished(s, source, id, q)) <==> id !in s.tracks
  {
    if id in s.tracks {
      assert id in StreamPublished(s, source, id, q).tracks && id in StreamPublished(s, source, id, q).streams;
    } else {
      FanOutOfStream(s, source, id, q);
    }
  }

  /** Where an ID is shared, viewers keep what they had and nobody among them receives the
      track that was published under a stream's ID. */
  lemma {:induction false} SharedIDReachesNoViewer(s: State, source: string, id: string)
    requires ExactFanOut(s) && id in s.streams
    ensures TrackPublished(s, source, id).viewers == s.viewers
  {
    forall v | v in s.viewers
      ensures id in s.viewers[v].subs
    {
      assert PeerExact(Src(s), v, Viewer, s.viewers[v].subs);
      assert Due(Src(s), v, Viewer, id);
    }
  }

  /** So is the restriction on switching: a layer switch keeps exact fan-out unless it puts a presenter
      on its own stream. */
  lemma {:induction false} SwitchKeepsFanOutExactly(s: State, user: string, id: string, q: QualityLayer)
    requires ExactFanOut(s) && id in s.streams && q in s.streams[id].layers && Live(s, user)
    ensures ExactFanOut(OnLayer(s, user, id, q)) <==> !(user in s.presenters && s.streams[id].source == user)
  {
    if user in s.presenters && s.streams[id].source == user {
      var s' := OnLayer(s, user, id, q);
      IDsOfSwitch(s, user, id, q);
      assert id in s'.presenters[user].subs && !Due(Src(s'), user, Presenter, id);
      assert !PeerExact(Src(s'), user, Presenter, s'.presenters[user].subs);
    } else {
      FanOutOfSwitch(s, user, id, q);
    }
  }
}
