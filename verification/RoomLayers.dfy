/** Layer bookkeeping agrees with the media: the layer recorded for a live subscriber
    exists, and its sender carries that layer's local track. Also the cap on what one
    presenter may publish. */
module RoomLayers {
  import opened Wrappers
  import opened Quality
  import opened RoomState
  import opened RoomProofs
  import opened RoomLocals

  /** One stream seen by one peer. */
  ghost predicate Agrees(st: Stream, id: string, user: string, subs: map<string, nat>) {
    && (id in subs <==> user in st.subscribers)
    && (user in st.subscribers ==>
          st.subscribers[user] in st.layers && subs[id] == st.layers[st.subscribers[user]])
  }

  ghost predicate AllAgree(streams: map<string, Stream>, peers: map<string, Peer>) {
    forall u, x :: u in peers && x in streams ==> Agrees(streams[x], x, u, peers[u].subs)
  }

  /** Records left behind by departed presenters never name the stream's own source. */
  ghost predicate NoSelfRecord(s: State) {
    forall x, u :: x in s.streams && u in s.streams[x].subscribers ==> u in s.viewers || s.streams[x].source != u
  }

  ghost predicate LayersAgree(s: State) {
    AllAgree(s.streams, s.presenters) && AllAgree(s.streams, s.viewers) && NoSelfRecord(s)
  }

  /** Somebody in the room is recorded on this layer of the stream. */
  ghost predicate InUse(s: State, id: string, q: QualityLayer)
    requires id in s.streams
  {
    exists u :: Live(s, u) && u in s.streams[id].subscribers && s.streams[id].subscribers[u] == q
  }

  /** A published layer does not replace one that somebody is on. Different RIDs may name
      the same layer, so adding each RID once is not enough. */
  ghost predicate ReplacesNoLayerInUse(s: State, op: Op) {
    op.PublishLayer? && op.id in s.streams && LayerFromRID(op.rid) in s.streams[op.id].layers ==>
      !InUse(s, op.id, LayerFromRID(op.rid))
  }

  // ---- Peers, one map at a time ----

  /** Streams may only change in what they record for one user. */
  ghost predicate SameFor(streams: map<string, Stream>, streams': map<string, Stream>, user: string) {
    && streams'.Keys <= streams.Keys
    && forall x :: x in streams' ==>
         && streams'[x].source == streams[x].source
         && streams'[x].layers == streams[x].layers
         && (forall u :: u != user ==>
               && (u in streams'[x].subscribers <==> u in streams[x].subscribers)
               && (u in streams[x].subscribers ==> streams'[x].subscribers[u] == streams[x].subscribers[u]))
  }

  lemma {:induction false} OthersAgree(streams: map<string, Stream>, streams': map<string, Stream>, user: string,
                                       peers: map<string, Peer>)
    requires SameFor(streams, streams', user) && AllAgree(streams, peers)
    ensures AllAgree(streams', peers - {user})
  {
    var others := peers - {user};
    forall u, x | u in others && x in streams'
      ensures Agrees(streams'[x], x, u, others[u].subs)
    {
      assert Agrees(streams[x], x, u, peers[u].subs);
    }
  }

  lemma {:induction false} JoinChangesOnlyUser(s: State, user: string, role: Role, s': State, subs: map<string, nat>)
    requires Attached(s, user, role, subs, s'.tracks, s'.streams)
    ensures SameFor(s.streams, s'.streams, user)
  {
    forall x | x in s'.streams
      ensures s'.streams[x].source == s.streams[x].source && s'.streams[x].layers == s.streams[x].layers
      ensures forall u :: u != user ==>
         && (u in s'.streams[x].subscribers <==> u in s.streams[x].subscribers)
         && (u in s.streams[x].subscribers ==> s'.streams[x].subscribers[u] == s.streams[x].subscribers[u])
    {
      assert StreamJoined(s.streams[x], s'.streams[x], user, role);
    }
  }

  /** The newcomer is on a layer of every stream it receives and of no other. */
  lemma {:induction false} NewcomerAgrees(s: State, user: string, role: Role, s': State, subs: map<string, nat>,
                                          x: string)
    requires Attached(s, user, role, subs, s'.tracks, s'.streams)
    requires WellFormedIDs(s) && NoSelfRecord(s) && user !in s.viewers && x in s.streams
    ensures Agrees(s'.streams[x], x, user, subs)
    ensures user in s'.streams[x].subscribers ==> Receives(role, user, s'.streams[x].source)
  {
    assert StreamJoined(s.streams[x], s'.streams[x], user, role);
    assert x in subs <==> x in Receivable(s, user, role);
  }

  lemma {:induction false} AddedPeerAgrees(streams: map<string, Stream>, peers: map<string, Peer>, user: string,
                                           p: Peer)
    requires AllAgree(streams, peers - {user})
    requires forall x :: x in streams ==> Agrees(streams[x], x, user, p.subs)
    ensures AllAgree(streams, peers[user := p])
  {
    var after := peers[user := p];
    forall u, x | u in after && x in streams
      ensures Agrees(streams[x], x, u, after[u].subs)
    {
      if u != user {
        assert u in peers - {user};
      }
    }
  }

  lemma {:induction false} RecordsOfJoin(s: State, user: string, role: Role, s': State, p: Peer)
    requires Attached(s, user, role, p.subs, s'.tracks, s'.streams)
    requires WellFormedIDs(s) && NoSelfRecord(s) && user !in s.viewers
    requires s.viewers.Keys + (if role == Viewer then {user} else {}) <= s'.viewers.Keys
    ensures NoSelfRecord(s')
  {
    JoinChangesOnlyUser(s, user, role, s', p.subs);
    forall x, u | x in s'.streams && u in s'.streams[x].subscribers
      ensures u in s'.viewers || s'.streams[x].source != u
    {
      if u == user {
        NewcomerAgrees(s, user, role, s', p.subs, x);
      } else {
        assert u in s.streams[x].subscribers;
      }
    }
  }

  lemma {:induction false} PeersOfJoinAgree(s: State, user: string, role: Role, s': State, p: Peer, peers: map<string,
                                            Peer>)
    requires Attached(s, user, role, p.subs, s'.tracks, s'.streams)
    requires WellFormedIDs(s) && NoSelfRecord(s) && user !in s.viewers
    requires AllAgree(s.streams, peers) && user !in peers
    ensures AllAgree(s'.streams, peers) && AllAgree(s'.streams, peers[user := p])
  {
    JoinChangesOnlyUser(s, user, role, s', p.subs);
    OthersAgree(s.streams, s'.streams, user, peers);
    assert peers - {user} == peers;
    forall x | x in s'.streams
      ensures Agrees(s'.streams[x], x, user, p.subs)
    {
      NewcomerAgrees(s, user, role, s', p.subs, x);
    }
    AddedPeerAgrees(s'.streams, peers, user, p);
  }

  lemma {:induction false} LayersOfJoin(s: State, user: string, role: Role, s': State)
    requires LayersAgree(s) && WellFormedIDs(s) && JoinedAs(s, user, role, s')
    ensures LayersAgree(s')
  {
    if Admits(s, user, role) {
      var p := if role == Presenter then s'.presenters[user] else s'.viewers[user];
      PeersOfJoinAgree(s, user, role, s', p, s.presenters);
      PeersOfJoinAgree(s, user, role, s', p, s.viewers);
      RecordsOfJoin(s, user, role, s', p);
    }
  }

  lemma {:induction false} LayersOfPresenterLeave(s: State, gone: string)
    requires LayersAgree(s) && WellFormedIDs(s) && gone !in s.viewers
    ensures LayersAgree(PresenterLeft(s, gone))
  {
    var s' := PresenterLeft(s, gone);
    WithoutAgree(s, gone, s.presenters - {gone});
    WithoutAgree(s, gone, s.viewers);
  }

  lemma {:induction false} WithoutAgree(s: State, gone: string, peers: map<string, Peer>)
    requires AllAgree(s.streams, peers) && WellFormedIDs(s)
    ensures AllAgree(PresenterLeft(s, gone).streams, WithoutSubs(peers, OwnedIDs(s, gone)))
  {
    var streams', after := PresenterLeft(s, gone).streams, WithoutSubs(peers, OwnedIDs(s, gone));
    forall u, x | u in after && x in streams'
      ensures Agrees(streams'[x], x, u, after[u].subs)
    {
      assert Agrees(s.streams[x], x, u, peers[u].subs);
      assert x !in OwnedIDs(s, gone);
    }
  }

  lemma {:induction false} LayersOfViewerLeave(s: State, gone: string)
    requires LayersAgree(s) && gone !in s.presenters
    ensures LayersAgree(ViewerLeft(s, gone))
  {
    var s' := ViewerLeft(s, gone);
    OthersAgree(s.streams, s'.streams, gone, s.presenters);
    OthersAgree(s.streams, s'.streams, gone, s.viewers);
    assert s.presenters - {gone} == s.presenters;
  }

  lemma {:induction false} SubscribedAgree(streams: map<string, Stream>, peers: map<string, Peer>, except: set<string>,
                                           id: string, local: nat)
    requires AllAgree(streams, peers) && id !in streams
    ensures AllAgree(streams, Subscribed(peers, except, id, local))
  {
    var after := Subscribed(peers, except, id, local);
    forall u, x | u in after && x in streams
      ensures Agrees(streams[x], x, u, after[u].subs)
    {
      assert Agrees(streams[x], x, u, peers[u].subs);
    }
  }

  lemma {:induction false} LayersOfTrack(s: State, source: string, id: string)
    requires LayersAgree(s) && id !in s.streams
    ensures LayersAgree(TrackPublished(s, source, id))
  {
    SubscribedAgree(s.streams, s.presenters, {source}, id, s.next);
    SubscribedAgree(s.streams, s.viewers, {}, id, s.next);
  }

  lemma {:induction false} SwitchedAgree(streams: map<string, Stream>, peers: map<string, Peer>, except: set<string>,
                                         id: string, st: Stream, q: QualityLayer)
    requires AllAgree(streams, peers) && id !in streams && q in st.layers
    requires forall u :: u in peers ==> id !in peers[u].subs
    requires forall u :: u in peers ==> (u in st.subscribers <==> u !in except)
    requires forall u :: u in st.subscribers ==> st.subscribers[u] == q
    ensures AllAgree(streams[id := st], Switched(peers, except, id, st.layers[q]))
  {
    var streams', after := streams[id := st], Switched(peers, except, id, st.layers[q]);
    forall u, x | u in after && x in streams'
      ensures Agrees(streams'[x], x, u, after[u].subs)
    {
      if x != id {
        assert Agrees(streams[x], x, u, peers[u].subs);
      }
    }
  }

  lemma {:induction false} FreshNotSubscribed(src: map<string, string>, peers: map<string, Peer>, role: Role,
                                              id: string)
    requires AllExact(src, peers, role) && id !in src
    ensures forall u :: u in peers ==> id !in peers[u].subs
  {
    forall u | u in peers
      ensures id !in peers[u].subs
    {
      assert PeerExact(src, u, role, peers[u].subs);
    }
  }

  lemma {:induction false} RecordsOfStream(s: State, source: string, id: string, q: QualityLayer)
    requires NoSelfRecord(s) && id !in s.streams
    ensures NoSelfRecord(StreamPublished(s, source, id, q))
  {
  }

  lemma {:induction false} LayersOfStream(s: State, source: string, id: string, q: QualityLayer)
    requires LayersAgree(s) && ExactFanOut(s) && PeersInvariant(s) && id !in s.streams && id !in s.tracks
    ensures LayersAgree(StreamPublished(s, source, id, q))
  {
    var st := StreamPublished(s, source, id, q).streams[id];
    FreshNotSubscribed(Src(s), s.presenters, Presenter, id);
    FreshNotSubscribed(Src(s), s.viewers, Viewer, id);
    SwitchedAgree(s.streams, s.presenters, {source}, id, st, q);
    SwitchedAgree(s.streams, s.viewers, {}, id, st, q);
    RecordsOfStream(s, source, id, q);
  }

  lemma {:induction false} LayersOfLayer(s: State, id: string, q: QualityLayer)
    requires LayersAgree(s) && id in s.streams && (q !in s.streams[id].layers || !InUse(s, id, q))
    ensures LayersAgree(LayerAdded(s, id, q))
  {
    assert forall u :: Live(s, u) && u in s.streams[id].subscribers ==>
        q !in s.streams[id].layers || s.streams[id].subscribers[u] != q;
    WiderAgree(s.streams, s.presenters, id, q, s.next);
    WiderAgree(s.streams, s.viewers, id, q, s.next);
  }

  lemma {:induction false} WiderAgree(streams: map<string, Stream>, peers: map<string, Peer>, id: string,
                                      q: QualityLayer, local: nat)
    requires AllAgree(streams, peers) && id in streams
    requires forall u :: u in peers && u in streams[id].subscribers ==>
      q !in streams[id].layers || streams[id].subscribers[u] != q
    ensures AllAgree(streams[id := streams[id].(layers := streams[id].layers[q := local])], peers)
  {
    var streams' := streams[id := streams[id].(layers := streams[id].layers[q := local])];
    forall u, x | u in peers && x in streams'
      ensures Agrees(streams'[x], x, u, peers[u].subs)
    {
      assert Agrees(streams[x], x, u, peers[u].subs);
    }
  }

  /** The moved subscriber: record and sender change together, other streams stay. */
  lemma {:induction false} MovedAgrees(streams: map<string, Stream>, peers: map<string, Peer>, user: string, id: string,
                                       q: QualityLayer)
    requires AllAgree(streams, peers) && user in peers && id in streams && q in streams[id].layers
    ensures AllAgree(streams[id := streams[id].(subscribers := streams[id].subscribers[user := q])],
                     peers[user := peers[user].(subs := peers[user].subs[id := streams[id].layers[q]])])
  {
    var streams' := streams[id := streams[id].(subscribers := streams[id].subscribers[user := q])];
    var p := peers[user].(subs := peers[user].subs[id := streams[id].layers[q]]);
    OthersAgree(streams, streams', user, peers);
    forall x | x in streams'
      ensures Agrees(streams'[x], x, user, p.subs)
    {
      if x != id {
        assert Agrees(streams[x], x, user, peers[user].subs);
      }
    }
    AddedPeerAgrees(streams', peers, user, p);
  }

  lemma {:induction false} RecordsOfSwitch(s: State, user: string, id: string, q: QualityLayer)
    requires NoSelfRecord(s) && id in s.streams && q in s.streams[id].layers && Live(s, user)
    requires user in s.presenters ==> s.streams[id].source != user
    ensures NoSelfRecord(OnLayer(s, user, id, q))
  {
  }

  lemma {:induction false} OthersOfSwitch(streams: map<string, Stream>, peers: map<string, Peer>, user: string,
                                          id: string, q: QualityLayer)
    requires AllAgree(streams, peers) && user !in peers && id in streams
    ensures AllAgree(streams[id := streams[id].(subscribers := streams[id].subscribers[user := q])], peers)
  {
    OthersAgree(streams, streams[id := streams[id].(subscribers := streams[id].subscribers[user := q])], user, peers);
    assert peers - {user} == peers;
  }

  lemma {:induction false} LayersOfSwitch(s: State, user: string, id: string, q: QualityLayer)
    requires LayersAgree(s) && PeersInvariant(s) && id in s.streams && q in s.streams[id].layers && Live(s, user)
    requires user in s.presenters ==> s.streams[id].source != user
    ensures LayersAgree(OnLayer(s, user, id, q))
  {
    RecordsOfSwitch(s, user, id, q);
    if user in s.presenters {
      MovedAgrees(s.streams, s.presenters, user, id, q);
      OthersOfSwitch(s.streams, s.viewers, user, id, q);
    } else {
      MovedAgrees(s.streams, s.viewers, user, id, q);
      OthersOfSwitch(s.streams, s.presenters, user, id, q);
    }
  }

  lemma {:induction false} LayersOfQuality(s: State, user: string, id: string, q: QualityLayer, s': State)
    requires LayersAgree(s) && PeersInvariant(s) && QualitySet(s, user, id, q, s')
    requires user in s.presenters && id in s.streams ==> s.streams[id].source != user
    ensures LayersAgree(s')
  {
    if s' != s {
      var actual :| actual in s.streams[id].layers && Live(s, user) && s' == OnLayer(s, user, id, actual);
      LayersOfSwitch(s, user, id, actual);
    }
  }

  lemma {:induction false} LayersOfLeave(s: State, gone: string)
    requires LayersAgree(s) && WellFormedIDs(s) && PeersInvariant(s)
    ensures gone in s.presenters ==> LayersAgree(PresenterLeft(s, gone))
    ensures gone in s.viewers ==> LayersAgree(ViewerLeft(s, gone))
  {
    if gone in s.presenters {
      LayersOfPresenterLeave(s, gone);
    } else if gone in s.viewers {
      LayersOfViewerLeave(s, gone);
    }
  }

  lemma {:induction false} LayersOfPublish(s: State, source: string, id: string, q: QualityLayer)
    requires LayersAgree(s) && ExactFanOut(s) && PeersInvariant(s) && id !in s.tracks
    ensures id !in s.streams ==> LayersAgree(StreamPublished(s, source, id, q))
    ensures id in s.streams && (q !in s.streams[id].layers || !InUse(s, id, q)) ==> LayersAgree(LayerAdded(s, id, q))
  {
    if id !in s.streams {
      LayersOfStream(s, source, id, q);
    } else if q !in s.streams[id].layers || !InUse(s, id, q) {
      LayersOfLayer(s, id, q);
    }
  }

  lemma {:induction false} LayersOfPeerOp(s: State, op: Op, s': State)
    requires LayersAgree(s) && ExactFanOut(s) && PeersInvariant(s) && Step(s, op, s') && IsPeerOp(op)
    ensures LayersAgree(s')
  {
    match op
    case AddPresenter(u) => LayersOfJoin(s, u, Presenter, s');
    case AddViewer(u) => LayersOfJoin(s, u, Viewer, s');
    case RemovePeer(u) => LayersOfLeave(s, u);
    case CloseRoom =>
  }

  lemma {:induction false} LayersOfMediaOp(s: State, op: Op, s': State)
    requires LayersAgree(s) && ExactFanOut(s) && PeersInvariant(s) && Step(s, op, s') && !IsPeerOp(op)
    requires KeepsIDs(s, op) && ReplacesNoLayerInUse(s, op)
    ensures LayersAgree(s')
  {
    if op.SetQuality? {
      LayersOfQuality(s, op.user, op.id, op.quality, s');
    } else if op.PublishTrack? || op.InjectTrack? {
      LayersOfTrackOp(s, op, s');
    } else {
      LayersOfLayerOp(s, op, s');
    }
  }

  lemma {:induction false} LayersOfTrackOp(s: State, op: Op, s': State)
    requires LayersAgree(s) && Step(s, op, s') && (op.PublishTrack? || op.InjectTrack?) && KeepsIDs(s, op)
    ensures LayersAgree(s')
  {
    if s' != s {
      LayersOfTrack(s, if op.PublishTrack? then op.user else op.source, op.id);
    }
  }

  lemma {:induction false} LayersOfLayerOp(s: State, op: Op, s': State)
    requires LayersAgree(s) && ExactFanOut(s) && PeersInvariant(s) && Step(s, op, s')
    requires (op.PublishLayer? || op.InjectLayer?)
    requires KeepsIDs(s, op) && ReplacesNoLayerInUse(s, op)
    ensures LayersAgree(s')
  {
    if op.PublishLayer? {
      LayersOfPublish(s, op.user, op.id, LayerFromRID(op.rid));
    } else {
      LayersOfPublish(s, op.source, op.id, op.layer);
    }
  }

  /** In every reachable state, through joins, new layers, switches, leaves and
      rejoins: a live peer is recorded by a stream exactly when it has a sender for it,
      the recorded layer exists, and the sender carries that layer's local track. */
  lemma {:induction false} BookkeepingAgrees(limits: Limits, ss: seq<State>, ops: seq<Op>, i: nat)
    requires Run(limits, ss, ops) && i < |ss|
    requires forall k :: 0 <= k < |ops| ==> KeepsIDs(ss[k], ops[k]) && ReplacesNoLayerInUse(ss[k], ops[k])
    ensures LayersAgree(ss[i])
    decreases i
  {
    if i > 0 {
      BookkeepingAgrees(limits, ss, ops, i - 1);
      FanOutIsExact(limits, ss, ops, i - 1);
      PeersWithinLimits(limits, ss, ops, i - 1);
      if IsPeerOp(ops[i - 1]) {
        LayersOfPeerOp(ss[i - 1], ops[i - 1], ss[i]);
      } else {
        LayersOfMediaOp(ss[i - 1], ops[i - 1], ss[i]);
      }
    }
  }

  /** The identity the sender carries belongs to the recorded layer of that stream and to
      no other layer or track of the room. */
  lemma {:induction false} SenderTellsLayer(limits: Limits, ss: seq<State>, ops: seq<Op>, i: nat, user: string,
                                            x: string, p: Place)
    requires Run(limits, ss, ops) && i < |ss|
    requires forall k :: 0 <= k < |ops| ==> KeepsIDs(ss[k], ops[k]) && ReplacesNoLayerInUse(ss[k], ops[k])
    requires Live(ss[i], user) && x in ss[i].streams && user in ss[i].streams[x].subscribers
    ensures var subs := if user in ss[i].presenters then ss[i].presenters[user].subs else ss[i].viewers[user].subs;
      x in subs && (Local(ss[i], p) == Some(subs[x]) <==> p == LayerAt(x, ss[i].streams[x].subscribers[user]))
  {
    BookkeepingAgrees(limits, ss, ops, i);
    LocalsAlwaysDiffer(limits, ss, ops, i);
    var s := ss[i];
    var subs := if user in s.presenters then s.presenters[user].subs else s.viewers[user].subs;
    assert Agrees(s.streams[x], x, user, subs);
    assert Local(s, LayerAt(x, s.streams[x].subscribers[user])) == Some(subs[x]);
  }

  /** The guard is exact: adding a layer keeps records and senders together if and only if
      it is new or nobody in the room is on the one it replaces. */
  lemma {:induction false} AddingLayerAgreesExactly(s: State, id: string, q: QualityLayer)
    requires LayersAgree(s) && LocalsDiffer(s) && id in s.streams
    ensures LayersAgree(LayerAdded(s, id, q)) <==> q !in s.streams[id].layers || !InUse(s, id, q)
  {
    if q !in s.streams[id].layers || !InUse(s, id, q) {
      LayersOfLayer(s, id, q);
    } else {
      var s' := LayerAdded(s, id, q);
      var u :| Live(s, u) && u in s.streams[id].subscribers && s.streams[id].subscribers[u] == q;
      var subs := if u in s.presenters then s.presenters[u].subs else s.viewers[u].subs;
      assert Agrees(s.streams[id], id, u, subs);
      assert Local(s, LayerAt(id, q)).value < s.next;
      assert !Agrees(s'.streams[id], id, u, subs);
    }
  }

  // ---- What one presenter may publish ----

  /** The step takes a local source that is at its limit over it. The policy check lets a
      publish at the limit through only under an ID the publisher owns, and then it adds
      something only if that ID is of the other kind; relays are not checked at all. */
  predicate ExceedsCap(s: State, op: Op, locals: iset<string>) {
    match op
    case PublishTrack(u, id) =>
      u in locals && !s.closed && AtLimit(s, u) && id in OwnedStreams(s, u) && id !in OwnedTracks(s, u)
    case PublishLayer(u, id, _) =>
      u in locals && !s.closed && AtLimit(s, u) && id !in s.streams && id in OwnedTracks(s, u)
    case InjectTrack(source, id) => source in locals && AtLimit(s, source) && id !in s.tracks
    case InjectLayer(source, id, _) => source in locals && AtLimit(s, source) && id !in s.streams
    case _ => false
  }

  predicate AtLimit(s: State, user: string) {
    PublisherCount(s, user) == s.limits.maxTracks
  }

  /** A publisher uses the ID of what it has published as the other kind. */
  predicate ReusesOwnID(s: State, op: Op) {
    match op
    case PublishTrack(u, id) => id in OwnedStreams(s, u) && id !in OwnedTracks(s, u)
    case PublishLayer(u, id, _) => id !in s.streams && id in OwnedTracks(s, u)
    case _ => false
  }

  /** No relay packet names a local source. */
  predicate NoLocalRelay(op: Op, locals: iset<string>) {
    match op
    case InjectTrack(source, _) => source !in locals
    case InjectLayer(source, _, _) => source !in locals
    case _ => true
  }

  ghost predicate TrackCap(s: State, locals: iset<string>) {
    s.limits.maxTracks > 0 && forall u :: u in locals ==> PublisherCount(s, u) <= s.limits.maxTracks
  }

  /** Nobody gains a published ID except possibly one user, and then at most one. */
  lemma {:induction false} CountStep(s: State, op: Op, s': State, u: string)
    requires Step(s, op, s') && !op.PublishTrack? && !op.PublishLayer? && !op.InjectTrack? && !op.InjectLayer?
    ensures PublisherCount(s', u) <= PublisherCount(s, u) && s'.limits == s.limits
  {
    SameOrFewer(s, op, s', u);
    SubsetSize(OwnedTracks(s', u), OwnedTracks(s, u));
    SubsetSize(OwnedStreams(s', u), OwnedStreams(s, u));
  }

  lemma {:induction false} SameOrFewer(s: State, op: Op, s': State, u: string)
    requires Step(s, op, s') && !op.PublishTrack? && !op.PublishLayer? && !op.InjectTrack? && !op.InjectLayer?
    ensures OwnedTracks(s', u) <= OwnedTracks(s, u) && OwnedStreams(s', u) <= OwnedStreams(s, u)
    ensures s'.limits == s.limits
  {
    match op
    case AddPresenter(v) => OwnersOfJoin(s, v, Presenter, s', u);
    case AddViewer(v) => OwnersOfJoin(s, v, Viewer, s', u);
    case RemovePeer(v) =>
      OwnersOfLeave(s, v, u);
    case CloseRoom =>
    case SetQuality(v, id, q) =>
      if s' != s {
        var actual :| actual in s.streams[id].layers && s' == OnLayer(s, v, id, actual);
        OwnersOfSwitch(s, v, id, actual, u);
      }
  }

  lemma {:induction false} OwnersOfLeave(s: State, v: string, u: string)
    ensures OwnedTracks(PresenterLeft(s, v), u) <= OwnedTracks(s, u)
    ensures OwnedStreams(PresenterLeft(s, v), u) <= OwnedStreams(s, u)
    ensures OwnedTracks(ViewerLeft(s, v), u) <= OwnedTracks(s, u)
    ensures OwnedStreams(ViewerLeft(s, v), u) <= OwnedStreams(s, u)
  {
  }

  lemma {:induction false} OwnersOfSwitch(s: State, v: string, id: string, q: QualityLayer, u: string)
    requires id in s.streams && q in s.streams[id].layers
    ensures OwnedTracks(OnLayer(s, v, id, q), u) == OwnedTracks(s, u)
    ensures OwnedStreams(OnLayer(s, v, id, q), u) == OwnedStreams(s, u)
  {
  }

  lemma {:induction false} OwnersOfJoin(s: State, user: string, role: Role, s': State, u: string)
    requires JoinedAs(s, user, role, s')
    ensures OwnedTracks(s', u) == OwnedTracks(s, u) && OwnedStreams(s', u) == OwnedStreams(s, u)
    ensures s'.limits == s.limits
  {
    if Admits(s, user, role) {
      var p := if role == Presenter then s'.presenters[user] else s'.viewers[user];
      JoinChangesOnlyUser(s, user, role, s', p.subs);
    }
  }

  lemma {:induction false} CountOfTrack(s: State, source: string, id: string, u: string)
    ensures var s' := TrackPublished(s, source, id);
      && OwnedStreams(s', u) == OwnedStreams(s, u)
      && OwnedTracks(s', u) <= OwnedTracks(s, u) + (if u == source then {id} else {})
      && (u == source && id in OwnedTracks(s, u) ==> OwnedTracks(s', u) == OwnedTracks(s, u))
  {
  }

  lemma {:induction false} CountOfStream(s: State, source: string, id: string, q: QualityLayer, u: string)
    requires id !in s.streams
    ensures var s' := StreamPublished(s, source, id, q);
      && OwnedTracks(s', u) == OwnedTracks(s, u)
      && OwnedStreams(s', u) <= OwnedStreams(s, u) + (if u == source then {id} else {})
  {
  }

  lemma {:induction false} CountOfLayer(s: State, id: string, q: QualityLayer, u: string)
    requires id in s.streams
    ensures OwnedTracks(LayerAdded(s, id, q), u) == OwnedTracks(s, u)
    ensures OwnedStreams(LayerAdded(s, id, q), u) == OwnedStreams(s, u)
  {
  }

  lemma {:induction false} LimitsKept(s: State, op: Op, s': State)
    requires Step(s, op, s')
    ensures s'.limits == s.limits
  {
  }

  /** Nobody but the source gains a track, and the source at most one. */
  lemma {:induction false} TrackWithinCap(s: State, source: string, id: string, u: string)
    ensures PublisherCount(TrackPublished(s, source, id), u)
      <= PublisherCount(s, u) + if u == source && id !in OwnedTracks(s, u) then 1 else 0
  {
    CountOfTrack(s, source, id, u);
    SubsetSize(OwnedTracks(TrackPublished(s, source, id), u), OwnedTracks(s, u) + (if u == source then {id} else {}));
  }

  lemma {:induction false} StreamWithinCap(s: State, source: string, id: string, q: QualityLayer, u: string)
    ensures id in s.streams ==> PublisherCount(LayerAdded(s, id, q), u) == PublisherCount(s, u)
    ensures id !in s.streams ==>
      PublisherCount(StreamPublished(s, source, id, q), u) <= PublisherCount(s, u) + if u == source then 1 else 0
  {
    if id in s.streams {
      CountOfLayer(s, id, q, u);
    } else {
      CountOfStream(s, source, id, q, u);
      SubsetSize(OwnedStreams(StreamPublished(s, source, id, q), u),
                 OwnedStreams(s, u) + (if u == source then {id} else {}));
    }
  }

  /** A track leaves its source within the limit exactly when the source was below it or
      owned that track already. */
  lemma {:induction false} TrackStaysWithinCapExactly(s: State, source: string, id: string)
    requires PublisherCount(s, source) <= s.limits.maxTracks
    ensures PublisherCount(TrackPublished(s, source, id), source) <= s.limits.maxTracks <==>
      !AtLimit(s, source) || id in OwnedTracks(s, source)
  {
    CountOfTrack(s, source, id, source);
    assert OwnedTracks(TrackPublished(s, source, id), source) == OwnedTracks(s, source) + {id};
  }

  /** A new stream does exactly when its source was below the limit. */
  lemma {:induction false} StreamStaysWithinCapExactly(s: State, source: string, id: string, q: QualityLayer)
    requires PublisherCount(s, source) <= s.limits.maxTracks && id !in s.streams
    ensures PublisherCount(StreamPublished(s, source, id, q), source) <= s.limits.maxTracks <==> !AtLimit(s, source)
  {
    CountOfStream(s, source, id, q, source);
    assert OwnedStreams(StreamPublished(s, source, id, q), source) == OwnedStreams(s, source) + {id};
  }

  /** What the policy check is for: a publish leaves the publisher within the limit, except
      exactly for a publisher at the limit that gives a track the ID of its own stream. */
  lemma {:induction false} PublishedTrackKeepsCapExactly(s: State, user: string, id: string, s': State)
    requires Step(s, PublishTrack(user, id), s') && !s.closed
    requires s.limits.maxTracks > 0 && PublisherCount(s, user) <= s.limits.maxTracks
    ensures PublisherCount(s', user) <= s.limits.maxTracks <==>
      !(AtLimit(s, user) && id in OwnedStreams(s, user) && id !in OwnedTracks(s, user))
  {
    TrackStaysWithinCapExactly(s, user, id);
  }

  /** Or, publishing a layer, that gives a new stream the ID of its own track. */
  lemma {:induction false} PublishedLayerKeepsCapExactly(s: State, user: string, id: string, rid: string, s': State)
    requires Step(s, PublishLayer(user, id, rid), s') && !s.closed
    requires s.limits.maxTracks > 0 && PublisherCount(s, user) <= s.limits.maxTracks
    ensures PublisherCount(s', user) <= s.limits.maxTracks <==>
      !(AtLimit(s, user) && id !in s.streams && id in OwnedTracks(s, user))
  {
    if id in s.streams {
      CountOfLayer(s, id, LayerFromRID(rid), user);
    } else {
      StreamStaysWithinCapExactly(s, user, id, LayerFromRID(rid));
    }
  }

  /** A relay is held to nothing. */
  lemma {:induction false} RelayKeepsCapExactly(s: State, op: Op, s': State)
    requires Step(s, op, s') && (op.InjectTrack? || op.InjectLayer?)
    requires PublisherCount(s, op.source) <= s.limits.maxTracks
    ensures PublisherCount(s', op.source) <= s.limits.maxTracks <==>
      !(AtLimit(s, op.source) && if op.InjectTrack? then op.id !in s.tracks else op.id !in s.streams)
  {
    if op.InjectTrack? {
      TrackStaysWithinCapExactly(s, op.source, op.id);
    } else if op.id in s.streams {
      CountOfLayer(s, op.id, op.layer, op.source);
    } else {
      StreamStaysWithinCapExactly(s, op.source, op.id, op.layer);
    }
  }

  /** Whom a step may give a track or stream. */
  predicate IsSource(op: Op, u: string) {
    match op
    case PublishTrack(v, _) => v == u
    case PublishLayer(v, _, _) => v == u
    case InjectTrack(v, _) => v == u
    case InjectLayer(v, _, _) => v == u
    case _ => false
  }

  /** Nobody else gains anything. */
  lemma {:induction false} OthersGainNothing(s: State, op: Op, s': State, u: string)
    requires Step(s, op, s') && !IsSource(op, u)
    ensures PublisherCount(s', u) <= PublisherCount(s, u)
  {
    match op
    case PublishTrack(v, id) => TrackWithinCap(s, v, id, u);
    case PublishLayer(v, id, rid) => StreamWithinCap(s, v, id, LayerFromRID(rid), u);
    case InjectTrack(v, id) => TrackWithinCap(s, v, id, u);
    case InjectLayer(v, id, layer) => StreamWithinCap(s, v, id, layer, u);
    case _ => CountStep(s, op, s', u);
  }

  lemma {:induction false} SourceKeepsCapExactly(s: State, op: Op, s': State, u: string, locals: iset<string>)
    requires TrackCap(s, locals) && Step(s, op, s') && IsSource(op, u) && u in locals
    ensures PublisherCount(s', u) <= s.limits.maxTracks <==> !ExceedsCap(s, op, locals)
  {
    match op
    case PublishTrack(_, id) =>
      if !s.closed {
        PublishedTrackKeepsCapExactly(s, u, id, s');
      }
    case PublishLayer(_, id, rid) =>
      if !s.closed {
        PublishedLayerKeepsCapExactly(s, u, id, rid, s');
      }
    case _ => RelayKeepsCapExactly(s, op, s');
  }

  /** Every step keeps the cap, except exactly those that exceed it. */
  lemma {:induction false} CapStepExactly(s: State, op: Op, s': State, locals: iset<string>)
    requires TrackCap(s, locals) && Step(s, op, s')
    ensures TrackCap(s', locals) <==> !ExceedsCap(s, op, locals)
  {
    LimitsKept(s, op, s');
    forall u | u in locals
      ensures IsSource(op, u) ==> (PublisherCount(s', u) <= s.limits.maxTracks <==> !ExceedsCap(s, op, locals))
      ensures !IsSource(op, u) ==> PublisherCount(s', u) <= s.limits.maxTracks
    {
      if IsSource(op, u) {
        SourceKeepsCapExactly(s, op, s', u, locals);
      } else {
        OthersGainNothing(s, op, s', u);
      }
    }
    assert ExceedsCap(s, op, locals) ==> exists u :: u in locals && IsSource(op, u);
  }

  lemma {:induction false} NewRoomOwnsNothing(limits: Limits, locals: iset<string>)
    ensures TrackCap(NewRoom(limits), locals)
  {
    forall u
      ensures PublisherCount(NewRoom(limits), u) == 0
    {
      assert OwnedTracks(NewRoom(limits), u) == {} && OwnedStreams(NewRoom(limits), u) == {};
    }
  }

  /** Over any run without a step that exceeds it the cap holds. */
  lemma {:induction false} CapHoldsUnlessExceeded(
    limits: Limits, ss: seq<State>, ops: seq<Op>, locals: iset<string>, i: nat)
    requires Run(limits, ss, ops) && i < |ss|
    requires forall k :: 0 <= k < |ops| ==> !ExceedsCap(ss[k], ops[k], locals)
    ensures TrackCap(ss[i], locals)
    decreases i
  {
    if i == 0 {
      NewRoomOwnsNothing(limits, locals);
    } else {
      CapHoldsUnlessExceeded(limits, ss, ops, locals, i - 1);
      CapStepExactly(ss[i - 1], ops[i - 1], ss[i], locals);
    }
  }

  /** The policy check suffices, made in one step with the publish: if no relay names a local
      source and no publisher reuses its own ID as the other kind, then in every reachable
      state no local user owns more tracks and streams than allowed. */
  lemma {:induction false} PublishersWithinCap(
    limits: Limits, ss: seq<State>, ops: seq<Op>, locals: iset<string>, i: nat)
    requires Run(limits, ss, ops) && i < |ss|
    requires forall k :: 0 <= k < |ops| ==> NoLocalRelay(ops[k], locals) && !ReusesOwnID(ss[k], ops[k])
    ensures TrackCap(ss[i], locals)
  {
    forall k | 0 <= k < |ops|
      ensures !ExceedsCap(ss[k], ops[k], locals)
    {
      assert NoLocalRelay(ops[k], locals) && !ReusesOwnID(ss[k], ops[k]);
    }
    CapHoldsUnlessExceeded(limits, ss, ops, locals, i);
  }
}
