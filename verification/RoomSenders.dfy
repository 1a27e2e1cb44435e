/** Plain tracks and who listens to them: a live peer is among a router's subscribers
    exactly when it has a sender for that track, and the sender carries the router's own
    local track. */
module RoomSenders {
  import opened Quality
  import opened RoomState
  import opened RoomProofs

  /** One router seen by one peer. */
  predicate Follows(r: Router, id: string, user: string, subs: map<string, nat>) {
    && (id in subs <==> user in r.subscribers)
    && (id in subs ==> subs[id] == r.local)
  }

  ghost predicate AllFollow(tracks: map<string, Router>, peers: map<string, Peer>) {
    forall u, t :: u in peers && t in tracks ==> Follows(tracks[t], t, u, peers[u].subs)
  }

  /** Entries left behind by departed presenters never name the track's own source. */
  ghost predicate NoSelfListener(s: State) {
    forall t, u :: t in s.tracks && u in s.tracks[t].subscribers ==> u in s.viewers || s.tracks[t].source != u
  }

  ghost predicate TracksAgree(s: State) {
    AllFollow(s.tracks, s.presenters) && AllFollow(s.tracks, s.viewers) && NoSelfListener(s)
  }

  /** Somebody in the room has a sender for this ID. */
  ghost predicate Held(s: State, id: string) {
    exists u :: (u in s.presenters && id in s.presenters[u].subs) || (u in s.viewers && id in s.viewers[u].subs)
  }

  /** A track that is published again has no listener: those who have one keep it on the
      router that was replaced. */
  ghost predicate StrandsNobody(s: State, op: Op) {
    op.PublishTrack? && op.id in s.tracks ==> !Held(s, op.id)
  }

  // ---- One map of peers at a time ----

  /** Peers that lost or moved senders only for IDs that are no tracks. */
  lemma {:induction false} FollowFrame(tracks: map<string, Router>, peers: map<string, Peer>, peers': map<string, Peer>)
    requires AllFollow(tracks, peers) && peers'.Keys <= peers.Keys
    requires forall u, t :: u in peers' && t in tracks ==>
      (t in peers'[u].subs <==> t in peers[u].subs) && (t in peers[u].subs ==> peers'[u].subs[t] == peers[u].subs[t])
    ensures AllFollow(tracks, peers')
  {
    forall u, t | u in peers' && t in tracks
      ensures Follows(tracks[t], t, u, peers'[u].subs)
    {
      assert Follows(tracks[t], t, u, peers[u].subs);
    }
  }

  /** Routers that may only have gained or lost one user. */
  lemma {:induction false} OthersFollow(tracks: map<string, Router>, tracks': map<string, Router>, user: string,
                                        peers: map<string, Peer>)
    requires AllFollow(tracks, peers) && user !in peers && tracks'.Keys <= tracks.Keys
    requires forall t :: t in tracks' ==>
      && tracks'[t].local == tracks[t].local
      && forall u :: u != user ==> (u in tracks'[t].subscribers <==> u in tracks[t].subscribers)
    ensures AllFollow(tracks', peers)
  {
    forall u, t | u in peers && t in tracks'
      ensures Follows(tracks'[t], t, u, peers[u].subs)
    {
      assert Follows(tracks[t], t, u, peers[u].subs);
    }
  }

  // ---- Joining and leaving ----

  lemma {:induction false} NewcomerFollows(s: State, user: string, role: Role, s': State, subs: map<string, nat>,
                                           t: string)
    requires Attached(s, user, role, subs, s'.tracks, s'.streams)
    requires WellFormedIDs(s) && NoSelfListener(s) && user !in s.viewers && t in s.tracks
    ensures Follows(s'.tracks[t], t, user, subs)
  {
    assert t in subs <==> t in Receivable(s, user, role);
  }

  lemma {:induction false} PeersOfJoinFollow(s: State, user: string, role: Role, s': State, p: Peer, peers: map<string,
                                             Peer>)
    requires Attached(s, user, role, p.subs, s'.tracks, s'.streams)
    requires WellFormedIDs(s) && NoSelfListener(s) && user !in s.viewers
    requires AllFollow(s.tracks, peers) && user !in peers
    ensures AllFollow(s'.tracks, peers) && AllFollow(s'.tracks, peers[user := p])
  {
    OthersFollow(s.tracks, s'.tracks, user, peers);
    var after := peers[user := p];
    forall u, t | u in after && t in s'.tracks
      ensures Follows(s'.tracks[t], t, u, after[u].subs)
    {
      NewcomerFollows(s, user, role, s', p.subs, t);
    }
  }

  lemma {:induction false} TracksOfJoin(s: State, user: string, role: Role, s': State)
    requires TracksAgree(s) && WellFormedIDs(s) && JoinedAs(s, user, role, s')
    ensures TracksAgree(s')
  {
    if Admits(s, user, role) {
      var p := if role == Presenter then s'.presenters[user] else s'.viewers[user];
      PeersOfJoinFollow(s, user, role, s', p, s.presenters);
      PeersOfJoinFollow(s, user, role, s', p, s.viewers);
    }
  }

  lemma {:induction false} WithoutFollow(s: State, gone: string, peers: map<string, Peer>)
    requires AllFollow(s.tracks, peers) && WellFormedIDs(s)
    ensures AllFollow(PresenterLeft(s, gone).tracks, WithoutSubs(peers, OwnedIDs(s, gone)))
  {
    var tracks', after := PresenterLeft(s, gone).tracks, WithoutSubs(peers, OwnedIDs(s, gone));
    forall u, t | u in after && t in tracks'
      ensures Follows(tracks'[t], t, u, after[u].subs)
    {
      assert Follows(s.tracks[t], t, u, peers[u].subs);
      assert t !in OwnedIDs(s, gone);
    }
  }

  lemma {:induction false} TracksOfLeave(s: State, gone: string)
    requires TracksAgree(s) && WellFormedIDs(s) && PeersInvariant(s)
    ensures gone in s.presenters ==> TracksAgree(PresenterLeft(s, gone))
    ensures gone in s.viewers ==> TracksAgree(ViewerLeft(s, gone))
  {
    if gone in s.presenters {
      WithoutFollow(s, gone, s.presenters - {gone});
      WithoutFollow(s, gone, s.viewers);
    } else if gone in s.viewers {
      OthersFollow(s.tracks, ViewerLeft(s, gone).tracks, gone, s.presenters);
      OthersFollow(s.tracks, ViewerLeft(s, gone).tracks, gone, s.viewers - {gone});
    }
  }

  // ---- Publishing ----

  /** Peers without that ID all get it, except those left out. */
  lemma {:induction false} SubscribedFollow(tracks: map<string, Router>, peers: map<string, Peer>, except: set<string>,
                                            id: string, r: Router)
    requires AllFollow(tracks, peers) && forall u :: u in peers ==> id !in peers[u].subs
    requires forall u :: u in peers ==> (u in r.subscribers <==> u !in except)
    ensures AllFollow(tracks[id := r], Subscribed(peers, except, id, r.local))
  {
    var tracks', after := tracks[id := r], Subscribed(peers, except, id, r.local);
    forall u, t | u in after && t in tracks'
      ensures Follows(tracks'[t], t, u, after[u].subs)
    {
      if t != id {
        assert Follows(tracks[t], t, u, peers[u].subs);
      }
    }
  }

  /** Whoever has a sender for the ID keeps it, and is no subscriber of the new router. */
  lemma {:induction false} HolderIsStranded(s: State, source: string, id: string, user: string)
    requires s.presenters.Keys !! s.viewers.Keys
    requires
      || (user in s.presenters && id in s.presenters[user].subs)
      || (user in s.viewers && id in s.viewers[user].subs)
    ensures !TracksAgree(TrackPublished(s, source, id))
  {
    var s' := TrackPublished(s, source, id);
    assert user !in s'.tracks[id].subscribers;
    if user in s.presenters {
      assert !Follows(s'.tracks[id], id, user, s'.presenters[user].subs);
    } else {
      assert !Follows(s'.tracks[id], id, user, s'.viewers[user].subs);
    }
  }

  lemma {:induction false} NewTrackHasNoSelf(s: State, source: string, id: string)
    requires NoSelfListener(s)
    ensures NoSelfListener(TrackPublished(s, source, id))
  {
  }

  lemma {:induction false} NewTrackAgrees(s: State, source: string, id: string)
    requires TracksAgree(s) && PeersInvariant(s) && !Held(s, id)
    ensures TracksAgree(TrackPublished(s, source, id))
  {
    var r := TrackPublished(s, source, id).tracks[id];
    NewTrackHasNoSelf(s, source, id);
    SubscribedFollow(s.tracks, s.presenters, {source}, id, r);
    SubscribedFollow(s.tracks, s.viewers, {}, id, r);
  }

  /** Publishing keeps listeners and routers together if and only if nobody in the room
      has a sender for that ID yet. So a presenter that publishes its own live track again
      strands everybody who listens to it. */
  lemma {:induction false} PublishingAgreesExactly(s: State, source: string, id: string)
    requires TracksAgree(s) && PeersInvariant(s)
    ensures TracksAgree(TrackPublished(s, source, id)) <==> !Held(s, id)
  {
    if Held(s, id) {
      var u :| (u in s.presenters && id in s.presenters[u].subs) || (u in s.viewers && id in s.viewers[u].subs);
      HolderIsStranded(s, source, id, u);
    } else {
      NewTrackAgrees(s, source, id);
    }
  }

  lemma {:induction false} FreshIsNotHeld(s: State, id: string)
    requires ExactFanOut(s) && id !in s.tracks && id !in s.streams
    ensures !Held(s, id)
  {
    forall u
      ensures u in s.presenters ==> id !in s.presenters[u].subs
      ensures u in s.viewers ==> id !in s.viewers[u].subs
    {
      if u in s.presenters {
        assert PeerExact(Src(s), u, Presenter, s.presenters[u].subs);
      }
      if u in s.viewers {
        assert PeerExact(Src(s), u, Viewer, s.viewers[u].subs);
      }
    }
  }

  lemma {:induction false} TracksOfPublish(s: State, source: string, id: string)
    requires TracksAgree(s) && ExactFanOut(s) && PeersInvariant(s) && id !in s.streams
    requires (id in s.tracks ==> !Held(s, id))
    ensures TracksAgree(TrackPublished(s, source, id))
  {
    if id !in s.tracks {
      FreshIsNotHeld(s, id);
    }
    PublishingAgreesExactly(s, source, id);
  }

  // ---- Streams and layers do not touch plain tracks ----

  lemma {:induction false} TracksOfStream(s: State, source: string, id: string, q: QualityLayer)
    requires TracksAgree(s) && id !in s.tracks
    ensures TracksAgree(StreamPublished(s, source, id, q))
  {
    FollowFrame(s.tracks, s.presenters, Switched(s.presenters, {source}, id, s.next));
    FollowFrame(s.tracks, s.viewers, Switched(s.viewers, {}, id, s.next));
  }

  lemma {:induction false} TracksOfSwitch(s: State, user: string, id: string, q: QualityLayer)
    requires TracksAgree(s) && WellFormedIDs(s) && id in s.streams && q in s.streams[id].layers
    ensures TracksAgree(OnLayer(s, user, id, q))
  {
    var s' := OnLayer(s, user, id, q);
    FollowFrame(s.tracks, s.presenters, s'.presenters);
    FollowFrame(s.tracks, s.viewers, s'.viewers);
  }

  lemma {:induction false} TracksOfLayers(s: State, op: Op, s': State)
    requires TracksAgree(s) && WellFormedIDs(s) && Step(s, op, s') && KeepsIDs(s, op)
    requires op.PublishLayer? || op.InjectLayer? || op.SetQuality?
    ensures TracksAgree(s')
  {
    if op.SetQuality? {
      if s' != s {
        var actual :| actual in s.streams[op.id].layers && s' == OnLayer(s, op.user, op.id, actual);
        TracksOfSwitch(s, op.user, op.id, actual);
      }
    } else if op.PublishLayer? {
      TracksOfStream(s, op.user, op.id, LayerFromRID(op.rid));
    } else {
      TracksOfStream(s, op.source, op.id, op.layer);
    }
  }

  lemma {:induction false} TracksStep(s: State, op: Op, s': State)
    requires TracksAgree(s) && ExactFanOut(s) && PeersInvariant(s) && Step(s, op, s')
    requires KeepsIDs(s, op) && StrandsNobody(s, op)
    ensures TracksAgree(s')
  {
    if IsPeerOp(op) {
      TracksOfPeerOp(s, op, s');
    } else if op.PublishTrack? {
      TracksOfPublish(s, op.user, op.id);
    } else if op.InjectTrack? {
      if op.id !in s.tracks {
        TracksOfPublish(s, op.source, op.id);
      }
    } else {
      TracksOfLayers(s, op, s');
    }
  }

  lemma {:induction false} TracksOfPeerOp(s: State, op: Op, s': State)
    requires TracksAgree(s) && WellFormedIDs(s) && PeersInvariant(s) && Step(s, op, s') && IsPeerOp(op)
    ensures TracksAgree(s')
  {
    match op
    case AddPresenter(u) => TracksOfJoin(s, u, Presenter, s');
    case AddViewer(u) => TracksOfJoin(s, u, Viewer, s');
    case RemovePeer(u) => TracksOfLeave(s, u);
    case CloseRoom =>
  }

  /** In every reachable state a live peer is a router's subscriber exactly when it has a
      sender for the track, and the sender carries that router's local track. */
  lemma {:induction false} ListenersFollowTracks(limits: Limits, ss: seq<State>, ops: seq<Op>, i: nat)
    requires Run(limits, ss, ops) && i < |ss|
    requires forall k :: 0 <= k < |ops| ==> KeepsIDs(ss[k], ops[k]) && StrandsNobody(ss[k], ops[k])
    ensures TracksAgree(ss[i])
    decreases i
  {
    if i > 0 {
      ListenersFollowTracks(limits, ss, ops, i - 1);
      FanOutIsExact(limits, ss, ops, i - 1);
      PeersWithinLimits(limits, ss, ops, i - 1);
      TracksStep(ss[i - 1], ops[i - 1], ss[i]);
    }
  }
}
