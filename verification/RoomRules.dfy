/** What each operation of a room does and refuses, seen from outside: who gets in and what
    they receive, what a leave and a close take away, what a publish and a switch change. */
module RoomRules {
  import opened Quality
  import opened RoomState
  import opened RoomProofs

  function PeerOf(s: State, user: string): (p: Peer)
    requires Live(s, user)
  {
    if user in s.presenters then s.presenters[user] else s.viewers[user]
  }

  /** A limit that is not positive is replaced, a positive one is kept. */
  lemma {:induction false} LimitsExactly(l: Limits)
    ensures var s := NewRoom(l);
      && s.limits == Limits(if l.maxPresenters > 0 then l.maxPresenters else 50,
                            if l.maxViewers > 0 then l.maxViewers else 10000,
                            if l.maxTracks > 0 then l.maxTracks else 8)
      && !s.closed && s.presenters == map[] && s.viewers == map[] && s.tracks == map[] && s.streams == map[]
  {
  }

  // ---- Closing ----

  /** A close takes out everybody and everything; closing again changes nothing. */
  lemma {:induction false} CloseEmpties(s: State, s': State)
    requires Step(s, CloseRoom, s')
    ensures s'.closed && s'.limits == s.limits
    ensures s.closed ==> s' == s
    ensures !s.closed ==>
      s'.presenters == map[] && s'.viewers == map[] && s'.tracks == map[] && s'.streams == map[]
  {
  }

  lemma {:induction false} ClosedStep(s: State, op: Op, s': State)
    requires Step(s, op, s') && (s.closed ==> s.presenters == map[] && s.viewers == map[])
    ensures s'.closed <==> s.closed || op == CloseRoom
    ensures s'.closed ==> s'.presenters == map[] && s'.viewers == map[]
    ensures s.closed && !op.InjectTrack? && !op.InjectLayer? ==> s' == s
  {
  }

  /** A room is closed exactly after a close, for good, and then nobody is in it: nobody who
      was there stayed and nobody got in again. */
  lemma {:induction false} ClosedRoomIsDeserted(limits: Limits, ss: seq<State>, ops: seq<Op>, i: nat)
    requires Run(limits, ss, ops) && i < |ss|
    ensures ss[i].closed <==> CloseRoom in ops[..i]
    ensures ss[i].closed ==> ss[i].presenters == map[] && ss[i].viewers == map[]
    decreases i
  {
    if i > 0 {
      ClosedRoomIsDeserted(limits, ss, ops, i - 1);
      ClosedStep(ss[i - 1], ops[i - 1], ss[i]);
      assert ops[..i] == ops[..i - 1] + [ops[i - 1]];
    }
  }

  /** Only relay packets still bring anything into a closed room. */
  lemma {:induction false} ClosedRoomHoldsOnlyRelays(limits: Limits, ss: seq<State>, ops: seq<Op>, i: nat, j: nat)
    requires Run(limits, ss, ops) && i <= j < |ss|
    requires i > 0 && ops[i - 1] == CloseRoom && !ss[i - 1].closed
    requires forall k :: i <= k < j ==> !ops[k].InjectTrack? && !ops[k].InjectLayer?
    ensures ss[j].tracks == map[] && ss[j].streams == map[]
    decreases j - i
  {
    ClosedRoomIsDeserted(limits, ss, ops, i);
    CloseEmpties(ss[i - 1], ss[i]);
    if j > i {
      ClosedRoomHoldsOnlyRelays(limits, ss, ops, i, j - 1);
      ClosedRoomIsDeserted(limits, ss, ops, j - 1);
      assert ops[..j - 1][i - 1] == CloseRoom;
      ClosedStep(ss[j - 1], ops[j - 1], ss[j]);
    }
  }

  // ---- Joining ----

  /** Who is in the room after a join: everybody who was, and the newcomer exactly when the
      room is open, the user is not there yet and the role has a place left. */
  lemma {:induction false} JoinSucceedsExactly(s: State, op: Op, s': State, user: string)
    requires Step(s, op, s') && (op.AddPresenter? || op.AddViewer?)
    ensures user in s'.presenters <==>
      || user in s.presenters
      || (op == AddPresenter(user) && !s.closed && user !in s.viewers && |s.presenters| < s.limits.maxPresenters)
    ensures user in s'.viewers <==>
      || user in s.viewers
      || (op == AddViewer(user) && !s.closed && user !in s.presenters && |s.viewers| < s.limits.maxViewers)
    ensures user in s.presenters ==> s'.presenters[user] == s.presenters[user]
    ensures user in s.viewers ==> s'.viewers[user] == s.viewers[user]
  {
  }

  lemma {:induction false} JoinedPeer(s: State, op: Op, s': State)
    requires Step(s, op, s') && (op.AddPresenter? || op.AddViewer?) && !Live(s, op.user) && Live(s', op.user)
    ensures var role := if op.AddPresenter? then Presenter else Viewer;
      && PeerOf(s', op.user).role == role
      && Attached(s, op.user, role, PeerOf(s', op.user).subs, s'.tracks, s'.streams)
  {
  }

  /** A newcomer gets a sender for every track of another source (a viewer: for every track),
      carrying the router's own local track, and the routers gain it as a subscriber. */
  lemma {:induction false} NewcomerHearsTracks(s: State, op: Op, s': State, t: string)
    requires Step(s, op, s') && (op.AddPresenter? || op.AddViewer?) && !Live(s, op.user) && Live(s', op.user)
    requires t in s.tracks && t !in s.streams
    ensures var due := op.AddViewer? || s.tracks[t].source != op.user;
      && (t in PeerOf(s', op.user).subs <==> due)
      && (due ==> PeerOf(s', op.user).subs[t] == s.tracks[t].local)
      && t in s'.tracks && s'.tracks[t] ==
        s.tracks[t].(subscribers := s.tracks[t].subscribers + if due then {op.user} else {})
  {
    JoinedPeer(s, op, s');
  }

  /** And for every stream with a known layer: a presenter starts on the best layer there is
      for high, a viewer for medium, the record says so and the sender carries it. */
  lemma {:induction false} NewcomerSeesStreams(s: State, op: Op, s': State, x: string)
    requires Step(s, op, s') && (op.AddPresenter? || op.AddViewer?) && !Live(s, op.user) && Live(s', op.user)
    requires x in s.streams && exists q :: q in s.streams[x].layers && Known(q)
    requires op.AddViewer? || s.streams[x].source != op.user
    ensures var st := s.streams[x];
      var start := BestKnown(st.layers.Keys, if op.AddViewer? then Medium else High);
      && x in s'.streams && s'.streams[x] == st.(subscribers := st.subscribers[op.user := start])
      && x in PeerOf(s', op.user).subs && PeerOf(s', op.user).subs[x] == st.layers[start]
  {
    JoinedPeer(s, op, s');
    var role := if op.AddPresenter? then Presenter else Viewer;
    assert Listens(s.streams[x], op.user, role);
    assert StreamJoined(s.streams[x], s'.streams[x], op.user, role);
    assert SenderOn(s'.streams[x], x, op.user, PeerOf(s', op.user).subs);
  }

  /** A presenter's own streams, and streams without a layer yet, stay as they were. */
  lemma {:induction false} OtherStreamsUntouched(s: State, op: Op, s': State, x: string)
    requires Step(s, op, s') && (op.AddPresenter? || op.AddViewer?) && !Live(s, op.user) && Live(s', op.user)
    requires x in s.streams && x !in s.tracks
    requires s.streams[x].layers == map[] || (op.AddPresenter? && s.streams[x].source == op.user)
    ensures x in s'.streams && s'.streams[x] == s.streams[x] && x !in PeerOf(s', op.user).subs
  {
    JoinedPeer(s, op, s');
    var role := if op.AddPresenter? then Presenter else Viewer;
    assert StreamJoined(s.streams[x], s'.streams[x], op.user, role);
  }

  // ---- Leaving ----

  /** A presenter that leaves takes its tracks and streams along, everybody loses exactly the
      senders for those, and nothing else changes. */
  lemma {:induction false} PresenterLeavesExactly(s: State, user: string, s': State, id: string, other: string)
    requires Step(s, RemovePeer(user), s') && !s.closed && user in s.presenters
    ensures id in s'.tracks <==> id in s.tracks && s.tracks[id].source != user
    ensures id in s'.tracks ==> s'.tracks[id] == s.tracks[id]
    ensures id in s'.streams <==> id in s.streams && s.streams[id].source != user
    ensures id in s'.streams ==> s'.streams[id] == s.streams[id]
    ensures other in s'.presenters <==> other in s.presenters && other != user
    ensures other in s'.viewers <==> other in s.viewers
    ensures Live(s', other) && user !in s.viewers ==>
      var was, now := PeerOf(s, other), PeerOf(s', other);
      var gone := (id in s.tracks && s.tracks[id].source == user) || (id in s.streams && s.streams[id].source == user);
      && (id in now.subs <==> id in was.subs && !gone)
      && (id in now.subs ==> now.subs[id] == was.subs[id])
  {
  }

  /** A viewer that leaves is off every router and stream record, and nothing else changes. */
  lemma {:induction false} ViewerLeavesExactly(s: State, user: string, s': State)
    requires Step(s, RemovePeer(user), s') && !s.closed && user !in s.presenters && user in s.viewers
    ensures s'.presenters == s.presenters && s'.viewers == s.viewers - {user}
    ensures s'.tracks.Keys == s.tracks.Keys && s'.streams.Keys == s.streams.Keys
    ensures forall t :: t in s.tracks ==>
      s'.tracks[t] == Router(s.tracks[t].source, s.tracks[t].local, s.tracks[t].subscribers - {user})
    ensures forall x :: x in s.streams ==>
      s'.streams[x] == Stream(s.streams[x].source, s.streams[x].layers, s.streams[x].subscribers - {user})
  {
  }

  /** Nobody else can be removed. */
  lemma {:induction false} StrangerLeavesNothing(s: State, user: string, s': State)
    requires Step(s, RemovePeer(user), s') && (s.closed || !Live(s, user))
    ensures s' == s
  {
  }

  // ---- Publishing ----

  /** A track is published exactly when the room is open and the publisher owns the ID
      already or is below its limit; the router is new, under the publisher's name. */
  lemma {:induction false} PublishSucceedsExactly(s: State, user: string, id: string, s': State)
    requires Step(s, PublishTrack(user, id), s') && s.limits.maxTracks > 0
    ensures var allowed := !s.closed
        && (id in OwnedTracks(s, user) || id in OwnedStreams(s, user) || PublisherCount(s, user) < s.limits.maxTracks);
      && (!allowed ==> s' == s)
      && (allowed ==>
            && id in s'.tracks && s'.tracks.Keys == s.tracks.Keys + {id}
            && s'.tracks[id].source == user && s'.tracks[id].local == s.next < s'.next
            && s'.streams == s.streams && (forall t :: t in s.tracks && t != id ==> s'.tracks[t] == s.tracks[t]))
  {
  }

  /** A layer makes a new stream under the same conditions and joins an existing one always;
      the layer is that of the RID and carries a new local track. */
  lemma {:induction false} LayerSucceedsExactly(s: State, user: string, id: string, rid: string, s': State)
    requires Step(s, PublishLayer(user, id, rid), s') && s.limits.maxTracks > 0
    ensures var allowed := !s.closed
        && (id in s.streams || id in OwnedTracks(s, user) || PublisherCount(s, user) < s.limits.maxTracks);
      var q := if rid == "q" then Low else if rid == "h" then Medium else High;
      && (!allowed ==> s' == s)
      && (allowed ==>
            && id in s'.streams && s'.streams.Keys == s.streams.Keys + {id} && s'.tracks == s.tracks
            && s'.streams[id].layers == (if id in s.streams then s.streams[id].layers else map[])[q := s.next]
            && s'.streams[id].source == (if id in s.streams then s.streams[id].source else user)
            && (id in s.streams ==> s'.streams[id].subscribers == s.streams[id].subscribers)
            && s.next < s'.next && (forall x :: x in s.streams && x != id ==> s'.streams[x] == s.streams[x]))
  {
  }

  /** A relay packet makes its track or layer if it is not there yet, in any room. */
  lemma {:induction false} RelaySucceedsExactly(s: State, op: Op, s': State)
    requires Step(s, op, s') && (op.InjectTrack? || op.InjectLayer?)
    ensures op.InjectTrack? ==>
      && op.id in s'.tracks && s'.streams == s.streams
      && (op.id in s.tracks ==> s' == s)
      && (op.id !in s.tracks ==> s'.tracks[op.id].source == op.source && s'.tracks[op.id].local == s.next)
    ensures op.InjectLayer? ==>
      && op.id in s'.streams && s'.tracks == s.tracks && op.layer in s'.streams[op.id].layers
      && (op.id in s.streams && op.layer in s.streams[op.id].layers ==> s' == s)
      && (op.id in s.streams ==> s'.streams[op.id].source == s.streams[op.id].source)
      && (op.id !in s.streams ==> s'.streams[op.id].source == op.source)
      && (op.id !in s.streams || op.layer !in s.streams[op.id].layers ==>
            s'.streams[op.id].layers[op.layer] == s.next)
  {
  }

  /** Everybody who listens starts on the first layer of a new stream. */
  lemma {:induction false} FirstLayerReachesAll(s: State, user: string, id: string, rid: string, s': State,
                                                peer: string)
    requires Step(s, PublishLayer(user, id, rid), s') && id !in s.streams && id in s'.streams && Live(s, peer)
    requires s.presenters.Keys !! s.viewers.Keys
    ensures Live(s', peer)
    ensures var due := peer in s.viewers || peer != user;
      && (peer in s'.streams[id].subscribers <==> due)
      && (due ==> s'.streams[id].subscribers[peer] == LayerFromRID(rid) && PeerOf(s', peer).subs
                  == PeerOf(s, peer).subs[id := s.next])
      && (!due ==> PeerOf(s', peer) == PeerOf(s, peer))
  {
  }

  // ---- Switching ----

  lemma {:induction false} SwitchFindsBest(s: State, user: string, id: string, q: QualityLayer, s': State)
    requires Step(s, SetQuality(user, id, q), s') && id in s.streams && Live(s, user)
    requires exists k :: k in s.streams[id].layers && Known(k)
    ensures var st := s.streams[id];
      var best := BestKnown(st.layers.Keys, q);
      s' == if user in st.subscribers && st.subscribers[user] == best then s else OnLayer(s, user, id, best)
  {
    var k :| k in s.streams[id].layers && Known(k);
    assert k in s.streams[id].layers.Keys;
  }

  /** A layer request of somebody in the room ends on the best known layer there is for it, on
      the record and, if that is a move, in the sender. */
  lemma {:induction false} SwitchSucceedsExactly(s: State, user: string, id: string, q: QualityLayer, s': State)
    requires Step(s, SetQuality(user, id, q), s') && id in s.streams && Live(s, user)
    requires exists k :: k in s.streams[id].layers && Known(k)
    ensures var st := s.streams[id];
      var best := BestKnown(st.layers.Keys, q);
      var moved := user !in st.subscribers || st.subscribers[user] != best;
      && s'.streams == s.streams[id := st.(subscribers := st.subscribers[user := best])]
      && s'.tracks == s.tracks && Live(s', user)
      && PeerOf(s', user).subs
        == (if moved then PeerOf(s, user).subs[id := st.layers[best]] else PeerOf(s, user).subs)
  {
    SwitchFindsBest(s, user, id, q, s');
    var st := s.streams[id];
    if user in st.subscribers && st.subscribers[user] == BestKnown(st.layers.Keys, q) {
      assert st.subscribers[user := BestKnown(st.layers.Keys, q)] == st.subscribers;
      assert s.streams[id := st] == s.streams;
    }
  }

  /** Of anybody else, or for an unknown stream, it does nothing. */
  lemma {:induction false} SwitchRefusedExactly(s: State, user: string, id: string, q: QualityLayer, s': State)
    requires Step(s, SetQuality(user, id, q), s') && (id !in s.streams || !Live(s, user))
    ensures s' == s
  {
  }

  lemma {:induction false} SwitchSparesOthers(s: State, user: string, id: string, q: QualityLayer, s': State, v: string)
    requires Step(s, SetQuality(user, id, q), s') && v != user
    ensures Live(s', v) <==> Live(s, v)
    ensures Live(s, v) ==> PeerOf(s', v) == PeerOf(s, v)
  {
  }
}
