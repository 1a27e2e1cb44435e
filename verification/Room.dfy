/** The media room as the server runs it: maps updated in place, peer by peer and
    track by track, each method proved to be one step of `RoomState`. */
module MediaRoom {
  import opened Wrappers
  import opened Quality
  import opened RoomState
  import A = Adaptive
  import L = ClosedLoop

  /** The tracks an earlier departure already removed stay removed. */
  lemma {:induction false} WithoutMore(peers: map<string, Peer>, gone: set<string>, id: string)
    ensures WithoutSubs(WithoutSubs(peers, gone), {id}) == WithoutSubs(peers, gone + {id})
  {
    forall u | u in peers
      ensures (peers[u].subs - gone) - {id} == peers[u].subs - (gone + {id})
    {
    }
  }

  lemma {:induction false} WithoutNothing(peers: map<string, Peer>)
    ensures WithoutSubs(peers, {}) == peers
  {
    forall u | u in peers
      ensures peers[u].subs - {} == peers[u].subs
    {
    }
  }

  /** Controller state without the entries of some streams. */
  ghost function ForgottenStreams(m: map<string, A.AdaptiveState>, gone: set<string>): (r: map<string,
                                  A.AdaptiveState>) {
    map k | k in m && (forall x :: x in gone ==> !A.HasSuffix(k, ":" + x)) :: m[k]
  }

  lemma {:induction false} ForgottenMore(m: map<string, A.AdaptiveState>, gone: set<string>, x: string)
    ensures var part := ForgottenStreams(m, gone);
      A.Without(part, A.StreamKeys(part, x)) == ForgottenStreams(m, gone + {x})
  {
  }

  /** What the controller forgets when a presenter with these streams leaves: every key that
      begins with the user or ends with one of the streams; the other entries stay. */
  lemma {:induction false} LeaverForgottenExactly(m: map<string, A.AdaptiveState>, user: string, gone: set<string>,
                                                  k: string)
    ensures var part := ForgottenStreams(m, gone);
      var left := A.Without(part, A.UserKeys(part, user));
      var ofUser := |user| < |k| && k[..|user| + 1] == user + ":";
      var ofStream := exists x :: x in gone && |x| < |k| && k[|k| - |x| - 1..] == ":" + x;
      && (k in left <==> k in m && !ofUser && !ofStream)
      && (k in left ==> left[k] == m[k])
  {
    forall x | x in gone
      ensures A.HasSuffix(k, ":" + x) <==> |x| < |k| && k[|k| - |x| - 1..] == ":" + x
    {
    }
  }

  /** The best available layer: the preferred one, else the next in its order, else any. */
  method BestAvailableLayer(layers: map<QualityLayer, nat>, preferred: QualityLayer) returns (q: QualityLayer)
    ensures IsBestLayer(layers.Keys, preferred, q)
    ensures if layers == map[] then q == High else q in layers
  {
    var order := LayerPriority(preferred);
    for i := 0 to |order|
      invariant forall j :: 0 <= j < i ==> order[j] !in layers
    {
      if order[i] in layers {
        return order[i];
      }
    }
    if layers.Keys != {} {
      q :| q in layers.Keys;
    } else {
      q := High;
    }
  }

  /** The available layers in whatever order the map is walked. */
  method AvailableLayers(layers: map<QualityLayer, nat>) returns (available: seq<QualityLayer>)
    ensures (set q | q in available) == layers.Keys
  {
    available := [];
    var todo := layers.Keys;
    while todo != {}
      invariant todo <= layers.Keys
      invariant forall q :: q in available <==> q in layers.Keys && q !in todo
    {
      var q :| q in todo;
      todo := todo - {q};
      available := available + [q];
    }
  }

  method UnsubscribeAll(peers: map<string, Peer>, id: string) returns (after: map<string, Peer>)
    ensures after == WithoutSubs(peers, {id})
  {
    after := peers;
    var todo := peers.Keys;
    while todo != {}
      invariant todo <= peers.Keys && after.Keys == peers.Keys
      invariant forall u :: u in peers ==>
        after[u] == if u in todo then peers[u] else peers[u].(subs := peers[u].subs - {id})
    {
      var u :| u in todo;
      todo := todo - {u};
      after := after[u := after[u].(subs := after[u].subs - {id})];
    }
  }

  /** Every peer but the source subscribes to a router, unless it has that ID already. */
  method SubscribeAll(peers: map<string, Peer>, except: set<string>, id: string, local: nat)
    returns (after: map<string, Peer>, added: set<string>)
    ensures after == Subscribed(peers, except, id, local)
    ensures added == NewSubscribers(peers, except, id)
  {
    after, added := peers, {};
    var todo := peers.Keys;
    while todo != {}
      invariant todo <= peers.Keys && after.Keys == peers.Keys
      invariant forall u :: u in peers ==>
        after[u] == if u in todo || u in except || id in peers[u].subs then peers[u]
                    else peers[u].(subs := peers[u].subs[id := local])
      invariant forall u :: u in added <==> u in peers && u !in todo && u !in except && id !in peers[u].subs
    {
      var u :| u in todo;
      todo := todo - {u};
      if u !in except {
        if id !in after[u].subs {
          after := after[u := after[u].(subs := after[u].subs[id := local])];
          added := added + {u};
        }
      }
    }
  }

  /** Every peer but the source is put on the first layer of a stream. */
  method SwitchAll(peers: map<string, Peer>, except: set<string>, id: string, local: nat)
    returns (after: map<string, Peer>, moved: set<string>)
    ensures after == Switched(peers, except, id, local)
    ensures moved == peers.Keys - except
  {
    after, moved := peers, {};
    var todo := peers.Keys;
    while todo != {}
      invariant todo <= peers.Keys && after.Keys == peers.Keys
      invariant forall u :: u in peers ==>
        after[u] == if u in todo || u in except then peers[u] else peers[u].(subs := peers[u].subs[id := local])
      invariant moved == peers.Keys - except - todo
    {
      var u :| u in todo;
      todo := todo - {u};
      if u !in except {
        after := after[u := after[u].(subs := after[u].subs[id := local])];
        moved := moved + {u};
      }
    }
  }

  /** Put a newcomer on the best layer of one stream, if it should receive it. */
  method JoinStream(st: Stream, id: string, user: string, role: Role, subs: map<string, nat>)
    returns (st': Stream, subs': map<string, nat>)
    ensures StreamJoined(st, st', user, role)
    ensures Listens(st, user, role) ==> SenderOn(st', id, user, subs')
    ensures subs'.Keys == subs.Keys + if Listens(st, user, role) then {id} else {}
    ensures forall i :: i in subs && i != id ==> subs'[i] == subs[i]
  {
    st', subs' := st, subs;
    if !(role == Presenter && st.source == user) {
      var actual := BestAvailableLayer(st.layers, DefaultQuality(role));
      if actual in st.layers {
        subs' := subs[id := st.layers[actual]];
        st' := st.(subscribers := st.subscribers[user := actual]);
      }
    }
  }

  /** The routers while a new peer subscribes to them one by one. */
  ghost function TracksSoFar(was: map<string, Router>, todo: set<string>, user: string, role: Role): (r: map<string,
                             Router>) {
    map t | t in was ::
      if t !in todo && Receives(role, user, was[t].source) then was[t].(subscribers := was[t].subscribers + {user})
      else was[t]
  }

  lemma {:induction false} OneTrackMore(was: map<string, Router>, todo: set<string>, t: string, user: string,
                                        role: Role)
    requires t in todo && t in was
    ensures TracksSoFar(was, todo, user, role)[t] == was[t]
    ensures TracksSoFar(was, todo - {t}, user, role) ==
      (if Receives(role, user, was[t].source)
       then TracksSoFar(was, todo, user, role)[t := was[t].(subscribers := was[t].subscribers + {user})]
       else TracksSoFar(was, todo, user, role))
  {
  }

  /** The streams while a new peer joins them one by one. */
  ghost predicate JoinedSoFar(was: map<string, Stream>, streams: map<string, Stream>, todo: set<string>, user: string,
                              role: Role) {
    && streams.Keys == was.Keys
    && forall x :: x in was ==> if x in todo then streams[x] == was[x] else StreamJoined(was[x], streams[x], user, role)
  }

  /** Its subscriptions meanwhile. */
  ghost predicate SubscribedSoFar(was: map<string, Stream>, streams: map<string, Stream>, todo: set<string>,
                                  user: string, role: Role, before: map<string, nat>, subs: map<string, nat>)
  {
    && streams.Keys == was.Keys
    && (forall x :: x in was && x !in todo && Listens(was[x], user, role) ==> SenderOn(streams[x], x, user, subs))
    && (forall x :: x in subs <==> x in before || (x in was && x !in todo && Listens(was[x], user, role)))
    && (forall t :: t in before && t !in was ==> subs[t] == before[t])
  }

  lemma {:induction false} SubscribedOneMore(was: map<string, Stream>, mid: map<string, Stream>, todo: set<string>,
                                             x: string, user: string, role: Role, 
                                             before: map<string, nat>, had: map<string, nat>,
                                             streams: map<string, Stream>, subs: map<string, nat>)
    requires x in todo && x in was && mid.Keys == was.Keys && mid[x] == was[x] && x in streams
    requires streams == mid[x := streams[x]]
    requires SubscribedSoFar(was, mid, todo, user, role, before, had)
    requires Listens(was[x], user, role) ==> SenderOn(streams[x], x, user, subs)
    requires subs.Keys == had.Keys + if Listens(was[x], user, role) then {x} else {}
    requires forall i :: i in had && i != x ==> subs[i] == had[i]
    ensures SubscribedSoFar(was, streams, todo - {x}, user, role, before, subs)
  {
  }

  /** The stream a report is about: the one it names, or the only one there is. */
  predicate Names(s: State, given: string, id: string) {
    if given != "" then id == given
    else if |s.streams| == 1 then id in s.streams
    else id == ""
  }

  datatype AdaptResult = Adapted(decision: A.Decision) | Rejected

  class Room {
    const limits: Limits
    const adaptive: A.AdaptiveController
    var closed: bool
    var presenters: map<string, Peer>
    var viewers: map<string, Peer>
    var tracks: map<string, Router>
    var streams: map<string, Stream>
    var next: nat

    ghost function View(): (s: State)
      reads this
    {
      State(limits, closed, presenters, viewers, tracks, streams, next)
    }

    constructor (l: Limits, opts: A.AdaptiveOptions)
      ensures View() == NewRoom(l)
      ensures fresh(adaptive) && adaptive.options == opts.WithDefaults() && adaptive.state == map[]
    {
      limits := l.WithDefaults();
      adaptive := new A.AdaptiveController(opts);
      closed := false;
      presenters, viewers, tracks, streams, next := map[], map[], map[], map[], 0;
    }

    // ---- Joining ----

    method SubscribeToTracks(user: string, role: Role) returns (subs: map<string, nat>)
      modifies this`tracks
      ensures tracks == TracksWith(old(tracks), user, role)
      ensures subs.Keys == set t | t in old(tracks) && Receives(role, user, old(tracks)[t].source)
      ensures forall t :: t in subs ==> subs[t] == old(tracks)[t].local
    {
      subs := map[];
      var todo := tracks.Keys;
      ghost var was := tracks;
      assert TracksSoFar(was, todo, user, role) == was;
      while todo != {}
        invariant todo <= was.Keys && tracks == TracksSoFar(was, todo, user, role)
        invariant forall t :: t in subs <==> t in was && t !in todo && Receives(role, user, was[t].source)
        invariant forall t :: t in subs ==> subs[t] == was[t].local
      {
        var t :| t in todo;
        OneTrackMore(was, todo, t, user, role);
        todo := todo - {t};
        var router := tracks[t];
        if !(role == Presenter && router.source == user) {
          subs := subs[t := router.local];
          tracks := tracks[t := router.(subscribers := router.subscribers + {user})];
        }
      }
    }

    method SubscribeToStreams(user: string, role: Role, before: map<string, nat>) returns (subs: map<string, nat>)
      modifies this`streams
      ensures streams.Keys == old(streams).Keys
      ensures forall x :: x in streams ==> StreamJoined(old(streams)[x], streams[x], user, role)
      ensures forall x :: x in streams && Listens(old(streams)[x], user, role) ==> SenderOn(streams[x], x, user, subs)
      ensures forall x :: x in subs <==>
        x in before || (x in old(streams) && Listens(old(streams)[x], user, role))
      ensures forall t :: t in before && t !in streams ==> subs[t] == before[t]
    {
      subs := before;
      var todo := streams.Keys;
      ghost var was := streams;
      while todo != {}
        invariant todo <= was.Keys && JoinedSoFar(was, streams, todo, user, role)
        invariant SubscribedSoFar(was, streams, todo, user, role, before, subs)
      {
        var x :| x in todo;
        ghost var mid, had := streams, subs;
        var st;
        st, subs := JoinStream(streams[x], x, user, role, subs);
        streams := streams[x := st];
        SubscribedOneMore(was, mid, todo, x, user, role, before, had, streams, subs);
        todo := todo - {x};
      }
    }

    method SubscribePeerToExistingTracks(user: string, role: Role) returns (subs: map<string, nat>)
      modifies this`tracks, this`streams
      ensures Attached(old(View()), user, role, subs, tracks, streams)
    {
      var first := SubscribeToTracks(user, role);
      subs := SubscribeToStreams(user, role, first);
    }

    method AddPresenter(user: string) returns (ok: bool)
      modifies this
      ensures ok == Admits(old(View()), user, Presenter)
      ensures Step(old(View()), Op.AddPresenter(user), View())
    {
      if closed || user in presenters || user in viewers || |presenters| >= limits.maxPresenters {
        return false;
      }
      var subs := SubscribePeerToExistingTracks(user, Presenter);
      presenters := presenters[user := Peer(Presenter, subs)];
      ok := true;
    }

    method AddViewer(user: string) returns (ok: bool)
      modifies this
      ensures ok == Admits(old(View()), user, Viewer)
      ensures Step(old(View()), Op.AddViewer(user), View())
    {
      if closed || user in viewers || user in presenters || |viewers| >= limits.maxViewers {
        return false;
      }
      var subs := SubscribePeerToExistingTracks(user, Viewer);
      viewers := viewers[user := Peer(Viewer, subs)];
      ok := true;
    }

    // ---- Leaving ----

    method RemoveOwnedTracks(user: string) returns (ghost gone: set<string>)
      modifies this`tracks, this`presenters, this`viewers
      ensures gone == set t | t in old(tracks) && old(tracks)[t].source == user
      ensures tracks == old(tracks) - gone
      ensures presenters == WithoutSubs(old(presenters), gone) && viewers == WithoutSubs(old(viewers), gone)
    {
      gone := {};
      var todo := tracks.Keys;
      ghost var was := tracks;
      WithoutNothing(presenters);
      WithoutNothing(viewers);
      while todo != {}
        invariant todo <= was.Keys
        invariant gone == set t | t in was && t !in todo && was[t].source == user
        invariant tracks == was - gone
        invariant presenters == WithoutSubs(old(presenters), gone) && viewers == WithoutSubs(old(viewers), gone)
      {
        var t :| t in todo;
        todo := todo - {t};
        if tracks[t].source == user {
          WithoutMore(old(presenters), gone, t);
          WithoutMore(old(viewers), gone, t);
          gone := gone + {t};
          tracks := tracks - {t};
          presenters := UnsubscribeAll(presenters, t);
          viewers := UnsubscribeAll(viewers, t);
        }
      }
    }

    method RemoveOwnedStreams(user: string) returns (ghost gone: set<string>)
      modifies this`streams, this`presenters, this`viewers, adaptive
      ensures gone == set x | x in old(streams) && old(streams)[x].source == user
      ensures streams == old(streams) - gone
      ensures presenters == WithoutSubs(old(presenters), gone) && viewers == WithoutSubs(old(viewers), gone)
      ensures adaptive.state == ForgottenStreams(old(adaptive.state), gone)
    {
      gone := {};
      var todo := streams.Keys;
      ghost var was := streams;
      ghost var had := adaptive.state;
      WithoutNothing(presenters);
      WithoutNothing(viewers);
      while todo != {}
        invariant todo <= was.Keys
        invariant gone == set x | x in was && x !in todo && was[x].source == user
        invariant streams == was - gone
        invariant presenters == WithoutSubs(old(presenters), gone) && viewers == WithoutSubs(old(viewers), gone)
        invariant adaptive.state == ForgottenStreams(had, gone)
      {
        var x :| x in todo;
        todo := todo - {x};
        if streams[x].source == user {
          WithoutMore(old(presenters), gone, x);
          WithoutMore(old(viewers), gone, x);
          ForgottenMore(had, gone, x);
          gone := gone + {x};
          streams := streams - {x};
          adaptive.ForgetStream(x);
          presenters := UnsubscribeAll(presenters, x);
          viewers := UnsubscribeAll(viewers, x);
        }
      }
    }

    method RemovePresenterTracks(user: string)
      modifies this`tracks, this`streams, this`presenters, this`viewers, adaptive
      ensures var s := old(View());
        && tracks == (map t | t in s.tracks && s.tracks[t].source != user :: s.tracks[t])
        && streams == (map x | x in s.streams && s.streams[x].source != user :: s.streams[x])
        && presenters == WithoutSubs(s.presenters, OwnedIDs(s, user))
        && viewers == WithoutSubs(s.viewers, OwnedIDs(s, user))
        && adaptive.state == ForgottenStreams(old(adaptive.state), OwnedStreams(s, user))
    {
      ghost var gone := RemoveOwnedTracks(user);
      ghost var goneStreams := RemoveOwnedStreams(user);
      assert OwnedIDs(old(View()), user) == gone + goneStreams;
      WithoutUnion(old(presenters), gone, goneStreams);
      WithoutUnion(old(viewers), gone, goneStreams);
    }

    static lemma {:induction false} WithoutUnion(peers: map<string, Peer>, a: set<string>, b: set<string>)
      ensures WithoutSubs(WithoutSubs(peers, a), b) == WithoutSubs(peers, a + b)
    {
      forall u | u in peers
        ensures (peers[u].subs - a) - b == peers[u].subs - (a + b)
      {
      }
    }

    method RemoveViewerSubscriptions(user: string)
      modifies this`tracks, this`streams
      ensures tracks == map t | t in old(tracks) :: old(tracks)[t].(subscribers := old(tracks)[t].subscribers - {user})
      ensures streams ==
        map x | x in old(streams) :: old(streams)[x].(subscribers := old(streams)[x].subscribers - {user})
    {
      var todo := tracks.Keys;
      ghost var was := tracks;
      while todo != {}
        invariant todo <= was.Keys && tracks.Keys == was.Keys
        invariant forall t :: t in was ==>
          tracks[t] == if t in todo then was[t] else was[t].(subscribers := was[t].subscribers - {user})
        invariant streams == old(streams)
      {
        var t :| t in todo;
        todo := todo - {t};
        tracks := tracks[t := tracks[t].(subscribers := tracks[t].subscribers - {user})];
      }
      var todo' := streams.Keys;
      ghost var was' := streams;
      while todo' != {}
        invariant todo' <= was'.Keys && streams.Keys == was'.Keys
        invariant forall x :: x in was' ==>
          streams[x] == if x in todo' then was'[x] else was'[x].(subscribers := was'[x].subscribers - {user})
        invariant tracks ==
          map t | t in old(tracks) :: old(tracks)[t].(subscribers := old(tracks)[t].subscribers - {user})
      {
        var x :| x in todo';
        todo' := todo' - {x};
        streams := streams[x := streams[x].(subscribers := streams[x].subscribers - {user})];
      }
    }

    method RemovePeer(user: string)
      modifies this, adaptive
      ensures Step(old(View()), Op.RemovePeer(user), View())
      ensures !old(closed) && user in old(presenters) ==>
        var part := ForgottenStreams(old(adaptive.state), OwnedStreams(old(View()), user));
        adaptive.state == A.Without(part, A.UserKeys(part, user))
      ensures !old(closed) && user !in old(presenters) && user in old(viewers) ==>
        adaptive.state == A.Without(old(adaptive.state), A.UserKeys(old(adaptive.state), user))
    {
      if closed {
        return;
      }
      if user in presenters {
        presenters := presenters - {user};
        RemovePresenterTracks(user);
      } else if user in viewers {
        viewers := viewers - {user};
        RemoveViewerSubscriptions(user);
      } else {
        return;
      }
      adaptive.ForgetUser(user);
    }

    method Close()
      modifies this
      ensures Step(old(View()), Op.CloseRoom, View())
      ensures closed
      ensures !old(closed) ==> presenters == map[] && viewers == map[] && tracks == map[] && streams == map[]
      ensures old(closed) ==> View() == old(View())
    {
      if closed {
        return;
      }
      closed := true;
      presenters, viewers, tracks, streams := map[], map[], map[], map[];
    }

    // ---- Publishing ----

    method PublisherTrackCount(user: string) returns (count: nat)
      ensures count == PublisherCount(View(), user)
    {
      count := 0;
      var todo := tracks.Keys;
      ghost var seen: set<string> := {};
      while todo != {}
        invariant todo <= tracks.Keys
        invariant seen == set t | t in tracks && t !in todo && tracks[t].source == user
        invariant count == |seen|
      {
        var t :| t in todo;
        todo := todo - {t};
        if tracks[t].source == user {
          seen := seen + {t};
          count := count + 1;
        }
      }
      assert seen == OwnedTracks(View(), user);
      var todo' := streams.Keys;
      ghost var seen': set<string> := {};
      while todo' != {}
        invariant todo' <= streams.Keys
        invariant seen' == set x | x in streams && x !in todo' && streams[x].source == user
        invariant count == |seen| + |seen'|
      {
        var x :| x in todo';
        todo' := todo' - {x};
        if streams[x].source == user {
          seen' := seen' + {x};
          count := count + 1;
        }
      }
      assert seen' == OwnedStreams(View(), user);
    }

    method CanPublishTrack(user: string, id: string) returns (ok: bool)
      ensures ok == CanPublish(View(), user, id)
    {
      if limits.maxTracks <= 0 {
        return true;
      }
      if id in tracks && tracks[id].source == user {
        return true;
      }
      if id in streams && streams[id].source == user {
        return true;
      }
      var count := PublisherTrackCount(user);
      ok := count < limits.maxTracks;
    }

    /** Add a router and subscribe every presenter but the source and every viewer. */
    method AddRouter(source: string, id: string)
      modifies this`tracks, this`presenters, this`viewers, this`next
      ensures View() == TrackPublished(old(View()), source, id)
    {
      var local := next;
      next := next + 1;
      var addedP, addedV;
      presenters, addedP := SubscribeAll(presenters, {source}, id, local);
      viewers, addedV := SubscribeAll(viewers, {}, id, local);
      tracks := tracks[id := Router(source, local, addedP + addedV)];
    }

    /** Add a stream with its first layer and put every listener on it. */
    method AddStream(source: string, id: string, q: QualityLayer)
      modifies this`streams, this`presenters, this`viewers, this`next
      ensures View() == StreamPublished(old(View()), source, id, q)
    {
      var local := next;
      next := next + 1;
      var movedPresenters, movedViewers;
      presenters, movedPresenters := SwitchAll(presenters, {source}, id, local);
      viewers, movedViewers := SwitchAll(viewers, {}, id, local);
      var moved := movedPresenters + movedViewers;
      assert moved == (old(presenters).Keys - {source}) + old(viewers).Keys by {
        assert movedViewers == old(viewers).Keys;
      }
      streams := streams[id := Stream(source, map[q := local], AllOn(moved, q))];
    }

    method AddLayer(id: string, q: QualityLayer)
      requires id in streams
      modifies this`streams, this`next
      ensures View() == LayerAdded(old(View()), id, q)
    {
      streams := streams[id := streams[id].(layers := streams[id].layers[q := next])];
      next := next + 1;
    }

    /** A presenter published a track that is not simulcast. */
    method HandleNewTrack(user: string, id: string)
      modifies this
      ensures Step(old(View()), Op.PublishTrack(user, id), View())
    {
      var allowed := CanPublishTrack(user, id);
      if !allowed || closed {
        return;
      }
      AddRouter(user, id);
    }

    /** A presenter published one simulcast layer. */
    method HandleSimulcastTrack(user: string, id: string, rid: string)
      modifies this
      ensures Step(old(View()), Op.PublishLayer(user, id, rid), View())
    {
      if closed {
        return;
      }
      if id in streams {
        AddLayer(id, LayerFromRID(rid));
      } else {
        var allowed := CanPublishTrack(user, id);
        if allowed {
          AddStream(user, id, LayerFromRID(rid));
        }
      }
    }

    /** A packet relayed from another node; missing descriptor fields get stand-ins. */
    method InjectRelayPacket(trackID: string, streamID: string, source: string, layer: string)
      modifies this
      ensures var src := if source == "" then "relay" else source;
        Step(old(View()),
             if layer != "" then Op.InjectLayer(src, if streamID == "" then trackID else streamID, LayerOfString(layer))
             else Op.InjectTrack(src, if trackID == "" then streamID else trackID),
             View())
    {
      var sid := if streamID == "" then trackID else streamID;
      var tid := if trackID == "" then sid else trackID;
      var src := if source == "" then "relay" else source;
      if layer != "" {
        var q := LayerOfString(layer);
        if sid !in streams {
          AddStream(src, sid, q);
        } else if q !in streams[sid].layers {
          AddLayer(sid, q);
        }
      } else if tid !in tracks {
        AddRouter(src, tid);
      }
    }

    // ---- Switching layers ----

    method SetSubscriberQuality(user: string, id: string, quality: QualityLayer) returns (ok: bool)
      modifies this
      ensures Step(old(View()), Op.SetQuality(user, id, quality), View())
      ensures id in old(streams) && Live(old(View()), user) && old(streams)[id].layers != map[] ==>
        && ok && id in streams && streams[id].layers == old(streams)[id].layers && user in streams[id].subscribers
        && IsBestLayer(old(streams)[id].layers.Keys, quality, streams[id].subscribers[user])
    {
      if id !in streams {
        return false;
      }
      var st := streams[id];
      var actual := BestAvailableLayer(st.layers, quality);
      if user in st.subscribers && st.subscribers[user] == actual {
        return true;
      }
      if user !in presenters && user !in viewers {
        return false;
      }
      if actual !in st.layers {
        return false;
      }
      PutOnLayer(user, id, actual);
      ok := true;
    }

    /** Replace or add the sender, then record the layer. */
    method PutOnLayer(user: string, id: string, q: QualityLayer)
      requires id in streams && q in streams[id].layers && (user in presenters || user in viewers)
      modifies this`presenters, this`viewers, this`streams
      ensures View() == OnLayer(old(View()), user, id, q)
    {
      var local := streams[id].layers[q];
      if user in presenters {
        presenters := presenters[user := presenters[user].(subs := presenters[user].subs[id := local])];
      } else {
        viewers := viewers[user := viewers[user].(subs := viewers[user].subs[id := local])];
      }
      streams := streams[id := streams[id].(subscribers := streams[id].subscribers[user := q])];
    }

    // ---- Adaptation ----

    /** What the room holds about one subscriber of one stream. */
    ghost function Loop(user: string, id: string): (l: L.Loop)
      reads this, adaptive
    {
      L.Loop(A.Lookup(adaptive.state, A.Key(user, id)),
             if id in streams && user in streams[id].subscribers then Some(streams[id].subscribers[user]) else None)
    }

    /** Decide for a subscriber without applying the decision. */
    method PlanSubscriberAdaptation(sample: A.NetworkSample, clock: int)
      returns (r: AdaptResult, ghost available: seq<QualityLayer>, id: string)
      modifies adaptive`state
      ensures r.Adapted? <==> sample.userID != "" && id in streams && Live(View(), sample.userID)
      ensures sample.userID != "" ==> Names(View(), sample.streamID, id)
      ensures r.Rejected? ==> adaptive.state == old(adaptive.state)
      ensures r.Adapted? ==>
        && (set q | q in available) == streams[id].layers.Keys
        && var l := old(Loop(sample.userID, id));
           var (st, d) := A.DecideStep(adaptive.options, old(A.Lookup(adaptive.state, A.Key(sample.userID, id))),
                                       sample.(streamID := id), L.Shown(old(Loop(sample.userID, id)).recorded),
                                       available, sample.At(clock));
           r.decision == d && adaptive.state == old(adaptive.state)[A.Key(sample.userID, id) := st]
    {
      id, available := sample.streamID, [];
      if sample.userID == "" {
        return Rejected, [], id;
      }
      if id == "" && |streams| == 1 {
        id :| id in streams.Keys;
      }
      if id !in streams || (sample.userID !in presenters && sample.userID !in viewers) {
        return Rejected, [], id;
      }
      var st := streams[id];
      var current := if sample.userID in st.subscribers then st.subscribers[sample.userID] else Medium;
      var layers := AvailableLayers(st.layers);
      available := layers;
      var d := adaptive.Decide(sample.(streamID := id), current, layers, clock);
      r := Adapted(d);
    }

    /** Move a subscriber as decided; a decision without a change or a suspension is
        left alone, and one without a user or a stream is refused. */
    method ApplyAdaptiveDecision(d: A.Decision) returns (ok: bool)
      modifies this
      ensures d.streamID == "" || d.userID == "" ==> !ok
      ensures d.streamID == "" || d.userID == "" || !(d.changed || d.suspended) ==> View() == old(View())
      ensures d.streamID != "" && d.userID != "" && (d.changed || d.suspended) ==>
        && Step(old(View()), Op.SetQuality(d.userID, d.streamID, d.target), View())
        && (d.streamID in old(streams) && Live(old(View()), d.userID) && old(streams)[d.streamID].layers != map[] ==>
              && ok && d.streamID in streams && streams[d.streamID].layers == old(streams)[d.streamID].layers
              && d.userID in streams[d.streamID].subscribers
              && IsBestLayer(old(streams)[d.streamID].layers.Keys, d.target, streams[d.streamID].subscribers[d.userID]))
    {
      if d.streamID == "" || d.userID == "" {
        return false;
      }
      if !d.changed && !d.suspended {
        return true;
      }
      ok := SetSubscriberQuality(d.userID, d.streamID, d.target);
    }

    /** Decide for a subscriber and move it if needed. The room itself makes at most a
        layer switch, and controller state and recorded layer together make exactly
        one turn of the closed loop. */
    method AdaptSubscriber(sample: A.NetworkSample, clock: int)
      returns (r: AdaptResult, ghost available: seq<QualityLayer>, id: string)
      modifies this, adaptive`state
      ensures sample.userID != "" ==> Names(old(View()), sample.streamID, id)
      ensures r.Adapted? <==> sample.userID != "" && id in old(streams) && Live(old(View()), sample.userID)
      ensures View() == old(View()) ||
        (r.Adapted? && Step(old(View()), Op.SetQuality(sample.userID, id, r.decision.target), View()))
      ensures r.Adapted? && id != "" && L.KnownLayers(old(streams)[id].layers.Keys) ==>
        && (set q | q in available) == old(streams)[id].layers.Keys
        && Loop(sample.userID, id)
           == L.LoopStep(adaptive.options, old(streams)[id].layers.Keys, old(Loop(sample.userID, id)),
                         sample.(streamID := id), L.Tick(sample.At(clock), available))
    {
      r, available, id := PlanSubscriberAdaptation(sample, clock);
      if r.Adapted? {
        var _ := ApplyAdaptiveDecision(r.decision);
      }
    }
  }

  /** The node: a table of rooms with a limit on their number. */
  class Node {
    const maxRooms: int
    var rooms: map<string, Room>

    ghost predicate Within()
      reads this
    {
      maxRooms > 0 ==> |rooms| <= maxRooms
    }

    constructor (limit: int)
      ensures maxRooms == limit && rooms == map[] && Within()
    {
      maxRooms := limit;
      rooms := map[];
    }

    method CreateRoom(id: string, l: Limits, opts: A.AdaptiveOptions) returns (created: bool)
      requires Within()
      modifies this`rooms
      ensures Within()
      ensures created <==> id !in old(rooms) && (maxRooms > 0 ==> |old(rooms)| < maxRooms)
      ensures created ==>
        id in rooms && fresh(rooms[id]) && rooms[id].View() == NewRoom(l) && rooms == old(rooms)[id := rooms[id]]
      ensures !created ==> rooms == old(rooms)
    {
      if id in rooms {
        return false;
      }
      if maxRooms > 0 && |rooms| >= maxRooms {
        return false;
      }
      var room := new Room(l, opts);
      assert rooms[id := room].Keys == rooms.Keys + {id};
      assert |rooms[id := room].Keys| == |rooms.Keys| + 1;
      rooms := rooms[id := room];
      created := true;
    }

    method CloseRoom(id: string)
      requires Within()
      modifies this`rooms, rooms.Values
      ensures Within() && rooms == old(rooms) - {id}
      ensures id in old(rooms) ==> Step(old(rooms[id].View()), Op.CloseRoom, old(rooms[id]).View())
    {
      if id in rooms {
        var room := rooms[id];
        assert (rooms - {id}).Keys == rooms.Keys - {id};
        assert |(rooms - {id}).Keys| == |rooms.Keys| - 1;
        rooms := rooms - {id};
        room.Close();
      }
    }
  }
}
