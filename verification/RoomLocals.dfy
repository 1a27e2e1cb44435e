/** The local tracks of a room: each is made for one place, a track or one layer of a
    stream, and no two places ever share one. */
module RoomLocals {
  import opened Wrappers
  import opened Quality
  import opened RoomState

  datatype Place = TrackAt(id: string) | LayerAt(id: string, layer: QualityLayer)

  /** The local track at a place. */
  function Local(s: State, p: Place): (n: Option<nat>) {
    LocalIn(s.tracks, s.streams, p)
  }

  function LocalIn(tracks: map<string, Router>, streams: map<string, Stream>, p: Place): (n: Option<nat>) {
    match p
    case TrackAt(id) => if id in tracks then Some(tracks[id].local) else None
    case LayerAt(id, q) => if id in streams && q in streams[id].layers then Some(streams[id].layers[q]) else None
  }

  /** Every local track is older than the next one, and no place shares its own. */
  ghost predicate LocalsDiffer(s: State) {
    && (forall p :: Local(s, p).Some? ==> Local(s, p).value < s.next)
    && (forall p, r :: Local(s, p).Some? && Local(s, p) == Local(s, r) ==> p == r)
  }

  /** Places keep their local track or lose it. */
  ghost predicate PlacesKept(s: State, s': State) {
    s'.next == s.next && forall p :: Local(s', p) == Local(s, p) || Local(s', p) == None
  }

  /** One place gets a new local track. */
  ghost predicate PlaceFilled(s: State, s': State, at: Place) {
    && s'.next == s.next + 1 && Local(s', at) == Some(s.next)
    && forall p :: p != at ==> Local(s', p) == Local(s, p)
  }

  lemma {:induction false} PlacesOfJoin(s: State, user: string, role: Role, s': State)
    requires JoinedAs(s, user, role, s')
    ensures PlacesKept(s, s')
  {
    if Admits(s, user, role) {
      forall p
        ensures Local(s', p) == Local(s, p)
      {
        if p.LayerAt? && p.id in s.streams {
          assert StreamJoined(s.streams[p.id], s'.streams[p.id], user, role);
        }
      }
    }
  }

  lemma {:induction false} PlacesOfLeave(s: State, user: string)
    ensures PlacesKept(s, PresenterLeft(s, user)) && PlacesKept(s, ViewerLeft(s, user))
  {
  }

  lemma {:induction false} PlacesOfSwitch(s: State, user: string, id: string, q: QualityLayer)
    requires id in s.streams && q in s.streams[id].layers
    ensures PlacesKept(s, OnLayer(s, user, id, q))
  {
    var streams' := OnLayer(s, user, id, q).streams;
    assert forall x :: x in s.streams ==> streams'[x].layers == s.streams[x].layers;
  }

  lemma {:induction false} PlacesOfPeerOp(s: State, op: Op, s': State)
    requires Step(s, op, s') && (op.RemovePeer? || op.CloseRoom? || op.SetQuality?)
    ensures PlacesKept(s, s')
  {
    if op.RemovePeer? {
      PlacesOfLeave(s, op.user);
    } else if op.SetQuality? && s' != s {
      var actual :| actual in s.streams[op.id].layers && s' == OnLayer(s, op.user, op.id, actual);
      PlacesOfSwitch(s, op.user, op.id, actual);
    }
  }

  lemma {:induction false} TrackFills(tracks: map<string, Router>, streams: map<string, Stream>, id: string, r: Router)
    ensures LocalIn(tracks[id := r], streams, TrackAt(id)) == Some(r.local)
    ensures forall p :: p != TrackAt(id) ==> LocalIn(tracks[id := r], streams, p) == LocalIn(tracks, streams, p)
  {
  }

  /** A stream that is new, or has one layer set anew. */
  lemma {:induction false} LayerFills(tracks: map<string, Router>, streams: map<string, Stream>, id: string, st: Stream,
                                      q: QualityLayer)
    requires q in st.layers
    requires forall k :: k != q ==> (k in st.layers <==> id in streams && k in streams[id].layers)
    requires forall k :: k != q && k in st.layers ==> st.layers[k] == streams[id].layers[k]
    ensures LocalIn(tracks, streams[id := st], LayerAt(id, q)) == Some(st.layers[q])
    ensures forall p :: p != LayerAt(id, q) ==> LocalIn(tracks, streams[id := st], p) == LocalIn(tracks, streams, p)
  {
  }

  lemma {:induction false} PlacesOfTrack(s: State, source: string, id: string)
    ensures PlaceFilled(s, TrackPublished(s, source, id), TrackAt(id))
  {
    TrackFills(s.tracks, s.streams, id, TrackPublished(s, source, id).tracks[id]);
  }

  lemma {:induction false} PlacesOfStream(s: State, source: string, id: string, q: QualityLayer)
    requires id !in s.streams
    ensures PlaceFilled(s, StreamPublished(s, source, id, q), LayerAt(id, q))
  {
    LayerFills(s.tracks, s.streams, id, StreamPublished(s, source, id, q).streams[id], q);
  }

  lemma {:induction false} PlacesOfLayer(s: State, id: string, q: QualityLayer)
    requires id in s.streams
    ensures PlaceFilled(s, LayerAdded(s, id, q), LayerAt(id, q))
  {
    LayerFills(s.tracks, s.streams, id, LayerAdded(s, id, q).streams[id], q);
  }

  lemma {:induction false} KeptDiffer(s: State, s': State)
    requires LocalsDiffer(s) && PlacesKept(s, s')
    ensures LocalsDiffer(s')
  {
  }

  lemma {:induction false} FilledDiffer(s: State, s': State, at: Place)
    requires LocalsDiffer(s) && PlaceFilled(s, s', at)
    ensures LocalsDiffer(s')
  {
  }

  lemma {:induction false} DifferStep(s: State, op: Op, s': State)
    requires LocalsDiffer(s) && Step(s, op, s')
    ensures LocalsDiffer(s')
  {
    match op
    case AddPresenter(u) => PlacesOfJoin(s, u, Presenter, s'); KeptDiffer(s, s');
    case AddViewer(u) => PlacesOfJoin(s, u, Viewer, s'); KeptDiffer(s, s');
    case PublishTrack(u, id) => DifferOfPublish(s, u, id, High, s');
    case PublishLayer(u, id, rid) => DifferOfPublish(s, u, id, LayerFromRID(rid), s');
    case InjectTrack(source, id) => DifferOfPublish(s, source, id, High, s');
    case InjectLayer(source, id, layer) => DifferOfPublish(s, source, id, layer, s');
    case _ => PlacesOfPeerOp(s, op, s'); KeptDiffer(s, s');
  }

  lemma {:induction false} DifferOfPublish(s: State, source: string, id: string, q: QualityLayer, s': State)
    requires LocalsDiffer(s)
    requires
      || s' == s
      || s' == TrackPublished(s, source, id)
      || (id !in s.streams && s' == StreamPublished(s, source, id, q))
      || (id in s.streams && s' == LayerAdded(s, id, q))
    ensures LocalsDiffer(s')
  {
    if s' == TrackPublished(s, source, id) {
      PlacesOfTrack(s, source, id);
      FilledDiffer(s, s', TrackAt(id));
    } else if s' != s {
      if id in s.streams {
        PlacesOfLayer(s, id, q);
      } else {
        PlacesOfStream(s, source, id, q);
      }
      FilledDiffer(s, s', LayerAt(id, q));
    }
  }

  /** In every reachable state, whatever the run, a local track tells its track or layer. */
  lemma {:induction false} LocalsAlwaysDiffer(limits: Limits, ss: seq<State>, ops: seq<Op>, i: nat)
    requires Run(limits, ss, ops) && i < |ss|
    ensures LocalsDiffer(ss[i])
    decreases i
  {
    if i > 0 {
      LocalsAlwaysDiffer(limits, ss, ops, i - 1);
      DifferStep(ss[i - 1], ops[i - 1], ss[i]);
    }
  }
}
