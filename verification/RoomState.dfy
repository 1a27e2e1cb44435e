/** A media room as a state and its atomic steps: who is in it, what is published,
    and which sender carries which local track to whom. */
module RoomState {
  import opened Quality

  datatype Role = Presenter | Viewer

  /** A participant; `subs` maps a track or stream ID to the identity of the local
      track its sender carries. */
  datatype Peer = Peer(role: Role, subs: map<string, nat>)

  datatype Router = Router(source: string, local: nat, subscribers: set<string>)

  /** A simulcast stream: local track per layer, layer recorded per subscriber. */
  datatype Stream = Stream(source: string, layers: map<QualityLayer, nat>, subscribers: map<string, QualityLayer>)

  datatype Limits = Limits(maxPresenters: int, maxViewers: int, maxTracks: int)
  {
    function WithDefaults(): (l: Limits)
      ensures l.maxPresenters > 0 && l.maxViewers > 0 && l.maxTracks > 0
      ensures maxPresenters > 0 ==> l.maxPresenters == maxPresenters
      ensures maxViewers > 0 ==> l.maxViewers == maxViewers
      ensures maxTracks > 0 ==> l.maxTracks == maxTracks
    {
      Limits(if maxPresenters <= 0 then 50 else maxPresenters,
             if maxViewers <= 0 then 10000 else maxViewers,
             if maxTracks <= 0 then 8 else maxTracks)
    }
  }

  datatype State = State(
    limits: Limits,
    closed: bool,
    presenters: map<string, Peer>,
    viewers: map<string, Peer>,
    tracks: map<string, Router>,
    streams: map<string, Stream>,
    next: nat)

  datatype Op =
    | AddPresenter(user: string)
    | AddViewer(user: string)
    | RemovePeer(user: string)
    | CloseRoom
    | PublishTrack(user: string, id: string)
    | PublishLayer(user: string, id: string, rid: string)
    | InjectTrack(source: string, id: string)
    | InjectLayer(source: string, id: string, layer: QualityLayer)
    | SetQuality(user: string, id: string, quality: QualityLayer)

  predicate IsPeerOp(op: Op) {
    op.AddPresenter? || op.AddViewer? || op.RemovePeer? || op.CloseRoom?
  }

  function NewRoom(limits: Limits): (s: State) {
    State(limits.WithDefaults(), false, map[], map[], map[], map[], 0)
  }

  // ---- Joining ----

  predicate Receives(role: Role, user: string, source: string) {
    role == Viewer || source != user
  }

  function DefaultQuality(role: Role): (q: QualityLayer) {
    if role == Presenter then High else Medium
  }

  /** The router table once a new peer listens to everything it should. */
  function TracksWith(tracks: map<string, Router>, user: string, role: Role): (r: map<string, Router>) {
    map t | t in tracks ::
      if Receives(role, user, tracks[t].source) then tracks[t].(subscribers := tracks[t].subscribers + {user})
      else tracks[t]
  }

  /** A new peer listens to the stream. */
  predicate Listens(st: Stream, user: string, role: Role) {
    Receives(role, user, st.source) && st.layers != map[]
  }

  /** One stream before and after a new peer is put on its best available layer. */
  ghost predicate StreamJoined(st: Stream, st': Stream, user: string, role: Role) {
    if Listens(st, user, role) then
      && user in st'.subscribers
      && st' == st.(subscribers := st.subscribers[user := st'.subscribers[user]])
      && st'.subscribers[user] in st.layers
      && IsBestLayer(st.layers.Keys, DefaultQuality(role), st'.subscribers[user])
    else st' == st
  }

  /** Its sender carries that layer's local track. */
  predicate SenderOn(st: Stream, id: string, user: string, subs: map<string, nat>) {
    && user in st.subscribers && st.subscribers[user] in st.layers
    && id in subs && subs[id] == st.layers[st.subscribers[user]]
  }

  function Receivable(s: State, user: string, role: Role): (ids: set<string>) {
    (set t | t in s.tracks && Receives(role, user, s.tracks[t].source))
    + (set x | x in s.streams && Listens(s.streams[x], user, role))
  }

  ghost predicate Attached(s: State, user: string, role: Role, subs: map<string, nat>,
                           tracks: map<string, Router>, streams: map<string, Stream>)
  {
    && tracks == TracksWith(s.tracks, user, role)
    && streams.Keys == s.streams.Keys
    && (forall x :: x in s.streams ==> StreamJoined(s.streams[x], streams[x], user, role))
    && (forall x :: x in s.streams && Listens(s.streams[x], user, role) ==> SenderOn(streams[x], x, user, subs))
    && subs.Keys == Receivable(s, user, role)
    && (forall t :: t in s.tracks && t in subs && t !in s.streams ==> subs[t] == s.tracks[t].local)
  }

  predicate Admits(s: State, user: string, role: Role) {
    && !s.closed && user !in s.presenters && user !in s.viewers
    && (role == Presenter ==> |s.presenters| < s.limits.maxPresenters)
    && (role == Viewer ==> |s.viewers| < s.limits.maxViewers)
  }

  ghost predicate JoinedAs(s: State, user: string, role: Role, s': State) {
    if !Admits(s, user, role) then s' == s
    else
      && user in (if role == Presenter then s'.presenters else s'.viewers)
      && var p := if role == Presenter then s'.presenters[user] else s'.viewers[user];
        && p.role == role
        && Attached(s, user, role, p.subs, s'.tracks, s'.streams)
        && s'.presenters == (if role == Presenter then s.presenters[user := p] else s.presenters)
        && s'.viewers == (if role == Viewer then s.viewers[user := p] else s.viewers)
        && s'.limits == s.limits && s'.closed == s.closed && s'.next == s.next
  }

  // ---- Leaving ----

  function OwnedTracks(s: State, user: string): (ids: set<string>) {
    set t | t in s.tracks && s.tracks[t].source == user
  }

  function OwnedStreams(s: State, user: string): (ids: set<string>) {
    set x | x in s.streams && s.streams[x].source == user
  }

  function OwnedIDs(s: State, user: string): (ids: set<string>) {
    OwnedTracks(s, user) + OwnedStreams(s, user)
  }

  function WithoutSubs(peers: map<string, Peer>, gone: set<string>): (r: map<string, Peer>)
    ensures r.Keys == peers.Keys && forall u :: u in r ==> r[u].role == peers[u].role
  {
    map u | u in peers :: peers[u].(subs := peers[u].subs - gone)
  }

  function PresenterLeft(s: State, user: string): (r: State) {
    s.(presenters := WithoutSubs(s.presenters - {user}, OwnedIDs(s, user)),
       viewers := WithoutSubs(s.viewers, OwnedIDs(s, user)),
       tracks := map t | t in s.tracks && s.tracks[t].source != user :: s.tracks[t],
       streams := map x | x in s.streams && s.streams[x].source != user :: s.streams[x])
  }

  function ViewerLeft(s: State, user: string): (r: State) {
    s.(viewers := s.viewers - {user},
       tracks := map t | t in s.tracks :: s.tracks[t].(subscribers := s.tracks[t].subscribers - {user}),
       streams := map x | x in s.streams :: s.streams[x].(subscribers := s.streams[x].subscribers - {user}))
  }

  // ---- Publishing ----

  function PublisherCount(s: State, user: string): (n: nat) {
    |OwnedTracks(s, user)| + |OwnedStreams(s, user)|
  }

  predicate CanPublish(s: State, user: string, id: string) {
    || s.limits.maxTracks <= 0
    || (id in s.tracks && s.tracks[id].source == user)
    || (id in s.streams && s.streams[id].source == user)
    || PublisherCount(s, user) < s.limits.maxTracks
  }

  /** Peers listening to a new router; a peer that already has that ID keeps its sender. */
  function Subscribed(peers: map<string, Peer>, except: set<string>, id: string, local: nat): (r: map<string, Peer>)
    ensures r.Keys == peers.Keys && forall u :: u in r ==> r[u].role == peers[u].role
  {
    map u | u in peers ::
      if u in except || id in peers[u].subs then peers[u]
      else peers[u].(subs := peers[u].subs[id := local])
  }

  function NewSubscribers(peers: map<string, Peer>, except: set<string>, id: string): (us: set<string>) {
    set u | u in peers && u !in except && id !in peers[u].subs
  }

  function TrackPublished(s: State, source: string, id: string): (r: State) {
    s.(tracks := s.tracks[id := Router(source, s.next,
                                       NewSubscribers(s.presenters, {source}, id) + NewSubscribers(s.viewers, {}, id))],
       presenters := Subscribed(s.presenters, {source}, id, s.next),
       viewers := Subscribed(s.viewers, {}, id, s.next),
       next := s.next + 1)
  }

  /** Peers put on the first layer of a new stream. */
  function Switched(peers: map<string, Peer>, except: set<string>, id: string, local: nat): (r: map<string, Peer>)
    ensures r.Keys == peers.Keys && forall u :: u in r ==> r[u].role == peers[u].role
  {
    map u | u in peers ::
      if u in except then peers[u] else peers[u].(subs := peers[u].subs[id := local])
  }

  function AllOn(users: set<string>, q: QualityLayer): (m: map<string, QualityLayer>)
    ensures m.Keys == users && forall u :: u in m ==> m[u] == q
  {
    map u | u in users :: q
  }

  function StreamPublished(s: State, source: string, id: string, q: QualityLayer): (r: State) {
    s.(streams := s.streams[id := Stream(source, map[q := s.next],
                                         AllOn((s.presenters.Keys - {source}) + s.viewers.Keys, q))],
       presenters := Switched(s.presenters, {source}, id, s.next),
       viewers := Switched(s.viewers, {}, id, s.next),
       next := s.next + 1)
  }

  function LayerAdded(s: State, id: string, q: QualityLayer): (r: State)
    requires id in s.streams
  {
    s.(streams := s.streams[id := s.streams[id].(layers := s.streams[id].layers[q := s.next])],
       next := s.next + 1)
  }

  // ---- Switching layers ----

  /** The subscriber's sender and record moved to one layer of the stream. */
  function OnLayer(s: State, user: string, id: string, q: QualityLayer): (r: State)
    requires id in s.streams && q in s.streams[id].layers
  {
    var local := s.streams[id].layers[q];
    s.(streams := s.streams[id := s.streams[id].(subscribers := s.streams[id].subscribers[user := q])],
       presenters := if user in s.presenters
                     then s.presenters[user := s.presenters[user].(subs := s.presenters[user].subs[id := local])]
                     else s.presenters,
       viewers := if user !in s.presenters && user in s.viewers
                  then s.viewers[user := s.viewers[user].(subs := s.viewers[user].subs[id := local])]
                  else s.viewers)
  }

  predicate Live(s: State, user: string) {
    user in s.presenters || user in s.viewers
  }

  ghost predicate QualitySet(s: State, user: string, id: string, quality: QualityLayer, s': State) {
    if id !in s.streams then s' == s
    else
      var st := s.streams[id];
      exists actual :: IsBestLayer(st.layers.Keys, quality, actual)
        && s' == if (user in st.subscribers && st.subscribers[user] == actual) || !Live(s, user) || actual !in st.layers
                 then s else OnLayer(s, user, id, actual)
  }

  /** One atomic step of the room. */
  ghost predicate Step(s: State, op: Op, s': State) {
    match op
    case AddPresenter(u) => JoinedAs(s, u, Presenter, s')
    case AddViewer(u) => JoinedAs(s, u, Viewer, s')
    case RemovePeer(u) =>
      s' == if s.closed then s
            else if u in s.presenters then PresenterLeft(s, u)
            else if u in s.viewers then ViewerLeft(s, u)
            else s
    case CloseRoom =>
      s' == if s.closed then s
            else s.(closed := true, presenters := map[], viewers := map[], tracks := map[], streams := map[])
    case PublishTrack(u, id) =>
      s' == if !CanPublish(s, u, id) || s.closed then s else TrackPublished(s, u, id)
    case PublishLayer(u, id, rid) =>
      s' == if s.closed then s
            else if id in s.streams then LayerAdded(s, id, LayerFromRID(rid))
            else if !CanPublish(s, u, id) then s
            else StreamPublished(s, u, id, LayerFromRID(rid))
    case InjectTrack(source, id) =>
      s' == if id in s.tracks then s else TrackPublished(s, source, id)
    case InjectLayer(source, id, layer) =>
      s' == if id !in s.streams then StreamPublished(s, source, id, layer)
            else if layer in s.streams[id].layers then s
            else LayerAdded(s, id, layer)
    case SetQuality(u, id, q) => QualitySet(s, u, id, q, s')
  }

  /** A run of a room: states before, between and after its steps. */
  ghost predicate Run(limits: Limits, ss: seq<State>, ops: seq<Op>) {
    && |ss| == |ops| + 1
    && ss[0] == NewRoom(limits)
    && forall i :: 0 <= i < |ops| ==> Step(ss[i], ops[i], ss[i + 1])
  }
}
