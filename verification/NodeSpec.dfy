/**
  What each handler of one node does to the node's registries, as functions on values.

  A registry maps a stream id to the record of the registered object, so two registered
  objects are never confused; the classes in module Objects are proved to follow these
  functions.
 */
module NodeSpec {
  import opened Types

  /** A publisher's connection to this node (wrtc_source.go). `stamp` is the object's identity. */
  datatype Source = Source(
    stamp: nat, conn: ConnectionId, req: RequestId,
    hasVideo: bool, hasAudio: bool, ready: bool, tracks: Tracks)

  /** An inter-node input connection (wrtc_relay.go). */
  datatype Relay = Relay(
    remoteId: NodeId, ready: bool, hasVideo: bool, hasAudio: bool, tracks: Tracks)

  /** What a sink asks its client's socket to send. */
  datatype SinkMessage = Standby | SinkOffer(video: Option<TrackId>, audio: Option<TrackId>)

  /** A viewer's connection to this node (wrtc_sink.go).
      `queued` counts the `go sink.runAfterTracksReady()` tasks that have not run yet. */
  datatype Sink = Sink(
    conn: ConnectionId, req: RequestId, closed: bool,
    hasVideo: bool, hasAudio: bool, tracks: Tracks,
    peer: bool, queued: nat, sent: seq<SinkMessage>)

  /** An inter-node output connection (wrtc_source_sender.go).
      `origin` is the stamp of the source registered when the sender was created. */
  datatype Sender = Sender(
    stamp: nat, origin: nat, closed: bool,
    hasVideo: bool, hasAudio: bool, tracks: Tracks,
    peer: bool, queued: nat, offers: nat)

  datatype NodeState = NodeState(
    id: NodeId,
    sources: map<StreamId, Source>,
    relays: map<StreamId, Relay>,
    sinks: map<StreamId, map<SinkId, Sink>>,
    senders: map<StreamId, map<NodeId, Sender>>,
    sinkCount: nat,
    reserved: set<SinkId>,  // ids handed out by getSinkID whose sink is not registered yet
    nextStamp: nat)         // identities below this one have been used

  /** A handler's effect: the new registries and what it publishes, if anything. */
  datatype Effect = Effect(node: NodeState, pub: Option<Publication>)

  // ---------- Sinks and senders ----------

  function NewSink(conn: ConnectionId, req: RequestId): Sink {
    Sink(conn, req, false, false, false, NO_TRACKS, false, 0, [])
  }

  function SinkTracksReady(k: Sink, t: Tracks): Sink {
    k.(tracks := t, hasVideo := t.video.Some?, hasAudio := t.audio.Some?,
    peer := false, queued := k.queued + 1)
  }

  function SinkTracksClosed(k: Sink, t: Tracks): Sink {
    if k.tracks == t then
      k.(tracks := NO_TRACKS, hasVideo := false, hasAudio := false, peer := false, sent := k.sent + [Standby])
    else
      k
  }

  /** One queued task runs: it sends an offer unless the sink has no tracks to send. */
  function SinkRun(k: Sink): Sink
    requires k.queued > 0
  {
    var k' := k.(queued := k.queued - 1);
    if !k.hasVideo && !k.hasAudio then k'
    else
      k'.(peer := true,
      sent := k.sent + [SinkOffer(if k.hasVideo then k.tracks.video else None,
                                  if k.hasAudio then k.tracks.audio else None)])
  }

  /** The peer connection failed. */
  function SinkReconnect(k: Sink): Sink {
    k.(peer := false, queued := if k.closed then k.queued else k.queued + 1)
  }

  function SinkClose(k: Sink): Sink {
    k.(closed := true, peer := false, hasVideo := false, hasAudio := false, tracks := NO_TRACKS)
  }

  function NewSender(stamp: nat, origin: nat): Sender {
    Sender(stamp, origin, false, false, false, NO_TRACKS, false, 0, 0)
  }

  function SenderTracksReady(s: Sender, t: Tracks): Sender {
    s.(tracks := t, hasVideo := t.video.Some?, hasAudio := t.audio.Some?,
    peer := false, queued := s.queued + 1)
  }

  function SenderRun(s: Sender): Sender
    requires s.queued > 0
  {
    var s' := s.(queued := s.queued - 1);
    if !s.hasVideo && !s.hasAudio then s' else s'.(peer := true, offers := s.offers + 1)
  }

  function SenderClose(s: Sender): Sender {
    s.(closed := true, peer := false, hasVideo := false, hasAudio := false, tracks := NO_TRACKS)
  }

  function AllSinksReady(m: map<SinkId, Sink>, t: Tracks): map<SinkId, Sink> {
    map k | k in m :: SinkTracksReady(m[k], t)
  }

  function AllSinksClosed(m: map<SinkId, Sink>, t: Tracks): map<SinkId, Sink> {
    map k | k in m :: SinkTracksClosed(m[k], t)
  }

  function AllSendersReady(m: map<NodeId, Sender>, t: Tracks): map<NodeId, Sender> {
    map k | k in m :: SenderTracksReady(m[k], t)
  }

  /** Applies the sink loop of a handler to the sinks of `sid`, when there are any. */
  function SinksReadyAt(sinks: map<StreamId, map<SinkId, Sink>>, sid: StreamId, t: Tracks)
    : map<StreamId, map<SinkId, Sink>>
  {
    if sid in sinks then sinks[sid := AllSinksReady(sinks[sid], t)] else sinks
  }

  function SinksClosedAt(sinks: map<StreamId, map<SinkId, Sink>>, sid: StreamId, t: Tracks)
    : map<StreamId, map<SinkId, Sink>>
  {
    if sid in sinks then sinks[sid := AllSinksClosed(sinks[sid], t)] else sinks
  }

  function SendersReadyAt(senders: map<StreamId, map<NodeId, Sender>>, sid: StreamId, t: Tracks)
    : map<StreamId, map<NodeId, Sender>>
  {
    if sid in senders then senders[sid := AllSendersReady(senders[sid], t)] else senders
  }

  // ---------- Tracks arriving ----------

  /** Write-once: a second track of a kind is ignored, and so is a track of an unknown kind. */
  predicate AcceptsTrack(t: Tracks, kind: TrackKind) {
    match kind
    case Video => t.video.None?
    case Audio => t.audio.None?
    case OtherKind => false
  }

  function WithTrack(t: Tracks, kind: TrackKind, track: TrackId): Tracks {
    match kind
    case Video => t.(video := Some(track))
    case Audio => t.(audio := Some(track))
    case OtherKind => t
  }

  predicate AllExpected(hasVideo: bool, hasAudio: bool, t: Tracks) {
    (!hasAudio || t.audio.Some?) && (!hasVideo || t.video.Some?)
  }

  // ---------- Sources (node_sources.go) ----------

  function NewSource(stamp: nat, conn: ConnectionId, req: RequestId, hasVideo: bool, hasAudio: bool): Source {
    Source(stamp, conn, req, hasVideo, hasAudio, false, NO_TRACKS)
  }

  function RegisterSource(n: NodeState, sid: StreamId, s: Source): Effect {
    Effect(
      n.(sources := n.sources[sid := s], relays := n.relays - {sid}, senders := n.senders - {sid},
      nextStamp := n.nextStamp + 1),
      Some(Broadcast(Info, sid)))
  }

  function OnSourceReady(n: NodeState, sid: StreamId): NodeState
    requires sid in n.sources
  {
    var s := n.sources[sid].(ready := true);
    n.(sources := n.sources[sid := s],
    sinks := SinksReadyAt(n.sinks, sid, s.tracks),
    senders := SendersReadyAt(n.senders, sid, s.tracks))
  }

  /** OnTrack handler of the registered source (wrtc_source.go). */
  function SourceTrack(n: NodeState, sid: StreamId, kind: TrackKind, track: TrackId): NodeState
    requires sid in n.sources
  {
    var s := n.sources[sid];
    if !AcceptsTrack(s.tracks, kind) then n
    else
      var s' := s.(tracks := WithTrack(s.tracks, kind, track));
      var n' := n.(sources := n.sources[sid := s']);
      if AllExpected(s.hasVideo, s.hasAudio, s'.tracks) then OnSourceReady(n', sid) else n'
  }

  function OnSourceClosed(n: NodeState, sid: StreamId, tracks: Tracks): NodeState {
    n.(sources := n.sources - {sid}, senders := n.senders - {sid},
    sinks := SinksClosedAt(n.sinks, sid, tracks))
  }

  // ---------- Sinks (node_sinks.go) ----------

  function GetSinkID(n: NodeState): NodeState {
    n.(sinkCount := n.sinkCount + 1, reserved := n.reserved + {SinkId(n.sinkCount + 1)})
  }

  /** The ready tracks of the stream at this node: the source's if it is ready, else a ready relay's. */
  function ReadyTracks(n: NodeState, sid: StreamId): Option<Tracks> {
    if sid in n.sources && n.sources[sid].ready then Some(n.sources[sid].tracks)
    else if sid in n.relays && n.relays[sid].ready then Some(n.relays[sid].tracks)
    else None
  }

  function SinksAt(n: NodeState, sid: StreamId): map<SinkId, Sink> {
    if sid in n.sinks then n.sinks[sid] else map[]
  }

  function RegisterSink(n: NodeState, sid: StreamId, id: SinkId, k: Sink): Effect {
    var ready := ReadyTracks(n, sid);
    var k' := if ready.Some? then SinkTracksReady(k, ready.value) else k;
    Effect(
      n.(sinks := n.sinks[sid := SinksAt(n, sid)[id := k']], reserved := n.reserved - {id}),
      if ready.Some? then None else Some(Broadcast(Resolve, sid)))
  }

  function RemoveSink(n: NodeState, sid: StreamId, id: SinkId): NodeState {
    if sid !in n.sinks || id !in n.sinks[sid] then n
    else
      var rest := n.sinks[sid] - {id};
      if rest == map[] then n.(sinks := n.sinks - {sid}, relays := n.relays - {sid})
      else n.(sinks := n.sinks[sid := rest])
  }

  // ---------- Senders and relays (node_sender_relay.go) ----------

  function SendersAt(n: NodeState, sid: StreamId): map<NodeId, Sender> {
    if sid in n.senders then n.senders[sid] else map[]
  }

  function ReceiveConnect(n: NodeState, from: NodeId, sid: StreamId, stamp: nat): NodeState {
    if sid !in n.sources then n
    else
      var source := n.sources[sid];
      var sender := NewSender(stamp, source.stamp);
      var sender' := if source.ready then SenderTracksReady(sender, source.tracks) else sender;
      n.(senders := n.senders[sid := SendersAt(n, sid)[from := sender']], nextStamp := n.nextStamp + 1)
  }

  function OnSenderClosed(n: NodeState, sid: StreamId, remote: NodeId): NodeState {
    if sid !in n.senders || remote !in n.senders[sid] then n
    else
      var rest := n.senders[sid] - {remote};
      if rest == map[] then n.(senders := n.senders - {sid}) else n.(senders := n.senders[sid := rest])
  }

  function NewRelay(from: NodeId): Relay {
    Relay(from, false, false, false, NO_TRACKS)
  }

  function ReceiveInfo(n: NodeState, from: NodeId, sid: StreamId): Effect {
    var n' := n.(sources := n.sources - {sid});
    if sid in n.sinks && n.sinks[sid] != map[] then
      Effect(n'.(relays := n.relays[sid := NewRelay(from)]),
             Some(Direct(from, Connect, sid)))
    else
      Effect(n', None)
  }

  function ReceiveOffer(n: NodeState, sid: StreamId, hasVideo: bool, hasAudio: bool): NodeState {
    if sid in n.relays then
      n.(relays := n.relays[sid := n.relays[sid].(hasVideo := hasVideo, hasAudio := hasAudio)])
    else
      n
  }

  function OnRelayReady(n: NodeState, sid: StreamId): NodeState
    requires sid in n.relays
  {
    var r := n.relays[sid].(ready := true);
    n.(relays := n.relays[sid := r], sinks := SinksReadyAt(n.sinks, sid, r.tracks))
  }

  /** OnTrack handler of the registered relay (wrtc_relay.go). */
  function RelayTrack(n: NodeState, sid: StreamId, kind: TrackKind, track: TrackId): NodeState
    requires sid in n.relays
  {
    var r := n.relays[sid];
    if !AcceptsTrack(r.tracks, kind) then n
    else
      var r' := r.(tracks := WithTrack(r.tracks, kind, track));
      var n' := n.(relays := n.relays[sid := r']);
      if AllExpected(r.hasVideo, r.hasAudio, r'.tracks) then OnRelayReady(n', sid) else n'
  }

  /** A relay holding `tracks` lost its peer; it need not be the registered one. */
  function OnRelayClosed(n: NodeState, sid: StreamId, tracks: Tracks): Effect {
    Effect(
      n.(relays := n.relays - {sid}, sinks := SinksClosedAt(n.sinks, sid, tracks)),
      if sid in n.sinks && n.sinks[sid] != map[] then Some(Broadcast(Resolve, sid)) else None)
  }

  /** A source or relay that has left the registry gets its last track after all: the callbacks do not check. */
  function LateTracks(n: NodeState, sid: StreamId, tracks: Tracks, fromSource: bool): NodeState {
    n.(sinks := SinksReadyAt(n.sinks, sid, tracks),
    senders := if fromSource then SendersReadyAt(n.senders, sid, tracks) else n.senders)
  }

  /** OnTrack handler of a source or relay that has left, that holds `held` and expects the given kinds. */
  function LateTrack(n: NodeState, sid: StreamId, held: Tracks, hasVideo: bool, hasAudio: bool, kind: TrackKind,
                     track: TrackId, fromSource: bool): NodeState {
    var tracks := WithTrack(held, kind, track);
    if AcceptsTrack(held, kind) && AllExpected(hasVideo, hasAudio, tracks) then LateTracks(n, sid, tracks, fromSource)
    else n
  }

  // ---------- Tasks and peer events of registered sinks and senders ----------

  predicate IsSink(n: NodeState, sid: StreamId, id: SinkId) {
    sid in n.sinks && id in n.sinks[sid]
  }

  predicate IsSender(n: NodeState, sid: StreamId, remote: NodeId) {
    sid in n.senders && remote in n.senders[sid]
  }

  function WithSink(n: NodeState, sid: StreamId, id: SinkId, k: Sink): NodeState
    requires IsSink(n, sid, id)
  {
    n.(sinks := n.sinks[sid := n.sinks[sid][id := k]])
  }

  function RunSink(n: NodeState, sid: StreamId, id: SinkId): NodeState
    requires IsSink(n, sid, id) && n.sinks[sid][id].queued > 0
  {
    WithSink(n, sid, id, SinkRun(n.sinks[sid][id]))
  }

  function ReconnectSink(n: NodeState, sid: StreamId, id: SinkId): NodeState
    requires IsSink(n, sid, id)
  {
    WithSink(n, sid, id, SinkReconnect(n.sinks[sid][id]))
  }

  function RunSender(n: NodeState, sid: StreamId, remote: NodeId): Effect
    requires IsSender(n, sid, remote) && n.senders[sid][remote].queued > 0
  {
    var s := n.senders[sid][remote];
    Effect(
      n.(senders := n.senders[sid := n.senders[sid][remote := SenderRun(s)]]),
      if !s.hasVideo && !s.hasAudio then None else Some(Direct(remote, Offer(s.hasVideo, s.hasAudio), sid)))
  }

  // ---------- One step of a node ----------

  datatype Step =
    | GetSinkIDStep
    | RegisterSourceStep(sid: StreamId, source: Source)
    | SourceTrackStep(sid: StreamId, kind: TrackKind, track: TrackId)
    | SourceClosedStep(sid: StreamId)
    | RegisterSinkStep(sid: StreamId, id: SinkId, sink: Sink)
    | RemoveSinkStep(sid: StreamId, id: SinkId)
    | RelayTrackStep(sid: StreamId, kind: TrackKind, track: TrackId)
    | RelayClosedStep(sid: StreamId, tracks: Tracks)
    | SenderClosedStep(sid: StreamId, remote: NodeId)
    | LateTracksStep(sid: StreamId, tracks: Tracks, fromSource: bool)
    | RunSinkStep(sid: StreamId, id: SinkId)
    | ReconnectSinkStep(sid: StreamId, id: SinkId)
    | RunSenderStep(sid: StreamId, remote: NodeId)
    | ConnectStep(from: NodeId, sid: StreamId, stamp: nat)
    | InfoStep(from: NodeId, sid: StreamId)
    | OfferStep(sid: StreamId, hasVideo: bool, hasAudio: bool)

  /** When a step can happen at all: events come from objects that exist, and messages from other nodes. */
  predicate Possible(n: NodeState, step: Step) {
    match step
    case SourceTrackStep(sid, kind, track) => sid in n.sources
    case SourceClosedStep(sid) => sid in n.sources
    case RelayTrackStep(sid, kind, track) => sid in n.relays
    case RunSinkStep(sid, id) => IsSink(n, sid, id) && n.sinks[sid][id].queued > 0
    case ReconnectSinkStep(sid, id) => IsSink(n, sid, id)
    case RunSenderStep(sid, remote) => IsSender(n, sid, remote) && n.senders[sid][remote].queued > 0
    case ConnectStep(from, sid, stamp) => from != n.id
    case InfoStep(from, sid) => from != n.id
    case _ => true
  }

  function Apply(n: NodeState, step: Step): Effect
    requires Possible(n, step)
  {
    match step
    case GetSinkIDStep => Effect(GetSinkID(n), None)
    case RegisterSourceStep(sid, s) => RegisterSource(n, sid, s)
    case SourceTrackStep(sid, kind, track) => Effect(SourceTrack(n, sid, kind, track), None)
    case SourceClosedStep(sid) => Effect(OnSourceClosed(n, sid, n.sources[sid].tracks), None)
    case RegisterSinkStep(sid, id, k) => RegisterSink(n, sid, id, k)
    case RemoveSinkStep(sid, id) => Effect(RemoveSink(n, sid, id), None)
    case RelayTrackStep(sid, kind, track) => Effect(RelayTrack(n, sid, kind, track), None)
    case RelayClosedStep(sid, tracks) => OnRelayClosed(n, sid, tracks)
    case SenderClosedStep(sid, remote) => Effect(OnSenderClosed(n, sid, remote), None)
    case LateTracksStep(sid, tracks, fromSource) => Effect(LateTracks(n, sid, tracks, fromSource), None)
    case RunSinkStep(sid, id) => Effect(RunSink(n, sid, id), None)
    case ReconnectSinkStep(sid, id) => Effect(ReconnectSink(n, sid, id), None)
    case RunSenderStep(sid, remote) => RunSender(n, sid, remote)
    case ConnectStep(from, sid, stamp) => Effect(ReceiveConnect(n, from, sid, stamp), None)
    case InfoStep(from, sid) => ReceiveInfo(n, from, sid)
    case OfferStep(sid, v, a) => Effect(ReceiveOffer(n, sid, v, a), None)
  }

  function Init(id: NodeId): NodeState {
    NodeState(id, map[], map[], map[], map[], 0, {}, 0)
  }
}
