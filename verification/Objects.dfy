/**
  The node, its clients' connections and its media objects as the program has them: objects
  that refer to each other and update their fields in place. Every method is proved to do
  what its function in NodeSpec or Requests says.

  `model` is the value that a node's fields show as, and `pool` holds every object the node has
  worked with, whether it is registered or has left.
 */
module Objects {
  import opened Types
  import NodeSpec
  import opened HandlerSteps
  import opened Requests
  import RequestInvariants
  import RequestRuns
  import NodeInvariants
  import StreamSpec

  /** wrtc_sink.go. */
  class WRTC_Sink {
    const sinkId: SinkId
    const requestId: RequestId
    const sid: StreamId
    const node: WebRTC_CDN_Node
    const connection: Connection_Handler

    var closed: bool
    var peerConnection: bool  // whether there is one
    var hasAudio: bool
    var localTrackAudio: Option<TrackId>
    var hasVideo: bool
    var localTrackVideo: Option<TrackId>
    var queued: nat           // `go sink.runAfterTracksReady()` tasks not run yet
    var sent: seq<NodeSpec.SinkMessage>

    constructor (sinkId: SinkId, requestId: RequestId, sid: StreamId, node: WebRTC_CDN_Node,
                 connection: Connection_Handler)
      ensures this.sinkId == sinkId && this.requestId == requestId && this.sid == sid
      ensures this.node == node && this.connection == connection
      ensures Rec() == NodeSpec.NewSink(connection.id, requestId)
      ensures Obj() == SinkObject(sid, connection.id, requestId, false)
    {
      this.sinkId, this.requestId, this.sid, this.node, this.connection := sinkId, requestId, sid, node, connection;
      closed, peerConnection, hasAudio, hasVideo, queued, sent := false, false, false, false, 0, [];
      localTrackAudio, localTrackVideo := None, None;
    }

    /** The sink as a value. */
    ghost function Rec(): NodeSpec.Sink
      reads this
    {
      NodeSpec.Sink(connection.id, requestId, closed, hasVideo, hasAudio,
                    Tracks(localTrackVideo, localTrackAudio), peerConnection, queued, sent)
    }

    /** What is known of the sink object even after it has left the registry. */
    ghost function Obj(): SinkObject
      reads this
    {
      SinkObject(sid, connection.id, requestId, closed)
    }

    /** A closed sink has nothing to offer. */
    ghost predicate SilentIfClosed()
      reads this
    {
      closed ==> !hasVideo && !hasAudio
    }

    method OnTracksReady(localTrackVideo: Option<TrackId>, localTrackAudio: Option<TrackId>)
      modifies this
      ensures Obj() == old(Obj()) && closed == old(closed)
      ensures Rec() == NodeSpec.SinkTracksReady(old(Rec()), Tracks(localTrackVideo, localTrackAudio))
    {
      this.localTrackVideo := localTrackVideo;
      hasVideo := localTrackVideo.Some?;
      this.localTrackAudio := localTrackAudio;
      hasAudio := localTrackAudio.Some?;
      peerConnection := false;
      queued := queued + 1;
    }

    method OnTracksClosed(localTrackVideo: Option<TrackId>, localTrackAudio: Option<TrackId>)
      modifies this
      ensures Obj() == old(Obj()) && (old(SilentIfClosed()) ==> SilentIfClosed())
      ensures Rec() == NodeSpec.SinkTracksClosed(old(Rec()), Tracks(localTrackVideo, localTrackAudio))
    {
      if this.localTrackAudio == localTrackAudio && this.localTrackVideo == localTrackVideo {
        this.localTrackAudio := None;
        this.localTrackVideo := None;
        hasAudio := false;
        hasVideo := false;
        peerConnection := false;
        sent := sent + [NodeSpec.Standby];
      }
    }

    /** One queued task runs. */
    method RunAfterTracksReady()
      requires queued > 0
      modifies this
      ensures Obj() == old(Obj()) && (old(SilentIfClosed()) ==> SilentIfClosed())
      ensures Rec() == NodeSpec.SinkRun(old(Rec()))
    {
      queued := queued - 1;
      if !hasVideo && !hasAudio {
        return;
      }
      peerConnection := true;
      var audio, video: Option<TrackId> := None, None;
      if hasAudio {
        audio := localTrackAudio;
      }
      if hasVideo {
        video := localTrackVideo;
      }
      sent := sent + [NodeSpec.SinkOffer(video, audio)];
    }

    method Reconnect()
      modifies this
      ensures Obj() == old(Obj()) && (old(SilentIfClosed()) ==> SilentIfClosed())
      ensures Rec() == NodeSpec.SinkReconnect(old(Rec()))
    {
      peerConnection := false;
      if !closed {
        queued := queued + 1;
      }
    }

    /** The fields' part of close: the sink has no peer, holds no track and has nothing to offer. */
    method Shut()
      modifies this
      ensures Obj() == old(Obj()).(closed := true) && SilentIfClosed()
      ensures Rec() == NodeSpec.SinkClose(old(Rec()))
    {
      closed := true;
      peerConnection := false;
      hasAudio := false;
      hasVideo := false;
      localTrackAudio := None;
      localTrackVideo := None;
    }

    /** close: the sink holds nothing any more, and leaves the node. */
    method Close()
      requires node.Valid() && this in node.pool.sinks
      modifies this, node, node.pool.relays
      ensures node.Valid() && node.pool == old(node.pool)
      ensures node.published == old(node.published) && node.connections == old(node.connections)
      ensures node.model == old(node.model).(node := NodeSpec.RemoveSink(old(node.model.node), sid, sinkId),
                                             sinkObjects := CloseSinkObject(old(node.model.sinkObjects), sinkId))
      ensures Rec() == NodeSpec.SinkClose(old(Rec())) && closed
    {
      hide Shows, Wired, ShowsButSink, SinkChanged, NodeSpec.RemoveSink, CloseSinkObject;
      SinkAside(node.Registries(), node.model, node.pool, this);
      WiredSink(node, node.pool, node.sinkCount, this);
      Shut();
      SinkShut(node.Registries(), node.model, node.pool, this);
      ghost var w := node.model.(sinkObjects := CloseSinkObject(node.model.sinkObjects, sinkId));
      ChangedSinkGoes(node.Registries(), w, this);
      node.model := SinkChanged(w, this, IsRegisteredSink(node.Registries(), this));
      node.RemoveSink(this);
    }
  }

  /** wrtc_source_sender.go. */
  class WRTC_Source_Sender {
    ghost const stamp: nat
    ghost const origin: nat   // the source registered when the sender was created
    const sid: StreamId
    const remoteId: NodeId
    const node: WebRTC_CDN_Node

    var closed: bool
    var peerConnection: bool
    var hasAudio: bool
    var localTrackAudio: Option<TrackId>
    var hasVideo: bool
    var localTrackVideo: Option<TrackId>
    var queued: nat
    var offers: nat

    constructor (ghost stamp: nat, ghost origin: nat, sid: StreamId, remoteId: NodeId, node: WebRTC_CDN_Node)
      ensures this.sid == sid && this.remoteId == remoteId && this.node == node
      ensures Rec() == NodeSpec.NewSender(stamp, origin)
    {
      this.stamp, this.origin, this.sid, this.remoteId, this.node := stamp, origin, sid, remoteId, node;
      closed, peerConnection, hasAudio, hasVideo, queued, offers := false, false, false, false, 0, 0;
      localTrackAudio, localTrackVideo := None, None;
    }

    ghost function Rec(): NodeSpec.Sender
      reads this
    {
      NodeSpec.Sender(stamp, origin, closed, hasVideo, hasAudio,
                      Tracks(localTrackVideo, localTrackAudio), peerConnection, queued, offers)
    }

    /** A closed sender has nothing to offer. */
    ghost predicate SilentIfClosed()
      reads this
    {
      closed ==> !hasVideo && !hasAudio
    }

    method OnTracksReady(localTrackVideo: Option<TrackId>, localTrackAudio: Option<TrackId>)
      modifies this
      ensures closed == old(closed)
      ensures Rec() == NodeSpec.SenderTracksReady(old(Rec()), Tracks(localTrackVideo, localTrackAudio))
    {
      this.localTrackVideo := localTrackVideo;
      hasVideo := localTrackVideo.Some?;
      this.localTrackAudio := localTrackAudio;
      hasAudio := localTrackAudio.Some?;
      peerConnection := false;
      queued := queued + 1;
    }

    /** One queued task runs: its offer goes to the remote node. */
    method RunAfterTracksReady()
      requires queued > 0
      modifies this, node`published
      ensures Rec() == NodeSpec.SenderRun(old(Rec()))
      ensures
        var offer := Direct(remoteId, Offer(old(hasVideo), old(hasAudio)), sid);
        node.published == old(node.published) + if old(hasVideo || hasAudio) then [offer] else []
    {
      queued := queued - 1;
      if !hasVideo && !hasAudio {
        return;
      }
      peerConnection := true;
      offers := offers + 1;
      node.published := node.published + [Direct(remoteId, Offer(hasVideo, hasAudio), sid)];
    }

    /** onClose: the peer is lost, and the stream's sender to that node leaves the registry. */
    method OnClose()
      requires node.Valid() && this in node.pool.senders
      modifies this, node
      ensures node.Valid() && node.pool == old(node.pool) && node.published == old(node.published)
      ensures node.model == old(node.model).(node := NodeSpec.OnSenderClosed(old(node.model.node), sid, remoteId))
      ensures !peerConnection
    {
      hide Shows, Wired, ShowsButSender, NodeSpec.OnSenderClosed;
      SenderAside(node.Registries(), node.model, node.pool, this);
      WiredSenderIs(node, node.pool, node.sinkCount, this);
      peerConnection := false;
      SenderBack(node.Registries(), node.model, node.pool, this);
      ChangedSenderGoes(node.Registries(), node.model, this);
      node.model := SenderChanged(node.model, this, IsRegisteredSender(node.Registries(), this));
      node.OnSenderClosed(this);
    }

    /** close: the sender has no peer, holds no track and has nothing to offer. */
    method Close()
      modifies this
      ensures Rec() == NodeSpec.SenderClose(old(Rec())) && SilentIfClosed()
      ensures closed && !peerConnection && !hasVideo && !hasAudio
    {
      closed := true;
      peerConnection := false;
      hasAudio := false;
      hasVideo := false;
      localTrackAudio := None;
      localTrackVideo := None;
    }
  }

  /** wrtc_relay.go. */
  class WRTC_Relay {
    const sid: StreamId
    const remoteId: NodeId
    const node: WebRTC_CDN_Node

    var ready: bool
    var peerConnection: bool
    var hasAudio: bool
    var hasVideo: bool
    var localTrackVideo: Option<TrackId>
    var localTrackAudio: Option<TrackId>

    constructor (sid: StreamId, remoteId: NodeId, node: WebRTC_CDN_Node)
      ensures this.sid == sid && this.remoteId == remoteId && this.node == node
      ensures Rec() == NodeSpec.NewRelay(remoteId)
    {
      this.sid, this.remoteId, this.node := sid, remoteId, node;
      ready, peerConnection, hasAudio, hasVideo := false, false, false, false;
      localTrackVideo, localTrackAudio := None, None;
    }

    ghost function Rec(): NodeSpec.Relay
      reads this
    {
      NodeSpec.Relay(remoteId, ready, hasVideo, hasAudio, Tracks(localTrackVideo, localTrackAudio))
    }

    /** onOffer. `created` is whether a new peer connection can be had; `closing` says that onClose is to follow. */
    method OnOffer(hasVideo: bool, hasAudio: bool, created: bool) returns (closing: bool)
      modifies this
      ensures Rec() == old(Rec()).(hasVideo := hasVideo, hasAudio := hasAudio)
      ensures closing == !created && peerConnection == (created || old(peerConnection))
    {
      this.hasVideo := hasVideo;
      this.hasAudio := hasAudio;
      if !created {
        return true;
      }
      peerConnection := true;
      return false;
    }

    method Close()
      modifies this
      ensures Rec() == old(Rec()) && !peerConnection
    {
      peerConnection := false;
    }

    /** A track that the remote node sends; a second one of a kind is ignored. */
    method TakeTrack(kind: TrackKind, track: TrackId) returns (taken: bool)
      modifies this
      ensures taken == NodeSpec.AcceptsTrack(old(Rec()).tracks, kind)
      ensures
        var was := old(Rec());
        Rec() == if taken then was.(tracks := NodeSpec.WithTrack(was.tracks, kind, track)) else was
    {
      match kind {
        case Video =>
          if localTrackVideo.Some? {
            return false;
          }
          localTrackVideo := Some(track);
        case Audio =>
          if localTrackAudio.Some? {
            return false;
          }
          localTrackAudio := Some(track);
        case OtherKind =>
          return false;
      }
      return true;
    }

    /** The OnTrack callback: with its last track the relay is ready, be it registered or not. */
    method OnTrack(kind: TrackKind, track: TrackId)
      requires node.Valid() && this in node.pool.relays && NodeInvariants.OpenInv(node.model.node)
      modifies this, node, node.pool.sinks
      ensures node.Valid() && node.pool == old(node.pool) && node.published == old(node.published)
      ensures old(IsRegisteredRelay(node.Registries(), this)) ==>
                && sid in old(node.model.node.relays)
                && node.model == old(node.model).(node := NodeSpec.RelayTrack(old(node.model.node), sid, kind, track))
      ensures !old(IsRegisteredRelay(node.Registries(), this)) ==>
                var was := old(Rec());
                var n' := NodeSpec.LateTrack(old(node.model.node), sid, was.tracks, was.hasVideo, was.hasAudio,
                                             kind, track, false);
                node.model == old(node.model).(node := n')
    {
      hide Shows, Wired, ShowsButRelay, NodeSpec.OnRelayReady, NodeSpec.LateTracks, NodeSpec.AcceptsTrack,
           NodeSpec.WithTrack, NodeSpec.RelayTrack, NodeSpec.LateTrack, NodeInvariants.OpenInv;
      ghost var registered, n, was := IsRegisteredRelay(node.Registries(), this), node.model.node, Rec();
      RelayAside(node.Registries(), node.model, node.pool, this);
      WiredRelayIs(node, node.pool, node.sinkCount, this);
      OpenInvIsOpenAt(node.model.node, sid);
      var taken := TakeTrack(kind, track);
      RelayTrackIs(n, sid, was, kind, track, registered);
      RelayBack(node.Registries(), node.model, node.pool, this);
      node.model := RelayChanged(node.model, this, registered);
      if taken && (!hasAudio || localTrackAudio.Some?) && (!hasVideo || localTrackVideo.Some?) {
        node.OnRelayReady(this);
      }
    }

    /** onClose: the peer is lost. */
    method OnClose()
      requires node.Valid() && this in node.pool.relays
      modifies this, node, node.pool.sinks
      ensures node.Valid() && node.pool == old(node.pool) && !peerConnection
      ensures
        var e := NodeSpec.OnRelayClosed(old(node.model.node), sid, old(Rec()).tracks);
        node.model == old(node.model).(node := e.node) && node.published == old(node.published) + Maybe(e.pub)
    {
      hide Shows, Wired, ShowsButRelay, NodeSpec.OnRelayClosed;
      RelayAside(node.Registries(), node.model, node.pool, this);
      WiredRelayIs(node, node.pool, node.sinkCount, this);
      peerConnection := false;
      RelayUnchanged(node.Registries(), node.model, node.pool, this);
      node.OnRelayClosed(this);
    }
  }

  /** wrtc_source.go. */
  class WRTC_Source {
    ghost const stamp: nat
    const requestId: RequestId
    const sid: StreamId
    const node: WebRTC_CDN_Node
    const connection: Connection_Handler
    const hasAudio: bool
    const hasVideo: bool

    var ready: bool
    var closed: bool
    var peerConnection: bool
    var localTrackAudio: Option<TrackId>
    var localTrackVideo: Option<TrackId>

    constructor (ghost stamp: nat, requestId: RequestId, sid: StreamId, node: WebRTC_CDN_Node,
                 connection: Connection_Handler, hasVideo: bool, hasAudio: bool)
      ensures this.stamp == stamp && this.requestId == requestId && this.sid == sid
      ensures this.node == node && this.connection == connection
      ensures Rec() == NodeSpec.NewSource(stamp, connection.id, requestId, hasVideo, hasAudio)
      ensures Obj() == SourceObject(sid, connection.id, requestId, false)
    {
      this.stamp, this.requestId, this.sid, this.node, this.connection := stamp, requestId, sid, node, connection;
      this.hasVideo, this.hasAudio := hasVideo, hasAudio;
      ready, closed, peerConnection := false, false, false;
      localTrackAudio, localTrackVideo := None, None;
    }

    ghost function Rec(): NodeSpec.Source
      reads this
    {
      NodeSpec.Source(stamp, connection.id, requestId, hasVideo, hasAudio, ready,
                      Tracks(localTrackVideo, localTrackAudio))
    }

    /** What is known of the source object even after it has left the registry. */
    ghost function Obj(): SourceObject
      reads this
    {
      SourceObject(sid, connection.id, requestId, closed)
    }

    ghost function Held(): Tracks
      reads this
    {
      Tracks(localTrackVideo, localTrackAudio)
    }

    /** A track that the publisher sends; a second one of a kind is ignored. */
    method TakeTrack(kind: TrackKind, track: TrackId) returns (taken: bool)
      modifies this
      ensures taken == NodeSpec.AcceptsTrack(old(Rec()).tracks, kind) && Obj() == old(Obj())
      ensures
        var was := old(Rec());
        Rec() == if taken then was.(tracks := NodeSpec.WithTrack(was.tracks, kind, track)) else was
    {
      match kind {
        case Video =>
          if localTrackVideo.Some? {
            return false;
          }
          localTrackVideo := Some(track);
        case Audio =>
          if localTrackAudio.Some? {
            return false;
          }
          localTrackAudio := Some(track);
        case OtherKind =>
          return false;
      }
      return true;
    }

    /** The OnTrack callback: with its last track the source is ready, be it registered or not. */
    method OnTrack(kind: TrackKind, track: TrackId)
      requires node.Valid() && this in node.pool.sources && NodeInvariants.OpenInv(node.model.node)
      modifies this, node, node.pool.sinks, node.pool.senders
      ensures node.Valid() && node.pool == old(node.pool) && node.published == old(node.published)
      ensures old(IsRegistered(node.Registries(), this)) ==>
                && sid in old(node.model.node.sources)
                && node.model == old(node.model).(node := NodeSpec.SourceTrack(old(node.model.node), sid, kind, track))
      ensures !old(IsRegistered(node.Registries(), this)) ==>
                var n' := NodeSpec.LateTrack(old(node.model.node), sid, old(Held()), hasVideo, hasAudio,
                                             kind, track, true);
                node.model == old(node.model).(node := n')
    {
      hide Shows, Wired, ShowsButSource, NodeSpec.OnSourceReady, NodeSpec.LateTracks, NodeSpec.AcceptsTrack,
           NodeSpec.WithTrack, NodeInvariants.OpenInv;
      ghost var registered := IsRegistered(node.Registries(), this);
      SourceAside(node.Registries(), node.model, node.pool, this);
      WiredSource(node, node.pool, node.sinkCount, this);
      OpenInvIsOpenAt(node.model.node, sid);
      var taken := TakeTrack(kind, track);
      SourceStays(node.Registries(), node.model, node.pool, this);
      node.model := SourceChanged(node.model, this, registered);
      if taken {
        if (!hasAudio || localTrackAudio.Some?) && (!hasVideo || localTrackVideo.Some?) {
          node.OnSourceReady(this);
        }
      } else {
        assert node.model.node.sources == old(node.model.node.sources);
      }
    }

    /** onClose: the peer is lost. The client is told, and the source leaves the node. */
    method OnClose()
      requires node.Valid() && this in node.pool.sources && RequestInvariants.Inv(node.model)
      modifies this, connection, node, node.pool.sinks, node.pool.senders
      ensures node.Valid() && closed && node.pool == old(node.pool) && node.published == old(node.published)
      ensures stamp in old(node.model.objects)
      ensures node.model == SourceLost(old(node.model), stamp)
    {
      hide Shows, Wired, ShowsButSource, NodeSpec.OnSourceClosed, SendSourceClose;
      SourceAside(node.Registries(), node.model, node.pool, this);
      LostSource(node.Registries(), node.model, node.pool, this);
      if closed {
        return;
      }
      WiredSource(node, node.pool, node.sinkCount, this);
      closed := true;
      SourceShut(node.Registries(), node.model, node.pool, this);
      node.model := node.model.(objects := CloseObject(node.model.objects, stamp));
      connection.SendSourceClose(requestId, sid);
      node.OnSourceClosed(this);
    }

    /** close: a closed source stays as it is. */
    method Close(notifyConnection: bool, deregister: bool)
      requires node.Valid() && this in node.pool.sources
      modifies this, connection, node, node.pool.sinks, node.pool.senders
      ensures node.Valid() && closed
      ensures node.model == if old(closed) then old(node.model)
                            else old(AfterClose(node.model, this, notifyConnection, deregister))
      ensures !old(closed) ==> !peerConnection
      ensures Rec() == old(Rec())
      ensures node.pool == old(node.pool) && node.published == old(node.published)
      ensures node.connections == old(node.connections)
      ensures node.relays == old(node.relays) && node.sinks == old(node.sinks)
      ensures !deregister ==> node.sources == old(node.sources) && node.senders == old(node.senders)
    {
      hide Shows, Wired, ShowsButSource, NodeSpec.OnSourceClosed, SendSourceClose;
      if closed {
        return;
      }
      SourceAside(node.Registries(), node.model, node.pool, this);
      WiredSource(node, node.pool, node.sinkCount, this);
      closed := true;
      peerConnection := false;
      SourceShut(node.Registries(), node.model, node.pool, this);
      node.model := node.model.(objects := CloseObject(node.model.objects, stamp));
      if notifyConnection {
        connection.SendSourceClose(requestId, sid);
      }
      if deregister {
        node.OnSourceClosed(this);
      }
    }
  }

  /** connection_handler.go. */
  class Connection_Handler {
    const id: ConnectionId
    const node: WebRTC_CDN_Node

    var requests: map<RequestId, RequestKind>
    var requestCount: nat  // uint32
    var sources: map<RequestId, WRTC_Source>
    var sinks: map<RequestId, WRTC_Sink>
    var sent: seq<ClientMessage>

    constructor (id: ConnectionId, node: WebRTC_CDN_Node)
      ensures this.id == id && this.node == node && Table() == NEW_CONN && RefersTo({}, {})
    {
      this.id, this.node := id, node;
      requests, requestCount, sources, sinks, sent := map[], 0, map[], map[], [];
    }

    /** The tables as values: their objects are shown by their identities. */
    ghost function Table(): Conn
      reads this
    {
      TableOf(requests, requestCount, sources, sinks, sent)
    }

    ghost predicate RefersTo(allSources: set<WRTC_Source>, allSinks: set<WRTC_Sink>)
      reads this
    {
      sources.Values <= allSources && sinks.Values <= allSinks
    }

    /** sendSourceClose: the request goes, and the client is told. */
    method SendSourceClose(reqId: RequestId, sid: StreamId)
      requires node.Valid() && this in node.pool.conns
      modifies this, node`model
      ensures node.Valid()
      ensures node.model == old(node.model).(conns := Requests.SendSourceClose(old(node.model.conns), id, reqId, sid))
    {
      hide Shows, Wired, ShowsButConn, TableOf;
      ConnAside(node.Registries(), node.model, node.pool, this);
      WiredConn(node, node.pool, node.sinkCount, this, node.connections);
      TableDropsSource(requests, requestCount, sources, sinks, sent, reqId);
      sources := sources - {reqId};
      requests := requests - {reqId};
      requestCount := Dec(requestCount);
      sent := sent + [CloseMessage(reqId, sid)];
      ConnBack(node.Registries(), node.model, node.pool, this);
      node.model := node.model.(conns := Requests.SendSourceClose(node.model.conns, id, reqId, sid));
    }

    /** sendErrorMessage. */
    method SendErrorMessage(code: ErrorCode, reqId: RequestId)
      requires node.Valid() && this in node.pool.conns && id in node.connections && node.connections[id] == this
      modifies this, node`model
      ensures node.Valid() && id in old(node.model.conns)
      ensures node.model == Refuse(old(node.model), id, reqId, code)
    {
      hide Shows, Wired, ShowsButConn;
      ConnAside(node.Registries(), node.model, node.pool, this);
      sent := sent + [ErrorMessage(code, reqId)];
      ConnBack(node.Registries(), node.model, node.pool, this);
      node.model := Refuse(node.model, id, reqId, code);
    }

    /** The table's part of a PUBLISH that is accepted: its source joins the table, and the client is told. */
    method AddSourceRequest(requestId: RequestId, source: WRTC_Source)
      requires node.Valid() && this in node.pool.conns && id in node.connections && node.connections[id] == this
      requires source !in node.pool.sources && source.node == node && source.connection == this
      requires source.stamp !in node.model.objects
      modifies this, node`model, node`pool
      ensures node.Valid() && node.pool == old(node.pool).(sources := old(node.pool.sources) + {source})
      ensures id in old(node.model.conns)
      ensures
        var conn := AddSource(old(node.model.conns)[id], requestId, SourceRef(source.sid, source.stamp));
        node.model == old(node.model).(conns := old(node.model.conns)[id := conn],
        objects := old(node.model.objects)[source.stamp := source.Obj()])
    {
      hide Shows, Wired, ShowsButConn, TableOf;
      SourceEnlisted(node.Registries(), node.model, node.pool, source);
      WiredNewSource(node, node.pool, node.sinkCount, source);
      node.pool := node.pool.(sources := node.pool.sources + {source});
      node.model := node.model.(objects := node.model.objects[source.stamp := source.Obj()]);
      ConnAside(node.Registries(), node.model, node.pool, this);
      TableAddsSource(requests, requestCount, sources, sinks, sent, requestId, source);
      requestCount := Inc(requestCount);
      requests := requests[requestId := PublishRequest];
      sources := sources[requestId := source];
      sent := sent + [OkMessage(requestId)];
      ConnBack(node.Registries(), node.model, node.pool, this);
      node.model := node.model.(conns := node.model.conns[id := Table()]);
    }

    /** receivePublishMessage. `auth` is the answer of checkAuthentication, and `kind` stands for the stream type. */
    method ReceivePublishMessage(requestId: RequestId, streamId: StreamId, kind: StreamType, auth: bool)
      requires node.Valid() && RequestInvariants.Inv(node.model)
      requires this in node.pool.conns && id in node.connections && node.connections[id] == this
      modifies this, node, node.pool.sources, node.pool.relays, node.pool.sinks, node.pool.senders, node.pool.conns
      ensures node.Valid() && id in old(node.model.conns)
      ensures
        var r := ReceivePublish(old(node.model), id, requestId, streamId, kind, auth);
        node.model == r.state && node.published == old(node.published) + Maybe(r.pub)
      ensures node.pool == old(node.pool).(sources := node.pool.sources)
      ensures old(node.pool.sources) <= node.pool.sources && fresh(node.pool.sources - old(node.pool.sources))
    {
      hide Shows, Wired, ReceivePublish, Refuse, Evict, AddSource, NodeSpec.RegisterSource, RequestInvariants.Inv,
           RequestInvariants.TableSource, RequestInvariants.RegisteredOK, IsOwner;
      TableIs(node.Registries(), node.model, node.pool, this);
      PublishRefused(node.model, id, requestId, streamId, kind, auth);
      if |requestId| == 0 || |requestId| > 255 {
        SendErrorMessage(InvalidRequestId, requestId);
        return;
      }
      if |streamId| == 0 || |streamId| > 255 {
        SendErrorMessage(InvalidStreamId, requestId);
        return;
      }
      if !auth {
        SendErrorMessage(InvalidAuth, requestId);
        return;
      }
      var hasAudio := true;
      var hasVideo := true;
      if kind.AudioType? {
        hasVideo := false;
      } else if kind.VideoType? {
        hasAudio := false;
      }
      var source := new WRTC_Source(node.model.node.nextStamp, requestId, streamId, node, this, hasVideo, hasAudio);
      if requestId in requests {
        SendErrorMessage(ProtocolError, requestId);
        return;
      }
      if requestCount > node.requestLimit {
        SendErrorMessage(LimitRequests, requestId);
        return;
      }
      PublishInSteps(node.model, id, requestId, streamId, kind, auth);
      AddSourceRequest(requestId, source);
      node.RegisterSource(source);
    }

    /** The table's part of a PLAY that is accepted. */
    method AddSinkRequest(requestId: RequestId, sink: WRTC_Sink)
      requires node.Valid() && this in node.pool.conns && id in node.connections && node.connections[id] == this
      requires sink !in node.pool.sinks && sink.node == node && sink.connection == this && !sink.closed
      requires sink.sinkId.number <= node.sinkCount && forall k | k in node.pool.sinks :: k.sinkId != sink.sinkId
      modifies this, node`model, node`pool
      ensures node.Valid() && node.pool == old(node.pool).(sinks := old(node.pool.sinks) + {sink})
      ensures id in old(node.model.conns)
      ensures
        var conn := AddSink(old(node.model.conns)[id], requestId, SinkRef(sink.sid, sink.sinkId));
        node.model == old(node.model).(conns := old(node.model.conns)[id := conn],
        sinkObjects := old(node.model.sinkObjects)[sink.sinkId := sink.Obj()])
    {
      hide Shows, Wired, ShowsButConn, TableOf;
      SinkEnlisted(node.Registries(), node.model, node.pool, sink);
      WiredNewSink(node, node.pool, node.sinkCount, sink);
      node.pool := node.pool.(sinks := node.pool.sinks + {sink});
      node.model := node.model.(sinkObjects := node.model.sinkObjects[sink.sinkId := sink.Obj()]);
      ConnAside(node.Registries(), node.model, node.pool, this);
      TableAddsSink(requests, requestCount, sources, sinks, sent, requestId, sink);
      requestCount := Inc(requestCount);
      requests := requests[requestId := PlayRequest];
      sinks := sinks[requestId := sink];
      sent := sent + [OkMessage(requestId)] + [StandbyMessage(requestId)];
      ConnBack(node.Registries(), node.model, node.pool, this);
      node.model := node.model.(conns := node.model.conns[id := Table()]);
    }

    /** receivePlayMessage. */
    method ReceivePlayMessage(requestId: RequestId, streamId: StreamId, auth: bool)
      requires node.Valid() && this in node.pool.conns && id in node.connections && node.connections[id] == this
      modifies this, node, node.pool.sinks
      ensures node.Valid() && id in old(node.model.conns)
      ensures
        var r := ReceivePlay(old(node.model), id, requestId, streamId, auth);
        node.model == r.state && node.published == old(node.published) + Maybe(r.pub)
      ensures node.pool == old(node.pool).(sinks := node.pool.sinks)
      ensures old(node.pool.sinks) <= node.pool.sinks && fresh(node.pool.sinks - old(node.pool.sinks))
    {
      hide Shows, Wired, ReceivePlay, Refuse, AddSink, NodeSpec.GetSinkID, NodeSpec.RegisterSink, WRTC_Sink.Obj;
      TableIs(node.Registries(), node.model, node.pool, this);
      PlayInSteps(node.model, id, requestId, streamId, auth);
      if |requestId| == 0 || |requestId| > 255 {
        SendErrorMessage(InvalidRequestId, requestId);
        return;
      }
      if |streamId| == 0 || |streamId| > 255 {
        SendErrorMessage(InvalidStreamId, requestId);
        return;
      }
      if !auth {
        SendErrorMessage(InvalidAuth, requestId);
        return;
      }
      var sinkId := node.GetSinkID();
      var sink := new WRTC_Sink(sinkId, requestId, streamId, node, this);
      if requestId in requests {
        SendErrorMessage(ProtocolError, requestId);
        return;
      }
      if requestCount > node.requestLimit {
        SendErrorMessage(LimitRequests, requestId);
        return;
      }
      AddSinkRequest(requestId, sink);
      node.RegisterSink(sink);
    }

    /** A closed request leaves the tables, and is not counted any more. */
    method DropRequest(requestId: RequestId, kind: RequestKind)
      requires node.Valid() && this in node.pool.conns && id in node.connections && node.connections[id] == this
      modifies this, node`model
      ensures node.Valid() && id in old(node.model.conns)
      ensures
        var was := old(node.model.conns)[id];
        var conn := if kind.PublishRequest? then DropSource(was, requestId) else DropSink(was, requestId);
        node.model == old(node.model).(conns := old(node.model.conns)[id := conn])
      ensures requests == old(requests) - {requestId}
    {
      hide Shows, Wired, ShowsButConn, TableOf;
      ConnAside(node.Registries(), node.model, node.pool, this);
      TableDropsSource(requests, requestCount, sources, sinks, sent, requestId);
      TableDropsSink(requests, requestCount, sources, sinks, sent, requestId);
      if kind.PublishRequest? {
        sources := sources - {requestId};
      } else {
        sinks := sinks - {requestId};
      }
      requests := requests - {requestId};
      requestCount := Dec(requestCount);
      ConnBack(node.Registries(), node.model, node.pool, this);
      node.model := node.model.(conns := node.model.conns[id := Table()]);
    }

    /** Closes one request of the connection, if it is there. */
    method CloseOne(requestId: RequestId)
      requires node.Valid() && RequestInvariants.Inv(node.model)
      requires this in node.pool.conns && id in node.connections && node.connections[id] == this
      modifies this, node, node.pool.sources, node.pool.relays, node.pool.sinks, node.pool.senders, node.pool.conns
      ensures node.Valid() && node.pool == old(node.pool) && node.published == old(node.published)
      ensures node.connections == old(node.connections) && id in old(node.model.conns)
      ensures node.model == CloseRequest(old(node.model), id, requestId)
    {
      hide Shows, Wired, CloseRequest, NodeSpec.OnSourceClosed, NodeSpec.RemoveSink, DropSource, DropSink,
           CloseSinkObject;
      TableIs(node.Registries(), node.model, node.pool, this);
      CloseInSteps(node.Registries(), node.model, node.pool, this, requestId);
      if requestId !in requests {
        return;
      }
      if requests[requestId].PublishRequest? {
        var source := sources[requestId];
        WiredSource(node, node.pool, node.sinkCount, source);
        source.Close(false, true);
        DropRequest(requestId, PublishRequest);
      } else {
        var sink := sinks[requestId];
        WiredSink(node, node.pool, node.sinkCount, sink);
        sink.Close();
        DropRequest(requestId, PlayRequest);
      }
    }

    /** receiveCloseMessage. */
    method ReceiveCloseMessage(requestId: RequestId)
      requires node.Valid() && RequestInvariants.Inv(node.model)
      requires this in node.pool.conns && id in node.connections && node.connections[id] == this
      modifies this, node, node.pool.sources, node.pool.relays, node.pool.sinks, node.pool.senders, node.pool.conns
      ensures node.Valid() && node.pool == old(node.pool) && node.published == old(node.published)
      ensures id in old(node.model.conns) && node.model == CloseRequest(old(node.model), id, requestId)
    {
      hide Shows, Wired, CloseRequest, RequestInvariants.Inv;
      CloseOne(requestId);
    }

    /** receiveCandidateMessage, up to the object that takes the candidate: a request that is known has one. */
    method CandidateTarget(requestId: RequestId) returns (source: WRTC_Source?, sink: WRTC_Sink?)
      requires node.Valid() && RequestInvariants.Inv(node.model)
      requires this in node.pool.conns && id in node.connections && node.connections[id] == this
      ensures requestId !in requests <==> source == null && sink == null
      ensures source != null ==> !source.closed && source.requestId == requestId && source.connection == this
      ensures source != null ==> IsRegistered(node.Registries(), source)
      ensures sink != null ==> sink.requestId == requestId && sink.connection == this
      ensures sink != null ==> IsRegisteredSink(node.Registries(), sink)
    {
      hide Shows, Wired;
      TableIs(node.Registries(), node.model, node.pool, this);
      CloseInSteps(node.Registries(), node.model, node.pool, this, requestId);
      Linked(node, this, requestId);
      source, sink := null, null;
      if requestId !in requests {
        return;
      } else if requests[requestId].PublishRequest? {
        source := sources[requestId];
      } else {
        sink := sinks[requestId];
      }
    }

    /** CloseOne, for a request that is there: it leaves `requests` and the others stay. */
    method CloseNext(requestId: RequestId, ghost start: State, ghost order: seq<RequestId>)
      requires node.Valid() && RequestInvariants.Inv(node.model) && requestId in requests
      requires this in node.pool.conns && id in node.connections && node.connections[id] == this
      requires id in start.conns && node.model == CloseAll(start, id, order)
      modifies this, node, node.pool.sources, node.pool.relays, node.pool.sinks, node.pool.senders, node.pool.conns
      ensures node.Valid() && node.pool == old(node.pool) && node.published == old(node.published)
      ensures node.connections == old(node.connections) && RequestInvariants.Inv(node.model)
      ensures node.model == CloseAll(start, id, order + [requestId])
      ensures requests == old(requests) - {requestId}
    {
      hide Shows, Wired, CloseRequest, RequestInvariants.Inv, CloseAll;
      TableIs(node.Registries(), node.model, node.pool, this);
      RequestRuns.CloseRemovesOne(node.model, id, requestId);
      RequestRuns.CloseKeepsInv(node.model, id, requestId);
      CloseOneMore(start, id, order, requestId);
      CloseOne(requestId);
      TableIs(node.Registries(), node.model, node.pool, this);
    }

    /** onClose: every request is closed, in whatever order the map is walked, and the connection is gone. */
    method OnClose() returns (ghost order: seq<RequestId>)
      requires node.Valid() && RequestInvariants.Inv(node.model)
      requires this in node.pool.conns && id in node.connections && node.connections[id] == this
      modifies this, node, node.pool.sources, node.pool.relays, node.pool.sinks, node.pool.senders, node.pool.conns
      ensures node.Valid() && node.pool == old(node.pool) && node.published == old(node.published)
      ensures id in old(node.model.conns) && RequestRuns.IsOrderOf(order, old(requests).Keys)
      ensures node.model == WithoutConn(CloseAll(old(node.model), id, order), id)
      ensures requests == map[] && sources == map[] && sinks == map[] && requestCount == 0
    {
      hide Shows, Wired, RequestInvariants.Inv, CloseAll;
      TableIs(node.Registries(), node.model, node.pool, this);
      CloseNone(node.model, id);
      order := [];
      var todo := requests.Keys;
      while todo != {}
        invariant node.Valid() && RequestInvariants.Inv(node.model)
        invariant node.pool == old(node.pool) && node.published == old(node.published)
        invariant node.connections == old(node.connections)
        invariant node.model == CloseAll(old(node.model), id, order)
        invariant todo == requests.Keys
        invariant Visited(order, old(requests).Keys - todo) && todo <= old(requests).Keys
      {
        var requestId :| requestId in todo;
        CloseNext(requestId, old(node.model), order);
        order := order + [requestId];
        todo := todo - {requestId};
      }
      Leave();
    }

    /** The handler of a closed connection is dropped: nothing is left in its tables. */
    method Leave()
      requires node.Valid() && RequestInvariants.Inv(node.model)
      requires this in node.pool.conns && id in node.connections && node.connections[id] == this
      requires requests.Keys == {}
      modifies node
      ensures node.Valid() && node.pool == old(node.pool) && node.published == old(node.published)
      ensures node.model == WithoutConn(old(node.model), id)
      ensures requests == map[] && sources == map[] && sinks == map[] && requestCount == 0
    {
      hide Shows, Wired, RequestInvariants.Inv;
      EmptyTables(node.Registries(), node.model, node.pool, this);
      ConnCut(node.Registries(), node.model, node.pool, id);
      node.connections := node.connections - {id};
      node.model := WithoutConn(node.model, id);
    }
  }

  /** node.go. */
  class WebRTC_CDN_Node {
    const id: NodeId
    const requestLimit: nat
    var sinkCount: nat
    var sources: map<StreamId, WRTC_Source>
    var relays: map<StreamId, WRTC_Relay>
    var sinks: map<StreamId, map<SinkId, WRTC_Sink>>
    var senders: map<StreamId, map<NodeId, WRTC_Source_Sender>>
    var published: seq<Publication>
    ghost var connections: map<ConnectionId, Connection_Handler>
    ghost var model: State
    ghost var pool: Pool

    constructor (id: NodeId, requestLimit: nat)
      ensures Valid() && model == State(NodeSpec.Init(id), map[], map[], map[], requestLimit)
      ensures pool == Pool({}, {}, {}, {}, {}) && published == []
    {
      this.id, this.requestLimit := id, requestLimit;
      sinkCount, sources, relays, sinks, senders, published := 0, map[], map[], map[], map[], [];
      connections, pool := map[], Pool({}, {}, {}, {}, {});
      model := State(NodeSpec.Init(id), map[], map[], map[], requestLimit);
    }

    ghost function Registries(): Fields
      reads this
    {
      Fields(sources, relays, sinks, senders, connections)
    }

    ghost predicate Valid()
      reads this, pool.sources, pool.relays, pool.sinks, pool.senders, pool.conns
    {
      && Shows(Registries(), model, pool) && Wired(this, pool, sinkCount)
      && model.limit == requestLimit && model.node.id == id && model.node.sinkCount == sinkCount
    }

    /** A client connects: its handler starts with empty tables. */
    method Accept(id: ConnectionId) returns (h: Connection_Handler)
      requires Valid() && id !in connections && forall c | c in pool.conns :: c.id != id
      modifies this
      ensures Valid() && published == old(published)
      ensures fresh(h) && h.node == this && h.id == id && pool == old(pool).(conns := old(pool.conns) + {h})
      ensures connections == old(connections)[id := h]
      ensures model == old(model).(conns := old(model.conns)[id := NEW_CONN])
    {
      hide Shows, Wired;
      h := new Connection_Handler(id, this);
      ConnPut(Registries(), model, pool, h);
      WiredNewConn(this, pool, sinkCount, h);
      connections := connections[id := h];
      pool := pool.(conns := pool.conns + {h});
      model := model.(conns := model.conns[id := NEW_CONN]);
      assert Shows(Registries(), model, pool);
      assert Wired(this, pool, sinkCount);
    }

    // ---------- node_sources.go ----------

    /** resolveSource. */
    method ResolveSource(sid: StreamId) returns (found: bool)
      requires Valid()
      ensures found <==> sid in model.node.sources
    {
      SourceIs(Registries(), model, pool, sid);
      return sid in sources;
    }

    /** The open source of a stream, if there is one, is closed and its client told; its entry stays. */
    method CloseSourceOf(sid: StreamId)
      requires Valid() && RequestInvariants.RegisteredOK(model, sid)
      modifies this, pool.sources, pool.sinks, pool.senders, pool.conns
      ensures Valid() && model == Evict(old(model), sid)
      ensures pool == old(pool) && published == old(published) && connections == old(connections)
      ensures sources == old(sources) && relays == old(relays) && sinks == old(sinks) && senders == old(senders)
      ensures sid in sources ==> sources[sid].closed && !sources[sid].peerConnection
      ensures forall s | s in pool.sources :: s.Rec() == old(s.Rec())
    {
      hide Shows, Wired, SendSourceClose, CloseObject;
      SourceIs(Registries(), model, pool, sid);
      if sid in sources {
        var s := sources[sid];
        WiredSource(this, pool, sinkCount, s);
        s.Close(true, false);
      }
    }

    /** registerSource: the stream's old source is told, and its relay and senders are closed. */
    method RegisterSource(source: WRTC_Source)
      requires Valid() && source in pool.sources && !source.closed
      requires RequestInvariants.RegisteredOK(model, source.sid) && !IsRegistered(Registries(), source)
      modifies this, pool.sources, pool.relays, pool.sinks, pool.senders, pool.conns
      ensures Valid() && pool == old(pool)
      ensures
        var w := Evict(old(model), source.sid);
        model == w.(node := NodeSpec.RegisterSource(w.node, source.sid, old(source.Rec())).node)
      ensures published == old(published) + [Broadcast(Info, source.sid)]
      ensures source.sid in old(relays) ==> !old(relays)[source.sid].peerConnection
      ensures source.sid in old(senders) ==> AllShut(old(senders)[source.sid])
    {
      hide Shows, Wired, AllShut, Evict, NodeSpec.RegisterSource;
      CloseSourceOf(source.sid);
      InstallSource(source);
    }

    /** registerSource, once the old source is closed. The entry is written last here; nothing runs in between. */
    method InstallSource(source: WRTC_Source)
      requires Valid() && source in pool.sources
      modifies this, pool.relays, pool.senders
      ensures Valid() && pool == old(pool)
      ensures model == old(model).(node := NodeSpec.RegisterSource(old(model.node), source.sid, source.Rec()).node)
      ensures published == old(published) + [Broadcast(Info, source.sid)]
      ensures source.sid in old(relays) ==> !old(relays)[source.sid].peerConnection
      ensures source.sid in old(senders) ==> AllShut(old(senders)[source.sid])
    {
      hide Shows, Wired, AllShut, NodeSpec.RegisterSource;
      var sid := source.sid;
      RegisteringSource(model, sid, source.Rec());
      relays, senders := TakeOver(sources, relays, senders, source, Registries(), model, pool);
      sources := sources[sid := source];
      published := published + [Broadcast(Info, sid)];
      model := model.(node := NodeSpec.RegisterSource(model.node, sid, source.Rec()).node);
      assert Shows(Registries(), model, pool);
    }

    /** onSourceClosed: the entry of the stream goes, whoever closes. */
    method OnSourceClosed(source: WRTC_Source)
      requires Valid()
      modifies this, pool.sinks, pool.senders
      ensures Valid() && pool == old(pool) && published == old(published) && connections == old(connections)
      ensures relays == old(relays) && sinks == old(sinks)
      ensures model == old(model).(node := NodeSpec.OnSourceClosed(old(model.node), source.sid, source.Held()))
      ensures source.sid in old(senders) ==> AllShut(old(senders)[source.sid])
    {
      hide Shows, Wired, AllShut, NodeSpec.SinksClosedAt;
      var sid := source.sid;
      ghost var w := model;
      SourceCut(Registries(), w, pool, sid);
      sources := sources - {sid};
      w := w.(node := w.node.(sources := w.node.sources - {sid}));
      senders := DropSenders(senders, sid, Registries(), w, pool);
      w := w.(node := w.node.(senders := w.node.senders - {sid}));
      SinksClosed(sinks, sid, source.localTrackVideo, source.localTrackAudio, Registries(), w, pool);
      model := model.(node := NodeSpec.OnSourceClosed(model.node, sid, source.Held()));
    }

    /** onSourceReady: sinks and senders of the stream get the tracks, also those of a source that has left. */
    method OnSourceReady(source: WRTC_Source)
      requires Valid() && source in pool.sources && OpenAt(model.node, source.sid)
      modifies this, source, pool.sinks, pool.senders
      ensures Valid() && pool == old(pool) && published == old(published)
      ensures old(IsRegistered(Registries(), source)) ==>
                && source.sid in old(model.node.sources)
                && model == old(model).(node := NodeSpec.OnSourceReady(old(model.node), source.sid))
      ensures !old(IsRegistered(Registries(), source)) ==>
                model == old(model).(node := NodeSpec.LateTracks(old(model.node), source.sid, old(source.Held()), true))
    {
      hide Shows, Wired, ShowsButSource, NodeSpec.SinksReadyAt, NodeSpec.SendersReadyAt;
      var sid := source.sid;
      ghost var registered := IsRegistered(Registries(), source);
      SourceAside(Registries(), model, pool, source);
      WiredSource(this, pool, sinkCount, source);
      source.ready := true;
      SourceStays(Registries(), model, pool, source);
      ghost var w := SourceChanged(model, source, registered);
      SinksReady(sinks, sid, source.localTrackVideo, source.localTrackAudio, Registries(), w, pool);
      w := w.(node := w.node.(sinks := NodeSpec.SinksReadyAt(w.node.sinks, sid, source.Held())));
      SendersReady(senders, sid, source.localTrackVideo, source.localTrackAudio, Registries(), w, pool);
      model := w.(node := w.node.(senders := NodeSpec.SendersReadyAt(w.node.senders, sid, source.Held())));
      assert Shows(Registries(), model, pool);
      assert Wired(this, pool, sinkCount);
    }

    // ---------- node_sinks.go ----------

    /** getSinkID: no sink has the new id. */
    method GetSinkID() returns (sinkId: SinkId)
      requires Valid()
      modifies this
      ensures Valid() && pool == old(pool) && published == old(published) && connections == old(connections)
      ensures model == old(model).(node := NodeSpec.GetSinkID(old(model.node)))
      ensures sinkId == SinkId(sinkCount) && forall k | k in pool.sinks :: k.sinkId != sinkId
    {
      hide Shows;
      sinkCount := sinkCount + 1;
      SinkIdTaken(Registries(), model, pool);
      model := model.(node := NodeSpec.GetSinkID(model.node));
      return SinkId(sinkCount);
    }

    /** A late viewer gets the tracks of the stream's source if it is ready, or else of its relay if it is. */
    method GiveReadyTracks(sink: WRTC_Sink) returns (found: bool)
      requires sink.sid in sources <==> sink.sid in model.node.sources
      requires sink.sid in sources ==> sources[sink.sid].Rec() == model.node.sources[sink.sid]
      requires sink.sid in relays <==> sink.sid in model.node.relays
      requires sink.sid in relays ==> relays[sink.sid].Rec() == model.node.relays[sink.sid]
      modifies sink
      ensures
        var t := NodeSpec.ReadyTracks(model.node, sink.sid);
        && found == t.Some? && sink.Obj() == old(sink.Obj()) && sink.closed == old(sink.closed)
        && sink.Rec() == if t.Some? then NodeSpec.SinkTracksReady(old(sink.Rec()), t.value) else old(sink.Rec())
    {
      var sid := sink.sid;
      if sid in sources && sources[sid].ready {
        sink.OnTracksReady(sources[sid].localTrackVideo, sources[sid].localTrackAudio);
        return true;
      }
      if sid in relays && relays[sid].ready {
        sink.OnTracksReady(relays[sid].localTrackVideo, relays[sid].localTrackAudio);
        return true;
      }
      return false;
    }

    /** The sink's entry. The node shows as `w` then. */
    method EnterSink(sink: WRTC_Sink, ghost w: State)
      requires Shows(Registries(), model, pool) && sink in pool.sinks
      requires w == model.(node := model.node.(sinks := Put(model.node.sinks, sink.sid, sink.sinkId, sink.Rec())))
      modifies this`sinks
      ensures Shows(Registries(), w, pool) && IsRegisteredSink(Registries(), sink)
    {
      hide Shows, Put, WRTC_Sink.Rec;
      SinkPut(Registries(), model, pool, sink);
      PutHas(sinks, sink.sid, sink.sinkId, sink);
      sinks := Put(sinks, sink.sid, sink.sinkId, sink);
    }

    /** registerSink: the node asks the other nodes for a stream it has no ready tracks of. */
    method RegisterSink(sink: WRTC_Sink)
      requires Valid() && sink in pool.sinks && !sink.closed
      modifies this, sink
      ensures Valid() && pool == old(pool)
      ensures
        var e := NodeSpec.RegisterSink(old(model.node), sink.sid, sink.sinkId, old(sink.Rec()));
        model == old(model).(node := e.node) && published == old(published) + Maybe(e.pub)
    {
      hide Shows, Wired, ShowsButSink, Put, NodeSpec.ReadyTracks, NodeSpec.SinkTracksReady, NodeSpec.RegisterSink,
           WRTC_Sink.Rec, WRTC_Sink.Obj, WRTC_Source.Rec, WRTC_Relay.Rec;
      var sid := sink.sid;
      SourceIs(Registries(), model, pool, sid);
      RelayIs(Registries(), model, pool, sid);
      ghost var k, n := sink.Rec(), model.node;
      ghost var w := model.(node := n.(sinks := Put(n.sinks, sid, sink.sinkId, k)));
      EnterSink(sink, w);
      SinkAside(Registries(), w, pool, sink);
      var found := GiveReadyTracks(sink);
      RegisteringSink(w, n, sink, k, Registries(), pool);
      RegisteringAsks(n, sid, sink.sinkId, k);
      model := model.(node := NodeSpec.RegisterSink(n, sid, sink.sinkId, k).node);
      assert Shows(Registries(), model, pool);
      if !found {
        published := published + [Broadcast(Resolve, sid)];
      }
      assert Shows(Registries(), model, pool);
    }

    /** removeSink: the last viewer of a stream takes the stream's relay with it. */
    method RemoveSink(sink: WRTC_Sink)
      requires Valid()
      modifies this, pool.relays
      ensures Valid() && pool == old(pool) && published == old(published) && connections == old(connections)
      ensures model == old(model).(node := NodeSpec.RemoveSink(old(model.node), sink.sid, sink.sinkId))
      ensures sink.sid in old(relays) && sink.sid !in relays ==> !old(relays)[sink.sid].peerConnection
    {
      hide Shows, Wired, Cut, NodeSpec.RemoveSink;
      var sid := sink.sid;
      SinksAre(Registries(), model, pool, sid);
      RemovingSink(model.node, sid, sink.sinkId);
      if sid !in sinks {
        return;
      }
      if sink.sinkId !in sinks[sid] {
        return;
      }
      SinkCut(Registries(), model, pool, sid, sink.sinkId);
      CutInSteps(sinks, sid, sink.sinkId);
      ghost var w := model.(node := model.node.(sinks := Cut(model.node.sinks, sid, sink.sinkId)));
      sinks := sinks[sid := sinks[sid] - {sink.sinkId}];
      if sinks[sid] == map[] {
        sinks := sinks - {sid};
        relays := DropRelay(relays, sid, Registries(), w, pool);
        w := w.(node := w.node.(relays := w.node.relays - {sid}));
      }
      model := w;
      assert Shows(Registries(), model, pool);
      assert Wired(this, pool, sinkCount);
    }

    // ---------- node_sender_relay.go ----------

    /** receiveConnectMessage: a sender to the node that asks, in place of its previous one. */
    method ReceiveConnectMessage(from: NodeId, sid: StreamId)
      requires Valid()
      modifies this, pool.senders
      ensures Valid() && published == old(published) && pool == old(pool).(senders := pool.senders)
      ensures old(pool.senders) <= pool.senders && fresh(pool.senders - old(pool.senders))
      ensures
        var n := old(model.node);
        model == old(model).(node := NodeSpec.ReceiveConnect(n, from, sid, n.nextStamp))
      ensures sid in sources && sid in old(senders) && from in old(senders)[sid] ==>
                var previous := old(senders)[sid][from];
                previous.closed && !previous.peerConnection && !previous.hasVideo && !previous.hasAudio
    {
      hide Shows, Wired, Put, NodeSpec.ReceiveConnect;
      SourceIs(Registries(), model, pool, sid);
      Connecting(model.node, from, sid);
      if sid !in sources {
        return;
      }
      var sender := ConnectSender(senders, sid, from, sources[sid], this, Registries(), model, pool);
      WiredSender(this, pool, sinkCount, sender);
      senders := Put(senders, sid, from, sender);
      pool := pool.(senders := pool.senders + {sender});
      model := model.(node := NodeSpec.ReceiveConnect(model.node, from, sid, model.node.nextStamp));
      assert Shows(Registries(), model, pool);
    }

    /** onSenderClosed: the entry of the sender's remote node goes. */
    method OnSenderClosed(sender: WRTC_Source_Sender)
      requires Valid()
      modifies this
      ensures Valid() && pool == old(pool) && published == old(published)
      ensures model == old(model).(node := NodeSpec.OnSenderClosed(old(model.node), sender.sid, sender.remoteId))
    {
      hide Shows, Wired, Cut, NodeSpec.OnSenderClosed;
      var sid, to := sender.sid, sender.remoteId;
      SendersAre(Registries(), model, pool, sid);
      SenderCut(Registries(), model, pool, sid, to);
      RemovingSender(model.node, sid, to);
      if sid in senders && to in senders[sid] {
        CutInSteps(senders, sid, to);
        senders := senders[sid := senders[sid] - {to}];
        if senders[sid] == map[] {
          senders := senders - {sid};
        }
        model := model.(node := NodeSpec.OnSenderClosed(model.node, sid, to));
      }
      assert Shows(Registries(), model, pool);
    }

    /** receiveInfoMessage: another node has the stream now. */
    method ReceiveInfoMessage(from: NodeId, sid: StreamId)
      requires Valid() && RequestInvariants.RegisteredOK(model, sid)
      modifies this, pool.sources, pool.relays, pool.sinks, pool.senders, pool.conns
      ensures Valid() && pool == old(pool).(relays := pool.relays)
      ensures old(pool.relays) <= pool.relays && fresh(pool.relays - old(pool.relays))
      ensures
        var r := Requests.ReceiveInfoMessage(old(model), from, sid);
        model == r.state && published == old(published) + Maybe(r.pub)
      ensures sid in old(sources) ==> old(sources)[sid].closed && !old(sources)[sid].peerConnection
      ensures sid in old(relays) && pool.relays != old(pool.relays) ==> !old(relays)[sid].peerConnection
    {
      hide Shows, Wired, Evict;
      CloseSourceOf(sid);
      SourceCut(Registries(), model, pool, sid);
      sources := sources - {sid};
      model := model.(node := model.node.(sources := model.node.sources - {sid}));
      assert Shows(Registries(), model, pool);
      SinksAre(Registries(), model, pool, sid);
      if sid in sinks && sinks[sid] != map[] {
        RelayViewersTo(from, sid);
      }
    }

    /** Viewers of the stream here get a new relay, and the other node is asked to feed it. */
    method RelayViewersTo(from: NodeId, sid: StreamId)
      requires Valid()
      modifies this, pool.relays
      ensures Valid() && pool == old(pool).(relays := pool.relays)
      ensures old(pool.relays) < pool.relays && fresh(pool.relays - old(pool.relays))
      ensures model == old(model).(node := RelayedFrom(old(model.node), sid, from))
      ensures published == old(published) + [Direct(from, Connect, sid)]
      ensures sid in old(relays) ==> !old(relays)[sid].peerConnection
    {
      hide Shows, Wired, RelayedFrom;
      RelayingFrom(model.node, sid, from);
      var relay := ReplaceRelay(relays, sid, from, this, Registries(), model, pool);
      WiredRelay(this, pool, sinkCount, relay);
      relays := relays[sid := relay];
      pool := pool.(relays := pool.relays + {relay});
      model := model.(node := RelayedFrom(model.node, sid, from));
      published := published + [Direct(from, Connect, sid)];
      assert Shows(Registries(), model, pool);
    }

    /** receiveOfferMessage: `onOffer` runs at once here. */
    method ReceiveOfferMessage(sid: StreamId, hasVideo: bool, hasAudio: bool, created: bool) returns (closing: bool)
      requires Valid()
      modifies this, pool.relays
      ensures closing == (sid in old(relays) && !created)
      ensures Valid() && pool == old(pool) && published == old(published)
      ensures model == old(model).(node := NodeSpec.ReceiveOffer(old(model.node), sid, hasVideo, hasAudio))
    {
      hide Shows, Wired, ShowsButRelay;
      RelayIs(Registries(), model, pool, sid);
      closing := false;
      if sid in relays {
        RelayAside(Registries(), model, pool, relays[sid]);
        closing := relays[sid].OnOffer(hasVideo, hasAudio, created);
        RelayBack(Registries(), model, pool, relays[sid]);
        model := model.(node := NodeSpec.ReceiveOffer(model.node, sid, hasVideo, hasAudio));
      }
      assert Shows(Registries(), model, pool);
    }

    /** onRelayReady: sinks of the stream get the tracks, also those of a relay that has left. */
    method OnRelayReady(relay: WRTC_Relay)
      requires Valid() && relay in pool.relays && OpenAt(model.node, relay.sid)
      modifies this, relay, pool.sinks
      ensures Valid() && pool == old(pool) && published == old(published)
      ensures old(IsRegisteredRelay(Registries(), relay)) ==>
                && relay.sid in old(model.node.relays)
                && model == old(model).(node := NodeSpec.OnRelayReady(old(model.node), relay.sid))
      ensures !old(IsRegisteredRelay(Registries(), relay)) ==>
                var n' := NodeSpec.LateTracks(old(model.node), relay.sid, old(relay.Rec()).tracks, false);
                model == old(model).(node := n')
    {
      hide Shows, Wired, ShowsButRelay, NodeSpec.SinksReadyAt;
      var sid := relay.sid;
      ghost var registered := IsRegisteredRelay(Registries(), relay);
      RelayAside(Registries(), model, pool, relay);
      relay.ready := true;
      RelayBack(Registries(), model, pool, relay);
      ghost var w := RelayChanged(model, relay, registered);
      SinksReady(sinks, sid, relay.localTrackVideo, relay.localTrackAudio, Registries(), w, pool);
      model := w.(node := w.node.(sinks := NodeSpec.SinksReadyAt(w.node.sinks, sid, relay.Rec().tracks)));
      assert Shows(Registries(), model, pool);
    }

    /** onRelayClosed: the stream's entry goes, whichever relay closes, and viewers look for a new host. */
    method OnRelayClosed(relay: WRTC_Relay)
      requires Valid()
      modifies this, pool.sinks
      ensures Valid() && pool == old(pool)
      ensures
        var e := NodeSpec.OnRelayClosed(old(model.node), relay.sid, old(relay.Rec()).tracks);
        model == old(model).(node := e.node) && published == old(published) + Maybe(e.pub)
    {
      hide Shows, Wired, NodeSpec.SinksClosedAt;
      var sid := relay.sid;
      SinksAre(Registries(), model, pool, sid);
      ghost var w := model.(node := model.node.(relays := model.node.relays - {sid}));
      RelayCut(Registries(), model, pool, sid);
      relays := relays - {sid};
      SinksClosed(sinks, sid, relay.localTrackVideo, relay.localTrackAudio, Registries(), w, pool);
      if sid in sinks && sinks[sid] != map[] {
        published := published + [Broadcast(Resolve, sid)];
      }
      model := model.(node := NodeSpec.OnRelayClosed(model.node, sid, relay.Rec().tracks).node);
      assert Shows(Registries(), model, pool);
    }

    // ---------- redis_srv.go ----------

    /** receiveRedisMessage, once the message is decoded. `reply` says that sendInfoMessage is to follow, and
        `closing` that the relay's onClose is, as `created` is false. */
    method ReceiveRedisMessage(src: NodeId, kind: Kind, sid: StreamId, created: bool)
      returns (reply: bool, closing: bool)
      requires Valid() && RequestInvariants.Inv(model)
      modifies this, pool.sources, pool.relays, pool.sinks, pool.senders, pool.conns
      ensures Valid() && reply == OwesReply(old(model), src, kind, sid)
      ensures closing == (src != id && kind.Offer? && sid in old(relays) && !created)
      ensures
        var r := Requests.ReceiveRedisMessage(old(model), src, kind, sid);
        model == r.state && published == old(published) + Maybe(r.pub)
    {
      hide Shows, Wired, NodeSpec.ReceiveConnect, NodeSpec.ReceiveOffer, Requests.ReceiveInfoMessage;
      assert RequestInvariants.RegisteredOK(model, sid);
      hide RequestInvariants.Inv;
      reply, closing := false, false;
      if src == id {
        return;
      }
      match kind {
        case Resolve => reply := ResolveSource(sid);
        case Info => ReceiveInfoMessage(src, sid);
        case Connect => ReceiveConnectMessage(src, sid);
        case Offer(video, audio) => closing := ReceiveOfferMessage(sid, video, audio, created);
      }
    }

    /** sendInfoMessage to one node: the answer to its RESOLVE. The source may be gone by then. */
    method SendInfoMessage(to: NodeId, sid: StreamId)
      requires Valid()
      modifies this
      ensures Valid() && pool == old(pool) && model == old(model)
      ensures published == old(published) + [Direct(to, Info, sid)]
    {
      hide Wired;
      published := published + [Direct(to, Info, sid)];
    }

    // ---------- Tasks of sinks and senders ----------

    /** A task that a sink has queued runs. A closed sink sends nothing. */
    method RunSinkTask(sink: WRTC_Sink)
      requires Valid() && sink in pool.sinks && sink.queued > 0
      modifies this, sink
      ensures Valid() && pool == old(pool) && published == old(published)
      ensures sink.Rec() == NodeSpec.SinkRun(old(sink.Rec())) && (sink.closed ==> sink.sent == old(sink.sent))
      ensures model == SinkChanged(old(model), sink, IsRegisteredSink(old(Registries()), sink))
    {
      hide Shows, Wired, ShowsButSink;
      SinkAside(Registries(), model, pool, sink);
      sink.RunAfterTracksReady();
      SinkBack(Registries(), model, pool, sink);
      model := SinkChanged(model, sink, IsRegisteredSink(Registries(), sink));
    }

    /** A sink's peer connection fails. */
    method SinkPeerLost(sink: WRTC_Sink)
      requires Valid() && sink in pool.sinks
      modifies this, sink
      ensures Valid() && pool == old(pool) && published == old(published)
      ensures sink.Rec() == NodeSpec.SinkReconnect(old(sink.Rec()))
      ensures model == SinkChanged(old(model), sink, IsRegisteredSink(old(Registries()), sink))
    {
      hide Shows, Wired, ShowsButSink;
      SinkAside(Registries(), model, pool, sink);
      sink.Reconnect();
      SinkBack(Registries(), model, pool, sink);
      model := SinkChanged(model, sink, IsRegisteredSink(Registries(), sink));
    }

    /** A task that a sender has queued runs, be the sender registered or not. A closed one publishes nothing. */
    method RunSenderTask(sender: WRTC_Source_Sender)
      requires Valid() && sender in pool.senders && sender.queued > 0
      modifies this, sender
      ensures Valid() && pool == old(pool)
      ensures sender.closed ==> published == old(published) && sender.offers == old(sender.offers)
      ensures old(IsRegisteredSender(Registries(), sender)) ==>
                && NodeSpec.IsSender(old(model.node), sender.sid, sender.remoteId)
                && old(model.node.senders[sender.sid][sender.remoteId]).queued > 0
                && var e := NodeSpec.RunSender(old(model.node), sender.sid, sender.remoteId);
                model == old(model).(node := e.node) && published == old(published) + Maybe(e.pub)
      ensures !old(IsRegisteredSender(Registries(), sender)) ==>
                var was := old(sender.Rec());
                var offer := Direct(sender.remoteId, Offer(was.hasVideo, was.hasAudio), sender.sid);
                && model == old(model) && sender.Rec() == NodeSpec.SenderRun(was)
                && published == old(published) + if was.hasVideo || was.hasAudio then [offer] else []
    {
      hide Shows, Wired, ShowsButSender;
      SenderAside(Registries(), model, pool, sender);
      WiredSenderIs(this, pool, sinkCount, sender);
      sender.RunAfterTracksReady();
      SenderBack(Registries(), model, pool, sender);
      model := SenderChanged(model, sender, IsRegisteredSender(Registries(), sender));
    }
  }

  // ---------- How objects show as values ----------

  /** The registries of a node and the connections that use it. */
  datatype Fields = Fields(
    sources: map<StreamId, WRTC_Source>, relays: map<StreamId, WRTC_Relay>,
    sinks: map<StreamId, map<SinkId, WRTC_Sink>>, senders: map<StreamId, map<NodeId, WRTC_Source_Sender>>,
    conns: map<ConnectionId, Connection_Handler>)

  /** The objects of a node: those in its registries and those that have left. */
  datatype Pool = Pool(
    sources: set<WRTC_Source>, relays: set<WRTC_Relay>, sinks: set<WRTC_Sink>, senders: set<WRTC_Source_Sender>,
    conns: set<Connection_Handler>)

  /** Objects refer to this node and to its connections, and are told apart by their identities. */
  ghost predicate Wired(node: WebRTC_CDN_Node, p: Pool, sinkCount: nat) {
    && (forall s | s in p.sources :: s.node == node && s.connection in p.conns)
    && (forall r | r in p.relays :: r.node == node)
    && (forall k | k in p.sinks :: k.node == node && k.connection in p.conns && k.sinkId.number <= sinkCount)
    && (forall s | s in p.senders :: s.node == node)
    && (forall c | c in p.conns :: c.node == node)
    && (forall s, t | s in p.sources && t in p.sources && s.stamp == t.stamp :: s == t)
    && (forall k, l | k in p.sinks && l in p.sinks && k.sinkId == l.sinkId :: k == l)
    && (forall c, d | c in p.conns && d in p.conns && c.id == d.id :: c == d)
  }

  lemma WiredSource(node: WebRTC_CDN_Node, p: Pool, sinkCount: nat, s: WRTC_Source)
    requires Wired(node, p, sinkCount) && s in p.sources
    ensures s.node == node && s.connection in p.conns && s.connection.node == node
    ensures forall t | t in p.sources && t.stamp == s.stamp :: t == s
  {
  }

  lemma WiredSender(node: WebRTC_CDN_Node, p: Pool, sinkCount: nat, s: WRTC_Source_Sender)
    requires Wired(node, p, sinkCount) && s.node == node
    ensures Wired(node, p.(senders := p.senders + {s}), sinkCount)
  {
  }

  lemma WiredRelay(node: WebRTC_CDN_Node, p: Pool, sinkCount: nat, r: WRTC_Relay)
    requires Wired(node, p, sinkCount) && r.node == node
    ensures Wired(node, p.(relays := p.relays + {r}), sinkCount)
  {
  }

  lemma WiredNewConn(node: WebRTC_CDN_Node, p: Pool, sinkCount: nat, h: Connection_Handler)
    requires Wired(node, p, sinkCount) && h.node == node && forall c | c in p.conns :: c.id != h.id
    ensures Wired(node, p.(conns := p.conns + {h}), sinkCount)
  {
  }

  lemma WiredNewSource(node: WebRTC_CDN_Node, p: Pool, sinkCount: nat, s: WRTC_Source)
    requires Wired(node, p, sinkCount) && s.node == node && s.connection in p.conns
    requires forall t | t in p.sources :: t.stamp != s.stamp
    ensures Wired(node, p.(sources := p.sources + {s}), sinkCount)
  {
  }

  lemma WiredNewSink(node: WebRTC_CDN_Node, p: Pool, sinkCount: nat, k: WRTC_Sink)
    requires Wired(node, p, sinkCount) && k.node == node && k.connection in p.conns && k.sinkId.number <= sinkCount
    requires forall l | l in p.sinks :: l.sinkId != k.sinkId
    ensures Wired(node, p.(sinks := p.sinks + {k}), sinkCount)
  {
  }

  lemma WiredSink(node: WebRTC_CDN_Node, p: Pool, sinkCount: nat, k: WRTC_Sink)
    requires Wired(node, p, sinkCount) && k in p.sinks
    ensures k.node == node && k.connection in p.conns
    ensures forall l | l in p.sinks && l.sinkId == k.sinkId :: l == k
  {
  }

  lemma WiredSenderIs(node: WebRTC_CDN_Node, p: Pool, sinkCount: nat, s: WRTC_Source_Sender)
    requires Wired(node, p, sinkCount) && s in p.senders
    ensures s.node == node
  {
  }

  lemma WiredRelayIs(node: WebRTC_CDN_Node, p: Pool, sinkCount: nat, r: WRTC_Relay)
    requires Wired(node, p, sinkCount) && r in p.relays
    ensures r.node == node
  {
  }

  lemma WiredConn(node: WebRTC_CDN_Node, p: Pool, sinkCount: nat, c: Connection_Handler,
                  m: map<ConnectionId, Connection_Handler>)
    requires Wired(node, p, sinkCount) && c in p.conns
    requires forall i | i in m :: m[i] in p.conns && m[i].id == i
    ensures c.node == node && (c.id in m ==> m[c.id] == c)
  {
  }

  /** What the close of an open source leaves. */
  ghost function AfterClose(w: State, s: WRTC_Source, notify: bool, deregister: bool): State
    reads s
  {
    State(
      if deregister then NodeSpec.OnSourceClosed(w.node, s.sid, s.Held()) else w.node,
      if notify then SendSourceClose(w.conns, s.connection.id, s.requestId, s.sid) else w.conns,
      CloseObject(w.objects, s.stamp), w.sinkObjects, w.limit)
  }

  /** A request in a table leads to an open source, or to a sink: neither is missing. */
  lemma CloseInSteps(f: Fields, w: State, p: Pool, h: Connection_Handler, req: RequestId)
    requires Shows(f, w, p) && RequestInvariants.Inv(w)
    requires h in p.conns && h.id in f.conns && f.conns[h.id] == h && h.id in w.conns && w.conns[h.id] == h.Table()
    ensures req !in h.requests ==> CloseRequest(w, h.id, req) == w
    ensures req in h.requests && h.requests[req].PublishRequest? ==>
              && req in h.sources && h.sources[req] in p.sources && !h.sources[req].closed
              && ((forall t | t in p.sources && t.stamp == h.sources[req].stamp :: t == h.sources[req]) ==>
                    var w1 := AfterClose(w, h.sources[req], false, true);
                    CloseRequest(w, h.id, req) == w1.(conns := w1.conns[h.id := DropSource(w1.conns[h.id], req)]))
    ensures req in h.requests && h.requests[req].PlayRequest? ==>
              && req in h.sinks && h.sinks[req] in p.sinks
              && CloseRequest(w, h.id, req) ==
                 w.(node := NodeSpec.RemoveSink(w.node, h.sinks[req].sid, h.sinks[req].sinkId),
                    sinkObjects := CloseSinkObject(w.sinkObjects, h.sinks[req].sinkId),
                    conns := w.conns[h.id := DropSink(w.conns[h.id], req)])
  {
    assert RequestInvariants.ConnOK(w.conns[h.id]);
    if req in h.requests && h.requests[req].PublishRequest? {
      assert req in w.conns[h.id].sources;
      var s := h.sources[req];
      assert RequestInvariants.TabledOK(w, h.id, req);
      assert RequestInvariants.RegisteredOK(w, s.sid);
      SourceAside(f, w, p, s);
      SourceIs(f, w, p, s.sid);
    }
  }

  lemma EmptyTables(f: Fields, w: State, p: Pool, h: Connection_Handler)
    requires Shows(f, w, p) && RequestInvariants.Inv(w) && h.id in f.conns && f.conns[h.id] == h
    requires h.requests.Keys == {}
    ensures h.requests == map[] && h.sources == map[] && h.sinks == map[] && h.requestCount == 0
  {
    hide Shows;
    TableIs(f, w, p, h);
    assert RequestInvariants.ConnOK(w.conns[h.id]);
    RequestRuns.EmptyConn(w.conns[h.id]);
    assert h.sources.Keys == h.Table().sources.Keys && h.sinks.Keys == h.Table().sinks.Keys;
  }

  /** What a request in a table leads to is registered. */
  lemma Linked(node: WebRTC_CDN_Node, h: Connection_Handler, req: RequestId)
    requires node.Valid() && RequestInvariants.Inv(node.model)
    requires h in node.pool.conns && h.id in node.connections && node.connections[h.id] == h
    requires req in h.sources ==> h.sources[req] in node.pool.sources
    requires req in h.sinks ==> h.sinks[req] in node.pool.sinks
    ensures req in h.sources ==>
              var s := h.sources[req];
              IsRegistered(node.Registries(), s) && s.requestId == req && s.connection == h
    ensures req in h.sinks ==>
              var k := h.sinks[req];
              IsRegisteredSink(node.Registries(), k) && k.requestId == req && k.connection == h
  {
    hide Shows, Wired;
    var f, w, p := node.Registries(), node.model, node.pool;
    TableIs(f, w, p, h);
    if req in h.sources {
      var s := h.sources[req];
      assert RequestInvariants.TabledOK(w, h.id, req);
      SourceIs(f, w, p, s.sid);
      WiredSource(node, p, node.sinkCount, s);
      WiredConn2(node, p, node.sinkCount, h, s.connection);
    }
    if req in h.sinks {
      var k := h.sinks[req];
      assert RequestInvariants.SinkTabledOK(w, h.id, req);
      SinksAre(f, w, p, k.sid);
      SinkIs(f, w, p, k.sid, k.sinkId);
      WiredSink(node, p, node.sinkCount, k);
      WiredConn2(node, p, node.sinkCount, h, k.connection);
    }
  }

  lemma WiredConn2(node: WebRTC_CDN_Node, p: Pool, sinkCount: nat, c: Connection_Handler, d: Connection_Handler)
    requires Wired(node, p, sinkCount) && c in p.conns && d in p.conns
    ensures c.id == d.id ==> c == d
  {
  }

  /** The peer of an open source is lost. */
  lemma LostSource(f: Fields, w: State, p: Pool, s: WRTC_Source)
    requires Shows(f, w, p) && RequestInvariants.Inv(w) && s in p.sources
    ensures s.stamp in w.objects && (s.closed ==> SourceLost(w, s.stamp) == w)
    ensures (forall t | t in p.sources && t.stamp == s.stamp :: t == s) && !s.closed ==>
              SourceLost(w, s.stamp) == AfterClose(w, s, true, true)
  {
    SourceAside(f, w, p, s);
    SourceIs(f, w, p, s.sid);
    assert RequestInvariants.ObjectOK(w, s.stamp);
  }

  /** Registered sources show as their values, and every source ever registered as its object. */
  ghost predicate SourcesOK(
    m: map<StreamId, WRTC_Source>, v: map<StreamId, NodeSpec.Source>, objects: map<nat, SourceObject>,
    all: set<WRTC_Source>)
    reads all
  {
    && m.Keys == v.Keys
    && (forall sid | sid in m :: m[sid] in all && m[sid].sid == sid && m[sid].Rec() == v[sid])
    && (forall s | s in all :: s.stamp in objects && objects[s.stamp] == s.Obj())
  }

  ghost predicate RelaysOK(m: map<StreamId, WRTC_Relay>, v: map<StreamId, NodeSpec.Relay>, all: set<WRTC_Relay>)
    reads all
  {
    m.Keys == v.Keys && forall sid | sid in m :: m[sid] in all && m[sid].sid == sid && m[sid].Rec() == v[sid]
  }

  ghost predicate SinksAtOK(
    m: map<SinkId, WRTC_Sink>, v: map<SinkId, NodeSpec.Sink>, sid: StreamId, all: set<WRTC_Sink>)
    reads all
  {
    m.Keys == v.Keys && forall k | k in m :: m[k] in all && m[k].sid == sid && m[k].sinkId == k && m[k].Rec() == v[k]
  }

  ghost predicate SinksOK(
    m: map<StreamId, map<SinkId, WRTC_Sink>>, v: map<StreamId, map<SinkId, NodeSpec.Sink>>, all: set<WRTC_Sink>)
    reads all
  {
    m.Keys == v.Keys && forall sid | sid in m :: SinksAtOK(m[sid], v[sid], sid, all)
  }

  ghost predicate SinkObjectsOK(v: map<SinkId, SinkObject>, all: set<WRTC_Sink>)
    reads all
  {
    forall k | k in all :: k.sinkId in v && v[k.sinkId] == k.Obj() && k.SilentIfClosed()
  }

  ghost predicate SendersAtOK(
    m: map<NodeId, WRTC_Source_Sender>, v: map<NodeId, NodeSpec.Sender>, sid: StreamId, all: set<WRTC_Source_Sender>)
    reads all
  {
    m.Keys == v.Keys && forall k | k in m :: m[k] in all && m[k].sid == sid && m[k].remoteId == k && m[k].Rec() == v[k]
  }

  ghost predicate SendersOK(
    m: map<StreamId, map<NodeId, WRTC_Source_Sender>>, v: map<StreamId, map<NodeId, NodeSpec.Sender>>,
    all: set<WRTC_Source_Sender>)
    reads all
  {
    && m.Keys == v.Keys && (forall sid | sid in m :: SendersAtOK(m[sid], v[sid], sid, all))
    && (forall s | s in all :: s.SilentIfClosed())
  }

  ghost predicate TablesOK(m: map<ConnectionId, Connection_Handler>, v: map<ConnectionId, Conn>, p: Pool)
    reads p.conns
  {
    && m.Keys == v.Keys
    && (forall c | c in m :: m[c] in p.conns && m[c].id == c && m[c].Table() == v[c])
    && (forall c | c in p.conns :: c.RefersTo(p.sources, p.sinks))
  }

  /** A connection's tables as values: their objects are shown by their identities. */
  ghost function TableOf(requests: map<RequestId, RequestKind>, count: nat, sources: map<RequestId, WRTC_Source>,
                         sinks: map<RequestId, WRTC_Sink>, sent: seq<ClientMessage>): Conn
  {
    Conn(requests, count, map r | r in sources :: SourceRef(sources[r].sid, sources[r].stamp),
         map r | r in sinks :: SinkRef(sinks[r].sid, sinks[r].sinkId), sent)
  }

  lemma TableDropsSource(requests: map<RequestId, RequestKind>, count: nat, sources: map<RequestId, WRTC_Source>,
                         sinks: map<RequestId, WRTC_Sink>, sent: seq<ClientMessage>, req: RequestId)
    ensures forall said :: TableOf(requests - {req}, Dec(count), sources - {req}, sinks, said) ==
                           DropSource(TableOf(requests, count, sources, sinks, sent), req).(sent := said)
    ensures TableOf(requests, count, sources, sinks, sent).sent == sent
  {
  }

  lemma TableDropsSink(requests: map<RequestId, RequestKind>, count: nat, sources: map<RequestId, WRTC_Source>,
                       sinks: map<RequestId, WRTC_Sink>, sent: seq<ClientMessage>, req: RequestId)
    ensures TableOf(requests - {req}, Dec(count), sources, sinks - {req}, sent) ==
            DropSink(TableOf(requests, count, sources, sinks, sent), req)
  {
  }

  lemma TableAddsSource(requests: map<RequestId, RequestKind>, count: nat, sources: map<RequestId, WRTC_Source>,
                        sinks: map<RequestId, WRTC_Sink>, sent: seq<ClientMessage>, req: RequestId, s: WRTC_Source)
    ensures TableOf(requests[req := PublishRequest], Inc(count), sources[req := s], sinks, sent + [OkMessage(req)]) ==
            AddSource(TableOf(requests, count, sources, sinks, sent), req, SourceRef(s.sid, s.stamp))
  {
  }

  lemma TableAddsSink(requests: map<RequestId, RequestKind>, count: nat, sources: map<RequestId, WRTC_Source>,
                      sinks: map<RequestId, WRTC_Sink>, sent: seq<ClientMessage>, req: RequestId, k: WRTC_Sink)
    ensures TableOf(requests[req := PlayRequest], Inc(count), sources, sinks[req := k],
                    sent + [OkMessage(req)] + [StandbyMessage(req)]) ==
            AddSink(TableOf(requests, count, sources, sinks, sent), req, SinkRef(k.sid, k.sinkId))
  {
  }

  /** The objects show as the state `w`. */
  ghost predicate Shows(f: Fields, w: State, p: Pool)
    reads p.sources, p.relays, p.sinks, p.senders, p.conns
  {
    && SourcesOK(f.sources, w.node.sources, w.objects, p.sources)
    && RelaysOK(f.relays, w.node.relays, p.relays)
    && SinksOK(f.sinks, w.node.sinks, p.sinks) && SinkObjectsOK(w.sinkObjects, p.sinks)
    && SendersOK(f.senders, w.node.senders, p.senders)
    && TablesOK(f.conns, w.conns, p)
  }

  // ---------- Changes to the registries ----------

  /** A new source joins the objects of the node. */
  lemma SourceEnlisted(f: Fields, w: State, p: Pool, s: WRTC_Source)
    requires Shows(f, w, p) && s !in p.sources && s.stamp !in w.objects
    ensures Shows(f, w.(objects := w.objects[s.stamp := s.Obj()]), p.(sources := p.sources + {s}))
    ensures forall t | t in p.sources :: t.stamp != s.stamp
  {
    hide RelaysOK, SinksOK, SendersOK;
  }

  /** A new sink joins the objects of the node. */
  lemma SinkEnlisted(f: Fields, w: State, p: Pool, k: WRTC_Sink)
    requires Shows(f, w, p) && k.SilentIfClosed() && forall l | l in p.sinks :: l.sinkId != k.sinkId
    ensures Shows(f, w.(sinkObjects := w.sinkObjects[k.sinkId := k.Obj()]), p.(sinks := p.sinks + {k}))
  {
    hide SourcesOK, RelaysOK, SendersOK;
    forall sid | sid in f.sinks ensures SinksAtOK(f.sinks[sid], w.node.sinks[sid], sid, p.sinks + {k}) {
      assert SinksAtOK(f.sinks[sid], w.node.sinks[sid], sid, p.sinks);
    }
    hide SinksAtOK;
  }

  lemma ConnCut(f: Fields, w: State, p: Pool, c: ConnectionId)
    requires Shows(f, w, p)
    ensures Shows(f.(conns := f.conns - {c}), w.(conns := w.conns - {c}), p)
  {
    hide SourcesOK, RelaysOK, SinksOK, SendersOK;
  }

  lemma ConnPut(f: Fields, w: State, p: Pool, h: Connection_Handler)
    requires Shows(f, w, p) && h.RefersTo(p.sources, p.sinks)
    ensures Shows(f.(conns := f.conns[h.id := h]), w.(conns := w.conns[h.id := h.Table()]), p.(conns := p.conns + {h}))
  {
    hide SourcesOK, RelaysOK, SinksOK, SendersOK;
  }

  lemma TableIs(f: Fields, w: State, p: Pool, c: Connection_Handler)
    requires Shows(f, w, p)
    ensures c.id in f.conns && f.conns[c.id] == c ==> c.id in w.conns && w.conns[c.id] == c.Table()
    ensures c in p.conns ==> c.RefersTo(p.sources, p.sinks)
  {
  }

  lemma SinkIdTaken(f: Fields, w: State, p: Pool)
    requires Shows(f, w, p)
    ensures Shows(f, w.(node := NodeSpec.GetSinkID(w.node)), p)
  {
  }

  lemma StampUsed(f: Fields, w: State, p: Pool)
    requires Shows(f, w, p)
    ensures Shows(f, w.(node := w.node.(nextStamp := w.node.nextStamp + 1)), p)
  {
  }

  lemma SourceCut(f: Fields, w: State, p: Pool, sid: StreamId)
    requires Shows(f, w, p)
    ensures Shows(f.(sources := f.sources - {sid}), w.(node := w.node.(sources := w.node.sources - {sid})), p)
  {
    hide RelaysOK, SinksOK, SendersOK, TablesOK;
  }

  lemma SourcePut(f: Fields, w: State, p: Pool, s: WRTC_Source)
    requires Shows(f, w, p) && s in p.sources
    ensures Shows(f.(sources := f.sources[s.sid := s]),
                  w.(node := w.node.(sources := w.node.sources[s.sid := s.Rec()])), p)
  {
    hide RelaysOK, SinksOK, SendersOK, TablesOK;
  }

  lemma SourceIs(f: Fields, w: State, p: Pool, sid: StreamId)
    requires Shows(f, w, p)
    ensures sid in f.sources <==> sid in w.node.sources
    ensures sid in f.sources ==>
              var s := f.sources[sid];
              && s in p.sources && s.sid == sid && s.Rec() == w.node.sources[sid]
              && Lookup(w.objects, s.stamp) == Some(s.Obj())
  {
  }

  lemma RelayIs(f: Fields, w: State, p: Pool, sid: StreamId)
    requires Shows(f, w, p)
    ensures sid in f.relays <==> sid in w.node.relays
    ensures sid in f.relays ==>
              var r := f.relays[sid];
              r in p.relays && r.sid == sid && r.Rec() == w.node.relays[sid]
  {
  }

  lemma SinksAre(f: Fields, w: State, p: Pool, sid: StreamId)
    requires Shows(f, w, p)
    ensures sid in f.sinks <==> sid in w.node.sinks
    ensures sid in f.sinks ==> (f.sinks[sid] == map[] <==> w.node.sinks[sid] == map[])
    ensures sid in f.sinks ==> f.sinks[sid].Keys == w.node.sinks[sid].Keys
  {
    if sid in f.sinks {
      assert SinksAtOK(f.sinks[sid], w.node.sinks[sid], sid, p.sinks);
      assert f.sinks[sid] == map[] <==> f.sinks[sid].Keys == {};
      assert w.node.sinks[sid] == map[] <==> w.node.sinks[sid].Keys == {};
    }
  }

  lemma SinkIs(f: Fields, w: State, p: Pool, sid: StreamId, id: SinkId)
    requires Shows(f, w, p) && sid in f.sinks && id in f.sinks[sid]
    ensures sid in w.node.sinks && id in w.node.sinks[sid]
    ensures
      var k := f.sinks[sid][id];
      k in p.sinks && k.sid == sid && k.sinkId == id && k.Rec() == w.node.sinks[sid][id]
  {
    assert SinksAtOK(f.sinks[sid], w.node.sinks[sid], sid, p.sinks);
  }

  lemma SendersAre(f: Fields, w: State, p: Pool, sid: StreamId)
    requires Shows(f, w, p)
    ensures sid in f.senders <==> sid in w.node.senders
    ensures sid in f.senders ==> (f.senders[sid] == map[] <==> w.node.senders[sid] == map[])
    ensures sid in f.senders ==> f.senders[sid].Keys == w.node.senders[sid].Keys
    ensures sid in f.senders ==> f.senders[sid].Values <= p.senders
    ensures sid in f.senders ==>
              forall to | to in f.senders[sid] :: f.senders[sid][to].sid == sid && f.senders[sid][to].remoteId == to
  {
    if sid in f.senders {
      assert SendersAtOK(f.senders[sid], w.node.senders[sid], sid, p.senders);
      assert f.senders[sid] == map[] <==> f.senders[sid].Keys == {};
      assert w.node.senders[sid] == map[] <==> w.node.senders[sid].Keys == {};
    }
  }

  lemma RelayCut(f: Fields, w: State, p: Pool, sid: StreamId)
    requires Shows(f, w, p)
    ensures Shows(f.(relays := f.relays - {sid}), w.(node := w.node.(relays := w.node.relays - {sid})), p)
  {
    hide SourcesOK, SinksOK, SendersOK, TablesOK;
  }

  /** A new relay takes the place of the stream's relay. */
  lemma RelayPut(f: Fields, w: State, p: Pool, r: WRTC_Relay)
    requires Shows(f, w, p)
    ensures Shows(f.(relays := f.relays[r.sid := r]), w.(node := w.node.(relays := w.node.relays[r.sid := r.Rec()])),
                  p.(relays := p.relays + {r}))
  {
    hide SourcesOK, SinksOK, SendersOK;
  }

  lemma SinkPut(f: Fields, w: State, p: Pool, k: WRTC_Sink)
    requires Shows(f, w, p) && k in p.sinks
    ensures Shows(f.(sinks := Put(f.sinks, k.sid, k.sinkId, k)),
                  w.(node := w.node.(sinks := Put(w.node.sinks, k.sid, k.sinkId, k.Rec()))), p)
  {
    hide SourcesOK, RelaysOK, SendersOK, TablesOK;
    var m, v := Put(f.sinks, k.sid, k.sinkId, k), Put(w.node.sinks, k.sid, k.sinkId, k.Rec());
    assert SinksAtOK(m[k.sid], v[k.sid], k.sid, p.sinks) by {
      if k.sid in f.sinks { assert SinksAtOK(f.sinks[k.sid], w.node.sinks[k.sid], k.sid, p.sinks); }
    }
    hide SinksAtOK;
  }

  lemma SinkCut(f: Fields, w: State, p: Pool, sid: StreamId, id: SinkId)
    requires Shows(f, w, p)
    ensures Shows(f.(sinks := Cut(f.sinks, sid, id)), w.(node := w.node.(sinks := Cut(w.node.sinks, sid, id))), p)
    ensures sid in f.sinks && sid in w.node.sinks ==>
              (f.sinks[sid] - {id} == map[] <==> w.node.sinks[sid] - {id} == map[])
  {
    hide SourcesOK, RelaysOK, SendersOK, TablesOK;
    SinksAre(f, w, p, sid);
    if sid in f.sinks {
      assert SinksAtOK(f.sinks[sid], w.node.sinks[sid], sid, p.sinks);
      var rest, vrest := f.sinks[sid] - {id}, w.node.sinks[sid] - {id};
      assert SinksAtOK(rest, vrest, sid, p.sinks);
      assert rest == map[] <==> rest.Keys == {};
      assert vrest == map[] <==> vrest.Keys == {};
    }
    hide SinksAtOK;
  }

  lemma SenderPut(f: Fields, w: State, p: Pool, s: WRTC_Source_Sender)
    requires Shows(f, w, p) && s.SilentIfClosed()
    ensures Shows(f.(senders := Put(f.senders, s.sid, s.remoteId, s)),
                  w.(node := w.node.(senders := Put(w.node.senders, s.sid, s.remoteId, s.Rec()))),
                  p.(senders := p.senders + {s}))
  {
    hide SourcesOK, RelaysOK, SinksOK;
    var m, v := Put(f.senders, s.sid, s.remoteId, s), Put(w.node.senders, s.sid, s.remoteId, s.Rec());
    var all := p.senders + {s};
    forall sid | sid in m ensures SendersAtOK(m[sid], v[sid], sid, all) {
      if sid in f.senders { assert SendersAtOK(f.senders[sid], w.node.senders[sid], sid, p.senders); }
    }
    hide SendersAtOK;
  }

  /** receiveConnectMessage: a new sender takes its place, with the tracks if the source is ready. */
  lemma SenderConnected(f: Fields, w: State, p: Pool, s: WRTC_Source_Sender, n: NodeSpec.NodeState)
    requires Shows(f, w, p) && s.sid in n.sources
    requires w.node == n.(senders := w.node.senders)
    requires forall x :: Put(w.node.senders, s.sid, s.remoteId, x) == Put(n.senders, s.sid, s.remoteId, x)
    requires
      var source := n.sources[s.sid];
      var new0 := NodeSpec.NewSender(n.nextStamp, source.stamp);
      s.Rec() == if source.ready then NodeSpec.SenderTracksReady(new0, source.tracks) else new0
    ensures Shows(f.(senders := Put(f.senders, s.sid, s.remoteId, s)),
                  w.(node := NodeSpec.ReceiveConnect(n, s.remoteId, s.sid, n.nextStamp)),
                  p.(senders := p.senders + {s}))
  {
    SenderPut(f, w, p, s);
    hide SourcesOK, RelaysOK, SinksOK, SendersOK, TablesOK;
  }

  lemma SenderCut(f: Fields, w: State, p: Pool, sid: StreamId, to: NodeId)
    requires Shows(f, w, p)
    ensures Shows(f.(senders := Cut(f.senders, sid, to)),
                  w.(node := w.node.(senders := Cut(w.node.senders, sid, to))), p)
    ensures sid in f.senders && sid in w.node.senders ==>
              (f.senders[sid] - {to} == map[] <==> w.node.senders[sid] - {to} == map[])
  {
    hide SourcesOK, RelaysOK, SinksOK, TablesOK;
    SendersAre(f, w, p, sid);
    if sid in f.senders {
      assert SendersAtOK(f.senders[sid], w.node.senders[sid], sid, p.senders);
      var rest, vrest := f.senders[sid] - {to}, w.node.senders[sid] - {to};
      assert SendersAtOK(rest, vrest, sid, p.senders);
      assert rest == map[] <==> rest.Keys == {};
      assert vrest == map[] <==> vrest.Keys == {};
    }
    hide SendersAtOK;
  }

  // ---------- One object set aside while it changes ----------

  ghost predicate ShowsButSource(f: Fields, w: State, p: Pool, x: WRTC_Source)
    reads p.sources - {x}, p.relays, p.sinks, p.senders, p.conns
  {
    && RelaysOK(f.relays, w.node.relays, p.relays)
    && SinksOK(f.sinks, w.node.sinks, p.sinks) && SinkObjectsOK(w.sinkObjects, p.sinks)
    && SendersOK(f.senders, w.node.senders, p.senders)
    && TablesOK(f.conns, w.conns, p)
    && f.sources.Keys == w.node.sources.Keys
    && (forall sid | sid in f.sources ::
          f.sources[sid] in p.sources && f.sources[sid].sid == sid &&
          (f.sources[sid] != x ==> f.sources[sid].Rec() == w.node.sources[sid]))
    && (forall s | s in p.sources && s != x :: s.stamp in w.objects && w.objects[s.stamp] == s.Obj())
  }

  lemma SourceAside(f: Fields, w: State, p: Pool, x: WRTC_Source)
    requires Shows(f, w, p) && x in p.sources
    ensures ShowsButSource(f, w, p, x) && Lookup(w.objects, x.stamp) == Some(x.Obj())
    ensures IsRegistered(f, x) ==> x.sid in w.node.sources && w.node.sources[x.sid] == x.Rec()
  {
    hide RelaysOK, SinksOK, SendersOK, TablesOK;
  }

  /** The registered sinks and senders of the stream are open. */
  predicate OpenAt(n: NodeSpec.NodeState, sid: StreamId) {
    && (sid in n.sinks ==> forall k | k in n.sinks[sid] :: !n.sinks[sid][k].closed)
    && (sid in n.senders ==> forall r | r in n.senders[sid] :: !n.senders[sid][r].closed)
  }

  lemma OpenInvIsOpenAt(n: NodeSpec.NodeState, sid: StreamId)
    requires NodeInvariants.OpenInv(n)
    ensures OpenAt(n, sid)
  {
    assert NodeInvariants.OpenOK(StreamSpec.SliceOf(n, sid));
    assert NodeSpec.SinksAt(n, sid) == if sid in n.sinks then n.sinks[sid] else map[];
    assert NodeSpec.SendersAt(n, sid) == if sid in n.senders then n.senders[sid] else map[];
  }

  ghost predicate IsRegistered(f: Fields, x: WRTC_Source) {
    x.sid in f.sources && f.sources[x.sid] == x
  }

  /** The source that was set aside was closed, and nothing else. */
  lemma SourceShut(f: Fields, w: State, p: Pool, x: WRTC_Source)
    requires ShowsButSource(f, w, p, x) && x in p.sources
    requires forall t | t in p.sources && t.stamp == x.stamp :: t == x
    requires Lookup(w.objects, x.stamp) == Some(x.Obj().(closed := false)) && x.closed
    requires IsRegistered(f, x) ==> x.sid in w.node.sources && w.node.sources[x.sid] == x.Rec()
    ensures Shows(f, w.(objects := CloseObject(w.objects, x.stamp)), p)
  {
    hide RelaysOK, SinksOK, SendersOK, TablesOK;
  }

  ghost function SourceChanged(w: State, x: WRTC_Source, registered: bool): State
    reads x
  {
    if registered then w.(node := w.node.(sources := w.node.sources[x.sid := x.Rec()])) else w
  }

  /** The source that was set aside changed, but for its `closed` flag. */
  lemma SourceStays(f: Fields, w: State, p: Pool, x: WRTC_Source)
    requires ShowsButSource(f, w, p, x) && x in p.sources && Lookup(w.objects, x.stamp) == Some(x.Obj())
    ensures Shows(f, SourceChanged(w, x, IsRegistered(f, x)), p)
  {
    hide RelaysOK, SinksOK, SendersOK, TablesOK;
  }

  ghost predicate ShowsButRelay(f: Fields, w: State, p: Pool, x: WRTC_Relay)
    reads p.sources, p.relays - {x}, p.sinks, p.senders, p.conns
  {
    && SourcesOK(f.sources, w.node.sources, w.objects, p.sources)
    && SinksOK(f.sinks, w.node.sinks, p.sinks) && SinkObjectsOK(w.sinkObjects, p.sinks)
    && SendersOK(f.senders, w.node.senders, p.senders)
    && TablesOK(f.conns, w.conns, p)
    && f.relays.Keys == w.node.relays.Keys
    && (forall sid | sid in f.relays ::
          f.relays[sid] in p.relays && f.relays[sid].sid == sid &&
          (f.relays[sid] != x ==> f.relays[sid].Rec() == w.node.relays[sid]))
  }

  ghost predicate IsRegisteredRelay(f: Fields, x: WRTC_Relay) {
    x.sid in f.relays && f.relays[x.sid] == x
  }

  ghost function RelayChanged(w: State, x: WRTC_Relay, registered: bool): State
    reads x
  {
    if registered then w.(node := w.node.(relays := w.node.relays[x.sid := x.Rec()])) else w
  }

  lemma RelayAside(f: Fields, w: State, p: Pool, x: WRTC_Relay)
    requires Shows(f, w, p)
    ensures ShowsButRelay(f, w, p, x)
    ensures IsRegisteredRelay(f, x) ==> x.sid in w.node.relays && w.node.relays[x.sid] == x.Rec()
  {
    hide SourcesOK, SinksOK, SendersOK, TablesOK;
  }

  /** A track that a relay takes, in steps: the relay's new value, and what follows when its tracks are complete. */
  lemma RelayTrackIs(n: NodeSpec.NodeState, sid: StreamId, r: NodeSpec.Relay, kind: TrackKind, track: TrackId,
                     registered: bool)
    requires registered ==> sid in n.relays && n.relays[sid] == r
    ensures
      var taken := NodeSpec.AcceptsTrack(r.tracks, kind);
      var r' := if taken then r.(tracks := NodeSpec.WithTrack(r.tracks, kind, track)) else r;
      var complete := taken && NodeSpec.AllExpected(r.hasVideo, r.hasAudio, r'.tracks);
      && (registered ==>
            var n1 := n.(relays := n.relays[sid := r']);
            NodeSpec.RelayTrack(n, sid, kind, track) == if complete then NodeSpec.OnRelayReady(n1, sid) else n1)
      && (!registered ==>
            NodeSpec.LateTrack(n, sid, r.tracks, r.hasVideo, r.hasAudio, kind, track, false) ==
            if complete then NodeSpec.LateTracks(n, sid, r'.tracks, false) else n)
  {
    if registered { assert n.relays[sid := r] == n.relays; }
  }

  lemma RelayBack(f: Fields, w: State, p: Pool, x: WRTC_Relay)
    requires ShowsButRelay(f, w, p, x)
    ensures Shows(f, RelayChanged(w, x, IsRegisteredRelay(f, x)), p)
  {
    hide SourcesOK, SinksOK, SendersOK, TablesOK;
  }

  /** The relay that was set aside shows as it did. */
  lemma RelayUnchanged(f: Fields, w: State, p: Pool, x: WRTC_Relay)
    requires ShowsButRelay(f, w, p, x)
    requires IsRegisteredRelay(f, x) ==> x.sid in w.node.relays && w.node.relays[x.sid] == x.Rec()
    ensures Shows(f, w, p)
  {
    hide SourcesOK, SinksOK, SendersOK, TablesOK;
  }

  ghost predicate SinksAtOKBut(
    m: map<SinkId, WRTC_Sink>, v: map<SinkId, NodeSpec.Sink>, sid: StreamId, all: set<WRTC_Sink>, x: WRTC_Sink)
    reads all - {x}
  {
    && m.Keys == v.Keys
    && (forall k | k in m :: m[k] in all && m[k].sid == sid && m[k].sinkId == k && (m[k] != x ==> m[k].Rec() == v[k]))
  }

  ghost predicate ShowsButSink(f: Fields, w: State, p: Pool, x: WRTC_Sink)
    reads p.sources, p.relays, p.sinks - {x}, p.senders, p.conns
  {
    && SourcesOK(f.sources, w.node.sources, w.objects, p.sources)
    && RelaysOK(f.relays, w.node.relays, p.relays)
    && SendersOK(f.senders, w.node.senders, p.senders)
    && TablesOK(f.conns, w.conns, p)
    && f.sinks.Keys == w.node.sinks.Keys
    && (forall sid | sid in f.sinks :: SinksAtOKBut(f.sinks[sid], w.node.sinks[sid], sid, p.sinks, x))
    && SinkObjectsOK(w.sinkObjects, p.sinks - {x})
  }

  lemma SinkAside(f: Fields, w: State, p: Pool, x: WRTC_Sink)
    requires Shows(f, w, p) && x in p.sinks
    ensures ShowsButSink(f, w, p, x) && Lookup(w.sinkObjects, x.sinkId) == Some(x.Obj()) && x.SilentIfClosed()
    ensures IsRegisteredSink(f, x) ==>
              NodeSpec.IsSink(w.node, x.sid, x.sinkId) && w.node.sinks[x.sid][x.sinkId] == x.Rec()
  {
    hide SourcesOK, RelaysOK, SendersOK, TablesOK;
    forall sid | sid in f.sinks ensures SinksAtOKBut(f.sinks[sid], w.node.sinks[sid], sid, p.sinks, x) {
      assert SinksAtOK(f.sinks[sid], w.node.sinks[sid], sid, p.sinks);
    }
    hide SinksAtOK, SinksAtOKBut;
  }

  ghost predicate IsRegisteredSink(f: Fields, x: WRTC_Sink) {
    x.sid in f.sinks && x.sinkId in f.sinks[x.sid] && f.sinks[x.sid][x.sinkId] == x
  }

  ghost function SinkChanged(w: State, x: WRTC_Sink, registered: bool): State
    reads x
  {
    if registered then w.(node := w.node.(sinks := Put(w.node.sinks, x.sid, x.sinkId, x.Rec()))) else w
  }

  /** The sink that was set aside was closed. */
  lemma SinkShut(f: Fields, w: State, p: Pool, x: WRTC_Sink)
    requires ShowsButSink(f, w, p, x) && x in p.sinks
    requires forall l | l in p.sinks && l.sinkId == x.sinkId :: l == x
    requires Lookup(w.sinkObjects, x.sinkId) == Some(x.Obj().(closed := false)) ||
             Lookup(w.sinkObjects, x.sinkId) == Some(x.Obj())
    requires x.closed && x.SilentIfClosed()
    ensures
      var w' := w.(sinkObjects := CloseSinkObject(w.sinkObjects, x.sinkId));
      Shows(f, SinkChanged(w', x, IsRegisteredSink(f, x)), p)
  {
    hide SourcesOK, RelaysOK, SendersOK, TablesOK, SinksAtOKBut;
    var w' := w.(sinkObjects := CloseSinkObject(w.sinkObjects, x.sinkId));
    forall k | k in p.sinks - {x} ensures k.sinkId in w'.sinkObjects && w'.sinkObjects[k.sinkId] == k.Obj() {
      assert k.sinkId != x.sinkId;
    }
    assert ShowsButSink(f, w', p, x);
    SinkBack(f, w', p, x);
  }

  lemma SinkBack(f: Fields, w: State, p: Pool, x: WRTC_Sink)
    requires ShowsButSink(f, w, p, x) && x.SilentIfClosed()
    requires x in p.sinks ==> Lookup(w.sinkObjects, x.sinkId) == Some(x.Obj())
    ensures Shows(f, SinkChanged(w, x, IsRegisteredSink(f, x)), p)
  {
    hide SourcesOK, RelaysOK, SendersOK, TablesOK;
    var v := SinkChanged(w, x, IsRegisteredSink(f, x)).node.sinks;
    forall sid | sid in f.sinks ensures sid in v && SinksAtOK(f.sinks[sid], v[sid], sid, p.sinks) {
      assert SinksAtOKBut(f.sinks[sid], w.node.sinks[sid], sid, p.sinks, x);
    }
    assert v.Keys == f.sinks.Keys;
    hide SinksAtOK, SinksAtOKBut;
  }

  lemma RegisteringAsks(n: NodeSpec.NodeState, sid: StreamId, id: SinkId, k: NodeSpec.Sink)
    ensures
      var e := NodeSpec.RegisterSink(n, sid, id, k);
      && e.node.id == n.id && e.node.sinkCount == n.sinkCount
      && e.pub == if NodeSpec.ReadyTracks(n, sid).Some? then None else Some(Broadcast(Resolve, sid))
  {
  }

  /** registerSink: the sink's entry, once the sink has got the tracks that are ready. */
  lemma RegisteringSink(w: State, n: NodeSpec.NodeState, x: WRTC_Sink, k: NodeSpec.Sink, f: Fields, p: Pool)
    requires w.node == n.(sinks := Put(n.sinks, x.sid, x.sinkId, k))
    requires x.Rec() == (var t := NodeSpec.ReadyTracks(n, x.sid);
                         if t.Some? then NodeSpec.SinkTracksReady(k, t.value) else k)
    requires ShowsButSink(f, w, p, x) && IsRegisteredSink(f, x)
    requires Lookup(w.sinkObjects, x.sinkId) == Some(x.Obj()) && x.SilentIfClosed()
    ensures Shows(f, w.(node := NodeSpec.RegisterSink(n, x.sid, x.sinkId, k).node), p)
  {
    SinkBack(f, w, p, x);
    hide SourcesOK, RelaysOK, SinksOK, SendersOK, TablesOK, ShowsButSink;
    PutPut(n.sinks, x.sid, x.sinkId, k, x.Rec());
  }

  /** Changing a sink's entry does not matter to its removal. */
  lemma ChangedSinkGoes(f: Fields, w: State, x: WRTC_Sink)
    requires IsRegisteredSink(f, x) ==> x.sid in w.node.sinks && x.sinkId in w.node.sinks[x.sid]
    ensures
      var w' := SinkChanged(w, x, IsRegisteredSink(f, x));
      && w'.(node := NodeSpec.RemoveSink(w'.node, x.sid, x.sinkId)) ==
         w.(node := NodeSpec.RemoveSink(w.node, x.sid, x.sinkId))
      && w'.limit == w.limit && w'.node.id == w.node.id && w'.node.sinkCount == w.node.sinkCount
  {
    if IsRegisteredSink(f, x) {
      var m, k := w.node.sinks, x.Rec();
      assert m[x.sid][x.sinkId := k] - {x.sinkId} == m[x.sid] - {x.sinkId};
      assert Put(m, x.sid, x.sinkId, k) - {x.sid} == m - {x.sid};
      var rest := m[x.sid] - {x.sinkId};
      assert Put(m, x.sid, x.sinkId, k)[x.sid := rest] == m[x.sid := rest];
    }
  }

  ghost predicate SendersAtOKBut(
    m: map<NodeId, WRTC_Source_Sender>, v: map<NodeId, NodeSpec.Sender>, sid: StreamId, all: set<WRTC_Source_Sender>,
    x: WRTC_Source_Sender)
    reads all - {x}
  {
    && m.Keys == v.Keys
    && (forall k | k in m :: m[k] in all && m[k].sid == sid && m[k].remoteId == k && (m[k] != x ==> m[k].Rec() == v[k]))
  }

  ghost predicate ShowsButSender(f: Fields, w: State, p: Pool, x: WRTC_Source_Sender)
    reads p.sources, p.relays, p.sinks, p.senders - {x}, p.conns
  {
    && SourcesOK(f.sources, w.node.sources, w.objects, p.sources)
    && RelaysOK(f.relays, w.node.relays, p.relays)
    && SinksOK(f.sinks, w.node.sinks, p.sinks) && SinkObjectsOK(w.sinkObjects, p.sinks)
    && TablesOK(f.conns, w.conns, p)
    && f.senders.Keys == w.node.senders.Keys
    && (forall sid | sid in f.senders :: SendersAtOKBut(f.senders[sid], w.node.senders[sid], sid, p.senders, x))
    && (forall s | s in p.senders && s != x :: s.SilentIfClosed())
  }

  lemma SenderAside(f: Fields, w: State, p: Pool, x: WRTC_Source_Sender)
    requires Shows(f, w, p)
    ensures ShowsButSender(f, w, p, x) && (x in p.senders ==> x.SilentIfClosed())
    ensures IsRegisteredSender(f, x) ==>
              NodeSpec.IsSender(w.node, x.sid, x.remoteId) && w.node.senders[x.sid][x.remoteId] == x.Rec()
  {
    hide SourcesOK, RelaysOK, SinksOK, TablesOK;
    forall sid | sid in f.senders ensures SendersAtOKBut(f.senders[sid], w.node.senders[sid], sid, p.senders, x) {
      assert SendersAtOK(f.senders[sid], w.node.senders[sid], sid, p.senders);
    }
    hide SendersAtOK, SendersAtOKBut;
  }

  ghost predicate IsRegisteredSender(f: Fields, x: WRTC_Source_Sender) {
    x.sid in f.senders && x.remoteId in f.senders[x.sid] && f.senders[x.sid][x.remoteId] == x
  }

  ghost function SenderChanged(w: State, x: WRTC_Source_Sender, registered: bool): State
    reads x
  {
    if registered then w.(node := w.node.(senders := Put(w.node.senders, x.sid, x.remoteId, x.Rec()))) else w
  }

  lemma SenderBack(f: Fields, w: State, p: Pool, x: WRTC_Source_Sender)
    requires ShowsButSender(f, w, p, x) && x.SilentIfClosed()
    ensures Shows(f, SenderChanged(w, x, IsRegisteredSender(f, x)), p)
  {
    hide SourcesOK, RelaysOK, SinksOK, TablesOK;
    var v := SenderChanged(w, x, IsRegisteredSender(f, x)).node.senders;
    forall sid | sid in f.senders ensures sid in v && SendersAtOK(f.senders[sid], v[sid], sid, p.senders) {
      assert SendersAtOKBut(f.senders[sid], w.node.senders[sid], sid, p.senders, x);
    }
    assert v.Keys == f.senders.Keys;
    hide SendersAtOK, SendersAtOKBut;
  }

  /** Changing a sender's entry does not matter to its removal. */
  lemma ChangedSenderGoes(f: Fields, w: State, x: WRTC_Source_Sender)
    requires IsRegisteredSender(f, x) ==> x.sid in w.node.senders && x.remoteId in w.node.senders[x.sid]
    ensures
      var w' := SenderChanged(w, x, IsRegisteredSender(f, x));
      && w'.(node := NodeSpec.OnSenderClosed(w'.node, x.sid, x.remoteId)) ==
         w.(node := NodeSpec.OnSenderClosed(w.node, x.sid, x.remoteId))
      && w'.limit == w.limit && w'.node.id == w.node.id && w'.node.sinkCount == w.node.sinkCount
  {
    if IsRegisteredSender(f, x) {
      var m, s := w.node.senders, x.Rec();
      assert m[x.sid][x.remoteId := s] - {x.remoteId} == m[x.sid] - {x.remoteId};
      assert Put(m, x.sid, x.remoteId, s) - {x.sid} == m - {x.sid};
      var rest := m[x.sid] - {x.remoteId};
      assert Put(m, x.sid, x.remoteId, s)[x.sid := rest] == m[x.sid := rest];
    }
  }

  ghost predicate ShowsButConn(f: Fields, w: State, p: Pool, x: Connection_Handler)
    reads p.sources, p.relays, p.sinks, p.senders, p.conns - {x}
  {
    && SourcesOK(f.sources, w.node.sources, w.objects, p.sources)
    && RelaysOK(f.relays, w.node.relays, p.relays)
    && SinksOK(f.sinks, w.node.sinks, p.sinks) && SinkObjectsOK(w.sinkObjects, p.sinks)
    && SendersOK(f.senders, w.node.senders, p.senders)
    && f.conns.Keys == w.conns.Keys
    && (forall c | c in f.conns ::
          f.conns[c] in p.conns && f.conns[c].id == c &&
          (f.conns[c] != x ==> f.conns[c].Table() == w.conns[c]))
    && (forall c | c in p.conns && c != x :: c.RefersTo(p.sources, p.sinks))
  }

  lemma ConnAside(f: Fields, w: State, p: Pool, x: Connection_Handler)
    requires Shows(f, w, p) && x in p.conns
    ensures ShowsButConn(f, w, p, x)
    ensures forall i | i in f.conns :: f.conns[i] in p.conns && f.conns[i].id == i
    ensures x.id in f.conns <==> x.id in w.conns
    ensures x.id in f.conns && f.conns[x.id] == x ==> x.Table() == w.conns[x.id]
    ensures x.RefersTo(p.sources, p.sinks)
  {
    hide SourcesOK, RelaysOK, SinksOK, SendersOK;
  }

  lemma ConnBack(f: Fields, w: State, p: Pool, x: Connection_Handler)
    requires ShowsButConn(f, w, p, x) && x.RefersTo(p.sources, p.sinks)
    ensures Shows(f, if x.id in f.conns && f.conns[x.id] == x then w.(conns := w.conns[x.id := x.Table()]) else w, p)
  {
    hide SourcesOK, RelaysOK, SinksOK, SendersOK;
  }

  // ---------- Loops and parts that several handlers share ----------

  /** Every sender of the map is closed and holds nothing. */
  ghost predicate AllShut(m: map<NodeId, WRTC_Source_Sender>)
    reads m.Values
  {
    forall k | k in m :: m[k].closed && !m[k].peerConnection && !m[k].hasVideo && !m[k].hasAudio
  }

  /** Closes the relay of a stream, if any, and takes it out. */
  method DropRelay(relays: map<StreamId, WRTC_Relay>, sid: StreamId, ghost f: Fields, ghost w: State, ghost p: Pool)
    returns (rest: map<StreamId, WRTC_Relay>)
    requires Shows(f, w, p) && f.relays == relays
    modifies p.relays
    ensures rest == relays - {sid}
    ensures Shows(f.(relays := rest), w.(node := w.node.(relays := w.node.relays - {sid})), p)
    ensures sid in relays ==> !relays[sid].peerConnection
  {
    hide SourcesOK, SinksOK, SendersOK, TablesOK;
    if sid in relays {
      relays[sid].Close();
    }
    return relays - {sid};
  }

  /** receiveInfoMessage: the stream's relay is closed, if there is one, and a new one takes its place. */
  method ReplaceRelay(relays: map<StreamId, WRTC_Relay>, sid: StreamId, from: NodeId, node: WebRTC_CDN_Node,
                      ghost f: Fields, ghost w: State, ghost p: Pool)
    returns (relay: WRTC_Relay)
    requires Shows(f, w, p) && f.relays == relays
    modifies p.relays
    ensures fresh(relay) && relay.node == node && relay !in p.relays
    ensures Shows(f.(relays := relays[sid := relay]),
                  w.(node := RelayedFrom(w.node, sid, from)),
                  p.(relays := p.relays + {relay}))
    ensures sid in relays ==> !relays[sid].peerConnection
  {
    hide Shows;
    var rest := DropRelay(relays, sid, f, w, p);
    ghost var w1 := w.(node := w.node.(relays := w.node.relays - {sid}));
    relay := new WRTC_Relay(sid, from, node);
    RelayPut(f.(relays := rest), w1, p, relay);
    assert rest[sid := relay] == relays[sid := relay];
    assert w1.node.relays[sid := relay.Rec()] == w.node.relays[sid := relay.Rec()];
  }

  /** Closes the sender of a stream to a node, if there is one. Its entry stays. */
  method CloseSenderTo(senders: map<StreamId, map<NodeId, WRTC_Source_Sender>>, sid: StreamId, to: NodeId,
                       ghost f: Fields, ghost w: State, ghost p: Pool)
    returns (ghost w': State)
    requires Shows(f, w, p) && f.senders == senders
    modifies p.senders
    ensures Shows(f, w', p) && w' == w.(node := w.node.(senders := w'.node.senders))
    ensures forall x :: Put(w'.node.senders, sid, to, x) == Put(w.node.senders, sid, to, x)
    ensures sid in senders && to in senders[sid] ==>
              var s := senders[sid][to];
              s.closed && !s.peerConnection && !s.hasVideo && !s.hasAudio
  {
    hide Shows, ShowsButSender;
    w' := w;
    if sid in senders && to in senders[sid] {
      var s := senders[sid][to];
      SenderAside(f, w, p, s);
      SendersAre(f, w, p, sid);
      s.Close();
      SenderBack(f, w, p, s);
      w' := SenderChanged(w, s, IsRegisteredSender(f, s));
      forall x ensures Put(w'.node.senders, sid, to, x) == Put(w.node.senders, sid, to, x) {
        PutPut(w.node.senders, sid, to, s.Rec(), x);
      }
    }
  }

  /** receiveConnectMessage: a new sender for the source's tracks; the previous one to that node is closed. */
  method ConnectSender(senders: map<StreamId, map<NodeId, WRTC_Source_Sender>>, sid: StreamId, from: NodeId,
                       source: WRTC_Source, node: WebRTC_CDN_Node, ghost f: Fields, ghost w: State, ghost p: Pool)
    returns (sender: WRTC_Source_Sender)
    requires Shows(f, w, p) && f.senders == senders
    requires sid in w.node.sources && w.node.sources[sid] == source.Rec()
    modifies p.senders
    ensures fresh(sender) && sender.node == node
    ensures Shows(f.(senders := Put(senders, sid, from, sender)),
                  w.(node := NodeSpec.ReceiveConnect(w.node, from, sid, w.node.nextStamp)),
                  p.(senders := p.senders + {sender}))
    ensures sid in senders && from in senders[sid] ==>
              var previous := senders[sid][from];
              previous.closed && !previous.peerConnection && !previous.hasVideo && !previous.hasAudio
  {
    hide Shows, Put, NodeSpec.ReceiveConnect, NodeSpec.SenderTracksReady;
    ghost var w1 := CloseSenderTo(senders, sid, from, f, w, p);
    sender := new WRTC_Source_Sender(w.node.nextStamp, source.stamp, sid, from, node);
    if source.ready {
      sender.OnTracksReady(source.localTrackVideo, source.localTrackAudio);
    }
    SenderConnected(f, w1, p, sender, w.node);
  }

  /** Closes the senders of a stream, if any, and takes them out. */
  method DropSenders(senders: map<StreamId, map<NodeId, WRTC_Source_Sender>>, sid: StreamId,
                     ghost f: Fields, ghost w: State, ghost p: Pool)
    returns (rest: map<StreamId, map<NodeId, WRTC_Source_Sender>>)
    requires Shows(f, w, p) && f.senders == senders
    modifies p.senders
    ensures rest == senders - {sid}
    ensures Shows(f.(senders := rest), w.(node := w.node.(senders := w.node.senders - {sid})), p)
    ensures sid in senders ==> AllShut(senders[sid])
  {
    hide SourcesOK, RelaysOK, SinksOK, TablesOK;
    CloseSenders(senders, sid, w.node.senders, p.senders);
    return senders - {sid};
  }

  /** registerSource: with a new source, the relay and the senders of the stream are closed and taken out. */
  method TakeOver(sources: map<StreamId, WRTC_Source>, relays: map<StreamId, WRTC_Relay>,
                  senders: map<StreamId, map<NodeId, WRTC_Source_Sender>>, source: WRTC_Source,
                  ghost f: Fields, ghost w: State, ghost p: Pool)
    returns (relays': map<StreamId, WRTC_Relay>, senders': map<StreamId, map<NodeId, WRTC_Source_Sender>>)
    requires Shows(f, w, p) && f.sources == sources && f.relays == relays && f.senders == senders && source in p.sources
    modifies p.relays, p.senders
    ensures
      var sid := source.sid;
      && Shows(f.(sources := sources[sid := source], relays := relays', senders := senders'),
               w.(node := NodeSpec.RegisterSource(w.node, sid, source.Rec()).node), p)
      && (sid in relays ==> !relays[sid].peerConnection)
      && (sid in senders ==> AllShut(senders[sid]))
  {
    hide Shows, AllShut;
    var sid := source.sid;
    SourcePut(f, w, p, source);
    ghost var f1 := f.(sources := sources[sid := source]);
    ghost var w1 := w.(node := w.node.(sources := w.node.sources[sid := source.Rec()]));
    relays' := DropRelay(relays, sid, f1, w1, p);
    ghost var w2 := w1.(node := w1.node.(relays := w1.node.relays - {sid}));
    senders' := DropSenders(senders, sid, f1.(relays := relays'), w2, p);
    StampUsed(f1.(relays := relays', senders := senders'), w2.(node := w2.node.(senders := w2.node.senders - {sid})), p);
  }

  method CloseSenders(senders: map<StreamId, map<NodeId, WRTC_Source_Sender>>, sid: StreamId,
                      ghost v: map<StreamId, map<NodeId, NodeSpec.Sender>>, ghost all: set<WRTC_Source_Sender>)
    requires SendersOK(senders, v, all)
    modifies all
    ensures SendersOK(senders - {sid}, v - {sid}, all)
    ensures sid in senders ==> AllShut(senders[sid])
  {
    hide WRTC_Source_Sender.Rec, WRTC_Source_Sender.SilentIfClosed;
    if sid in senders {
      var m := senders[sid];
      var todo := m.Keys;
      while todo != {}
        invariant todo <= m.Keys
        invariant forall k | k in m && k !in todo ::
                    m[k].closed && !m[k].peerConnection && !m[k].hasVideo && !m[k].hasAudio
        invariant SendersOK(senders - {sid}, v - {sid}, all)
      {
        var k :| k in todo;
        m[k].Close();
        todo := todo - {k};
      }
    }
  }

  /** onSourceReady, onRelayReady. */
  method SinksReady(sinks: map<StreamId, map<SinkId, WRTC_Sink>>, sid: StreamId,
                    video: Option<TrackId>, audio: Option<TrackId>, ghost f: Fields, ghost w: State, ghost p: Pool)
    requires Shows(f, w, p) && f.sinks == sinks
    requires sid in w.node.sinks ==> forall k | k in w.node.sinks[sid] :: !w.node.sinks[sid][k].closed
    modifies p.sinks
    ensures Shows(f, w.(node := w.node.(sinks := NodeSpec.SinksReadyAt(w.node.sinks, sid, Tracks(video, audio)))), p)
  {
    hide SinksOK, SourcesOK, RelaysOK, SendersOK, TablesOK, NodeSpec.SinksReadyAt;
    NotifyTracksReadyAt(sinks, sid, video, audio, w.node.sinks, p.sinks);
  }

  method NotifyTracksReadyAt(sinks: map<StreamId, map<SinkId, WRTC_Sink>>, sid: StreamId,
                             video: Option<TrackId>, audio: Option<TrackId>,
                             ghost v: map<StreamId, map<SinkId, NodeSpec.Sink>>, ghost all: set<WRTC_Sink>)
    requires SinksOK(sinks, v, all) && (sid in v ==> forall k | k in v[sid] :: !v[sid][k].closed)
    modifies all
    ensures SinksOK(sinks, NodeSpec.SinksReadyAt(v, sid, Tracks(video, audio)), all)
    ensures forall k | k in all :: k.Obj() == old(k.Obj()) && (old(k.SilentIfClosed()) ==> k.SilentIfClosed())
  {
    if sid in sinks {
      NotifyTracksReady(sinks[sid], video, audio, sid, v[sid], all);
      assert forall s | s in sinks && s != sid :: forall k | k in sinks[s] :: sinks[s][k] !in sinks[sid].Values;
    }
  }

  method NotifyTracksReady(m: map<SinkId, WRTC_Sink>, video: Option<TrackId>, audio: Option<TrackId>,
                           ghost sid: StreamId, ghost v: map<SinkId, NodeSpec.Sink>, ghost all: set<WRTC_Sink>)
    requires SinksAtOK(m, v, sid, all) && forall k | k in v :: !v[k].closed
    modifies m.Values
    ensures SinksAtOK(m, NodeSpec.AllSinksReady(v, Tracks(video, audio)), sid, all)
    ensures forall k | k in m :: m[k].Obj() == old(m[k].Obj()) && !m[k].closed
  {
    hide WRTC_Sink.Rec, WRTC_Sink.Obj, NodeSpec.SinkTracksReady;
    var todo := m.Keys;
    while todo != {}
      invariant todo <= m.Keys
      invariant forall k | k in m :: m[k].Obj() == old(m[k].Obj())
      invariant forall k | k in todo :: m[k].Rec() == v[k]
      invariant forall k | k in m && k !in todo :: m[k].Rec() == NodeSpec.SinkTracksReady(v[k], Tracks(video, audio))
    {
      var k :| k in todo;
      m[k].OnTracksReady(video, audio);
      todo := todo - {k};
    }
    forall k | k in m ensures !m[k].closed {
      ReadySinkIsOpen(m[k], v[k], Tracks(video, audio));
    }
  }

  lemma ReadySinkIsOpen(k: WRTC_Sink, v: NodeSpec.Sink, t: Tracks)
    requires k.Rec() == NodeSpec.SinkTracksReady(v, t) && !v.closed
    ensures !k.closed
  {
  }

  /** onSourceClosed, onRelayClosed. */
  method SinksClosed(sinks: map<StreamId, map<SinkId, WRTC_Sink>>, sid: StreamId,
                     video: Option<TrackId>, audio: Option<TrackId>, ghost f: Fields, ghost w: State, ghost p: Pool)
    requires Shows(f, w, p) && f.sinks == sinks
    modifies p.sinks
    ensures Shows(f, w.(node := w.node.(sinks := NodeSpec.SinksClosedAt(w.node.sinks, sid, Tracks(video, audio)))), p)
  {
    hide SinksOK, SourcesOK, RelaysOK, SendersOK, TablesOK, NodeSpec.SinksClosedAt;
    NotifyTracksClosedAt(sinks, sid, video, audio, w.node.sinks, p.sinks);
  }

  method NotifyTracksClosedAt(sinks: map<StreamId, map<SinkId, WRTC_Sink>>, sid: StreamId,
                             video: Option<TrackId>, audio: Option<TrackId>,
                             ghost v: map<StreamId, map<SinkId, NodeSpec.Sink>>, ghost all: set<WRTC_Sink>)
    requires SinksOK(sinks, v, all)
    modifies all
    ensures SinksOK(sinks, NodeSpec.SinksClosedAt(v, sid, Tracks(video, audio)), all)
    ensures forall k | k in all :: k.Obj() == old(k.Obj()) && (old(k.SilentIfClosed()) ==> k.SilentIfClosed())
  {
    if sid in sinks {
      NotifyTracksClosed(sinks[sid], video, audio, sid, v[sid], all);
      assert forall s | s in sinks && s != sid :: forall k | k in sinks[s] :: sinks[s][k] !in sinks[sid].Values;
    }
  }

  method NotifyTracksClosed(m: map<SinkId, WRTC_Sink>, video: Option<TrackId>, audio: Option<TrackId>,
                            ghost sid: StreamId, ghost v: map<SinkId, NodeSpec.Sink>, ghost all: set<WRTC_Sink>)
    requires SinksAtOK(m, v, sid, all)
    modifies m.Values
    ensures SinksAtOK(m, NodeSpec.AllSinksClosed(v, Tracks(video, audio)), sid, all)
    ensures forall k | k in m ::
              m[k].Obj() == old(m[k].Obj()) && (old(m[k].SilentIfClosed()) ==> m[k].SilentIfClosed())
  {
    hide WRTC_Sink.Rec, WRTC_Sink.Obj, WRTC_Sink.SilentIfClosed, NodeSpec.SinkTracksClosed;
    var todo := m.Keys;
    while todo != {}
      invariant todo <= m.Keys
      invariant forall k | k in m ::
                  m[k].Obj() == old(m[k].Obj()) && (old(m[k].SilentIfClosed()) ==> m[k].SilentIfClosed())
      invariant forall k | k in todo :: m[k].Rec() == v[k]
      invariant forall k | k in m && k !in todo :: m[k].Rec() == NodeSpec.SinkTracksClosed(v[k], Tracks(video, audio))
    {
      var k :| k in todo;
      m[k].OnTracksClosed(video, audio);
      todo := todo - {k};
    }
  }

  /** onSourceReady. */
  method SendersReady(senders: map<StreamId, map<NodeId, WRTC_Source_Sender>>, sid: StreamId,
                      video: Option<TrackId>, audio: Option<TrackId>, ghost f: Fields, ghost w: State, ghost p: Pool)
    requires Shows(f, w, p) && f.senders == senders
    requires sid in w.node.senders ==> forall k | k in w.node.senders[sid] :: !w.node.senders[sid][k].closed
    modifies p.senders
    ensures
      var v := NodeSpec.SendersReadyAt(w.node.senders, sid, Tracks(video, audio));
      Shows(f, w.(node := w.node.(senders := v)), p)
  {
    hide SendersOK, SourcesOK, RelaysOK, SinksOK, TablesOK, NodeSpec.SendersReadyAt;
    NotifySendersReadyAt(senders, sid, video, audio, w.node.senders, p.senders);
  }

  method NotifySendersReadyAt(senders: map<StreamId, map<NodeId, WRTC_Source_Sender>>, sid: StreamId,
                              video: Option<TrackId>, audio: Option<TrackId>,
                              ghost v: map<StreamId, map<NodeId, NodeSpec.Sender>>, ghost all: set<WRTC_Source_Sender>)
    requires SendersOK(senders, v, all) && (sid in v ==> forall k | k in v[sid] :: !v[sid][k].closed)
    modifies all
    ensures SendersOK(senders, NodeSpec.SendersReadyAt(v, sid, Tracks(video, audio)), all)
  {
    if sid in senders {
      NotifySendersReady(senders[sid], video, audio, sid, v[sid], all);
      assert forall s | s in senders && s != sid :: forall k | k in senders[s] :: senders[s][k] !in senders[sid].Values;
    }
  }

  method NotifySendersReady(m: map<NodeId, WRTC_Source_Sender>, video: Option<TrackId>, audio: Option<TrackId>,
                            ghost sid: StreamId, ghost v: map<NodeId, NodeSpec.Sender>,
                            ghost all: set<WRTC_Source_Sender>)
    requires SendersAtOK(m, v, sid, all) && forall k | k in v :: !v[k].closed
    modifies m.Values
    ensures SendersAtOK(m, NodeSpec.AllSendersReady(v, Tracks(video, audio)), sid, all)
    ensures forall k | k in m :: !m[k].closed
  {
    hide WRTC_Source_Sender.Rec, NodeSpec.SenderTracksReady;
    var todo := m.Keys;
    while todo != {}
      invariant todo <= m.Keys
      invariant forall k | k in todo :: m[k].Rec() == v[k]
      invariant forall k | k in m && k !in todo :: m[k].Rec() == NodeSpec.SenderTracksReady(v[k], Tracks(video, audio))
    {
      var k :| k in todo;
      m[k].OnTracksReady(video, audio);
      todo := todo - {k};
    }
    forall k | k in m ensures !m[k].closed {
      ReadySenderIsOpen(m[k], v[k], Tracks(video, audio));
    }
  }

  lemma ReadySenderIsOpen(s: WRTC_Source_Sender, v: NodeSpec.Sender, t: Tracks)
    requires s.Rec() == NodeSpec.SenderTracksReady(v, t) && !v.closed
    ensures !s.closed
  {
  }

  // ---------- One object, one registry entry, one request ----------

  /** The source is the one its connection, if that is still there, has under its request. */
  ghost predicate IsTabled(node: WebRTC_CDN_Node, s: WRTC_Source)
    reads node, s.connection
  {
    var h := s.connection;
    && h.id in node.connections && node.connections[h.id] == h
    && s.requestId in h.sources && h.sources[s.requestId] == s
  }

  ghost predicate IsTabledSink(node: WebRTC_CDN_Node, k: WRTC_Sink)
    reads node, k.connection
  {
    var h := k.connection;
    && h.id in node.connections && node.connections[h.id] == h
    && k.requestId in h.sinks && h.sinks[k.requestId] == k
  }

  /** A source that the node has worked with is open exactly while the registry holds it, and exactly while
      its connection does. */
  lemma OpenSourcesAreHeld(node: WebRTC_CDN_Node, s: WRTC_Source)
    requires node.Valid() && RequestInvariants.Inv(node.model) && s in node.pool.sources
    ensures !s.closed <==> IsRegistered(node.Registries(), s)
    ensures !s.closed <==> IsTabled(node, s)
  {
    hide Shows, Wired;
    var f, w, p := node.Registries(), node.model, node.pool;
    SourceAside(f, w, p, s);
    SourceIs(f, w, p, s.sid);
    WiredSource(node, p, node.sinkCount, s);
    assert RequestInvariants.ObjectOK(w, s.stamp) && RequestInvariants.RegisteredOK(w, s.sid);
    var h := s.connection;
    TableIs(f, w, p, h);
    ConnAside(f, w, p, h);
    WiredConn(node, p, node.sinkCount, h, f.conns);
    assert RequestInvariants.TabledOK(w, h.id, s.requestId);
    if !s.closed {
      assert h.sources[s.requestId].stamp == s.stamp;
    }
  }

  /** A sink that the node has worked with is open exactly while the registry holds it, and exactly while its
      connection does. */
  lemma OpenSinksAreHeld(node: WebRTC_CDN_Node, k: WRTC_Sink)
    requires node.Valid() && RequestInvariants.Inv(node.model) && k in node.pool.sinks
    ensures !k.closed <==> IsRegisteredSink(node.Registries(), k)
    ensures !k.closed <==> IsTabledSink(node, k)
  {
    hide Shows, Wired;
    var f, w, p := node.Registries(), node.model, node.pool;
    SinkAside(f, w, p, k);
    SinksAre(f, w, p, k.sid);
    WiredSink(node, p, node.sinkCount, k);
    var id := k.sinkId;
    assert RequestInvariants.SinkObjectOK(w, id) && RequestInvariants.SinkRegisteredOK(w, k.sid, id);
    var h := k.connection;
    TableIs(f, w, p, h);
    ConnAside(f, w, p, h);
    WiredConn(node, p, node.sinkCount, h, f.conns);
    assert RequestInvariants.SinkTabledOK(w, h.id, k.requestId);
    if k.sid in f.sinks && id in f.sinks[k.sid] { SinkIs(f, w, p, k.sid, id); }
    if !k.closed { assert h.sinks[k.requestId].sinkId == id; }
  }
}
