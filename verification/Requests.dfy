/**
  The client side of a node: connections and their request tables, and how client messages,
  lost publishers and INFO messages move tables and registries together.

  Each transition is one handler of connection_handler.go (or a close it triggers) with all its
  nested calls.
 */
module Requests {
  import opened Types
  import opened NodeSpec

  const UINT32: nat := 0x1_0000_0000

  /** REQUEST_TYPE_PUBLISH and REQUEST_TYPE_PLAY. */
  datatype RequestKind = PublishRequest | PlayRequest

  /** A reference to a source object: its stream and its identity. */
  datatype SourceRef = SourceRef(sid: StreamId, stamp: nat)

  datatype SinkRef = SinkRef(sid: StreamId, id: SinkId)

  datatype ErrorCode = InvalidRequestId | InvalidStreamId | InvalidAuth | ProtocolError | LimitRequests

  datatype ClientMessage =
    | ErrorMessage(code: ErrorCode, req: RequestId)
    | OkMessage(req: RequestId)
    | StandbyMessage(req: RequestId)
    | CloseMessage(req: RequestId, sid: StreamId)

  /** A connection's tables; `requestCount` is a uint32 and wraps. */
  datatype Conn = Conn(
    requests: map<RequestId, RequestKind>, requestCount: nat,
    sources: map<RequestId, SourceRef>, sinks: map<RequestId, SinkRef>,
    sent: seq<ClientMessage>)

  const NEW_CONN: Conn := Conn(map[], 0, map[], map[], [])

  /** Every source object ever registered, by identity. */
  datatype SourceObject = SourceObject(sid: StreamId, conn: ConnectionId, req: RequestId, closed: bool)

  /** Every sink object ever registered, by its id. */
  datatype SinkObject = SinkObject(sid: StreamId, conn: ConnectionId, req: RequestId, closed: bool)

  datatype State = State(
    node: NodeState, conns: map<ConnectionId, Conn>, objects: map<nat, SourceObject>,
    sinkObjects: map<SinkId, SinkObject>, limit: nat)

  datatype Result = Result(state: State, pub: Option<Publication>)

  // ---------- Tables ----------

  function Inc(x: nat): nat {
    (x + 1) % UINT32
  }

  function Dec(x: nat): nat {
    if x == 0 then UINT32 - 1 else x - 1
  }

  function Say(c: Conn, m: ClientMessage): Conn {
    c.(sent := c.sent + [m])
  }

  function AddSource(c: Conn, req: RequestId, r: SourceRef): Conn {
    Say(c.(requestCount := Inc(c.requestCount), requests := c.requests[req := PublishRequest],
        sources := c.sources[req := r]), OkMessage(req))
  }

  function AddSink(c: Conn, req: RequestId, r: SinkRef): Conn {
    Say(Say(c.(requestCount := Inc(c.requestCount), requests := c.requests[req := PlayRequest],
            sinks := c.sinks[req := r]), OkMessage(req)), StandbyMessage(req))
  }

  function DropSource(c: Conn, req: RequestId): Conn {
    c.(sources := c.sources - {req}, requests := c.requests - {req}, requestCount := Dec(c.requestCount))
  }

  function DropSink(c: Conn, req: RequestId): Conn {
    c.(sinks := c.sinks - {req}, requests := c.requests - {req}, requestCount := Dec(c.requestCount))
  }

  /** sendSourceClose: the deletes and the decrement are unconditional. */
  function SendSourceClose(conns: map<ConnectionId, Conn>, c: ConnectionId, req: RequestId, sid: StreamId)
    : map<ConnectionId, Conn>
  {
    if c in conns then conns[c := Say(DropSource(conns[c], req), CloseMessage(req, sid))] else conns
  }

  // ---------- PUBLISH and PLAY ----------

  predicate BadId(s: string) {
    |s| == 0 || |s| > 255
  }

  /** Why a PUBLISH or PLAY is refused, in the order of the checks. */
  function Refusal(w: State, c: ConnectionId, req: RequestId, sid: StreamId, auth: bool): Option<ErrorCode>
    requires c in w.conns
  {
    if BadId(req) then Some(InvalidRequestId)
    else if BadId(sid) then Some(InvalidStreamId)
    else if !auth then Some(InvalidAuth)
    else if req in w.conns[c].requests then Some(ProtocolError)
    else if w.conns[c].requestCount > w.limit then Some(LimitRequests)
    else None
  }

  /** The refusals that come before getSinkID is called. */
  predicate RefusedEarly(code: Option<ErrorCode>) {
    code.Some? && (code.value.InvalidRequestId? || code.value.InvalidStreamId? || code.value.InvalidAuth?)
  }

  function Refuse(w: State, c: ConnectionId, req: RequestId, code: ErrorCode): State
    requires c in w.conns
  {
    w.(conns := w.conns[c := Say(w.conns[c], ErrorMessage(code, req))])
  }

  /** strings.ToUpper(params["stream-type"]) against "AUDIO" and "VIDEO"; anything else is both. */
  datatype StreamType = AudioType | VideoType | DualType

  function NewSourceFor(w: State, c: ConnectionId, req: RequestId, kind: StreamType): Source {
    NewSource(w.node.nextStamp, c, req, !kind.AudioType?, !kind.VideoType?)
  }

  function CloseObject(objects: map<nat, SourceObject>, stamp: nat): map<nat, SourceObject> {
    if stamp in objects then objects[stamp := objects[stamp].(closed := true)] else objects
  }

  function CloseSinkObject(sinkObjects: map<SinkId, SinkObject>, id: SinkId): map<SinkId, SinkObject> {
    if id in sinkObjects then sinkObjects[id := sinkObjects[id].(closed := true)] else sinkObjects
  }

  /** close(true, false) on the registered source of `sid`, if there is one: its client is told. */
  function Evict(w: State, sid: StreamId): State {
    if sid !in w.node.sources then w
    else
      var previous := w.node.sources[sid];
      w.(conns := SendSourceClose(w.conns, previous.conn, previous.req, sid),
      objects := CloseObject(w.objects, previous.stamp))
  }

  function ReceivePublish(w: State, c: ConnectionId, req: RequestId, sid: StreamId, kind: StreamType,
                          auth: bool): Result
    requires c in w.conns
  {
    var code := Refusal(w, c, req, sid, auth);
    if code.Some? then Result(Refuse(w, c, req, code.value), None)
    else
      var source := NewSourceFor(w, c, req, kind);
      var w1 := w.(conns := w.conns[c := AddSource(w.conns[c], req, SourceRef(sid, source.stamp))]);
      var w2 := Evict(w1, sid);
      var e := RegisterSource(w2.node, sid, source);
      Result(w2.(node := e.node, objects := w2.objects[source.stamp := SourceObject(sid, c, req, false)]), e.pub)
  }

  function ReceivePlay(w: State, c: ConnectionId, req: RequestId, sid: StreamId, auth: bool): Result
    requires c in w.conns
  {
    var code := Refusal(w, c, req, sid, auth);
    if RefusedEarly(code) then Result(Refuse(w, c, req, code.value), None)
    else
      var w1 := w.(node := GetSinkID(w.node));
      if code.Some? then Result(Refuse(w1, c, req, code.value), None)
      else
        var id := SinkId(w1.node.sinkCount);
        var e := RegisterSink(w1.node, sid, id, NewSink(c, req));
        Result(w1.(conns := w1.conns[c := AddSink(w1.conns[c], req, SinkRef(sid, id))], node := e.node,
               sinkObjects := w1.sinkObjects[id := SinkObject(sid, c, req, false)]), e.pub)
  }

  // ---------- CLOSE, lost publishers, INFO ----------

  /** The tracks that the source object of `r` holds, if it is registered. */
  function TracksOf(n: NodeState, r: SourceRef): Tracks {
    if r.sid in n.sources && n.sources[r.sid].stamp == r.stamp then n.sources[r.sid].tracks else NO_TRACKS
  }

  /** One request of a connection is closed by its client, or because the connection ends. */
  function CloseRequest(w: State, c: ConnectionId, req: RequestId): State
    requires c in w.conns
  {
    var conn := w.conns[c];
    if req !in conn.requests then w
    else if conn.requests[req].PublishRequest? then
      if req !in conn.sources then w
      else
        var r := conn.sources[req];
        w.(node := OnSourceClosed(w.node, r.sid, TracksOf(w.node, r)), conns := w.conns[c := DropSource(conn, req)],
        objects := CloseObject(w.objects, r.stamp))
    else
      if req !in conn.sinks then w
      else
        var r := conn.sinks[req];
        w.(node := RemoveSink(w.node, r.sid, r.id), conns := w.conns[c := DropSink(conn, req)],
        sinkObjects := CloseSinkObject(w.sinkObjects, r.id))
  }

  /** onClose of a source object: a closed one does nothing. */
  function SourceLost(w: State, stamp: nat): State
    requires stamp in w.objects
  {
    var o := w.objects[stamp];
    if o.closed then w
    else
      w.(node := OnSourceClosed(w.node, o.sid, TracksOf(w.node, SourceRef(o.sid, stamp))),
      conns := SendSourceClose(w.conns, o.conn, o.req, o.sid), objects := CloseObject(w.objects, stamp))
  }

  function ReceiveInfoMessage(w: State, from: NodeId, sid: StreamId): Result {
    var w1 := Evict(w, sid);
    var e := ReceiveInfo(w1.node, from, sid);
    Result(w1.(node := e.node), e.pub)
  }

  /** receiveRedisMessage: a node ignores what it sent itself. What it owes for a RESOLVE, it sends later. */
  function ReceiveRedisMessage(w: State, src: NodeId, kind: Kind, sid: StreamId): Result {
    if src == w.node.id then Result(w, None)
    else
      match kind
      case Resolve => Result(w, None)
      case Info => ReceiveInfoMessage(w, src, sid)
      case Connect => Result(w.(node := ReceiveConnect(w.node, src, sid, w.node.nextStamp)), None)
      case Offer(video, audio) => Result(w.(node := ReceiveOffer(w.node, sid, video, audio)), None)
  }

  /** resolveSource found the stream that another node asks for: an INFO is to be sent to it. */
  predicate OwesReply(w: State, src: NodeId, kind: Kind, sid: StreamId) {
    src != w.node.id && kind.Resolve? && sid in w.node.sources
  }

  /** The loop of onClose, visiting the requests in the given order. */
  function CloseAll(w: State, c: ConnectionId, order: seq<RequestId>): State
    requires c in w.conns
    ensures CloseAll(w, c, order).conns.Keys == w.conns.Keys
    decreases |order|
  {
    if order == [] then w else CloseAll(CloseRequest(w, c, order[0]), c, order[1..])
  }
}
