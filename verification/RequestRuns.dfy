/**
  The transitions of a node with its clients, and what every run of them keeps.
 */
module RequestRuns {
  import opened Types
  import opened NodeSpec
  import opened Requests
  import opened RequestInvariants
  import StreamSpec
  import NodeInvariants

  ghost predicate AllOK(w: State) {
    Inv(w) && NodeInvariants.OpenInv(w.node)
  }

  // ---------- Steps of the node that no client request causes ----------

  predicate IsInternal(step: Step) {
    !step.GetSinkIDStep? && !step.RegisterSourceStep? && !step.SourceClosedStep? &&
    !step.RegisterSinkStep? && !step.RemoveSinkStep? && !step.InfoStep?
  }

  predicate SameOwner(a: Sink, b: Sink) {
    a.conn == b.conn && a.req == b.req
  }

  /** The sinks of one stream are the same objects of the same requests. */
  predicate SameViewers(a: map<SinkId, Sink>, b: map<SinkId, Sink>) {
    a.Keys == b.Keys && forall k | k in a :: SameOwner(a[k], b[k])
  }

  predicate SameSource(a: Option<Source>, b: Option<Source>) {
    && (a.Some? <==> b.Some?)
    && (a.Some? ==> a.value.stamp == b.value.stamp && a.value.conn == b.value.conn && a.value.req == b.value.req)
  }

  lemma InternalSlice(e: StreamSpec.Slice, step: Step, id: NodeId)
    requires StreamSpec.SPossible(id, e, step) && IsInternal(step)
    ensures
      var e' := StreamSpec.SNext(e, step, id);
      SameSource(e.source, e'.source) && SameViewers(e.sinks, e'.sinks)
  {
  }

  /** Internal steps neither register nor remove a source or a sink, nor change whose they are. */
  lemma InternalNode(n: NodeState, step: Step, sid: StreamId)
    requires StreamSpec.Tidy(n) && IsInternal(step) && Possible(n, step)
    ensures
      var n' := Apply(n, step).node;
      SameSource(Lookup(n.sources, sid), Lookup(n'.sources, sid)) && SameViewers(SinksAt(n, sid), SinksAt(n', sid))
  {
    NodeInvariants.StepSeenFrom(n, step, sid);
    var e := StreamSpec.SliceOf(n, sid);
    assert e.source == Lookup(n.sources, sid) && e.sinks == SinksAt(n, sid);
    if StreamSpec.StreamOf(step) == Some(sid) { InternalSlice(e, step, n.id); }
  }

  lemma InternalStamp(n: NodeState, step: Step)
    requires IsInternal(step) && Possible(n, step)
    ensures Apply(n, step).node.nextStamp >= n.nextStamp && Apply(n, step).node.sinkCount == n.sinkCount
  {
  }

  lemma InternalKeepsLinks(w: State, step: Step)
    requires Inv(w) && StreamSpec.Tidy(w.node) && IsInternal(step) && Possible(w.node, step)
    ensures
      var w' := w.(node := Apply(w.node, step).node);
      SameSources(w, w') && SameSinks(w, w')
  {
    hide Apply;
    var w' := w.(node := Apply(w.node, step).node);
    InternalStamp(w.node, step);
    forall sid
      ensures SameSource(SourceAt(w, sid), SourceAt(w', sid))
      ensures SameViewers(SinksAt(w.node, sid), SinksAt(w'.node, sid))
    {
      InternalNode(w.node, step, sid);
    }
    forall sid, id
      ensures SinkAt(w', sid, id).Some? <==> SinkAt(w, sid, id).Some?
      ensures SinkAt(w, sid, id).Some? ==> SameOwner(SinkAt(w, sid, id).value, SinkAt(w', sid, id).value)
    {
      assert SameViewers(SinksAt(w.node, sid), SinksAt(w'.node, sid));
    }
  }

  // ---------- Tables ----------

  lemma TablesAfterClose(conns: map<ConnectionId, Conn>, c: ConnectionId, req: RequestId, sid: StreamId)
    requires c in conns
    ensures
      var conns' := SendSourceClose(conns, c, req, sid);
      && (forall c', r :: TableSource(conns', c', r) == if c' == c && r == req then None else TableSource(conns, c', r))
      && (forall c', r :: TableSink(conns', c', r) == TableSink(conns, c', r))
  {
  }

  lemma TablesAfterAdd(conns: map<ConnectionId, Conn>, c: ConnectionId, req: RequestId, ref: SourceRef)
    requires c in conns
    ensures
      var conns' := conns[c := AddSource(conns[c], req, ref)];
      && (forall c', r ::
            TableSource(conns', c', r) == if c' == c && r == req then Some(ref) else TableSource(conns, c', r))
      && (forall c', r :: TableSink(conns', c', r) == TableSink(conns, c', r))
  {
  }

  // ---------- Registries ----------

  /** Every stream's viewers are the same objects of the same requests. */
  ghost predicate SameViewersEverywhere(n: NodeState, n': NodeState) {
    forall sid :: SameViewers(SinksAt(n, sid), SinksAt(n', sid))
  }

  lemma ClosingKeepsViewers(n: NodeState, sid: StreamId, tracks: Tracks)
    ensures SameViewersEverywhere(n, OnSourceClosed(n, sid, tracks))
  {
  }

  lemma SameSinksFrom(w: State, w': State)
    requires SameViewersEverywhere(w.node, w'.node)
    requires forall c, r :: TableSink(w'.conns, c, r) == TableSink(w.conns, c, r)
    requires w'.sinkObjects == w.sinkObjects && w'.node.sinkCount >= w.node.sinkCount
    ensures SameSinks(w, w')
  {
    forall sid, id
      ensures SinkAt(w', sid, id).Some? <==> SinkAt(w, sid, id).Some?
      ensures SinkAt(w, sid, id).Some? ==> SameOwner(SinkAt(w, sid, id).value, SinkAt(w', sid, id).value)
    {
      assert SameViewers(SinksAt(w.node, sid), SinksAt(w'.node, sid));
    }
  }

  lemma RemovingDropsViewer(n: NodeState, sid: StreamId, id: SinkId)
    requires id in SinksAt(n, sid)
    ensures
      var n' := RemoveSink(n, sid, id);
      && SinksAt(n', sid) == SinksAt(n, sid) - {id}
      && (forall s | s != sid :: SinksAt(n', s) == SinksAt(n, s))
      && n'.sources == n.sources && n'.nextStamp == n.nextStamp && n'.sinkCount == n.sinkCount
  {
  }

  lemma RegisteringAddsViewer(n: NodeState, sid: StreamId, id: SinkId, k: Sink)
    ensures
      var n' := RegisterSink(n, sid, id, k).node;
      && SinksAt(n', sid).Keys == SinksAt(n, sid).Keys + {id} && SameOwner(SinksAt(n', sid)[id], k)
      && (forall i | i in SinksAt(n, sid) && i != id :: SinksAt(n', sid)[i] == SinksAt(n, sid)[i])
      && (forall s | s != sid :: SinksAt(n', s) == SinksAt(n, s))
      && n'.sources == n.sources && n'.nextStamp == n.nextStamp && n'.sinkCount == n.sinkCount
  {
  }

  // ---------- Each handler ----------

  /** An exact count that does not exceed the limit belongs to a table that does not exceed it either,
      unless the limit is the largest uint32. */
  lemma CountedBelowLimit(c: Conn, limit: nat)
    requires ConnOK(c) && limit < UINT32 - 1 && |c.requests| <= limit + 1 && c.requestCount <= limit
    ensures |c.requests| <= limit
  {
  }

  lemma RefuseKeeps(w: State, c: ConnectionId, req: RequestId, code: ErrorCode)
    requires Inv(w) && c in w.conns
    ensures Inv(Refuse(w, c, req, code))
  {
    var w' := Refuse(w, c, req, code);
    SameSourcesLinked(w, w');
    SameSinksLinked(w, w');
  }

  /** Tables are fine whatever the registries are. */
  lemma SameTables(w: State, w': State)
    requires ConnsOK(w) && w'.conns == w.conns && w'.limit == w.limit
    ensures ConnsOK(w')
  {
  }

  /** One table changes: it stays fine and does not outgrow the limit. */
  lemma OneTableChanges(w: State, w': State, c: ConnectionId, conn: Conn)
    requires ConnsOK(w) && w'.conns == w.conns[c := conn] && w'.limit == w.limit
    requires ConnOK(conn) && (w.limit < UINT32 - 1 ==> |conn.requests| <= w.limit + 1)
    ensures ConnsOK(w')
  {
    hide ConnOK;
  }

  lemma TableOf(w: State, c: ConnectionId)
    requires ConnsOK(w) && c in w.conns
    ensures ConnOK(w.conns[c]) && (w.limit < UINT32 - 1 ==> |w.conns[c].requests| <= w.limit + 1)
  {
  }

  lemma DropSourceKeepsTables(w: State, w': State, c: ConnectionId, req: RequestId)
    requires ConnsOK(w) && c in w.conns && req in w.conns[c].sources
    requires w'.conns == w.conns[c := DropSource(w.conns[c], req)] && w'.limit == w.limit
    ensures ConnsOK(w')
  {
    hide ConnsOK, ConnOK, DropSource;
    TableOf(w, c);
    DropSourceOK(w.conns[c], req);
    OneTableChanges(w, w', c, DropSource(w.conns[c], req));
  }

  lemma SayOK(c: Conn, m: ClientMessage)
    requires ConnOK(c)
    ensures ConnOK(Say(c, m)) && Say(c, m).requests == c.requests
  {
  }

  lemma ClosingKeepsTables(w: State, w': State, c: ConnectionId, req: RequestId, sid: StreamId)
    requires ConnsOK(w) && c in w.conns && req in w.conns[c].sources
    requires w'.conns == SendSourceClose(w.conns, c, req, sid) && w'.limit == w.limit
    ensures ConnsOK(w')
  {
    hide ConnsOK, ConnOK, DropSource, Say;
    TableOf(w, c);
    DropSourceOK(w.conns[c], req);
    var dropped := DropSource(w.conns[c], req);
    SayOK(dropped, CloseMessage(req, sid));
    OneTableChanges(w, w', c, Say(dropped, CloseMessage(req, sid)));
  }

  /** A registered source is in a table of a connection that is there. */
  lemma RegisteredIsTabled(w: State, sid: StreamId)
    requires RegisteredOK(w, sid) && sid in w.node.sources
    ensures
      var s := w.node.sources[sid];
      && s.conn in w.conns && s.req in w.conns[s.conn].sources
      && w.conns[s.conn].sources[s.req] == SourceRef(sid, s.stamp)
      && Lookup(w.objects, s.stamp) == Some(SourceObject(sid, s.conn, s.req, false))
  {
  }

  lemma EvictKeepsTables(w: State, sid: StreamId)
    requires ConnsOK(w) && RegisteredOK(w, sid)
    ensures ConnsOK(Evict(w, sid))
  {
    hide ConnsOK, ConnOK, SendSourceClose, CloseObject;
    if sid in w.node.sources {
      RegisteredIsTabled(w, sid);
      var s := w.node.sources[sid];
      ClosingKeepsTables(w, Evict(w, sid), s.conn, s.req, sid);
    }
  }

  /** Adding a request for another connection or request id leaves a registered source where it is. */
  lemma StillRegistered(w: State, w': State, sid: StreamId, c: ConnectionId, req: RequestId, conn: Conn)
    requires RegisteredOK(w, sid) && c in w.conns && req !in w.conns[c].sources
    requires w'.node == w.node && w'.objects == w.objects && w'.conns == w.conns[c := conn]
    requires forall r | r != req :: Lookup(conn.sources, r) == Lookup(w.conns[c].sources, r)
    ensures RegisteredOK(w', sid)
  {
  }

  lemma AddedSources(c: Conn, req: RequestId, ref: SourceRef)
    ensures forall r | r != req :: Lookup(AddSource(c, req, ref).sources, r) == Lookup(c.sources, r)
  {
  }

  lemma PublishKeepsTables(w: State, c: ConnectionId, req: RequestId, sid: StreamId, kind: StreamType, auth: bool)
    requires Inv(w) && c in w.conns && Refusal(w, c, req, sid, auth).None?
    ensures ConnsOK(ReceivePublish(w, c, req, sid, kind, auth).state)
  {
    hide ConnsOK, ConnOK, AddSource, Inv, Evict, RegisteredOK, NodeSpec.RegisterSource;
    InvParts(w, sid);
    UntabledRequest(w, c, req);
    TableOf(w, c);
    var ref := SourceRef(sid, w.node.nextStamp);
    var conn := AddSource(w.conns[c], req, ref);
    var w1 := w.(conns := w.conns[c := conn]);
    AddSourceOK(w.conns[c], req, ref);
    if w.limit < UINT32 - 1 { CountedBelowLimit(w.conns[c], w.limit); }
    OneTableChanges(w, w1, c, conn);
    AddedSources(w.conns[c], req, ref);
    StillRegistered(w, w1, sid, c, req, conn);
    EvictKeepsTables(w1, sid);
    SameTables(Evict(w1, sid), ReceivePublish(w, c, req, sid, kind, auth).state);
  }

  /** What ReceivePublish leaves in each part of the state. */
  lemma PublishResult(w: State, c: ConnectionId, req: RequestId, sid: StreamId, kind: StreamType, auth: bool)
    requires c in w.conns && Refusal(w, c, req, sid, auth).None?
    ensures
      var w' := ReceivePublish(w, c, req, sid, kind, auth).state;
      var s := NewSourceFor(w, c, req, kind);
      var gone := SourceAt(w, sid);
      var added := w.conns[c := AddSource(w.conns[c], req, SourceRef(sid, s.stamp))];
      && w'.conns == (if gone.Some? then SendSourceClose(added, gone.value.conn, gone.value.req, sid) else added)
      && w'.node.sources == w.node.sources[sid := s] && w'.node.sinks == w.node.sinks
      && w'.node.nextStamp == w.node.nextStamp + 1 && w'.limit == w.limit
      && w'.sinkObjects == w.sinkObjects && w'.node.sinkCount == w.node.sinkCount
      && w'.objects == (if gone.Some? then CloseObject(w.objects, gone.value.stamp) else w.objects)
                       [s.stamp := SourceObject(sid, c, req, false)]
  {
  }

  lemma UntabledRequest(w: State, c: ConnectionId, req: RequestId)
    requires ConnsOK(w) && c in w.conns && req !in w.conns[c].requests
    ensures SourceIn(w, c, req).None? && SinkIn(w, c, req).None?
  {
    assert req !in w.conns[c].sources.Keys && req !in w.conns[c].sinks.Keys;
  }

  /** The entries of the tables after a new source has taken the place of the registered one, if any. */
  lemma TablesAfterPublish(conns: map<ConnectionId, Conn>, c: ConnectionId, req: RequestId, ref: SourceRef,
                           gone: Option<Source>, sid: StreamId, conns': map<ConnectionId, Conn>)
    requires c in conns && (gone.Some? ==> gone.value.conn in conns)
    requires gone.Some? ==> !(gone.value.conn == c && gone.value.req == req)
    requires
      var added := conns[c := AddSource(conns[c], req, ref)];
      conns' == if gone.Some? then SendSourceClose(added, gone.value.conn, gone.value.req, sid) else added
    ensures forall c', r :: TableSource(conns', c', r) ==
              if c' == c && r == req then Some(ref)
              else if gone.Some? && c' == gone.value.conn && r == gone.value.req then None
              else TableSource(conns, c', r)
    ensures forall c', r :: TableSink(conns', c', r) == TableSink(conns, c', r)
  {
    hide SendSourceClose, AddSource, TableSource, TableSink;
    TablesAfterAdd(conns, c, req, ref);
    if gone.Some? { TablesAfterClose(conns[c := AddSource(conns[c], req, ref)], gone.value.conn, gone.value.req, sid); }
  }

  /** The registered source of a stream is not under a request that is not there. */
  lemma GoneIsAnother(w: State, c: ConnectionId, req: RequestId, sid: StreamId)
    requires RegisteredOK(w, sid) && SourceIn(w, c, req).None?
    ensures SourceAt(w, sid).Some? ==>
              var s := SourceAt(w, sid).value;
              s.conn in w.conns && !(s.conn == c && s.req == req)
  {
  }

  lemma ReplacesFrom(w: State, w': State, sid: StreamId, s: Source)
    requires w'.limit == w.limit && s.stamp == w.node.nextStamp && w'.node.nextStamp == w.node.nextStamp + 1
    requires SourceIn(w, s.conn, s.req).None? && w'.node.sources == w.node.sources[sid := s]
    requires
      var gone := SourceAt(w, sid);
      forall c, r :: TableSource(w'.conns, c, r) ==
        if c == s.conn && r == s.req then Some(SourceRef(sid, s.stamp))
        else if gone.Some? && c == gone.value.conn && r == gone.value.req then None
        else TableSource(w.conns, c, r)
    requires
      var gone := SourceAt(w, sid);
      w'.objects == (if gone.Some? then CloseObject(w.objects, gone.value.stamp) else w.objects)
                    [s.stamp := SourceObject(sid, s.conn, s.req, false)]
    ensures Replaces(w, w', sid, s)
  {
    hide TableSource, CloseObject;
  }

  lemma PublishReplaces(w: State, c: ConnectionId, req: RequestId, sid: StreamId, kind: StreamType, auth: bool)
    requires Inv(w) && c in w.conns && Refusal(w, c, req, sid, auth).None?
    ensures
      var w' := ReceivePublish(w, c, req, sid, kind, auth).state;
      Replaces(w, w', sid, NewSourceFor(w, c, req, kind)) && SameSinks(w, w')
  {
    hide ReceivePublish, SendSourceClose, AddSource, CloseObject, Inv, ConnsOK, RegisteredOK, Replaces, SameSinks;
    hide TableSource, TableSink, SameViewersEverywhere;
    InvParts(w, sid);
    UntabledRequest(w, c, req);
    GoneIsAnother(w, c, req, sid);
    PublishResult(w, c, req, sid, kind, auth);
    var w' := ReceivePublish(w, c, req, sid, kind, auth).state;
    var s := NewSourceFor(w, c, req, kind);
    TablesAfterPublish(w.conns, c, req, SourceRef(sid, s.stamp), SourceAt(w, sid), sid, w'.conns);
    ReplacesFrom(w, w', sid, s);
    EqualSinksLookAlike(w.node, w'.node);
    SameSinksFrom(w, w');
  }

  lemma EqualSinksLookAlike(n: NodeState, n': NodeState)
    requires n'.sinks == n.sinks
    ensures SameViewersEverywhere(n, n')
  {
  }

  lemma InvParts(w: State, sid: StreamId)
    requires Inv(w)
    ensures ConnsOK(w) && RegisteredOK(w, sid)
  {
  }

  /** What ReceivePlay leaves in each part of the state. */
  lemma PlayResult(w: State, c: ConnectionId, req: RequestId, sid: StreamId, auth: bool)
    requires c in w.conns && Refusal(w, c, req, sid, auth).None?
    ensures
      var w' := ReceivePlay(w, c, req, sid, auth).state;
      var n, id := w.node, SinkId(w.node.sinkCount + 1);
      && w'.conns == w.conns[c := AddSink(w.conns[c], req, SinkRef(sid, id))]
      && w'.objects == w.objects && w'.limit == w.limit
      && w'.sinkObjects == w.sinkObjects[id := SinkObject(sid, c, req, false)] && w'.node.sinkCount == n.sinkCount + 1
      && w'.node.sources == n.sources && w'.node.nextStamp == n.nextStamp
      && SinksAt(w'.node, sid).Keys == SinksAt(n, sid).Keys + {id}
      && SinksAt(w'.node, sid)[id].conn == c && SinksAt(w'.node, sid)[id].req == req
      && (forall i | i in SinksAt(n, sid) && i != id :: SinksAt(w'.node, sid)[i] == SinksAt(n, sid)[i])
      && (forall s | s != sid :: SinksAt(w'.node, s) == SinksAt(n, s))
  {
    var n1 := GetSinkID(w.node);
    assert forall s :: SinksAt(n1, s) == SinksAt(w.node, s);
    RegisteringAddsViewer(n1, sid, SinkId(n1.sinkCount), NewSink(c, req));
  }

  lemma PlayAdds(w: State, c: ConnectionId, req: RequestId, sid: StreamId, auth: bool)
    requires Inv(w) && c in w.conns && Refusal(w, c, req, sid, auth).None?
    ensures
      var w' := ReceivePlay(w, c, req, sid, auth).state;
      SameSources(w, w') && AddsSink(w, w', sid, SinkId(w.node.sinkCount + 1), c, req)
  {
    hide Inv, ReceivePlay, ConnsOK;
    InvParts(w, sid);
    UntabledRequest(w, c, req);
    FreshSinkId(w, sid);
    PlayResult(w, c, req, sid, auth);
  }

  lemma FreshSinkId(w: State, sid: StreamId)
    requires Inv(w)
    ensures
      var id := SinkId(w.node.sinkCount + 1);
      id !in w.sinkObjects && id !in SinksAt(w.node, sid)
  {
    var id := SinkId(w.node.sinkCount + 1);
    assert SinkObjectOK(w, id) && SinkRegisteredOK(w, sid, id);
  }

  lemma PlayKeepsTables(w: State, c: ConnectionId, req: RequestId, sid: StreamId, auth: bool)
    requires ConnsOK(w) && c in w.conns && Refusal(w, c, req, sid, auth).None?
    ensures ConnsOK(ReceivePlay(w, c, req, sid, auth).state)
  {
    hide ConnsOK, ConnOK, AddSink, NodeSpec.RegisterSink, NodeSpec.GetSinkID;
    TableOf(w, c);
    var ref := SinkRef(sid, SinkId(NodeSpec.GetSinkID(w.node).sinkCount));
    AddSinkOK(w.conns[c], req, ref);
    if w.limit < UINT32 - 1 { CountedBelowLimit(w.conns[c], w.limit); }
    OneTableChanges(w, ReceivePlay(w, c, req, sid, auth).state, c, AddSink(w.conns[c], req, ref));
  }

  /** A closing source leaves its stream's entry and its table: what is enough to unlink it. */
  lemma UnlinksFrom(w: State, w': State, sid: StreamId)
    requires RegisteredOK(w, sid) && sid in w.node.sources
    requires w'.limit == w.limit && w'.node.nextStamp == w.node.nextStamp
    requires w'.node.sources == w.node.sources - {sid}
    requires
      var gone := w.node.sources[sid];
      forall c, r :: TableSource(w'.conns, c, r) ==
        if c == gone.conn && r == gone.req then None else TableSource(w.conns, c, r)
    requires w'.objects == CloseObject(w.objects, w.node.sources[sid].stamp)
    ensures Unlinks(w, w', sid)
  {
    hide TableSource, CloseObject, RegisteredOK;
  }

  lemma TablesAfterDrop(conns: map<ConnectionId, Conn>, c: ConnectionId, req: RequestId)
    requires c in conns
    ensures
      var conns' := conns[c := DropSource(conns[c], req)];
      && (forall c', r :: TableSource(conns', c', r) == if c' == c && r == req then None else TableSource(conns, c', r))
      && (forall c', r :: TableSink(conns', c', r) == TableSink(conns, c', r))
  {
  }

  /** What closing a PUBLISH request leaves in each part of the state. */
  lemma ClosePublishResult(w: State, c: ConnectionId, req: RequestId)
    requires c in w.conns && req in w.conns[c].sources && ConnOK(w.conns[c])
    ensures
      var w' := CloseRequest(w, c, req);
      var r := w.conns[c].sources[req];
      && w'.conns == w.conns[c := DropSource(w.conns[c], req)] && w'.limit == w.limit
      && w'.node == OnSourceClosed(w.node, r.sid, TracksOf(w.node, r)) && w'.objects == CloseObject(w.objects, r.stamp)
      && w'.sinkObjects == w.sinkObjects
  {
    assert req in w.conns[c].requests.Keys;
  }

  lemma ClosedNode(n: NodeState, sid: StreamId, tracks: Tracks)
    ensures
      var n' := OnSourceClosed(n, sid, tracks);
      n'.sources == n.sources - {sid} && n'.nextStamp == n.nextStamp && n'.sinkCount == n.sinkCount
  {
  }

  /** The source in a table is the registered one. */
  lemma TabledIsRegistered(w: State, c: ConnectionId, req: RequestId)
    requires Inv(w) && c in w.conns && req in w.conns[c].sources
    ensures
      var r := w.conns[c].sources[req];
      && r.sid in w.node.sources && RegisteredOK(w, r.sid)
      && w.node.sources[r.sid].stamp == r.stamp && w.node.sources[r.sid].conn == c && w.node.sources[r.sid].req == req
    ensures ConnsOK(w) && ConnOK(w.conns[c])
  {
    assert TabledOK(w, c, req);
  }

  lemma ClosePublishUnlinks(w: State, c: ConnectionId, req: RequestId)
    requires Inv(w) && c in w.conns && req in w.conns[c].sources
    ensures
      var w' := CloseRequest(w, c, req);
      && Unlinks(w, w', w.conns[c].sources[req].sid) && SameSinks(w, w') && ConnsOK(w')
      && SourceAt(w, w.conns[c].sources[req].sid).Some?
      && TracksOf(w.node, w.conns[c].sources[req]) == w.node.sources[w.conns[c].sources[req].sid].tracks
  {
    hide Inv, ConnsOK, ConnOK, RegisteredOK, CloseRequest, OnSourceClosed, DropSource, CloseObject, Unlinks, SameSinks;
    hide TableSource, TableSink, SameViewersEverywhere;
    var r := w.conns[c].sources[req];
    var w' := CloseRequest(w, c, req);
    TabledIsRegistered(w, c, req);
    ClosePublishResult(w, c, req);
    ClosedNode(w.node, r.sid, TracksOf(w.node, r));
    TablesAfterDrop(w.conns, c, req);
    UnlinksFrom(w, w', r.sid);
    DropSourceKeepsTables(w, w', c, req);
    ClosingKeepsViewers(w.node, r.sid, TracksOf(w.node, r));
    SameSinksFrom(w, w');
  }

  lemma ClosePlayTables(w: State, c: ConnectionId, req: RequestId)
    requires Inv(w) && c in w.conns && req in w.conns[c].sinks
    ensures
      var w' := CloseRequest(w, c, req);
      var r := w.conns[c].sinks[req];
      && w' == w.(node := RemoveSink(w.node, r.sid, r.id), conns := w.conns[c := DropSink(w.conns[c], req)],
                  sinkObjects := CloseSinkObject(w.sinkObjects, r.id))
      && ConnsOK(w') && r.id in SinksAt(w.node, r.sid)
  {
    assert SinkTabledOK(w, c, req);
    DropSinkOK(w.conns[c], req);
  }

  lemma ClosePlayDrops(w: State, c: ConnectionId, req: RequestId)
    requires Inv(w) && c in w.conns && req in w.conns[c].sinks
    ensures
      var w' := CloseRequest(w, c, req);
      var r := w.conns[c].sinks[req];
      DropsSink(w, w', r.sid, r.id, c, req) && SameSources(w, w') && ConnsOK(w')
  {
    hide Inv, ConnsOK, CloseRequest, RemoveSink;
    var r := w.conns[c].sinks[req];
    ClosePlayTables(w, c, req);
    RemovingDropsViewer(w.node, r.sid, r.id);
  }

  /** An open source object is the registered source of its stream. */
  lemma OpenIsRegistered(w: State, stamp: nat)
    requires Inv(w) && stamp in w.objects && !w.objects[stamp].closed
    ensures
      var o := w.objects[stamp];
      && o.sid in w.node.sources && RegisteredOK(w, o.sid) && w.node.sources[o.sid].stamp == stamp
      && w.node.sources[o.sid].conn == o.conn && w.node.sources[o.sid].req == o.req
    ensures ConnsOK(w)
  {
    assert ObjectOK(w, stamp);
  }

  lemma LostUnlinks(w: State, stamp: nat)
    requires Inv(w) && stamp in w.objects && !w.objects[stamp].closed
    ensures
      var w' := SourceLost(w, stamp);
      var o := w.objects[stamp];
      && Unlinks(w, w', o.sid) && SameSinks(w, w') && ConnsOK(w')
      && SourceAt(w, o.sid).Some? && SourceAt(w, o.sid).value.stamp == stamp
  {
    hide Inv, ConnsOK, RegisteredOK, OnSourceClosed, SendSourceClose, CloseObject, Unlinks, SameSinks;
    hide TableSource, TableSink, SameViewersEverywhere;
    var o := w.objects[stamp];
    var w' := SourceLost(w, stamp);
    var t := TracksOf(w.node, SourceRef(o.sid, stamp));
    OpenIsRegistered(w, stamp);
    RegisteredIsTabled(w, o.sid);
    ClosedNode(w.node, o.sid, t);
    TablesAfterClose(w.conns, o.conn, o.req, o.sid);
    UnlinksFrom(w, w', o.sid);
    ClosingKeepsTables(w, w', o.conn, o.req, o.sid);
    ClosingKeepsViewers(w.node, o.sid, t);
    SameSinksFrom(w, w');
  }

  /** What ReceiveInfoMessage leaves in each part of the state. */
  lemma InfoResult(w: State, from: NodeId, sid: StreamId)
    ensures
      var w' := ReceiveInfoMessage(w, from, sid).state;
      var gone := SourceAt(w, sid);
      && w'.conns == (if gone.Some? then SendSourceClose(w.conns, gone.value.conn, gone.value.req, sid) else w.conns)
      && w'.node.sources == w.node.sources - {sid} && w'.node.sinks == w.node.sinks
      && w'.node.nextStamp == w.node.nextStamp && w'.limit == w.limit
      && w'.objects == (if gone.Some? then CloseObject(w.objects, gone.value.stamp) else w.objects)
      && w'.sinkObjects == w.sinkObjects && w'.node.sinkCount == w.node.sinkCount
  {
  }

  lemma NothingToUnlink(w: State, w': State, sid: StreamId)
    requires SourceAt(w, sid).None? && w'.limit == w.limit && w'.node.nextStamp == w.node.nextStamp
    requires w'.node.sources == w.node.sources - {sid} && w'.conns == w.conns && w'.objects == w.objects
    ensures Unlinks(w, w', sid) && forall c, r :: TableSink(w'.conns, c, r) == TableSink(w.conns, c, r)
  {
  }

  lemma InfoUnlinks(w: State, from: NodeId, sid: StreamId)
    requires Inv(w)
    ensures
      var w' := ReceiveInfoMessage(w, from, sid).state;
      Unlinks(w, w', sid) && SameSinks(w, w') && ConnsOK(w')
  {
    hide ReceiveInfoMessage, SendSourceClose, CloseObject, Inv, ConnsOK, RegisteredOK, Unlinks, SameSinks;
    hide TableSource, TableSink, SameViewersEverywhere;
    InvParts(w, sid);
    InfoResult(w, from, sid);
    var w' := ReceiveInfoMessage(w, from, sid).state;
    if sid in w.node.sources {
      RegisteredIsTabled(w, sid);
      var s := w.node.sources[sid];
      TablesAfterClose(w.conns, s.conn, s.req, sid);
      UnlinksFrom(w, w', sid);
      ClosingKeepsTables(w, w', s.conn, s.req, sid);
    } else {
      NothingToUnlink(w, w', sid);
      SameTables(w, w');
    }
    EqualSinksLookAlike(w.node, w'.node);
    SameSinksFrom(w, w');
  }

  // ---------- Closing one request, and a whole connection ----------

  /** Closing a request of a connection removes that request and nothing else from the tables. */
  lemma CloseRemovesOne(w: State, c: ConnectionId, req: RequestId)
    requires Inv(w) && c in w.conns && req in w.conns[c].requests
    ensures
      var w' := CloseRequest(w, c, req);
      && w'.conns.Keys == w.conns.Keys && w'.limit == w.limit
      && w'.conns[c].requests == w.conns[c].requests - {req}
      && w'.conns[c].sent == w.conns[c].sent
      && (forall x | x in w.conns && x != c :: w'.conns[x] == w.conns[x])
  {
    assert ConnOK(w.conns[c]);
    assert req in w.conns[c].sources || req in w.conns[c].sinks;
  }

  lemma CloseKeepsInv(w: State, c: ConnectionId, req: RequestId)
    requires Inv(w) && c in w.conns
    ensures Inv(CloseRequest(w, c, req))
  {
    hide Unlinks, SameSinks, DropsSink, SameSources, SourcesLinked, SinksLinked;
    var w' := CloseRequest(w, c, req);
    if req in w.conns[c].sources {
      ClosePublishUnlinks(w, c, req);
      UnlinkKeepsLinks(w, w', w.conns[c].sources[req].sid);
      SameSinksLinked(w, w');
    } else if req in w.conns[c].sinks {
      var r := w.conns[c].sinks[req];
      ClosePlayDrops(w, c, req);
      DropSinkKeepsLinks(w, w', r.sid, r.id, c, req);
      SameSourcesLinked(w, w');
    } else {
      assert ConnOK(w.conns[c]);
    }
  }

  /** The loop's early return is for a request that is not there: these visits never meet one. */
  predicate EveryVisitFinds(w: State, c: ConnectionId, order: seq<RequestId>)
    requires c in w.conns
    decreases |order|
  {
    order != [] ==>
      order[0] in w.conns[c].requests && EveryVisitFinds(CloseRequest(w, c, order[0]), c, order[1..])
  }

  predicate IsOrderOf(order: seq<RequestId>, keys: set<RequestId>) {
    && (forall i, j | 0 <= i < j < |order| :: order[i] != order[j])
    && (set r | r in order) == keys
  }

  lemma {:induction false} CloseAllEmpties(w: State, c: ConnectionId, order: seq<RequestId>)
    requires Inv(w) && c in w.conns && IsOrderOf(order, w.conns[c].requests.Keys)
    ensures EveryVisitFinds(w, c, order)
    ensures
      var w' := CloseAll(w, c, order);
      && Inv(w') && w'.conns[c].requests == map[]
      && (forall x | x in w.conns && x != c :: w'.conns[x] == w.conns[x])
    decreases |order|
  {
    if order == [] {
      assert w.conns[c].requests.Keys == {};
    } else {
      var w1 := CloseRequest(w, c, order[0]);
      CloseRemovesOne(w, c, order[0]);
      CloseKeepsInv(w, c, order[0]);
      assert IsOrderOf(order[1..], w1.conns[c].requests.Keys) by {
        assert w1.conns[c].requests.Keys == w.conns[c].requests.Keys - {order[0]};
        forall r ensures r in order[1..] <==> r in w1.conns[c].requests.Keys {
          assert r in order[1..] <==> r in order && r != order[0];
        }
      }
      CloseAllEmpties(w1, c, order[1..]);
    }
  }

  /** When a connection ends, whatever order its requests are visited in, the loop visits them all, its
      tables end empty with count 0, no source or sink of that connection is left in the node, and no other
      connection is touched. */
  lemma TeardownLeavesNothing(w: State, c: ConnectionId, order: seq<RequestId>)
    requires Inv(w) && c in w.conns && IsOrderOf(order, w.conns[c].requests.Keys)
    ensures EveryVisitFinds(w, c, order)
    ensures
      var w' := CloseAll(w, c, order);
      && w'.conns[c].requests == map[] && w'.conns[c].sources == map[] && w'.conns[c].sinks == map[]
      && w'.conns[c].requestCount == 0
      && (forall sid | sid in w'.node.sources :: w'.node.sources[sid].conn != c)
      && (forall sid, id | id in SinksAt(w'.node, sid) :: SinksAt(w'.node, sid)[id].conn != c)
      && (forall x | x in w.conns && x != c :: w'.conns[x] == w.conns[x])
  {
    CloseAllEmpties(w, c, order);
    var w' := CloseAll(w, c, order);
    EmptyConn(w'.conns[c]);
    forall sid | sid in w'.node.sources ensures w'.node.sources[sid].conn != c {
      assert RegisteredOK(w', sid);
    }
    forall sid, id | id in SinksAt(w'.node, sid) ensures SinksAt(w'.node, sid)[id].conn != c {
      assert SinkRegisteredOK(w', sid, id);
    }
  }

  lemma EmptyConn(c: Conn)
    requires ConnOK(c) && c.requests == map[]
    ensures c.sources == map[] && c.sinks == map[] && c.requestCount == 0
  {
    assert c.sources.Keys == {} && c.sinks.Keys == {};
  }

  // ---------- Transitions and runs ----------

  datatype Move =
    | OpenConn(c: ConnectionId)
    | Publish(c: ConnectionId, req: RequestId, sid: StreamId, kind: StreamType, auth: bool)
    | Play(c: ConnectionId, req: RequestId, sid: StreamId, auth: bool)
    | Close(c: ConnectionId, req: RequestId)
    | Lost(stamp: nat)
    | InfoFrom(from: NodeId, sid: StreamId)
    | EndConn(c: ConnectionId, order: seq<RequestId>)
    | Internal(step: Step)

  ghost predicate CanMove(w: State, v: Move) {
    match v
    case OpenConn(c) => c !in w.conns
    case Publish(c, req, sid, kind, auth) => c in w.conns
    case Play(c, req, sid, auth) => c in w.conns
    case Close(c, req) => c in w.conns
    case Lost(stamp) => stamp in w.objects
    case InfoFrom(from, sid) => from != w.node.id
    case EndConn(c, order) => c in w.conns && IsOrderOf(order, w.conns[c].requests.Keys)
    case Internal(step) => IsInternal(step) && NodeInvariants.CanHappen(w.node, step)
  }

  function Next(w: State, v: Move): Result
    requires CanMove(w, v)
  {
    match v
    case OpenConn(c) => Result(w.(conns := w.conns[c := NEW_CONN]), None)
    case Publish(c, req, sid, kind, auth) => ReceivePublish(w, c, req, sid, kind, auth)
    case Play(c, req, sid, auth) => ReceivePlay(w, c, req, sid, auth)
    case Close(c, req) => Result(CloseRequest(w, c, req), None)
    case Lost(stamp) => Result(SourceLost(w, stamp), None)
    case InfoFrom(from, sid) => ReceiveInfoMessage(w, from, sid)
    case EndConn(c, order) => var w' := CloseAll(w, c, order); Result(w'.(conns := w'.conns - {c}), None)
    case Internal(step) => var e := Apply(w.node, step); Result(w.(node := e.node), e.pub)
  }
}
