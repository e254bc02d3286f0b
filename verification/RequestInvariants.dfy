/**
  What ties connections to registries: every open source and sink is in exactly one request
  table and one registry entry, request counts are exact, and closing a connection leaves
  nothing of it behind.
 */
module RequestInvariants {
  import opened Types
  import opened NodeSpec
  import opened Requests

  // ---------- Accessors ----------

  function SourceAt(w: State, sid: StreamId): Option<Source> {
    Lookup(w.node.sources, sid)
  }

  function SinkAt(w: State, sid: StreamId, id: SinkId): Option<Sink> {
    Lookup(SinksAt(w.node, sid), id)
  }

  function TableSource(conns: map<ConnectionId, Conn>, c: ConnectionId, r: RequestId): Option<SourceRef> {
    if c in conns then Lookup(conns[c].sources, r) else None
  }

  function TableSink(conns: map<ConnectionId, Conn>, c: ConnectionId, r: RequestId): Option<SinkRef> {
    if c in conns then Lookup(conns[c].sinks, r) else None
  }

  function SourceIn(w: State, c: ConnectionId, r: RequestId): Option<SourceRef> {
    TableSource(w.conns, c, r)
  }

  function SinkIn(w: State, c: ConnectionId, r: RequestId): Option<SinkRef> {
    TableSink(w.conns, c, r)
  }

  // ---------- Invariants ----------

  /** The keys of `requests` split into sources and sinks by kind, and the count is exact modulo 2^32. */
  predicate ConnOK(c: Conn) {
    && (forall r | r in c.requests :: c.requests[r].PublishRequest? <==> r in c.sources)
    && (forall r | r in c.requests :: c.requests[r].PlayRequest? <==> r in c.sinks)
    && c.sources.Keys <= c.requests.Keys && c.sinks.Keys <= c.requests.Keys
    && c.requestCount == |c.requests| % UINT32
  }

  /** A source in a table is the registered source of its stream. */
  predicate TabledOK(w: State, c: ConnectionId, r: RequestId) {
    SourceIn(w, c, r).Some? ==>
      var ref := SourceIn(w, c, r).value;
      var s := SourceAt(w, ref.sid);
      s.Some? && s.value.stamp == ref.stamp && s.value.conn == c && s.value.req == r
  }

  /** A registered source is in the table of its connection, and is an open object. */
  predicate RegisteredOK(w: State, sid: StreamId) {
    SourceAt(w, sid).Some? ==>
      var s := SourceAt(w, sid).value;
      && SourceIn(w, s.conn, s.req) == Some(SourceRef(sid, s.stamp))
      && Lookup(w.objects, s.stamp) == Some(SourceObject(sid, s.conn, s.req, false))
  }

  /** A source object that is not closed is registered. */
  predicate ObjectOK(w: State, stamp: nat) {
    stamp in w.objects ==>
      && stamp < w.node.nextStamp
      && (!w.objects[stamp].closed ==>
            SourceAt(w, w.objects[stamp].sid).Some? && SourceAt(w, w.objects[stamp].sid).value.stamp == stamp)
  }

  predicate SinkTabledOK(w: State, c: ConnectionId, r: RequestId) {
    SinkIn(w, c, r).Some? ==>
      var ref := SinkIn(w, c, r).value;
      var k := SinkAt(w, ref.sid, ref.id);
      k.Some? && k.value.conn == c && k.value.req == r
  }

  predicate SinkRegisteredOK(w: State, sid: StreamId, id: SinkId) {
    SinkAt(w, sid, id).Some? ==>
      var k := SinkAt(w, sid, id).value;
      && SinkIn(w, k.conn, k.req) == Some(SinkRef(sid, id))
      && Lookup(w.sinkObjects, id) == Some(SinkObject(sid, k.conn, k.req, false))
  }

  /** A sink object that is not closed is registered, and its id came from the counter. */
  predicate SinkObjectOK(w: State, id: SinkId) {
    id in w.sinkObjects ==>
      && id.number <= w.node.sinkCount
      && (!w.sinkObjects[id].closed ==> SinkAt(w, w.sinkObjects[id].sid, id).Some?)
  }

  ghost predicate SourcesLinked(w: State) {
    && (forall c, r :: TabledOK(w, c, r))
    && (forall sid :: RegisteredOK(w, sid))
    && (forall stamp :: ObjectOK(w, stamp))
  }

  ghost predicate SinksLinked(w: State) {
    && (forall c, r :: SinkTabledOK(w, c, r))
    && (forall sid, id :: SinkRegisteredOK(w, sid, id))
    && (forall id :: SinkObjectOK(w, id))
  }

  predicate ConnsOK(w: State) {
    && (forall c | c in w.conns :: ConnOK(w.conns[c]))
    && (w.limit < UINT32 - 1 ==> forall c | c in w.conns :: |w.conns[c].requests| <= w.limit + 1)
  }

  ghost predicate Inv(w: State) {
    SourcesLinked(w) && SinksLinked(w) && ConnsOK(w)
  }

  // ---------- Tables ----------

  lemma AddSourceOK(c: Conn, req: RequestId, r: SourceRef)
    requires ConnOK(c) && req !in c.requests
    ensures ConnOK(AddSource(c, req, r)) && |AddSource(c, req, r).requests| == |c.requests| + 1
  {
    assert |c.requests[req := PublishRequest]| == |c.requests| + 1;
    IncExact(|c.requests|);
  }

  lemma AddSinkOK(c: Conn, req: RequestId, r: SinkRef)
    requires ConnOK(c) && req !in c.requests
    ensures ConnOK(AddSink(c, req, r)) && |AddSink(c, req, r).requests| == |c.requests| + 1
  {
    assert |c.requests[req := PlayRequest]| == |c.requests| + 1;
    IncExact(|c.requests|);
  }

  lemma IncExact(n: nat)
    ensures Inc(n % UINT32) == (n + 1) % UINT32
  {
  }

  lemma DecExact(n: nat)
    requires n > 0
    ensures Dec(n % UINT32) == (n - 1) % UINT32
  {
  }

  lemma SizeWithout<K, V>(m: map<K, V>, k: K)
    requires k in m
    ensures |m - {k}| == |m| - 1
  {
    assert (m - {k}).Keys == m.Keys - {k};
    assert |(m - {k}).Keys| == |m - {k}| && |m.Keys| == |m|;
  }

  /** The unconditional decrement never underflows: the dropped request is counted. */
  lemma DropSourceOK(c: Conn, req: RequestId)
    requires ConnOK(c) && req in c.sources
    ensures ConnOK(DropSource(c, req)) && |DropSource(c, req).requests| == |c.requests| - 1
  {
    assert req in c.requests;
    SizeWithout(c.requests, req);
    DecExact(|c.requests|);
  }

  lemma DropSinkOK(c: Conn, req: RequestId)
    requires ConnOK(c) && req in c.sinks
    ensures ConnOK(DropSink(c, req)) && |DropSink(c, req).requests| == |c.requests| - 1
  {
    assert req in c.requests;
    SizeWithout(c.requests, req);
    DecExact(|c.requests|);
  }

  // ---------- Unlinking a source ----------

  /** The registered source of `sid`, if any, leaves its registry entry and its table, and is closed. */
  ghost predicate Unlinks(w: State, w': State, sid: StreamId) {
    var gone := SourceAt(w, sid);
    && w'.limit == w.limit && w'.node.nextStamp == w.node.nextStamp
    && (forall s :: SourceAt(w', s) == if s == sid then None else SourceAt(w, s))
    && (forall c, r :: SourceIn(w', c, r) ==
          if gone.Some? && c == gone.value.conn && r == gone.value.req then None else SourceIn(w, c, r))
    && w'.objects == (if gone.Some? then CloseObject(w.objects, gone.value.stamp) else w.objects)
  }

  lemma UnlinkKeepsLinks(w: State, w': State, sid: StreamId)
    requires SourcesLinked(w) && Unlinks(w, w', sid)
    ensures SourcesLinked(w')
  {
    var gone := SourceAt(w, sid);
    assert RegisteredOK(w, sid);
    forall c, r ensures TabledOK(w', c, r) {
      assert TabledOK(w, c, r);
    }
    forall s ensures RegisteredOK(w', s) {
      assert RegisteredOK(w, s);
    }
    forall stamp ensures ObjectOK(w', stamp) {
      assert ObjectOK(w, stamp);
    }
  }

  /** A new source takes the place of the registered one, if any, in registry and tables. */
  ghost predicate Replaces(w: State, w': State, sid: StreamId, s: Source) {
    var gone := SourceAt(w, sid);
    && w'.limit == w.limit && s.stamp == w.node.nextStamp && w'.node.nextStamp == w.node.nextStamp + 1
    && SourceIn(w, s.conn, s.req).None?
    && (forall s' :: SourceAt(w', s') == if s' == sid then Some(s) else SourceAt(w, s'))
    && (forall c, r :: SourceIn(w', c, r) ==
          if c == s.conn && r == s.req then Some(SourceRef(sid, s.stamp))
          else if gone.Some? && c == gone.value.conn && r == gone.value.req then None
          else SourceIn(w, c, r))
    && w'.objects == (if gone.Some? then CloseObject(w.objects, gone.value.stamp) else w.objects)
                     [s.stamp := SourceObject(sid, s.conn, s.req, false)]
  }

  lemma ReplaceKeepsLinks(w: State, w': State, sid: StreamId, s: Source)
    requires SourcesLinked(w) && Replaces(w, w', sid, s)
    ensures SourcesLinked(w')
  {
    var gone := SourceAt(w, sid);
    assert RegisteredOK(w, sid);
    forall c, r ensures TabledOK(w', c, r) {
      assert TabledOK(w, c, r);
    }
    forall x ensures RegisteredOK(w', x) {
      assert RegisteredOK(w, x);
      if SourceAt(w, x).Some? { assert ObjectOK(w, SourceAt(w, x).value.stamp); }
    }
    forall stamp ensures ObjectOK(w', stamp) {
      assert ObjectOK(w, stamp);
    }
  }

  /** The sources of registry and tables are the same. */
  ghost predicate SameSources(w: State, w': State) {
    && w'.limit == w.limit && w'.objects == w.objects && w'.node.nextStamp >= w.node.nextStamp
    && (forall s :: SourceAt(w', s).Some? <==> SourceAt(w, s).Some?)
    && (forall s | SourceAt(w, s).Some? ::
          var a, b := SourceAt(w, s).value, SourceAt(w', s).value;
          a.stamp == b.stamp && a.conn == b.conn && a.req == b.req)
    && (forall c, r :: SourceIn(w', c, r) == SourceIn(w, c, r))
  }

  lemma SameSourcesLinked(w: State, w': State)
    requires SourcesLinked(w) && SameSources(w, w')
    ensures SourcesLinked(w')
  {
    forall c, r ensures TabledOK(w', c, r) {
      assert TabledOK(w, c, r);
    }
    forall x ensures RegisteredOK(w', x) {
      assert RegisteredOK(w, x);
    }
    forall stamp ensures ObjectOK(w', stamp) {
      assert ObjectOK(w, stamp);
    }
  }

  // ---------- Sinks ----------

  /** The sinks of registry and tables are the same objects of the same requests. */
  ghost predicate SameSinks(w: State, w': State) {
    && w'.sinkObjects == w.sinkObjects && w'.node.sinkCount >= w.node.sinkCount
    && (forall sid, id :: SinkAt(w', sid, id).Some? <==> SinkAt(w, sid, id).Some?)
    && (forall sid, id | SinkAt(w, sid, id).Some? ::
          SinkAt(w', sid, id).value.conn == SinkAt(w, sid, id).value.conn &&
          SinkAt(w', sid, id).value.req == SinkAt(w, sid, id).value.req)
    && (forall c, r :: SinkIn(w', c, r) == SinkIn(w, c, r))
  }

  lemma SameSinksLinked(w: State, w': State)
    requires SinksLinked(w) && SameSinks(w, w')
    ensures SinksLinked(w')
  {
    forall c, r ensures SinkTabledOK(w', c, r) {
      assert SinkTabledOK(w, c, r);
    }
    forall sid, id ensures SinkRegisteredOK(w', sid, id) {
      assert SinkRegisteredOK(w, sid, id);
    }
    forall id ensures SinkObjectOK(w', id) {
      assert SinkObjectOK(w, id);
    }
  }

  ghost predicate AddsSink(w: State, w': State, sid: StreamId, id: SinkId, c: ConnectionId, r: RequestId) {
    && id !in w.sinkObjects && w'.sinkObjects == w.sinkObjects[id := SinkObject(sid, c, r, false)]
    && id.number <= w'.node.sinkCount && w.node.sinkCount <= w'.node.sinkCount
    && SinkAt(w, sid, id).None? && SinkIn(w, c, r).None?
    && SinkAt(w', sid, id).Some? && SinkAt(w', sid, id).value.conn == c && SinkAt(w', sid, id).value.req == r
    && (forall s, i | !(s == sid && i == id) :: SinkAt(w', s, i) == SinkAt(w, s, i))
    && (forall c', r' :: SinkIn(w', c', r') == if c' == c && r' == r then Some(SinkRef(sid, id)) else SinkIn(w, c', r'))
  }

  lemma AddSinkKeepsLinks(w: State, w': State, sid: StreamId, id: SinkId, c: ConnectionId, r: RequestId)
    requires SinksLinked(w) && AddsSink(w, w', sid, id, c, r)
    ensures SinksLinked(w')
  {
    forall c', r' ensures SinkTabledOK(w', c', r') {
      assert SinkTabledOK(w, c', r');
    }
    forall s, i ensures SinkRegisteredOK(w', s, i) {
      assert SinkRegisteredOK(w, s, i);
    }
    forall i ensures SinkObjectOK(w', i) {
      assert SinkObjectOK(w, i);
    }
  }

  ghost predicate DropsSink(w: State, w': State, sid: StreamId, id: SinkId, c: ConnectionId, r: RequestId) {
    && w'.sinkObjects == CloseSinkObject(w.sinkObjects, id) && w'.node.sinkCount == w.node.sinkCount
    && (forall s, i :: SinkAt(w', s, i) == if s == sid && i == id then None else SinkAt(w, s, i))
    && (forall c', r' :: SinkIn(w', c', r') == if c' == c && r' == r then None else SinkIn(w, c', r'))
  }

  lemma DropSinkKeepsLinks(w: State, w': State, sid: StreamId, id: SinkId, c: ConnectionId, r: RequestId)
    requires SinksLinked(w) && SinkIn(w, c, r) == Some(SinkRef(sid, id)) && DropsSink(w, w', sid, id, c, r)
    ensures SinksLinked(w')
  {
    assert SinkTabledOK(w, c, r) && SinkRegisteredOK(w, sid, id);
    forall c', r' ensures SinkTabledOK(w', c', r') {
      assert SinkTabledOK(w, c', r');
    }
    forall s, i ensures SinkRegisteredOK(w', s, i) {
      assert SinkRegisteredOK(w, s, i);
    }
    forall i ensures SinkObjectOK(w', i) {
      assert SinkObjectOK(w, i);
    }
  }
}
