/**
  The functions of NodeSpec and Requests taken apart into the steps in which the objects of
  module Objects carry them out.
 */
module HandlerSteps {
  import opened Types
  import opened Requests
  import NodeSpec
  import RequestInvariants
  import RequestRuns

  // ---------- Maps of maps ----------

  /** Adds an entry to an inner map, which is made when it is not there. */
  function Put<K, L, X>(m: map<K, map<L, X>>, k: K, l: L, x: X): map<K, map<L, X>> {
    m[k := (if k in m then m[k] else map[])[l := x]]
  }

  lemma PutHas<K, L, X>(m: map<K, map<L, X>>, k: K, l: L, x: X)
    ensures k in Put(m, k, l, x) && l in Put(m, k, l, x)[k] && Put(m, k, l, x)[k][l] == x
  {
  }

  lemma PutPut<K, L, X>(m: map<K, map<L, X>>, k: K, l: L, x: X, y: X)
    ensures Put(Put(m, k, l, x), k, l, y) == Put(m, k, l, y)
  {
    var m0 := if k in m then m[k] else map[];
    assert m0[l := x][l := y] == m0[l := y];
    assert m[k := m0[l := x]][k := m0[l := y]] == m[k := m0[l := y]];
  }

  /** One entry goes; the inner map goes with its last entry. */
  ghost function Cut<K, L, X>(m: map<K, map<L, X>>, k: K, l: L): map<K, map<L, X>> {
    if k !in m || l !in m[k] then m
    else if m[k] - {l} == map[] then m - {k}
    else m[k := m[k] - {l}]
  }

  lemma CutInSteps<K, L, X>(m: map<K, map<L, X>>, k: K, l: L)
    requires k in m && l in m[k]
    ensures var m' := m[k := m[k] - {l}];
            Cut(m, k, l) == if m'[k] == map[] then m' - {k} else m'
  {
    var m' := m[k := m[k] - {l}];
    assert m'[k] == map[] ==> m' - {k} == m - {k};
  }

  // ---------- Handlers of the node ----------

  lemma RegisteringSource(w: State, sid: StreamId, s: NodeSpec.Source)
    ensures
      var n' := NodeSpec.RegisterSource(w.node, sid, s).node;
      n'.id == w.node.id && n'.sinkCount == w.node.sinkCount
  {
  }

  ghost function RelayedFrom(n: NodeSpec.NodeState, sid: StreamId, from: NodeId): NodeSpec.NodeState {
    n.(relays := n.relays[sid := NodeSpec.NewRelay(from)])
  }

  lemma RelayingFrom(n: NodeSpec.NodeState, sid: StreamId, from: NodeId)
    ensures RelayedFrom(n, sid, from).id == n.id && RelayedFrom(n, sid, from).sinkCount == n.sinkCount
  {
  }

  lemma Connecting(n: NodeSpec.NodeState, from: NodeId, sid: StreamId)
    ensures
      var n' := NodeSpec.ReceiveConnect(n, from, sid, n.nextStamp);
      n'.id == n.id && n'.sinkCount == n.sinkCount && (sid !in n.sources ==> n' == n)
  {
  }

  lemma RemovingSender(n: NodeSpec.NodeState, sid: StreamId, to: NodeId)
    ensures NodeSpec.OnSenderClosed(n, sid, to) == n.(senders := Cut(n.senders, sid, to))
    ensures sid !in n.senders || to !in n.senders[sid] ==> NodeSpec.OnSenderClosed(n, sid, to) == n
  {
  }

  lemma RemovingSink(n: NodeSpec.NodeState, sid: StreamId, id: SinkId)
    ensures
      var n' := n.(sinks := Cut(n.sinks, sid, id));
      NodeSpec.RemoveSink(n, sid, id) ==
      if sid !in n.sinks || id !in n.sinks[sid] then n
      else if n.sinks[sid] - {id} == map[] then n'.(relays := n'.relays - {sid}) else n'
  {
  }

  // ---------- Handlers of a connection ----------

  lemma PublishRefused(w: State, c: ConnectionId, req: RequestId, sid: StreamId, kind: StreamType, auth: bool)
    requires c in w.conns
    ensures
      var code := Refusal(w, c, req, sid, auth);
      code.Some? ==> ReceivePublish(w, c, req, sid, kind, auth) == Result(Refuse(w, c, req, code.value), None)
  {
  }

  /** Request r of connection c is that of the registered source of the stream. */
  predicate IsOwner(w: State, sid: StreamId, c: ConnectionId, r: RequestId) {
    sid in w.node.sources && w.node.sources[sid].conn == c && w.node.sources[sid].req == r
  }

  /** The tables after an accepted PUBLISH: the new request is there, the old source's is not, and no other
      request has changed. */
  lemma PublishTables(w: State, c: ConnectionId, req: RequestId, sid: StreamId, kind: StreamType)
    requires RequestInvariants.Inv(w) && c in w.conns && req !in w.conns[c].requests
    ensures
      var s := NewSourceFor(w, c, req, kind);
      var w1 := w.(conns := w.conns[c := AddSource(w.conns[c], req, SourceRef(sid, s.stamp))],
                   objects := w.objects[s.stamp := SourceObject(sid, c, req, false)]);
      var conns' := Evict(w1, sid).conns;
      forall c', r :: RequestInvariants.TableSource(conns', c', r) ==
        if c' == c && r == req then Some(SourceRef(sid, s.stamp))
        else if IsOwner(w, sid, c', r) then None
        else RequestInvariants.TableSource(w.conns, c', r)
  {
    var s := NewSourceFor(w, c, req, kind);
    var w1 := w.(conns := w.conns[c := AddSource(w.conns[c], req, SourceRef(sid, s.stamp))],
                 objects := w.objects[s.stamp := SourceObject(sid, c, req, false)]);
    RequestRuns.InvParts(w, sid);
    RequestRuns.UntabledRequest(w, c, req);
    RequestRuns.GoneIsAnother(w, c, req, sid);
    hide RequestInvariants.Inv, RequestInvariants.TableSource, RequestInvariants.RegisteredOK,
         RequestInvariants.ConnsOK;
    hide AddSource, SendSourceClose, CloseObject;
    RequestRuns.TablesAfterPublish(w.conns, c, req, SourceRef(sid, s.stamp), RequestInvariants.SourceAt(w, sid), sid,
                                   Evict(w1, sid).conns);
  }

  /** An accepted PUBLISH: its table first, then the stream's old source, then the registry. */
  lemma PublishInSteps(w: State, c: ConnectionId, req: RequestId, sid: StreamId, kind: StreamType, auth: bool)
    requires RequestInvariants.Inv(w) && c in w.conns && Refusal(w, c, req, sid, auth).None?
    ensures
      var s := NewSourceFor(w, c, req, kind);
      var w1 := w.(conns := w.conns[c := AddSource(w.conns[c], req, SourceRef(sid, s.stamp))],
                   objects := w.objects[s.stamp := SourceObject(sid, c, req, false)]);
      var w2 := Evict(w1, sid);
      && s.stamp !in w.objects && RequestInvariants.RegisteredOK(w1, sid)
      && (sid in w.node.sources ==> w.node.sources[sid].stamp != s.stamp)
      && (forall c', r :: RequestInvariants.TableSource(w2.conns, c', r) ==
            if c' == c && r == req then Some(SourceRef(sid, s.stamp))
            else if IsOwner(w, sid, c', r) then None
            else RequestInvariants.TableSource(w.conns, c', r))
      && ReceivePublish(w, c, req, sid, kind, auth) ==
         Result(w2.(node := NodeSpec.RegisterSource(w2.node, sid, s).node), Some(Broadcast(Info, sid)))
  {
    PublishTables(w, c, req, sid, kind);
    assert RequestInvariants.RegisteredOK(w, sid);
    assert RequestInvariants.ObjectOK(w, w.node.nextStamp);
    RequestRuns.UntabledRequest(w, c, req);
    if sid in w.node.sources {
      var gone := w.node.sources[sid];
      assert RequestInvariants.ObjectOK(w, gone.stamp);
      var o := SourceObject(sid, c, req, false);
      assert w.objects[w.node.nextStamp := o][gone.stamp := w.objects[gone.stamp].(closed := true)] ==
             w.objects[gone.stamp := w.objects[gone.stamp].(closed := true)][w.node.nextStamp := o];
    }
  }

  /** A PLAY: the new sink's id first, then the table, then the registry. */
  lemma PlayInSteps(w: State, c: ConnectionId, req: RequestId, sid: StreamId, auth: bool)
    requires c in w.conns
    ensures
      var code := Refusal(w, c, req, sid, auth);
      var w1 := w.(node := NodeSpec.GetSinkID(w.node));
      var id := SinkId(w.node.sinkCount + 1);
      var w2 := w1.(conns := w1.conns[c := AddSink(w1.conns[c], req, SinkRef(sid, id))],
                    sinkObjects := w1.sinkObjects[id := SinkObject(sid, c, req, false)]);
      var e := NodeSpec.RegisterSink(w2.node, sid, id, NodeSpec.NewSink(c, req));
      ReceivePlay(w, c, req, sid, auth) ==
      if RefusedEarly(code) then Result(Refuse(w, c, req, code.value), None)
      else if code.Some? then Result(Refuse(w1, c, req, code.value), None)
      else Result(w2.(node := e.node), e.pub)
    ensures NodeSpec.GetSinkID(w.node).sinkCount == w.node.sinkCount + 1
  {
  }

  ghost function WithoutConn(w: State, c: ConnectionId): State {
    w.(conns := w.conns - {c})
  }

  /** The requests visited so far, each once. */
  ghost predicate Visited(order: seq<RequestId>, done: set<RequestId>) {
    && (forall i, j | 0 <= i < j < |order| :: order[i] != order[j])
    && (forall r :: r in order <==> r in done)
  }

  lemma CloseNone(w: State, c: ConnectionId)
    requires c in w.conns
    ensures CloseAll(w, c, []) == w
  {
  }

  lemma {:induction false} CloseOneMore(w: State, c: ConnectionId, order: seq<RequestId>, req: RequestId)
    requires c in w.conns
    ensures CloseAll(w, c, order + [req]) == CloseRequest(CloseAll(w, c, order), c, req)
    decreases |order|
  {
    if order == [] {
      assert ([req] + [])[1..] == [];
    } else {
      assert (order + [req])[1..] == order[1..] + [req];
      CloseOneMore(CloseRequest(w, c, order[0]), c, order[1..], req);
    }
  }
}
