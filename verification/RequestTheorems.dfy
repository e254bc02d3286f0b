/**
  Main results about a node and its clients, for every run from its start.
 */
module RequestTheorems {
  import opened Types
  import opened NodeSpec
  import opened Requests
  import opened RequestInvariants
  import opened RequestRuns
  import StreamSpec
  import NodeInvariants

  // ---------- Every transition keeps the links ----------

  lemma PublishKeepsInv(w: State, c: ConnectionId, req: RequestId, sid: StreamId, kind: StreamType, auth: bool)
    requires Inv(w) && c in w.conns
    ensures Inv(ReceivePublish(w, c, req, sid, kind, auth).state)
  {
    hide Replaces, SameSinks, SourcesLinked, SinksLinked, ConnsOK;
    var code := Refusal(w, c, req, sid, auth);
    if code.Some? {
      RefuseKeeps(w, c, req, code.value);
    } else {
      var w' := ReceivePublish(w, c, req, sid, kind, auth).state;
      PublishReplaces(w, c, req, sid, kind, auth);
      ReplaceKeepsLinks(w, w', sid, NewSourceFor(w, c, req, kind));
      SameSinksLinked(w, w');
      PublishKeepsTables(w, c, req, sid, kind, auth);
    }
  }

  lemma TakingIdKeepsInv(w: State)
    requires Inv(w)
    ensures Inv(w.(node := GetSinkID(w.node)))
  {
    var w' := w.(node := GetSinkID(w.node));
    assert forall sid :: SinksAt(w'.node, sid) == SinksAt(w.node, sid);
    SameSourcesLinked(w, w');
    SameSinksLinked(w, w');
  }

  lemma PlayKeepsInv(w: State, c: ConnectionId, req: RequestId, sid: StreamId, auth: bool)
    requires Inv(w) && c in w.conns
    ensures Inv(ReceivePlay(w, c, req, sid, auth).state)
  {
    hide SameSources, AddsSink, SourcesLinked, SinksLinked, ConnsOK;
    var code := Refusal(w, c, req, sid, auth);
    if code.None? {
      var w' := ReceivePlay(w, c, req, sid, auth).state;
      PlayAdds(w, c, req, sid, auth);
      SameSourcesLinked(w, w');
      AddSinkKeepsLinks(w, w', sid, SinkId(w.node.sinkCount + 1), c, req);
      PlayKeepsTables(w, c, req, sid, auth);
    } else if RefusedEarly(code) {
      RefuseKeeps(w, c, req, code.value);
    } else {
      TakingIdKeepsInv(w);
      RefuseKeeps(w.(node := GetSinkID(w.node)), c, req, code.value);
    }
  }

  lemma LostKeepsInv(w: State, stamp: nat)
    requires Inv(w) && stamp in w.objects
    ensures Inv(SourceLost(w, stamp))
  {
    hide Unlinks, SameSinks, SourcesLinked, SinksLinked, ConnsOK;
    if !w.objects[stamp].closed {
      var w' := SourceLost(w, stamp);
      LostUnlinks(w, stamp);
      UnlinkKeepsLinks(w, w', w.objects[stamp].sid);
      SameSinksLinked(w, w');
    }
  }

  lemma InfoKeepsInv(w: State, from: NodeId, sid: StreamId)
    requires Inv(w)
    ensures Inv(ReceiveInfoMessage(w, from, sid).state)
  {
    hide Unlinks, SameSinks, SourcesLinked, SinksLinked, ConnsOK;
    var w' := ReceiveInfoMessage(w, from, sid).state;
    InfoUnlinks(w, from, sid);
    UnlinkKeepsLinks(w, w', sid);
    SameSinksLinked(w, w');
  }

  lemma InternalKeepsInv(w: State, step: Step)
    requires Inv(w) && StreamSpec.Tidy(w.node) && IsInternal(step) && Possible(w.node, step)
    ensures Inv(w.(node := Apply(w.node, step).node))
  {
    hide SameSources, SameSinks, SourcesLinked, SinksLinked;
    var w' := w.(node := Apply(w.node, step).node);
    InternalKeepsLinks(w, step);
    SameSourcesLinked(w, w');
    SameSinksLinked(w, w');
  }

  lemma OpenKeepsInv(w: State, c: ConnectionId)
    requires Inv(w) && c !in w.conns
    ensures Inv(w.(conns := w.conns[c := NEW_CONN]))
  {
    var w' := w.(conns := w.conns[c := NEW_CONN]);
    SameSourcesLinked(w, w');
    SameSinksLinked(w, w');
  }

  lemma EndKeepsInv(w: State, c: ConnectionId, order: seq<RequestId>)
    requires Inv(w) && c in w.conns && IsOrderOf(order, w.conns[c].requests.Keys)
    ensures Inv(Next(w, EndConn(c, order)).state)
  {
    TeardownLeavesNothing(w, c, order);
    CloseAllEmpties(w, c, order);
    ForgetEmptyConn(CloseAll(w, c, order), c);
  }

  lemma ForgetEmptyConn(w: State, c: ConnectionId)
    requires Inv(w) && c in w.conns && w.conns[c].sources == map[] && w.conns[c].sinks == map[]
    ensures Inv(w.(conns := w.conns - {c}))
  {
    var w' := w.(conns := w.conns - {c});
    SameSourcesLinked(w, w');
    SameSinksLinked(w, w');
  }

  // ---------- Every transition is a run of the node ----------

  /** The node steps behind closing the requests of a connection in the given order. */
  function CloseSteps(w: State, c: ConnectionId, order: seq<RequestId>): seq<Step>
    requires c in w.conns
    decreases |order|
  {
    if order == [] then [] else CloseStep(w, c, order[0]) + CloseSteps(CloseRequest(w, c, order[0]), c, order[1..])
  }

  function CloseStep(w: State, c: ConnectionId, req: RequestId): seq<Step>
    requires c in w.conns
  {
    var conn := w.conns[c];
    if req !in conn.requests then []
    else if conn.requests[req].PublishRequest? then
      if req in conn.sources then [SourceClosedStep(conn.sources[req].sid)] else []
    else
      if req in conn.sinks then [RemoveSinkStep(conn.sinks[req].sid, conn.sinks[req].id)] else []
  }

  /** The node steps behind a transition. */
  function NodeSteps(w: State, v: Move): seq<Step>
    requires CanMove(w, v)
  {
    match v
    case OpenConn(c) => []
    case Publish(c, req, sid, kind, auth) =>
      if Refusal(w, c, req, sid, auth).Some? then []
      else [RegisterSourceStep(sid, NewSourceFor(w, c, req, kind))]
    case Play(c, req, sid, auth) =>
      var code := Refusal(w, c, req, sid, auth);
      if RefusedEarly(code) then []
      else if code.Some? then [GetSinkIDStep]
      else [GetSinkIDStep, RegisterSinkStep(sid, SinkId(w.node.sinkCount + 1), NewSink(c, req))]
    case Close(c, req) => CloseStep(w, c, req)
    case Lost(stamp) => if w.objects[stamp].closed then [] else [SourceClosedStep(w.objects[stamp].sid)]
    case InfoFrom(from, sid) => [InfoStep(from, sid)]
    case EndConn(c, order) => CloseSteps(w, c, order)
    case Internal(step) => [step]
  }

  /** `steps` is a run from n, of steps that can happen, that ends in n' and publishes `pub`. */
  ghost predicate RunsTo(n: NodeState, steps: seq<Step>, n': NodeState, pub: Option<Publication>) {
    NodeInvariants.Happens(n, steps) && NodeInvariants.CanRun(n, steps) &&
    NodeInvariants.Run(n, steps) == NodeInvariants.Outcome(n', Maybe(pub))
  }

  lemma OneStepRuns(n: NodeState, step: Step)
    requires NodeInvariants.CanHappen(n, step)
    ensures RunsTo(n, [step], Apply(n, step).node, Apply(n, step).pub)
  {
    var n' := Apply(n, step).node;
    assert [step][1..] == [];
    assert NodeInvariants.Happens(n', []) && NodeInvariants.CanRun(n', []);
    assert NodeInvariants.Run(n', []) == NodeInvariants.Outcome(n', []);
    var maybe := Maybe(Apply(n, step).pub);
    assert maybe + [] == maybe;
  }

  lemma NoStepsRun(n: NodeState)
    ensures RunsTo(n, [], n, None)
  {
  }

  lemma PlayRuns(n: NodeState, sid: StreamId, k: Sink)
    requires NodeInvariants.StartsNew(RegisterSinkStep(sid, SinkId(n.sinkCount + 1), k))
    ensures
      var e := RegisterSink(GetSinkID(n), sid, SinkId(n.sinkCount + 1), k);
      RunsTo(n, [GetSinkIDStep, RegisterSinkStep(sid, SinkId(n.sinkCount + 1), k)], e.node, e.pub)
  {
    var second := RegisterSinkStep(sid, SinkId(n.sinkCount + 1), k);
    var n1 := GetSinkID(n);
    OneStepRuns(n1, second);
    assert [GetSinkIDStep, second][1..] == [second];
    var maybe := Maybe(Apply(n1, second).pub);
    assert [] + maybe == maybe;
  }

  lemma CloseRuns(w: State, c: ConnectionId, req: RequestId)
    requires Inv(w) && c in w.conns
    ensures RunsTo(w.node, CloseStep(w, c, req), CloseRequest(w, c, req).node, None)
  {
    hide RunsTo;
    NoStepsRun(w.node);
    if req in w.conns[c].sources {
      ClosePublishUnlinks(w, c, req);
      assert ConnOK(w.conns[c]);
      OneStepRuns(w.node, SourceClosedStep(w.conns[c].sources[req].sid));
    } else if req in w.conns[c].sinks {
      assert ConnOK(w.conns[c]);
      OneStepRuns(w.node, RemoveSinkStep(w.conns[c].sinks[req].sid, w.conns[c].sinks[req].id));
    } else {
      assert ConnOK(w.conns[c]);
    }
  }

  lemma {:induction false} RunsAppend(n: NodeState, a: seq<Step>, m: NodeState, b: seq<Step>, o: NodeState)
    requires RunsTo(n, a, m, None) && RunsTo(m, b, o, None)
    ensures RunsTo(n, a + b, o, None)
    decreases |a|
  {
    hide Apply, Possible, NodeInvariants.CanHappen;
    if a == [] {
      assert a + b == b;
    } else {
      var first := Apply(n, a[0]);
      assert first.pub.None?;
      RunsAppend(first.node, a[1..], m, b, o);
      assert (a + b)[1..] == a[1..] + b;
    }
  }

  lemma {:induction false} CloseAllRuns(w: State, c: ConnectionId, order: seq<RequestId>)
    requires Inv(w) && c in w.conns
    ensures RunsTo(w.node, CloseSteps(w, c, order), CloseAll(w, c, order).node, None)
    decreases |order|
  {
    hide RunsTo;
    if order == [] {
      NoStepsRun(w.node);
    } else {
      var w1 := CloseRequest(w, c, order[0]);
      CloseRuns(w, c, order[0]);
      CloseKeepsInv(w, c, order[0]);
      CloseAllRuns(w1, c, order[1..]);
      RunsAppend(w.node, CloseStep(w, c, order[0]), w1.node, CloseSteps(w1, c, order[1..]), CloseAll(w, c, order).node);
    }
  }

  lemma LostRuns(w: State, stamp: nat)
    requires Inv(w) && stamp in w.objects
    ensures RunsTo(w.node, if w.objects[stamp].closed then [] else [SourceClosedStep(w.objects[stamp].sid)],
                   SourceLost(w, stamp).node, None)
  {
    hide RunsTo;
    if w.objects[stamp].closed {
      NoStepsRun(w.node);
    } else {
      LostUnlinks(w, stamp);
      OneStepRuns(w.node, SourceClosedStep(w.objects[stamp].sid));
    }
  }

  /** What a transition does to the node's registries is a run of node steps, with the same publications. */
  lemma TransitionsAreNodeRuns(w: State, v: Move)
    requires Inv(w) && CanMove(w, v)
    ensures RunsTo(w.node, NodeSteps(w, v), Next(w, v).state.node, Next(w, v).pub)
  {
    hide RunsTo, Inv;
    NoStepsRun(w.node);
    match v
    case OpenConn(c) =>
    case Publish(c, req, sid, kind, auth) =>
      if Refusal(w, c, req, sid, auth).None? {
        OneStepRuns(w.node, RegisterSourceStep(sid, NewSourceFor(w, c, req, kind)));
      }
    case Play(c, req, sid, auth) =>
      OneStepRuns(w.node, GetSinkIDStep);
      PlayRuns(w.node, sid, NewSink(c, req));
    case Close(c, req) => CloseRuns(w, c, req);
    case Lost(stamp) => LostRuns(w, stamp);
    case InfoFrom(from, sid) => OneStepRuns(w.node, InfoStep(from, sid));
    case EndConn(c, order) => CloseAllRuns(w, c, order);
    case Internal(step) => OneStepRuns(w.node, step);
  }

  lemma {:induction false} ClosingIsPresent(w: State, c: ConnectionId, order: seq<RequestId>)
    requires c in w.conns
    ensures forall s | s in CloseSteps(w, c, order) :: NodeInvariants.IsPresent(s)
    decreases |order|
  {
    if order != [] {
      ClosingIsPresent(CloseRequest(w, c, order[0]), c, order[1..]);
    }
  }

  /** A transition that a client, a lost publisher or an INFO causes is a lawful run of the node. */
  lemma RequestsAreLawful(w: State, v: Move)
    requires Inv(w) && CanMove(w, v) && !v.Internal?
    ensures NodeInvariants.IsRun(w.node, NodeSteps(w, v))
  {
    TransitionsAreNodeRuns(w, v);
    if v.EndConn? { ClosingIsPresent(w, v.c, v.order); }
    NodeInvariants.PresentRunsAreLawful(w.node, NodeSteps(w, v));
  }

  // ---------- Runs ----------

  /** Every transition keeps the invariants of tables, links and registries. */
  lemma MoveKeepsAllOK(w: State, v: Move)
    requires AllOK(w) && CanMove(w, v)
    ensures AllOK(Next(w, v).state)
  {
    TransitionsAreNodeRuns(w, v);
    NodeInvariants.RunKeepsOpenInv(w.node, NodeSteps(w, v));
    MoveKeepsInv(w, v);
  }

  lemma MoveKeepsInv(w: State, v: Move)
    requires AllOK(w) && CanMove(w, v)
    ensures Inv(Next(w, v).state)
  {
    hide Inv, NodeInvariants.OpenInv;
    match v
    case OpenConn(c) => OpenKeepsInv(w, c);
    case Publish(c, req, sid, kind, auth) => PublishKeepsInv(w, c, req, sid, kind, auth);
    case Play(c, req, sid, auth) => PlayKeepsInv(w, c, req, sid, auth);
    case Close(c, req) => CloseKeepsInv(w, c, req);
    case Lost(stamp) => LostKeepsInv(w, stamp);
    case InfoFrom(from, sid) => InfoKeepsInv(w, from, sid);
    case EndConn(c, order) => EndKeepsInv(w, c, order);
    case Internal(step) =>
      TidyOf(w);
      InternalKeepsInv(w, step);
  }

  lemma TidyOf(w: State)
    requires AllOK(w)
    ensures StreamSpec.Tidy(w.node)
  {
  }

  function Start(id: NodeId, limit: nat): State {
    State(Init(id), map[], map[], map[], limit)
  }

  ghost predicate IsRun(w: State, moves: seq<Move>)
    decreases |moves|
  {
    moves != [] ==> CanMove(w, moves[0]) && IsRun(Next(w, moves[0]).state, moves[1..])
  }

  function Run(w: State, moves: seq<Move>): State
    requires IsRun(w, moves)
    decreases |moves|
  {
    if moves == [] then w else Run(Next(w, moves[0]).state, moves[1..])
  }

  lemma {:induction false} RunKeepsAllOK(w: State, moves: seq<Move>)
    requires AllOK(w) && IsRun(w, moves)
    ensures AllOK(Run(w, moves))
    decreases |moves|
  {
    if moves != [] {
      MoveKeepsAllOK(w, moves[0]);
      RunKeepsAllOK(Next(w, moves[0]).state, moves[1..]);
    }
  }

  lemma {:induction false} RunThen(w: State, moves: seq<Move>, v: Move)
    requires IsRun(w, moves) && CanMove(Run(w, moves), v)
    ensures IsRun(w, moves + [v]) && Run(w, moves + [v]) == Next(Run(w, moves), v).state
    decreases |moves|
  {
    hide CanMove, Next;
    if moves == [] {
      assert [] + [v] == [v] && [v][1..] == [];
      var w1 := Next(w, v).state;
      assert IsRun(w1, []) && Run(w1, []) == w1;
    } else {
      RunThen(Next(w, moves[0]).state, moves[1..], v);
      assert (moves + [v])[1..] == moves[1..] + [v];
    }
  }

  ghost predicate Reachable(w: State) {
    exists id, limit: nat, moves :: IsRun(Start(id, limit), moves) && w == Run(Start(id, limit), moves)
  }

  lemma ReachableThen(w: State, v: Move)
    requires Reachable(w) && CanMove(w, v)
    ensures Reachable(Next(w, v).state)
  {
    hide CanMove, Next;
    var id, limit: nat, moves :| IsRun(Start(id, limit), moves) && w == Run(Start(id, limit), moves);
    RunThen(Start(id, limit), moves, v);
  }

  lemma StartOK(id: NodeId, limit: nat)
    ensures AllOK(Start(id, limit))
  {
    NodeInvariants.InitInv(id);
    NodeInvariants.InvIsOpenInv(Init(id));
  }

  lemma ReachableOK(w: State)
    requires Reachable(w)
    ensures AllOK(w)
  {
    var id, limit: nat, moves :| IsRun(Start(id, limit), moves) && w == Run(Start(id, limit), moves);
    StartOK(id, limit);
    RunKeepsAllOK(Start(id, limit), moves);
  }

  // ---------- One object, one entry, one request ----------

  /** In every reachable state a source object is open exactly while it is its stream's registered source,
      and exactly while it is the source of its request in its connection's table. */
  lemma OpenSourcesAreLinked(w: State, stamp: nat)
    requires Reachable(w) && stamp in w.objects
    ensures
      var o := w.objects[stamp];
      && (!o.closed <==> o.sid in w.node.sources && w.node.sources[o.sid].stamp == stamp)
      && (!o.closed <==> SourceIn(w, o.conn, o.req) == Some(SourceRef(o.sid, stamp)))
  {
    ReachableOK(w);
    var o := w.objects[stamp];
    assert ObjectOK(w, stamp) && RegisteredOK(w, o.sid) && TabledOK(w, o.conn, o.req);
  }

  /** In every reachable state a sink object is open exactly while it is registered, and exactly while it is the
      sink of its request in its connection's table. */
  lemma OpenSinksAreLinked(w: State, id: SinkId)
    requires Reachable(w) && id in w.sinkObjects
    ensures
      var o := w.sinkObjects[id];
      && (!o.closed <==> id in SinksAt(w.node, o.sid))
      && (!o.closed <==> SinkIn(w, o.conn, o.req) == Some(SinkRef(o.sid, id)))
  {
    ReachableOK(w);
    var o := w.sinkObjects[id];
    assert SinkObjectOK(w, id) && SinkRegisteredOK(w, o.sid, id) && SinkTabledOK(w, o.conn, o.req);
  }

  /** In every reachable state a sink is registered exactly while it is the sink of its request, and then it is
      an open sink object. */
  lemma RegisteredSinksAreLinked(w: State, sid: StreamId, id: SinkId, c: ConnectionId, r: RequestId)
    requires Reachable(w)
    ensures
      SinkIn(w, c, r) == Some(SinkRef(sid, id)) <==>
      id in SinksAt(w.node, sid) && SinksAt(w.node, sid)[id].conn == c && SinksAt(w.node, sid)[id].req == r
    ensures id in SinksAt(w.node, sid) ==>
              var k := SinksAt(w.node, sid)[id];
              Lookup(w.sinkObjects, id) == Some(SinkObject(sid, k.conn, k.req, false)) && !k.closed
  {
    ReachableOK(w);
    assert SinkTabledOK(w, c, r) && SinkRegisteredOK(w, sid, id);
    assert NodeInvariants.OpenOK(StreamSpec.SliceOf(w.node, sid));
  }

  /** The unconditional deletes of onSourceClosed and of a CLOSE remove the closing object's own entries. */
  lemma ClosingDeletesItsOwnEntry(w: State, stamp: nat)
    requires Reachable(w) && stamp in w.objects && !w.objects[stamp].closed
    ensures
      var o := w.objects[stamp];
      var w' := SourceLost(w, stamp);
      && o.sid in w.node.sources && w.node.sources[o.sid].stamp == stamp
      && w'.node.sources == w.node.sources - {o.sid}
      && o.conn in w.conns && o.req in w.conns[o.conn].requests
      && w'.conns[o.conn].requests == w.conns[o.conn].requests - {o.req}
      && (forall c | c in w.conns && c != o.conn :: w'.conns[c] == w.conns[c])
      && w'.objects[stamp].closed
  {
    ReachableOK(w);
    OpenSourcesAreLinked(w, stamp);
    var o := w.objects[stamp];
    assert SourceIn(w, o.conn, o.req).Some? && ConnOK(w.conns[o.conn]);
  }

  // ---------- Accounting ----------

  /** In every reachable state the request table of a connection splits by kind into sources and sinks, and,
      unless the limit is the largest uint32, the count is its size and is at most one above the limit. */
  lemma RequestCountsAreExact(w: State, c: ConnectionId)
    requires Reachable(w) && c in w.conns
    ensures
      var conn := w.conns[c];
      && conn.requests.Keys == conn.sources.Keys + conn.sinks.Keys && conn.sources.Keys !! conn.sinks.Keys
      && (forall r | r in conn.requests :: conn.requests[r].PublishRequest? <==> r in conn.sources)
      && conn.requestCount == |conn.requests| % UINT32
      && (w.limit < UINT32 - 1 ==> conn.requestCount == |conn.requests| <= w.limit + 1)
  {
    ReachableOK(w);
    ConnSplits(w.conns[c]);
    if w.limit < UINT32 - 1 {
      assert |w.conns[c].requests| <= w.limit + 1;
      SmallRemainder(|w.conns[c].requests|);
    }
  }

  lemma SmallRemainder(n: nat)
    requires n < UINT32
    ensures n % UINT32 == n
  {
  }

  lemma ConnSplits(c: Conn)
    requires ConnOK(c)
    ensures c.requests.Keys == c.sources.Keys + c.sinks.Keys && c.sources.Keys !! c.sinks.Keys
    ensures forall r | r in c.requests :: c.requests[r].PublishRequest? <==> r in c.sources
  {
    forall r | r in c.requests ensures r in c.sources.Keys + c.sinks.Keys {
      assert c.requests[r].PublishRequest? || c.requests[r].PlayRequest?;
    }
  }

  /** Every request of every connection, as (connection, request id). */
  function AllRequests(w: State): set<(ConnectionId, RequestId)> {
    set c, r | c in w.conns && r in w.conns[c].requests :: (c, r)
  }

  function SourceRequests(w: State): set<(ConnectionId, RequestId)> {
    set sid | sid in w.node.sources :: (w.node.sources[sid].conn, w.node.sources[sid].req)
  }

  /** Every registered sink, as (stream, sink id). */
  function AllSinks(n: NodeState): set<(StreamId, SinkId)> {
    set sid, id | sid in n.sinks && id in n.sinks[sid] :: (sid, id)
  }

  function SinkRequests(w: State): set<(ConnectionId, RequestId)> {
    set p | p in AllSinks(w.node) :: (w.node.sinks[p.0][p.1].conn, w.node.sinks[p.0][p.1].req)
  }

  /** A set and its image under an injective map have the same size. */
  lemma {:induction false} SameSize<A, B>(m: map<A, B>)
    requires forall a, b | a in m && b in m && m[a] == m[b] :: a == b
    ensures |m.Keys| == |m.Values|
  {
    if m == map[] {
      assert m.Values == {};
    } else {
      var k :| k in m;
      var rest := m - {k};
      assert m.Keys == rest.Keys + {k};
      assert m.Values == rest.Values + {m[k]};
      SameSize(rest);
    }
  }

  /** The requests of a connection, over all connections, are the registered sources and sinks: each request
      is one object and each object one request. */
  lemma RequestsAreObjects(w: State)
    requires Reachable(w)
    ensures AllRequests(w) == SourceRequests(w) + SinkRequests(w)
    ensures |AllRequests(w)| == |w.node.sources| + |AllSinks(w.node)|
  {
    ReachableOK(w);
    RequestsSplit(w);
    SourcesCounted(w);
    SinksCounted(w);
  }

  lemma RequestsSplit(w: State)
    requires Inv(w)
    ensures AllRequests(w) == SourceRequests(w) + SinkRequests(w)
    ensures SourceRequests(w) !! SinkRequests(w)
  {
    forall p | p in AllRequests(w) ensures p in SourceRequests(w) + SinkRequests(w) {
      RequestIsObject(w, p.0, p.1);
    }
    forall p | p in SourceRequests(w) ensures p in AllRequests(w) && p !in SinkRequests(w) {
      var sid :| sid in w.node.sources && p == (w.node.sources[sid].conn, w.node.sources[sid].req);
      assert RegisteredOK(w, sid);
      assert ConnOK(w.conns[p.0]);
      if p in SinkRequests(w) { SinkIsRequest(w, p); }
    }
    forall p | p in SinkRequests(w) ensures p in AllRequests(w) {
      SinkIsRequest(w, p);
    }
  }

  lemma RequestIsObject(w: State, c: ConnectionId, r: RequestId)
    requires Inv(w) && c in w.conns && r in w.conns[c].requests
    ensures (c, r) in SourceRequests(w) || (c, r) in SinkRequests(w)
  {
    assert ConnOK(w.conns[c]);
    if r in w.conns[c].sources {
      assert TabledOK(w, c, r);
    } else {
      assert SinkTabledOK(w, c, r);
      var ref := w.conns[c].sinks[r];
      assert (ref.sid, ref.id) in AllSinks(w.node);
    }
  }

  lemma SinkIsRequest(w: State, p: (ConnectionId, RequestId))
    requires Inv(w) && p in SinkRequests(w)
    ensures p in AllRequests(w) && p.1 in w.conns[p.0].sinks && p.1 !in w.conns[p.0].sources
  {
    var q :| q in AllSinks(w.node) && p == (w.node.sinks[q.0][q.1].conn, w.node.sinks[q.0][q.1].req);
    assert SinkRegisteredOK(w, q.0, q.1);
    assert ConnOK(w.conns[p.0]);
  }

  lemma SourcesCounted(w: State)
    requires Inv(w)
    ensures |SourceRequests(w)| == |w.node.sources|
  {
    var m := map sid | sid in w.node.sources :: (w.node.sources[sid].conn, w.node.sources[sid].req);
    forall a, b | a in m && b in m && m[a] == m[b] ensures a == b {
      assert RegisteredOK(w, a) && RegisteredOK(w, b);
    }
    SameSize(m);
    assert m.Keys == w.node.sources.Keys && m.Values == SourceRequests(w);
  }

  lemma SinksCounted(w: State)
    requires Inv(w)
    ensures |SinkRequests(w)| == |AllSinks(w.node)|
  {
    var m := map p | p in AllSinks(w.node) :: (w.node.sinks[p.0][p.1].conn, w.node.sinks[p.0][p.1].req);
    forall a, b | a in m && b in m && m[a] == m[b] ensures a == b {
      assert SinkRegisteredOK(w, a.0, a.1) && SinkRegisteredOK(w, b.0, b.1);
    }
    SameSize(m);
    assert m.Keys == AllSinks(w.node) && m.Values == SinkRequests(w);
  }

  ghost function Pick<K, V>(m: map<K, V>): (k: K)
    requires m != map[]
    ensures k in m
  {
    var k :| k in m;
    k
  }

  /** The sum of the request counts of all connections. */
  ghost function TotalCount(conns: map<ConnectionId, Conn>): nat
    decreases conns.Keys
  {
    if conns == map[] then 0
    else
      var c := Pick(conns);
      conns[c].requestCount + TotalCount(conns - {c})
  }

  function RequestsIn(conns: map<ConnectionId, Conn>): set<(ConnectionId, RequestId)> {
    set c, r | c in conns && r in conns[c].requests :: (c, r)
  }

  lemma RequestsWithout(conns: map<ConnectionId, Conn>, c: ConnectionId)
    requires c in conns
    ensures |RequestsIn(conns)| == |conns[c].requests| + |RequestsIn(conns - {c})|
  {
    var mine := map r | r in conns[c].requests :: (c, r);
    SameSize(mine);
    assert mine.Keys == conns[c].requests.Keys;
    var rest := RequestsIn(conns - {c});
    forall p ensures p in RequestsIn(conns) <==> p in mine.Values || p in rest {
      if p.0 == c && p in RequestsIn(conns) { assert mine[p.1] == p; }
    }
    assert RequestsIn(conns) == mine.Values + rest;
  }

  lemma {:induction false} TotalIsSize(conns: map<ConnectionId, Conn>)
    requires forall c | c in conns :: conns[c].requestCount == |conns[c].requests|
    ensures TotalCount(conns) == |RequestsIn(conns)|
    decreases conns.Keys
  {
    if conns != map[] {
      var c := Pick(conns);
      RequestsWithout(conns, c);
      TotalIsSize(conns - {c});
    }
  }

  predicate Congruent(a: int, b: int) {
    a % UINT32 == b % UINT32
  }

  lemma EqualIsCongruent(a: int, b: int)
    requires a == b || a == b % UINT32
    ensures Congruent(a, b)
  {
  }

  lemma CongruentSum(a: int, b: int, c: int, d: int)
    requires Congruent(a, b) && Congruent(c, d)
    ensures Congruent(a + c, b + d)
  {
  }

  /** Counts that are exact modulo 2^32 add up to the number of requests modulo 2^32. */
  lemma {:induction false} TotalIsSizeModulo(conns: map<ConnectionId, Conn>)
    requires forall c | c in conns :: Congruent(conns[c].requestCount, |conns[c].requests|)
    ensures Congruent(TotalCount(conns), |RequestsIn(conns)|)
    decreases conns.Keys
  {
    hide Congruent;
    if conns == map[] {
      assert RequestsIn(conns) == {};
      EqualIsCongruent(TotalCount(conns), |RequestsIn(conns)|);
    } else {
      var c := Pick(conns);
      RequestsWithout(conns, c);
      TotalIsSizeModulo(conns - {c});
      CongruentSum(conns[c].requestCount, |conns[c].requests|, TotalCount(conns - {c}), |RequestsIn(conns - {c})|);
    }
  }

  lemma TotalIsTheRequests(w: State)
    requires Reachable(w)
    ensures Congruent(TotalCount(w.conns), |AllRequests(w)|)
    ensures w.limit < UINT32 - 1 ==> TotalCount(w.conns) == |AllRequests(w)|
  {
    hide Reachable, TotalCount;
    forall c | c in w.conns
      ensures Congruent(w.conns[c].requestCount, |w.conns[c].requests|)
      ensures w.limit < UINT32 - 1 ==> w.conns[c].requestCount == |w.conns[c].requests|
    {
      CountIsCongruent(w, c);
    }
    TotalIsSizeModulo(w.conns);
    if w.limit < UINT32 - 1 { TotalIsSize(w.conns); }
    assert RequestsIn(w.conns) == AllRequests(w);
  }

  lemma CountIsCongruent(w: State, c: ConnectionId)
    requires Reachable(w) && c in w.conns
    ensures Congruent(w.conns[c].requestCount, |w.conns[c].requests|)
    ensures w.limit < UINT32 - 1 ==> w.conns[c].requestCount == |w.conns[c].requests|
  {
    hide Congruent, Reachable;
    RequestCountsAreExact(w, c);
    EqualIsCongruent(w.conns[c].requestCount, |w.conns[c].requests|);
  }

  /** Conservation: in every reachable state the request counts of all connections add up, modulo 2^32, to the
      number of registered sources plus the number of registered sinks; and, unless the limit is the largest
      uint32, they add up to it exactly. */
  lemma CountsAreConserved(w: State)
    requires Reachable(w)
    ensures TotalCount(w.conns) % UINT32 == (|w.node.sources| + |AllSinks(w.node)|) % UINT32
    ensures w.limit < UINT32 - 1 ==> TotalCount(w.conns) == |w.node.sources| + |AllSinks(w.node)|
  {
    hide Reachable, TotalCount, RequestsIn, AllSinks, UINT32;
    TotalIsTheRequests(w);
    RequestsAreObjects(w);
  }
}
