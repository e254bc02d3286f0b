/**
  States that the whole network reaches by what clients, media and messages do, and in which viewers get
  nothing: a lost sender that nobody asks for again, and a late reply that turns a relay away from the host.
 */
module FullLimits {
  import opened Types
  import opened Requests
  import opened FullNetwork
  import opened NetworkLimits
  import NodeSpec
  import NodeInvariants
  import StreamSpec
  import Network
  import NetworkTheorems
  import RelayLimits
  import Serving
  import RequestRuns
  import RequestTheorems

  // ---------- Runs ----------

  /** Reached from the start by a run in which no object that has left delivers tracks. */
  ghost predicate Reached(ids: seq<NodeId>, limit: nat, x: Full) {
    exists steps ::
      && IsRun(Start(ids, limit), steps) && IsLawfulRun(Start(ids, limit), steps)
      && x == Run(Start(ids, limit), steps)
  }

  lemma {:induction false} RunThenStep(x: Full, steps: seq<FullStep>, s: FullStep)
    requires IsRun(x, steps) && IsLawfulRun(x, steps)
    requires CanStep(Run(x, steps), s) && FullNetwork.IsLawful(Run(x, steps), s)
    ensures
      && IsRun(x, steps + [s]) && IsLawfulRun(x, steps + [s])
      && Run(x, steps + [s]) == Next(Run(x, steps), s)
    decreases |steps|
  {
    hide CanStep, Next, FullNetwork.IsLawful;
    if steps == [] {
      assert [] + [s] == [s] && [s][1..] == [];
      var x1 := Next(x, s);
      assert IsRun(x1, []) && Run(x1, []) == x1 && IsLawfulRun(x1, []);
    } else {
      RunThenStep(Next(x, steps[0]), steps[1..], s);
      assert (steps + [s])[1..] == steps[1..] + [s];
    }
  }

  lemma ReachedThen(ids: seq<NodeId>, limit: nat, x: Full, s: FullStep)
    requires Reached(ids, limit, x) && CanStep(x, s) && FullNetwork.IsLawful(x, s)
    ensures Reached(ids, limit, Next(x, s))
  {
    hide CanStep, Next, FullNetwork.IsLawful;
    var steps :| && IsRun(Start(ids, limit), steps) && IsLawfulRun(Start(ids, limit), steps)
                 && x == Run(Start(ids, limit), steps);
    RunThenStep(Start(ids, limit), steps, s);
  }

  lemma ReachedOK(ids: seq<NodeId>, limit: nat, x: Full)
    requires Reached(ids, limit, x)
    ensures FullInv(x) && NetworkTheorems.LawfullyReachable(View(x)) && NetworkTheorems.Reachable(View(x))
  {
    hide CanStep, Next, FullInv, View;
    var steps :| && IsRun(Start(ids, limit), steps) && IsLawfulRun(Start(ids, limit), steps)
                 && x == Run(Start(ids, limit), steps);
    StartFullInv(ids, limit);
    RunFollows(Start(ids, limit), steps, true);
    FullRunsAreRuns(ids, limit, steps);
  }

  // ---------- Clients connect ----------

  /** A client is connected to the node and has asked for nothing, and the node hosts nothing. */
  ghost predicate Idle(x: Full, at: NodeId) {
    && at in x.nodes && x.nodes[at].node.sources == map[]
    && 0 in x.nodes[at].conns && x.nodes[at].conns[0] == NEW_CONN
  }

  /** The nodes other than `at` are as they were. */
  predicate OthersSame(x: Full, x': Full, at: NodeId) {
    x'.nodes.Keys == x.nodes.Keys && forall b | b in x.nodes && b != at :: x'.nodes[b] == x.nodes[b]
  }

  lemma Joins(ids: seq<NodeId>, limit: nat, x: Full, at: NodeId) returns (x': Full)
    requires Reached(ids, limit, x) && at in x.nodes && 0 !in x.nodes[at].conns
    ensures Reached(ids, limit, x') && View(x') == View(x) && OthersSame(x, x', at)
    ensures x'.nodes[at] == x.nodes[at].(conns := x.nodes[at].conns[0 := NEW_CONN])
  {
    var s := Client(at, RequestRuns.OpenConn(0));
    x' := Next(x, s);
    ReachedThen(ids, limit, x, s);
    assert x.bag + [] == x.bag && x.faults + {} == x.faults;
    assert View(x').nodes == View(x).nodes;
  }

  lemma {:induction false} Gathered(ids: seq<NodeId>, limit: nat, some: seq<NodeId>) returns (x: Full)
    requires forall a | a in some :: a in ids
    ensures Reached(ids, limit, x) && View(x) == NetworkTheorems.Start(ids)
    ensures forall a | a in some :: Idle(x, a)
    ensures forall a | a in ids && a !in some :: a in x.nodes && x.nodes[a].conns == map[]
    decreases |some|
  {
    hide CanStep, Next, Reached;
    if some == [] {
      x := Start(ids, limit);
      StartIsReached(ids, limit);
      StartFullInv(ids, limit);
    } else {
      var before := Gathered(ids, limit, some[1..]);
      x := before;
      if some[0] !in some[1..] {
        NodesAreThere(ids, before, some[0]);
        x := Joins(ids, limit, before, some[0]);
      }
      forall a | a in some ensures Idle(x, a) {
        assert a == some[0] || a in some[1..];
        NodesAreThere(ids, x, a);
      }
    }
  }

  lemma StartIsReached(ids: seq<NodeId>, limit: nat)
    ensures Reached(ids, limit, Start(ids, limit))
  {
    assert IsRun(Start(ids, limit), []) && IsLawfulRun(Start(ids, limit), []);
  }

  lemma NodesAreThere(ids: seq<NodeId>, x: Full, a: NodeId)
    requires View(x) == NetworkTheorems.Start(ids) && a in ids
    ensures a in x.nodes && x.nodes[a].node == NodeSpec.Init(a)
  {
    assert a in View(x).nodes;
  }

  // ---------- Clients publish and play ----------

  /** The source of a video stream that the client asks for. */
  function Fresh(n: NodeSpec.NodeState): NodeSpec.Source {
    NodeSpec.NewSource(n.nextStamp, 0, "p", true, false)
  }

  lemma PublishSteps(w: State, sid: StreamId)
    requires Lookup(w.conns, 0) == Some(NEW_CONN) && !BadId(sid)
    ensures RequestTheorems.NodeSteps(w, RequestRuns.Publish(0, "p", sid, VideoType, true)) ==
            [NodeSpec.RegisterSourceStep(sid, Fresh(w.node))]
  {
    assert Refusal(w, 0, "p", sid, true) == None;
  }

  lemma PlaySteps(w: State, sid: StreamId)
    requires Lookup(w.conns, 0) == Some(NEW_CONN) && !BadId(sid)
    ensures
      var sink := NodeSpec.NewSink(0, "v");
      RequestTheorems.NodeSteps(w, RequestRuns.Play(0, "v", sid, true)) ==
      [NodeSpec.GetSinkIDStep, NodeSpec.RegisterSinkStep(sid, SinkId(w.node.sinkCount + 1), sink)]
  {
    assert Refusal(w, 0, "v", sid, true) == None;
  }

  lemma LocalsOfOne(at: NodeId, s: NodeSpec.Step)
    ensures Locals(at, [s]) == [Network.Local(at, s)]
  {
    assert [s][1..] == [] && Locals(at, []) == [];
  }

  lemma LocalsOfTwo(at: NodeId, s: NodeSpec.Step, t: NodeSpec.Step)
    ensures Locals(at, [s, t]) == [Network.Local(at, s), Network.Local(at, t)]
  {
    assert [s, t][1..] == [t];
    LocalsOfOne(at, t);
  }

  lemma ClientChangesOne(x: Full, at: NodeId, v: RequestRuns.Move)
    requires CanStep(x, Client(at, v))
    ensures OthersSame(x, Next(x, Client(at, v)), at)
  {
    hide RequestRuns.Next, RequestRuns.CanMove, Network.Copies;
  }

  lemma ClientMoves(ids: seq<NodeId>, limit: nat, x: Full, at: NodeId, v: RequestRuns.Move) returns (x': Full)
    requires Reached(ids, limit, x) && CanStep(x, Client(at, v)) && !v.Internal?
    ensures Reached(ids, limit, x') && OthersSame(x, x', at)
    ensures
      var steps := Locals(at, RequestTheorems.NodeSteps(x.nodes[at], v));
      NetworkTheorems.IsRun(View(x), steps) && View(x') == NetworkTheorems.Run(View(x), steps)
  {
    hide CanStep, Next, FullInv, View, Reached;
    x' := Next(x, Client(at, v));
    ReachedOK(ids, limit, x);
    ReachedThen(ids, limit, x, Client(at, v));
    RequestFollows(x, at, v);
    ClientChangesOne(x, at, v);
  }

  lemma Publishes(ids: seq<NodeId>, limit: nat, x: Full, at: NodeId, sid: StreamId) returns (x': Full)
    requires Reached(ids, limit, x) && Idle(x, at) && !BadId(sid)
    ensures Reached(ids, limit, x') && OthersSame(x, x', at)
    ensures
      var s := Network.Local(at, NodeSpec.RegisterSourceStep(sid, Fresh(x.nodes[at].node)));
      Network.CanStep(View(x), s) && View(x') == Network.Next(View(x), s)
  {
    var v := RequestRuns.Publish(0, "p", sid, VideoType, true);
    var step := NodeSpec.RegisterSourceStep(sid, Fresh(x.nodes[at].node));
    assert CanStep(x, Client(at, v)) && Network.CanStep(View(x), Network.Local(at, step));
    hide CanStep, Next, Reached, View, Network.CanStep, Network.Next, BadId, RequestTheorems.NodeSteps, Locals;
    x' := ClientMoves(ids, limit, x, at, v);
    PublishSteps(x.nodes[at], sid);
    LocalsOfOne(at, step);
    NetworkLimits.OneStep(View(x), Network.Local(at, step));
  }

  lemma Plays(ids: seq<NodeId>, limit: nat, x: Full, at: NodeId, sid: StreamId) returns (x': Full)
    requires Reached(ids, limit, x) && Idle(x, at) && !BadId(sid)
    ensures Reached(ids, limit, x') && OthersSame(x, x', at)
    ensures
      var steps := Serving.Playing(at, sid, x.nodes[at].node);
      NetworkTheorems.IsRun(View(x), steps) && View(x') == NetworkTheorems.Run(View(x), steps)
  {
    hide CanStep, Next, Reached, View, BadId, Network.CanStep, Network.Next, RequestTheorems.NodeSteps, Locals;
    hide RequestRuns.CanMove;
    var v := RequestRuns.Play(0, "v", sid, true);
    IdlePlays(x, at, sid);
    x' := ClientMoves(ids, limit, x, at, v);
    PlaySteps(x.nodes[at], sid);
    LocalsOfTwo(at, NodeSpec.GetSinkIDStep,
                NodeSpec.RegisterSinkStep(sid, SinkId(x.nodes[at].node.sinkCount + 1), NodeSpec.NewSink(0, "v")));
  }

  lemma IdlePlays(x: Full, at: NodeId, sid: StreamId)
    requires Idle(x, at)
    ensures CanStep(x, Client(at, RequestRuns.Play(0, "v", sid, true)))
    ensures Lookup(x.nodes[at].conns, 0) == Some(NEW_CONN)
  {
  }

  // ---------- Messages are delivered ----------

  function InFull(s: Network.NetStep): FullStep
    requires NetworkTheorems.IsDelivery(s)
  {
    if s.Deliver? then Deliver(s.i) else Answer(s.i)
  }

  /** A node that hosts nothing keeps its connections as they are, whatever it receives. */
  lemma ReceivingKeepsIdle(w: State, src: NodeId, kind: Kind, sid: StreamId)
    requires w.node.sources == map[]
    ensures
      var w' := ReceiveRedisMessage(w, src, kind, sid).state;
      w'.node.sources == map[] && w'.conns == w.conns
  {
  }

  lemma DeliveryKeepsIdle(x: Full, s: Network.NetStep, a: NodeId)
    requires NetworkTheorems.IsDelivery(s) && CanStep(x, InFull(s)) && Idle(x, a)
    ensures Idle(Next(x, InFull(s)), a)
  {
    hide ReceiveRedisMessage, Network.Copies, OwesReply;
    if s.Deliver? {
      var m := x.bag[s.i];
      if m.dst == a { ReceivingKeepsIdle(x.nodes[a], m.src, m.kind.kind, m.sid); }
    }
  }

  lemma DeliversAlike(x: Full, s: Network.NetStep)
    requires NetworkTheorems.IsDelivery(s) && Network.CanStep(View(x), s)
    ensures CanStep(x, InFull(s)) && View(Next(x, InFull(s))) == Network.Next(View(x), s)
    ensures forall a | Idle(x, a) :: Idle(Next(x, InFull(s)), a)
  {
    if s.Deliver? { DeliverFollows(x, s.i); } else { AnswerFollows(x, s.i); }
    hide Next, View, Idle, Network.Next;
    forall a | Idle(x, a) ensures Idle(Next(x, InFull(s)), a) {
      DeliveryKeepsIdle(x, s, a);
    }
  }

  lemma {:induction false} DeliverAll(ids: seq<NodeId>, limit: nat, x: Full, steps: seq<Network.NetStep>)
    returns (x': Full)
    requires Reached(ids, limit, x) && NetworkTheorems.IsRun(View(x), steps) && AllDeliveries(steps)
    ensures Reached(ids, limit, x') && View(x') == NetworkTheorems.Run(View(x), steps)
    ensures forall a | Idle(x, a) :: Idle(x', a)
    decreases |steps|
  {
    hide CanStep, Next, Network.CanStep, Network.Next, Reached, View, Idle;
    if steps == [] {
      x' := x;
    } else {
      assert steps[0] in steps;
      DeliversAlike(x, steps[0]);
      ReachedThen(ids, limit, x, InFull(steps[0]));
      x' := DeliverAll(ids, limit, Next(x, InFull(steps[0])), steps[1..]);
    }
  }

  // ---------- A sender that is lost ----------

  lemma InternalMoves(ids: seq<NodeId>, limit: nat, x: Full, at: NodeId, step: NodeSpec.Step) returns (x': Full)
    requires Reached(ids, limit, x) && CanStep(x, Client(at, RequestRuns.Internal(step)))
    requires FullNetwork.IsLawful(x, Client(at, RequestRuns.Internal(step)))
    ensures Reached(ids, limit, x') && Network.CanStep(View(x), Network.Local(at, step))
    ensures View(x') == Network.Next(View(x), Network.Local(at, step))
  {
    hide Next;
    x' := Next(x, Client(at, RequestRuns.Internal(step)));
    ReachedThen(ids, limit, x, Client(at, RequestRuns.Internal(step)));
    InternalFollows(x, at, step);
  }

  lemma StartUnclaimed(ids: seq<NodeId>, sid: StreamId, a: NodeId)
    ensures NetworkTheorems.Unclaimed(NetworkTheorems.Start(ids), sid, a)
  {
  }

  lemma TrackIsLawful(x: Full, a: NodeId, sid: StreamId, track: TrackId)
    requires a in View(x).nodes && sid in View(x).nodes[a].sources
    ensures
      var s := Client(a, RequestRuns.Internal(NodeSpec.SourceTrackStep(sid, Video, track)));
      CanStep(x, s) && FullNetwork.IsLawful(x, s)
  {
  }

  /** After a has published and b got a viewer, a's media arrives. */
  lemma GetsMedia(ids: seq<NodeId>, limit: nat, w: Network.Net, x: Full, sid: StreamId, a: NodeId, b: NodeId,
                  stamp: nat) returns (x': Full, steps: seq<Network.NetStep>)
    requires Reached(ids, limit, x) && a in w.nodes && b in w.nodes && a != b
    requires Lookup(w.nodes[a].sources, sid) == Some(NodeSpec.NewSource(stamp, 0, "p", true, false))
    requires sid !in w.nodes[a].senders
    requires NetworkTheorems.IsRun(w, Serving.Playing(b, sid, w.nodes[b]))
    requires View(x) == NetworkTheorems.Run(w, Serving.Playing(b, sid, w.nodes[b]))
    ensures Reached(ids, limit, x') && NetworkTheorems.IsRun(w, steps) && View(x') == NetworkTheorems.Run(w, steps)
    ensures NetworkTheorems.HasViewers(View(x'), b, sid) && Serving.Eager(View(x'), sid, a)
    ensures forall s | s in steps :: !NetworkTheorems.Contests(s, sid, a) && !NetworkTheorems.LosesSender(s)
  {
    var playing := Serving.Playing(b, sid, w.nodes[b]);
    var step := NodeSpec.SourceTrackStep(sid, Video, 1);
    var s := Network.Local(a, step);
    Serving.PlayingBrings(w, b, sid, playing);
    TrackIsLawful(x, a, sid, 1);
    hide Reached, CanStep, FullNetwork.IsLawful, View, Network.CanStep, Network.Next, NetworkTheorems.HasViewers,
         Serving.Playing, Serving.Eager, NetworkTheorems.Contests, NetworkTheorems.LosesSender;
    x' := InternalMoves(ids, limit, x, a, step);
    Serving.MediaArrives(View(x), sid, a, stamp, s);
    NetworkLimits.RunThen(w, playing, s);
    Serving.PlayingIsHarmless(b, sid, w.nodes[b], a);
    steps := playing + [s];
  }

  /** a has published the stream, b has asked for it, the media has arrived, and all messages have too. */
  lemma Served(ids: seq<NodeId>, limit: nat, sid: StreamId, a: NodeId, b: NodeId) returns (x: Full)
    requires a in ids && b in ids && a != b && !BadId(sid)
    ensures Reached(ids, limit, x) && Serving.AllArrived(View(x), sid, a, b)
  {
    hide Reached, CanStep, Next, Network.CanStep, NetworkTheorems.Unclaimed, NetworkTheorems.Reachable,
         Serving.AllArrived, NetworkTheorems.HasViewers, Serving.Eager, BadId, NetworkTheorems.Contests,
         NetworkTheorems.LosesSender, Serving.Playing, NodeSpec.RegisterSource, Network.Copies;
    var x0 := Gathered(ids, limit, [a, b]);
    assert a in [a, b] && b in [a, b];
    var x1 := Publishes(ids, limit, x0, a, sid);
    var source := Fresh(x0.nodes[a].node);
    var publish := Network.Local(a, NodeSpec.RegisterSourceStep(sid, source));
    Serving.PublishingReplaces(x0.nodes[a].node, sid, source);
    assert View(x1).nodes[a] == NodeSpec.RegisterSource(x0.nodes[a].node, sid, source).node;
    assert View(x1).nodes[b] == x1.nodes[b].node;
    hide Network.Next, View;
    var x2 := Plays(ids, limit, x1, b, sid);
    var x3, steps := GetsMedia(ids, limit, View(x1), x2, sid, a, b, source.stamp);
    StartUnclaimed(ids, sid, a);
    ReachedOK(ids, limit, x0);
    var more := Serving.Arriving(View(x0), sid, a, b, publish, View(x1), steps, View(x3));
    x := DeliverAll(ids, limit, x3, more);
  }

  lemma SenderIsLawful(x: Full, a: NodeId, sid: StreamId, b: NodeId)
    requires a in View(x).nodes && NodeSpec.IsSender(View(x).nodes[a], sid, b)
    ensures
      var run := Client(a, RequestRuns.Internal(NodeSpec.RunSenderStep(sid, b)));
      var loss := Client(a, RequestRuns.Internal(NodeSpec.SenderClosedStep(sid, b)));
      && CanStep(x, loss) && FullNetwork.IsLawful(x, loss)
      && (View(x).nodes[a].senders[sid][b].queued > 0 ==> CanStep(x, run) && FullNetwork.IsLawful(x, run))
  {
  }

  /** The sender's task runs, and its offer arrives: b is served through a peer connection. */
  lemma Connects(ids: seq<NodeId>, limit: nat, x: Full, sid: StreamId, a: NodeId, b: NodeId) returns (x': Full)
    requires Reached(ids, limit, x) && Serving.AllArrived(View(x), sid, a, b) && a != b
    ensures Reached(ids, limit, x') && Serving.Connected(View(x'), sid, a, b)
  {
    var step := NodeSpec.RunSenderStep(sid, b);
    Serving.SenderRuns(View(x).nodes[a], sid, b);
    SenderIsLawful(x, a, sid, b);
    Serving.TaskRuns(View(x), sid, a, b, Network.Local(a, step));
    hide Reached, CanStep, FullNetwork.IsLawful, View, Network.CanStep, Network.Next, Serving.AllArrived,
         Serving.Connected;
    var x1 := InternalMoves(ids, limit, x, a, step);
    Serving.OfferArrives(View(x1), sid, a, b);
    NetworkLimits.OneStep(View(x1), Network.Deliver(0));
    x' := DeliverAll(ids, limit, x1, [Network.Deliver(0)]);
  }

  /** In any network with two nodes, clients, media and messages bring about a state in which b's viewers are
      served through a peer connection of a's, and the failure of that connection leaves them with nothing. */
  lemma ViewersCanStarve(ids: seq<NodeId>, limit: nat, sid: StreamId, a: NodeId, b: NodeId) returns (x: Full)
    requires a in ids && b in ids && a != b && !BadId(sid)
    ensures Reached(ids, limit, x) && Serving.Connected(View(x), sid, a, b)
    ensures
      var loss := Client(a, RequestRuns.Internal(NodeSpec.SenderClosedStep(sid, b)));
      && CanStep(x, loss) && Reached(ids, limit, Next(x, loss))
      && Starved(View(Next(x, loss)), sid, a, b)
  {
    var before := Served(ids, limit, sid, a, b);
    x := Connects(ids, limit, before, sid, a, b);
    var step := NodeSpec.SenderClosedStep(sid, b);
    SenderIsLawful(x, a, sid, b);
    LosingTheSender(View(x), sid, a, b);
    hide Reached, CanStep, Next, FullNetwork.IsLawful, View, Network.CanStep, Network.Next, Serving.Connected, Starved;
    ReachedThen(ids, limit, x, Client(a, RequestRuns.Internal(step)));
    InternalFollows(x, a, step);
  }

  // ---------- A reply that is late ----------

  /** c hosts the stream, a and b are idle, and nothing is in flight. */
  lemma Hosted(ids: seq<NodeId>, limit: nat, sid: StreamId, a: NodeId, b: NodeId, c: NodeId) returns (x: Full)
    requires a in ids && b in ids && c in ids && a != b && a != c && b != c && !BadId(sid)
    ensures Reached(ids, limit, x) && Idle(x, a) && Idle(x, b) && x.bag == []
    ensures NetworkTheorems.HostsStream(View(x), c, sid) && !NetworkTheorems.HasViewers(View(x), b, sid)
  {
    hide Reached, CanStep, Next, Network.CanStep, Network.Next, NetworkTheorems.HasViewers, BadId,
         NetworkTheorems.HostsStream, NetworkTheorems.NetInv, Unthreatened;
    var x0 := Gathered(ids, limit, [a, b, c]);
    assert a in [a, b, c] && b in [a, b, c] && c in [a, b, c];
    RelayLimits.FirstHost(ids, sid, b, c, Fresh(x0.nodes[c].node));
    var x1 := Publishes(ids, limit, x0, c, sid);
    assert Idle(x1, a) && Idle(x1, b);
    hide View, Idle;
    var more := Settle(View(x1));
    UnthreatenedSurvives(View(x1), more, sid, c);
    DeliveriesKeepViewers(View(x1), more, b, sid);
    x := DeliverAll(ids, limit, x1, more);
    BagOfView(x);
  }

  lemma BagOfView(x: Full)
    ensures View(x).bag == x.bag
  {
  }

  lemma IdleStays(x: Full, x': Full, at: NodeId, a: NodeId)
    requires OthersSame(x, x', at) && a != at && Idle(x, a)
    ensures Idle(x', a)
  {
  }

  /** b gets a viewer, and asks everybody for the stream that c hosts. */
  lemma Asking(ids: seq<NodeId>, limit: nat, x: Full, sid: StreamId, a: NodeId, b: NodeId, c: NodeId)
    returns (x': Full)
    requires Reached(ids, limit, x) && Idle(x, a) && Idle(x, b) && x.bag == []
    requires NetworkTheorems.HostsStream(View(x), c, sid) && !NetworkTheorems.HasViewers(View(x), b, sid)
    requires a != b && b != c && !BadId(sid)
    ensures Reached(ids, limit, x') && Idle(x', a) && RelayLimits.OnlyAsking(View(x'), sid, a, b, c)
    ensures Network.Message(Network.Published(Resolve), b, c, sid) in View(x').bag
    ensures NetworkTheorems.HasViewers(View(x'), b, sid) && NetworkTheorems.HostsStream(View(x'), c, sid)
  {
    AtNode(x, b);
    BagOfView(x);
    hide Reached, View, NetworkTheorems.HasViewers, NetworkTheorems.HostsStream, NetworkTheorems.NetInv,
         NetworkTheorems.Reachable, BadId, RelayLimits.OnlyAsking;
    ReachedOK(ids, limit, x);
    NetworkTheorems.ReachableInv(View(x));
    x' := Plays(ids, limit, x, b, sid);
    RelayLimits.PlayingAsks(View(x), sid, a, b, c, Serving.Playing(b, sid, x.nodes[b].node));
    IdleStays(x, x', b, a);
  }

  /** b's RESOLVE reaches c, which owes b a reply then; a publishes. */
  lemma Owing(ids: seq<NodeId>, limit: nat, x: Full, sid: StreamId, a: NodeId, b: NodeId, c: NodeId) returns (x': Full)
    requires Reached(ids, limit, x) && Idle(x, a) && RelayLimits.OnlyAsking(View(x), sid, a, b, c)
    requires Network.Message(Network.Published(Resolve), b, c, sid) in View(x).bag
    requires NetworkTheorems.HasViewers(View(x), b, sid) && NetworkTheorems.HostsStream(View(x), c, sid)
    requires a != b && a != c && b != c && !BadId(sid)
    ensures Reached(ids, limit, x') && NetworkTheorems.HostsStream(View(x'), a, sid)
    ensures Unthreatened(View(x'), sid, a) && NetworkTheorems.HasViewers(View(x'), b, sid)
    ensures Network.Message(Network.PendingReply, c, b, sid) in View(x').bag
  {
    hide Reached, Network.CanStep, Network.Next, NetworkTheorems.HasViewers, View, Idle, BadId, Unthreatened,
         NetworkTheorems.HostsStream, NetworkTheorems.NetInv, NetworkTheorems.Reachable;
    ReachedOK(ids, limit, x);
    NetworkTheorems.ReachableInv(View(x));
    var s := ResolveAsks(View(x), sid, c, b);
    DeliveryKeepsViewers(View(x), s, b, sid);
    NetworkLimits.OneStep(View(x), s);
    var x1 := DeliverAll(ids, limit, x, [s]);
    AtNode(x1, a);
    RelayLimits.PublishingBefore(View(x1), sid, a, b, c, Fresh(x1.nodes[a].node));
    x' := Publishes(ids, limit, x1, a, sid);
  }

  lemma AtNode(x: Full, a: NodeId)
    ensures Idle(x, a) ==>
              && a in x.nodes && a in View(x).nodes
              && View(x).nodes[a] == x.nodes[a].node && x.nodes[a].node.sources == map[]
  {
  }

  /** In any network with three nodes a state is reached with nothing in flight in which a hosts the stream, and
      b's viewers are left with c, which does not: c's reply to b came after a's INFO. */
  lemma ViewersCanBeMisled(ids: seq<NodeId>, limit: nat, sid: StreamId, a: NodeId, b: NodeId, c: NodeId)
    returns (x: Full)
    requires a in ids && b in ids && c in ids && a != b && a != c && b != c && !BadId(sid)
    ensures Reached(ids, limit, x) && RelayLimits.Misled(View(x), sid, a, b, c)
  {
    hide Reached, CanStep, Next, View, NetworkTheorems.NetInv, NetworkTheorems.HostsStream, NetworkTheorems.HasViewers,
         Unthreatened, RelayLimits.Misled, NetworkTheorems.Reachable;
    var before := Hosted(ids, limit, sid, a, b, c);
    var asking := Asking(ids, limit, before, sid, a, b, c);
    var owing := Owing(ids, limit, asking, sid, a, b, c);
    ReachedOK(ids, limit, owing);
    NetworkTheorems.ReachableInv(View(owing));
    var steps := RelayLimits.LateReply(View(owing), sid, a, b, c);
    x := DeliverAll(ids, limit, owing, steps);
  }

  // ---------- Two publishers ----------

  /** In any network with two nodes a state is reached in which clients have published the stream at both, and
      deliveries that leave it no host, although no client left. */
  lemma TwoPublishersLoseTheStream(ids: seq<NodeId>, limit: nat, sid: StreamId, a: NodeId, b: NodeId)
    returns (x: Full, steps: seq<Network.NetStep>, x': Full)
    requires a in ids && b in ids && a != b && !BadId(sid)
    ensures Reached(ids, limit, x) && Reached(ids, limit, x')
    ensures NetworkTheorems.HostsStream(View(x), a, sid) && NetworkTheorems.HostsStream(View(x), b, sid)
    ensures NetworkTheorems.IsRun(View(x), steps) && AllDeliveries(steps) && |steps| == 2
    ensures View(x') == NetworkTheorems.Run(View(x), steps) && !IsHosted(View(x'), sid)
  {
    hide Reached, View, Idle, Network.CanStep, Network.Next, NetworkTheorems.HostsStream, NetworkTheorems.Reachable,
         IsHosted, BadId;
    var x0 := Gathered(ids, limit, [a, b]);
    assert a in [a, b] && b in [a, b];
    AtNode(x0, a);
    var x1 := Publishes(ids, limit, x0, a, sid);
    IdleStays(x0, x1, a, b);
    AtNode(x1, b);
    x := Publishes(ids, limit, x1, b, sid);
    steps := BothFall(ids, sid, a, b, Fresh(x0.nodes[a].node), Fresh(x1.nodes[b].node), View(x1), View(x));
    x' := DeliverAll(ids, limit, x, steps);
  }
}
