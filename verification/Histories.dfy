/**
  Every part of a network runs as its own module says: each node with its connections, in a network of full nodes,
  is in a state that module RequestTheorems reaches, and its registries are in one that a run of node steps reaches.
  So what is proved of nodes and of clients holds of all of them, in every run of the whole.
 */
module Histories {
  import opened Types
  import opened Requests
  import opened FullNetwork
  import NodeSpec
  import NodeInvariants
  import Network
  import NetworkTheorems
  import Offers
  import Readiness
  import Replies
  import RequestInvariants
  import RequestRuns
  import RequestTheorems

  // ---------- The registries of a node with its connections ----------

  lemma {:induction false} HappensAppend(n: NodeSpec.NodeState, a: seq<NodeSpec.Step>, b: seq<NodeSpec.Step>)
    requires NodeInvariants.Happens(n, a) && NodeInvariants.CanRun(n, a)
    requires NodeInvariants.Happens(NodeInvariants.Run(n, a).node, b)
    requires NodeInvariants.CanRun(NodeInvariants.Run(n, a).node, b)
    ensures NodeInvariants.Happens(n, a + b) && NodeInvariants.CanRun(n, a + b)
    ensures NodeInvariants.Run(n, a + b).node == NodeInvariants.Run(NodeInvariants.Run(n, a).node, b).node
    decreases |a|
  {
    hide NodeSpec.Apply, NodeSpec.Possible, NodeInvariants.CanHappen;
    if a == [] {
      assert a + b == b;
    } else {
      HappensAppend(NodeSpec.Apply(n, a[0]).node, a[1..], b);
      assert (a + b)[0] == a[0] && (a + b)[1..] == a[1..] + b;
    }
  }

  /** The registries n have come about from n0 by steps that can happen. */
  ghost predicate Became(n0: NodeSpec.NodeState, n: NodeSpec.NodeState) {
    exists steps ::
      && NodeInvariants.Happens(n0, steps) && NodeInvariants.CanRun(n0, steps)
      && NodeInvariants.Run(n0, steps).node == n
  }

  lemma BecameThen(n0: NodeSpec.NodeState, n1: NodeSpec.NodeState, n2: NodeSpec.NodeState)
    requires Became(n0, n1) && Became(n1, n2)
    ensures Became(n0, n2)
  {
    hide NodeInvariants.Happens, NodeInvariants.CanRun;
    var a :| && NodeInvariants.Happens(n0, a) && NodeInvariants.CanRun(n0, a)
             && NodeInvariants.Run(n0, a).node == n1;
    var b :| && NodeInvariants.Happens(n1, b) && NodeInvariants.CanRun(n1, b)
             && NodeInvariants.Run(n1, b).node == n2;
    HappensAppend(n0, a, b);
  }

  lemma MoveBecomes(w: State, v: RequestRuns.Move)
    requires RequestInvariants.Inv(w) && RequestRuns.CanMove(w, v)
    ensures Became(w.node, RequestRuns.Next(w, v).state.node)
  {
    hide RequestInvariants.Inv, RequestRuns.CanMove, RequestRuns.Next, NodeInvariants.Happens, NodeInvariants.CanRun;
    RequestTheorems.TransitionsAreNodeRuns(w, v);
    var steps := RequestTheorems.NodeSteps(w, v);
    assert NodeInvariants.Run(w.node, steps).node == RequestRuns.Next(w, v).state.node;
  }

  lemma {:induction false} RunBecomes(w: State, moves: seq<RequestRuns.Move>)
    requires RequestRuns.AllOK(w) && RequestTheorems.IsRun(w, moves)
    ensures Became(w.node, RequestTheorems.Run(w, moves).node)
    decreases |moves|
  {
    hide RequestRuns.CanMove, RequestRuns.Next, RequestInvariants.Inv, NodeInvariants.OpenInv, Became;
    if moves == [] {
      BecameNothing(w.node);
    } else {
      var w1 := RequestRuns.Next(w, moves[0]).state;
      MoveBecomes(w, moves[0]);
      RequestTheorems.MoveKeepsAllOK(w, moves[0]);
      RunBecomes(w1, moves[1..]);
      BecameThen(w.node, w1.node, RequestTheorems.Run(w, moves).node);
    }
  }

  lemma BecameNothing(n: NodeSpec.NodeState)
    ensures Became(n, n)
  {
    assert NodeInvariants.Happens(n, []) && NodeInvariants.CanRun(n, []);
    assert NodeInvariants.Run(n, []).node == n;
  }

  /** In every state that a node and its clients reach, the registries have come about by steps of the node. */
  lemma RegistriesHaveAHistory(w: State)
    requires RequestTheorems.Reachable(w)
    ensures exists id :: Became(NodeSpec.Init(id), w.node)
  {
    hide RequestTheorems.IsRun, Became, RequestRuns.AllOK;
    var id, limit: nat, moves :|
      && RequestTheorems.IsRun(RequestTheorems.Start(id, limit), moves)
      && w == RequestTheorems.Run(RequestTheorems.Start(id, limit), moves);
    RequestTheorems.StartOK(id, limit);
    RunBecomes(RequestTheorems.Start(id, limit), moves);
    assert Became(NodeSpec.Init(id), w.node);
  }

  /** So in every such state a registered source is ready exactly when it has a track and lacks none that its
      publisher announced. */
  lemma SourcesAreReadyExactly(w: State, sid: StreamId)
    requires RequestTheorems.Reachable(w) && sid in w.node.sources
    ensures
      var s := w.node.sources[sid];
      s.ready <==>
      && (s.tracks.video != None || s.tracks.audio != None)
      && (s.hasVideo ==> s.tracks.video != None) && (s.hasAudio ==> s.tracks.audio != None)
  {
    RegistriesHaveAHistory(w);
    hide RequestTheorems.Reachable, NodeInvariants.Happens, NodeInvariants.CanRun;
    var id :| Became(NodeSpec.Init(id), w.node);
    var steps :| && NodeInvariants.Happens(NodeSpec.Init(id), steps) && NodeInvariants.CanRun(NodeSpec.Init(id), steps)
                 && NodeInvariants.Run(NodeSpec.Init(id), steps).node == w.node;
    Readiness.SourcesAreReadyExactly(id, steps, sid);
  }

  // ---------- A node in the network ----------

  /** What a node receives is a transition of the node and its clients, or changes nothing. */
  lemma ReceivingIsAMove(w: State, src: NodeId, kind: Kind, sid: StreamId)
    requires RequestTheorems.Reachable(w)
    ensures RequestTheorems.Reachable(ReceiveRedisMessage(w, src, kind, sid).state)
  {
    hide RequestTheorems.Reachable;
    if src != w.node.id {
      match kind
      case Resolve =>
      case Info => RequestTheorems.ReachableThen(w, RequestRuns.InfoFrom(src, sid));
      case Connect =>
        RequestTheorems.ReachableThen(w, RequestRuns.Internal(NodeSpec.ConnectStep(src, sid, w.node.nextStamp)));
      case Offer(video, audio) =>
        RequestTheorems.ReachableThen(w, RequestRuns.Internal(NodeSpec.OfferStep(sid, video, audio)));
    }
  }

  ghost predicate NodesReached(x: Full) {
    forall a | a in x.nodes :: RequestTheorems.Reachable(x.nodes[a])
  }

  lemma StepKeepsReached(x: Full, s: FullStep)
    requires NodesReached(x) && CanStep(x, s)
    ensures NodesReached(Next(x, s))
  {
    hide RequestTheorems.Reachable, ReceiveRedisMessage, RequestRuns.Next, RequestRuns.CanMove, Network.Copies;
    match s
    case Client(at, v) => RequestTheorems.ReachableThen(x.nodes[at], v);
    case Deliver(i) =>
      var m := x.bag[i];
      ReceivingIsAMove(x.nodes[m.dst], m.src, m.kind.kind, m.sid);
    case Answer(i) =>
  }

  lemma {:induction false} RunKeepsReached(x: Full, steps: seq<FullStep>)
    requires NodesReached(x) && IsRun(x, steps)
    ensures NodesReached(Run(x, steps))
    decreases |steps|
  {
    hide CanStep, Next, NodesReached;
    if steps != [] {
      StepKeepsReached(x, steps[0]);
      RunKeepsReached(Next(x, steps[0]), steps[1..]);
    }
  }

  lemma StartIsReached(id: NodeId, limit: nat)
    ensures RequestTheorems.Reachable(RequestTheorems.Start(id, limit))
  {
    var start := RequestTheorems.Start(id, limit);
    assert RequestTheorems.IsRun(start, []) && RequestTheorems.Run(start, []) == start;
  }

  /** In every run of a network of full nodes, every node with its clients is in a state that it reaches by itself:
      all that is proved of the reachable states of RequestTheorems holds of it. */
  lemma NodesAreReached(ids: seq<NodeId>, limit: nat, steps: seq<FullStep>, a: NodeId)
    requires IsRun(Start(ids, limit), steps) && a in Run(Start(ids, limit), steps).nodes
    ensures RequestTheorems.Reachable(Run(Start(ids, limit), steps).nodes[a])
  {
    hide RequestTheorems.Reachable, CanStep, Next;
    forall b | b in ids ensures RequestTheorems.Reachable(RequestTheorems.Start(b, limit)) {
      StartIsReached(b, limit);
    }
    RunKeepsReached(Start(ids, limit), steps);
  }

  // ---------- Lawful runs ----------

  /** The registries n have come about from n0 by lawful steps. */
  ghost predicate BecameLawfully(n0: NodeSpec.NodeState, n: NodeSpec.NodeState) {
    exists steps ::
      && NodeInvariants.IsRun(n0, steps) && NodeInvariants.CanRun(n0, steps)
      && NodeInvariants.Run(n0, steps).node == n
  }

  lemma LawfulStepThen(n: NodeSpec.NodeState, step: NodeSpec.Step, n': NodeSpec.NodeState)
    requires NodeInvariants.Lawful(n, step) && BecameLawfully(NodeSpec.Apply(n, step).node, n')
    ensures BecameLawfully(n, n')
  {
    hide NodeSpec.Apply;
    var n1 := NodeSpec.Apply(n, step).node;
    var steps :| && NodeInvariants.IsRun(n1, steps) && NodeInvariants.CanRun(n1, steps)
                 && NodeInvariants.Run(n1, steps).node == n';
    assert ([step] + steps)[1..] == steps;
    assert NodeInvariants.IsRun(n, [step] + steps) && NodeInvariants.CanRun(n, [step] + steps);
    assert NodeInvariants.Run(n, [step] + steps).node == n';
  }

  /** What one lawful step of the network does to a node is a lawful step of the node, or nothing. */
  lemma NodeStep(w: Network.Net, s: Network.NetStep, x: NodeId)
    requires Network.CanStep(w, s) && NetworkTheorems.IsLawful(w, s) && x in w.nodes
    ensures x in Network.Next(w, s).nodes
    ensures
      var n, n' := w.nodes[x], Network.Next(w, s).nodes[x];
      n' == n || exists step :: NodeInvariants.Lawful(n, step) && n' == NodeSpec.Apply(n, step).node
  {
    hide NodeSpec.Apply;
    match s
    case Local(at, step) =>
    case Deliver(i) =>
      var m := w.bag[i];
      var n := w.nodes[m.dst];
      if m.src != n.id {
        match m.kind.kind
        case Resolve =>
        case Info => assert NodeInvariants.Lawful(n, NodeSpec.InfoStep(m.src, m.sid));
        case Connect => assert NodeInvariants.Lawful(n, NodeSpec.ConnectStep(m.src, m.sid, n.nextStamp));
        case Offer(v, a) => assert NodeInvariants.Lawful(n, NodeSpec.OfferStep(m.sid, v, a));
      }
    case Answer(i) =>
  }

  lemma LawfullyNothing(n: NodeSpec.NodeState)
    ensures BecameLawfully(n, n)
  {
    assert NodeInvariants.IsRun(n, []) && NodeInvariants.CanRun(n, []);
    assert NodeInvariants.Run(n, []).node == n;
  }

  lemma {:induction false} LawfulHistory(w: Network.Net, steps: seq<Network.NetStep>, x: NodeId)
    requires NetworkTheorems.IsRun(w, steps) && NetworkTheorems.IsLawfulRun(w, steps) && x in w.nodes
    ensures x in NetworkTheorems.Run(w, steps).nodes
    ensures BecameLawfully(w.nodes[x], NetworkTheorems.Run(w, steps).nodes[x])
    decreases |steps|
  {
    hide Network.CanStep, Network.Next, NetworkTheorems.IsLawful, NodeSpec.Apply, BecameLawfully;
    if steps == [] {
      LawfullyNothing(w.nodes[x]);
    } else {
      var w1 := Network.Next(w, steps[0]);
      NodeStep(w, steps[0], x);
      LawfulHistory(w1, steps[1..], x);
      if w1.nodes[x] != w.nodes[x] {
        var step :| NodeInvariants.Lawful(w.nodes[x], step) && w1.nodes[x] == NodeSpec.Apply(w.nodes[x], step).node;
        LawfulStepThen(w.nodes[x], step, NetworkTheorems.Run(w, steps).nodes[x]);
      }
    }
  }

  /** In every lawful run of the network the registries of a node have come about by a lawful run of the node. */
  lemma NodesHaveLawfulHistories(w: Network.Net, x: NodeId)
    requires NetworkTheorems.LawfullyReachable(w) && x in w.nodes
    ensures BecameLawfully(NodeSpec.Init(x), w.nodes[x])
  {
    hide NetworkTheorems.IsRun, NetworkTheorems.IsLawfulRun, BecameLawfully;
    var ids, steps :| && NetworkTheorems.IsRun(NetworkTheorems.Start(ids), steps)
                      && NetworkTheorems.IsLawfulRun(NetworkTheorems.Start(ids), steps)
                      && w == NetworkTheorems.Run(NetworkTheorems.Start(ids), steps);
    NodeSetStays(NetworkTheorems.Start(ids), steps);
    LawfulHistory(NetworkTheorems.Start(ids), steps, x);
  }

  lemma {:induction false} NodeSetStays(w: Network.Net, steps: seq<Network.NetStep>)
    requires NetworkTheorems.IsRun(w, steps)
    ensures NetworkTheorems.Run(w, steps).nodes.Keys == w.nodes.Keys
    decreases |steps|
  {
    hide Network.CanStep, Network.Next;
    if steps != [] {
      NetworkTheorems.StepKeepsNodeSet(w, steps[0]);
      NodeSetStays(Network.Next(w, steps[0]), steps[1..]);
    }
  }

  /** In every lawful run of a network of full nodes, beside a ready source or relay every viewer's client was last
      offered exactly its tracks, or a task that will offer them is queued. */
  lemma ViewersAreOfferedTheCurrentTracks(
    ids: seq<NodeId>, limit: nat, steps: seq<FullStep>, a: NodeId, sid: StreamId, k: SinkId, t: Tracks)
    requires IsRun(Start(ids, limit), steps) && IsLawfulRun(Start(ids, limit), steps)
    requires a in Run(Start(ids, limit), steps).nodes
    ensures
      var n := Run(Start(ids, limit), steps).nodes[a].node;
      NodeSpec.IsSink(n, sid, k) && Offers.Offered(n, sid, t) ==>
        var sink := n.sinks[sid][k];
        && sink.tracks == t && (sink.peer || sink.queued > 0)
        && (sink.peer ==>
              sink.sent != [] && sink.sent[|sink.sent| - 1] == NodeSpec.SinkOffer(t.video, t.audio))
  {
    hide RequestRuns.AllOK, NodeInvariants.Inv, NodeInvariants.IsRun, CanStep, Next, FullNetwork.IsLawful;
    var x := Run(Start(ids, limit), steps);
    FullRunsAreRuns(ids, limit, steps);
    assert View(x).nodes[a] == x.nodes[a].node;
    NodesHaveLawfulHistories(View(x), a);
    var nodeSteps :| && NodeInvariants.IsRun(NodeSpec.Init(a), nodeSteps)
                     && NodeInvariants.CanRun(NodeSpec.Init(a), nodeSteps)
                     && NodeInvariants.Run(NodeSpec.Init(a), nodeSteps).node == x.nodes[a].node;
    Offers.ViewersAreOfferedTheCurrentTracks(a, nodeSteps, sid, k, t);
    NodeInvariants.ViewersHoldCurrentTracks(a, nodeSteps, sid, k);
  }
}
