/**
  The network with everything in it: every node has its registries and its clients' connections. What
  the registries of such a network do is a run of module Network, so all that is proved there holds here.
 */
module FullNetwork {
  import opened Types
  import opened Requests
  import NodeSpec
  import NodeInvariants
  import StreamSpec
  import Network
  import NetworkTheorems
  import NetworkLimits
  import RequestInvariants
  import RequestRuns
  import RequestTheorems

  datatype Full = Full(
    ids: seq<NodeId>, nodes: map<NodeId, State>, bag: seq<Network.Message>, faults: set<(NodeId, NodeId, StreamId)>)

  datatype FullStep =
    | Client(at: NodeId, move: RequestRuns.Move)  // a client, a peer connection or a queued task
    | Deliver(i: nat)
    | Answer(i: nat)

  predicate IsOwn(v: RequestRuns.Move) {
    !v.InfoFrom? && (v.Internal? ==> Network.IsLocal(v.step))
  }

  ghost predicate CanStep(x: Full, s: FullStep) {
    match s
    case Client(at, v) => at in x.nodes && IsOwn(v) && RequestRuns.CanMove(x.nodes[at], v)
    case Deliver(i) => i < |x.bag| && x.bag[i].dst in x.nodes && x.bag[i].kind != Network.PendingReply
    case Answer(i) => i < |x.bag| && x.bag[i].kind == Network.PendingReply
  }

  /** A node, after a handler: its new state, and copies of what it published. */
  function WithResult(x: Full, at: NodeId, r: Result): Full {
    x.(nodes := x.nodes[at := r.state], bag := x.bag + Network.Copies(x.ids, at, r.pub))
  }

  /** The sender that a step of a node loses, if any. */
  function Lost(x: Full, at: NodeId, v: RequestRuns.Move): set<(NodeId, NodeId, StreamId)>
    requires at in x.nodes
  {
    if v.Internal? && v.step.SenderClosedStep? && NodeSpec.IsSender(x.nodes[at].node, v.step.sid, v.step.remote) then
      {(at, v.step.remote, v.step.sid)}
    else
      {}
  }

  /** A node receives a message; the answer to a RESOLVE is left pending. */
  function Received(x: Full, m: Network.Message): Full
    requires m.dst in x.nodes && m.kind != Network.PendingReply
  {
    var w, kind := x.nodes[m.dst], m.kind.kind;
    var x' := WithResult(x, m.dst, ReceiveRedisMessage(w, m.src, kind, m.sid));
    x'.(bag := x'.bag + if OwesReply(w, m.src, kind, m.sid) then
                          [Network.Message(Network.PendingReply, m.dst, m.src, m.sid)]
                        else [],
    faults := if kind.Connect? && m.src != w.node.id && m.sid in w.node.sources then
                x.faults - {(m.dst, m.src, m.sid)}
              else x.faults)
  }

  function Next(x: Full, s: FullStep): Full
    requires CanStep(x, s)
  {
    match s
    case Client(at, v) =>
      WithResult(x, at, RequestRuns.Next(x.nodes[at], v)).(faults := x.faults + Lost(x, at, v))
    case Deliver(i) => Received(x.(bag := Network.Without(x.bag, i)), x.bag[i])
    case Answer(i) =>
      var m := x.bag[i];
      x.(bag := Network.Without(x.bag, i) + [Network.Message(Network.Published(Info), m.src, m.dst, m.sid)])
  }

  /** The registries of all nodes, and the messages. */
  function View(x: Full): Network.Net {
    Network.Net(x.ids, map a | a in x.nodes :: x.nodes[a].node, x.bag, x.faults)
  }

  ghost predicate FullInv(x: Full) {
    NetworkTheorems.NetInv(View(x)) && forall a | a in x.nodes :: RequestRuns.AllOK(x.nodes[a])
  }

  /** A step in which no object that has left meddles with the tracks of the present ones. */
  predicate IsLawful(x: Full, s: FullStep) {
    s.Client? && s.move.Internal? && s.at in x.nodes ==> NodeInvariants.Lawful(x.nodes[s.at].node, s.move.step)
  }

  /** Some run of module Network, a lawful one if so asked, leads from one state to the other. */
  ghost predicate Leads(net: Network.Net, net': Network.Net, lawful: bool) {
    exists steps ::
      && NetworkTheorems.IsRun(net, steps) && NetworkTheorems.Run(net, steps) == net'
      && (lawful ==> NetworkTheorems.IsLawfulRun(net, steps))
  }

  lemma LawfulCons(net: Network.Net, s: Network.NetStep, rest: seq<Network.NetStep>)
    requires Network.CanStep(net, s) && NetworkTheorems.IsRun(Network.Next(net, s), rest)
    requires NetworkTheorems.IsLawful(net, s) && NetworkTheorems.IsLawfulRun(Network.Next(net, s), rest)
    ensures NetworkTheorems.IsRun(net, [s] + rest) && NetworkTheorems.IsLawfulRun(net, [s] + rest)
  {
    assert ([s] + rest)[1..] == rest;
    NetworkTheorems.RunCons(net, s, rest);
  }

  lemma {:induction false} LawfulAppend(net: Network.Net, a: seq<Network.NetStep>, b: seq<Network.NetStep>)
    requires NetworkTheorems.IsRun(net, a) && NetworkTheorems.IsRun(NetworkTheorems.Run(net, a), b)
    requires NetworkTheorems.IsLawfulRun(net, a) && NetworkTheorems.IsLawfulRun(NetworkTheorems.Run(net, a), b)
    ensures NetworkTheorems.IsRun(net, a + b) && NetworkTheorems.IsLawfulRun(net, a + b)
    decreases |a|
  {
    hide Network.CanStep, Network.Next, NetworkTheorems.IsLawful;
    if a == [] {
      assert a + b == b;
    } else {
      LawfulAppend(Network.Next(net, a[0]), a[1..], b);
      LawfulCons(net, a[0], a[1..] + b);
      assert a + b == [a[0]] + (a[1..] + b);
    }
  }

  lemma LeadsInOne(net: Network.Net, s: Network.NetStep, lawful: bool)
    requires Network.CanStep(net, s) && (lawful ==> NetworkTheorems.IsLawful(net, s))
    ensures Leads(net, Network.Next(net, s), lawful)
  {
    hide Network.CanStep, Network.Next, NetworkTheorems.IsLawful;
    NetworkLimits.OneStep(net, s);
    if lawful {
      NetworkTheorems.NoSteps(Network.Next(net, s));
      LawfulCons(net, s, []);
      assert [s] + [] == [s];
    }
  }

  lemma LeadsOn(net: Network.Net, net1: Network.Net, net2: Network.Net, lawful: bool)
    requires Leads(net, net1, lawful) && Leads(net1, net2, lawful)
    ensures Leads(net, net2, lawful)
  {
    hide Network.CanStep, Network.Next;
    var a :| && NetworkTheorems.IsRun(net, a) && NetworkTheorems.Run(net, a) == net1
             && (lawful ==> NetworkTheorems.IsLawfulRun(net, a));
    var b :| && NetworkTheorems.IsRun(net1, b) && NetworkTheorems.Run(net1, b) == net2
             && (lawful ==> NetworkTheorems.IsLawfulRun(net1, b));
    NetworkLimits.RunAppend(net, a, b);
    if lawful { LawfulAppend(net, a, b); }
  }

  // ---------- A run of one node, inside the network ----------

  function CopiesOf(ids: seq<NodeId>, at: NodeId, pubs: seq<Publication>): seq<Network.Message> {
    if pubs == [] then [] else Network.Copies(ids, at, Some(pubs[0])) + CopiesOf(ids, at, pubs[1..])
  }

  lemma CopiesOfMaybe(ids: seq<NodeId>, at: NodeId, pub: Option<Publication>, pubs: seq<Publication>)
    ensures CopiesOf(ids, at, Maybe(pub) + pubs) == Network.Copies(ids, at, pub) + CopiesOf(ids, at, pubs)
  {
    if pub.Some? {
      assert (Maybe(pub) + pubs)[1..] == pubs;
    } else {
      assert Maybe(pub) + pubs == pubs;
    }
  }

  /** Steps of a node that lose no sender, as steps of the network. */
  predicate AreLocal(steps: seq<NodeSpec.Step>) {
    forall s | s in steps :: Network.IsLocal(s) && !s.SenderClosedStep?
  }

  function Locals(at: NodeId, steps: seq<NodeSpec.Step>): seq<Network.NetStep> {
    if steps == [] then [] else [Network.Local(at, steps[0])] + Locals(at, steps[1..])
  }

  function AfterNode(net: Network.Net, at: NodeId, n: NodeSpec.NodeState, pubs: seq<Publication>): Network.Net {
    net.(nodes := net.nodes[at := n], bag := net.bag + CopiesOf(net.ids, at, pubs))
  }

  lemma AfterNodeTwice(net: Network.Net, at: NodeId, n: NodeSpec.NodeState, pub: Option<Publication>,
                       n': NodeSpec.NodeState, pubs: seq<Publication>)
    ensures AfterNode(Network.WithEffect(net, at, NodeSpec.Effect(n, pub)), at, n', pubs) ==
            AfterNode(net, at, n', Maybe(pub) + pubs)
  {
    hide Network.Copies, CopiesOf;
    CopiesOfMaybe(net.ids, at, pub, pubs);
    assert net.nodes[at := n][at := n'] == net.nodes[at := n'];
    assert net.bag + Network.Copies(net.ids, at, pub) + CopiesOf(net.ids, at, pubs)
        == net.bag + (Network.Copies(net.ids, at, pub) + CopiesOf(net.ids, at, pubs));
  }

  lemma {:induction false} NodeRunInNet(net: Network.Net, at: NodeId, steps: seq<NodeSpec.Step>)
    requires at in net.nodes && AreLocal(steps) && NodeInvariants.CanRun(net.nodes[at], steps)
    ensures NetworkTheorems.IsRun(net, Locals(at, steps))
    ensures
      var r := NodeInvariants.Run(net.nodes[at], steps);
      NetworkTheorems.Run(net, Locals(at, steps)) == AfterNode(net, at, r.node, r.pubs)
    ensures NodeInvariants.IsRun(net.nodes[at], steps) ==> NetworkTheorems.IsLawfulRun(net, Locals(at, steps))
    decreases |steps|
  {
    hide NodeSpec.Apply, NodeSpec.Possible, NodeInvariants.Lawful;
    if steps == [] {
      assert net.nodes[at := net.nodes[at]] == net.nodes && net.bag + [] == net.bag;
      NetworkTheorems.NoSteps(net);
    } else {
      assert steps[0] in steps;
      var e := NodeSpec.Apply(net.nodes[at], steps[0]);
      var net1 := Network.WithEffect(net, at, e);
      var rest := NodeInvariants.Run(e.node, steps[1..]);
      assert net1 == Network.Next(net, Network.Local(at, steps[0]));
      NodeRunInNet(net1, at, steps[1..]);
      AfterNodeTwice(net, at, e.node, e.pub, rest.node, rest.pubs);
      NetworkTheorems.RunCons(net, Network.Local(at, steps[0]), Locals(at, steps[1..]));
    }
  }

  // ---------- The simulation ----------

  /** What the registries of the whole network do in a step is a run of module Network, lawful if the step is. */
  ghost predicate Follows(x: Full, s: FullStep)
    requires CanStep(x, s)
  {
    Leads(View(x), View(Next(x, s)), IsLawful(x, s))
  }

  lemma {:induction false} ClosingIsLocal(w: State, c: ConnectionId, order: seq<RequestId>)
    requires c in w.conns
    ensures AreLocal(RequestTheorems.CloseSteps(w, c, order))
    decreases |order|
  {
    if order != [] {
      ClosingIsLocal(CloseRequest(w, c, order[0]), c, order[1..]);
    }
  }

  lemma RequestStepsAreLocal(w: State, v: RequestRuns.Move)
    requires RequestRuns.CanMove(w, v) && IsOwn(v) && !v.Internal?
    ensures AreLocal(RequestTheorems.NodeSteps(w, v))
  {
    if v.EndConn? { ClosingIsLocal(w, v.c, v.order); }
  }

  lemma ViewAfter(x: Full, at: NodeId, r: Result)
    requires at in x.nodes
    ensures View(WithResult(x, at, r)) == AfterNode(View(x), at, r.state.node, Maybe(r.pub))
  {
    CopiesOfMaybe(x.ids, at, r.pub, []);
    assert Maybe(r.pub) + [] == Maybe(r.pub);
    assert Network.Copies(x.ids, at, r.pub) + [] == Network.Copies(x.ids, at, r.pub);
  }

  lemma RequestFollows(x: Full, at: NodeId, v: RequestRuns.Move)
    requires FullInv(x) && CanStep(x, Client(at, v)) && !v.Internal?
    ensures
      var steps := Locals(at, RequestTheorems.NodeSteps(x.nodes[at], v));
      && NetworkTheorems.IsRun(View(x), steps)
      && NetworkTheorems.Run(View(x), steps) == View(Next(x, Client(at, v)))
    ensures Follows(x, Client(at, v))
  {
    hide RequestRuns.Next, RequestTheorems.NodeSteps, RequestInvariants.Inv, NetworkTheorems.NetInv, Network.Copies;
    var w := x.nodes[at];
    var steps := RequestTheorems.NodeSteps(w, v);
    RequestTheorems.TransitionsAreNodeRuns(w, v);
    RequestTheorems.RequestsAreLawful(w, v);
    RequestStepsAreLocal(w, v);
    NodeRunInNet(View(x), at, steps);
    ViewAfter(x, at, RequestRuns.Next(w, v));
    assert x.faults + {} == x.faults;
    assert NetworkTheorems.IsRun(View(x), Locals(at, steps));
  }

  lemma InternalFollows(x: Full, at: NodeId, step: NodeSpec.Step)
    requires CanStep(x, Client(at, RequestRuns.Internal(step)))
    ensures
      var v := Client(at, RequestRuns.Internal(step));
      View(Next(x, v)) == Network.Next(View(x), Network.Local(at, step)) && Follows(x, v)
  {
    var s := Network.Local(at, step);
    LeadsInOne(View(x), s, IsLawful(x, Client(at, RequestRuns.Internal(step))));
    ViewAfter(x, at, RequestRuns.Next(x.nodes[at], RequestRuns.Internal(step)));
    assert x.faults + {} == x.faults;
    var e := NodeSpec.Apply(x.nodes[at].node, step);
    AfterNodeTwice(View(x), at, e.node, e.pub, e.node, []);
    assert Network.Next(View(x), s) == View(Next(x, Client(at, RequestRuns.Internal(step))));
  }

  lemma UnchangedView(x: Full, at: NodeId)
    requires at in x.nodes
    ensures View(x.(nodes := x.nodes[at := x.nodes[at]], bag := x.bag + [] + [])) == View(x)
  {
    assert x.nodes[at := x.nodes[at]] == x.nodes && x.bag + [] + [] == x.bag;
  }

  lemma OwnFollows(x: Full, m: Network.Message)
    requires m.dst in x.nodes && m.kind != Network.PendingReply && m.src == x.nodes[m.dst].node.id
    ensures View(Received(x, m)) == Network.Dispatch(View(x), m)
  {
    UnchangedView(x, m.dst);
  }

  lemma ResolveFollows(x: Full, m: Network.Message)
    requires m.dst in x.nodes && m.kind == Network.Published(Resolve) && m.src != x.nodes[m.dst].node.id
    ensures View(Received(x, m)) == Network.Dispatch(View(x), m)
  {
    UnchangedView(x, m.dst);
    assert x.nodes[m.dst := x.nodes[m.dst]] == x.nodes && x.bag + [] == x.bag;
  }

  lemma InfoIsInfo(w: State, from: NodeId, sid: StreamId)
    ensures
      var r, e := ReceiveInfoMessage(w, from, sid), NodeSpec.ReceiveInfo(w.node, from, sid);
      r.state.node == e.node && r.pub == e.pub
  {
  }

  lemma InfoFollows(x: Full, m: Network.Message)
    requires m.dst in x.nodes && m.kind == Network.Published(Info) && m.src != x.nodes[m.dst].node.id
    ensures View(Received(x, m)) == Network.Dispatch(View(x), m)
  {
    hide ReceiveInfoMessage, NodeSpec.ReceiveInfo, Network.Copies;
    var w := x.nodes[m.dst];
    InfoIsInfo(w, m.src, m.sid);
    var r := ReceiveInfoMessage(w, m.src, m.sid);
    assert x.bag + Network.Copies(x.ids, m.dst, r.pub) + [] == x.bag + Network.Copies(x.ids, m.dst, r.pub);
  }

  lemma ConnectFollows(x: Full, m: Network.Message)
    requires m.dst in x.nodes && m.kind == Network.Published(Connect) && m.src != x.nodes[m.dst].node.id
    ensures View(Received(x, m)) == Network.Dispatch(View(x), m)
  {
    hide NodeSpec.ReceiveConnect;
    assert x.bag + [] + [] == x.bag && x.bag + [] == x.bag;
  }

  lemma OfferFollows(x: Full, m: Network.Message)
    requires m.dst in x.nodes && m.kind.Published? && m.kind.kind.Offer? && m.src != x.nodes[m.dst].node.id
    ensures View(Received(x, m)) == Network.Dispatch(View(x), m)
  {
    hide NodeSpec.ReceiveOffer;
    assert x.bag + [] + [] == x.bag && x.bag + [] == x.bag;
  }

  lemma DeliverFollows(x: Full, i: nat)
    requires CanStep(x, Deliver(i))
    ensures View(Next(x, Deliver(i))) == Network.Next(View(x), Network.Deliver(i)) && Follows(x, Deliver(i))
  {
    hide Received, Network.Dispatch;
    var m := x.bag[i];
    var x0 := x.(bag := Network.Without(x.bag, i));
    if m.src == x.nodes[m.dst].node.id {
      OwnFollows(x0, m);
    } else {
      match m.kind.kind
      case Resolve => ResolveFollows(x0, m);
      case Info => InfoFollows(x0, m);
      case Connect => ConnectFollows(x0, m);
      case Offer(_, _) => OfferFollows(x0, m);
    }
    LeadsInOne(View(x), Network.Deliver(i), true);
    assert Network.Next(View(x), Network.Deliver(i)) == View(Next(x, Deliver(i)));
  }

  lemma AnswerFollows(x: Full, i: nat)
    requires CanStep(x, Answer(i))
    ensures View(Next(x, Answer(i))) == Network.Next(View(x), Network.Answer(i)) && Follows(x, Answer(i))
  {
    LeadsInOne(View(x), Network.Answer(i), true);
    assert Network.Next(View(x), Network.Answer(i)) == View(Next(x, Answer(i)));
  }

  /** Every step of the whole network is, for its registries and messages, a run of module Network. */
  lemma StepFollowsNetwork(x: Full, s: FullStep)
    requires FullInv(x) && CanStep(x, s)
    ensures Follows(x, s)
  {
    match s
    case Client(at, v) =>
      if v.Internal? { InternalFollows(x, at, v.step); } else { RequestFollows(x, at, v); }
    case Deliver(i) => DeliverFollows(x, i);
    case Answer(i) => AnswerFollows(x, i);
  }

  // ---------- Runs ----------

  /** A message that a node receives is, for the node, an INFO or an internal step, or nothing. */
  lemma ReceivingKeepsOK(w: State, src: NodeId, kind: Kind, sid: StreamId)
    requires RequestRuns.AllOK(w)
    ensures RequestRuns.AllOK(ReceiveRedisMessage(w, src, kind, sid).state)
  {
    hide RequestRuns.AllOK;
    if src != w.node.id {
      match kind
      case Resolve =>
      case Info => RequestTheorems.MoveKeepsAllOK(w, RequestRuns.InfoFrom(src, sid));
      case Connect =>
        RequestTheorems.MoveKeepsAllOK(w, RequestRuns.Internal(NodeSpec.ConnectStep(src, sid, w.node.nextStamp)));
      case Offer(video, audio) =>
        RequestTheorems.MoveKeepsAllOK(w, RequestRuns.Internal(NodeSpec.OfferStep(sid, video, audio)));
    }
  }

  /** Every step keeps the invariants of every node, with all its connections, and of the network. */
  lemma StepKeepsFullInv(x: Full, s: FullStep)
    requires FullInv(x) && CanStep(x, s)
    ensures FullInv(Next(x, s))
  {
    hide RequestRuns.AllOK, NetworkTheorems.NetInv, ReceiveRedisMessage, RequestRuns.Next, RequestRuns.CanMove;
    StepFollowsNetwork(x, s);
    LeadingKeepsInv(View(x), View(Next(x, s)), IsLawful(x, s));
    match s
    case Client(at, v) => RequestTheorems.MoveKeepsAllOK(x.nodes[at], v);
    case Deliver(i) =>
      var m := x.bag[i];
      ReceivingKeepsOK(x.nodes[m.dst], m.src, m.kind.kind, m.sid);
    case Answer(i) =>
  }

  lemma LeadingKeepsInv(net: Network.Net, net': Network.Net, lawful: bool)
    requires NetworkTheorems.NetInv(net) && Leads(net, net', lawful)
    ensures NetworkTheorems.NetInv(net')
  {
    hide NetworkTheorems.NetInv;
    var steps :| NetworkTheorems.IsRun(net, steps) && NetworkTheorems.Run(net, steps) == net';
    NetworkTheorems.RunKeepsNetInv(net, steps);
  }

  function Start(ids: seq<NodeId>, limit: nat): Full {
    Full(ids, map a | a in ids :: RequestTheorems.Start(a, limit), [], {})
  }

  lemma StartFullInv(ids: seq<NodeId>, limit: nat)
    ensures FullInv(Start(ids, limit)) && View(Start(ids, limit)) == NetworkTheorems.Start(ids)
  {
    hide RequestRuns.AllOK, NetworkTheorems.NetInv, NodeSpec.Init;
    var x := Start(ids, limit);
    NetworkTheorems.StartInv(ids);
    forall a | a in x.nodes ensures RequestRuns.AllOK(x.nodes[a]) {
      RequestTheorems.StartOK(a, limit);
    }
    forall a | a in ids ensures a in x.nodes && x.nodes[a].node == NodeSpec.Init(a) {
    }
    assert View(x).nodes == NetworkTheorems.Start(ids).nodes;
  }

  ghost predicate IsRun(x: Full, steps: seq<FullStep>)
    decreases |steps|
  {
    steps != [] ==> CanStep(x, steps[0]) && IsRun(Next(x, steps[0]), steps[1..])
  }

  function Run(x: Full, steps: seq<FullStep>): Full
    requires IsRun(x, steps)
    decreases |steps|
  {
    if steps == [] then x else Run(Next(x, steps[0]), steps[1..])
  }

  predicate IsLawfulRun(x: Full, steps: seq<FullStep>)
    requires IsRun(x, steps)
    decreases |steps|
  {
    steps != [] ==> IsLawful(x, steps[0]) && IsLawfulRun(Next(x, steps[0]), steps[1..])
  }

  lemma {:induction false} RunFollows(x: Full, steps: seq<FullStep>, lawful: bool)
    requires FullInv(x) && IsRun(x, steps) && (lawful ==> IsLawfulRun(x, steps))
    ensures FullInv(Run(x, steps)) && Leads(View(x), View(Run(x, steps)), lawful)
    decreases |steps|
  {
    hide CanStep, Next, FullInv, View, Leads, IsLawful;
    if steps == [] {
      LeadsNowhere(View(x), lawful);
    } else {
      var x1 := Next(x, steps[0]);
      StepFollowsNetwork(x, steps[0]);
      StepKeepsFullInv(x, steps[0]);
      RunFollows(x1, steps[1..], lawful);
      MayLeadUnlawfully(View(x), View(x1), IsLawful(x, steps[0]), lawful);
      LeadsOn(View(x), View(x1), View(Run(x, steps)), lawful);
    }
  }

  lemma LeadsNowhere(net: Network.Net, lawful: bool)
    ensures Leads(net, net, lawful)
  {
    NetworkTheorems.NoSteps(net);
    assert NetworkTheorems.IsLawfulRun(net, []);
  }

  lemma MayLeadUnlawfully(net: Network.Net, net': Network.Net, lawful: bool, less: bool)
    requires Leads(net, net', lawful) && (less ==> lawful)
    ensures Leads(net, net', less)
  {
  }

  /** In every run of a network of full nodes, from its start, the registries and messages are in a state that
      module Network reaches, and every node keeps the invariants of its tables, links and registries: the
      theorems about the network and about clients hold together. If no object that has left delivers tracks,
      Network reaches the state lawfully, and the theorems about tracks hold too. */
  lemma FullRunsAreRuns(ids: seq<NodeId>, limit: nat, steps: seq<FullStep>)
    requires IsRun(Start(ids, limit), steps)
    ensures
      var x := Run(Start(ids, limit), steps);
      && NetworkTheorems.Reachable(View(x))
      && (forall a | a in x.nodes :: RequestRuns.AllOK(x.nodes[a]))
      && (IsLawfulRun(Start(ids, limit), steps) ==>
            && NetworkTheorems.LawfullyReachable(View(x))
            && forall a | a in x.nodes :: NodeInvariants.Inv(x.nodes[a].node))
  {
    hide Network.CanStep, Network.Next, CanStep, Next, RequestRuns.AllOK, NodeInvariants.Inv, NetworkTheorems.NetInv;
    var x := Run(Start(ids, limit), steps);
    StartFullInv(ids, limit);
    RunFollows(Start(ids, limit), steps, IsLawfulRun(Start(ids, limit), steps));
    if IsLawfulRun(Start(ids, limit), steps) {
      NetworkTheorems.LawfullyReachableInv(View(x));
      forall a | a in x.nodes ensures NodeInvariants.Inv(x.nodes[a].node) {
        assert View(x).nodes[a] == x.nodes[a].node;
      }
    }
  }
}
