/**
  How a viewer comes to be served: the publisher's media arrives, the viewer's node asks for the stream, and
  the publisher's node makes a sender with a task queued, whose offer makes a peer connection.
 */
module Serving {
  import opened Types
  import opened NodeSpec
  import opened Network
  import opened NetworkTheorems
  import opened NetworkLimits

  // ---------- A viewer arrives ----------

  /** The node takes a sink id, and registers a new sink under it. */
  function Playing(at: NodeId, sid: StreamId, n: NodeState): seq<NetStep> {
    [Local(at, GetSinkIDStep), Local(at, RegisterSinkStep(sid, SinkId(n.sinkCount + 1), NewSink(0, "v")))]
  }

  lemma PlayingBrings(w: Net, at: NodeId, sid: StreamId, steps: seq<NetStep>)
    requires at in w.nodes && steps == Playing(at, sid, w.nodes[at])
    ensures IsRun(w, steps)
    ensures
      var w' := Run(w, steps);
      && HasViewers(w', at, sid) && w'.nodes.Keys == w.nodes.Keys && w'.faults == w.faults
      && w'.nodes[at].sources == w.nodes[at].sources
      && (forall b | b in w.nodes && b != at :: w'.nodes[b] == w.nodes[b])
      && (ReadyTracks(w.nodes[at], sid).None? ==> w'.bag == w.bag + Copies(w.ids, at, Some(Broadcast(Resolve, sid))))
  {
    var w1 := Next(w, steps[0]);
    assert w1.bag == w.bag;
    TwoSteps(w, steps[0], steps[1]);
    assert SinkId(w.nodes[at].sinkCount + 1) in SinksAt(Next(w1, steps[1]).nodes[at], sid);
  }

  lemma PlayingIsHarmless(at: NodeId, sid: StreamId, n: NodeState, a: NodeId)
    ensures forall s | s in Playing(at, sid, n) :: !Contests(s, sid, a) && !LosesSender(s)
  {
  }

  // ---------- Senders with a task queued ----------

  /** While the node hosts the stream it is ready with a video track, and every sender of it has a task queued. */
  predicate IsEager(n: NodeState, sid: StreamId) {
    sid in n.sources ==>
      && n.sources[sid].ready && n.sources[sid].tracks.video.Some?
      && forall r | r in SendersAt(n, sid) :: n.senders[sid][r].hasVideo && n.senders[sid][r].queued > 0
  }

  predicate Eager(w: Net, sid: StreamId, a: NodeId) {
    a in w.nodes && IsEager(w.nodes[a], sid)
  }

  lemma ConnectKeepsEager(n: NodeState, sid: StreamId, from: NodeId, other: StreamId, stamp: nat)
    ensures IsEager(n, sid) ==> IsEager(ReceiveConnect(n, from, other, stamp), sid)
  {
  }

  lemma InfoKeepsEager(n: NodeState, sid: StreamId, from: NodeId, other: StreamId)
    ensures IsEager(n, sid) ==> IsEager(ReceiveInfo(n, from, other).node, sid)
  {
  }

  lemma OfferKeepsEager(n: NodeState, sid: StreamId, other: StreamId, video: bool, audio: bool)
    ensures IsEager(n, sid) ==> IsEager(ReceiveOffer(n, other, video, audio), sid)
  {
  }

  lemma DispatchKeepsEager(w: Net, m: Message, sid: StreamId, a: NodeId)
    requires m.dst in w.nodes && m.kind != PendingReply && Eager(w, sid, a)
    ensures Eager(Dispatch(w, m), sid, a)
  {
    hide ReceiveConnect, ReceiveInfo, ReceiveOffer, IsEager, Copies;
    var n := w.nodes[m.dst];
    if m.src != n.id {
      match m.kind.kind
      case Resolve =>
      case Info => InfoKeepsEager(n, sid, m.src, m.sid);
      case Connect => ConnectKeepsEager(n, sid, m.src, m.sid, n.nextStamp);
      case Offer(video, audio) => OfferKeepsEager(n, sid, m.sid, video, audio);
    }
  }

  lemma EagerStays(w: Net, s: NetStep, sid: StreamId, a: NodeId)
    requires CanStep(w, s) && IsDelivery(s) && Eager(w, sid, a)
    ensures Eager(Next(w, s), sid, a)
  {
    hide Dispatch, IsEager;
    if s.Deliver? { DispatchKeepsEager(w.(bag := Without(w.bag, s.i)), w.bag[s.i], sid, a); }
  }

  lemma {:induction false} EagerThroughout(w: Net, steps: seq<NetStep>, sid: StreamId, a: NodeId)
    requires IsRun(w, steps) && AllDeliveries(steps) && Eager(w, sid, a)
    ensures Eager(Run(w, steps), sid, a)
    decreases |steps|
  {
    hide CanStep, Next, Eager;
    if steps != [] {
      assert steps[0] in steps;
      EagerStays(w, steps[0], sid, a);
      EagerThroughout(Next(w, steps[0]), steps[1..], sid, a);
    }
  }

  /** A new source gets the one track it expects. */
  lemma TrackArrives(n: NodeState, sid: StreamId, stamp: nat)
    requires Lookup(n.sources, sid) == Some(NewSource(stamp, 0, "p", true, false)) && sid !in n.senders
    ensures sid in n.sources && IsEager(SourceTrack(n, sid, Video, 1), sid)
  {
  }

  lemma MediaArrives(w: Net, sid: StreamId, a: NodeId, stamp: nat, s: NetStep)
    requires a in w.nodes && Lookup(w.nodes[a].sources, sid) == Some(NewSource(stamp, 0, "p", true, false))
    requires sid !in w.nodes[a].senders && s == Local(a, SourceTrackStep(sid, Video, 1))
    ensures CanStep(w, s) && Eager(Next(w, s), sid, a) && !Contests(s, sid, a) && !LosesSender(s)
    ensures forall b :: HasViewers(w, b, sid) ==> HasViewers(Next(w, s), b, sid)
  {
    hide Copies;
    var n := w.nodes[a];
    TrackArrives(n, sid, stamp);
    assert Next(w, s).nodes == w.nodes[a := SourceTrack(n, sid, Video, 1)];
    TrackKeepsViewers(n, sid);
  }

  lemma TrackKeepsViewers(n: NodeState, sid: StreamId)
    requires sid in n.sources
    ensures SinksAt(SourceTrack(n, sid, Video, 1), sid).Keys == SinksAt(n, sid).Keys
  {
  }

  lemma PublishingReplaces(n: NodeState, sid: StreamId, source: Source)
    ensures
      var n' := RegisterSource(n, sid, source).node;
      Lookup(n'.sources, sid) == Some(source) && sid !in n'.senders
  {
  }

  // ---------- All is delivered ----------

  /** Nothing is in flight or lost, b's viewers are served by a, and a's sender for b has a task queued. */
  predicate AllArrived(w: Net, sid: StreamId, a: NodeId, b: NodeId) {
    && w.bag == [] && w.faults == {} && HostsStream(w, a, sid) && HasViewers(w, b, sid)
    && ServedFrom(w, sid, a, b) && Eager(w, sid, a)
  }

  /** a publishes, and while nobody contests it b gets a viewer and a its media; then messages are delivered. */
  lemma Arriving(w: Net, sid: StreamId, a: NodeId, b: NodeId, publish: NetStep, w1: Net, steps: seq<NetStep>, w2: Net)
    returns (more: seq<NetStep>)
    requires Reachable(w) && Unclaimed(w, sid, a) && w.faults == {} && a != b
    requires publish.Local? && publish.step.RegisterSourceStep? && publish.step.sid == sid && publish.at == a
    requires CanStep(w, publish) && w1 == Next(w, publish) && IsRun(w1, steps) && w2 == Run(w1, steps)
    requires HasViewers(w2, b, sid) && Eager(w2, sid, a)
    requires forall s | s in steps :: !Contests(s, sid, a) && !LosesSender(s)
    ensures IsRun(w2, more) && AllDeliveries(more) && AllArrived(Run(w2, more), sid, a, b)
  {
    hide CanStep, Next, Reachable, Unclaimed, HasViewers, HostsStream, ServedFrom, Eager, NetInv, Contests;
    UncontestedPublicationSettles(w, sid, a, publish.step.source, steps);
    more :| && IsRun(w2, more) && AllDeliveries(more)
            && var w3 := Run(w2, more);
            && w3.bag == [] && HostsStream(w3, a, sid)
            && (forall r | HasViewers(w2, r, sid) && r != a :: !HostsStream(w3, r, sid) && ServedFrom(w3, sid, a, r));
    EagerThroughout(w2, more, sid, a);
    ReachableInv(w);
    StepKeepsNetInv(w, publish);
    RunKeepsNetInv(w1, steps);
    DeliveriesKeepViewers(w2, more, b, sid);
    RunAppend(w1, steps, more);
    RunCons(w, publish, steps + more);
    NobodyLosesASender(publish, steps, more);
    NoLossNoFaults(w, [publish] + (steps + more));
  }

  lemma NobodyLosesASender(publish: NetStep, steps: seq<NetStep>, more: seq<NetStep>)
    requires publish.Local? && publish.step.RegisterSourceStep?
    requires AllDeliveries(more) && forall s | s in steps :: !LosesSender(s)
    ensures forall s | s in [publish] + (steps + more) :: !LosesSender(s)
  {
  }

  // ---------- The sender's peer connection ----------

  /** At rest, b's viewers are served by a through a peer connection. */
  predicate Connected(w: Net, sid: StreamId, a: NodeId, b: NodeId) {
    && w.bag == [] && HostsStream(w, a, sid) && HasViewers(w, b, sid) && ServedFrom(w, sid, a, b)
    && IsSender(w.nodes[a], sid, b) && w.nodes[a].senders[sid][b].peer
  }

  lemma SenderRuns(n: NodeState, sid: StreamId, b: NodeId)
    requires sid in n.sources && IsEager(n, sid) && IsSender(n, sid, b)
    ensures n.senders[sid][b].queued > 0
    ensures
      var e := RunSender(n, sid, b);
      && e.node.sources == n.sources && e.node.sinks == n.sinks && e.node.relays == n.relays
      && IsSender(e.node, sid, b) && e.node.senders[sid][b].peer && e.node.id == n.id
      && e.pub.Some? && e.pub.value.Direct? && e.pub.value.to == b && e.pub.value.kind.Offer? && e.pub.value.sid == sid
  {
    assert b in SendersAt(n, sid);
  }

  /** The sender's task runs: its offer leaves for b. */
  lemma TaskRuns(w: Net, sid: StreamId, a: NodeId, b: NodeId, s: NetStep)
    requires AllArrived(w, sid, a, b) && a != b && s == Local(a, RunSenderStep(sid, b))
    ensures CanStep(w, s)
    ensures
      var w1 := Next(w, s);
      && Connected(w1.(bag := []), sid, a, b)
      && |w1.bag| == 1 && w1.bag[0].src == a && w1.bag[0].dst == b && w1.bag[0].sid == sid
      && w1.bag[0].kind.Published? && w1.bag[0].kind.kind.Offer?
  {
    SenderRuns(w.nodes[a], sid, b);
    hide IsEager, RunSender;
  }

  lemma OfferArrives(w: Net, sid: StreamId, a: NodeId, b: NodeId)
    requires Connected(w.(bag := []), sid, a, b) && a != b
    requires |w.bag| == 1 && w.bag[0].src == a && w.bag[0].dst == b && w.bag[0].sid == sid
    requires w.bag[0].kind.Published? && w.bag[0].kind.kind.Offer?
    ensures CanStep(w, Deliver(0)) && Connected(Next(w, Deliver(0)), sid, a, b)
  {
    assert Without(w.bag, 0) == [];
  }
}
