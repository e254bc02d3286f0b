/**
  What every run of the whole network keeps, and what it means for publishers and viewers.
 */
module NetworkTheorems {
  import opened Types
  import opened NodeSpec
  import opened StreamSpec
  import opened Network
  import NodeInvariants
  import Location

  // ---------- The invariant of the network ----------

  ghost predicate StreamsOK(w: Net) {
    forall sid :: Location.Inv(Seen(w, sid))
  }

  ghost predicate NetInv(w: Net) {
    WellFormed(w) && StreamsOK(w)
  }

  /** Where a local step publishes: to everyone, or to a node it has a sender for. */
  lemma LocalPublishesTo(e: Slice, step: Step, id: NodeId)
    requires SPossible(id, e, step) && IsLocal(step)
    ensures var pub := SPub(e, step, id); pub.Some? && pub.value.Direct? ==> pub.value.to in e.senders
  {
  }

  lemma CopiesAddressed(w: Net, src: NodeId, pub: Option<Publication>)
    requires WellFormed(w) && src in w.nodes
    requires pub.Some? && pub.value.Direct? ==> pub.value.to in w.nodes
    ensures forall m | m in Copies(w.ids, src, pub) :: m.src in w.nodes && m.dst in w.nodes
  {
  }

  /** A node takes a step whose message, if it is not a broadcast, goes to a known node. */
  lemma EffectKeepsForm(w: Net, at: NodeId, step: Step)
    requires WellFormed(w) && at in w.nodes && Possible(w.nodes[at], step)
    requires
      var pub := Apply(w.nodes[at], step).pub;
      pub.Some? && pub.value.Direct? ==> pub.value.to in w.nodes
    ensures WellFormed(WithEffect(w, at, Apply(w.nodes[at], step)))
  {
    hide Apply;
    var e := Apply(w.nodes[at], step);
    CopiesAddressed(w, at, e.pub);
    NodeInvariants.StepSeenFrom(w.nodes[at], step, "");
  }

  /** A local step publishes to nodes of the network only. */
  lemma LocalTargets(w: Net, at: NodeId, step: Step)
    requires NetInv(w) && CanStep(w, Local(at, step))
    ensures
      var pub := Apply(w.nodes[at], step).pub;
      pub.Some? && pub.value.Direct? ==> pub.value.to in w.nodes
  {
    hide Apply, NodeInvariants.Inv, SNext;
    var n := w.nodes[at];
    if StreamOf(step).Some? {
      var sid := step.sid;
      NodeInvariants.StepSeenFrom(n, step, sid);
      LocalPublishesTo(SliceOf(n, sid), step, n.id);
      assert Location.Inv(Seen(w, sid));
      assert Seen(w, sid).locs[at].senders <= w.nodes.Keys;
    } else {
      TakingIdIsSilent(n, step);
    }
  }

  lemma TakingIdIsSilent(n: NodeState, step: Step)
    requires Possible(n, step) && StreamOf(step).None?
    ensures Apply(n, step).pub.None?
  {
  }

  lemma LocalKeepsForm(w: Net, at: NodeId, step: Step)
    requires NetInv(w) && CanStep(w, Local(at, step))
    ensures WellFormed(LocalNext(w, at, step))
  {
    hide Apply, StreamsOK, WithEffect, WellFormed;
    LocalTargets(w, at, step);
    EffectKeepsForm(w, at, step);
    var w' := WithEffect(w, at, Apply(w.nodes[at], step));
    FaultsAside(w', w'.faults);
    FaultsAside(w', w.faults + if step.SenderClosedStep? then {(at, step.remote, step.sid)} else {});
  }

  lemma FaultsAside(w: Net, faults: set<(NodeId, NodeId, StreamId)>)
    requires WellFormed(w)
    ensures WellFormed(w.(faults := faults))
  {
  }

  lemma DispatchKeepsForm(w: Net, m: Message)
    requires WellFormed(w) && m.dst in w.nodes && m.src in w.nodes && m.kind != PendingReply
    ensures WellFormed(Dispatch(w, m))
  {
    var n := w.nodes[m.dst];
    if m.src != m.dst {
      match m.kind.kind
      case Resolve =>
      case Info => EffectKeepsForm(w, m.dst, InfoStep(m.src, m.sid));
      case Connect => EffectKeepsForm(w, m.dst, ConnectStep(m.src, m.sid, n.nextStamp));
      case Offer(v, a) => EffectKeepsForm(w, m.dst, OfferStep(m.sid, v, a));
    }
  }

  lemma StepKeepsForm(w: Net, s: NetStep)
    requires NetInv(w) && CanStep(w, s)
    ensures WellFormed(Next(w, s))
  {
    match s
    case Local(at, step) => LocalKeepsForm(w, at, step);
    case Deliver(i) =>
      InBagWithout(w.bag, i);
      DispatchKeepsForm(w.(bag := Without(w.bag, i)), w.bag[i]);
    case Answer(i) =>
      InBagWithout(w.bag, i);
  }

  /** Every step of the network keeps its invariant. */
  lemma StepKeepsNetInv(w: Net, s: NetStep)
    requires NetInv(w) && CanStep(w, s)
    ensures NetInv(Next(w, s))
  {
    StepKeepsForm(w, s);
    forall sid ensures Location.Inv(Seen(Next(w, s), sid)) {
      assert Location.Inv(Seen(w, sid));
      StepFollowsProtocol(w, s, sid);
      Location.MoveKeepsInv(Seen(w, sid), MoveOf(w, s, sid));
    }
  }

  // ---------- Runs ----------

  function Start(ids: seq<NodeId>): Net {
    Net(ids, map x | x in ids :: Init(x), [], {})
  }

  predicate IsRun(w: Net, steps: seq<NetStep>)
    decreases |steps|
  {
    steps != [] ==> CanStep(w, steps[0]) && IsRun(Next(w, steps[0]), steps[1..])
  }

  function Run(w: Net, steps: seq<NetStep>): Net
    requires IsRun(w, steps)
    decreases |steps|
  {
    if steps == [] then w else Run(Next(w, steps[0]), steps[1..])
  }

  lemma StartInv(ids: seq<NodeId>)
    ensures NetInv(Start(ids))
  {
    var w := Start(ids);
    forall sid ensures Location.Inv(Seen(w, sid)) {
      assert forall x | x in w.nodes :: SliceOf(w.nodes[x], sid) == Slice(None, None, map[], map[]);
    }
  }

  /** Every run of the network keeps its invariant. */
  lemma {:induction false} RunKeepsNetInv(w: Net, steps: seq<NetStep>)
    requires NetInv(w) && IsRun(w, steps)
    ensures NetInv(Run(w, steps))
    decreases |steps|
  {
    if steps != [] {
      StepKeepsNetInv(w, steps[0]);
      RunKeepsNetInv(Next(w, steps[0]), steps[1..]);
    }
  }

  ghost predicate Reachable(w: Net) {
    exists ids, steps :: IsRun(Start(ids), steps) && w == Run(Start(ids), steps)
  }

  lemma ReachableInv(w: Net)
    requires Reachable(w)
    ensures NetInv(w)
  {
    var ids, steps :| IsRun(Start(ids), steps) && w == Run(Start(ids), steps);
    StartInv(ids);
    RunKeepsNetInv(Start(ids), steps);
  }

  // ---------- Runs in which objects that have left deliver no tracks ----------

  ghost predicate NodesOK(w: Net) {
    forall x | x in w.nodes :: NodeInvariants.Inv(w.nodes[x])
  }

  predicate IsLawful(w: Net, s: NetStep) {
    s.Local? && s.at in w.nodes ==> NodeInvariants.Lawful(w.nodes[s.at], s.step)
  }

  predicate IsLawfulRun(w: Net, steps: seq<NetStep>)
    requires IsRun(w, steps)
    decreases |steps|
  {
    steps != [] ==> IsLawful(w, steps[0]) && IsLawfulRun(Next(w, steps[0]), steps[1..])
  }

  ghost predicate LawfullyReachable(w: Net) {
    exists ids, steps :: IsRun(Start(ids), steps) && IsLawfulRun(Start(ids), steps) && w == Run(Start(ids), steps)
  }

  lemma NodeAfter(w: Net, s: NetStep, x: NodeId)
    requires WellFormed(w) && NodesOK(w) && CanStep(w, s) && IsLawful(w, s) && x in w.nodes
    ensures x in Next(w, s).nodes && NodeInvariants.Inv(Next(w, s).nodes[x])
  {
    match s
    case Local(at, step) => NodeInvariants.StepKeepsInv(w.nodes[at], step);
    case Deliver(i) => DispatchKeepsNode(w.(bag := Without(w.bag, i)), w.bag[i]);
    case Answer(i) =>
  }

  lemma DispatchKeepsNode(w: Net, m: Message)
    requires m.dst in w.nodes && m.kind != PendingReply
    requires w.nodes[m.dst].id == m.dst && NodeInvariants.Inv(w.nodes[m.dst])
    ensures Dispatch(w, m).nodes.Keys == w.nodes.Keys && NodeInvariants.Inv(Dispatch(w, m).nodes[m.dst])
    ensures forall x | x in w.nodes && x != m.dst :: Dispatch(w, m).nodes[x] == w.nodes[x]
  {
    hide NodeInvariants.Inv, Apply;
    var n := w.nodes[m.dst];
    if m.src != m.dst {
      match m.kind.kind
      case Resolve =>
      case Info => NodeInvariants.StepKeepsInv(n, InfoStep(m.src, m.sid));
      case Connect => NodeInvariants.StepKeepsInv(n, ConnectStep(m.src, m.sid, n.nextStamp));
      case Offer(v, a) => NodeInvariants.StepKeepsInv(n, OfferStep(m.sid, v, a));
    }
  }

  lemma StepKeepsNodeSet(w: Net, s: NetStep)
    requires CanStep(w, s)
    ensures Next(w, s).nodes.Keys == w.nodes.Keys
  {
  }

  lemma {:induction false} RunKeepsNodes(w: Net, steps: seq<NetStep>)
    requires NetInv(w) && NodesOK(w) && IsRun(w, steps) && IsLawfulRun(w, steps)
    ensures NodesOK(Run(w, steps))
    decreases |steps|
  {
    if steps != [] {
      hide CanStep, IsLawful, Next, NodeInvariants.Inv, StreamsOK;
      var w1 := Next(w, steps[0]);
      StepKeepsNetInv(w, steps[0]);
      StepKeepsNodeSet(w, steps[0]);
      forall x | x in w1.nodes ensures NodeInvariants.Inv(w1.nodes[x]) {
        NodeAfter(w, steps[0], x);
      }
      RunKeepsNodes(w1, steps[1..]);
    }
  }

  lemma StartNodes(ids: seq<NodeId>)
    ensures NodesOK(Start(ids))
  {
    forall x | x in Start(ids).nodes ensures NodeInvariants.Inv(Start(ids).nodes[x]) {
      NodeInvariants.InitInv(x);
    }
  }

  lemma LawfullyReachableInv(w: Net)
    requires LawfullyReachable(w)
    ensures Reachable(w) && NodesOK(w)
  {
    var ids, steps :| IsRun(Start(ids), steps) && IsLawfulRun(Start(ids), steps) && w == Run(Start(ids), steps);
    StartInv(ids);
    StartNodes(ids);
    RunKeepsNodes(Start(ids), steps);
  }

  // ---------- The invariant, said about registries and messages ----------

  function MessageOf(mail: Location.Mail, sid: StreamId): Message {
    var kind := match mail.what
                case ReplyMail => PendingReply
                case ResolveMail => Published(Resolve)
                case InfoMail => Published(Info)
                case ConnectMail => Published(Connect);
    Message(kind, mail.src, mail.dst, sid)
  }

  lemma MailIsMessage(bag: seq<Message>, sid: StreamId, mail: Location.Mail)
    ensures mail in Flight(bag, sid) <==> MessageOf(mail, sid) in bag
  {
    var m := MessageOf(mail, sid);
    assert IsMail(m, sid) && MailOf(m) == mail;
    if mail in Flight(bag, sid) {
      var m' :| m' in bag && IsMail(m', sid) && MailOf(m') == mail;
      assert m' == m;
    }
  }

  predicate InfoFlying(w: Net, a: NodeId, b: NodeId, sid: StreamId) {
    Message(Published(Info), a, b, sid) in w.bag
  }

  predicate HostsStream(w: Net, a: NodeId, sid: StreamId) {
    a in w.nodes && sid in w.nodes[a].sources
  }

  predicate HasViewers(w: Net, b: NodeId, sid: StreamId) {
    b in w.nodes && SinksAt(w.nodes[b], sid) != map[]
  }

  lemma HostsSeen(w: Net, a: NodeId, sid: StreamId)
    ensures HostsStream(w, a, sid) <==> Location.Hosts(Seen(w, sid), a)
  {
    assert a in w.nodes ==> Locs(w.nodes, sid)[a] == LocOf(SliceOf(w.nodes[a], sid));
  }

  /** The protocol's invariants of one stream, for nodes a and b. */
  lemma ReachableStream(w: Net, sid: StreamId, a: NodeId, b: NodeId)
    requires Reachable(w)
    ensures NetInv(w)
    ensures Location.TwoHostsAt(Seen(w, sid), a, b)
    ensures Location.SeenAt(Seen(w, sid), a, b)
    ensures Location.HandshakeAt(Seen(w, sid), a, b)
  {
    ReachableInv(w);
    assert Location.Inv(Seen(w, sid));
  }

  lemma TwoHostsInBag(w: Net, sid: StreamId, a: NodeId, b: NodeId)
    requires Location.TwoHostsAt(Seen(w, sid), a, b)
    requires HostsStream(w, a, sid) && HostsStream(w, b, sid) && a != b
    ensures InfoFlying(w, a, b, sid) || InfoFlying(w, b, a, sid)
  {
    HostsSeen(w, a, sid);
    HostsSeen(w, b, sid);
    MailIsMessage(w.bag, sid, Location.Mail(Location.InfoMail, a, b));
    MailIsMessage(w.bag, sid, Location.Mail(Location.InfoMail, b, a));
  }

  /** Whenever two nodes both hold a source for a stream, an INFO between them is in flight. */
  lemma TwoHostsMeetInfo(w: Net, sid: StreamId, a: NodeId, b: NodeId)
    requires Reachable(w) && HostsStream(w, a, sid) && HostsStream(w, b, sid) && a != b
    ensures InfoFlying(w, a, b, sid) || InfoFlying(w, b, a, sid)
  {
    ReachableStream(w, sid, a, b);
    TwoHostsInBag(w, sid, a, b);
  }

  /** b will get a relay for the stream that a hosts: it has one, or a message that leads to one is in flight. */
  predicate WillBeRelayed(w: Net, sid: StreamId, a: NodeId, b: NodeId)
    requires b in w.nodes
  {
    || sid in w.nodes[b].relays
    || Message(Published(Resolve), b, a, sid) in w.bag
    || Message(PendingReply, a, b, sid) in w.bag
    || InfoFlying(w, a, b, sid)
    || InfoFlying(w, b, a, sid)
  }

  lemma SeenInBag(w: Net, sid: StreamId, a: NodeId, b: NodeId)
    requires Location.SeenAt(Seen(w, sid), a, b)
    requires HostsStream(w, a, sid) && a != b && HasViewers(w, b, sid) && !HostsStream(w, b, sid)
    ensures WillBeRelayed(w, sid, a, b)
  {
    HostsSeen(w, a, sid);
    HostsSeen(w, b, sid);
    assert Seen(w, sid).locs[b] == LocOf(SliceOf(w.nodes[b], sid));
    MailIsMessage(w.bag, sid, Location.Mail(Location.ResolveMail, b, a));
    MailIsMessage(w.bag, sid, Location.Mail(Location.ReplyMail, a, b));
    MailIsMessage(w.bag, sid, Location.Mail(Location.InfoMail, a, b));
    MailIsMessage(w.bag, sid, Location.Mail(Location.InfoMail, b, a));
  }

  /** No viewer is forgotten, at any moment of any run. */
  lemma NoViewerForgotten(w: Net, sid: StreamId, a: NodeId, b: NodeId)
    requires Reachable(w) && HostsStream(w, a, sid) && a != b
    requires HasViewers(w, b, sid) && !HostsStream(w, b, sid)
    ensures WillBeRelayed(w, sid, a, b)
  {
    ReachableStream(w, sid, a, b);
    SeenInBag(w, sid, a, b);
  }

  lemma FaultSeen(w: Net, a: NodeId, b: NodeId, sid: StreamId)
    ensures (a, b) in Seen(w, sid).faults <==> (a, b, sid) in w.faults
  {
  }

  /** a serves b, or a message that makes it do so is in flight, or its sender for b was lost. */
  predicate WillBeServed(w: Net, sid: StreamId, a: NodeId, b: NodeId)
    requires a in w.nodes
  {
    || b in SendersAt(w.nodes[a], sid)
    || Message(Published(Connect), b, a, sid) in w.bag
    || InfoFlying(w, a, b, sid)
    || (a, b, sid) in w.faults
  }

  lemma HandshakeInBag(w: Net, sid: StreamId, a: NodeId, b: NodeId)
    requires Location.HandshakeAt(Seen(w, sid), a, b)
    requires HostsStream(w, a, sid) && b in w.nodes
    requires sid in w.nodes[b].relays && w.nodes[b].relays[sid].remoteId == a
    ensures WillBeServed(w, sid, a, b)
  {
    HostsSeen(w, a, sid);
    var s := Seen(w, sid);
    assert s.locs[b] == LocOf(SliceOf(w.nodes[b], sid)) && s.locs[a] == LocOf(SliceOf(w.nodes[a], sid));
    MailIsMessage(w.bag, sid, Location.Mail(Location.ConnectMail, b, a));
    MailIsMessage(w.bag, sid, Location.Mail(Location.InfoMail, a, b));
    FaultSeen(w, a, b, sid);
  }

  /** A relay that names a host is served by it or will be, at any moment of any run. */
  lemma RelayMeetsSender(w: Net, sid: StreamId, a: NodeId, b: NodeId)
    requires Reachable(w) && HostsStream(w, a, sid) && b in w.nodes
    requires sid in w.nodes[b].relays && w.nodes[b].relays[sid].remoteId == a
    ensures WillBeServed(w, sid, a, b)
  {
    ReachableStream(w, sid, a, b);
    HandshakeInBag(w, sid, a, b);
  }

  // ---------- Quiescence ----------

  /** No message or pending reply about where the stream is. */
  predicate Quiet(w: Net, sid: StreamId) {
    forall m | m in w.bag :: !IsMail(m, sid)
  }

  lemma QuietSeen(w: Net, sid: StreamId)
    requires Quiet(w, sid)
    ensures Location.Quiet(Seen(w, sid))
  {
  }

  /** a has a sender for b exactly if that sender was not lost since it was last asked for. */
  predicate Fed(w: Net, sid: StreamId, a: NodeId, b: NodeId)
    requires a in w.nodes
  {
    IsSender(w.nodes[a], sid, b) <==> (a, b, sid) !in w.faults
  }

  /** When nothing about a stream's place is in flight: it has at most one host; a host has no relay; every
      other node with viewers has a relay; and every relay that names the host has a sender there if and only
      if that sender was not lost. */
  lemma Quiescence(w: Net, sid: StreamId, a: NodeId, b: NodeId)
    requires Reachable(w) && Quiet(w, sid) && HostsStream(w, a, sid) && b in w.nodes && b != a
    ensures !HostsStream(w, b, sid) && sid !in w.nodes[a].relays
    ensures HasViewers(w, b, sid) ==> sid in w.nodes[b].relays
    ensures sid in w.nodes[b].relays && w.nodes[b].relays[sid].remoteId == a ==> Fed(w, sid, a, b)
  {
    ReachableInv(w);
    QuietSeen(w, sid);
    HostsSeen(w, a, sid);
    HostsSeen(w, b, sid);
    var s := Seen(w, sid);
    assert s.locs[b] == LocOf(SliceOf(w.nodes[b], sid)) && s.locs[a] == LocOf(SliceOf(w.nodes[a], sid));
    Location.QuietMeansLocated(s, a, b);
    FaultSeen(w, a, b, sid);
  }

  /** If no object that has left delivered tracks, a host's sender is open, was made under the host's present
      source, and holds its tracks once it is ready. */
  lemma SendersFeedThePresentSource(w: Net, sid: StreamId, a: NodeId, b: NodeId)
    requires LawfullyReachable(w) && HostsStream(w, a, sid) && IsSender(w.nodes[a], sid, b)
    ensures
      var source, sender := w.nodes[a].sources[sid], w.nodes[a].senders[sid][b];
      && sender.origin == source.stamp && !sender.closed
      && sender.tracks == if source.ready then source.tracks else NO_TRACKS
  {
    LawfullyReachableInv(w);
    SendersServe(w.nodes[a], sid);
  }

  lemma SendersServe(n: NodeState, sid: StreamId)
    requires NodeInvariants.Inv(n) && sid in n.sources
    ensures forall b | b in SendersAt(n, sid) ::
              var sender := SendersAt(n, sid)[b];
              && IsSender(n, sid, b)
              && sender.origin == n.sources[sid].stamp && !sender.closed
              && sender.tracks == if n.sources[sid].ready then n.sources[sid].tracks else NO_TRACKS
  {
    assert NodeInvariants.SliceOK(n.id, SliceOf(n, sid));
  }

  // ---------- Runs without sender failures ----------

  predicate LosesSender(s: NetStep) {
    s.Local? && s.step.SenderClosedStep?
  }

  /** Faults are recorded only when a sender loses its peer, so a run without such a loss has none. */
  lemma {:induction false} NoLossNoFaults(w: Net, steps: seq<NetStep>)
    requires IsRun(w, steps) && w.faults == {}
    requires forall s | s in steps :: !LosesSender(s)
    ensures Run(w, steps).faults == {}
    decreases |steps|
  {
    if steps != [] {
      assert steps[0] in steps;
      StepAddsNoFault(w, steps[0]);
      NoLossNoFaults(Next(w, steps[0]), steps[1..]);
    }
  }

  lemma StepAddsNoFault(w: Net, s: NetStep)
    requires CanStep(w, s) && w.faults == {} && !LosesSender(s)
    ensures Next(w, s).faults == {}
  {
  }

  // ---------- An uncontested publication ----------

  /** A step that contests a's publication: another node publishes the stream, or a's publisher leaves. */
  predicate Contests(s: NetStep, sid: StreamId, a: NodeId) {
    s.Local? &&
    ((s.step.RegisterSourceStep? && s.step.sid == sid && s.at != a) || s == Local(a, SourceClosedStep(sid)))
  }

  lemma MoveDoesNotContest(w: Net, s: NetStep, sid: StreamId, a: NodeId)
    requires CanStep(w, s) && !Contests(s, sid, a)
    ensures !Location.Contests(MoveOf(w, s, sid), a)
  {
  }

  lemma StaysSole(w: Net, s: NetStep, sid: StreamId, a: NodeId)
    requires NetInv(w) && CanStep(w, s) && !Contests(s, sid, a)
    requires Location.Sole(Seen(w, sid), a)
    ensures Location.Sole(Seen(Next(w, s), sid), a)
  {
    hide CanStep, Next, MoveOf, Seen;
    StepFollowsProtocol(w, s, sid);
    assert Location.Inv(Seen(w, sid));
    MoveDoesNotContest(w, s, sid, a);
    Location.UncontestedStaysSole(Seen(w, sid), MoveOf(w, s, sid), a);
  }

  lemma {:induction false} RunStaysSole(w: Net, steps: seq<NetStep>, sid: StreamId, a: NodeId)
    requires NetInv(w) && IsRun(w, steps) && Location.Sole(Seen(w, sid), a)
    requires forall s | s in steps :: !Contests(s, sid, a)
    ensures Location.Sole(Seen(Run(w, steps), sid), a)
    decreases |steps|
  {
    if steps != [] {
      assert steps[0] in steps;
      StaysSole(w, steps[0], sid, a);
      StepKeepsNetInv(w, steps[0]);
      RunStaysSole(Next(w, steps[0]), steps[1..], sid, a);
    }
  }

  /** No other node hosts the stream, and no INFO about it from another node is in flight or pending. */
  predicate Unclaimed(w: Net, sid: StreamId, a: NodeId) {
    && (forall b | b in w.nodes && b != a :: sid !in w.nodes[b].sources)
    && (forall m | m in w.bag && m.sid == sid && (m.kind == Published(Info) || m.kind == PendingReply) :: m.src == a)
  }

  lemma UnclaimedSeen(w: Net, sid: StreamId, a: NodeId)
    requires Unclaimed(w, sid, a)
    ensures
      var s := Seen(w, sid);
      && (forall b | Location.Hosts(s, b) :: b == a)
      && (forall m | m in s.flight && (m.what == Location.InfoMail || m.what == Location.ReplyMail) :: m.src == a)
  {
    var s := Seen(w, sid);
    forall b | Location.Hosts(s, b) ensures b == a {
      HostsSeen(w, b, sid);
    }
    forall m | m in s.flight && (m.what == Location.InfoMail || m.what == Location.ReplyMail) ensures m.src == a {
      MailIsMessage(w.bag, sid, m);
    }
  }

  lemma PublishingIsSole(w: Net, sid: StreamId, a: NodeId, source: Source)
    requires NetInv(w) && Unclaimed(w, sid, a) && CanStep(w, Local(a, RegisterSourceStep(sid, source)))
    ensures Location.Sole(Seen(Next(w, Local(a, RegisterSourceStep(sid, source))), sid), a)
  {
    hide Next, Seen, Unclaimed;
    UnclaimedSeen(w, sid, a);
    StepFollowsProtocol(w, Local(a, RegisterSourceStep(sid, source)), sid);
    Location.PublishMakesSole(Seen(w, sid), a);
  }

  lemma SoleServesAll(w: Net, sid: StreamId, a: NodeId, b: NodeId)
    requires NetInv(w) && Quiet(w, sid) && Location.Sole(Seen(w, sid), a)
    requires b in w.nodes && b != a
    ensures HostsStream(w, a, sid) && !HostsStream(w, b, sid)
    ensures HasViewers(w, b, sid) ==>
              sid in w.nodes[b].relays && w.nodes[b].relays[sid].remoteId == a && Fed(w, sid, a, b)
  {
    var s := Seen(w, sid);
    QuietSeen(w, sid);
    HostsSeen(w, a, sid);
    HostsSeen(w, b, sid);
    assert s.locs[b] == LocOf(SliceOf(w.nodes[b], sid)) && s.locs[a] == LocOf(SliceOf(w.nodes[a], sid));
    assert Location.Inv(s);
    if HasViewers(w, b, sid) {
      Location.QuietSoleServesAll(s, a, b);
      FaultSeen(w, a, b, sid);
    }
  }

  /** After an uncontested publication at a, and any run that does not contest it, as soon as nothing about
      the stream is in flight a is its only host, and every other node with viewers takes the stream from a,
      which has a sender for it if and only if that sender was not lost. */
  lemma UncontestedPublisherServesEveryViewer(
    w: Net, sid: StreamId, a: NodeId, source: Source, steps: seq<NetStep>, b: NodeId)
    requires Reachable(w) && Unclaimed(w, sid, a)
    requires CanStep(w, Local(a, RegisterSourceStep(sid, source)))
    requires IsRun(Next(w, Local(a, RegisterSourceStep(sid, source))), steps)
    requires forall s | s in steps :: !Contests(s, sid, a)
    ensures
      var w' := Run(Next(w, Local(a, RegisterSourceStep(sid, source))), steps);
      && HostsStream(w', a, sid)
      && (Quiet(w', sid) && b in w'.nodes && b != a ==>
            && !HostsStream(w', b, sid)
            && (HasViewers(w', b, sid) ==>
                  sid in w'.nodes[b].relays && w'.nodes[b].relays[sid].remoteId == a && Fed(w', sid, a, b)))
  {
    ReachableInv(w);
    var publish := Local(a, RegisterSourceStep(sid, source));
    var w1 := Next(w, publish);
    PublishingIsSole(w, sid, a, source);
    StepKeepsNetInv(w, publish);
    RunStaysSole(w1, steps, sid, a);
    RunKeepsNetInv(w1, steps);
    AfterRun(Run(w1, steps), sid, a, b);
  }

  lemma AfterRun(w: Net, sid: StreamId, a: NodeId, b: NodeId)
    requires NetInv(w) && Location.Sole(Seen(w, sid), a)
    ensures HostsStream(w, a, sid)
    ensures Quiet(w, sid) && b in w.nodes && b != a ==>
              && !HostsStream(w, b, sid)
              && (HasViewers(w, b, sid) ==>
                    sid in w.nodes[b].relays && w.nodes[b].relays[sid].remoteId == a && Fed(w, sid, a, b))
  {
    HostsSeen(w, a, sid);
    if Quiet(w, sid) && b in w.nodes && b != a {
      SoleServesAll(w, sid, a, b);
    }
  }

  // ---------- Deliveries end ----------

  /** How many deliveries a message can still cause, itself included. */
  function MessageWeight(m: Message): nat {
    match m.kind
    case Published(Resolve) => 4
    case PendingReply => 3
    case Published(Info) => 2
    case Published(_) => 1
  }

  function Weight(bag: seq<Message>): nat {
    if bag == [] then 0 else MessageWeight(bag[0]) + Weight(bag[1..])
  }

  lemma {:induction false} WeightAppend(a: seq<Message>, b: seq<Message>)
    ensures Weight(a + b) == Weight(a) + Weight(b)
  {
    if a == [] {
      assert a + b == b;
    } else {
      assert (a + b)[1..] == a[1..] + b;
      WeightAppend(a[1..], b);
    }
  }

  lemma WeightWithout(bag: seq<Message>, i: nat)
    requires i < |bag|
    ensures Weight(Without(bag, i)) == Weight(bag) - MessageWeight(bag[i])
  {
    assert bag == bag[..i] + bag[i..];
    WeightAppend(bag[..i], bag[i..]);
    WeightAppend(bag[..i], bag[i + 1..]);
    assert bag[i..][1..] == bag[i + 1..];
  }

  predicate IsDelivery(s: NetStep) {
    !s.Local?
  }

  lemma DispatchWeight(w: Net, m: Message)
    requires m.dst in w.nodes && m.kind != PendingReply
    ensures Weight(Dispatch(w, m).bag) < Weight(w.bag) + MessageWeight(m)
  {
    var n := w.nodes[m.dst];
    if m.src != n.id {
      match m.kind.kind
      case Resolve => WeightAppend(w.bag, [Message(PendingReply, m.dst, m.src, m.sid)]);
      case Info => WeightAppend(w.bag, Copies(w.ids, m.dst, ReceiveInfo(n, m.src, m.sid).pub));
      case Connect => WeightAppend(w.bag, []);
      case Offer(v, a) => WeightAppend(w.bag, []);
    }
  }

  lemma DeliveryLightens(w: Net, s: NetStep)
    requires CanStep(w, s) && IsDelivery(s)
    ensures Weight(Next(w, s).bag) < Weight(w.bag)
  {
    match s
    case Deliver(i) =>
      WeightWithout(w.bag, i);
      DispatchWeight(w.(bag := Without(w.bag, i)), w.bag[i]);
    case Answer(i) =>
      WeightWithout(w.bag, i);
      WeightAppend(Without(w.bag, i), [Message(Published(Info), w.bag[i].src, w.bag[i].dst, w.bag[i].sid)]);
  }

  /** However messages are chosen for delivery, a run of deliveries alone is no longer than the bag's weight. */
  lemma {:induction false} DeliveriesEnd(w: Net, steps: seq<NetStep>)
    requires IsRun(w, steps)
    requires forall s | s in steps :: IsDelivery(s)
    ensures |steps| + Weight(Run(w, steps).bag) <= Weight(w.bag)
    decreases |steps|
  {
    if steps != [] {
      assert steps[0] in steps;
      DeliveryLightens(w, steps[0]);
      DeliveriesEnd(Next(w, steps[0]), steps[1..]);
    }
  }

  /** While the bag is not empty its first message can be delivered, so deliveries stop only at an empty bag. */
  lemma DeliveryPossible(w: Net)
    requires NetInv(w) && w.bag != []
    ensures CanStep(w, if w.bag[0].kind == PendingReply then Answer(0) else Deliver(0))
  {
    assert w.bag[0] in w.bag;
  }

  // ---------- A limit of the protocol ----------

  /** The INFO at position i of the bag takes the source away from its receiver, and gives none to anyone. */
  lemma InfoEvicts(w: Net, i: nat, sid: StreamId, a: NodeId, b: NodeId)
    requires NetInv(w) && i < |w.bag| && w.bag[i] == Message(Published(Info), a, b, sid) && a != b
    ensures CanStep(w, Deliver(i))
    ensures !HostsStream(Next(w, Deliver(i)), b, sid)
    ensures forall x :: HostsStream(Next(w, Deliver(i)), x, sid) ==> HostsStream(w, x, sid)
    ensures forall m | m in w.bag && m != w.bag[i] :: m in Next(w, Deliver(i)).bag
  {
    var m := w.bag[i];
    assert m in w.bag;
    var rest := Without(w.bag, i);
    forall m' | m' in w.bag && m' != m ensures m' in rest {
      var j :| 0 <= j < |w.bag| && w.bag[j] == m';
      assert if j < i then rest[j] == m' else rest[j - 1] == m';
    }
  }

  /** Two publishers of a stream whose INFO messages cross evict each other: two deliveries later neither
      hosts it, although neither publisher left, and no other node hosts it that did not before. */
  lemma CrossingPublishersLoseBoth(w: Net, sid: StreamId, a: NodeId, b: NodeId)
    requires Reachable(w) && a != b
    requires InfoFlying(w, a, b, sid) && InfoFlying(w, b, a, sid)
    ensures exists i, j ::
              && IsRun(w, [Deliver(i), Deliver(j)])
              && var w' := Run(w, [Deliver(i), Deliver(j)]);
              && !HostsStream(w', a, sid) && !HostsStream(w', b, sid)
              && (forall x :: HostsStream(w', x, sid) ==> HostsStream(w, x, sid))
  {
    ReachableInv(w);
    var i: nat :| i < |w.bag| && w.bag[i] == Message(Published(Info), a, b, sid);
    InfoEvicts(w, i, sid, a, b);
    var w1 := Next(w, Deliver(i));
    StepKeepsNetInv(w, Deliver(i));
    var j: nat :| j < |w1.bag| && w1.bag[j] == Message(Published(Info), b, a, sid);
    InfoEvicts(w1, j, sid, b, a);
    TwoSteps(w, Deliver(i), Deliver(j));
  }

  lemma RunCons(w: Net, s: NetStep, rest: seq<NetStep>)
    requires CanStep(w, s) && IsRun(Next(w, s), rest)
    ensures IsRun(w, [s] + rest) && Run(w, [s] + rest) == Run(Next(w, s), rest)
  {
    assert ([s] + rest)[1..] == rest;
  }

  lemma NoSteps(w: Net)
    ensures IsRun(w, []) && Run(w, []) == w
  {
  }

  lemma TwoSteps(w: Net, s: NetStep, t: NetStep)
    requires CanStep(w, s) && CanStep(Next(w, s), t)
    ensures IsRun(w, [s, t]) && Run(w, [s, t]) == Next(Next(w, s), t)
  {
    hide CanStep, Next;
    NoSteps(Next(Next(w, s), t));
    RunCons(Next(w, s), t, []);
    assert [t] + [] == [t] && [s] + [t] == [s, t];
    RunCons(w, s, [t]);
  }

  /** Two publications in a row at different nodes do put the network in that state. */
  lemma PublicationsCross(w: Net, sid: StreamId, a: NodeId, b: NodeId, sa: Source, sb: Source)
    requires NetInv(w) && a != b
    requires CanStep(w, Local(a, RegisterSourceStep(sid, sa)))
    requires CanStep(Next(w, Local(a, RegisterSourceStep(sid, sa))), Local(b, RegisterSourceStep(sid, sb)))
    ensures
      var w' := Next(Next(w, Local(a, RegisterSourceStep(sid, sa))), Local(b, RegisterSourceStep(sid, sb)));
      && HostsStream(w', a, sid) && HostsStream(w', b, sid)
      && InfoFlying(w', a, b, sid) && InfoFlying(w', b, a, sid)
  {
    BroadcastReaches(w.ids, a, Info, sid, b);
    BroadcastReaches(w.ids, b, Info, sid, a);
  }

  lemma BroadcastReaches(ids: seq<NodeId>, src: NodeId, kind: Kind, sid: StreamId, dst: NodeId)
    requires dst in ids
    ensures Message(Published(kind), src, dst, sid) in Copies(ids, src, Some(Broadcast(kind, sid)))
  {
    var i :| 0 <= i < |ids| && ids[i] == dst;
    assert Copies(ids, src, Some(Broadcast(kind, sid)))[i] == Message(Published(kind), src, dst, sid);
  }
}
