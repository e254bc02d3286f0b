/**
  Where a relay points, exactly: deliveries leave it pointing to the same node if and only if no other node
  has, or will send, an INFO for it. So a late reply can leave viewers with a node that hosts nothing.
 */
module RelayLimits {
  import opened Types
  import opened NodeSpec
  import opened StreamSpec
  import opened Network
  import opened NetworkTheorems
  import opened NetworkLimits
  import Location
  import Serving

  /** b takes the stream from a. */
  predicate Names(w: Net, sid: StreamId, b: NodeId, a: NodeId) {
    b in w.nodes && sid in w.nodes[b].relays && w.nodes[b].relays[sid].remoteId == a
  }

  lemma NamesSeen(w: Net, sid: StreamId, b: NodeId, a: NodeId)
    ensures Names(w, sid, b, a) <==> Location.Names(Seen(w, sid), b, a)
  {
    assert b in w.nodes ==> Locs(w.nodes, sid)[b] == LocOf(SliceOf(w.nodes[b], sid));
  }

  /** No node but a threatens b. */
  ghost predicate OnlyThreat(w: Net, sid: StreamId, a: NodeId, b: NodeId) {
    forall x | x != a :: !Threatens(w, sid, x, b)
  }

  lemma NamedStays(w: Net, s: NetStep, sid: StreamId, a: NodeId, b: NodeId)
    requires NetInv(w) && CanStep(w, s) && IsDelivery(s) && Names(w, sid, b, a) && OnlyThreat(w, sid, a, b)
    ensures Names(Next(w, s), sid, b, a) && OnlyThreat(Next(w, s), sid, a, b)
  {
    hide CanStep, Next, MoveOf, Seen, Names, Threatens, StreamsOK;
    var w' := Next(w, s);
    StepFollowsProtocol(w, s, sid);
    DeliveryIsDelivery(w, s, sid);
    NamesSeen(w, sid, b, a);
    NamesSeen(w', sid, b, a);
    forall x | x != a ensures !Location.Threatens(Seen(w, sid), x, b) {
      assert !Threatens(w, sid, x, b);
      ThreatSeen(w, sid, x, b);
    }
    Location.NamedStays(Seen(w, sid), MoveOf(w, s, sid), a, b);
    forall x | x != a ensures !Threatens(w', sid, x, b) {
      ThreatSeen(w', sid, x, b);
    }
  }

  lemma {:induction false} NamedThroughout(w: Net, steps: seq<NetStep>, sid: StreamId, a: NodeId, b: NodeId)
    requires NetInv(w) && IsRun(w, steps) && AllDeliveries(steps) && Names(w, sid, b, a) && OnlyThreat(w, sid, a, b)
    ensures Names(Run(w, steps), sid, b, a)
    decreases |steps|
  {
    hide CanStep, Next, NetInv, Names, OnlyThreat;
    if steps != [] {
      assert steps[0] in steps;
      NamedStays(w, steps[0], sid, a, b);
      StepKeepsNetInv(w, steps[0]);
      NamedThroughout(Next(w, steps[0]), steps[1..], sid, a, b);
    }
  }

  // ---------- A threat carried out ----------

  /** The INFO of x reaches b, which has a relay and so has viewers: the relay points to x. */
  lemma InfoTurns(w: Net, sid: StreamId, x: NodeId, b: NodeId) returns (s: NetStep)
    requires NetInv(w) && x != b && InfoFlying(w, x, b, sid) && HasViewers(w, b, sid)
    ensures CanStep(w, s) && IsDelivery(s) && Names(Next(w, s), sid, b, x)
    ensures forall m | m in w.bag && m != Message(Published(Info), x, b, sid) :: m in Next(w, s).bag
    ensures forall m | m in Next(w, s).bag :: m in w.bag || m == Message(Published(Connect), b, x, sid)
    ensures forall y :: HostsStream(Next(w, s), y, sid) ==> HostsStream(w, y, sid)
  {
    var i := IndexOf(w, Message(Published(Info), x, b, sid));
    s := Deliver(i);
    forall m | m in w.bag && m != w.bag[i] ensures m in Next(w, s).bag {
      OthersStay(w.bag, i, m);
    }
  }

  lemma RelayHasViewers(w: Net, sid: StreamId, b: NodeId, a: NodeId)
    requires NetInv(w) && Names(w, sid, b, a)
    ensures HasViewers(w, b, sid)
  {
    NamesSeen(w, sid, b, a);
    ViewersSeen(w, b, sid);
    assert Location.Inv(Seen(w, sid));
  }

  lemma ThreatTurns(w: Net, sid: StreamId, x: NodeId, b: NodeId) returns (steps: seq<NetStep>)
    requires NetInv(w) && Threatens(w, sid, x, b) && HasViewers(w, b, sid)
    ensures IsRun(w, steps) && AllDeliveries(steps) && Names(Run(w, steps), sid, b, x)
  {
    hide CanStep, Next, NetInv, Names, HasViewers;
    if InfoFlying(w, x, b, sid) {
      var s := InfoTurns(w, sid, x, b);
      OneStep(w, s);
      steps := [s];
    } else if Message(PendingReply, x, b, sid) in w.bag {
      var s := AnswerArms(w, sid, x, b);
      steps := ThreatTurnsAfter(w, s, sid, x, b);
    } else {
      var s := ResolveAsks(w, sid, x, b);
      steps := ThreatTurnsAfter(w, s, sid, x, b);
    }
  }

  lemma ThreatTurnsAfter(w: Net, s: NetStep, sid: StreamId, x: NodeId, b: NodeId) returns (steps: seq<NetStep>)
    requires NetInv(w) && CanStep(w, s) && IsDelivery(s) && HasViewers(w, b, sid) && x != b
    requires InfoFlying(Next(w, s), x, b, sid) || Message(PendingReply, x, b, sid) in Next(w, s).bag
    ensures IsRun(w, steps) && AllDeliveries(steps) && Names(Run(w, steps), sid, b, x)
  {
    hide CanStep, Next, NetInv, Names, HasViewers;
    var w1 := Next(w, s);
    StepKeepsNetInv(w, s);
    DeliveryKeepsViewers(w, s, b, sid);
    if InfoFlying(w1, x, b, sid) {
      var t := InfoTurns(w1, sid, x, b);
      TwoSteps(w, s, t);
      steps := [s, t];
    } else {
      var t := AnswerArms(w1, sid, x, b);
      StepKeepsNetInv(w1, t);
      DeliveryKeepsViewers(w1, t, b, sid);
      var u := InfoTurns(Next(w1, t), sid, x, b);
      TwoSteps(w1, t, u);
      RunCons(w, s, [t, u]);
      steps := [s] + [t, u];
    }
  }

  // ---------- Exactly ----------

  /** Every run of deliveries leaves b's relay with a if and only if no other node threatens b. */
  lemma RelayStaysExactly(w: Net, sid: StreamId, a: NodeId, b: NodeId)
    requires Reachable(w) && Names(w, sid, b, a)
    ensures (forall steps :: IsRun(w, steps) && AllDeliveries(steps) ==> Names(Run(w, steps), sid, b, a)) <==>
            (forall x | x != a :: !Threatens(w, sid, x, b))
  {
    ReachableInv(w);
    hide NetInv, Threatens;
    if OnlyThreat(w, sid, a, b) {
      forall steps | IsRun(w, steps) && AllDeliveries(steps) ensures Names(Run(w, steps), sid, b, a) {
        NamedThroughout(w, steps, sid, a, b);
      }
    } else {
      var x :| x != a && Threatens(w, sid, x, b);
      RelayHasViewers(w, sid, b, a);
      var steps := ThreatTurns(w, sid, x, b);
      assert IsRun(w, steps) && AllDeliveries(steps) && !Names(Run(w, steps), sid, b, a);
    }
  }

  /** At rest, b's viewers are left with a node that does not host the stream, while a hosts it. */
  predicate Misled(w: Net, sid: StreamId, a: NodeId, b: NodeId, c: NodeId) {
    && w.bag == [] && HostsStream(w, a, sid) && HasViewers(w, b, sid)
    && Names(w, sid, b, c) && !HostsStream(w, c, sid)
  }

  // ---------- A late reply ----------

  /** Everything but one message can be delivered first. */
  lemma {:induction false} SettleAround(w: Net, keep: Message) returns (steps: seq<NetStep>)
    requires NetInv(w) && keep in w.bag
    ensures IsRun(w, steps) && AllDeliveries(steps)
    ensures keep in Run(w, steps).bag && forall m | m in Run(w, steps).bag :: m == keep
    decreases Weight(w.bag)
  {
    hide CanStep, Next, NetInv;
    if i: nat :| i < |w.bag| && w.bag[i] != keep {
      var s := if w.bag[i].kind == PendingReply then Answer(i) else Deliver(i);
      TakesThat(w, i, s, keep);
      DeliveryLightens(w, s);
      StepKeepsNetInv(w, s);
      var rest := SettleAround(Next(w, s), keep);
      RunCons(w, s, rest);
      steps := [s] + rest;
    } else {
      steps := [];
      NoSteps(w);
    }
  }

  lemma TakesThat(w: Net, i: nat, s: NetStep, keep: Message)
    requires NetInv(w) && i < |w.bag| && w.bag[i] != keep && keep in w.bag
    requires s == if w.bag[i].kind == PendingReply then Answer(i) else Deliver(i)
    ensures CanStep(w, s) && keep in Next(w, s).bag
  {
    OthersStay(w.bag, i, keep);
  }

  lemma OneHostWithoutInfo(w: Net, sid: StreamId, a: NodeId, c: NodeId)
    requires NetInv(w) && HostsStream(w, a, sid) && a != c
    requires !InfoFlying(w, a, c, sid) && !InfoFlying(w, c, a, sid)
    ensures !HostsStream(w, c, sid)
  {
    HostsSeen(w, a, sid);
    HostsSeen(w, c, sid);
    MailIsMessage(w.bag, sid, Location.Mail(Location.InfoMail, a, c));
    MailIsMessage(w.bag, sid, Location.Mail(Location.InfoMail, c, a));
    assert Location.Inv(Seen(w, sid));
    assert Location.TwoHostsAt(Seen(w, sid), a, c);
  }

  /** Only messages between b and c about the stream are left: the reply that c owes b, and what comes of it. */
  predicate OnlyBetween(w: Net, sid: StreamId, b: NodeId, c: NodeId) {
    forall m | m in w.bag ::
      || m == Message(PendingReply, c, b, sid) || m == Message(Published(Info), c, b, sid)
      || m == Message(Published(Connect), b, c, sid)
  }

  lemma BetweenThreatens(w: Net, sid: StreamId, a: NodeId, b: NodeId, c: NodeId)
    requires OnlyBetween(w, sid, b, c) && a != b && a != c && b != c
    ensures Unthreatened(w, sid, a) && OnlyThreat(w, sid, c, b)
    ensures !InfoFlying(w, a, c, sid) && !InfoFlying(w, c, a, sid)
  {
  }

  /** c owes b a reply, but a hosts by now and nobody threatens it: the reply can come last, and then b's viewers
      are left with c. */
  lemma LateReply(w: Net, sid: StreamId, a: NodeId, b: NodeId, c: NodeId) returns (steps: seq<NetStep>)
    requires NetInv(w) && a != b && a != c && b != c && Message(PendingReply, c, b, sid) in w.bag
    requires HostsStream(w, a, sid) && Unthreatened(w, sid, a) && HasViewers(w, b, sid)
    ensures IsRun(w, steps) && AllDeliveries(steps) && Misled(Run(w, steps), sid, a, b, c)
  {
    hide CanStep, Next, NetInv, HostsStream, HasViewers, Unthreatened, Names, OnlyThreat;
    var keep := Message(PendingReply, c, b, sid);
    var first := SettleAround(w, keep);
    var w1 := Run(w, first);
    UnthreatenedSurvives(w, first, sid, a);
    DeliveriesKeepViewers(w, first, b, sid);
    RunKeepsNetInv(w, first);
    BetweenThreatens(w1, sid, a, b, c);
    var s := AnswerArms(w1, sid, c, b);
    var w2 := Next(w1, s);
    StepKeepsNetInv(w1, s);
    UnthreatenedStays(w1, s, sid, a);
    DeliveryKeepsViewers(w1, s, b, sid);
    var t := InfoTurns(w2, sid, c, b);
    var rest := Turned(w2, t, sid, a, b, c);
    RunCons(w1, s, [t] + rest);
    RunAppend(w, first, [s] + ([t] + rest));
    steps := first + ([s] + ([t] + rest));
  }

  lemma Turned(w: Net, t: NetStep, sid: StreamId, a: NodeId, b: NodeId, c: NodeId) returns (rest: seq<NetStep>)
    requires NetInv(w) && a != b && a != c && b != c && OnlyBetween(w, sid, b, c)
    requires HostsStream(w, a, sid) && HasViewers(w, b, sid)
    requires CanStep(w, t) && IsDelivery(t) && Names(Next(w, t), sid, b, c)
    requires forall m | m in Next(w, t).bag :: m in w.bag || m == Message(Published(Connect), b, c, sid)
    ensures IsRun(w, [t] + rest) && AllDeliveries([t] + rest) && Misled(Run(w, [t] + rest), sid, a, b, c)
  {
    hide CanStep, Next, NetInv, HostsStream, HasViewers, Unthreatened, Names, OnlyThreat;
    var w3 := Next(w, t);
    BetweenThreatens(w, sid, a, b, c);
    UnthreatenedStays(w, t, sid, a);
    StepKeepsNetInv(w, t);
    DeliveryKeepsViewers(w, t, b, sid);
    BetweenThreatens(w3, sid, a, b, c);
    rest := Settle(w3);
    UnthreatenedSurvives(w3, rest, sid, a);
    NamedThroughout(w3, rest, sid, c, b);
    DeliveriesKeepViewers(w3, rest, b, sid);
    RunKeepsNetInv(w3, rest);
    OneHostWithoutInfo(Run(w3, rest), sid, a, c);
    RunCons(w, t, rest);
  }

  // ---------- How a reply comes to be late ----------

  /** Nothing but b's RESOLVEs, replies of c to them, and INFOs of a is in flight. */
  predicate OnlyAsking(w: Net, sid: StreamId, a: NodeId, b: NodeId, c: NodeId) {
    forall m | m in w.bag ::
      || (m.kind == Published(Resolve) && m.src == b)
      || m == Message(PendingReply, c, b, sid)
      || (m.kind == Published(Info) && m.src == a)
  }

  lemma AskingThreatens(w: Net, sid: StreamId, a: NodeId, b: NodeId, c: NodeId)
    requires OnlyAsking(w, sid, a, b, c) && a != b && a != c
    ensures Unthreatened(w, sid, a)
  {
  }

  /** b's first viewer makes it ask everybody. */
  lemma PlayingAsks(w: Net, sid: StreamId, a: NodeId, b: NodeId, c: NodeId, steps: seq<NetStep>)
    requires NetInv(w) && w.bag == [] && b in w.nodes && steps == Serving.Playing(b, sid, w.nodes[b])
    requires b != c && HostsStream(w, c, sid) && sid !in w.nodes[b].sources && !HasViewers(w, b, sid)
    ensures IsRun(w, steps)
    ensures
      var w' := Run(w, steps);
      && OnlyAsking(w', sid, a, b, c) && Message(Published(Resolve), b, c, sid) in w'.bag
      && HasViewers(w', b, sid) && HostsStream(w', c, sid)
  {
    NothingReady(w, sid, b);
    InIds(w, c);
    hide NetInv, ReadyTracks, Copies, HasViewers, Serving.Playing;
    Serving.PlayingBrings(w, b, sid, steps);
    var asked := Copies(w.ids, b, Some(Broadcast(Resolve, sid)));
    assert Run(w, steps).bag == asked;
    BroadcastReaches(w.ids, b, Resolve, sid, c);
    ResolvesOnly(w.ids, b, sid);
  }

  lemma InIds(w: Net, c: NodeId)
    requires NetInv(w) && c in w.nodes
    ensures c in w.ids
  {
  }

  lemma ResolvesOnly(ids: seq<NodeId>, b: NodeId, sid: StreamId)
    ensures forall m | m in Copies(ids, b, Some(Broadcast(Resolve, sid))) :: m.kind == Published(Resolve) && m.src == b
  {
  }

  /** A node without viewers and source has no relay, and so no tracks. */
  lemma NothingReady(w: Net, sid: StreamId, b: NodeId)
    requires NetInv(w) && b in w.nodes && sid !in w.nodes[b].sources && !HasViewers(w, b, sid)
    ensures ReadyTracks(w.nodes[b], sid).None?
  {
    hide NetInv, HasViewers;
    if sid in w.nodes[b].relays { RelayHasViewers(w, sid, b, w.nodes[b].relays[sid].remoteId); }
  }

  /** a publishes while c owes b a reply. */
  lemma PublishingBefore(w: Net, sid: StreamId, a: NodeId, b: NodeId, c: NodeId, source: Source)
    requires OnlyAsking(w, sid, a, b, c) && Message(PendingReply, c, b, sid) in w.bag
    requires a in w.nodes && a != b && a != c && HasViewers(w, b, sid)
    ensures
      var w' := Next(w, Local(a, RegisterSourceStep(sid, source)));
      && Message(PendingReply, c, b, sid) in w'.bag && HostsStream(w', a, sid) && HasViewers(w', b, sid)
      && Unthreatened(w', sid, a)
  {
    var w' := Next(w, Local(a, RegisterSourceStep(sid, source)));
    assert OnlyAsking(w', sid, a, b, c);
    AskingThreatens(w', sid, a, b, c);
  }

  /** c is the first to publish: it hosts, and its INFOs threaten nobody who hosts. */
  lemma FirstHost(ids: seq<NodeId>, sid: StreamId, b: NodeId, c: NodeId, source: Source)
    requires b in ids && c in ids && b != c
    ensures
      var w := Start(ids);
      var s := Local(c, RegisterSourceStep(sid, source));
      && CanStep(w, s) && NetInv(Next(w, s))
      && HostsStream(Next(w, s), c, sid) && Unthreatened(Next(w, s), sid, c) && !HasViewers(Next(w, s), b, sid)
  {
    StartInv(ids);
    StepKeepsNetInv(Start(ids), Local(c, RegisterSourceStep(sid, source)));
  }
}
