/**
  How far the protocol goes, exactly: deliveries always settle; a host survives them if and only if
  nobody threatens it, and a stream if and only if one of its hosts survives; a lost sender comes back
  only when its remote node asks again.
 */
module NetworkLimits {
  import opened Types
  import opened NodeSpec
  import opened StreamSpec
  import opened Network
  import opened NetworkTheorems
  import NodeInvariants
  import Location

  // ---------- Runs ----------

  predicate AllDeliveries(steps: seq<NetStep>) {
    forall s | s in steps :: IsDelivery(s)
  }

  lemma {:induction false} RunAppend(w: Net, a: seq<NetStep>, b: seq<NetStep>)
    requires IsRun(w, a) && IsRun(Run(w, a), b)
    ensures IsRun(w, a + b) && Run(w, a + b) == Run(Run(w, a), b)
    decreases |a|
  {
    hide CanStep, Next;
    if a == [] {
      assert a + b == b;
    } else {
      RunAppend(Next(w, a[0]), a[1..], b);
      RunCons(w, a[0], a[1..] + b);
      assert a + b == [a[0]] + (a[1..] + b);
    }
  }

  lemma OneStep(w: Net, s: NetStep)
    requires CanStep(w, s)
    ensures IsRun(w, [s]) && Run(w, [s]) == Next(w, s)
  {
    hide CanStep, Next;
    NoSteps(Next(w, s));
    RunCons(w, s, []);
    assert [s] + [] == [s];
  }

  /** A run, one step more. */
  lemma RunThen(w: Net, steps: seq<NetStep>, s: NetStep)
    requires IsRun(w, steps) && CanStep(Run(w, steps), s)
    ensures IsRun(w, steps + [s]) && Run(w, steps + [s]) == Next(Run(w, steps), s)
  {
    hide CanStep, Next;
    OneStep(Run(w, steps), s);
    RunAppend(w, steps, [s]);
  }

  // ---------- Deliveries settle ----------

  lemma {:induction false} Settle(w: Net) returns (steps: seq<NetStep>)
    requires NetInv(w)
    ensures IsRun(w, steps) && AllDeliveries(steps) && Run(w, steps).bag == []
    decreases Weight(w.bag)
  {
    hide CanStep, Next, NetInv;
    if w.bag == [] {
      steps := [];
      NoSteps(w);
    } else {
      var s := if w.bag[0].kind == PendingReply then Answer(0) else Deliver(0);
      DeliveryPossible(w);
      DeliveryLightens(w, s);
      StepKeepsNetInv(w, s);
      var rest := Settle(Next(w, s));
      RunCons(w, s, rest);
      steps := [s] + rest;
    }
  }

  /** From every reachable state some run of deliveries empties the bag. */
  lemma EveryStateSettles(w: Net)
    requires Reachable(w)
    ensures exists steps :: IsRun(w, steps) && AllDeliveries(steps) && Run(w, steps).bag == []
  {
    ReachableInv(w);
    var steps := Settle(w);
  }

  lemma DeliveryIsDelivery(w: Net, s: NetStep, sid: StreamId)
    requires CanStep(w, s) && IsDelivery(s)
    ensures Location.IsDelivery(MoveOf(w, s, sid))
  {
  }

  lemma ViewersSeen(w: Net, b: NodeId, sid: StreamId)
    ensures HasViewers(w, b, sid) <==> b in Seen(w, sid).locs && Seen(w, sid).locs[b].viewers
    ensures Seen(w, sid).locs.Keys == w.nodes.Keys
  {
    assert b in w.nodes ==> Locs(w.nodes, sid)[b] == LocOf(SliceOf(w.nodes[b], sid));
  }

  lemma DeliveryKeepsViewers(w: Net, s: NetStep, b: NodeId, sid: StreamId)
    requires NetInv(w) && CanStep(w, s) && IsDelivery(s)
    ensures Next(w, s).nodes.Keys == w.nodes.Keys
    ensures HasViewers(Next(w, s), b, sid) <==> HasViewers(w, b, sid)
  {
    hide CanStep, Next, MoveOf, Seen, HasViewers, StreamsOK;
    StepFollowsProtocol(w, s, sid);
    DeliveryIsDelivery(w, s, sid);
    ViewersSeen(w, b, sid);
    ViewersSeen(Next(w, s), b, sid);
    Location.DeliveryKeepsViewers(Seen(w, sid), MoveOf(w, s, sid));
  }

  lemma {:induction false} DeliveriesKeepViewers(w: Net, steps: seq<NetStep>, b: NodeId, sid: StreamId)
    requires NetInv(w) && IsRun(w, steps) && AllDeliveries(steps)
    ensures Run(w, steps).nodes.Keys == w.nodes.Keys
    ensures HasViewers(Run(w, steps), b, sid) <==> HasViewers(w, b, sid)
    decreases |steps|
  {
    hide CanStep, Next, NetInv, HasViewers;
    if steps != [] {
      assert steps[0] in steps;
      DeliveryKeepsViewers(w, steps[0], b, sid);
      StepKeepsNetInv(w, steps[0]);
      DeliveriesKeepViewers(Next(w, steps[0]), steps[1..], b, sid);
    }
  }

  predicate ServedFrom(w: Net, sid: StreamId, a: NodeId, b: NodeId) {
    && a in w.nodes && b in w.nodes
    && sid in w.nodes[b].relays && w.nodes[b].relays[sid].remoteId == a && Fed(w, sid, a, b)
  }

  /** After an uncontested publication at a, and any run that does not contest it, some run of deliveries
      leaves nothing in flight, and then every node with viewers takes the stream from a. */
  lemma UncontestedPublicationSettles(w: Net, sid: StreamId, a: NodeId, source: Source, steps: seq<NetStep>)
    requires Reachable(w) && Unclaimed(w, sid, a)
    requires CanStep(w, Local(a, RegisterSourceStep(sid, source)))
    requires IsRun(Next(w, Local(a, RegisterSourceStep(sid, source))), steps)
    requires forall s | s in steps :: !Contests(s, sid, a)
    ensures
      var w1 := Run(Next(w, Local(a, RegisterSourceStep(sid, source))), steps);
      exists more ::
        && IsRun(w1, more) && AllDeliveries(more)
        && var w2 := Run(w1, more);
        && w2.bag == [] && HostsStream(w2, a, sid)
        && (forall b | HasViewers(w1, b, sid) && b != a :: !HostsStream(w2, b, sid) && ServedFrom(w2, sid, a, b))
  {
    var publish := Local(a, RegisterSourceStep(sid, source));
    var w0 := Next(w, publish);
    var w1 := Run(w0, steps);
    ReachableInv(w);
    StepKeepsNetInv(w, publish);
    RunKeepsNetInv(w0, steps);
    var more := Settle(w1);
    RunAppend(w0, steps, more);
    var w2 := Run(w1, more);
    assert forall s | s in steps + more :: !Contests(s, sid, a);
    forall b | HasViewers(w1, b, sid) && b != a ensures !HostsStream(w2, b, sid) && ServedFrom(w2, sid, a, b) {
      DeliveriesKeepViewers(w1, more, b, sid);
      UncontestedPublisherServesEveryViewer(w, sid, a, source, steps + more, b);
    }
    UncontestedPublisherServesEveryViewer(w, sid, a, source, steps + more, a);
  }

  // ---------- Which hosts survive ----------

  /** x can take the stream from a: an INFO from x for a is in flight, or the reply that becomes one, or a's
      RESOLVE that x, a host, will answer. */
  predicate Threatens(w: Net, sid: StreamId, x: NodeId, a: NodeId) {
    x != a &&
    (|| InfoFlying(w, x, a, sid)
     || Message(PendingReply, x, a, sid) in w.bag
     || (Message(Published(Resolve), a, x, sid) in w.bag && HostsStream(w, x, sid)))
  }

  ghost predicate Unthreatened(w: Net, sid: StreamId, a: NodeId) {
    forall x :: !Threatens(w, sid, x, a)
  }

  lemma ThreatSeen(w: Net, sid: StreamId, x: NodeId, a: NodeId)
    ensures Threatens(w, sid, x, a) <==> Location.Threatens(Seen(w, sid), x, a)
  {
    HostsSeen(w, x, sid);
    MailIsMessage(w.bag, sid, Location.Mail(Location.InfoMail, x, a));
    MailIsMessage(w.bag, sid, Location.Mail(Location.ReplyMail, x, a));
    MailIsMessage(w.bag, sid, Location.Mail(Location.ResolveMail, a, x));
  }

  lemma UnthreatenedStays(w: Net, s: NetStep, sid: StreamId, a: NodeId)
    requires NetInv(w) && CanStep(w, s) && IsDelivery(s) && HostsStream(w, a, sid) && Unthreatened(w, sid, a)
    ensures HostsStream(Next(w, s), a, sid) && Unthreatened(Next(w, s), sid, a)
  {
    hide CanStep, Next, MoveOf, Seen, HostsStream, Threatens, StreamsOK;
    var w' := Next(w, s);
    StepFollowsProtocol(w, s, sid);
    DeliveryIsDelivery(w, s, sid);
    HostsSeen(w, a, sid);
    HostsSeen(w', a, sid);
    forall x ensures !Location.Threatens(Seen(w, sid), x, a) {
      assert !Threatens(w, sid, x, a);
      ThreatSeen(w, sid, x, a);
    }
    Location.UnthreatenedStays(Seen(w, sid), MoveOf(w, s, sid), a);
    forall x ensures !Threatens(w', sid, x, a) {
      ThreatSeen(w', sid, x, a);
    }
  }

  lemma {:induction false} UnthreatenedSurvives(w: Net, steps: seq<NetStep>, sid: StreamId, a: NodeId)
    requires NetInv(w) && IsRun(w, steps) && AllDeliveries(steps)
    requires HostsStream(w, a, sid) && Unthreatened(w, sid, a)
    ensures HostsStream(Run(w, steps), a, sid)
    decreases |steps|
  {
    hide CanStep, Next, NetInv, HostsStream, Unthreatened;
    if steps != [] {
      assert steps[0] in steps;
      UnthreatenedStays(w, steps[0], sid, a);
      StepKeepsNetInv(w, steps[0]);
      UnthreatenedSurvives(Next(w, steps[0]), steps[1..], sid, a);
    }
  }

  // ---------- A threat carried out ----------

  lemma IndexOf(w: Net, m: Message) returns (i: nat)
    requires m in w.bag
    ensures i < |w.bag| && w.bag[i] == m
  {
    i :| i < |w.bag| && w.bag[i] == m;
  }

  lemma OthersStay(bag: seq<Message>, i: nat, m: Message)
    requires i < |bag| && m in bag && m != bag[i]
    ensures m in Without(bag, i)
  {
    var j :| 0 <= j < |bag| && bag[j] == m;
    var rest := Without(bag, i);
    assert if j < i then rest[j] == m else rest[j - 1] == m;
  }

  /** An INFO for a is in flight. */
  ghost predicate Armed(w: Net, sid: StreamId, a: NodeId) {
    exists x :: x != a && InfoFlying(w, x, a, sid)
  }

  ghost predicate Threatened(w: Net, sid: StreamId, a: NodeId) {
    exists x :: Threatens(w, sid, x, a)
  }

  /** No node changes, and no message is lost but `m`. */
  predicate OnlyTakes(w: Net, w': Net, m: Message) {
    w'.nodes == w.nodes && forall m' | m' in w.bag && m' != m :: m' in w'.bag
  }

  lemma AnswerArms(w: Net, sid: StreamId, x: NodeId, a: NodeId) returns (s: NetStep)
    requires NetInv(w) && Message(PendingReply, x, a, sid) in w.bag
    ensures CanStep(w, s) && IsDelivery(s) && OnlyTakes(w, Next(w, s), Message(PendingReply, x, a, sid))
    ensures InfoFlying(Next(w, s), x, a, sid)
    ensures forall m | m in Next(w, s).bag :: m in w.bag || m == Message(Published(Info), x, a, sid)
  {
    var i := IndexOf(w, Message(PendingReply, x, a, sid));
    s := Answer(i);
    forall m | m in w.bag && m != w.bag[i] ensures m in Next(w, s).bag {
      OthersStay(w.bag, i, m);
    }
  }

  lemma ResolveAsks(w: Net, sid: StreamId, x: NodeId, a: NodeId) returns (s: NetStep)
    requires NetInv(w) && x != a && Message(Published(Resolve), a, x, sid) in w.bag && HostsStream(w, x, sid)
    ensures CanStep(w, s) && IsDelivery(s) && OnlyTakes(w, Next(w, s), Message(Published(Resolve), a, x, sid))
    ensures Message(PendingReply, x, a, sid) in Next(w, s).bag
    ensures forall m | m in Next(w, s).bag :: m in w.bag || m == Message(PendingReply, x, a, sid)
  {
    var i := IndexOf(w, Message(Published(Resolve), a, x, sid));
    s := Deliver(i);
    forall m | m in w.bag && m != w.bag[i] ensures m in Next(w, s).bag {
      OthersStay(w.bag, i, m);
    }
  }

  /** What arming one host leaves: the same nodes, and every other host as threatened or armed as it was. */
  ghost predicate Arms(w: Net, w': Net, sid: StreamId, a: NodeId) {
    && w'.nodes == w.nodes && Armed(w', sid, a)
    && (forall b :: Armed(w, sid, b) ==> Armed(w', sid, b))
    && (forall b | b != a :: Threatened(w, sid, b) ==> Threatened(w', sid, b))
  }

  /** Taking a message that is no INFO keeps armed nodes armed, and threatened nodes other than a, if the
      message is a reply or a RESOLVE that concerns a. */
  lemma TakingKeepsThreats(w: Net, w': Net, sid: StreamId, a: NodeId, m: Message)
    requires OnlyTakes(w, w', m)
    requires (exists x :: m == Message(PendingReply, x, a, sid)) ||
             (exists x :: m == Message(Published(Resolve), a, x, sid))
    ensures forall b :: Armed(w, sid, b) ==> Armed(w', sid, b)
    ensures forall b | b != a :: Threatened(w, sid, b) ==> Threatened(w', sid, b)
  {
    forall b | Armed(w, sid, b) ensures Armed(w', sid, b) {
      var x :| x != b && InfoFlying(w, x, b, sid);
      assert InfoFlying(w', x, b, sid);
    }
    forall b | b != a && Threatened(w, sid, b) ensures Threatened(w', sid, b) {
      var x :| Threatens(w, sid, x, b);
      assert Threatens(w', sid, x, b);
    }
  }

  /** A threatened node can be armed by deliveries that change no node. */
  lemma ArmOne(w: Net, sid: StreamId, a: NodeId) returns (steps: seq<NetStep>)
    requires NetInv(w) && Threatened(w, sid, a)
    ensures IsRun(w, steps) && AllDeliveries(steps) && NetInv(Run(w, steps)) && Arms(w, Run(w, steps), sid, a)
  {
    hide CanStep, Next, NetInv;
    var x :| Threatens(w, sid, x, a);
    if InfoFlying(w, x, a, sid) {
      steps := [];
      NoSteps(w);
    } else if Message(PendingReply, x, a, sid) in w.bag {
      var s := AnswerArms(w, sid, x, a);
      TakingKeepsThreats(w, Next(w, s), sid, a, Message(PendingReply, x, a, sid));
      StepKeepsNetInv(w, s);
      OneStep(w, s);
      steps := [s];
    } else {
      var s := ResolveAsks(w, sid, x, a);
      var w1 := Next(w, s);
      TakingKeepsThreats(w, w1, sid, a, Message(Published(Resolve), a, x, sid));
      StepKeepsNetInv(w, s);
      var t := AnswerArms(w1, sid, x, a);
      TakingKeepsThreats(w1, Next(w1, t), sid, a, Message(PendingReply, x, a, sid));
      StepKeepsNetInv(w1, t);
      TwoSteps(w, s, t);
      steps := [s, t];
    }
  }

  /** All threatened nodes of a set can be armed together. */
  lemma {:induction false} ArmAll(w: Net, sid: StreamId, some: set<NodeId>) returns (steps: seq<NetStep>)
    requires NetInv(w) && forall a | a in some :: Threatened(w, sid, a)
    ensures IsRun(w, steps) && AllDeliveries(steps) && NetInv(Run(w, steps)) && Run(w, steps).nodes == w.nodes
    ensures forall a | a in some :: Armed(Run(w, steps), sid, a)
    ensures forall a :: Armed(w, sid, a) ==> Armed(Run(w, steps), sid, a)
    decreases some
  {
    hide NetInv, Threatened, Armed, CanStep, Next;
    if some == {} {
      steps := [];
      NoSteps(w);
    } else {
      var a :| a in some;
      var first := ArmOne(w, sid, a);
      var w1 := Run(w, first);
      var rest := ArmAll(w1, sid, some - {a});
      RunAppend(w, first, rest);
      steps := first + rest;
    }
  }

  /** Armed hosts fall, one after the other. */
  lemma {:induction false} FallAll(w: Net, sid: StreamId, some: set<NodeId>) returns (steps: seq<NetStep>)
    requires NetInv(w) && forall a | a in some :: Armed(w, sid, a)
    ensures IsRun(w, steps) && AllDeliveries(steps)
    ensures forall a :: HostsStream(Run(w, steps), a, sid) ==> HostsStream(w, a, sid) && a !in some
    decreases some
  {
    hide NetInv, CanStep, Next;
    if some == {} {
      steps := [];
      NoSteps(w);
    } else {
      var a :| a in some;
      var x :| x != a && InfoFlying(w, x, a, sid);
      var i := IndexOf(w, Message(Published(Info), x, a, sid));
      InfoEvicts(w, i, sid, x, a);
      var w1 := Next(w, Deliver(i));
      StepKeepsNetInv(w, Deliver(i));
      forall b | b in some - {a} ensures Armed(w1, sid, b) {
        var y :| y != b && InfoFlying(w, y, b, sid);
        assert InfoFlying(w1, y, b, sid);
      }
      var rest := FallAll(w1, sid, some - {a});
      RunCons(w, Deliver(i), rest);
      steps := [Deliver(i)] + rest;
    }
  }

  lemma {:induction false} FallTogether(w: Net, sid: StreamId, some: set<NodeId>) returns (steps: seq<NetStep>)
    requires NetInv(w) && forall a | a in some :: Threatened(w, sid, a)
    ensures IsRun(w, steps) && AllDeliveries(steps)
    ensures forall a :: HostsStream(Run(w, steps), a, sid) ==> HostsStream(w, a, sid) && a !in some
  {
    hide NetInv, CanStep, Next, Threatened, Armed;
    var first := ArmAll(w, sid, some);
    var rest := FallAll(Run(w, first), sid, some);
    RunAppend(w, first, rest);
    steps := first + rest;
  }

  // ---------- Survival, exactly ----------

  /** Whatever messages are delivered, in whatever order, a goes on hosting the stream. */
  ghost predicate Survives(w: Net, sid: StreamId, a: NodeId) {
    forall steps :: IsRun(w, steps) && AllDeliveries(steps) ==> HostsStream(Run(w, steps), a, sid)
  }

  /** A host survives every run of deliveries if and only if nobody threatens it. */
  lemma HostSurvivesExactly(w: Net, sid: StreamId, a: NodeId)
    requires Reachable(w) && HostsStream(w, a, sid)
    ensures Survives(w, sid, a) <==> Unthreatened(w, sid, a)
  {
    ReachableInv(w);
    if Unthreatened(w, sid, a) {
      forall steps | IsRun(w, steps) && AllDeliveries(steps) ensures HostsStream(Run(w, steps), a, sid) {
        UnthreatenedSurvives(w, steps, sid, a);
      }
    } else {
      var steps := FallTogether(w, sid, {a});
      assert IsRun(w, steps) && AllDeliveries(steps) && !HostsStream(Run(w, steps), a, sid);
    }
  }

  ghost predicate IsHosted(w: Net, sid: StreamId) {
    exists a :: HostsStream(w, a, sid)
  }

  /** Every run of deliveries leaves the stream a host if and only if one of its hosts is not threatened. */
  lemma StreamSurvivesExactly(w: Net, sid: StreamId)
    requires Reachable(w)
    ensures (forall steps :: IsRun(w, steps) && AllDeliveries(steps) ==> IsHosted(Run(w, steps), sid)) <==>
            (exists a :: HostsStream(w, a, sid) && Unthreatened(w, sid, a))
  {
    ReachableInv(w);
    if a :| HostsStream(w, a, sid) && Unthreatened(w, sid, a) {
      forall steps | IsRun(w, steps) && AllDeliveries(steps) ensures IsHosted(Run(w, steps), sid) {
        UnthreatenedSurvives(w, steps, sid, a);
      }
    } else {
      var hosts := set a | a in w.nodes && HostsStream(w, a, sid);
      forall a | a in hosts ensures Threatened(w, sid, a) {
        assert !Unthreatened(w, sid, a);
      }
      var steps := FallTogether(w, sid, hosts);
      assert IsRun(w, steps) && AllDeliveries(steps) && !IsHosted(Run(w, steps), sid);
    }
  }

  // ---------- Two publishers lose the stream ----------

  lemma StartHosts(ids: seq<NodeId>, x: NodeId, sid: StreamId)
    ensures !HostsStream(Start(ids), x, sid)
  {
  }

  lemma PublishingHosts(w: Net, a: NodeId, sid: StreamId, source: Source, x: NodeId)
    requires CanStep(w, Local(a, RegisterSourceStep(sid, source)))
    ensures
      var w' := Next(w, Local(a, RegisterSourceStep(sid, source)));
      HostsStream(w', x, sid) <==> x == a || HostsStream(w, x, sid)
  {
  }

  /** Both have published, from the start: two deliveries take the stream from both. */
  lemma BothFall(ids: seq<NodeId>, sid: StreamId, a: NodeId, b: NodeId, sa: Source, sb: Source, w1: Net, w: Net)
    returns (steps: seq<NetStep>)
    requires a != b && CanStep(Start(ids), Local(a, RegisterSourceStep(sid, sa)))
    requires w1 == Next(Start(ids), Local(a, RegisterSourceStep(sid, sa)))
    requires CanStep(w1, Local(b, RegisterSourceStep(sid, sb))) && w == Next(w1, Local(b, RegisterSourceStep(sid, sb)))
    ensures Reachable(w) && HostsStream(w, a, sid) && HostsStream(w, b, sid)
    ensures |steps| == 2 && IsRun(w, steps) && AllDeliveries(steps) && !IsHosted(Run(w, steps), sid)
  {
    var start, pa, pb := Start(ids), Local(a, RegisterSourceStep(sid, sa)), Local(b, RegisterSourceStep(sid, sb));
    hide CanStep, Next, Start, HostsStream, NetInv;
    StartInv(ids);
    PublicationsCross(start, sid, a, b, sa, sb);
    TwoSteps(start, pa, pb);
    assert Reachable(w);
    CrossingPublishersLoseBoth(w, sid, a, b);
    var i, j :| && IsRun(w, [Deliver(i), Deliver(j)])
                && var w' := Run(w, [Deliver(i), Deliver(j)]);
                && !HostsStream(w', a, sid) && !HostsStream(w', b, sid)
                && (forall x :: HostsStream(w', x, sid) ==> HostsStream(w, x, sid));
    steps := [Deliver(i), Deliver(j)];
    forall x ensures !HostsStream(Run(w, steps), x, sid) {
      StartHosts(ids, x, sid);
      PublishingHosts(start, a, sid, sa, x);
      PublishingHosts(w1, b, sid, sb, x);
    }
  }

  // ---------- A lost sender ----------

  predicate Sends(w: Net, sid: StreamId, a: NodeId, b: NodeId) {
    a in w.nodes && IsSender(w.nodes[a], sid, b)
  }

  lemma SendersSeen(w: Net, sid: StreamId, a: NodeId, b: NodeId)
    ensures Sends(w, sid, a, b) <==> a in Seen(w, sid).locs && b in Seen(w, sid).locs[a].senders
  {
    assert a in w.nodes ==> Locs(w.nodes, sid)[a] == LocOf(SliceOf(w.nodes[a], sid));
  }

  /** The i-th message of the bag is b's CONNECT to a, which hosts the stream. */
  predicate ConnectAt(w: Net, i: nat, sid: StreamId, a: NodeId, b: NodeId) {
    i < |w.bag| && w.bag[i] == Message(Published(Connect), b, a, sid) && HostsStream(w, a, sid)
  }

  lemma ConnectMailIsConnect(w: Net, s: NetStep, sid: StreamId, a: NodeId, b: NodeId)
    requires CanStep(w, s)
    requires MoveOf(w, s, sid).Deliver? && MoveOf(w, s, sid).m == Location.Mail(Location.ConnectMail, b, a)
    ensures s.Deliver? && s.i < |w.bag| && w.bag[s.i] == Message(Published(Connect), b, a, sid)
  {
  }

  /** A sender that is missing comes back in one way only: its remote node's CONNECT reaches a host. */
  lemma SendersComeByConnect(w: Net, s: NetStep, sid: StreamId, a: NodeId, b: NodeId)
    requires NetInv(w) && CanStep(w, s) && a in w.nodes && !Sends(w, sid, a, b) && Sends(Next(w, s), sid, a, b)
    ensures s.Deliver? && ConnectAt(w, s.i, sid, a, b)
  {
    hide CanStep, Next, MoveOf, Seen, Sends, HostsStream, StreamsOK;
    StepFollowsProtocol(w, s, sid);
    SendersSeen(w, sid, a, b);
    SendersSeen(Next(w, s), sid, a, b);
    HostsSeen(w, a, sid);
    ViewersSeen(w, a, sid);
    Location.SendersComeByConnect(Seen(w, sid), MoveOf(w, s, sid), a, b);
    ConnectMailIsConnect(w, s, sid, a, b);
  }

  /** b's viewers are left without media: b's relay names the host, which has no sender for it, and nothing is
      in flight that could change this. */
  predicate Starved(w: Net, sid: StreamId, a: NodeId, b: NodeId) {
    && w.bag == [] && HostsStream(w, a, sid) && HasViewers(w, b, sid)
    && sid in w.nodes[b].relays && w.nodes[b].relays[sid].remoteId == a
    && !Sends(w, sid, a, b) && (a, b, sid) in w.faults
  }

  lemma LosingTheSender(w: Net, sid: StreamId, a: NodeId, b: NodeId)
    requires w.bag == [] && HostsStream(w, a, sid) && HasViewers(w, b, sid) && b != a
    requires ServedFrom(w, sid, a, b) && Sends(w, sid, a, b)
    ensures
      var loss := Local(a, SenderClosedStep(sid, b));
      CanStep(w, loss) && Starved(Next(w, loss), sid, a, b)
  {
  }

  /** The i-th step of the run delivers b's CONNECT to a, which hosts the stream then. */
  predicate AsksAgain(w: Net, steps: seq<NetStep>, i: nat, sid: StreamId, a: NodeId, b: NodeId) {
    i < |steps| && steps[i].Deliver? && IsRun(w, steps[..i]) && ConnectAt(Run(w, steps[..i]), steps[i].i, sid, a, b)
  }

  /** A missing sender is there again after a run only if, in that run, b asked for the stream again. */
  lemma {:induction false} OnlyAskingHelps(w: Net, steps: seq<NetStep>, sid: StreamId, a: NodeId, b: NodeId)
    requires NetInv(w) && IsRun(w, steps) && a in w.nodes && !Sends(w, sid, a, b) && Sends(Run(w, steps), sid, a, b)
    ensures exists i :: AsksAgain(w, steps, i, sid, a, b)
    decreases |steps|
  {
    hide CanStep, Next, NetInv, Sends, ConnectAt;
    NoSteps(w);
    assert Run(w, []) == w;
    assert steps != [];
    var w1 := Next(w, steps[0]);
    if Sends(w1, sid, a, b) {
      SendersComeByConnect(w, steps[0], sid, a, b);
      assert steps[..0] == [];
      assert AsksAgain(w, steps, 0, sid, a, b);
    } else {
      StepKeepsNetInv(w, steps[0]);
      StepKeepsNodeSet(w, steps[0]);
      OnlyAskingHelps(w1, steps[1..], sid, a, b);
      var j: nat :| AsksAgain(w1, steps[1..], j, sid, a, b);
      RunCons(w, steps[0], steps[1..][..j]);
      assert [steps[0]] + steps[1..][..j] == steps[..j + 1] && steps[1..][j] == steps[j + 1];
      assert AsksAgain(w, steps, j + 1, sid, a, b);
    }
  }
}
