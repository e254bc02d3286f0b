/**
  The stream-location protocol, for one stream: which nodes host it, where each node's relay
  points, who has viewers, and which location messages are in flight.

  A message in flight is kept as a set element, so delivering one of several equal copies may
  leave the element behind (`kept`). Module Network proves that the nodes' real handlers and a
  bag of messages follow this protocol for every stream.
 */
module Location {
  import opened Types

  /** What one node knows about the stream. */
  datatype Loc = Loc(host: bool, relay: Option<NodeId>, viewers: bool, senders: set<NodeId>)

  /** `Reply` is the answer to a RESOLVE that found a source, before its INFO is published. */
  datatype What = ResolveMail | ReplyMail | InfoMail | ConnectMail

  datatype Mail = Mail(what: What, src: NodeId, dst: NodeId)

  /** `faults` records (a, b) when a's sender for b lost its peer and nothing has renewed it since. */
  datatype State = State(locs: map<NodeId, Loc>, flight: set<Mail>, faults: set<(NodeId, NodeId)>)

  datatype Move =
    | Nothing
    | Publish(a: NodeId)                    // registerSource
    | Unpublish(a: NodeId)                  // onSourceClosed
    | View(b: NodeId, ask: bool)            // registerSink; `ask`: it found nothing ready and publishes RESOLVE
    | Unview(b: NodeId)                     // removeSink of the last sink
    | RelayLost(b: NodeId)                  // onRelayClosed
    | SenderLost(a: NodeId, b: NodeId)      // onSenderClosed
    | Deliver(m: Mail, kept: bool)          // one copy of a message reaches its node
    | SendReply(m: Mail, kept: bool)        // the INFO that answers a RESOLVE is published

  predicate Hosts(s: State, a: NodeId) {
    a in s.locs && s.locs[a].host
  }

  function ToAll(s: State, what: What, src: NodeId): set<Mail> {
    set d | d in s.locs :: Mail(what, src, d)
  }

  function Take(flight: set<Mail>, m: Mail, kept: bool): set<Mail> {
    if kept then flight else flight - {m}
  }

  predicate CanMove(s: State, v: Move) {
    match v
    case Nothing => true
    case Publish(a) => a in s.locs
    case Unpublish(a) => a in s.locs
    case View(b, ask) => b in s.locs && (ask || s.locs[b].host || s.locs[b].relay.Some?)
    case Unview(b) => b in s.locs
    case RelayLost(b) => b in s.locs
    case SenderLost(a, b) => a in s.locs
    case Deliver(m, kept) => m in s.flight && m.dst in s.locs && m.what != ReplyMail
    case SendReply(m, kept) => m in s.flight && m.what == ReplyMail
  }

  /** A node handles one message; messages from itself are ignored. */
  function Handle(s: State, m: Mail): State
    requires m.dst in s.locs
  {
    var here := s.locs[m.dst];
    if m.src == m.dst then s
    else
      match m.what
      case ResolveMail =>
        if here.host then s.(flight := s.flight + {Mail(ReplyMail, m.dst, m.src)}) else s
      case InfoMail =>
        var gone := here.(host := false);
        if here.viewers then
          s.(locs := s.locs[m.dst := gone.(relay := Some(m.src))],
          flight := s.flight + {Mail(ConnectMail, m.dst, m.src)})
        else
          s.(locs := s.locs[m.dst := gone])
      case ConnectMail =>
        if here.host then
          s.(locs := s.locs[m.dst := here.(senders := here.senders + {m.src})],
          faults := s.faults - {(m.dst, m.src)})
        else
          s
      case ReplyMail => s
  }

  function Next(s: State, v: Move): State
    requires CanMove(s, v)
  {
    match v
    case Nothing => s
    case Publish(a) =>
      s.(locs := s.locs[a := s.locs[a].(host := true, relay := None, senders := {})],
      flight := s.flight + ToAll(s, InfoMail, a))
    case Unpublish(a) =>
      s.(locs := s.locs[a := s.locs[a].(host := false, senders := {})])
    case View(b, ask) =>
      s.(locs := s.locs[b := s.locs[b].(viewers := true)],
      flight := if ask then s.flight + ToAll(s, ResolveMail, b) else s.flight)
    case Unview(b) =>
      s.(locs := s.locs[b := s.locs[b].(viewers := false, relay := None)])
    case RelayLost(b) =>
      s.(locs := s.locs[b := s.locs[b].(relay := None)],
      flight := if s.locs[b].viewers then s.flight + ToAll(s, ResolveMail, b) else s.flight)
    case SenderLost(a, b) =>
      s.(locs := s.locs[a := s.locs[a].(senders := s.locs[a].senders - {b})],
      faults := if b in s.locs[a].senders then s.faults + {(a, b)} else s.faults)
    case Deliver(m, kept) =>
      Handle(s.(flight := Take(s.flight, m, kept)), m)
    case SendReply(m, kept) =>
      s.(flight := Take(s.flight, m, kept) + {Mail(InfoMail, m.src, m.dst)})
  }

  // ---------- Invariants ----------

  predicate Addressed(s: State) {
    forall m | m in s.flight :: m.src in s.locs && m.dst in s.locs
  }

  /** A host has no relay; a relay has viewers behind it and points to another node; senders serve known nodes. */
  predicate Shape(s: State) {
    forall b | b in s.locs ::
      && (s.locs[b].host ==> s.locs[b].relay.None?)
      && (s.locs[b].relay.Some? ==>
            s.locs[b].viewers && s.locs[b].relay.value != b && s.locs[b].relay.value in s.locs)
      && s.locs[b].senders <= s.locs.Keys
  }

  /** Two hosts: an INFO between them is in flight. */
  predicate TwoHostsAt(s: State, a: NodeId, b: NodeId) {
    Hosts(s, a) && Hosts(s, b) && a != b ==>
      Mail(InfoMail, a, b) in s.flight || Mail(InfoMail, b, a) in s.flight
  }

  /** No viewer is forgotten: b's viewers have a relay, or a message that will make b and a meet is in flight. */
  predicate SeenAt(s: State, a: NodeId, b: NodeId) {
    Hosts(s, a) && b in s.locs && a != b && s.locs[b].viewers && !s.locs[b].host ==>
      || s.locs[b].relay.Some?
      || Mail(ResolveMail, b, a) in s.flight
      || Mail(ReplyMail, a, b) in s.flight
      || Mail(InfoMail, a, b) in s.flight
      || Mail(InfoMail, b, a) in s.flight
  }

  /** A relay that points to a host has a sender there, or the request for one is under way. */
  predicate HandshakeAt(s: State, a: NodeId, b: NodeId) {
    Hosts(s, a) && b in s.locs && s.locs[b].relay == Some(a) ==>
      || b in s.locs[a].senders
      || Mail(ConnectMail, b, a) in s.flight
      || Mail(InfoMail, a, b) in s.flight
      || (a, b) in s.faults
  }

  /** A recorded loss means what it says: the sender is not there. */
  predicate LostAt(s: State, a: NodeId, b: NodeId) {
    (a, b) in s.faults && a in s.locs ==> b !in s.locs[a].senders
  }

  ghost predicate Inv(s: State) {
    && Addressed(s) && Shape(s)
    && (forall a, b :: LostAt(s, a, b))
    && (forall a, b :: TwoHostsAt(s, a, b))
    && (forall a, b :: SeenAt(s, a, b))
    && (forall a, b :: HandshakeAt(s, a, b))
  }

  lemma KeepsShape(s: State, v: Move)
    requires CanMove(s, v) && Addressed(s) && Shape(s)
    ensures Addressed(Next(s, v)) && Shape(Next(s, v))
  {
  }

  lemma KeepsTwoHosts(s: State, v: Move, a: NodeId, b: NodeId)
    requires CanMove(s, v) && TwoHostsAt(s, a, b)
    ensures TwoHostsAt(Next(s, v), a, b)
  {
  }

  /** Needs the two-host property: a host that closes while it has viewers publishes nothing. */
  lemma KeepsSeen(s: State, v: Move, a: NodeId, b: NodeId)
    requires CanMove(s, v) && TwoHostsAt(s, a, b) && SeenAt(s, a, b)
    ensures SeenAt(Next(s, v), a, b)
  {
  }

  lemma KeepsHandshake(s: State, v: Move, a: NodeId, b: NodeId)
    requires CanMove(s, v) && Shape(s) && HandshakeAt(s, a, b)
    ensures HandshakeAt(Next(s, v), a, b)
  {
  }

  lemma KeepsLost(s: State, v: Move, a: NodeId, b: NodeId)
    requires CanMove(s, v) && LostAt(s, a, b)
    ensures LostAt(Next(s, v), a, b)
  {
  }

  /** Every move keeps the protocol's invariant. */
  lemma MoveKeepsInv(s: State, v: Move)
    requires Inv(s) && CanMove(s, v)
    ensures Inv(Next(s, v))
  {
    KeepsShape(s, v);
    forall a, b ensures TwoHostsAt(Next(s, v), a, b) { KeepsTwoHosts(s, v, a, b); }
    forall a, b ensures SeenAt(Next(s, v), a, b) { KeepsSeen(s, v, a, b); }
    forall a, b ensures HandshakeAt(Next(s, v), a, b) { KeepsHandshake(s, v, a, b); }
    forall a, b ensures LostAt(Next(s, v), a, b) { KeepsLost(s, v, a, b); }
  }

  predicate Quiet(s: State) {
    s.flight == {}
  }

  /** With nothing in flight there is at most one host; if there is one, it has no relay, every other node
      with viewers has a relay, and a relay that points to the host has a sender there exactly if that sender
      was not lost. */
  lemma QuietMeansLocated(s: State, a: NodeId, b: NodeId)
    requires Inv(s) && Quiet(s) && Hosts(s, a) && b in s.locs && b != a
    ensures !Hosts(s, b)
    ensures s.locs[a].relay.None?
    ensures s.locs[b].viewers ==> s.locs[b].relay.Some?
    ensures s.locs[b].relay == Some(a) ==> (b in s.locs[a].senders <==> (a, b) !in s.faults)
  {
    assert TwoHostsAt(s, a, b) && SeenAt(s, a, b) && HandshakeAt(s, a, b) && LostAt(s, a, b);
  }

  /** A sender that is not there comes only with a CONNECT from its remote node, while the node hosts. */
  lemma SendersComeByConnect(s: State, v: Move, a: NodeId, b: NodeId)
    requires CanMove(s, v) && a in s.locs && b !in s.locs[a].senders && b in Next(s, v).locs[a].senders
    ensures v.Deliver? && v.m == Mail(ConnectMail, b, a) && Hosts(s, a)
  {
  }

  // ---------- Which hosts survive deliveries ----------

  /** x can take the stream from a: its INFO for a is in flight, or will be when a's RESOLVE reaches it. */
  predicate Threatens(s: State, x: NodeId, a: NodeId) {
    x != a &&
    (|| Mail(InfoMail, x, a) in s.flight
     || Mail(ReplyMail, x, a) in s.flight
     || (Mail(ResolveMail, a, x) in s.flight && Hosts(s, x)))
  }

  predicate IsDelivery(v: Move) {
    v.Nothing? || v.Deliver? || v.SendReply?
  }

  lemma DeliveryKeepsViewers(s: State, v: Move)
    requires CanMove(s, v) && IsDelivery(v)
    ensures Next(s, v).locs.Keys == s.locs.Keys
    ensures forall b | b in s.locs :: Next(s, v).locs[b].viewers == s.locs[b].viewers
  {
  }

  /** A delivery neither takes the stream from a host that nobody threatens, nor makes anybody threaten it. */
  lemma UnthreatenedStays(s: State, v: Move, a: NodeId)
    requires CanMove(s, v) && IsDelivery(v) && Hosts(s, a) && forall x :: !Threatens(s, x, a)
    ensures Hosts(Next(s, v), a) && forall x :: !Threatens(Next(s, v), x, a)
  {
    forall x ensures !Threatens(Next(s, v), x, a) {
      assert !Threatens(s, x, a);
    }
    if v.Deliver? { assert !Threatens(s, v.m.src, a); }
  }

  predicate Names(s: State, b: NodeId, a: NodeId) {
    b in s.locs && s.locs[b].relay == Some(a)
  }

  /** A delivery neither turns b's relay away from a when no other node threatens b, nor makes another node
      threaten it. */
  lemma NamedStays(s: State, v: Move, a: NodeId, b: NodeId)
    requires CanMove(s, v) && IsDelivery(v) && Names(s, b, a) && forall x | x != a :: !Threatens(s, x, b)
    ensures Names(Next(s, v), b, a) && forall x | x != a :: !Threatens(Next(s, v), x, b)
  {
    forall x | x != a ensures !Threatens(Next(s, v), x, b) {
      assert !Threatens(s, x, b);
    }
    if v.Deliver? && v.m.src != a { assert !Threatens(s, v.m.src, b); }
  }

  // ---------- An uncontested publisher ----------

  /** a is the only host, every INFO in flight or about to be sent comes from a, and every relay
      points to a or is about to be told of it. */
  ghost predicate Sole(s: State, a: NodeId) {
    && Hosts(s, a)
    && (forall b | Hosts(s, b) :: b == a)
    && (forall m | m in s.flight && (m.what == InfoMail || m.what == ReplyMail) :: m.src == a)
    && (forall b | b in s.locs && b != a && s.locs[b].relay.Some? ::
          s.locs[b].relay == Some(a) || Mail(InfoMail, a, b) in s.flight)
  }

  /** The moves that contest a: another node publishes, or a closes its own source. */
  predicate Contests(v: Move, a: NodeId) {
    (v.Publish? && v.a != a) || v == Unpublish(a)
  }

  lemma UncontestedStaysSole(s: State, v: Move, a: NodeId)
    requires CanMove(s, v) && Shape(s) && Sole(s, a) && !Contests(v, a)
    ensures Sole(Next(s, v), a)
  {
    var s' := Next(s, v);
    assert v.Deliver? && v.m.what == ResolveMail && s.locs[v.m.dst].host ==> Hosts(s, v.m.dst);
    forall b | Hosts(s', b) ensures b == a {
      assert Hosts(s, b) || v == Publish(b);
    }
  }

  /** Publishing where nobody else hosts and no other INFO is under way makes the publisher sole host. */
  lemma PublishMakesSole(s: State, a: NodeId)
    requires a in s.locs
    requires forall b | Hosts(s, b) :: b == a
    requires forall m | m in s.flight && (m.what == InfoMail || m.what == ReplyMail) :: m.src == a
    ensures Sole(Next(s, Publish(a)), a)
  {
    forall b | Hosts(Next(s, Publish(a)), b) ensures b == a {
      assert b != a ==> Hosts(s, b);
    }
  }

  /** Once the messages of an uncontested publication are delivered, every viewer is served from the publisher. */
  lemma QuietSoleServesAll(s: State, a: NodeId, b: NodeId)
    requires Inv(s) && Sole(s, a) && Quiet(s) && b in s.locs && b != a && s.locs[b].viewers
    ensures s.locs[b].relay == Some(a)
    ensures b in s.locs[a].senders <==> (a, b) !in s.faults
  {
    QuietMeansLocated(s, a, b);
  }
}
