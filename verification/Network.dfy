/**
  The whole network: every node's registries, and the messages that were published and not
  yet delivered. One transition is one critical section of one node, with what it publishes.
  Messages are delivered in any order and none is lost.
 */
module Network {
  import opened Types
  import opened NodeSpec
  import opened StreamSpec
  import NodeInvariants
  import Location

  /** `PendingReply` stands between resolveSource finding a source and sendInfoMessage publishing it. */
  datatype MessageKind = Published(kind: Kind) | PendingReply

  datatype Message = Message(kind: MessageKind, src: NodeId, dst: NodeId, sid: StreamId)

  datatype Net = Net(
    ids: seq<NodeId>,
    nodes: map<NodeId, NodeState>,
    bag: seq<Message>,
    faults: set<(NodeId, NodeId, StreamId)>)  // senders (at, for, of) that were lost and not renewed

  datatype NetStep =
    | Local(at: NodeId, step: Step)  // a client, a timer or a peer connection acts on a node
    | Deliver(i: nat)                // the i-th message of the bag reaches its node
    | Answer(i: nat)                 // the i-th message of the bag, a pending reply, is published

  predicate IsLocal(step: Step) {
    !step.ConnectStep? && !step.InfoStep? && !step.OfferStep?
  }

  /** Objects that have left their registries may still act: nothing more is asked of a local step. */
  predicate CanStep(w: Net, s: NetStep) {
    match s
    case Local(at, step) => at in w.nodes && IsLocal(step) && Possible(w.nodes[at], step)
    case Deliver(i) => i < |w.bag| && w.bag[i].dst in w.nodes && w.bag[i].kind != PendingReply
    case Answer(i) => i < |w.bag| && w.bag[i].kind == PendingReply
  }

  /** The copies a publication puts in flight: one for every subscriber of its channel. */
  function Copies(ids: seq<NodeId>, src: NodeId, pub: Option<Publication>): seq<Message> {
    match pub
    case None => []
    case Some(Broadcast(kind, sid)) =>
      seq(|ids|, i requires 0 <= i < |ids| => Message(Published(kind), src, ids[i], sid))
    case Some(Direct(to, kind, sid)) => [Message(Published(kind), src, to, sid)]
  }

  function Without(bag: seq<Message>, i: nat): seq<Message>
    requires i < |bag|
  {
    bag[..i] + bag[i + 1..]
  }

  function WithEffect(w: Net, at: NodeId, e: Effect): Net {
    w.(nodes := w.nodes[at := e.node], bag := w.bag + Copies(w.ids, at, e.pub))
  }

  function LocalNext(w: Net, at: NodeId, step: Step): Net
    requires CanStep(w, Local(at, step))
  {
    var w' := WithEffect(w, at, Apply(w.nodes[at], step));
    if step.SenderClosedStep? && IsSender(w.nodes[at], step.sid, step.remote) then
      w'.(faults := w.faults + {(at, step.remote, step.sid)})
    else
      w'
  }

  /** receiveRedisMessage: messages from the node itself are ignored. */
  function Dispatch(w: Net, m: Message): Net
    requires m.dst in w.nodes && m.kind != PendingReply
  {
    var n := w.nodes[m.dst];
    if m.src == n.id then w
    else
      match m.kind.kind
      case Resolve =>
        if m.sid in n.sources then w.(bag := w.bag + [Message(PendingReply, m.dst, m.src, m.sid)]) else w
      case Info => WithEffect(w, m.dst, Apply(n, InfoStep(m.src, m.sid)))
      case Connect =>
        var w' := WithEffect(w, m.dst, Apply(n, ConnectStep(m.src, m.sid, n.nextStamp)));
        if m.sid in n.sources then w'.(faults := w.faults - {(m.dst, m.src, m.sid)}) else w'
      case Offer(v, a) => WithEffect(w, m.dst, Apply(n, OfferStep(m.sid, v, a)))
  }

  function Next(w: Net, s: NetStep): Net
    requires CanStep(w, s)
  {
    match s
    case Local(at, step) => LocalNext(w, at, step)
    case Deliver(i) => Dispatch(w.(bag := Without(w.bag, i)), w.bag[i])
    case Answer(i) =>
      var m := w.bag[i];
      w.(bag := Without(w.bag, i) + [Message(Published(Info), m.src, m.dst, m.sid)])
  }

  // ---------- What is seen of one stream ----------

  function LocOf(e: Slice): Location.Loc {
    Location.Loc(
      e.source.Some?,
      if e.relay.Some? then Some(e.relay.value.remoteId) else None,
      e.sinks != map[],
      e.senders.Keys)
  }

  predicate IsMail(m: Message, sid: StreamId) {
    m.sid == sid && (m.kind.Published? ==> !m.kind.kind.Offer?)
  }

  function MailOf(m: Message): Location.Mail {
    var what := match m.kind
                case PendingReply => Location.ReplyMail
                case Published(Resolve) => Location.ResolveMail
                case Published(Connect) => Location.ConnectMail
                case Published(_) => Location.InfoMail;
    Location.Mail(what, m.src, m.dst)
  }

  function Flight(bag: seq<Message>, sid: StreamId): set<Location.Mail> {
    set m | m in bag && IsMail(m, sid) :: MailOf(m)
  }

  function Locs(nodes: map<NodeId, NodeState>, sid: StreamId): map<NodeId, Location.Loc> {
    map x | x in nodes :: LocOf(SliceOf(nodes[x], sid))
  }

  function Faults(faults: set<(NodeId, NodeId, StreamId)>, sid: StreamId): set<(NodeId, NodeId)> {
    set f | f in faults && f.2 == sid :: (f.0, f.1)
  }

  function Seen(w: Net, sid: StreamId): Location.State {
    Location.State(Locs(w.nodes, sid), Flight(w.bag, sid), Faults(w.faults, sid))
  }

  /** Node ids are those of the nodes, and messages go between nodes. */
  ghost predicate WellFormed(w: Net) {
    && (forall x :: x in w.ids <==> x in w.nodes)
    && (forall x | x in w.nodes :: w.nodes[x].id == x && Tidy(w.nodes[x]))
    && (forall m | m in w.bag :: m.src in w.nodes && m.dst in w.nodes)
  }

  // ---------- Messages, seen from one stream ----------

  lemma FlightAppend(a: seq<Message>, b: seq<Message>, sid: StreamId)
    ensures Flight(a + b, sid) == Flight(a, sid) + Flight(b, sid)
  {
    forall x | x in Flight(a, sid) + Flight(b, sid) ensures x in Flight(a + b, sid) {
      var m :| (m in a || m in b) && IsMail(m, sid) && MailOf(m) == x;
      assert m in a + b;
    }
  }

  lemma FlightOne(m: Message, sid: StreamId)
    ensures Flight([m], sid) == if IsMail(m, sid) then {MailOf(m)} else {}
  {
    assert m in [m];
  }

  /** Taking one message out of the bag leaves its element behind exactly when an equal copy remains. */
  lemma FlightWithout(bag: seq<Message>, i: nat, sid: StreamId)
    requires i < |bag|
    ensures
      var rest := Flight(Without(bag, i), sid);
      rest == if IsMail(bag[i], sid) then Location.Take(Flight(bag, sid), MailOf(bag[i]), MailOf(bag[i]) in rest)
              else Flight(bag, sid)
  {
    assert bag == bag[..i] + [bag[i]] + bag[i + 1..];
    FlightAppend(bag[..i], bag[i + 1..], sid);
    FlightAppend(bag[..i] + [bag[i]], bag[i + 1..], sid);
    FlightAppend(bag[..i], [bag[i]], sid);
    FlightOne(bag[i], sid);
  }

  function WhatOf(kind: Kind): Location.What
    requires !kind.Offer?
  {
    match kind
    case Resolve => Location.ResolveMail
    case Info => Location.InfoMail
    case Connect => Location.ConnectMail
  }

  /** The mail of one stream that a publication puts in flight. */
  function MailsOf(s: Location.State, src: NodeId, pub: Option<Publication>, sid: StreamId): set<Location.Mail> {
    match pub
    case None => {}
    case Some(Broadcast(kind, of)) =>
      if of == sid && !kind.Offer? then Location.ToAll(s, WhatOf(kind), src) else {}
    case Some(Direct(to, kind, of)) =>
      if of == sid && !kind.Offer? then {Location.Mail(WhatOf(kind), src, to)} else {}
  }

  lemma FlightCopies(w: Net, src: NodeId, pub: Option<Publication>, sid: StreamId)
    requires WellFormed(w)
    ensures Flight(Copies(w.ids, src, pub), sid) == MailsOf(Seen(w, sid), src, pub, sid)
  {
    if pub.Some? && pub.value.Broadcast? {
      var kind, of := pub.value.kind, pub.value.sid;
      var copies := Copies(w.ids, src, pub);
      if of == sid && !kind.Offer? {
        forall x | x in Location.ToAll(Seen(w, sid), WhatOf(kind), src) ensures x in Flight(copies, sid) {
          var i :| 0 <= i < |w.ids| && w.ids[i] == x.dst;
          assert copies[i] in copies && MailOf(copies[i]) == x;
        }
      }
    } else if pub.Some? {
      FlightOne(Copies(w.ids, src, pub)[0], sid);
    }
  }

  // ---------- Every step of the network is a move of every stream's protocol ----------

  /** The move a local step of node `at` makes in the stream it names. */
  function LocalMove(at: NodeId, e: Slice, step: Step): Location.Move {
    match step
    case RegisterSourceStep(_, _) => Location.Publish(at)
    case SourceClosedStep(_) => Location.Unpublish(at)
    case RegisterSinkStep(_, _, _) => Location.View(at, Current(e).None?)
    case RemoveSinkStep(_, k) =>
      if k in e.sinks && e.sinks - {k} == map[] then Location.Unview(at) else Location.Nothing
    case RelayClosedStep(_, _) => Location.RelayLost(at)
    case SenderClosedStep(_, remote) => Location.SenderLost(at, remote)
    case _ => Location.Nothing
  }

  function MoveOf(w: Net, s: NetStep, sid: StreamId): Location.Move
    requires CanStep(w, s)
  {
    match s
    case Local(at, step) =>
      if StreamOf(step) == Some(sid) then LocalMove(at, SliceOf(w.nodes[at], sid), step) else Location.Nothing
    case Deliver(i) =>
      var m := w.bag[i];
      if IsMail(m, sid) then Location.Deliver(MailOf(m), MailOf(m) in Flight(Without(w.bag, i), sid))
      else Location.Nothing
    case Answer(i) =>
      var m := w.bag[i];
      if IsMail(m, sid) then Location.SendReply(MailOf(m), MailOf(m) in Flight(Without(w.bag, i), sid))
      else Location.Nothing
  }

  /** Where the entries of a stream are after a local step, and the mail it publishes. */
  ghost predicate StepMoves(s: Location.State, at: NodeId, e: Slice, step: Step, id: NodeId)
    requires at in s.locs && SPossible(id, e, step) && StreamOf(step).Some? && IsLocal(step)
  {
    var v := LocalMove(at, e, step);
    var pub := SPub(e, step, id);
    && Location.CanMove(s, v)
    && Location.Next(s, v).locs == s.locs[at := LocOf(SNext(e, step, id))]
    && Location.Next(s, v).flight == s.flight +
         (if pub.Some? && pub.value.Broadcast? then Location.ToAll(s, WhatOf(pub.value.kind), at) else {})
    && (pub.Some? && pub.value.Direct? ==> pub.value.kind.Offer?)
    && (pub.Some? && pub.value.Broadcast? ==> !pub.value.kind.Offer?)
    && Location.Next(s, v).faults ==
         if step.SenderClosedStep? && step.remote in e.senders then s.faults + {(at, step.remote)} else s.faults
  }

  lemma SourceStepMoves(s: Location.State, at: NodeId, e: Slice, step: Step, id: NodeId)
    requires at in s.locs && s.locs[at] == LocOf(e)
    requires SPossible(id, e, step) && StreamOf(step).Some? && IsLocal(step)
    requires step.RegisterSourceStep? || step.SourceTrackStep? || step.SourceClosedStep? || step.RelayTrackStep? ||
             step.RelayClosedStep?
    ensures StepMoves(s, at, e, step, id)
  {
    hide AllSinksReady, AllSinksClosed, AllSendersReady;
    var e' := SNext(e, step, id);
    match step
    case RegisterSourceStep(_, _) =>
      assert e'.senders.Keys == {};
    case SourceTrackStep(_, kind, track) =>
      TrackKeepsLoc(e, e', WithTrack(e.source.value.tracks, kind, track));
      assert LocOf(e') == LocOf(e);
    case RelayTrackStep(_, kind, track) =>
      TrackKeepsLoc(e, e', WithTrack(e.relay.value.tracks, kind, track));
      assert LocOf(e') == LocOf(e);
    case SourceClosedStep(_) =>
      assert e'.senders.Keys == {};
      TrackKeepsLoc(e, e', e.source.value.tracks);
    case RelayClosedStep(_, tracks) =>
      TrackKeepsLoc(e, e', tracks);
  }

  lemma SinkStepMoves(s: Location.State, at: NodeId, e: Slice, step: Step, id: NodeId)
    requires at in s.locs && s.locs[at] == LocOf(e)
    requires SPossible(id, e, step) && StreamOf(step).Some? && IsLocal(step)
    requires step.RegisterSinkStep? || step.RemoveSinkStep? || step.RunSinkStep? || step.ReconnectSinkStep?
    ensures StepMoves(s, at, e, step, id)
  {
    var e' := SNext(e, step, id);
    match step
    case RegisterSinkStep(_, k, _) =>
      assert k in e'.sinks;
    case RemoveSinkStep(_, k) =>
    case RunSinkStep(_, k) =>
      assert k in e'.sinks && k in e.sinks;
    case ReconnectSinkStep(_, k) =>
      assert k in e'.sinks && k in e.sinks;
  }

  lemma LocalStepMoves(s: Location.State, at: NodeId, e: Slice, step: Step, id: NodeId)
    requires at in s.locs && s.locs[at] == LocOf(e)
    requires SPossible(id, e, step) && StreamOf(step).Some? && IsLocal(step)
    ensures StepMoves(s, at, e, step, id)
  {
    var e' := SNext(e, step, id);
    match step
    case LateTracksStep(_, tracks, _) =>
      TrackKeepsLoc(e, e', tracks);
    case RunSenderStep(_, remote) =>
      assert e'.senders.Keys == e.senders.Keys;
    case SenderClosedStep(_, remote) =>
      assert e'.senders.Keys == e.senders.Keys - {remote};
    case RegisterSinkStep(_, _, _) => SinkStepMoves(s, at, e, step, id);
    case RemoveSinkStep(_, _) => SinkStepMoves(s, at, e, step, id);
    case RunSinkStep(_, _) => SinkStepMoves(s, at, e, step, id);
    case ReconnectSinkStep(_, _) => SinkStepMoves(s, at, e, step, id);
    case _ => SourceStepMoves(s, at, e, step, id);
  }

  lemma TrackKeepsLoc(e: Slice, e': Slice, t: Tracks)
    ensures (AllSinksReady(e.sinks, t) != map[]) == (e.sinks != map[])
    ensures (AllSinksClosed(e.sinks, t) != map[]) == (e.sinks != map[])
    ensures AllSendersReady(e.senders, t).Keys == e.senders.Keys
  {
    if e.sinks != map[] { ReadyNonEmpty(e.sinks, t); }
    assert AllSinksReady(map[], t) == map[] && AllSinksClosed(map[], t) == map[];
  }

  lemma LocsAfter(nodes: map<NodeId, NodeState>, at: NodeId, n: NodeState, sid: StreamId)
    requires at in nodes
    ensures Locs(nodes[at := n], sid) == Locs(nodes, sid)[at := LocOf(SliceOf(n, sid))]
  {
  }

  lemma FaultsAdd(faults: set<(NodeId, NodeId, StreamId)>, f: (NodeId, NodeId, StreamId), sid: StreamId)
    ensures Faults(faults + {f}, sid) == Faults(faults, sid) + if f.2 == sid then {(f.0, f.1)} else {}
  {
    assert f in faults + {f};
    forall x | x in Faults(faults, sid) ensures x in Faults(faults + {f}, sid) {
      assert (x.0, x.1, sid) in faults;
      assert (x.0, x.1, sid) in faults + {f};
    }
  }

  lemma FaultsDrop(faults: set<(NodeId, NodeId, StreamId)>, f: (NodeId, NodeId, StreamId), sid: StreamId)
    ensures Faults(faults - {f}, sid) == Faults(faults, sid) - if f.2 == sid then {(f.0, f.1)} else {}
  {
    forall x | x in Faults(faults, sid) && (f.2 == sid ==> x != (f.0, f.1)) ensures x in Faults(faults - {f}, sid) {
      assert (x.0, x.1, sid) in faults - {f};
    }
  }

  /** The stream's view after a node took a step, when the step names the stream and when it does not. */
  lemma SeenAfterStep(w: Net, at: NodeId, step: Step, sid: StreamId)
    requires WellFormed(w) && at in w.nodes && Possible(w.nodes[at], step)
    ensures StreamOf(step) == Some(sid) ==>
              var n, s := w.nodes[at], Seen(w, sid);
              && SPossible(n.id, SliceOf(n, sid), step)
              && Seen(WithEffect(w, at, Apply(n, step)), sid) ==
                 s.(locs := s.locs[at := LocOf(SNext(SliceOf(n, sid), step, n.id))],
                 flight := s.flight + MailsOf(s, at, SPub(SliceOf(n, sid), step, n.id), sid))
    ensures StreamOf(step) != Some(sid) ==> Seen(WithEffect(w, at, Apply(w.nodes[at], step)), sid) == Seen(w, sid)
  {
    var e := Apply(w.nodes[at], step);
    NodeInvariants.StepSeenFrom(w.nodes[at], step, sid);
    LocsAfter(w.nodes, at, e.node, sid);
    FlightAppend(w.bag, Copies(w.ids, at, e.pub), sid);
    FlightCopies(w, at, e.pub, sid);
    if StreamOf(step) != Some(sid) {
      assert Locs(w.nodes, sid)[at := LocOf(SliceOf(e.node, sid))] == Locs(w.nodes, sid);
    }
  }

  /** The bookkeeping of lost senders, seen from one stream. */
  lemma SeenLocalNext(w: Net, at: NodeId, step: Step, sid: StreamId)
    requires CanStep(w, Local(at, step))
    ensures
      var s := Seen(WithEffect(w, at, Apply(w.nodes[at], step)), sid);
      Seen(LocalNext(w, at, step), sid) ==
      if step.SenderClosedStep? && step.sid == sid && IsSender(w.nodes[at], step.sid, step.remote) then
        s.(faults := Seen(w, sid).faults + {(at, step.remote)})
      else
        s
  {
    if step.SenderClosedStep? {
      FaultsAdd(w.faults, (at, step.remote, step.sid), sid);
    }
  }

  lemma LocalFollows(w: Net, at: NodeId, step: Step, sid: StreamId)
    requires WellFormed(w) && CanStep(w, Local(at, step))
    ensures Location.CanMove(Seen(w, sid), MoveOf(w, Local(at, step), sid))
    ensures Location.Next(Seen(w, sid), MoveOf(w, Local(at, step), sid)) == Seen(LocalNext(w, at, step), sid)
  {
    SeenLocalNext(w, at, step, sid);
    SeenAfterStep(w, at, step, sid);
    if StreamOf(step) == Some(sid) {
      LocalStepMoves(Seen(w, sid), at, SliceOf(w.nodes[at], sid), step, w.nodes[at].id);
    }
  }

  lemma InfoMovesLoc(e: Slice, from: NodeId, sid: StreamId, id: NodeId)
    requires from != id
    ensures
      var l := LocOf(e);
      var step := InfoStep(from, sid);
      && LocOf(SNext(e, step, id)) == l.(host := false, relay := if l.viewers then Some(from) else l.relay)
      && SPub(e, step, id) == if l.viewers then Some(Direct(from, Connect, sid)) else None
  {
  }

  lemma ConnectMovesLoc(e: Slice, from: NodeId, sid: StreamId, stamp: nat, id: NodeId)
    requires from != id
    ensures
      var l := LocOf(e);
      var step := ConnectStep(from, sid, stamp);
      && LocOf(SNext(e, step, id)) == (if l.host then l.(senders := l.senders + {from}) else l)
      && SPub(e, step, id) == None
  {
    assert e.source.Some? ==> SConnect(e, from, stamp).senders.Keys == e.senders.Keys + {from};
  }

  lemma OfferMovesLoc(e: Slice, v: bool, a: bool, sid: StreamId, id: NodeId)
    ensures LocOf(SNext(e, OfferStep(sid, v, a), id)) == LocOf(e)
    ensures SPub(e, OfferStep(sid, v, a), id) == None
  {
  }

  /** What handling a message of the same stream does there. */
  predicate Follows(w: Net, m: Message, sid: StreamId)
    requires m.dst in w.nodes && m.kind != PendingReply
  {
    Seen(Dispatch(w, m), sid) ==
    if IsMail(m, sid) then Location.Handle(Seen(w, sid), MailOf(m)) else Seen(w, sid)
  }

  lemma ResolveFollows(w: Net, m: Message, sid: StreamId)
    requires WellFormed(w) && m.dst in w.nodes && m.kind == Published(Resolve)
    ensures Follows(w, m, sid)
  {
    var reply := Message(PendingReply, m.dst, m.src, m.sid);
    FlightAppend(w.bag, [reply], sid);
    FlightOne(reply, sid);
    assert Locs(w.nodes, m.sid)[m.dst].host <==> m.sid in w.nodes[m.dst].sources;
  }

  /** `Location.Handle`, spelled out for each kind of mail. */
  lemma HandleInfo(s: Location.State, from: NodeId, at: NodeId)
    requires at in s.locs && from != at
    ensures
      var l := s.locs[at];
      Location.Handle(s, Location.Mail(Location.InfoMail, from, at)) ==
      s.(locs := s.locs[at := l.(host := false, relay := if l.viewers then Some(from) else l.relay)],
      flight := s.flight + if l.viewers then {Location.Mail(Location.ConnectMail, at, from)} else {})
  {
    assert s.flight + {} == s.flight;
  }

  lemma HandleConnect(s: Location.State, from: NodeId, at: NodeId)
    requires at in s.locs && from != at
    ensures
      var l := s.locs[at];
      Location.Handle(s, Location.Mail(Location.ConnectMail, from, at)) ==
      s.(locs := s.locs[at := if l.host then l.(senders := l.senders + {from}) else l],
      flight := s.flight + {},
      faults := if l.host then s.faults - {(at, from)} else s.faults)
  {
    assert s.flight + {} == s.flight;
    assert s.locs[at := s.locs[at]] == s.locs;
  }

  lemma InfoFollows(w: Net, m: Message, sid: StreamId)
    requires WellFormed(w) && m.dst in w.nodes && m.kind == Published(Info) && m.src != m.dst
    ensures Follows(w, m, sid)
  {
    hide Apply, SliceOf;
    var n := w.nodes[m.dst];
    SeenAfterStep(w, m.dst, InfoStep(m.src, m.sid), sid);
    if m.sid == sid {
      InfoMovesLoc(SliceOf(n, sid), m.src, sid, n.id);
      HandleInfo(Seen(w, sid), m.src, m.dst);
    }
  }

  lemma ConnectFollows(w: Net, m: Message, sid: StreamId)
    requires WellFormed(w) && m.dst in w.nodes && m.kind == Published(Connect) && m.src != m.dst
    ensures Follows(w, m, sid)
  {
    var n := w.nodes[m.dst];
    SeenAfterStep(w, m.dst, ConnectStep(m.src, m.sid, n.nextStamp), sid);
    FaultsDrop(w.faults, (m.dst, m.src, m.sid), sid);
    if m.sid == sid {
      ConnectMovesLoc(SliceOf(n, sid), m.src, sid, n.nextStamp, n.id);
      HandleConnect(Seen(w, sid), m.src, m.dst);
    }
  }

  lemma OfferFollows(w: Net, m: Message, sid: StreamId)
    requires WellFormed(w) && m.dst in w.nodes && m.kind.Published? && m.kind.kind.Offer? && m.src != m.dst
    ensures Follows(w, m, sid)
  {
    hide Apply, SNext, LocOf, WithEffect, Location.Handle;
    var n := w.nodes[m.dst];
    var s := Seen(w, sid);
    SeenAfterStep(w, m.dst, OfferStep(m.sid, m.kind.kind.video, m.kind.kind.audio), sid);
    if m.sid == sid {
      OfferMovesLoc(SliceOf(n, sid), m.kind.kind.video, m.kind.kind.audio, sid, n.id);
      assert s.flight + {} == s.flight;
      assert s.locs[m.dst := s.locs[m.dst]] == s.locs;
    }
  }

  lemma DispatchFollows(w: Net, m: Message, sid: StreamId)
    requires WellFormed(w) && m.dst in w.nodes && m.kind != PendingReply
    ensures Follows(w, m, sid)
  {
    if m.src != m.dst {
      match m.kind.kind
      case Resolve => ResolveFollows(w, m, sid);
      case Info => InfoFollows(w, m, sid);
      case Connect => ConnectFollows(w, m, sid);
      case Offer(v, a) => OfferFollows(w, m, sid);
    }
  }

  lemma InBagWithout(bag: seq<Message>, i: nat)
    requires i < |bag|
    ensures forall m | m in Without(bag, i) :: m in bag
  {
  }

  /** Every step of the network is, for every stream, a move of the location protocol. */
  lemma StepFollowsProtocol(w: Net, s: NetStep, sid: StreamId)
    requires WellFormed(w) && CanStep(w, s)
    ensures Location.CanMove(Seen(w, sid), MoveOf(w, s, sid))
    ensures Location.Next(Seen(w, sid), MoveOf(w, s, sid)) == Seen(Next(w, s), sid)
  {
    match s
    case Local(at, step) => LocalFollows(w, at, step, sid);
    case Deliver(i) =>
      InBagWithout(w.bag, i);
      FlightWithout(w.bag, i, sid);
      DispatchFollows(w.(bag := Without(w.bag, i)), w.bag[i], sid);
    case Answer(i) =>
      var m := w.bag[i];
      var info := Message(Published(Info), m.src, m.dst, m.sid);
      FlightWithout(w.bag, i, sid);
      FlightAppend(Without(w.bag, i), [info], sid);
      FlightOne(info, sid);
  }
}
