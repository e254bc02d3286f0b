/**
  Who is registered after a step, and what the step publishes: said once for all steps, in terms of who is there.
 */
module Presence {
  import opened Types
  import opened NodeSpec
  import opened StreamSpec
  import NodeInvariants

  /** Who is there of one stream: the registered source's identity, the node that the relay takes it from, the
      viewers, and the nodes that are served. */
  datatype Who = Who(source: Option<nat>, relay: Option<NodeId>, viewers: set<SinkId>, served: set<NodeId>)

  function WhoIsThere(n: NodeState, sid: StreamId): Who {
    Who(
      if sid in n.sources then Some(n.sources[sid].stamp) else None,
      if sid in n.relays then Some(n.relays[sid].remoteId) else None,
      if sid in n.sinks then n.sinks[sid].Keys else {},
      if sid in n.senders then n.senders[sid].Keys else {})
  }

  /** A new source takes the place of the old one and of the relay, and nobody is served yet. A source that closes
      leaves nobody served, and one that another node's INFO evicts leaves all; the INFO turns the relay to that node
      if there are viewers. The last viewer takes the relay along. A CONNECT is served by a host only. Nobody else
      comes or goes. */
  function After(who: Who, step: Step): Who {
    match step
    case RegisterSourceStep(_, s) => Who(Some(s.stamp), None, who.viewers, {})
    case SourceClosedStep(_) => Who(None, who.relay, who.viewers, {})
    case RegisterSinkStep(_, k, _) => who.(viewers := who.viewers + {k})
    case RemoveSinkStep(_, k) =>
      if who.viewers == {k} then who.(viewers := {}, relay := None) else who.(viewers := who.viewers - {k})
    case RelayClosedStep(_, _) => who.(relay := None)
    case SenderClosedStep(_, remote) => who.(served := who.served - {remote})
    case ConnectStep(from, _, _) => if who.source == None then who else who.(served := who.served + {from})
    case InfoStep(from, _) =>
      who.(source := None, relay := if who.viewers == {} then who.relay else Some(from))
    case _ => who
  }

  function WhoOf(e: Slice): Who {
    Who(
      if e.source.Some? then Some(e.source.value.stamp) else None,
      if e.relay.Some? then Some(e.relay.value.remoteId) else None, e.sinks.Keys, e.senders.Keys)
  }

  lemma WhoInSlice(n: NodeState, sid: StreamId)
    ensures WhoIsThere(n, sid) == WhoOf(SliceOf(n, sid))
  {
  }

  lemma AfterInSlice(e: Slice, step: Step, id: NodeId)
    requires SPossible(id, e, step)
    ensures WhoOf(SNext(e, step, id)) == After(WhoOf(e), step)
  {
    match step
    case SourceTrackStep(_, kind, track) =>
      var t := WithTrack(e.source.value.tracks, kind, track);
      assert AllSinksReady(e.sinks, t).Keys == e.sinks.Keys && AllSendersReady(e.senders, t).Keys == e.senders.Keys;
    case RelayTrackStep(_, kind, track) =>
      assert AllSinksReady(e.sinks, WithTrack(e.relay.value.tracks, kind, track)).Keys == e.sinks.Keys;
    case LateTracksStep(_, t, _) =>
      assert AllSinksReady(e.sinks, t).Keys == e.sinks.Keys && AllSendersReady(e.senders, t).Keys == e.senders.Keys;
    case RemoveSinkStep(_, k) => LastViewer(e.sinks, k);
    case InfoStep(_, _) => assert e.sinks == map[] <==> e.sinks.Keys == {};
    case _ =>
  }

  lemma LastViewer(m: map<SinkId, Sink>, k: SinkId)
    ensures k in m ==> ((m - {k}) == map[] <==> m.Keys == {k})
    ensures k !in m ==> m.Keys != {k} && m.Keys - {k} == m.Keys
    ensures m == map[] <==> m.Keys == {}
  {
    if k in m {
      forall x | x in m && x != k ensures x in m - {k} {
      }
      if m.Keys == {k} { assert (m - {k}).Keys == {}; }
    }
  }

  /** After every step exactly those are registered, of every stream. */
  lemma RegisteredExactly(n: NodeState, step: Step, sid: StreamId)
    requires Tidy(n) && Possible(n, step)
    ensures
      WhoIsThere(Apply(n, step).node, sid) ==
      if StreamOf(step) == Some(sid) then After(WhoIsThere(n, sid), step) else WhoIsThere(n, sid)
  {
    hide Apply, SNext, WhoOf, WhoIsThere, After;
    NodeInvariants.StepSeenFrom(n, step, sid);
    WhoInSlice(n, sid);
    WhoInSlice(Apply(n, step).node, sid);
    if StreamOf(step) == Some(sid) { AfterInSlice(SliceOf(n, sid), step, n.id); }
  }

  /** A new source is announced to all. A new viewer asks all if neither source nor relay is ready, and viewers whose
      relay is lost ask again. Viewers that learn of a host ask it for the stream. A sender's task offers to its remote
      node the kinds of track it has, if any. Nothing else is published. */
  lemma PublishedExactly(n: NodeState, step: Step)
    requires NodeInvariants.OpenInv(n) && NodeInvariants.CanHappen(n, step)
    ensures
      var pub := Apply(n, step).pub;
      match step
      case RegisterSourceStep(sid, _) => pub == Some(Broadcast(Info, sid))
      case RegisterSinkStep(sid, _, _) =>
        var ready := (sid in n.sources && n.sources[sid].ready) || (sid in n.relays && n.relays[sid].ready);
        pub == if ready then None else Some(Broadcast(Resolve, sid))
      case RelayClosedStep(sid, _) =>
        pub == if exists k :: IsSink(n, sid, k) then Some(Broadcast(Resolve, sid)) else None
      case InfoStep(from, sid) =>
        pub == if exists k :: IsSink(n, sid, k) then Some(Direct(from, Connect, sid)) else None
      case RunSenderStep(sid, remote) =>
        var t := n.senders[sid][remote].tracks;
        pub == if t == Tracks(None, None) then None
               else Some(Direct(remote, Offer(t.video != None, t.audio != None), sid))
      case _ => pub == None
  {
    match step
    case RelayClosedStep(sid, _) => SomeViewer(n, sid);
    case InfoStep(_, sid) => SomeViewer(n, sid);
    case RunSenderStep(sid, remote) =>
      assert NodeInvariants.OpenOK(SliceOf(n, sid));
      assert remote in SendersAt(n, sid);
    case _ =>
  }

  lemma SomeViewer(n: NodeState, sid: StreamId)
    ensures (exists k :: IsSink(n, sid, k)) <==> sid in n.sinks && n.sinks[sid] != map[]
  {
    if sid in n.sinks && n.sinks[sid] != map[] {
      var k :| k in n.sinks[sid];
      assert IsSink(n, sid, k);
    }
  }
}
