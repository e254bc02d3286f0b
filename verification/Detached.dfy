/**
  Sinks and senders that have left their registry but may still have queued
  `runAfterTracksReady` tasks or a peer connection that fails: once closed, none of them
  ever sends an offer again.
 */
module Detached {
  import opened Types
  import opened NodeSpec
  import opened StreamSpec
  import NodeInvariants

  /** A sender object: its stream, the node it serves, and its identity. */
  datatype SenderKey = SenderKey(sid: StreamId, remote: NodeId, stamp: nat)

  /** A node, and the objects that left its registries. */
  datatype Pool = Pool(node: NodeState, sinks: map<SinkId, Sink>, senders: map<SenderKey, Sender>)

  datatype PoolStep =
    | OnNode(step: Step)
    | RunGoneSink(id: SinkId)
    | ReconnectGoneSink(id: SinkId)
    | RunGoneSender(key: SenderKey)
    | GoneSenderPeerLost(key: SenderKey)

  predicate CanStep(p: Pool, s: PoolStep) {
    match s
    case OnNode(step) => NodeInvariants.CanHappen(p.node, step)
    case RunGoneSink(id) => id in p.sinks && p.sinks[id].queued > 0
    case ReconnectGoneSink(id) => id in p.sinks
    case RunGoneSender(key) => key in p.senders && p.senders[key].queued > 0
    case GoneSenderPeerLost(key) => key in p.senders
  }

  /** The sinks a step closes: sink.close() marks the sink and removes it. */
  function SinksLeaving(n: NodeState, step: Step): map<SinkId, Sink> {
    if step.RemoveSinkStep? && step.id in SinksAt(n, step.sid) then
      map[step.id := SinkClose(SinksAt(n, step.sid)[step.id])]
    else
      map[]
  }

  /** The senders a step closes, and the one that onSenderClosed takes out, as it is: it may not be the sender
      that lost its peer. */
  function SendersLeaving(n: NodeState, step: Step): map<SenderKey, Sender> {
    match step
    case RegisterSourceStep(sid, _) => ClosedSenders(n, sid)
    case SourceClosedStep(sid) => ClosedSenders(n, sid)
    case ConnectStep(from, sid, _) =>
      if sid in n.sources && from in SendersAt(n, sid) then
        var s := SendersAt(n, sid)[from];
        map[SenderKey(sid, from, s.stamp) := SenderClose(s)]
      else
        map[]
    case SenderClosedStep(sid, remote) =>
      if remote in SendersAt(n, sid) then
        var s := SendersAt(n, sid)[remote];
        map[SenderKey(sid, remote, s.stamp) := s]
      else
        map[]
    case _ => map[]
  }

  function ClosedSenders(n: NodeState, sid: StreamId): map<SenderKey, Sender> {
    map r | r in SendersAt(n, sid) ::
      SenderKey(sid, r, SendersAt(n, sid)[r].stamp) := SenderClose(SendersAt(n, sid)[r])
  }

  function Next(p: Pool, s: PoolStep): Pool
    requires CanStep(p, s)
  {
    match s
    case OnNode(step) =>
      Pool(Apply(p.node, step).node, p.sinks + SinksLeaving(p.node, step), p.senders + SendersLeaving(p.node, step))
    case RunGoneSink(id) => p.(sinks := p.sinks[id := SinkRun(p.sinks[id])])
    case ReconnectGoneSink(id) => p.(sinks := p.sinks[id := SinkReconnect(p.sinks[id])])
    case RunGoneSender(key) => p.(senders := p.senders[key := SenderRun(p.senders[key])])
    case GoneSenderPeerLost(key) => p.(senders := p.senders[key := p.senders[key].(peer := false)])
  }

  // ---------- Invariant ----------

  /** Closed, with no peer, no track, and nothing to offer. */
  predicate Silent(k: Sink) {
    k.closed && !k.hasVideo && !k.hasAudio && !k.peer && k.tracks == Tracks(None, None)
  }

  predicate SilentIfClosed(s: Sender) {
    s.closed ==> !s.hasVideo && !s.hasAudio && !s.peer && s.tracks == Tracks(None, None)
  }

  /** A sink that left is closed, offers nothing, and its id is neither registered nor to be handed out again. */
  ghost predicate SinksGoneOK(p: Pool) {
    && (forall id | id in p.sinks :: Silent(p.sinks[id]) && id.number <= p.node.sinkCount)
    && (forall id | id in p.sinks :: id !in p.node.reserved)
    && (forall id, sid | id in p.sinks :: id !in SinksAt(p.node, sid))
  }

  /** Sender identities below `nextStamp` are used; a registered sender is not among those that left. */
  ghost predicate SendersGoneOK(p: Pool) {
    && (forall key | key in p.senders :: SilentIfClosed(p.senders[key]) && key.stamp < p.node.nextStamp)
    && (forall sid, r :: SenderFresh(p, sid, r))
  }

  predicate SenderFresh(p: Pool, sid: StreamId, r: NodeId) {
    r in SendersAt(p.node, sid) ==>
      var stamp := SendersAt(p.node, sid)[r].stamp;
      stamp < p.node.nextStamp && SenderKey(sid, r, stamp) !in p.senders
  }

  ghost predicate Inv(p: Pool) {
    NodeInvariants.OpenInv(p.node) && SinksGoneOK(p) && SendersGoneOK(p)
  }

  /** What a step does to the counters and to the sink ids of one stream. */
  lemma SinkIdsAfter(n: NodeState, step: Step, sid: StreamId)
    requires NodeInvariants.OpenInv(n) && NodeInvariants.CanHappen(n, step)
    ensures
      var n' := Apply(n, step).node;
      && n'.sinkCount >= n.sinkCount
      && (forall id | id in n'.reserved :: id in n.reserved || id.number > n.sinkCount)
      && (forall id | id in SinksAt(n', sid) :: id in SinksAt(n, sid) || id in n.reserved)
      && (step.RemoveSinkStep? && step.sid == sid ==> step.id !in SinksAt(n', sid))
  {
    hide Apply;
    NodeInvariants.StepSeenFrom(n, step, sid);
    CountersAfter(n, step);
    var e := SliceOf(n, sid);
    assert e.sinks == SinksAt(n, sid);
    if StreamOf(step) == Some(sid) {
      NodeInvariants.SinkKeysAfter(e, step, n.id);
      if step.RemoveSinkStep? { RemovedIsGone(e, step.id); }
    }
  }

  lemma RemovedIsGone(e: Slice, id: SinkId)
    ensures id !in SRemoveSink(e, id).sinks
  {
  }

  lemma CountersAfter(n: NodeState, step: Step)
    requires Possible(n, step)
    ensures
      var n' := Apply(n, step).node;
      && n'.sinkCount >= n.sinkCount
      && (forall id | id in n'.reserved :: id in n.reserved || id.number > n.sinkCount)
  {
  }

  lemma KeepsSinksGone(p: Pool, step: Step)
    requires Inv(p) && NodeInvariants.CanHappen(p.node, step)
    ensures SinksGoneOK(Next(p, OnNode(step)))
  {
    hide NodeInvariants.OpenInv, NodeInvariants.CanHappen, Apply, SendersLeaving;
    var n, p' := p.node, Next(p, OnNode(step));
    SinkIdsAfter(n, step, "");
    if step.RemoveSinkStep? && step.id in SinksAt(n, step.sid) {
      RegisteredIds(n, step.sid, step.id);
    }
    forall id | id in p'.sinks
      ensures id !in p'.node.reserved && id.number <= p'.node.sinkCount && Silent(p'.sinks[id])
    {
    }
    forall id, sid | id in p'.sinks ensures id !in SinksAt(p'.node, sid) {
      SinkIdsAfter(n, step, sid);
    }
  }

  lemma RegisteredIds(n: NodeState, sid: StreamId, id: SinkId)
    requires NodeInvariants.OpenInv(n) && id in SinksAt(n, sid)
    ensures id.number <= n.sinkCount && id !in n.reserved
    ensures forall s | id in SinksAt(n, s) :: s == sid
  {
    assert NodeInvariants.IdsOK(n);
  }

  lemma SenderSlice(e: Slice, step: Step, id: NodeId, r: NodeId)
    requires SPossible(id, e, step) && r in SNext(e, step, id).senders
    ensures
      var s' := SNext(e, step, id).senders[r];
      || (r in e.senders && s'.stamp == e.senders[r].stamp
          && !step.RegisterSourceStep? && !step.SourceClosedStep?
          && !(step.ConnectStep? && step.from == r && e.source.Some?)
          && !(step.SenderClosedStep? && step.remote == r))
      || (step.ConnectStep? && step.from == r && e.source.Some? && s'.stamp == step.stamp)
  {
  }

  lemma StampsAfter(n: NodeState, step: Step)
    requires Possible(n, step)
    ensures Apply(n, step).node.nextStamp == n.nextStamp + (if UsesStamp(n, step) then 1 else 0)
  {
  }

  predicate UsesStamp(n: NodeState, step: Step) {
    step.RegisterSourceStep? || (step.ConnectStep? && step.sid in n.sources)
  }

  lemma KeepsSenderFresh(p: Pool, step: Step, sid: StreamId, r: NodeId)
    requires Inv(p) && NodeInvariants.CanHappen(p.node, step)
    ensures SenderFresh(Next(p, OnNode(step)), sid, r)
  {
    hide Apply, NodeInvariants.OpenInv, SNext;
    var n, p' := p.node, Next(p, OnNode(step));
    TidyOf(n);
    NodeInvariants.StepSeenFrom(n, step, sid);
    StampsAfter(n, step);
    assert SenderFresh(p, sid, r);
    var e := SliceOf(n, sid);
    assert e.senders == SendersAt(n, sid) && SliceOf(p'.node, sid).senders == SendersAt(p'.node, sid);
    assert e.source == Lookup(n.sources, sid);
    if r in SendersAt(p'.node, sid) && StreamOf(step) == Some(sid) {
      SenderSlice(e, step, n.id, r);
    }
  }

  lemma TidyOf(n: NodeState)
    requires NodeInvariants.OpenInv(n)
    ensures Tidy(n)
  {
  }

  lemma LeavingSilent(n: NodeState, step: Step)
    requires NodeInvariants.OpenInv(n)
    ensures forall key | key in SendersLeaving(n, step) :: SilentIfClosed(SendersLeaving(n, step)[key])
    ensures forall key | key in SendersLeaving(n, step) ::
              StreamOf(step) == Some(key.sid) && key.remote in SendersAt(n, key.sid)
              && key.stamp == SendersAt(n, key.sid)[key.remote].stamp
  {
    if StreamOf(step).Some? {
      assert NodeInvariants.OpenOK(SliceOf(n, step.sid));
    }
  }

  lemma KeepsSendersGone(p: Pool, step: Step)
    requires Inv(p) && NodeInvariants.CanHappen(p.node, step)
    ensures SendersGoneOK(Next(p, OnNode(step)))
  {
    hide Apply, NodeInvariants.OpenInv, SendersLeaving, SinksLeaving;
    var n, p' := p.node, Next(p, OnNode(step));
    StampsAfter(n, step);
    LeavingSilent(n, step);
    forall sid, r ensures SenderFresh(p', sid, r) {
      KeepsSenderFresh(p, step, sid, r);
    }
    forall key | key in p'.senders
      ensures SilentIfClosed(p'.senders[key]) && key.stamp < p'.node.nextStamp
    {
      assert SenderFresh(p, key.sid, key.remote);
    }
  }

  /** Every step keeps the invariant. */
  lemma StepKeepsInv(p: Pool, s: PoolStep)
    requires Inv(p) && CanStep(p, s)
    ensures Inv(Next(p, s))
  {
    match s
    case OnNode(step) =>
      NodeInvariants.StepKeepsOpenInv(p.node, step);
      KeepsSinksGone(p, step);
      KeepsSendersGone(p, step);
    case _ =>
      forall sid, r ensures SenderFresh(Next(p, s), sid, r) {
        assert SenderFresh(p, sid, r);
      }
  }

  // ---------- No offer after close ----------

  /** One step sends nothing for a sink that is closed and gone. */
  lemma StepLeavesSinkSilent(p: Pool, s: PoolStep, id: SinkId)
    requires Inv(p) && CanStep(p, s) && id in p.sinks
    ensures id in Next(p, s).sinks && Next(p, s).sinks[id].sent == p.sinks[id].sent
  {
    if s.OnNode? && s.step.RemoveSinkStep? {
      assert id !in SinksAt(p.node, s.step.sid);
    }
  }

  /** One step sends no offer for a sender that is closed and gone. */
  lemma StepLeavesSenderSilent(p: Pool, s: PoolStep, key: SenderKey)
    requires Inv(p) && CanStep(p, s) && key in p.senders && p.senders[key].closed
    ensures
      && key in Next(p, s).senders && Next(p, s).senders[key].closed
      && Next(p, s).senders[key].offers == p.senders[key].offers
  {
    if s.OnNode? {
      LeavingSilent(p.node, s.step);
      assert SenderFresh(p, key.sid, key.remote);
      assert key !in SendersLeaving(p.node, s.step);
    }
  }

  predicate IsRun(p: Pool, steps: seq<PoolStep>)
    decreases |steps|
  {
    steps != [] ==> CanStep(p, steps[0]) && IsRun(Next(p, steps[0]), steps[1..])
  }

  function Run(p: Pool, steps: seq<PoolStep>): Pool
    requires IsRun(p, steps)
    decreases |steps|
  {
    if steps == [] then p else Run(Next(p, steps[0]), steps[1..])
  }

  /** However many tasks are queued and however often its peer fails, a closed sink's client gets nothing more, and
      the sink has no peer and no track. */
  lemma {:induction false} NothingSentAfterSinkClose(p: Pool, steps: seq<PoolStep>, id: SinkId)
    requires Inv(p) && IsRun(p, steps) && id in p.sinks
    ensures id in Run(p, steps).sinks && Run(p, steps).sinks[id].sent == p.sinks[id].sent
    ensures !Run(p, steps).sinks[id].peer && Run(p, steps).sinks[id].tracks == Tracks(None, None)
    decreases |steps|
  {
    if steps != [] {
      StepKeepsInv(p, steps[0]);
      StepLeavesSinkSilent(p, steps[0], id);
      NothingSentAfterSinkClose(Next(p, steps[0]), steps[1..], id);
    }
  }

  /** However many tasks are queued, a closed sender sends no offer any more, and has no peer and no track. */
  lemma {:induction false} NoOfferAfterSenderClose(p: Pool, steps: seq<PoolStep>, key: SenderKey)
    requires Inv(p) && IsRun(p, steps) && key in p.senders && p.senders[key].closed
    ensures key in Run(p, steps).senders && Run(p, steps).senders[key].offers == p.senders[key].offers
    ensures !Run(p, steps).senders[key].peer && Run(p, steps).senders[key].tracks == Tracks(None, None)
    decreases |steps|
  {
    if steps != [] {
      StepKeepsInv(p, steps[0]);
      StepLeavesSenderSilent(p, steps[0], key);
      NoOfferAfterSenderClose(Next(p, steps[0]), steps[1..], key);
    }
  }

  function Start(id: NodeId): Pool {
    Pool(Init(id), map[], map[])
  }

  /** From the start of a node: every run satisfies the invariant the two theorems need. */
  lemma {:induction false} EveryRunKeepsInv(p: Pool, steps: seq<PoolStep>)
    requires Inv(p) && IsRun(p, steps)
    ensures Inv(Run(p, steps))
    decreases |steps|
  {
    if steps != [] {
      StepKeepsInv(p, steps[0]);
      EveryRunKeepsInv(Next(p, steps[0]), steps[1..]);
    }
  }

  lemma StartInv(id: NodeId)
    ensures Inv(Start(id))
  {
    NodeInvariants.InitInv(id);
    NodeInvariants.InvIsOpenInv(Init(id));
  }

  /** A sink that the node closes joins the closed ones, with what it sent until then. */
  lemma ClosingSinkSilencesIt(p: Pool, sid: StreamId, id: SinkId)
    requires Inv(p) && id in SinksAt(p.node, sid)
    ensures
      var p' := Next(p, OnNode(RemoveSinkStep(sid, id)));
      && id !in SinksAt(p'.node, sid)
      && id in p'.sinks && p'.sinks[id].closed && p'.sinks[id].sent == SinksAt(p.node, sid)[id].sent
  {
    SinkIdsAfter(p.node, RemoveSinkStep(sid, id), sid);
  }

  /** Publishing again, or losing the source, closes every sender of the stream. */
  lemma ReplacingSourceSilencesSenders(p: Pool, sid: StreamId, source: Source, r: NodeId)
    requires Inv(p) && CanStep(p, OnNode(RegisterSourceStep(sid, source))) && r in SendersAt(p.node, sid)
    ensures
      var key := SenderKey(sid, r, SendersAt(p.node, sid)[r].stamp);
      var p' := Next(p, OnNode(RegisterSourceStep(sid, source)));
      && sid !in p'.node.senders
      && key in p'.senders && p'.senders[key].closed
      && p'.senders[key].offers == SendersAt(p.node, sid)[r].offers
  {
    var key := SenderKey(sid, r, SendersAt(p.node, sid)[r].stamp);
    assert key in ClosedSenders(p.node, sid);
  }
}
