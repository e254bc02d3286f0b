/**
  What viewers and remote nodes are offered: a task offers exactly the tracks its sink or sender holds, and
  when no task is left the last thing a viewer's client was told is the truth.
 */
module Offers {
  import opened Types
  import opened NodeSpec
  import opened StreamSpec
  import opened NodeInvariants

  // ---------- One task ----------

  /** The task of a sink whose flags say what it holds offers both its tracks, through a peer; a sink without a
      track sends nothing. */
  lemma SinkTaskOffersItsTracks(k: Sink)
    requires k.queued > 0 && FlagsOK(k.hasVideo, k.hasAudio, k.tracks)
    ensures
      var k' := SinkRun(k);
      var offer := SinkOffer(k.tracks.video, k.tracks.audio);
      && k'.queued == k.queued - 1 && k'.tracks == k.tracks && k'.closed == k.closed
      && (k.tracks != Tracks(None, None) ==> k'.peer && k'.sent == k.sent + [offer])
      && (k.tracks == Tracks(None, None) ==> k'.peer == k.peer && k'.sent == k.sent)
  {
  }

  /** A failed peer is dropped, and one more task is queued, unless the sink is closed. */
  lemma LostPeerIsRetried(k: Sink)
    ensures
      var k' := SinkReconnect(k);
      && !k'.peer && k'.sent == k.sent && k'.tracks == k.tracks
      && (!k.closed ==> k'.queued == k.queued + 1) && (k.closed ==> k'.queued == k.queued)
  {
  }

  // ---------- The truth ----------

  /** With a peer, the client was last offered the tracks that the sink holds; without one, a task is still to
      offer them, or there are none, and then the client was told nothing or to stand by. */
  predicate TellsTheTruth(k: Sink) {
    && (k.peer ==> k.tracks != Tracks(None, None) && k.sent != []
                   && k.sent[|k.sent| - 1] == SinkOffer(k.tracks.video, k.tracks.audio))
    && (!k.peer && k.tracks != Tracks(None, None) ==> k.queued > 0)
    && (k.tracks == Tracks(None, None) ==> k.sent == [] || k.sent[|k.sent| - 1] == Standby)
  }

  /** With a peer, the remote node was sent an OFFER; without one, a task is still to send it, or there is none. */
  predicate SenderTells(s: Sender) {
    && (s.peer ==> s.tracks != Tracks(None, None) && s.offers > 0)
    && (!s.peer && s.tracks != Tracks(None, None) ==> s.queued > 0)
  }

  predicate AllTell(e: Slice) {
    && (forall k | k in e.sinks :: TellsTheTruth(e.sinks[k]))
    && (forall r | r in e.senders :: SenderTells(e.senders[r]))
  }

  lemma TruthWithTracks(k: Sink, t: Tracks)
    requires t != Tracks(None, None)
    ensures TellsTheTruth(SinkTracksReady(k, t))
  {
  }

  lemma SenderWithTracks(s: Sender, t: Tracks)
    requires t != Tracks(None, None)
    ensures SenderTells(SenderTracksReady(s, t))
  {
  }

  lemma TruthWithoutTracks(k: Sink, t: Tracks)
    requires TellsTheTruth(k)
    ensures TellsTheTruth(SinkTracksClosed(k, t))
  {
  }

  lemma TaskTellsTruth(k: Sink)
    requires TellsTheTruth(k) && k.queued > 0 && FlagsOK(k.hasVideo, k.hasAudio, k.tracks)
    ensures TellsTheTruth(SinkRun(k))
  {
  }

  lemma SenderTaskTells(s: Sender)
    requires SenderTells(s) && s.queued > 0 && FlagsOK(s.hasVideo, s.hasAudio, s.tracks)
    ensures SenderTells(SenderRun(s))
  {
  }

  lemma RetryTellsTruth(k: Sink)
    requires TellsTheTruth(k) && !k.closed
    ensures TellsTheTruth(SinkReconnect(k))
  {
  }

  lemma KeepsTruth(e: Slice, step: Step, id: NodeId)
    requires SPossible(id, e, step) && StartsNew(step) && OwnTracks(e, step) && SliceOK(id, e) && AllTell(e)
    ensures AllTell(SNext(e, step, id))
  {
    hide SinkTracksReady, SenderTracksReady, SinkTracksClosed, SinkRun, SenderRun, SinkReconnect;
    hide TellsTheTruth, SenderTells;
    forall k, t | t != Tracks(None, None) ensures TellsTheTruth(SinkTracksReady(k, t)) { TruthWithTracks(k, t); }
    forall s, t | t != Tracks(None, None) ensures SenderTells(SenderTracksReady(s, t)) { SenderWithTracks(s, t); }
    forall k, t | TellsTheTruth(k) ensures TellsTheTruth(SinkTracksClosed(k, t)) { TruthWithoutTracks(k, t); }
    match step
    case RegisterSinkStep(_, _, k) => NewTellTruth(k, 0, 0);
    case ConnectStep(_, _, stamp) =>
      if e.source.Some? { NewTellTruth(NewSink(0, ""), stamp, e.source.value.stamp); }
    case RunSinkStep(_, k) => TaskTellsTruth(e.sinks[k]);
    case ReconnectSinkStep(_, k) => RetryTellsTruth(e.sinks[k]);
    case RunSenderStep(_, r) => SenderTaskTells(e.senders[r]);
    case _ =>
  }

  lemma NewTellTruth(k: Sink, stamp: nat, origin: nat)
    ensures k == NewSink(k.conn, k.req) ==> TellsTheTruth(k)
    ensures SenderTells(NewSender(stamp, origin))
  {
  }

  ghost predicate EverybodyTells(n: NodeState) {
    forall sid :: AllTell(SliceOf(n, sid))
  }

  lemma StepKeepsTruth(n: NodeState, step: Step)
    requires Inv(n) && Lawful(n, step) && EverybodyTells(n)
    ensures EverybodyTells(Apply(n, step).node)
  {
    hide Apply, SNext, AllTell, SliceOK;
    forall sid ensures AllTell(SliceOf(Apply(n, step).node, sid)) {
      StepSeenFrom(n, step, sid);
      assert AllTell(SliceOf(n, sid)) && SliceOK(n.id, SliceOf(n, sid));
      if StreamOf(step) == Some(sid) { KeepsTruth(SliceOf(n, sid), step, n.id); }
    }
  }

  lemma {:induction false} RunKeepsTruth(n: NodeState, steps: seq<Step>)
    requires Inv(n) && EverybodyTells(n) && IsRun(n, steps)
    ensures CanRun(n, steps) && Inv(Run(n, steps).node) && EverybodyTells(Run(n, steps).node)
    decreases |steps|
  {
    hide Lawful, Apply, Inv, EverybodyTells;
    if steps != [] {
      StepKeepsTruth(n, steps[0]);
      StepKeepsInv(n, steps[0]);
      LawfulIsPossible(n, steps[0]);
      RunKeepsTruth(Apply(n, steps[0]).node, steps[1..]);
    }
  }

  lemma LawfulIsPossible(n: NodeState, step: Step)
    requires Lawful(n, step)
    ensures Possible(n, step)
  {
  }

  /** The tracks of the stream's ready source, or ready relay. */
  predicate Offered(n: NodeState, sid: StreamId, t: Tracks) {
    || (sid in n.sources && n.sources[sid].ready && t == n.sources[sid].tracks)
    || (sid in n.relays && n.relays[sid].ready && t == n.relays[sid].tracks)
  }

  /** In every lawful run from a node's start, beside a ready source or relay a viewer has a peer and its client was
      last offered exactly that source's or relay's two tracks, or a task is queued that will offer them when it
      runs; and a client whose sink holds nothing was told nothing or to stand by. */
  lemma ViewersAreOfferedTheCurrentTracks(id: NodeId, steps: seq<Step>, sid: StreamId, k: SinkId, t: Tracks)
    requires IsRun(Init(id), steps)
    ensures CanRun(Init(id), steps)
    ensures
      var n := Run(Init(id), steps).node;
      IsSink(n, sid, k) && Offered(n, sid, t) ==>
        var sink := n.sinks[sid][k];
        var offer := SinkOffer(t.video, t.audio);
        && (sink.peer || sink.queued > 0)
        && (sink.peer ==> sink.sent != [] && sink.sent[|sink.sent| - 1] == offer)
        && (sink.queued > 0 ==>
              var n' := Apply(n, RunSinkStep(sid, k)).node;
              IsSink(n', sid, k) && n'.sinks[sid][k].peer && n'.sinks[sid][k].sent == sink.sent + [offer])
    ensures
      var n := Run(Init(id), steps).node;
      IsSink(n, sid, k) && n.sinks[sid][k].tracks == Tracks(None, None) ==>
        var sink := n.sinks[sid][k];
        !sink.peer && (sink.sent == [] || sink.sent[|sink.sent| - 1] == Standby)
  {
    InitInv(id);
    RunKeepsTruth(Init(id), steps);
    var n := Run(Init(id), steps).node;
    assert AllTell(SliceOf(n, sid)) && SliceOK(n.id, SliceOf(n, sid));
    if IsSink(n, sid, k) {
      assert k in SinksAt(n, sid);
      var sink := n.sinks[sid][k];
      if Offered(n, sid, t) && sink.queued > 0 { SinkTaskOffersItsTracks(sink); }
    }
  }

  /** In every lawful run a host's sender of a ready source has a peer and has sent an OFFER, or a task is queued;
      and the OFFER that a task sends to the remote node names exactly the kinds of track that the source has. */
  lemma SendersOfferTheSourcesTracks(id: NodeId, steps: seq<Step>, sid: StreamId, remote: NodeId)
    requires IsRun(Init(id), steps)
    ensures CanRun(Init(id), steps)
    ensures
      var n := Run(Init(id), steps).node;
      sid in n.sources && n.sources[sid].ready && IsSender(n, sid, remote) ==>
        var s, t := n.senders[sid][remote], n.sources[sid].tracks;
        && (s.queued > 0 || (s.peer && s.offers > 0))
        && (s.queued > 0 ==>
              var e := Apply(n, RunSenderStep(sid, remote));
              && e.pub == Some(Direct(remote, Offer(t.video != None, t.audio != None), sid))
              && IsSender(e.node, sid, remote) && e.node.senders[sid][remote].peer)
  {
    InitInv(id);
    RunKeepsTruth(Init(id), steps);
    var n := Run(Init(id), steps).node;
    assert AllTell(SliceOf(n, sid)) && SliceOK(n.id, SliceOf(n, sid));
    if IsSender(n, sid, remote) { assert remote in SendersAt(n, sid); }
  }

  // ---------- Everything a sink's client is told ----------

  /** What a step of the stream makes the sink send. */
  function ToSend(e: Slice, step: Step, k: SinkId): seq<SinkMessage>
    requires k in e.sinks
  {
    var t := e.sinks[k].tracks;
    match step
    case RunSinkStep(_, id) => if id == k && t != Tracks(None, None) then [SinkOffer(t.video, t.audio)] else []
    case SourceClosedStep(_) => if e.source.Some? && e.source.value.tracks == t then [Standby] else []
    case RelayClosedStep(_, tracks) => if tracks == t then [Standby] else []
    case _ => []
  }

  lemma ToldInSlice(e: Slice, step: Step, id: NodeId, k: SinkId)
    requires SPossible(id, e, step) && OpenOK(e) && k in e.sinks && k in SNext(e, step, id).sinks
    requires step.RegisterSinkStep? ==> step.id != k
    ensures
      var now, later := e.sinks[k], SNext(e, step, id).sinks[k];
      && later.sent == now.sent + ToSend(e, step, k) && later.conn == now.conn && later.req == now.req
      && (if step.RunSinkStep? && step.id == k then later.queued == now.queued - 1 else later.queued >= now.queued)
  {
    assert SinkOpenOK(e.sinks[k]);
  }

  /** A sink that stays sends, in any step, an offer when its task runs, a STANDBY when a source or relay with its
      very tracks closes, and nothing else; what it had sent stays, and so does whose it is; and no
      task of it is lost. */
  lemma SinksSendExactly(n: NodeState, step: Step, sid: StreamId, k: SinkId)
    requires OpenInv(n) && CanHappen(n, step) && IsSink(n, sid, k) && IsSink(Apply(n, step).node, sid, k)
    ensures
      var now, later := n.sinks[sid][k], Apply(n, step).node.sinks[sid][k];
      && later.conn == now.conn && later.req == now.req
      && later.sent == now.sent + (if StreamOf(step) == Some(sid) then ToSend(SliceOf(n, sid), step, k) else [])
      && (if step == RunSinkStep(sid, k) then later.queued == now.queued - 1 else later.queued >= now.queued)
  {
    hide Apply, SNext, OpenOK, ToSend;
    StepSeenFrom(n, step, sid);
    var n' := Apply(n, step).node;
    assert OpenOK(SliceOf(n, sid));
    assert SliceOf(n, sid).sinks[k] == n.sinks[sid][k] && SliceOf(n', sid).sinks[k] == n'.sinks[sid][k];
    if StreamOf(step) == Some(sid) {
      if step.RegisterSinkStep? && step.id == k { RegisteredIsTaken(n, sid, k); }
      ToldInSlice(SliceOf(n, sid), step, n.id, k);
    }
  }

  lemma RegisteredIsTaken(n: NodeState, sid: StreamId, k: SinkId)
    requires OpenInv(n) && IsSink(n, sid, k)
    ensures k !in n.reserved
  {
    assert k in SinksAt(n, sid);
  }

  lemma SentInSlice(e: Slice, step: Step, id: NodeId, r: NodeId)
    requires SPossible(id, e, step) && OpenOK(e) && r in e.senders && r in SNext(e, step, id).senders
    requires !(step.ConnectStep? && step.from == r && e.source.Some?)
    ensures
      var now, later := e.senders[r], SNext(e, step, id).senders[r];
      var runs := step.RunSenderStep? && step.remote == r && now.tracks != Tracks(None, None);
      && later.stamp == now.stamp && later.origin == now.origin
      && later.offers == now.offers + (if runs then 1 else 0)
      && (if step.RunSenderStep? && step.remote == r then later.queued == now.queued - 1
          else later.queued >= now.queued)
      && (runs ==> SPub(e, step, id) ==
                   Some(Direct(r, Offer(now.tracks.video != None, now.tracks.audio != None), step.sid)))
  {
    assert SenderOpenOK(e.senders[r]);
  }

  /** A sender that stays, and is not replaced by a new CONNECT, sends one OFFER in a step in which its task runs
      while it has a track, naming the kinds of its tracks to its remote node, and none in any other step. */
  lemma SendersSendExactly(n: NodeState, step: Step, sid: StreamId, r: NodeId)
    requires OpenInv(n) && CanHappen(n, step) && IsSender(n, sid, r) && IsSender(Apply(n, step).node, sid, r)
    requires !(step.ConnectStep? && step.sid == sid && step.from == r && sid in n.sources)
    ensures
      var now, later := n.senders[sid][r], Apply(n, step).node.senders[sid][r];
      var runs := step == RunSenderStep(sid, r) && now.tracks != Tracks(None, None);
      && later.stamp == now.stamp && later.origin == now.origin
      && later.offers == now.offers + (if runs then 1 else 0)
      && (if step == RunSenderStep(sid, r) then later.queued == now.queued - 1 else later.queued >= now.queued)
      && (runs ==> Apply(n, step).pub ==
                   Some(Direct(r, Offer(now.tracks.video != None, now.tracks.audio != None), sid)))
  {
    hide Apply, SNext, SPub, OpenOK;
    StepSeenFrom(n, step, sid);
    var n' := Apply(n, step).node;
    assert OpenOK(SliceOf(n, sid));
    assert SliceOf(n, sid).senders[r] == n.senders[sid][r] && SliceOf(n', sid).senders[r] == n'.senders[sid][r];
    if StreamOf(step) == Some(sid) { SentInSlice(SliceOf(n, sid), step, n.id, r); }
  }

  /** A CONNECT at a host makes a new, open sender of the present source, with its tracks and a task to offer them if
      the source is ready, and without if it is not; elsewhere it does nothing. */
  lemma ConnectServes(n: NodeState, from: NodeId, sid: StreamId, stamp: nat)
    requires from != n.id
    ensures
      var n' := Apply(n, ConnectStep(from, sid, stamp)).node;
      if sid !in n.sources then n' == n
      else
        && IsSender(n', sid, from)
        && var source, s := n.sources[sid], n'.senders[sid][from];
        && s.stamp == stamp && s.origin == source.stamp && !s.closed && !s.peer && s.offers == 0
        && s.tracks == (if source.ready then source.tracks else Tracks(None, None))
        && s.queued == (if source.ready then 1 else 0)
  {
  }
}
