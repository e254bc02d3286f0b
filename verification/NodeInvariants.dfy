/**
  What every run of one node keeps: the shape of its registries, the agreement between
  the tracks of a ready source or relay and those of its sinks and senders, and the
  independence of streams.
 */
module NodeInvariants {
  import opened Types
  import opened NodeSpec
  import opened StreamSpec

  // ---------- Invariants of one stream ----------

  /** No source beside a relay, no relay without a viewer, no link to the node itself. */
  predicate ShapeOK(id: NodeId, e: Slice) {
    && !(e.source.Some? && e.relay.Some?)
    && (e.relay.Some? ==> e.sinks != map[] && e.relay.value.remoteId != id)
    && id !in e.senders
  }

  predicate FlagsOK(hasVideo: bool, hasAudio: bool, t: Tracks) {
    hasVideo == t.video.Some? && hasAudio == t.audio.Some?
  }

  predicate SinkOpenOK(k: Sink) {
    !k.closed && FlagsOK(k.hasVideo, k.hasAudio, k.tracks)
  }

  predicate SenderOpenOK(s: Sender) {
    !s.closed && FlagsOK(s.hasVideo, s.hasAudio, s.tracks)
  }

  /** Registered sinks and senders are open, and their flags say which tracks they hold. */
  predicate OpenOK(e: Slice) {
    && (forall k | k in e.sinks :: SinkOpenOK(e.sinks[k]))
    && (forall r | r in e.senders :: SenderOpenOK(e.senders[r]))
  }

  /** While a source or relay is ready it has a track, and every sink holds exactly its tracks. */
  predicate SinksAgree(e: Slice) {
    Current(e).Some? ==>
      && HasSome(Current(e).value)
      && (forall k | k in e.sinks :: e.sinks[k].tracks == Current(e).value)
  }

  /** While a source is registered, every sender was created under it and holds its tracks once it is ready. */
  predicate SendersAgree(e: Slice) {
    e.source.Some? ==>
      forall r | r in e.senders ::
        && e.senders[r].origin == e.source.value.stamp
        && e.senders[r].tracks == if e.source.value.ready then e.source.value.tracks else NO_TRACKS
  }

  predicate SliceOK(id: NodeId, e: Slice) {
    ShapeOK(id, e) && OpenOK(e) && SinksAgree(e) && SendersAgree(e)
  }

  /** New objects start in their initial state. */
  predicate StartsNew(step: Step) {
    match step
    case RegisterSourceStep(_, s) => s == NewSource(s.stamp, s.conn, s.req, s.hasVideo, s.hasAudio)
    case RegisterSinkStep(_, id, k) => k == NewSink(k.conn, k.req)
    case _ => true
  }

  /** Detached relays may report a lost peer, but no relay holds the very tracks of a ready source, and no
      source or relay that has left delivers tracks. */
  predicate OwnTracks(e: Slice, step: Step) {
    && !step.LateTracksStep?
    && (step.RelayClosedStep? && e.source.Some? && e.source.value.ready ==> step.tracks != e.source.value.tracks)
  }

  lemma KeepsShape(e: Slice, step: Step, id: NodeId)
    requires SPossible(id, e, step) && ShapeOK(id, e)
    ensures ShapeOK(id, SNext(e, step, id))
  {
    match step
    case RegisterSinkStep(_, k, sink) => assert k in SNext(e, step, id).sinks;
    case RunSinkStep(_, k) => assert k in SNext(e, step, id).sinks;
    case ReconnectSinkStep(_, k) => assert k in SNext(e, step, id).sinks;
    case SourceTrackStep(_, kind, track) =>
      assert AllSinksReady(e.sinks, WithTrack(e.source.value.tracks, kind, track)).Keys == e.sinks.Keys;
    case RelayTrackStep(_, kind, track) =>
      assert AllSinksReady(e.sinks, WithTrack(e.relay.value.tracks, kind, track)).Keys == e.sinks.Keys;
    case LateTracksStep(_, tracks, _) => assert AllSinksReady(e.sinks, tracks).Keys == e.sinks.Keys;
    case _ =>
  }

  lemma KeepsOpen(e: Slice, step: Step, id: NodeId)
    requires SPossible(id, e, step) && StartsNew(step) && OpenOK(e)
    ensures OpenOK(SNext(e, step, id))
  {
  }

  lemma KeepsSinksAgree(e: Slice, step: Step, id: NodeId)
    requires SPossible(id, e, step) && StartsNew(step) && OwnTracks(e, step)
    requires ShapeOK(id, e) && SinksAgree(e)
    ensures SinksAgree(SNext(e, step, id))
  {
  }

  lemma KeepsSendersAgree(e: Slice, step: Step, id: NodeId)
    requires SPossible(id, e, step) && StartsNew(step) && OwnTracks(e, step) && SinksAgree(e) && SendersAgree(e)
    ensures SendersAgree(SNext(e, step, id))
  {
  }

  /** Every step keeps the invariants of the stream it names. */
  lemma StepKeepsSliceOK(e: Slice, step: Step, id: NodeId)
    requires SPossible(id, e, step) && StartsNew(step) && OwnTracks(e, step) && SliceOK(id, e)
    ensures SliceOK(id, SNext(e, step, id))
  {
    KeepsShape(e, step, id);
    KeepsOpen(e, step, id);
    KeepsSinksAgree(e, step, id);
    KeepsSendersAgree(e, step, id);
  }

  // ---------- Invariants of the node ----------

  /** Sink ids are unique in the node, and an id handed out but not used yet is not registered. */
  ghost predicate IdsOK(n: NodeState) {
    && (forall id | id in n.reserved :: 1 <= id.number <= n.sinkCount)
    && (forall sid, id | id in SinksAt(n, sid) :: 1 <= id.number <= n.sinkCount)
    && (forall sid, id | id in SinksAt(n, sid) :: id !in n.reserved)
    && (forall s1, s2, id | id in SinksAt(n, s1) && id in SinksAt(n, s2) :: s1 == s2)
  }

  ghost predicate Inv(n: NodeState) {
    Tidy(n) && IdsOK(n) && forall sid :: SliceOK(n.id, SliceOf(n, sid))
  }

  /** New objects carry an unused identity. */
  predicate Fresh(n: NodeState, step: Step) {
    match step
    case RegisterSourceStep(_, s) => s.stamp == n.nextStamp
    case RegisterSinkStep(_, id, k) => id in n.reserved
    case ConnectStep(_, _, stamp) => stamp == n.nextStamp
    case _ => true
  }

  /** A step that the rest of the program can cause, objects that have left included. */
  predicate CanHappen(n: NodeState, step: Step) {
    Possible(n, step) && Fresh(n, step) && StartsNew(step)
  }

  /** A step in which no object that has left meddles with the tracks of the present ones. */
  predicate Lawful(n: NodeState, step: Step) {
    && CanHappen(n, step)
    && (StreamOf(step).Some? ==> OwnTracks(SliceOf(n, step.sid), step))
  }

  lemma SinkKeysAfter(e: Slice, step: Step, id: NodeId)
    requires SPossible(id, e, step)
    ensures
      var e' := SNext(e, step, id);
      e'.sinks.Keys <= e.sinks.Keys + if step.RegisterSinkStep? then {step.id} else {}
  {
  }

  lemma CountersAfter(n: NodeState, step: Step)
    requires Possible(n, step) && StreamOf(step).Some?
    ensures
      var n' := Apply(n, step).node;
      && n'.sinkCount == n.sinkCount
      && n'.reserved == if step.RegisterSinkStep? then n.reserved - {step.id} else n.reserved
  {
  }

  lemma KeepsIds(n: NodeState, n': NodeState, sid: StreamId, step: Step)
    requires IdsOK(n) && StreamOf(step) == Some(sid) && Fresh(n, step)
    requires SPossible(n.id, SliceOf(n, sid), step)
    requires Replaces(n, n', sid, SNext(SliceOf(n, sid), step, n.id))
    requires n'.sinkCount == n.sinkCount
    requires n'.reserved == if step.RegisterSinkStep? then n.reserved - {step.id} else n.reserved
    ensures IdsOK(n')
  {
    SinkKeysAfter(SliceOf(n, sid), step, n.id);
    assert SliceOf(n', sid).sinks == SinksAt(n', sid);
    forall s, id | id in SinksAt(n', s)
      ensures id in SinksAt(n, s) || (step.RegisterSinkStep? && s == sid && id == step.id)
    {
      if s != sid { assert SliceOf(n', s) == SliceOf(n, s); }
    }
  }

  lemma TakingIdKeepsIds(n: NodeState)
    requires IdsOK(n)
    ensures IdsOK(GetSinkID(n))
  {
    var n' := GetSinkID(n);
    forall sid ensures SinksAt(n', sid) == SinksAt(n, sid) {
    }
    forall sid, id | id in SinksAt(n', sid) ensures 1 <= id.number <= n.sinkCount && id !in n.reserved {
      assert id in SinksAt(n, sid);
    }
    forall s1, s2, id | id in SinksAt(n', s1) && id in SinksAt(n', s2) ensures s1 == s2 {
      assert id in SinksAt(n, s1) && id in SinksAt(n, s2);
    }
  }

  lemma GetSinkIDKeepsInv(n: NodeState)
    requires Inv(n)
    ensures Inv(GetSinkID(n))
  {
    var n' := GetSinkID(n);
    TakingIdKeepsIds(n);
    forall sid ensures SliceOf(n', sid) == SliceOf(n, sid) {
    }
    forall sid ensures SliceOK(n'.id, SliceOf(n', sid)) {
      assert SliceOK(n.id, SliceOf(n, sid));
    }
  }

  /** Every step keeps the node's invariant. */
  lemma StepKeepsInv(n: NodeState, step: Step)
    requires Inv(n) && Lawful(n, step)
    ensures Inv(Apply(n, step).node)
  {
    if StreamOf(step).None? {
      GetSinkIDKeepsInv(n);
    } else {
      StepIsStreamwise(n, step);
      CountersAfter(n, step);
      InvAfter(n, Apply(n, step).node, step.sid, step);
    }
  }

  lemma InvAfter(n: NodeState, n': NodeState, sid: StreamId, step: Step)
    requires Inv(n) && StreamOf(step) == Some(sid) && Fresh(n, step) && StartsNew(step)
    requires SPossible(n.id, SliceOf(n, sid), step) && OwnTracks(SliceOf(n, sid), step)
    requires Replaces(n, n', sid, SNext(SliceOf(n, sid), step, n.id))
    requires n'.sinkCount == n.sinkCount
    requires n'.reserved == if step.RegisterSinkStep? then n.reserved - {step.id} else n.reserved
    ensures Inv(n')
  {
    KeepsIds(n, n', sid, step);
    StepKeepsSliceOK(SliceOf(n, sid), step, n.id);
    forall other ensures SliceOK(n'.id, SliceOf(n', other)) {
      assert SliceOK(n.id, SliceOf(n, other));
    }
  }

  // ---------- What holds even when objects that have left call back ----------

  /** No empty inner map, unique ids, and registered sinks and senders that are open and say what they hold. */
  ghost predicate OpenInv(n: NodeState) {
    Tidy(n) && IdsOK(n) && forall sid :: OpenOK(SliceOf(n, sid))
  }

  lemma InvIsOpenInv(n: NodeState)
    requires Inv(n)
    ensures OpenInv(n)
  {
    forall sid ensures OpenOK(SliceOf(n, sid)) {
      assert SliceOK(n.id, SliceOf(n, sid));
    }
  }

  lemma GetSinkIDKeepsOpenInv(n: NodeState)
    requires OpenInv(n)
    ensures OpenInv(GetSinkID(n))
  {
    var n' := GetSinkID(n);
    forall sid ensures SinksAt(n', sid) == SinksAt(n, sid) && SliceOf(n', sid) == SliceOf(n, sid) {
    }
    TakingIdKeepsIds(n);
    forall sid ensures OpenOK(SliceOf(n', sid)) {
      assert OpenOK(SliceOf(n, sid));
    }
  }

  /** Every step that can happen at all keeps registered sinks and senders open and ids unique. */
  lemma StepKeepsOpenInv(n: NodeState, step: Step)
    requires OpenInv(n) && CanHappen(n, step)
    ensures OpenInv(Apply(n, step).node)
  {
    if StreamOf(step).None? {
      GetSinkIDKeepsOpenInv(n);
    } else {
      var n', sid := Apply(n, step).node, step.sid;
      StepIsStreamwise(n, step);
      CountersAfter(n, step);
      hide Apply, SNext, IdsOK, OpenOK;
      KeepsIds(n, n', sid, step);
      forall other ensures OpenOK(SliceOf(n', other)) {
        assert OpenOK(SliceOf(n, other));
        if other == sid { KeepsOpen(SliceOf(n, sid), step, n.id); }
      }
    }
  }

  // ---------- Runs ----------

  predicate CanRun(n: NodeState, steps: seq<Step>)
    decreases |steps|
  {
    steps != [] ==> Possible(n, steps[0]) && CanRun(Apply(n, steps[0]).node, steps[1..])
  }

  /** A run all of whose steps are lawful. */
  predicate IsRun(n: NodeState, steps: seq<Step>)
    decreases |steps|
  {
    steps != [] ==> Lawful(n, steps[0]) && IsRun(Apply(n, steps[0]).node, steps[1..])
  }

  /** A run all of whose steps can happen. */
  predicate Happens(n: NodeState, steps: seq<Step>)
    decreases |steps|
  {
    steps != [] ==> CanHappen(n, steps[0]) && Happens(Apply(n, steps[0]).node, steps[1..])
  }

  /** The registries after a run, and everything it published, in order. */
  datatype Outcome = Outcome(node: NodeState, pubs: seq<Publication>)

  function Run(n: NodeState, steps: seq<Step>): Outcome
    requires CanRun(n, steps)
    decreases |steps|
  {
    if steps == [] then Outcome(n, [])
    else
      var first := Apply(n, steps[0]);
      var rest := Run(first.node, steps[1..]);
      Outcome(rest.node, Maybe(first.pub) + rest.pubs)
  }

  /** Every run keeps the node's invariant. */
  lemma {:induction false} RunKeepsInv(n: NodeState, steps: seq<Step>)
    requires Inv(n) && IsRun(n, steps)
    ensures CanRun(n, steps) && Inv(Run(n, steps).node)
    decreases |steps|
  {
    if steps != [] {
      StepKeepsInv(n, steps[0]);
      RunKeepsInv(Apply(n, steps[0]).node, steps[1..]);
    }
  }

  /** Every run that can happen keeps registered sinks and senders open and ids unique. */
  lemma {:induction false} RunKeepsOpenInv(n: NodeState, steps: seq<Step>)
    requires OpenInv(n) && Happens(n, steps)
    ensures CanRun(n, steps) && OpenInv(Run(n, steps).node)
    decreases |steps|
  {
    if steps != [] {
      StepKeepsOpenInv(n, steps[0]);
      RunKeepsOpenInv(Apply(n, steps[0]).node, steps[1..]);
    }
  }

  /** Steps in which nothing that has left takes part. */
  predicate IsPresent(step: Step) {
    !step.LateTracksStep? && !step.RelayClosedStep?
  }

  lemma {:induction false} PresentRunsAreLawful(n: NodeState, steps: seq<Step>)
    requires Happens(n, steps) && forall s | s in steps :: IsPresent(s)
    ensures IsRun(n, steps)
    decreases |steps|
  {
    if steps != [] {
      assert steps[0] in steps;
      PresentRunsAreLawful(Apply(n, steps[0]).node, steps[1..]);
    }
  }

  lemma InitInv(id: NodeId)
    ensures Inv(Init(id))
  {
  }

  /** In every run of a node from its start, a viewer holds exactly the current tracks of its stream,
      and its sink id belongs to no other stream. */
  lemma ViewersHoldCurrentTracks(id: NodeId, steps: seq<Step>, sid: StreamId, k: SinkId)
    requires IsRun(Init(id), steps)
    ensures CanRun(Init(id), steps)
    ensures
      var n := Run(Init(id), steps).node;
      IsSink(n, sid, k) ==>
        var sink := n.sinks[sid][k];
        && !(sid in n.sources && sid in n.relays)
        && (sid in n.sources && n.sources[sid].ready ==> sink.tracks == n.sources[sid].tracks)
        && (sid in n.relays && n.relays[sid].ready ==> sink.tracks == n.relays[sid].tracks)
        && (sink.hasVideo <==> sink.tracks.video.Some?) && (sink.hasAudio <==> sink.tracks.audio.Some?)
        && (forall other | IsSink(n, other, k) :: other == sid)
  {
    InitInv(id);
    RunKeepsInv(Init(id), steps);
    var n := Run(Init(id), steps).node;
    assert SliceOK(n.id, SliceOf(n, sid));
    if IsSink(n, sid, k) {
      assert k in SinksAt(n, sid);
      forall other | IsSink(n, other, k) ensures other == sid {
        assert k in SinksAt(n, other);
      }
    }
  }

  /** In every run of a node from its start, a sender beside a registered source was created under that
      very source, is open, and holds the source's tracks exactly when the source is ready. */
  lemma SendersHoldTheirSourcesTracks(id: NodeId, steps: seq<Step>, sid: StreamId, remote: NodeId)
    requires IsRun(Init(id), steps)
    ensures CanRun(Init(id), steps)
    ensures
      var n := Run(Init(id), steps).node;
      sid in n.sources && IsSender(n, sid, remote) ==>
        var sender := n.senders[sid][remote];
        && sender.origin == n.sources[sid].stamp && !sender.closed
        && sender.tracks == if n.sources[sid].ready then n.sources[sid].tracks else NO_TRACKS
  {
    InitInv(id);
    RunKeepsInv(Init(id), steps);
    var n := Run(Init(id), steps).node;
    assert SliceOK(n.id, SliceOf(n, sid));
  }

  // ---------- Closing a ready source or relay ----------

  /** What the client behind a sink is told when its stream ends: one STANDBY, and no tracks remain. */
  predicate ToldToStandBy(before: Sink, after: Sink) {
    && after.sent == before.sent + [Standby]
    && after.tracks == NO_TRACKS && !after.hasVideo && !after.hasAudio && !after.peer
  }

  /** When a ready source closes by itself, every viewer of the stream is told, once. */
  lemma SourceCloseReachesEveryViewer(n: NodeState, sid: StreamId)
    requires Inv(n) && sid in n.sources && n.sources[sid].ready
    ensures
      var n' := OnSourceClosed(n, sid, n.sources[sid].tracks);
      && sid !in n'.sources && sid !in n'.senders
      && SinksAt(n', sid).Keys == SinksAt(n, sid).Keys
      && (forall k | k in SinksAt(n, sid) :: ToldToStandBy(SinksAt(n, sid)[k], SinksAt(n', sid)[k]))
  {
    assert SliceOK(n.id, SliceOf(n, sid));
  }

  /** When a ready relay closes by itself, every viewer is told, once, and the stream is looked for again. */
  lemma RelayCloseReachesEveryViewer(n: NodeState, sid: StreamId)
    requires Inv(n) && sid in n.relays && n.relays[sid].ready
    ensures
      var e := OnRelayClosed(n, sid, n.relays[sid].tracks);
      && sid !in e.node.relays
      && SinksAt(e.node, sid).Keys == SinksAt(n, sid).Keys != {}
      && (forall k | k in SinksAt(n, sid) :: ToldToStandBy(SinksAt(n, sid)[k], SinksAt(e.node, sid)[k]))
      && e.pub == Some(Broadcast(Resolve, sid))
  {
    assert SliceOK(n.id, SliceOf(n, sid));
  }

  // ---------- Independence of streams ----------

  /** The steps of a run that name the stream. */
  function Only(steps: seq<Step>, sid: StreamId): seq<Step> {
    if steps == [] then []
    else (if StreamOf(steps[0]) == Some(sid) then [steps[0]] else []) + Only(steps[1..], sid)
  }

  function About(pubs: seq<Publication>, sid: StreamId): seq<Publication> {
    if pubs == [] then []
    else (if pubs[0].sid == sid then [pubs[0]] else []) + About(pubs[1..], sid)
  }

  lemma AboutCons(pub: Option<Publication>, pubs: seq<Publication>, sid: StreamId)
    ensures About(Maybe(pub) + pubs, sid)
         == Maybe(if pub.Some? && pub.value.sid == sid then pub else None) + About(pubs, sid)
  {
    if pub.Some? {
      assert (Maybe(pub) + pubs)[1..] == pubs;
    } else {
      assert Maybe(pub) + pubs == pubs;
    }
  }

  lemma RunCons(n: NodeState, step: Step, rest: seq<Step>, first: Effect)
    requires Possible(n, step) && first == Apply(n, step) && CanRun(first.node, rest)
    ensures CanRun(n, [step] + rest)
    ensures Run(n, [step] + rest) == Outcome(Run(first.node, rest).node, Maybe(first.pub) + Run(first.node, rest).pubs)
  {
    assert ([step] + rest)[1..] == rest;
  }

  lemma PubNamesItsStream(e: Slice, step: Step, id: NodeId)
    requires SPossible(id, e, step) && StreamOf(step).Some?
    ensures SPub(e, step, id).Some? ==> SPub(e, step, id).value.sid == step.sid
  {
  }

  /** What one step does to the entries and publications of the stream `sid`. */
  lemma StepSeenFrom(n: NodeState, step: Step, sid: StreamId)
    requires Tidy(n) && Possible(n, step)
    ensures Tidy(Apply(n, step).node) && Apply(n, step).node.id == n.id
    ensures StreamOf(step) == Some(sid) ==>
              && SPossible(n.id, SliceOf(n, sid), step)
              && SliceOf(Apply(n, step).node, sid) == SNext(SliceOf(n, sid), step, n.id)
              && Apply(n, step).pub == SPub(SliceOf(n, sid), step, n.id)
              && (Apply(n, step).pub.Some? ==> Apply(n, step).pub.value.sid == sid)
    ensures StreamOf(step) != Some(sid) ==>
              && SliceOf(Apply(n, step).node, sid) == SliceOf(n, sid)
              && (Apply(n, step).pub.Some? ==> Apply(n, step).pub.value.sid != sid)
  {
    if StreamOf(step).Some? {
      StepIsStreamwise(n, step);
      PubNamesItsStream(SliceOf(n, step.sid), step, n.id);
    }
  }

  /** A stream's registry entries and publications after a run are those of the run with every
      step of the other streams removed, whatever the other streams' entries were. */
  lemma {:induction false} StreamsAreIndependent(n: NodeState, m: NodeState, steps: seq<Step>, sid: StreamId)
    requires CanRun(n, steps) && Tidy(n) && Tidy(m) && n.id == m.id && SliceOf(n, sid) == SliceOf(m, sid)
    ensures CanRun(m, Only(steps, sid))
    ensures SliceOf(Run(n, steps).node, sid) == SliceOf(Run(m, Only(steps, sid)).node, sid)
    ensures About(Run(n, steps).pubs, sid) == Run(m, Only(steps, sid)).pubs
    decreases |steps|
  {
    if steps != [] {
      var step, rest := steps[0], steps[1..];
      var first := Apply(n, step);
      StepSeenFrom(n, step, sid);
      AboutCons(first.pub, Run(first.node, rest).pubs, sid);
      if StreamOf(step) == Some(sid) {
        PossibleIsStreamwise(m, step);
        var second := Apply(m, step);
        StepSeenFrom(m, step, sid);
        StreamsAreIndependent(first.node, second.node, rest, sid);
        RunCons(m, step, Only(rest, sid), second);
      } else {
        StreamsAreIndependent(first.node, m, rest, sid);
        assert Only(steps, sid) == Only(rest, sid);
      }
    }
  }
}
