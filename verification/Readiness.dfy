/**
  When a source or a relay is ready, in terms of the tracks it holds and the kinds it expects, and who gets the
  tracks then.
 */
module Readiness {
  import opened Types
  import opened NodeSpec
  import opened StreamSpec
  import opened NodeInvariants

  // ---------- Sources, in every run ----------

  /** A source has a track, and one of every kind that its publisher announced. */
  predicate Complete(s: Source) {
    && (s.tracks.video != None || s.tracks.audio != None)
    && (s.hasVideo ==> s.tracks.video != None)
    && (s.hasAudio ==> s.tracks.audio != None)
  }

  predicate ReadyWhenComplete(e: Slice) {
    e.source.Some? ==> (e.source.value.ready <==> Complete(e.source.value))
  }

  lemma KeepsReadiness(e: Slice, step: Step, id: NodeId)
    requires SPossible(id, e, step) && StartsNew(step) && ReadyWhenComplete(e)
    ensures ReadyWhenComplete(SNext(e, step, id))
  {
  }

  ghost predicate SourcesReady(n: NodeState) {
    Tidy(n) && forall sid :: ReadyWhenComplete(SliceOf(n, sid))
  }

  lemma StepKeepsSourcesReady(n: NodeState, step: Step)
    requires SourcesReady(n) && CanHappen(n, step)
    ensures SourcesReady(Apply(n, step).node)
  {
    hide Apply, SNext, ReadyWhenComplete;
    forall sid ensures Tidy(Apply(n, step).node) && ReadyWhenComplete(SliceOf(Apply(n, step).node, sid)) {
      StepSeenFrom(n, step, sid);
      assert ReadyWhenComplete(SliceOf(n, sid));
      if StreamOf(step) == Some(sid) { KeepsReadiness(SliceOf(n, sid), step, n.id); }
    }
    StepSeenFrom(n, step, "");
  }

  lemma {:induction false} RunKeepsSourcesReady(n: NodeState, steps: seq<Step>)
    requires SourcesReady(n) && Happens(n, steps)
    ensures CanRun(n, steps) && SourcesReady(Run(n, steps).node)
    decreases |steps|
  {
    hide CanHappen, Apply, SourcesReady;
    if steps != [] {
      StepKeepsSourcesReady(n, steps[0]);
      HappeningIsPossible(n, steps[0]);
      RunKeepsSourcesReady(Apply(n, steps[0]).node, steps[1..]);
    }
  }

  lemma HappeningIsPossible(n: NodeState, step: Step)
    requires CanHappen(n, step)
    ensures Possible(n, step)
  {
  }

  /** In every run from a node's start a registered source is ready exactly when it holds a track and none of
      the kinds that its publisher announced is missing. */
  lemma SourcesAreReadyExactly(id: NodeId, steps: seq<Step>, sid: StreamId)
    requires Happens(Init(id), steps)
    ensures CanRun(Init(id), steps)
    ensures
      var sources := Run(Init(id), steps).node.sources;
      sid in sources ==>
        var s := sources[sid];
        s.ready <==>
        && (s.tracks.video != None || s.tracks.audio != None)
        && (s.hasVideo ==> s.tracks.video != None) && (s.hasAudio ==> s.tracks.audio != None)
  {
    RunKeepsSourcesReady(Init(id), steps);
    assert ReadyWhenComplete(SliceOf(Run(Init(id), steps).node, sid));
  }

  // ---------- One track ----------

  predicate Lacks(t: Tracks, kind: TrackKind) {
    (kind == Video && t.video == None) || (kind == Audio && t.audio == None)
  }

  /** The tracks `t'` are `t` and the given track, of a kind that was missing. */
  predicate Gains(t: Tracks, kind: TrackKind, track: TrackId, t': Tracks) {
    && Lacks(t, kind)
    && (kind == Video ==> t' == Tracks(Some(track), t.audio))
    && (kind == Audio ==> t' == Tracks(t.video, Some(track)))
  }

  /** Every sink of the stream holds the tracks, with one more task queued to offer them. */
  predicate SinksGet(n: NodeState, n': NodeState, sid: StreamId, t: Tracks) {
    && SinksAt(n', sid).Keys == SinksAt(n, sid).Keys
    && forall k | k in SinksAt(n, sid) ::
         SinksAt(n', sid)[k].tracks == t && SinksAt(n', sid)[k].queued == SinksAt(n, sid)[k].queued + 1
  }

  predicate SendersGet(n: NodeState, n': NodeState, sid: StreamId, t: Tracks) {
    && SendersAt(n', sid).Keys == SendersAt(n, sid).Keys
    && forall r | r in SendersAt(n, sid) ::
         SendersAt(n', sid)[r].tracks == t && SendersAt(n', sid)[r].queued == SendersAt(n, sid)[r].queued + 1
  }

  lemma ReadySinksGet(n: NodeState, n': NodeState, sid: StreamId, t: Tracks)
    requires n'.sinks == SinksReadyAt(n.sinks, sid, t)
    ensures SinksGet(n, n', sid, t)
  {
  }

  lemma ReadySendersGet(n: NodeState, n': NodeState, sid: StreamId, t: Tracks)
    requires n'.senders == SendersReadyAt(n.senders, sid, t)
    ensures SendersGet(n, n', sid, t)
  {
  }

  lemma StepIsSourceTrack(n: NodeState, sid: StreamId, kind: TrackKind, track: TrackId)
    requires sid in n.sources
    ensures Apply(n, SourceTrackStep(sid, kind, track)).node == SourceTrack(n, sid, kind, track)
  {
  }

  /** A track of a kind that the source has already changes nothing. Any other is added; and if no announced kind
      is missing then, the source is ready and its sinks and senders get its tracks. */
  lemma SourceTakesTrack(n: NodeState, sid: StreamId, kind: TrackKind, track: TrackId)
    requires sid in n.sources
    ensures
      var n' := Apply(n, SourceTrackStep(sid, kind, track)).node;
      if !Lacks(n.sources[sid].tracks, kind) then n' == n
      else
        && sid in n'.sources
        && var s, s' := n.sources[sid], n'.sources[sid];
        var complete := (s.hasVideo ==> s'.tracks.video != None) && (s.hasAudio ==> s'.tracks.audio != None);
        && Gains(s.tracks, kind, track, s'.tracks) && (s'.ready <==> s.ready || complete)
        && s'.hasVideo == s.hasVideo && s'.hasAudio == s.hasAudio && s'.stamp == s.stamp
        && (complete ==> SinksGet(n, n', sid, s'.tracks) && SendersGet(n, n', sid, s'.tracks))
        && (!complete ==> n'.sinks == n.sinks && n'.senders == n.senders)
  {
    hide Apply, SinksReadyAt, SendersReadyAt, SinksGet, SendersGet;
    var n' := SourceTrack(n, sid, kind, track);
    StepIsSourceTrack(n, sid, kind, track);
    var s := n.sources[sid];
    var t := WithTrack(s.tracks, kind, track);
    if Lacks(s.tracks, kind) {
      assert Gains(s.tracks, kind, track, t);
      if AllExpected(s.hasVideo, s.hasAudio, t) {
        ReadySinksGet(n, n', sid, t);
        ReadySendersGet(n, n', sid, t);
      }
    }
  }

  /** The same of a relay and the kinds that its last OFFER named: its node's sinks get its tracks. */
  lemma RelayTakesTrack(n: NodeState, sid: StreamId, kind: TrackKind, track: TrackId)
    requires sid in n.relays
    ensures
      var n' := Apply(n, RelayTrackStep(sid, kind, track)).node;
      if !Lacks(n.relays[sid].tracks, kind) then n' == n
      else
        && sid in n'.relays && n'.senders == n.senders
        && var r, r' := n.relays[sid], n'.relays[sid];
        var complete := (r.hasVideo ==> r'.tracks.video != None) && (r.hasAudio ==> r'.tracks.audio != None);
        && Gains(r.tracks, kind, track, r'.tracks) && (r'.ready <==> r.ready || complete)
        && r'.hasVideo == r.hasVideo && r'.hasAudio == r.hasAudio && r'.remoteId == r.remoteId
        && (complete ==> SinksGet(n, n', sid, r'.tracks))
        && (!complete ==> n'.sinks == n.sinks)
  {
    hide SinksReadyAt, SinksGet;
    var n' := RelayTrack(n, sid, kind, track);
    var t := WithTrack(n.relays[sid].tracks, kind, track);
    if n'.sinks == SinksReadyAt(n.sinks, sid, t) { ReadySinksGet(n, n', sid, t); }
  }

  /** A source or relay that has left and holds `held` takes tracks in the same way, and gives them to sinks, and to
      senders if it is a source, that are there by then. */
  lemma DepartedTakesTrack(n: NodeState, sid: StreamId, held: Tracks, hasVideo: bool, hasAudio: bool, kind: TrackKind,
                           track: TrackId, fromSource: bool, t: Tracks)
    requires Lacks(held, kind) ==> Gains(held, kind, track, t)
    ensures
      var n' := LateTrack(n, sid, held, hasVideo, hasAudio, kind, track, fromSource);
      if Lacks(held, kind) && (hasVideo ==> t.video != None) && (hasAudio ==> t.audio != None) then
        && SinksGet(n, n', sid, t) && n' == n.(sinks := n'.sinks, senders := n'.senders)
        && (fromSource ==> SendersGet(n, n', sid, t)) && (!fromSource ==> n'.senders == n.senders)
      else
        n' == n
  {
    hide SinksReadyAt, SendersReadyAt, SinksGet, SendersGet;
    var n' := LateTrack(n, sid, held, hasVideo, hasAudio, kind, track, fromSource);
    if Lacks(held, kind) && AllExpected(hasVideo, hasAudio, t) {
      assert t == WithTrack(held, kind, track);
      ReadySinksGet(n, n', sid, t);
      if fromSource { ReadySendersGet(n, n', sid, t); }
    }
  }

  // ---------- What a relay expects ----------

  /** An OFFER sets what the stream's relay expects, and a new relay expects nothing; no other step changes what
      a relay expects, so it is always what the last OFFER named. A relay that is ready stays ready. */
  lemma RelaysExpectWhatIsOffered(n: NodeState, step: Step, sid: StreamId)
    requires Tidy(n) && Possible(n, step)
    ensures
      var n' := Apply(n, step).node;
      sid in n'.relays ==>
        var r' := n'.relays[sid];
        if step.OfferStep? && step.sid == sid then
          && sid in n.relays && r'.remoteId == n.relays[sid].remoteId
          && r'.hasVideo == step.hasVideo && r'.hasAudio == step.hasAudio
          && r'.tracks == n.relays[sid].tracks && r'.ready == n.relays[sid].ready
        else if step.InfoStep? && step.sid == sid && SinksAt(n, sid) != map[] then
          r'.remoteId == step.from && !r'.hasVideo && !r'.hasAudio && !r'.ready && r'.tracks == Tracks(None, None)
        else
          && sid in n.relays && r'.remoteId == n.relays[sid].remoteId
          && r'.hasVideo == n.relays[sid].hasVideo && r'.hasAudio == n.relays[sid].hasAudio
          && (n.relays[sid].ready ==> r'.ready)
  {
    hide Apply;
    StepSeenFrom(n, step, sid);
    assert Lookup(n.relays, sid) == SliceOf(n, sid).relay;
    assert Lookup(Apply(n, step).node.relays, sid) == SliceOf(Apply(n, step).node, sid).relay;
    if StreamOf(step) == Some(sid) { ExpectsInSlice(SliceOf(n, sid), step, n.id); }
  }

  lemma ExpectsInSlice(e: Slice, step: Step, id: NodeId)
    requires SPossible(id, e, step)
    ensures
      var e' := SNext(e, step, id);
      e'.relay.Some? ==>
        var r' := e'.relay.value;
        if step.OfferStep? then
          && e.relay.Some? && r'.remoteId == e.relay.value.remoteId
          && r'.hasVideo == step.hasVideo && r'.hasAudio == step.hasAudio
          && r'.tracks == e.relay.value.tracks && r'.ready == e.relay.value.ready
        else if step.InfoStep? && e.sinks != map[] then
          r'.remoteId == step.from && !r'.hasVideo && !r'.hasAudio && !r'.ready && r'.tracks == Tracks(None, None)
        else
          && e.relay.Some? && r'.remoteId == e.relay.value.remoteId
          && r'.hasVideo == e.relay.value.hasVideo && r'.hasAudio == e.relay.value.hasAudio
          && (e.relay.value.ready ==> r'.ready)
  {
  }
}
