/**
  The same handlers seen from one stream: what a step does to the registry entries of the
  stream it names, and that it does nothing to the entries of any other stream.
 */
module StreamSpec {
  import opened Types
  import opened NodeSpec

  /** The registry entries of one stream; an absent inner map counts as empty. */
  datatype Slice = Slice(
    source: Option<Source>, relay: Option<Relay>,
    sinks: map<SinkId, Sink>, senders: map<NodeId, Sender>)

  function SliceOf(n: NodeState, sid: StreamId): Slice {
    Slice(Lookup(n.sources, sid), Lookup(n.relays, sid), SinksAt(n, sid), SendersAt(n, sid))
  }

  /** No registry keeps an empty inner map, so an inner map is present exactly when it has an entry. */
  predicate Tidy(n: NodeState) {
    && (forall sid | sid in n.sinks :: n.sinks[sid] != map[])
    && (forall sid | sid in n.senders :: n.senders[sid] != map[])
  }

  function StreamOf(step: Step): Option<StreamId> {
    if step.GetSinkIDStep? then None else Some(step.sid)
  }

  /** The tracks the stream's viewers must hold: those of its ready source or relay. */
  function Current(e: Slice): Option<Tracks> {
    if e.source.Some? && e.source.value.ready then Some(e.source.value.tracks)
    else if e.relay.Some? && e.relay.value.ready then Some(e.relay.value.tracks)
    else None
  }

  predicate SPossible(id: NodeId, e: Slice, step: Step) {
    match step
    case SourceTrackStep(_, kind, track) => e.source.Some?
    case SourceClosedStep(_) => e.source.Some?
    case RelayTrackStep(_, kind, track) => e.relay.Some?
    case RunSinkStep(_, k) => k in e.sinks && e.sinks[k].queued > 0
    case ReconnectSinkStep(_, k) => k in e.sinks
    case RunSenderStep(_, remote) => remote in e.senders && e.senders[remote].queued > 0
    case ConnectStep(from, _, stamp) => from != id
    case InfoStep(from, _) => from != id
    case _ => true
  }

  function STrackOfSource(e: Slice, kind: TrackKind, track: TrackId): Slice
    requires e.source.Some?
  {
    var s := e.source.value;
    if !AcceptsTrack(s.tracks, kind) then e
    else
      var t := WithTrack(s.tracks, kind, track);
      if AllExpected(s.hasVideo, s.hasAudio, t) then
        Slice(Some(s.(tracks := t, ready := true)), e.relay, AllSinksReady(e.sinks, t), AllSendersReady(e.senders, t))
      else
        e.(source := Some(s.(tracks := t)))
  }

  function STrackOfRelay(e: Slice, kind: TrackKind, track: TrackId): Slice
    requires e.relay.Some?
  {
    var r := e.relay.value;
    if !AcceptsTrack(r.tracks, kind) then e
    else
      var t := WithTrack(r.tracks, kind, track);
      if AllExpected(r.hasVideo, r.hasAudio, t) then
        e.(relay := Some(r.(tracks := t, ready := true)), sinks := AllSinksReady(e.sinks, t))
      else
        e.(relay := Some(r.(tracks := t)))
  }

  function SRemoveSink(e: Slice, k: SinkId): Slice {
    if k !in e.sinks then e
    else if e.sinks - {k} == map[] then e.(sinks := map[], relay := None)
    else e.(sinks := e.sinks - {k})
  }

  function SConnect(e: Slice, from: NodeId, stamp: nat): Slice {
    if e.source.None? then e
    else
      var s := e.source.value;
      var sender := NewSender(stamp, s.stamp);
      e.(senders := e.senders[from := if s.ready then SenderTracksReady(sender, s.tracks) else sender])
  }

  function SNext(e: Slice, step: Step, id: NodeId): Slice
    requires SPossible(id, e, step)
  {
    match step
    case GetSinkIDStep => e
    case RegisterSourceStep(_, s) => Slice(Some(s), None, e.sinks, map[])
    case SourceTrackStep(_, kind, track) => STrackOfSource(e, kind, track)
    case SourceClosedStep(_) => Slice(None, e.relay, AllSinksClosed(e.sinks, e.source.value.tracks), map[])
    case RegisterSinkStep(_, k, sink) =>
      var now := Current(e);
      e.(sinks := e.sinks[k := if now.Some? then SinkTracksReady(sink, now.value) else sink])
    case RemoveSinkStep(_, k) => SRemoveSink(e, k)
    case RelayTrackStep(_, kind, track) => STrackOfRelay(e, kind, track)
    case RelayClosedStep(_, tracks) => e.(relay := None, sinks := AllSinksClosed(e.sinks, tracks))
    case SenderClosedStep(_, remote) => e.(senders := e.senders - {remote})
    case LateTracksStep(_, tracks, fromSource) =>
      e.(sinks := AllSinksReady(e.sinks, tracks),
      senders := if fromSource then AllSendersReady(e.senders, tracks) else e.senders)
    case RunSinkStep(_, k) => e.(sinks := e.sinks[k := SinkRun(e.sinks[k])])
    case ReconnectSinkStep(_, k) => e.(sinks := e.sinks[k := SinkReconnect(e.sinks[k])])
    case RunSenderStep(_, remote) => e.(senders := e.senders[remote := SenderRun(e.senders[remote])])
    case ConnectStep(from, _, stamp) => SConnect(e, from, stamp)
    case InfoStep(from, _) =>
      e.(source := None,
      relay := if e.sinks != map[] then Some(Relay(from, false, false, false, NO_TRACKS)) else e.relay)
    case OfferStep(_, v, a) =>
      e.(relay := if e.relay.Some? then Some(e.relay.value.(hasVideo := v, hasAudio := a)) else None)
  }

  /** What the step publishes about its stream. */
  function SPub(e: Slice, step: Step, id: NodeId): Option<Publication>
    requires SPossible(id, e, step)
  {
    match step
    case RegisterSourceStep(sid, s) => Some(Broadcast(Info, sid))
    case RegisterSinkStep(sid, k, sink) => if Current(e).Some? then None else Some(Broadcast(Resolve, sid))
    case RelayClosedStep(sid, tracks) => if e.sinks != map[] then Some(Broadcast(Resolve, sid)) else None
    case InfoStep(from, sid) => if e.sinks != map[] then Some(Direct(from, Connect, sid)) else None
    case RunSenderStep(sid, remote) =>
      var s := e.senders[remote];
      if !s.hasVideo && !s.hasAudio then None else Some(Direct(remote, Offer(s.hasVideo, s.hasAudio), sid))
    case _ => None
  }

  /** `n'` is `n` with the entries of one stream replaced by `e`. */
  ghost predicate Replaces(n: NodeState, n': NodeState, sid: StreamId, e: Slice) {
    && n'.id == n.id && Tidy(n')
    && SliceOf(n', sid) == e
    && forall other | other != sid :: SliceOf(n', other) == SliceOf(n, other)
  }

  // ---------- Each handler changes one stream, as its step says ----------

  lemma RegisterSourceLifts(n: NodeState, sid: StreamId, s: Source)
    requires Tidy(n)
    ensures Replaces(n, RegisterSource(n, sid, s).node, sid, SNext(SliceOf(n, sid), RegisterSourceStep(sid, s), n.id))
  {
  }

  lemma ReadyNonEmpty(m: map<SinkId, Sink>, t: Tracks)
    requires m != map[]
    ensures AllSinksReady(m, t) != map[] && AllSinksClosed(m, t) != map[]
  {
    assert m.Keys != {};
    assert AllSinksReady(m, t).Keys == m.Keys;
    assert AllSinksClosed(m, t).Keys == m.Keys;
  }

  lemma SendersReadyNonEmpty(m: map<NodeId, Sender>, t: Tracks)
    requires m != map[]
    ensures AllSendersReady(m, t) != map[]
  {
    assert m.Keys != {};
    assert AllSendersReady(m, t).Keys == m.Keys;
  }

  lemma UpdateNonEmpty<K, V>(m: map<K, V>, k: K, v: V)
    ensures m[k := v] != map[]
  {
    assert k in m[k := v];
  }

  lemma OnSourceReadyLifts(n: NodeState, sid: StreamId)
    requires Tidy(n) && sid in n.sources
    ensures
      var e, s := SliceOf(n, sid), n.sources[sid];
      Replaces(n, OnSourceReady(n, sid), sid,
               Slice(Some(s.(ready := true)), e.relay, AllSinksReady(e.sinks, s.tracks),
                      AllSendersReady(e.senders, s.tracks)))
  {
    hide AllSinksReady, AllSendersReady;
    var t := n.sources[sid].tracks;
    assert Tidy(OnSourceReady(n, sid)) by {
      if sid in n.sinks { ReadyNonEmpty(n.sinks[sid], t); }
      if sid in n.senders { SendersReadyNonEmpty(n.senders[sid], t); }
    }
    hide Tidy;
    NothingToReady(t);
  }

  lemma NothingToReady(t: Tracks)
    ensures AllSinksReady(map[], t) == map[] && AllSendersReady(map[], t) == map[]
  {
  }

  lemma LateTracksLifts(n: NodeState, sid: StreamId, tracks: Tracks, fromSource: bool)
    requires Tidy(n)
    ensures Replaces(n, LateTracks(n, sid, tracks, fromSource), sid,
                     SNext(SliceOf(n, sid), LateTracksStep(sid, tracks, fromSource), n.id))
  {
    hide AllSinksReady, AllSendersReady;
    assert Tidy(LateTracks(n, sid, tracks, fromSource)) by {
      if sid in n.sinks { ReadyNonEmpty(n.sinks[sid], tracks); }
      if sid in n.senders { SendersReadyNonEmpty(n.senders[sid], tracks); }
    }
    hide Tidy;
    NothingToReady(tracks);
  }

  lemma SourceTrackLifts(n: NodeState, sid: StreamId, kind: TrackKind, track: TrackId)
    requires Tidy(n) && sid in n.sources
    ensures Replaces(n, SourceTrack(n, sid, kind, track), sid, STrackOfSource(SliceOf(n, sid), kind, track))
  {
    var s := n.sources[sid];
    if AcceptsTrack(s.tracks, kind) {
      var n' := n.(sources := n.sources[sid := s.(tracks := WithTrack(s.tracks, kind, track))]);
      assert Replaces(n, n', sid, SliceOf(n, sid).(source := Some(n'.sources[sid])));
      if AllExpected(s.hasVideo, s.hasAudio, n'.sources[sid].tracks) {
        OnSourceReadyLifts(n', sid);
      }
    }
  }

  lemma OnSourceClosedLifts(n: NodeState, sid: StreamId)
    requires Tidy(n) && sid in n.sources
    ensures Replaces(n, OnSourceClosed(n, sid, n.sources[sid].tracks), sid,
                     SNext(SliceOf(n, sid), SourceClosedStep(sid), n.id))
  {
    var t := n.sources[sid].tracks;
    if sid in n.sinks { ReadyNonEmpty(n.sinks[sid], t); }
    assert AllSinksClosed(map[], t) == map[];
  }

  lemma RegisterSinkLifts(n: NodeState, sid: StreamId, id: SinkId, k: Sink)
    requires Tidy(n)
    ensures Replaces(n, RegisterSink(n, sid, id, k).node, sid,
                     SNext(SliceOf(n, sid), RegisterSinkStep(sid, id, k), n.id))
  {
    var now := Current(SliceOf(n, sid));
    UpdateNonEmpty(SinksAt(n, sid), id, if now.Some? then SinkTracksReady(k, now.value) else k);
  }

  lemma RemoveSinkLifts(n: NodeState, sid: StreamId, id: SinkId)
    requires Tidy(n)
    ensures Replaces(n, RemoveSink(n, sid, id), sid, SRemoveSink(SliceOf(n, sid), id))
  {
    if IsSink(n, sid, id) {
      RemovedSinkLifts(n, sid, id, n.sinks[sid] - {id});
    }
  }

  lemma RemovedSinkLifts(n: NodeState, sid: StreamId, id: SinkId, rest: map<SinkId, Sink>)
    requires Tidy(n) && IsSink(n, sid, id) && rest == n.sinks[sid] - {id}
    ensures Replaces(n, RemoveSink(n, sid, id), sid, SRemoveSink(SliceOf(n, sid), id))
  {
    var e := SRemoveSink(SliceOf(n, sid), id);
    if rest == map[] {
      var n' := n.(sinks := n.sinks - {sid}, relays := n.relays - {sid});
      assert e == SliceOf(n, sid).(sinks := map[], relay := None);
      assert Replaces(n, n', sid, e);
    } else {
      var n' := n.(sinks := n.sinks[sid := rest]);
      assert e == SliceOf(n, sid).(sinks := rest);
      assert Replaces(n, n', sid, e);
    }
  }

  lemma ReceiveConnectLifts(n: NodeState, from: NodeId, sid: StreamId, stamp: nat)
    requires Tidy(n)
    ensures Replaces(n, ReceiveConnect(n, from, sid, stamp), sid, SConnect(SliceOf(n, sid), from, stamp))
  {
    if sid in n.sources {
      UpdateNonEmpty(SendersAt(n, sid), from, ReceiveConnect(n, from, sid, stamp).senders[sid][from]);
    }
  }

  lemma OnSenderClosedLifts(n: NodeState, sid: StreamId, remote: NodeId)
    requires Tidy(n)
    ensures Replaces(n, OnSenderClosed(n, sid, remote), sid,
                     SNext(SliceOf(n, sid), SenderClosedStep(sid, remote), n.id))
  {
    if !IsSender(n, sid, remote) {
      assert SendersAt(n, sid) - {remote} == SendersAt(n, sid);
    }
  }

  lemma ReceiveInfoLifts(n: NodeState, from: NodeId, sid: StreamId)
    requires Tidy(n) && from != n.id
    ensures Replaces(n, ReceiveInfo(n, from, sid).node, sid, SNext(SliceOf(n, sid), InfoStep(from, sid), n.id))
  {
  }

  lemma ReceiveOfferLifts(n: NodeState, sid: StreamId, v: bool, a: bool)
    requires Tidy(n)
    ensures Replaces(n, ReceiveOffer(n, sid, v, a), sid, SNext(SliceOf(n, sid), OfferStep(sid, v, a), n.id))
  {
  }

  lemma OnRelayReadyLifts(n: NodeState, sid: StreamId)
    requires Tidy(n) && sid in n.relays
    ensures
      var e, r := SliceOf(n, sid), n.relays[sid];
      Replaces(n, OnRelayReady(n, sid), sid,
               e.(relay := Some(r.(ready := true)), sinks := AllSinksReady(e.sinks, r.tracks)))
  {
    var t := n.relays[sid].tracks;
    if sid in n.sinks { ReadyNonEmpty(n.sinks[sid], t); }
    assert AllSinksReady(map[], t) == map[];
  }

  lemma RelayTrackLifts(n: NodeState, sid: StreamId, kind: TrackKind, track: TrackId)
    requires Tidy(n) && sid in n.relays
    ensures Replaces(n, RelayTrack(n, sid, kind, track), sid, STrackOfRelay(SliceOf(n, sid), kind, track))
  {
    var r := n.relays[sid];
    if AcceptsTrack(r.tracks, kind) {
      var n' := n.(relays := n.relays[sid := r.(tracks := WithTrack(r.tracks, kind, track))]);
      assert Replaces(n, n', sid, SliceOf(n, sid).(relay := Some(n'.relays[sid])));
      if AllExpected(r.hasVideo, r.hasAudio, n'.relays[sid].tracks) {
        OnRelayReadyLifts(n', sid);
      }
    }
  }

  lemma OnRelayClosedLifts(n: NodeState, sid: StreamId, tracks: Tracks)
    requires Tidy(n)
    ensures Replaces(n, OnRelayClosed(n, sid, tracks).node, sid,
                     SNext(SliceOf(n, sid), RelayClosedStep(sid, tracks), n.id))
  {
    if sid in n.sinks { ReadyNonEmpty(n.sinks[sid], tracks); }
    assert AllSinksClosed(map[], tracks) == map[];
  }

  lemma WithSinkLifts(n: NodeState, sid: StreamId, id: SinkId, k: Sink)
    requires Tidy(n) && IsSink(n, sid, id)
    ensures
      var e := SliceOf(n, sid);
      Replaces(n, WithSink(n, sid, id, k), sid, e.(sinks := e.sinks[id := k]))
  {
    UpdateNonEmpty(n.sinks[sid], id, k);
  }

  lemma RunSenderLifts(n: NodeState, sid: StreamId, remote: NodeId)
    requires Tidy(n) && IsSender(n, sid, remote) && n.senders[sid][remote].queued > 0
    ensures Replaces(n, RunSender(n, sid, remote).node, sid, SNext(SliceOf(n, sid), RunSenderStep(sid, remote), n.id))
  {
    UpdateNonEmpty(n.senders[sid], remote, SenderRun(n.senders[sid][remote]));
  }

  // ---------- The lifting theorem ----------

  lemma PossibleIsStreamwise(n: NodeState, step: Step)
    requires StreamOf(step).Some?
    ensures Possible(n, step) <==> SPossible(n.id, SliceOf(n, step.sid), step)
  {
  }

  lemma PubIsStreamwise(n: NodeState, step: Step)
    requires Tidy(n) && StreamOf(step).Some?
    requires Possible(n, step) && SPossible(n.id, SliceOf(n, step.sid), step)
    ensures Apply(n, step).pub == SPub(SliceOf(n, step.sid), step, n.id)
  {
  }

  /** A step changes the entries of the stream it names, as `SNext` says, and of no other stream. */
  lemma StepIsStreamwise(n: NodeState, step: Step)
    requires Tidy(n) && Possible(n, step) && StreamOf(step).Some?
    ensures SPossible(n.id, SliceOf(n, step.sid), step)
    ensures Replaces(n, Apply(n, step).node, step.sid, SNext(SliceOf(n, step.sid), step, n.id))
    ensures Apply(n, step).pub == SPub(SliceOf(n, step.sid), step, n.id)
  {
    PossibleIsStreamwise(n, step);
    PubIsStreamwise(n, step);
    match step
    case RegisterSourceStep(sid, s) => RegisterSourceLifts(n, sid, s);
    case SourceTrackStep(sid, kind, track) => SourceTrackLifts(n, sid, kind, track);
    case SourceClosedStep(sid) => OnSourceClosedLifts(n, sid);
    case RegisterSinkStep(sid, id, k) => RegisterSinkLifts(n, sid, id, k);
    case RemoveSinkStep(sid, id) => RemoveSinkLifts(n, sid, id);
    case RelayTrackStep(sid, kind, track) => RelayTrackLifts(n, sid, kind, track);
    case RelayClosedStep(sid, tracks) => OnRelayClosedLifts(n, sid, tracks);
    case SenderClosedStep(sid, remote) => OnSenderClosedLifts(n, sid, remote);
    case LateTracksStep(sid, tracks, fromSource) => LateTracksLifts(n, sid, tracks, fromSource);
    case RunSinkStep(sid, id) => WithSinkLifts(n, sid, id, SinkRun(n.sinks[sid][id]));
    case ReconnectSinkStep(sid, id) => WithSinkLifts(n, sid, id, SinkReconnect(n.sinks[sid][id]));
    case RunSenderStep(sid, remote) => RunSenderLifts(n, sid, remote);
    case ConnectStep(from, sid, stamp) => ReceiveConnectLifts(n, from, sid, stamp);
    case InfoStep(from, sid) => ReceiveInfoLifts(n, from, sid);
    case OfferStep(sid, v, a) => ReceiveOfferLifts(n, sid, v, a);
    case GetSinkIDStep => assert false;
  }
}
