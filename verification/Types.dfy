/**
  Names shared by every part of the model: identifiers, media tracks, and the
  messages that nodes publish to each other.
 */
module Types {
  type NodeId = string
  type StreamId = string
  type RequestId = string
  type ConnectionId = int
  datatype SinkId = SinkId(number: nat)

  /** Identity of a local media track; only equality of tracks matters. */
  type TrackId = int

  datatype Option<+T> = None | Some(value: T)

  /** The pair (localTrackVideo, localTrackAudio); `None` is Go's nil. */
  datatype Tracks = Tracks(video: Option<TrackId>, audio: Option<TrackId>)

  const NO_TRACKS: Tracks := Tracks(None, None)

  predicate HasSome(t: Tracks) {
    t.video.Some? || t.audio.Some?
  }

  datatype TrackKind = Video | Audio | OtherKind

  /** Kinds of inter-node message that move the location protocol or the tracks. */
  datatype Kind =
    | Resolve
    | Info
    | Connect
    | Offer(video: bool, audio: bool)

  /** A publication on the message service: to the common channel, or to one node's channel. */
  datatype Publication =
    | Broadcast(kind: Kind, sid: StreamId)
    | Direct(to: NodeId, kind: Kind, sid: StreamId)

  function Maybe<T>(x: Option<T>): seq<T> {
    if x.Some? then [x.value] else []
  }

  function Lookup<K, V>(m: map<K, V>, k: K): Option<V> {
    if k in m then Some(m[k]) else None
  }
}
