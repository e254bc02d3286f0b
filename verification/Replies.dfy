/**
  What clients are told, and when a request enters a table: said of ids, counts and messages, for every
  transition, and then of whole runs.
 */
module Replies {
  import opened Types
  import opened NodeSpec
  import opened Requests
  import opened RequestInvariants
  import opened RequestRuns
  import opened RequestTheorems
  import NodeInvariants

  // ---------- Who is let in ----------

  /** Both ids have 1 to 255 characters, the client is authorized, the id is not in use on the connection, and the
      count is not above the limit. */
  predicate Accepts(w: State, c: ConnectionId, req: RequestId, sid: StreamId, auth: bool)
    requires c in w.conns
  {
    && 1 <= |req| <= 255 && 1 <= |sid| <= 255 && auth
    && req !in w.conns[c].requests && w.conns[c].requestCount <= w.limit
  }

  /** The first thing that is wrong. */
  function Fault(w: State, c: ConnectionId, req: RequestId, sid: StreamId, auth: bool): (code: ErrorCode)
    requires c in w.conns && !Accepts(w, c, req, sid, auth)
    ensures code == InvalidRequestId <==> |req| < 1 || 255 < |req|
    ensures code == InvalidStreamId <==> 1 <= |req| <= 255 && (|sid| < 1 || 255 < |sid|)
    ensures code == InvalidAuth <==> 1 <= |req| <= 255 && 1 <= |sid| <= 255 && !auth
    ensures code == ProtocolError <==>
              1 <= |req| <= 255 && 1 <= |sid| <= 255 && auth && req in w.conns[c].requests
    ensures code == LimitRequests <==>
              1 <= |req| <= 255 && 1 <= |sid| <= 255 && auth && req !in w.conns[c].requests
              && w.limit < w.conns[c].requestCount
  {
    if !(1 <= |req| <= 255) then InvalidRequestId
    else if !(1 <= |sid| <= 255) then InvalidStreamId
    else if !auth then InvalidAuth
    else if req in w.conns[c].requests then ProtocolError
    else LimitRequests
  }

  /** Nothing changes but that the client of c gets one message. */
  predicate OnlyTold(w: State, w': State, c: ConnectionId, m: ClientMessage)
    requires c in w.conns
  {
    w' == w.(conns := w.conns[c := w.conns[c].(sent := w.conns[c].sent + [m])])
  }

  /** A PUBLISH that is not accepted changes and publishes nothing, and its client gets one error. */
  lemma RefusedPublish(w: State, c: ConnectionId, req: RequestId, sid: StreamId, kind: StreamType, auth: bool)
    requires c in w.conns && !Accepts(w, c, req, sid, auth)
    ensures
      var r := ReceivePublish(w, c, req, sid, kind, auth);
      && r.pub == None && OnlyTold(w, r.state, c, ErrorMessage(Fault(w, c, req, sid, auth), req))
  {
  }

  /** A PLAY that is not accepted publishes nothing, and its client gets one error; nothing else changes, but that
      a sink id is used up if only the table or its count was in the way. */
  lemma RefusedPlay(w: State, c: ConnectionId, req: RequestId, sid: StreamId, auth: bool)
    requires c in w.conns && !Accepts(w, c, req, sid, auth)
    ensures
      var r := ReceivePlay(w, c, req, sid, auth);
      var code := Fault(w, c, req, sid, auth);
      var n := w.node;
      var used := n.(sinkCount := n.sinkCount + 1, reserved := n.reserved + {SinkId(n.sinkCount + 1)});
      var w1 := if code == ProtocolError || code == LimitRequests then w.(node := used) else w;
      r.pub == None && OnlyTold(w1, r.state, c, ErrorMessage(code, req))
  {
  }

  lemma NotRefused(w: State, c: ConnectionId, req: RequestId, sid: StreamId, auth: bool)
    requires c in w.conns && Accepts(w, c, req, sid, auth)
    ensures Refusal(w, c, req, sid, auth).None?
  {
  }

  // ---------- What an accepted request does ----------

  /** An accepted PUBLISH registers a source that expects what its stream type says, takes the stream's relay and
      senders out, and is broadcast. */
  lemma AcceptedPublish(w: State, c: ConnectionId, req: RequestId, sid: StreamId, kind: StreamType, auth: bool)
    requires c in w.conns && Accepts(w, c, req, sid, auth)
    ensures
      var r := ReceivePublish(w, c, req, sid, kind, auth);
      var n, n', stamp := w.node, r.state.node, w.node.nextStamp;
      var source := Source(stamp, c, req, kind != AudioType, kind != VideoType, false, Tracks(None, None));
      && r.pub == Some(Broadcast(Info, sid))
      && n'.sources == n.sources[sid := source] && n'.sinks == n.sinks
      && n'.relays == n.relays - {sid} && n'.senders == n.senders - {sid}
      && n'.nextStamp == stamp + 1 && Lookup(r.state.objects, stamp) == Some(SourceObject(sid, c, req, false))
  {
    NotRefused(w, c, req, sid, auth);
  }

  /** An accepted PLAY registers a new sink: with the tracks of the stream's ready source or else of its ready relay,
      and a task to offer them, or without tracks, and then the other nodes are asked. */
  lemma AcceptedPlay(w: State, c: ConnectionId, req: RequestId, sid: StreamId, auth: bool)
    requires c in w.conns && Accepts(w, c, req, sid, auth)
    ensures
      var r := ReceivePlay(w, c, req, sid, auth);
      var n, n', id := w.node, r.state.node, SinkId(w.node.sinkCount + 1);
      var fromSource := sid in n.sources && n.sources[sid].ready;
      var fromRelay := !fromSource && sid in n.relays && n.relays[sid].ready;
      && n'.sources == n.sources && n'.relays == n.relays && n'.senders == n.senders
      && n'.sinkCount == n.sinkCount + 1 && SinksAt(n', sid).Keys == SinksAt(n, sid).Keys + {id}
      && var k := SinksAt(n', sid)[id];
      && k.conn == c && k.req == req && !k.closed && !k.peer && k.sent == []
      && (fromSource ==> k.tracks == n.sources[sid].tracks && k.queued == 1 && r.pub == None)
      && (fromRelay ==> k.tracks == n.relays[sid].tracks && k.queued == 1 && r.pub == None)
      && (!fromSource && !fromRelay ==>
            k.tracks == Tracks(None, None) && k.queued == 0 && r.pub == Some(Broadcast(Resolve, sid)))
      && Lookup(r.state.sinkObjects, id) == Some(SinkObject(sid, c, req, false))
  {
    NotRefused(w, c, req, sid, auth);
    hide Refusal;
  }

  // ---------- What every connection is told, and what its table holds ----------

  /** The messages that a transition owes the client of c. */
  function Owed(w: State, v: Move, c: ConnectionId): seq<ClientMessage>
    requires v.Publish? || v.Play? ==> v.c in w.conns
  {
    match v
    case Publish(c0, req, sid, kind, auth) =>
      if !Accepts(w, c0, req, sid, auth) then
        if c == c0 then [ErrorMessage(Fault(w, c0, req, sid, auth), req)] else []
      else (if c == c0 then [OkMessage(req)] else []) + Evicted(w, sid, c)
    case Play(c0, req, sid, auth) =>
      if c != c0 then []
      else if !Accepts(w, c0, req, sid, auth) then [ErrorMessage(Fault(w, c0, req, sid, auth), req)]
      else [OkMessage(req), StandbyMessage(req)]
    case InfoFrom(from, sid) => Evicted(w, sid, c)
    case Lost(stamp) =>
      if stamp in w.objects && !w.objects[stamp].closed && w.objects[stamp].conn == c then
        [CloseMessage(w.objects[stamp].req, w.objects[stamp].sid)]
      else
        []
    case _ => []
  }

  /** The publisher that loses the stream is told so. */
  function Evicted(w: State, sid: StreamId, c: ConnectionId): seq<ClientMessage> {
    if sid in w.node.sources && w.node.sources[sid].conn == c then [CloseMessage(w.node.sources[sid].req, sid)]
    else []
  }

  /** The requests that a transition puts into the table of c. */
  function Entering(w: State, v: Move, c: ConnectionId): set<RequestId>
    requires v.Publish? || v.Play? ==> v.c in w.conns
  {
    if (v.Publish? || v.Play?) && v.c == c && Accepts(w, c, v.req, v.sid, v.auth) then {v.req} else {}
  }

  /** The requests that a transition takes out of it. */
  function Leaving(w: State, v: Move, c: ConnectionId): set<RequestId>
    requires v.Publish? || v.Play? ==> v.c in w.conns
  {
    match v
    case Publish(c0, req, sid, kind, auth) =>
      if Accepts(w, c0, req, sid, auth) && sid in w.node.sources && w.node.sources[sid].conn == c then
        {w.node.sources[sid].req}
      else
        {}
    case InfoFrom(from, sid) =>
      if sid in w.node.sources && w.node.sources[sid].conn == c then {w.node.sources[sid].req} else {}
    case Lost(stamp) =>
      if stamp in w.objects && !w.objects[stamp].closed && w.objects[stamp].conn == c then {w.objects[stamp].req}
      else {}
    case Close(c0, req) => if c0 == c then {req} else {}
    case _ => {}
  }

  predicate Accounts(w: State, v: Move, w': State, c: ConnectionId)
    requires v.Publish? || v.Play? ==> v.c in w.conns
    requires c in w.conns
  {
    && c in w'.conns && w'.conns[c].sent == w.conns[c].sent + Owed(w, v, c)
    && w'.conns[c].requests.Keys == w.conns[c].requests.Keys + Entering(w, v, c) - Leaving(w, v, c)
    && Entering(w, v, c) !! Leaving(w, v, c)
  }

  lemma Told(conns: map<ConnectionId, Conn>, c0: ConnectionId, req: RequestId, sid: StreamId, c: ConnectionId)
    requires c0 in conns && c in conns
    ensures
      var conns' := Requests.SendSourceClose(conns, c0, req, sid);
      && c in conns'
      && conns'[c].sent == conns[c].sent + (if c == c0 then [CloseMessage(req, sid)] else [])
      && conns'[c].requests.Keys == conns[c].requests.Keys - (if c == c0 then {req} else {})
  {
  }

  lemma Added(conns: map<ConnectionId, Conn>, c0: ConnectionId, req: RequestId, ref: SourceRef, c: ConnectionId)
    requires c0 in conns && c in conns
    ensures
      var conns' := conns[c0 := AddSource(conns[c0], req, ref)];
      && conns'[c].sent == conns[c].sent + (if c == c0 then [OkMessage(req)] else [])
      && conns'[c].requests.Keys == conns[c].requests.Keys + (if c == c0 then {req} else {})
  {
  }

  lemma PublishAccounts(w: State, v: Move, c: ConnectionId)
    requires Inv(w) && v.Publish? && v.c in w.conns && c in w.conns
    ensures Accounts(w, v, ReceivePublish(w, v.c, v.req, v.sid, v.kind, v.auth).state, c)
  {
    hide ReceivePublish, Refusal, Inv, ConnsOK, RegisteredOK, AddSource, Requests.SendSourceClose, CloseObject;
    if !Accepts(w, v.c, v.req, v.sid, v.auth) {
      RefusedPublish(w, v.c, v.req, v.sid, v.kind, v.auth);
    } else {
      NotRefused(w, v.c, v.req, v.sid, v.auth);
      PublishResult(w, v.c, v.req, v.sid, v.kind, v.auth);
      InvParts(w, v.sid);
      UntabledRequest(w, v.c, v.req);
      GoneIsAnother(w, v.c, v.req, v.sid);
      var ref := SourceRef(v.sid, NewSourceFor(w, v.c, v.req, v.kind).stamp);
      Added(w.conns, v.c, v.req, ref, c);
      var gone := SourceAt(w, v.sid);
      if gone.Some? {
        Told(w.conns[v.c := AddSource(w.conns[v.c], v.req, ref)], gone.value.conn, gone.value.req, v.sid, c);
      }
    }
  }

  lemma PlayAccounts(w: State, v: Move, c: ConnectionId)
    requires v.Play? && v.c in w.conns && c in w.conns
    ensures Accounts(w, v, ReceivePlay(w, v.c, v.req, v.sid, v.auth).state, c)
  {
    hide ReceivePlay, Refusal;
    if !Accepts(w, v.c, v.req, v.sid, v.auth) {
      RefusedPlay(w, v.c, v.req, v.sid, v.auth);
    } else {
      NotRefused(w, v.c, v.req, v.sid, v.auth);
      PlayResult(w, v.c, v.req, v.sid, v.auth);
    }
  }

  lemma InfoAccounts(w: State, v: Move, c: ConnectionId)
    requires Inv(w) && v.InfoFrom? && c in w.conns
    ensures Accounts(w, v, ReceiveInfoMessage(w, v.from, v.sid).state, c)
  {
    hide ReceiveInfoMessage, Inv, ConnsOK, Requests.SendSourceClose, CloseObject;
    InfoResult(w, v.from, v.sid);
    InvParts(w, v.sid);
    var gone := SourceAt(w, v.sid);
    if gone.Some? { Told(w.conns, gone.value.conn, gone.value.req, v.sid, c); }
  }

  lemma LostAccounts(w: State, v: Move, c: ConnectionId)
    requires Inv(w) && v.Lost? && v.stamp in w.objects && c in w.conns
    ensures Accounts(w, v, SourceLost(w, v.stamp), c)
  {
    hide Inv, ConnsOK, Requests.SendSourceClose, CloseObject, OnSourceClosed;
    if !w.objects[v.stamp].closed {
      var o := w.objects[v.stamp];
      OpenIsRegistered(w, v.stamp);
      Told(w.conns, o.conn, o.req, o.sid, c);
    }
  }

  lemma NothingToClose(w: State, c: ConnectionId, req: RequestId)
    requires c in w.conns && req !in w.conns[c].requests
    ensures CloseRequest(w, c, req) == w
  {
  }

  lemma CloseAccounts(w: State, v: Move, c: ConnectionId)
    requires Inv(w) && v.Close? && v.c in w.conns && c in w.conns
    ensures Accounts(w, v, CloseRequest(w, v.c, v.req), c)
  {
    hide Inv, CloseRequest;
    if v.req in w.conns[v.c].requests {
      CloseRemovesOne(w, v.c, v.req);
    } else {
      NothingToClose(w, v.c, v.req);
    }
  }

  /** In every transition every connection that stays is told exactly what it is owed, and its table gains exactly
      the request that is accepted and loses exactly the one whose source goes or that its client closes. */
  lemma EveryTransitionAccounts(w: State, v: Move, c: ConnectionId)
    requires Inv(w) && CanMove(w, v) && c in w.conns && !(v.EndConn? && v.c == c)
    ensures Accounts(w, v, Next(w, v).state, c)
  {
    hide Inv, ReceivePublish, ReceivePlay, ReceiveInfoMessage, SourceLost, CloseRequest, Apply, Accepts;
    match v
    case OpenConn(_) =>
    case Publish(_, _, _, _, _) => PublishAccounts(w, v, c);
    case Play(_, _, _, _) => PlayAccounts(w, v, c);
    case Close(_, _) => CloseAccounts(w, v, c);
    case Lost(_) => LostAccounts(w, v, c);
    case InfoFrom(_, _) => InfoAccounts(w, v, c);
    case EndConn(c0, order) => TeardownLeavesNothing(w, c0, order);
    case Internal(_) =>
  }

  // ---------- What the client knows ----------

  /** By the messages it got, the client takes the request for accepted: an OK came for it, and no CLOSE since. */
  predicate Stands(sent: seq<ClientMessage>, r: RequestId) {
    sent != [] &&
    var last := sent[|sent| - 1];
    if last == OkMessage(r) then true
    else if last.CloseMessage? && last.req == r then false
    else Stands(sent[..|sent| - 1], r)
  }

  lemma StandsAfterOne(sent: seq<ClientMessage>, m: ClientMessage, r: RequestId)
    ensures Stands(sent + [m], r) <==>
            m == OkMessage(r) || (Stands(sent, r) && !(m.CloseMessage? && m.req == r))
  {
    assert (sent + [m])[..|sent|] == sent;
  }

  lemma StandsAfterTwo(sent: seq<ClientMessage>, m1: ClientMessage, m2: ClientMessage, r: RequestId)
    ensures Stands(sent + [m1, m2], r) <==>
            || m2 == OkMessage(r)
            || ((m1 == OkMessage(r) || (Stands(sent, r) && !(m1.CloseMessage? && m1.req == r)))
                && !(m2.CloseMessage? && m2.req == r))
  {
    StandsAfterOne(sent, m1, r);
    StandsAfterOne(sent + [m1], m2, r);
    assert sent + [m1, m2] == sent + [m1] + [m2];
  }

  /** What a transition tells a client is what happens to its table, its own CLOSE apart. */
  lemma ToldIsDone(w: State, v: Move, c: ConnectionId, sent: seq<ClientMessage>, r: RequestId)
    requires v.Publish? || v.Play? ==> v.c in w.conns
    requires Entering(w, v, c) !! Leaving(w, v, c)
    ensures Stands(sent + Owed(w, v, c), r) <==>
            (Stands(sent, r) || r in Entering(w, v, c)) && (v.Close? || r !in Leaving(w, v, c))
  {
    hide Accepts, Stands;
    var owed := Owed(w, v, c);
    if owed == [] {
      assert sent + [] == sent;
    } else if |owed| == 1 {
      assert owed == [owed[0]];
      StandsAfterOne(sent, owed[0], r);
    } else {
      assert owed == [owed[0], owed[1]];
      StandsAfterTwo(sent, owed[0], owed[1], r);
    }
  }

  /** The client of c knows at least of the requests in its table; and `exactly` of those, if it is so said. */
  ghost predicate Known(w: State, c: ConnectionId, exactly: bool) {
    c in w.conns ==>
      && (forall r | r in w.conns[c].requests :: Stands(w.conns[c].sent, r))
      && (exactly ==> forall r | Stands(w.conns[c].sent, r) :: r in w.conns[c].requests)
  }

  lemma MoveKeepsKnown(w: State, v: Move, c: ConnectionId, exactly: bool)
    requires Inv(w) && CanMove(w, v) && Known(w, c, exactly) && (exactly ==> !(v.Close? && v.c == c))
    ensures Known(Next(w, v).state, c, exactly)
  {
    hide Inv, Stands, Owed, Entering, Leaving;
    var w' := Next(w, v).state;
    if c in w.conns && !(v.EndConn? && v.c == c) {
      EveryTransitionAccounts(w, v, c);
      forall r ensures Stands(w'.conns[c].sent, r) <==>
                       (Stands(w.conns[c].sent, r) || r in Entering(w, v, c)) && (v.Close? || r !in Leaving(w, v, c))
      {
        ToldIsDone(w, v, c, w.conns[c].sent, r);
      }
      if v.Close? { ClosingElsewhere(w, v, c); }
    } else {
      NewClientKnows(w, v, c, exactly);
    }
  }

  lemma ClosingElsewhere(w: State, v: Move, c: ConnectionId)
    requires v.Close?
    ensures v.c != c ==> Leaving(w, v, c) == {}
    ensures Entering(w, v, c) == {}
  {
  }

  /** A connection that comes or goes starts with nothing. */
  lemma NewClientKnows(w: State, v: Move, c: ConnectionId, exactly: bool)
    requires Inv(w) && CanMove(w, v) && (c !in w.conns || (v.EndConn? && v.c == c))
    ensures Known(Next(w, v).state, c, exactly)
  {
    hide CanMove, Next, Inv, Stands;
    NothingStands();
    ConnsAfter(w, v, c);
  }

  lemma ConnsAfter(w: State, v: Move, c: ConnectionId)
    requires CanMove(w, v)
    ensures
      var conns' := Next(w, v).state.conns;
      && (c !in w.conns && c in conns' ==> conns'[c] == NEW_CONN)
      && (v.EndConn? && v.c == c ==> c !in conns')
  {
    hide RegisterSource, RegisterSink, ReceiveInfo, OnSourceClosed, RemoveSink, Apply;
  }

  lemma NothingStands()
    ensures forall r :: !Stands([], r)
  {
  }

  lemma {:induction false} RunKeepsKnown(w: State, moves: seq<Move>, c: ConnectionId, exactly: bool)
    requires AllOK(w) && RequestTheorems.IsRun(w, moves) && Known(w, c, exactly)
    requires exactly ==> forall v | v in moves :: !(v.Close? && v.c == c)
    ensures Known(RequestTheorems.Run(w, moves), c, exactly)
    decreases |moves|
  {
    hide CanMove, Next, NodeInvariants.OpenInv, Inv, Known;
    if moves != [] {
      assert moves[0] in moves;
      MoveKeepsKnown(w, moves[0], c, exactly);
      MoveKeepsAllOK(w, moves[0]);
      RunKeepsKnown(Next(w, moves[0]).state, moves[1..], c, exactly);
    }
  }

  /** In every run, the requests in a connection's table are all known to its client by the messages it got; and if
      the client closed none itself, they are exactly those: it was told of every source that was taken from it. */
  lemma ClientsKnowTheirRequests(id: NodeId, limit: nat, moves: seq<Move>, c: ConnectionId)
    requires RequestTheorems.IsRun(RequestTheorems.Start(id, limit), moves)
    ensures
      var w := RequestTheorems.Run(RequestTheorems.Start(id, limit), moves);
      c in w.conns ==>
        && (forall r | r in w.conns[c].requests :: Stands(w.conns[c].sent, r))
        && ((forall v | v in moves :: !(v.Close? && v.c == c)) ==>
              forall r :: r in w.conns[c].requests <==> Stands(w.conns[c].sent, r))
  {
    hide CanMove, Next, NodeInvariants.OpenInv, Inv, Stands;
    var start := RequestTheorems.Start(id, limit);
    StartOK(id, limit);
    RunKeepsKnown(start, moves, c, false);
    if forall v | v in moves :: !(v.Close? && v.c == c) { RunKeepsKnown(start, moves, c, true); }
  }
}
