/**
  What the request limit does, exactly: the count of a connection is a uint32, so it is the size of its
  table, and the limit refuses anything at all, if and only if the limit is below the largest uint32.
 */
module RequestLimits {
  import opened Types
  import opened NodeSpec
  import opened Requests
  import opened RequestInvariants
  import opened RequestRuns
  import opened RequestTheorems
  import RequestTexts
  import Signaling
  import SignalingLaws

  // ---------- Runs whose requests some text makes ----------

  const PLAY: string := "PLAY"
  const PUBLISH: string := "PUBLISH"

  /** A client can make the request: there is a text that is parsed to it. */
  ghost predicate IsAsked(v: Move) {
    match v
    case Publish(_, req, sid, _, _) => exists raw :: RequestTexts.Asks(raw, PUBLISH, req, sid)
    case Play(_, req, sid, _) => exists raw :: RequestTexts.Asks(raw, PLAY, req, sid)
    case _ => true
  }

  /** Reached by requests that clients can make. */
  ghost predicate AskedReachable(w: State) {
    exists id, limit: nat, moves ::
      IsRun(Start(id, limit), moves) && w == Run(Start(id, limit), moves) && forall v | v in moves :: IsAsked(v)
  }

  lemma AskedIsReachable(w: State)
    requires AskedReachable(w)
    ensures Reachable(w)
  {
    hide CanMove, Next;
  }

  lemma AskedThen(w: State, v: Move)
    requires AskedReachable(w) && CanMove(w, v) && IsAsked(v)
    ensures AskedReachable(Next(w, v).state)
  {
    hide CanMove, Next, IsAsked;
    var id, limit: nat, moves :|
      IsRun(Start(id, limit), moves) && w == Run(Start(id, limit), moves) && forall u | u in moves :: IsAsked(u);
    RunThen(Start(id, limit), moves, v);
    assert forall u | u in moves + [v] :: IsAsked(u);
  }

  // ---------- As many request ids as needed ----------

  const LETTERS: nat := 26

  function Power(k: nat): nat {
    if k == 0 then 1 else LETTERS * Power(k - 1)
  }

  /** The number n in k letters. */
  function Spelled(n: nat, k: nat): (s: string)
    ensures |s| == k
  {
    if k == 0 then "" else Spelled(n / LETTERS, k - 1) + [('a' as int + n % LETTERS) as char]
  }

  function Number(s: string): int {
    if s == "" then 0 else LETTERS * Number(s[..|s| - 1]) + (s[|s| - 1] as int - 'a' as int)
  }

  lemma {:induction false} NumberOfSpelled(n: nat, k: nat)
    requires n < Power(k)
    ensures Number(Spelled(n, k)) == n
  {
    if k != 0 {
      NumberOfSpelled(n / LETTERS, k - 1);
      assert Spelled(n, k)[..k - 1] == Spelled(n / LETTERS, k - 1);
    }
  }

  lemma {:induction false} SpelledInLetters(n: nat, k: nat)
    ensures forall c | c in Spelled(n, k) :: 'a' <= c <= 'z'
  {
    if k != 0 { SpelledInLetters(n / LETTERS, k - 1); }
  }

  /** The n-th request id: seven small letters. */
  function Name(n: nat): (s: RequestId)
    ensures |s| == 7
  {
    Spelled(n, 7)
  }

  const NAMES: nat := 8_031_810_176

  lemma NumberOfName(n: nat)
    requires n < NAMES
    ensures Number(Name(n)) == n
  {
    assert Power(3) == 17576;
    assert Power(7) == NAMES by { assert Power(5) == 11_881_376; }
    NumberOfSpelled(n, 7);
  }

  /** A PLAY can carry it. */
  lemma NameIsAsked(n: nat, sid: StreamId)
    requires SignalingLaws.PlainValue(sid)
    ensures SignalingLaws.PlainValue(Name(n)) && exists raw :: RequestTexts.Asks(raw, PLAY, Name(n), sid)
  {
    SpelledInLetters(n, 7);
    assert Name(n)[0] in Name(n) && Name(n)[6] in Name(n);
    assert Signaling.Upper(PLAY) == PLAY;
    hide RequestTexts.Asks;
    RequestTexts.AskableExactly(PLAY, Name(n), sid);
  }

  // ---------- A connection with n requests ----------

  /** The connection c has n PLAY requests, under the first n ids. */
  ghost predicate HasPlays(w: State, limit: nat, c: ConnectionId, n: nat) {
    && AskedReachable(w) && w.limit == limit && c in w.conns && |w.conns[c].requests| == n
    && forall r | r in w.conns[c].requests :: |r| == 7 && Number(r) < n
  }

  lemma FirstConnection(id: NodeId, limit: nat, c: ConnectionId) returns (w: State)
    ensures HasPlays(w, limit, c, 0)
  {
    var start := Start(id, limit);
    assert IsRun(start, []) && Run(start, []) == start && forall v | v in [] :: IsAsked(v);
    assert AskedReachable(start);
    AskedThen(start, OpenConn(c));
    w := Next(start, OpenConn(c)).state;
  }

  lemma NextNameIsNew(w: State, limit: nat, c: ConnectionId, n: nat)
    requires HasPlays(w, limit, c, n) && n < NAMES
    ensures Name(n) !in w.conns[c].requests && w.conns[c].requestCount == n % UINT32
  {
    NumberOfName(n);
    AskedIsReachable(w);
    RequestCountsAreExact(w, c);
    hide AskedReachable, Reachable, Name, Number;
  }

  /** One more request in the table. */
  lemma TableGrows(requests: map<RequestId, RequestKind>, n: nat)
    requires |requests| == n < NAMES && forall r | r in requests :: |r| == 7 && Number(r) < n
    ensures
      var requests' := requests[Name(n) := PlayRequest];
      |requests'| == n + 1 && forall r | r in requests' :: |r| == 7 && Number(r) < n + 1
  {
    NumberOfName(n);
    hide Number, Name;
    assert Name(n) !in requests;
    assert |requests[Name(n) := PlayRequest]| == |requests| + 1;
  }

  lemma PlayAccepted(w: State, c: ConnectionId, n: nat, sid: StreamId)
    requires c in w.conns && n < NAMES && !BadId(sid)
    requires Name(n) !in w.conns[c].requests && w.conns[c].requestCount <= w.limit
    ensures Refusal(w, c, Name(n), sid, true).None?
  {
    hide Name;
  }

  /** The n-th PLAY is accepted while the count is not above the limit. */
  lemma OneMorePlay(w: State, limit: nat, c: ConnectionId, n: nat, sid: StreamId) returns (w': State)
    requires HasPlays(w, limit, c, n) && n < NAMES && !BadId(sid) && n % UINT32 <= limit
    requires SignalingLaws.PlainValue(sid)
    ensures HasPlays(w', limit, c, n + 1)
  {
    hide AskedReachable, Name, Number, Refusal, ReceivePlay, BadId, SignalingLaws.PlainValue, RequestTexts.Asks;
    var req := Name(n);
    NameIsAsked(n, sid);
    NextNameIsNew(w, limit, c, n);
    PlayAccepted(w, c, n, sid);
    PlayResult(w, c, req, sid, true);
    AskedThen(w, Play(c, req, sid, true));
    w' := Next(w, Play(c, req, sid, true)).state;
    TableGrows(w.conns[c].requests, n);
    assert w'.conns[c].requests == w.conns[c].requests[req := PlayRequest];
  }

  lemma {:induction false} PlaysReached(limit: nat, c: ConnectionId, n: nat) returns (w: State)
    requires n <= limit + 1 || UINT32 - 1 <= limit
    requires n <= UINT32
    ensures HasPlays(w, limit, c, n)
    decreases n
  {
    hide HasPlays;
    if n == 0 {
      w := FirstConnection("a", limit, c);
    } else {
      var before := PlaysReached(limit, c, n - 1);
      w := OneMorePlay(before, limit, c, n - 1, "s");
    }
  }

  // ---------- The limit, exactly ----------

  /** With a limit from the largest uint32 up, nothing is ever refused for it. */
  lemma HugeLimitNeverRefuses(w: State, c: ConnectionId, req: RequestId, sid: StreamId, auth: bool)
    requires Reachable(w) && c in w.conns && UINT32 - 1 <= w.limit
    ensures Refusal(w, c, req, sid, auth) != Some(LimitRequests)
  {
    RequestCountsAreExact(w, c);
  }

  /** A request that a client can make is refused for the limit. */
  ghost predicate Refuses(w: State, limit: nat, c: ConnectionId, req: RequestId, sid: StreamId) {
    && AskedReachable(w) && w.limit == limit && c in w.conns
    && (exists raw :: RequestTexts.Asks(raw, PLAY, req, sid))
    && Refusal(w, c, req, sid, true) == Some(LimitRequests)
  }

  lemma AtTheLimit(w: State, limit: nat, c: ConnectionId)
    requires HasPlays(w, limit, c, limit + 1) && limit < UINT32 - 1
    ensures Refuses(w, limit, c, Name(limit + 1), "s")
  {
    assert SignalingLaws.PlainValue("s") && !BadId("s");
    hide AskedReachable, Name, Number, RequestTexts.Asks, SignalingLaws.PlainValue, Power;
    var req := Name(limit + 1);
    NextNameIsNew(w, limit, c, limit + 1);
    NameIsAsked(limit + 1, "s");
    SmallRemainder(limit + 1);
    OverTheLimit(w, c, req, "s");
  }

  lemma OverTheLimit(w: State, c: ConnectionId, req: RequestId, sid: StreamId)
    requires c in w.conns && !BadId(req) && !BadId(sid) && req !in w.conns[c].requests
    requires w.conns[c].requestCount > w.limit
    ensures Refusal(w, c, req, sid, true) == Some(LimitRequests)
  {
  }

  /** Some request in some run, all made by texts, is refused for the limit if and only if the limit is below the
      largest uint32. */
  lemma LimitBitesExactly(limit: nat)
    ensures (exists w, c, req, sid :: Refuses(w, limit, c, req, sid)) <==> limit < UINT32 - 1
  {
    if limit < UINT32 - 1 {
      var w := PlaysReached(limit, 0, limit + 1);
      AtTheLimit(w, limit, 0);
    } else {
      forall w, c, req, sid ensures !Refuses(w, limit, c, req, sid) {
        if AskedReachable(w) && w.limit == limit && c in w.conns {
          AskedIsReachable(w);
          HugeLimitNeverRefuses(w, c, req, sid, true);
        }
      }
    }
  }

  ghost predicate Miscounts(w: State, limit: nat, c: ConnectionId) {
    w.limit == limit && c in w.conns && w.conns[c].requestCount != |w.conns[c].requests|
  }

  /** A count that is not the size of its table is reached if and only if the limit is not below the largest
      uint32, and then by requests that texts make: 2^32 PLAY requests on one connection count as none. */
  lemma CountsAreSizesExactly(limit: nat)
    ensures (exists w, c :: Reachable(w) && Miscounts(w, limit, c)) <==> UINT32 - 1 <= limit
    ensures (exists w, c :: AskedReachable(w) && Miscounts(w, limit, c)) <==> UINT32 - 1 <= limit
  {
    if UINT32 - 1 <= limit {
      var w := PlaysReached(limit, 0, UINT32);
      AskedIsReachable(w);
      RequestCountsAreExact(w, 0);
      assert AskedReachable(w) && Reachable(w) && Miscounts(w, limit, 0);
    } else {
      forall w, c | Reachable(w) ensures !Miscounts(w, limit, c) {
        if w.limit == limit && c in w.conns { RequestCountsAreExact(w, c); }
      }
      forall w | AskedReachable(w) ensures Reachable(w) {
        AskedIsReachable(w);
      }
    }
  }
}
