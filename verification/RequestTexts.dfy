/**
  Which PUBLISH and PLAY requests a client's text can make: what the handlers read out of a parsed message.
 */
module RequestTexts {
  import opened Signaling
  import opened SignalingLaws
  import Spelling
  import opened Requests

  const REQUEST_ID: string := "request-id"
  const STREAM_ID: string := "stream-id"

  /** A parameter that is missing reads as the empty string. */
  function Get(m: Message, key: string): string {
    if key in m.params then m.params[key] else ""
  }

  /** The text is a message with this method, request id and stream id. */
  predicate Asks(raw: string, verb: string, req: string, sid: string) {
    var m := Parsed(raw);
    m.verb == verb && Get(m, REQUEST_ID) == req && Get(m, STREAM_ID) == sid
  }

  function Request(verb: string, req: string, sid: string): Message {
    Message(verb, map[REQUEST_ID := req, STREAM_ID := sid], "")
  }

  lemma KeysAreLower()
    ensures Lower(REQUEST_ID) == REQUEST_ID && Lower(STREAM_ID) == STREAM_ID && REQUEST_ID != STREAM_ID
    ensures PlainKey(REQUEST_ID) && PlainKey(STREAM_ID)
  {
    assert REQUEST_ID[0] != STREAM_ID[0];
  }

  lemma RequestIsPrintable(verb: string, req: string, sid: string)
    requires PlainValue(verb) && PlainValue(req) && PlainValue(sid)
    ensures Printable(Request(verb, req, sid))
    ensures IsOrder([REQUEST_ID, STREAM_ID], Request(verb, req, sid).params)
  {
    KeysAreLower();
    var order := [REQUEST_ID, STREAM_ID];
    assert order[0] == REQUEST_ID && order[1] == STREAM_ID;
    assert (set k | k in order) == Request(verb, req, sid).params.Keys;
  }

  lemma PrintedRequestAsks(verb: string, req: string, sid: string) returns (raw: string)
    requires PlainValue(verb) && Upper(verb) == verb && PlainValue(req) && PlainValue(sid)
    ensures Asks(raw, verb, req, sid)
  {
    var m, order := Request(verb, req, sid), [REQUEST_ID, STREAM_ID];
    RequestIsPrintable(verb, req, sid);
    raw := Printed(m, order);
    KeysAreLower();
    hide Parsed, Printed, Printable, IsOrder, Upper, Lower, PlainKey, PlainValue, Condensed, SolidBody;
    PrintThenParse(m, order);
    assert REQUEST_ID in m.params && STREAM_ID in m.params;
  }

  lemma GetsPlain(raw: string, key: string)
    ensures PlainValue(Get(Parsed(raw), key))
  {
    hide Parsed;
    ParsedIsPrintable(raw);
  }

  /** Some text asks for a stream under a request id if and only if neither has a line break or a blank end. */
  lemma AskableExactly(verb: string, req: string, sid: string)
    requires PlainValue(verb) && Upper(verb) == verb
    ensures (exists raw :: Asks(raw, verb, req, sid)) <==> PlainValue(req) && PlainValue(sid)
  {
    hide Parsed, PlainValue, Upper;
    if PlainValue(req) && PlainValue(sid) {
      var raw := PrintedRequestAsks(verb, req, sid);
      assert Asks(raw, verb, req, sid);
    }
    forall raw | Asks(raw, verb, req, sid) ensures PlainValue(req) && PlainValue(sid) {
      GetsPlain(raw, REQUEST_ID);
      GetsPlain(raw, STREAM_ID);
    }
  }

  // ---------- Keys as the documentation spells them ----------

  /** A text of three lines: a method, and two headers with a blank after the colon. */
  function TwoHeaders(verb: string, k1: string, v1: string, k2: string, v2: string): string {
    verb + "\n" + (k1 + ": " + v1 + "\n" + (k2 + ": " + v2))
  }

  lemma HeaderReads(k: string, v: string)
    requires PlainKey(k) && k != "" && PlainValue(v)
    ensures ParamOf(k + ": " + v) == Param(Lower(k), v)
  {
    assert k + ": " + v == k + ":" + (" " + v);
    Spelling.ParameterExactly(k + ":" + (" " + v));
    TrimTrimmed(k);
    TrimAfterBlank(v);
  }

  lemma TrimAfterBlank(v: string)
    requires PlainValue(v)
    ensures Trim(" " + v) == v
  {
    assert (" " + v)[1..] == v;
    TrimTrimmed(v);
    if v == "" { assert " " + v == " " && TrimLeft(" ") == TrimLeft(""); }
  }

  /** A header line `k: v`, wherever it stands, is what is read under the key `k` in small letters, if no later line
      of the header has that key too. */
  lemma HeaderLineIsRead(raw: string, i: nat, k: string, v: string)
    requires i < |Header(Lines(raw)[1..])| && Header(Lines(raw)[1..])[i] == k + ": " + v
    requires PlainKey(k) && k != "" && PlainValue(v)
    requires forall j | i < j < |Header(Lines(raw)[1..])| :: !Sets(Header(Lines(raw)[1..])[j], Lower(k))
    ensures Get(Parsed(raw), Lower(k)) == v
  {
    var header := Header(Lines(raw)[1..]);
    HeaderReads(k, v);
    assert Sets(header[i], Lower(k));
    ParamsAreLastValues(header, Lower(k));
  }

  lemma TwoHeadersRead(verb: string, k1: string, v1: string, k2: string, v2: string)
    requires PlainValue(verb) && Upper(verb) == verb && PlainKey(k1) && PlainKey(k2) && k1 != "" && k2 != ""
    requires PlainValue(v1) && PlainValue(v2)
    ensures
      var m := Parsed(TwoHeaders(verb, k1, v1, k2, v2));
      m.verb == verb && m.params == map[Lower(k1) := v1][Lower(k2) := v2]
  {
    var l1, l2 := k1 + ": " + v1, k2 + ": " + v2;
    assert NEWLINE !in l1 && NEWLINE !in l2 && l1 != "" && l2 != "";
    LinesCons(verb, l1 + "\n" + l2);
    TextLines(l1, l2);
    assert ([verb] + [l1, l2])[1..] == [l1, l2] && ([verb] + [l1, l2])[0] == verb;
    HeaderReads(k1, v1);
    HeaderReads(k2, v2);
    TrimTrimmed(verb);
    TwoHeaderLines(l1, l2);
  }

  lemma TwoHeaderLines(l1: string, l2: string)
    requires l1 != "" && l2 != ""
    ensures ParamsOf(Header([l1, l2])) == Set(Set(map[], ParamOf(l1)), ParamOf(l2))
  {
    assert Header([l1, l2]) == [l1, l2] by {
      assert [l1, l2][1..] == [l2] && [l2][1..] == [];
      assert FirstEmpty([]) == 0 && FirstEmpty([l2]) == 1 && FirstEmpty([l1, l2]) == 2;
    }
    OneHeaderLine(l1);
    assert [l1, l2][..1] == [l1];
    assert ParamsOf([l1, l2]) == Set(ParamsOf([l1]), ParamOf(l2));
  }

  /** The keys can be written in large or small letters: the text asks for the same. */
  lemma AnySpellingAsks(verb: string, k1: string, req: string, k2: string, sid: string)
    requires PlainValue(verb) && Upper(verb) == verb && PlainValue(req) && PlainValue(sid)
    requires PlainKey(k1) && PlainKey(k2) && Lower(k1) == REQUEST_ID && Lower(k2) == STREAM_ID
    ensures Asks(TwoHeaders(verb, k1, req, k2, sid), verb, req, sid)
  {
    KeysAreLower();
    hide Parsed, TwoHeaders, PlainKey, PlainValue, Upper;
    assert Lower("") == "";
    TwoHeadersRead(verb, k1, req, k2, sid);
  }

  const REQUEST_ID_HEADER: string := "Request-ID"
  const STREAM_ID_HEADER: string := "Stream-ID"

  lemma HeadersAreKeys()
    ensures Lower(REQUEST_ID_HEADER) == REQUEST_ID && Lower(STREAM_ID_HEADER) == STREAM_ID
    ensures PlainKey(REQUEST_ID_HEADER) && PlainKey(STREAM_ID_HEADER)
  {
  }

  /** So does the documented spelling, for every request id and stream id that a text can carry. */
  lemma DocumentedSpellingAsks(verb: string, req: string, sid: string)
    requires PlainValue(verb) && Upper(verb) == verb && PlainValue(req) && PlainValue(sid)
    ensures Asks(TwoHeaders(verb, REQUEST_ID_HEADER, req, STREAM_ID_HEADER, sid), verb, req, sid)
  {
    HeadersAreKeys();
    AnySpellingAsks(verb, REQUEST_ID_HEADER, req, STREAM_ID_HEADER, sid);
  }

  // ---------- Stream types ----------

  const STREAM_TYPE: string := "stream-type"

  /** What receivePublishMessage makes of the stream type. */
  function TypeOf(m: Signaling.Message): StreamType {
    var t := Upper(Get(m, STREAM_TYPE));
    if t == "AUDIO" then AudioType else if t == "VIDEO" then VideoType else DualType
  }

  /** The documented types, in large or small letters, name one kind of track or both; so does a type that is
      missing. */
  lemma DocumentedTypes(m: Signaling.Message)
    ensures Get(m, STREAM_TYPE) in ["AUDIO", "audio"] ==> TypeOf(m) == AudioType
    ensures Get(m, STREAM_TYPE) in ["VIDEO", "video"] ==> TypeOf(m) == VideoType
    ensures Get(m, STREAM_TYPE) in ["DUAL", "dual"] || STREAM_TYPE !in m.params ==> TypeOf(m) == DualType
  {
    assert Upper("audio") == "AUDIO" && Upper("AUDIO") == "AUDIO";
    assert Upper("video") == "VIDEO" && Upper("VIDEO") == "VIDEO" && "VIDEO"[0] != "AUDIO"[0];
    assert Upper("dual")[0] == 'D' && Upper("DUAL")[0] == 'D' && Upper("") == "";
  }
}
