/**
  The text format of the signaling messages: what a message is, as a declarative reading of
  its lines, and how one is printed. Characters are ASCII.
 */
module Signaling {

  datatype Message = Message(verb: string, params: map<string, string>, body: string)

  const NEWLINE: char := '\n'
  const COLON: char := ':'

  // ---------- The string operations used ----------

  function UpperChar(c: char): char {
    if 'a' <= c <= 'z' then (c as int - 32) as char else c
  }

  function LowerChar(c: char): char {
    if 'A' <= c <= 'Z' then (c as int + 32) as char else c
  }

  function Upper(s: string): string {
    seq(|s|, i requires 0 <= i < |s| => UpperChar(s[i]))
  }

  function Lower(s: string): string {
    seq(|s|, i requires 0 <= i < |s| => LowerChar(s[i]))
  }

  /** The cutset " \n\r\t". */
  predicate IsSpace(c: char) {
    c == ' ' || c == '\n' || c == '\r' || c == '\t'
  }

  function TrimLeft(s: string): string {
    if s != "" && IsSpace(s[0]) then TrimLeft(s[1..]) else s
  }

  function TrimRight(s: string): string {
    if s != "" && IsSpace(s[|s| - 1]) then TrimRight(s[..|s| - 1]) else s
  }

  function Trim(s: string): string {
    TrimRight(TrimLeft(s))
  }

  /** The position of the first `c`, or the length when there is none. */
  function Find(s: string, c: char): (i: nat)
    ensures i <= |s|
    ensures c !in s[..i]
    ensures i < |s| ==> s[i] == c
  {
    if s == "" || s[0] == c then 0 else 1 + Find(s[1..], c)
  }

  /** strings.Split(s, "\n"). */
  function Lines(s: string): (ls: seq<string>)
    ensures ls != []
    ensures forall l | l in ls :: NEWLINE !in l
  {
    var i := Find(s, NEWLINE);
    if i == |s| then [s] else [s[..i]] + Lines(s[i + 1..])
  }

  function Join(ls: seq<string>): string {
    if ls == [] then ""
    else if |ls| == 1 then ls[0]
    else ls[0] + "\n" + Join(ls[1..])
  }

  // ---------- What a message is ----------

  /** The position of the first empty line, or the number of lines. */
  function FirstEmpty(ls: seq<string>): (i: nat)
    ensures i <= |ls|
    ensures forall j | 0 <= j < i :: ls[j] != ""
    ensures i < |ls| ==> ls[i] == ""
  {
    if ls == [] || ls[0] == "" then 0 else 1 + FirstEmpty(ls[1..])
  }

  function NonEmpty(ls: seq<string>): seq<string> {
    if ls == [] then [] else (if ls[0] == "" then [] else [ls[0]]) + NonEmpty(ls[1..])
  }

  datatype Param = NoParam | Param(key: string, value: string)

  /** A header line is a parameter when it has a colon that is not its first character. */
  function ParamOf(line: string): Param {
    var i := Find(line, COLON);
    if 0 < i < |line| then Param(Lower(Trim(line[..i])), Trim(line[i + 1..])) else NoParam
  }

  function Set(params: map<string, string>, p: Param): map<string, string> {
    if p.Param? then params[p.key := p.value] else params
  }

  function ParamsOf(header: seq<string>): map<string, string> {
    if header == [] then map[] else Set(ParamsOf(header[..|header| - 1]), ParamOf(header[|header| - 1]))
  }

  function Header(rest: seq<string>): seq<string> {
    rest[..FirstEmpty(rest)]
  }

  function BodyLines(rest: seq<string>): seq<string> {
    NonEmpty(rest[FirstEmpty(rest)..])
  }

  /** The message a text stands for: its first line is the method, the lines up to the first empty one are the
      header, and the non-empty lines after it are the body. */
  function Parsed(raw: string): Message {
    var ls := Lines(raw);
    Message(Upper(Trim(ls[0])), ParamsOf(Header(ls[1..])), Join(BodyLines(ls[1..])))
  }

  predicate Sets(line: string, key: string) {
    ParamOf(line).Param? && ParamOf(line).key == key
  }

  /** A parameter's value is the one on the last header line with its normalised key. */
  lemma {:induction false} ParamsAreLastValues(header: seq<string>, key: string)
    ensures key in ParamsOf(header) <==> exists i :: 0 <= i < |header| && Sets(header[i], key)
    ensures forall i | 0 <= i < |header| && Sets(header[i], key)
                       && (forall j | i < j < |header| :: !Sets(header[j], key)) ::
              ParamsOf(header)[key] == ParamOf(header[i]).value
  {
    if header != [] {
      var n := |header| - 1;
      var before := header[..n];
      ParamsAreLastValues(before, key);
      forall i | 0 <= i < n ensures Sets(before[i], key) <==> Sets(header[i], key) {
      }
      forall i | 0 <= i < |header| && Sets(header[i], key) && (forall j | i < j < |header| :: !Sets(header[j], key))
        ensures ParamsOf(header)[key] == ParamOf(header[i]).value
      {
        if i < n {
          assert !Sets(header[n], key);
          assert before[i] == header[i] && forall j | i < j < |before| :: before[j] == header[j];
        }
      }
    }
  }

  // ---------- Parsing ----------

  lemma NonEmptyAppend(a: seq<string>, b: seq<string>)
    ensures NonEmpty(a + b) == NonEmpty(a) + NonEmpty(b)
  {
    if a == [] {
      assert a + b == b;
    } else {
      assert (a + b)[1..] == a[1..] + b;
    }
  }

  lemma JoinAppend(ls: seq<string>, l: string)
    requires ls != []
    ensures Join(ls + [l]) == Join(ls) + "\n" + l
  {
    if |ls| == 1 {
      assert (ls + [l])[1..] == [l];
    } else {
      assert (ls + [l])[1..] == ls[1..] + [l];
    }
  }

  /** How far the two flags, the parameters and the body have come after `k` of the lines after the first. */
  ghost predicate Progress(rest: seq<string>, k: nat, isBody: bool, firstLineBody: bool, msg: Message)
    requires k <= |rest|
  {
    var e := FirstEmpty(rest);
    if !isBody then
      k <= e && firstLineBody && msg.body == "" && msg.params == ParamsOf(rest[..k])
    else
      && e < k && msg.params == ParamsOf(Header(rest))
      && var soFar := NonEmpty(rest[e..k]);
      (firstLineBody <==> soFar == []) && msg.body == Join(soFar)
  }

  lemma BodyGrows(rest: seq<string>, e: nat, k: nat)
    requires e <= k < |rest|
    ensures NonEmpty(rest[e..k + 1]) == NonEmpty(rest[e..k]) + if rest[k] == "" then [] else [rest[k]]
  {
    assert rest[e..k + 1] == rest[e..k] + [rest[k]];
    NonEmptyAppend(rest[e..k], [rest[k]]);
  }

  lemma BeforeAllLines(rest: seq<string>, msg: Message)
    requires msg.params == map[] && msg.body == ""
    ensures Progress(rest, 0, false, true, msg)
  {
  }

  lemma AfterEmptyLine(rest: seq<string>, k: nat, isBody: bool, firstLineBody: bool, msg: Message)
    requires k < |rest| && rest[k] == "" && Progress(rest, k, isBody, firstLineBody, msg)
    ensures Progress(rest, k + 1, true, firstLineBody, msg)
  {
    var e := FirstEmpty(rest);
    if isBody {
      BodyGrows(rest, e, k);
      assert NonEmpty(rest[e..k]) + [] == NonEmpty(rest[e..k]);
    } else {
      assert e == k && rest[e..k + 1] == [""];
    }
  }

  lemma AfterBodyLine(rest: seq<string>, k: nat, firstLineBody: bool, msg: Message)
    requires k < |rest| && rest[k] != "" && Progress(rest, k, true, firstLineBody, msg)
    ensures
      Progress(rest, k + 1, true, false,
               msg.(body := if firstLineBody then rest[k] else msg.body + ("\n" + rest[k])))
  {
    var e := FirstEmpty(rest);
    BodyGrows(rest, e, k);
    var soFar := NonEmpty(rest[e..k]);
    if soFar == [] {
      assert [] + [rest[k]] == [rest[k]];
    } else {
      JoinAppend(soFar, rest[k]);
    }
  }

  lemma AfterHeaderLine(rest: seq<string>, k: nat, firstLineBody: bool, msg: Message)
    requires k < |rest| && rest[k] != "" && Progress(rest, k, false, firstLineBody, msg)
    ensures Progress(rest, k + 1, false, firstLineBody, msg.(params := Set(msg.params, ParamOf(rest[k]))))
  {
    assert rest[..k + 1][..k] == rest[..k];
  }

  lemma AfterAllLines(rest: seq<string>, isBody: bool, firstLineBody: bool, msg: Message)
    requires Progress(rest, |rest|, isBody, firstLineBody, msg)
    ensures msg.params == ParamsOf(Header(rest)) && msg.body == Join(BodyLines(rest))
  {
    var e := FirstEmpty(rest);
    assert rest[e..|rest|] == rest[e..];
    if !isBody {
      assert rest[..|rest|] == Header(rest) && BodyLines(rest) == [];
    }
  }

  /** parseSignalingMessage: one pass over the lines, with two flags. */
  method ParseSignalingMessage(raw: string) returns (msg: Message)
    ensures msg == Parsed(raw)
  {
    hide Progress, ParamsOf, Header, Join, BodyLines, Upper, Lower, Trim;
    var lines := Lines(raw);
    msg := Message(Upper(Trim(lines[0])), map[], "");
    var isBody, firstLineBody := false, true;
    ghost var rest := lines[1..];
    BeforeAllLines(rest, msg);
    for i := 1 to |lines|
      invariant msg.verb == Upper(Trim(lines[0]))
      invariant Progress(rest, i - 1, isBody, firstLineBody, msg)
    {
      var line := lines[i];
      if line == "" {
        AfterEmptyLine(rest, i - 1, isBody, firstLineBody, msg);
        isBody := true;
      } else if isBody {
        AfterBodyLine(rest, i - 1, firstLineBody, msg);
        if firstLineBody {
          msg := msg.(body := line);
          firstLineBody := false;
        } else {
          msg := msg.(body := msg.body + ("\n" + line));
        }
      } else {
        AfterHeaderLine(rest, i - 1, firstLineBody, msg);
        var colonIndex := Find(line, COLON);
        if 0 < colonIndex < |line| {
          var key := Lower(Trim(line[..colonIndex]));
          var val := Trim(line[colonIndex + 1..]);
          msg := msg.(params := msg.params[key := val]);
        }
      }
    }
    AfterAllLines(rest, isBody, firstLineBody, msg);
  }

  // ---------- Printing ----------

  function PrintParams(params: map<string, string>, order: seq<string>): string
    requires forall k | k in order :: k in params
  {
    if order == [] then ""
    else
      order[0] + ":" + params[order[0]] + "\n" + PrintParams(params, order[1..])
  }

  /** `order` lists the keys of `params`, each once: an order in which a Go range may visit them. */
  predicate IsOrder(order: seq<string>, params: map<string, string>) {
    && (set k | k in order) == params.Keys
    && (forall i, j | 0 <= i < j < |order| :: order[i] != order[j])
  }

  function Printed(m: Message, order: seq<string>): string
    requires IsOrder(order, m.params)
  {
    assert forall k | k in order :: k in (set x | x in order);
    Upper(m.verb) + "\n" + PrintParams(m.params, order) + if m.body == "" then "" else "\n" + m.body
  }

  lemma PrintParamsAppend(params: map<string, string>, order: seq<string>, k: string)
    requires k in params && forall x | x in order :: x in params
    ensures PrintParams(params, order + [k]) == PrintParams(params, order) + (k + ":" + params[k] + "\n")
  {
    if order == [] {
      assert order + [k] == [k] && [k][1..] == [];
      assert PrintParams(params, []) == "";
    } else {
      assert (order + [k])[1..] == order[1..] + [k];
      PrintParamsAppend(params, order[1..], k);
    }
  }

  /** serialize: the map is visited in an order the program does not choose. */
  method Serialize(m: Message) returns (raw: string)
    ensures exists order :: IsOrder(order, m.params) && raw == Printed(m, order)
  {
    raw := Upper(m.verb) + "\n";
    ghost var order: seq<string> := [];
    var todo := m.params.Keys;
    while todo != {}
      invariant todo <= m.params.Keys
      invariant forall k :: k in order <==> k in m.params.Keys - todo
      invariant forall i, j | 0 <= i < j < |order| :: order[i] != order[j]
      invariant raw == Upper(m.verb) + "\n" + PrintParams(m.params, order)
    {
      var key :| key in todo;
      assert key !in order;
      PrintParamsAppend(m.params, order, key);
      raw := raw + (key + ":" + m.params[key] + "\n");
      order := order + [key];
      todo := todo - {key};
    }
    if m.body != "" {
      raw := raw + ("\n" + m.body);
    }
    assert IsOrder(order, m.params);
  }
}
