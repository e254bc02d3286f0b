/**
  Printing and parsing are inverse: the exact round trips of the signaling format.
 */
module SignalingLaws {
  import opened Signaling

  // ---------- Trimming and case ----------

  predicate Trimmed(s: string) {
    s != "" ==> !IsSpace(s[0]) && !IsSpace(s[|s| - 1])
  }

  lemma TrimLeftIs(s: string)
    ensures TrimLeft(s) <= s || exists i :: 0 <= i <= |s| && TrimLeft(s) == s[i..]
    ensures TrimLeft(s) != "" ==> !IsSpace(TrimLeft(s)[0])
    ensures forall c | c in TrimLeft(s) :: c in s
  {
  }

  lemma TrimRightIs(s: string)
    ensures TrimRight(s) <= s
    ensures TrimRight(s) != "" ==> !IsSpace(TrimRight(s)[|TrimRight(s)| - 1])
    ensures forall c | c in TrimRight(s) :: c in s
  {
  }

  lemma TrimIs(s: string)
    ensures Trimmed(Trim(s)) && forall c | c in Trim(s) :: c in s
  {
    TrimLeftIs(s);
    TrimRightIs(TrimLeft(s));
  }

  lemma TrimTrimmed(s: string)
    requires Trimmed(s)
    ensures Trim(s) == s
  {
  }

  lemma UpperKeeps(s: string)
    ensures Trimmed(s) ==> Trimmed(Upper(s))
    ensures Upper(Upper(s)) == Upper(s)
    ensures NEWLINE !in s ==> NEWLINE !in Upper(s)
  {
  }

  lemma LowerKeeps(s: string)
    ensures Trimmed(s) ==> Trimmed(Lower(s))
    ensures Lower(Lower(s)) == Lower(s)
    ensures NEWLINE !in s ==> NEWLINE !in Lower(s)
    ensures COLON !in s ==> COLON !in Lower(s)
    ensures Lower(s) == "" <==> s == ""
  {
  }

  // ---------- Lines ----------

  lemma NotBefore(s: string, i: nat, c: char)
    requires i <= |s| && c !in s[..i]
    ensures forall j | 0 <= j < i :: s[j] != c
  {
    forall j | 0 <= j < i ensures s[j] != c {
      assert s[j] == s[..i][j];
    }
  }

  lemma FindAfter(a: string, c: char, b: string)
    requires c !in a
    ensures Find(a + [c] + b, c) == |a|
  {
    var s := a + [c] + b;
    NotBefore(s, Find(s, c), c);
    assert s[|a|] == c && forall j | 0 <= j < |a| :: s[j] == a[j];
  }

  lemma FindNone(a: string, c: char)
    requires c !in a
    ensures Find(a, c) == |a|
  {
  }

  lemma LinesCons(a: string, b: string)
    requires NEWLINE !in a
    ensures Lines(a + "\n" + b) == [a] + Lines(b)
  {
    var s := a + "\n" + b;
    FindAfter(a, NEWLINE, b);
    assert s[..|a|] == a && s[|a| + 1..] == b;
  }

  lemma LinesOne(a: string)
    requires NEWLINE !in a
    ensures Lines(a) == [a]
  {
    FindNone(a, NEWLINE);
  }

  lemma {:induction false} JoinLines(s: string)
    ensures Join(Lines(s)) == s
    decreases |s|
  {
    var i := Find(s, NEWLINE);
    if i < |s| {
      var rest := s[i + 1..];
      JoinLines(rest);
      FirstLine(s);
      hide Lines, Join;
      JoinCons(s[..i], Lines(rest));
      assert s == s[..i] + "\n" + rest;
    }
  }

  /** A text with a newline is its first line and the lines of the rest. */
  lemma FirstLine(s: string)
    requires Find(s, NEWLINE) < |s|
    ensures Lines(s) == [s[..Find(s, NEWLINE)]] + Lines(s[Find(s, NEWLINE) + 1..])
  {
  }

  lemma JoinCons(l: string, ls: seq<string>)
    requires ls != []
    ensures Join([l] + ls) == l + "\n" + Join(ls)
  {
    assert ([l] + ls)[1..] == ls;
  }

  lemma {:induction false} LinesJoin(ls: seq<string>)
    requires ls != [] && forall l | l in ls :: NEWLINE !in l
    ensures Lines(Join(ls)) == ls
  {
    if |ls| == 1 {
      LinesOne(ls[0]);
    } else {
      LinesCons(ls[0], Join(ls[1..]));
      LinesJoin(ls[1..]);
    }
  }

  lemma NonEmptyIsSublist(ls: seq<string>)
    ensures forall l | l in NonEmpty(ls) :: l in ls && l != ""
    ensures "" !in ls ==> NonEmpty(ls) == ls
  {
  }

  /** A body is empty, or it has no empty line. */
  predicate SolidBody(body: string) {
    body == "" || "" !in Lines(body)
  }

  /** A body without its empty lines. */
  function Condensed(body: string): string {
    Join(NonEmpty(Lines(body)))
  }

  /** Condensing changes exactly the bodies that have an empty line. */
  lemma CondensedExactly(body: string)
    ensures Condensed(body) == body <==> SolidBody(body)
  {
    var kept := NonEmpty(Lines(body));
    NonEmptyIsSublist(Lines(body));
    if "" !in Lines(body) {
      JoinLines(body);
    } else if kept != [] {
      LinesJoin(kept);
      assert "" !in Lines(Join(kept));
      assert "" in Lines("") by { LinesOne(""); }
    } else if body == "" {
      LinesOne("");
    }
  }

  lemma JoinIsSolid(ls: seq<string>)
    requires forall l | l in ls :: l != "" && NEWLINE !in l
    ensures SolidBody(Join(ls))
  {
    if ls != [] { LinesJoin(ls); }
  }

  // ---------- Header lines ----------

  function HeaderLines(params: map<string, string>, order: seq<string>): (ls: seq<string>)
    requires forall k | k in order :: k in params
    ensures |ls| == |order|
    ensures forall i | 0 <= i < |order| :: ls[i] == order[i] + ":" + params[order[i]]
  {
    seq(|order|, i requires 0 <= i < |order| => order[i] + ":" + params[order[i]])
  }

  predicate PlainKey(k: string) {
    Trimmed(k) && NEWLINE !in k && COLON !in k
  }

  predicate PlainValue(v: string) {
    Trimmed(v) && NEWLINE !in v
  }

  predicate PlainParams(params: map<string, string>) {
    forall k | k in params :: PlainKey(k) && PlainValue(params[k])
  }

  lemma Regroup(k: string, v: string, more: string, rest: string)
    ensures k + ":" + v + "\n" + more + rest == (k + ":" + v) + "\n" + (more + rest)
  {
  }

  lemma LineOfParam(k: string, v: string)
    requires PlainKey(k) && PlainValue(v)
    ensures NEWLINE !in k + ":" + v
  {
  }

  lemma {:induction false} LinesOfParams(params: map<string, string>, order: seq<string>, rest: string)
    requires PlainParams(params) && forall k | k in order :: k in params
    ensures Lines(PrintParams(params, order) + rest) == HeaderLines(params, order) + Lines(rest)
  {
    hide Lines, PlainKey, PlainValue, HeaderLines;
    if order == [] {
      assert "" + rest == rest && [] + Lines(rest) == Lines(rest);
    } else {
      var k := order[0];
      assert k in order && forall x | x in order[1..] :: x in order;
      var line := k + ":" + params[k];
      var more := PrintParams(params, order[1..]);
      LinesOfParams(params, order[1..], rest);
      Regroup(k, params[k], more, rest);
      LineOfParam(k, params[k]);
      LinesCons(line, more + rest);
      HeaderLinesCons(params, order);
      assert [line] + HeaderLines(params, order[1..]) + Lines(rest)
          == [line] + (HeaderLines(params, order[1..]) + Lines(rest));
    }
  }

  lemma HeaderLinesCons(params: map<string, string>, order: seq<string>)
    requires order != [] && forall k | k in order :: k in params
    ensures (forall k | k in order[1..] :: k in params)
    ensures HeaderLines(params, order) == [order[0] + ":" + params[order[0]]] + HeaderLines(params, order[1..])
  {
  }

  /** A printed parameter reads back with its key lower-cased; one with an empty key does not read back. */
  lemma ParamReadsBack(k: string, v: string)
    requires PlainKey(k) && PlainValue(v)
    ensures ParamOf(k + ":" + v) == if k == "" then NoParam else Param(Lower(k), v)
  {
    var line := k + ":" + v;
    FindAfter(k, COLON, v);
    assert line[..|k|] == k && line[|k| + 1..] == v;
    TrimTrimmed(k);
    TrimTrimmed(v);
  }

  // ---------- Parameters ----------

  /** `read` has, under the lower-cased key, the value of every parameter whose key is not empty, and nothing else. */
  predicate ReadsAs(params: map<string, string>, read: map<string, string>) {
    && (forall k | k in params && k != "" :: Lower(k) in read && read[Lower(k)] == params[k])
    && (forall x | x in read :: exists k :: k in params && k != "" && x == Lower(k))
  }

  predicate DistinctWhenLowered(params: map<string, string>) {
    forall j, k | j in params && k in params && Lower(j) == Lower(k) :: j == k
  }

  /** `read` has the parameters of `params` whose keys are in `order`, and nothing else. */
  predicate ReadsOrder(params: map<string, string>, order: seq<string>, read: map<string, string>)
    requires forall k | k in order :: k in params
  {
    && (forall k | k in order && k != "" :: Lower(k) in read && read[Lower(k)] == params[k])
    && (forall x | x in read :: exists k :: k in order && k != "" && x == Lower(k))
  }

  lemma OneMoreReads(params: map<string, string>, before: seq<string>, last: string, read: map<string, string>)
    requires PlainParams(params) && DistinctWhenLowered(params) && last in params
    requires (forall k | k in before :: k in params) && ReadsOrder(params, before, read)
    ensures ReadsOrder(params, before + [last], Set(read, if last == "" then NoParam else Param(Lower(last), params[last])))
  {
    var read' := Set(read, if last == "" then NoParam else Param(Lower(last), params[last]));
    assert last in before + [last];
    forall x | x in read' ensures exists k :: k in before + [last] && k != "" && x == Lower(k) {
      if x in read {
        var k :| k in before && k != "" && x == Lower(k);
        assert k in before + [last];
      }
    }
  }

  lemma {:induction false} ParamsReadBack(params: map<string, string>, order: seq<string>)
    requires PlainParams(params) && DistinctWhenLowered(params) && (forall k | k in order :: k in params)
    ensures ReadsOrder(params, order, ParamsOf(HeaderLines(params, order)))
  {
    if order != [] {
      var n := |order| - 1;
      var before, last := order[..n], order[n];
      assert order == before + [last];
      assert last in order && forall k | k in before :: k in order;
      ParamsReadBack(params, before);
      OneMoreLine(params, before, last);
      hide ParamsOf, HeaderLines, ReadsOrder, PlainParams, DistinctWhenLowered;
      OneMoreReads(params, before, last, ParamsOf(HeaderLines(params, before)));
    }
  }

  /** What the last printed parameter adds when it is read. */
  lemma OneMoreLine(params: map<string, string>, before: seq<string>, last: string)
    requires PlainParams(params) && last in params && forall k | k in before :: k in params
    ensures forall k | k in before + [last] :: k in params
    ensures ParamsOf(HeaderLines(params, before + [last])) ==
            Set(ParamsOf(HeaderLines(params, before)), if last == "" then NoParam else Param(Lower(last), params[last]))
  {
    hide Lower, ParamOf, Trimmed;
    ParamReadsBack(last, params[last]);
    var lines := HeaderLines(params, before + [last]);
    assert lines == HeaderLines(params, before) + [last + ":" + params[last]];
    assert lines[..|lines| - 1] == HeaderLines(params, before);
  }

  // ---------- The laws ----------

  /** A message whose method and parameters its text can carry: nothing is lost to trimming, splitting or a
      repeated key. */
  predicate Printable(m: Message) {
    && Trimmed(m.verb) && NEWLINE !in m.verb
    && PlainParams(m.params) && DistinctWhenLowered(m.params)
  }

  /** The lines of a printed message. */
  lemma PrintedLines(m: Message, order: seq<string>)
    requires Printable(m) && IsOrder(order, m.params)
    ensures (forall k | k in order :: k in m.params)
    ensures Lines(Printed(m, order))
         == [Upper(m.verb)] + (HeaderLines(m.params, order) + (if m.body == "" then [""] else [""] + Lines(m.body)))
  {
    hide Lines, PlainParams, Trimmed, Upper;
    OrderCovers(m.params, order);
    var tail := if m.body == "" then "" else "\n" + m.body;
    UpperKeeps(m.verb);
    Associates(Upper(m.verb) + "\n", PrintParams(m.params, order), tail);
    LinesCons(Upper(m.verb), PrintParams(m.params, order) + tail);
    LinesOfParams(m.params, order, tail);
    LinesOfTail(m.body);
  }

  lemma Associates(a: string, b: string, c: string)
    ensures a + b + c == a + (b + c)
  {
  }

  lemma LinesOfTail(body: string)
    ensures Lines(if body == "" then "" else "\n" + body) == if body == "" then [""] else [""] + Lines(body)
  {
    if body == "" {
      LinesOne("");
    } else {
      assert "\n" + body == "" + "\n" + body;
      LinesCons("", body);
    }
  }

  lemma {:induction false} FirstEmptyAfter(header: seq<string>, rest: seq<string>)
    requires "" !in header && rest != [] && rest[0] == ""
    ensures FirstEmpty(header + rest) == |header|
  {
    if header == [] {
      assert header + rest == rest;
    } else {
      assert header[0] in header && (header + rest)[1..] == header[1..] + rest;
      FirstEmptyAfter(header[1..], rest);
    }
  }

  lemma HeaderLinesNotEmpty(params: map<string, string>, order: seq<string>)
    requires forall k | k in order :: k in params
    ensures "" !in HeaderLines(params, order)
  {
  }

  /** Print, then parse: whatever order the parameters are printed in, a printable message reads back with
      its method upper-cased, its keys lower-cased and its values as they were, with only a parameter with an
      empty key missing; and its body reads back exactly when the body has no empty line. */
  lemma PrintThenParse(m: Message, order: seq<string>)
    requires Printable(m) && IsOrder(order, m.params)
    ensures
      var back := Parsed(Printed(m, order));
      && back.verb == Upper(m.verb) && ReadsAs(m.params, back.params)
      && back.body == Condensed(m.body) && (back.body == m.body <==> SolidBody(m.body))
  {
    PrintedLines(m, order);
    var header := HeaderLines(m.params, order);
    var after := if m.body == "" then [""] else [""] + Lines(m.body);
    var ls := Lines(Printed(m, order));
    var rest := header + after;
    assert ls[1..] == rest;
    HeaderLinesNotEmpty(m.params, order);
    FirstEmptyAfter(header, after);
    assert rest[..|header|] == header && rest[|header|..] == after;
    UpperKeeps(m.verb);
    TrimTrimmed(Upper(m.verb));
    ParamsReadBack(m.params, order);
    OrderCovers(m.params, order);
    BodyReadsBack(m.body, after);
    CondensedExactly(m.body);
  }

  lemma OrderCovers(params: map<string, string>, order: seq<string>)
    requires IsOrder(order, params)
    ensures forall k :: k in params <==> k in order
  {
    forall k ensures k in params <==> k in order {
      assert k in params.Keys <==> k in (set x | x in order);
    }
  }

  lemma BodyReadsBack(body: string, after: seq<string>)
    requires after == if body == "" then [""] else [""] + Lines(body)
    ensures Join(NonEmpty(after)) == Condensed(body)
  {
    if body == "" {
      LinesOne("");
    } else {
      assert after[1..] == Lines(body) && NonEmpty(after) == [] + NonEmpty(after[1..]);
      assert [] + NonEmpty(Lines(body)) == NonEmpty(Lines(body));
    }
  }

  // ---------- What parsing yields ----------

  lemma {:induction false} ParsedParamsPlain(header: seq<string>)
    requires forall l | l in header :: NEWLINE !in l
    ensures PlainParams(ParamsOf(header))
    ensures forall k | k in ParamsOf(header) :: Lower(k) == k
  {
    if header != [] {
      var n := |header| - 1;
      assert forall l | l in header[..n] :: l in header;
      ParsedParamsPlain(header[..n]);
      var line := header[n];
      assert line in header;
      var i := Find(line, COLON);
      if 0 < i < |line| {
        KeyOf(line, i);
      }
    }
  }

  lemma KeyOf(line: string, i: nat)
    requires NEWLINE !in line && i < |line| && COLON !in line[..i]
    ensures PlainKey(Lower(Trim(line[..i]))) && PlainValue(Trim(line[i + 1..]))
    ensures Lower(Lower(Trim(line[..i]))) == Lower(Trim(line[..i]))
  {
    TrimIs(line[..i]);
    TrimIs(line[i + 1..]);
    LowerKeeps(Trim(line[..i]));
  }

  /** Whatever the text, the message read from it can be printed and loses nothing but an empty key. */
  lemma ParsedIsPrintable(raw: string)
    ensures Printable(Parsed(raw)) && SolidBody(Parsed(raw).body) && Upper(Parsed(raw).verb) == Parsed(raw).verb
    ensures forall k | k in Parsed(raw).params :: Lower(k) == k
  {
    var ls := Lines(raw);
    var rest := ls[1..];
    assert ls[0] in ls && forall l | l in rest :: l in ls;
    TrimIs(ls[0]);
    UpperKeeps(Trim(ls[0]));
    ParsedParamsPlain(Header(rest));
    var tail := rest[FirstEmpty(rest)..];
    assert forall l | l in tail :: l in rest;
    NonEmptyIsSublist(tail);
    JoinIsSolid(NonEmpty(tail));
  }

  /** Parse, print in any order, parse again: the same message, without the parameter whose key is empty. */
  lemma Reparse(raw: string, order: seq<string>)
    requires IsOrder(order, Parsed(raw).params)
    ensures
      var m := Parsed(raw);
      Parsed(Printed(m, order)) == m.(params := m.params - {""})
  {
    hide Parsed, Printed, ReadsAs, Printable, IsOrder;
    var m := Parsed(raw);
    ParsedIsPrintable(raw);
    PrintThenParse(m, order);
    OnlyEmptyKeyLost(m.params, Parsed(Printed(m, order)).params);
  }

  lemma OnlyEmptyKeyLost(params: map<string, string>, read: map<string, string>)
    requires ReadsAs(params, read) && forall k | k in params :: Lower(k) == k
    ensures read == params - {""}
  {
    assert read.Keys == params.Keys - {""};
  }

  /** A line whose key is blank: it has a colon, not as its first character, and nothing but space before it. */
  predicate HasBlankKey(line: string) {
    var i := Find(line, COLON);
    0 < i < |line| && Trim(line[..i]) == ""
  }

  lemma BlankKeySets(line: string)
    ensures Sets(line, "") <==> HasBlankKey(line)
  {
  }

  predicate HasBlankKeyLine(header: seq<string>) {
    exists i :: 0 <= i < |header| && HasBlankKey(header[i])
  }

  /** A text has the empty-key parameter if and only if a line of its header has a blank key. */
  lemma EmptyKeyExactly(raw: string)
    ensures "" in Parsed(raw).params <==> HasBlankKeyLine(Header(Lines(raw)[1..]))
  {
    var header := Header(Lines(raw)[1..]);
    ParamsAreLastValues(header, "");
    hide Sets, HasBlankKey;
    forall i | 0 <= i < |header| ensures Sets(header[i], "") <==> HasBlankKey(header[i]) {
      BlankKeySets(header[i]);
    }
  }

  /** So the round trip is exact if and only if no line of the text's header has a blank key. */
  lemma ReparseExactly(raw: string, order: seq<string>)
    requires IsOrder(order, Parsed(raw).params)
    ensures Parsed(Printed(Parsed(raw), order)) == Parsed(raw) <==> !HasBlankKeyLine(Header(Lines(raw)[1..]))
  {
    hide Parsed, Printed, IsOrder, HasBlankKeyLine;
    var m := Parsed(raw);
    Reparse(raw, order);
    EmptyKeyExactly(raw);
    if "" !in m.params {
      assert m.params - {""} == m.params;
    } else {
      assert "" !in (m.params - {""});
    }
  }

  // ---------- Inputs that do not come back ----------

  lemma TextLines(a: string, b: string)
    requires NEWLINE !in a && NEWLINE !in b
    ensures Lines(a + "\n" + b) == [a, b]
  {
    LinesCons(a, b);
    LinesOne(b);
    assert [a] + [b] == [a, b];
  }

  lemma OneHeaderLine(line: string)
    requires line != ""
    ensures Header([line]) == [line] && ParamsOf([line]) == Set(map[], ParamOf(line))
  {
    assert [line][1..] == [] && [line][..0] == [];
    assert FirstEmpty([]) == 0 && FirstEmpty([line]) == 1;
  }

  lemma ParamWithBlankKey()
    ensures ParamOf(" :x") == Param("", "x") && HasBlankKey(" :x")
  {
    FindAfter(" ", COLON, "x");
    assert " " + [COLON] + "x" == " :x";
    assert " :x"[..1] == " " && " :x"[2..] == "x" && " "[1..] == "";
    TrimTrimmed("x");
  }

  /** This text has the empty-key parameter, and does not come back. */
  lemma BlankKeyIsLost(order: seq<string>)
    requires IsOrder(order, Parsed("P\n :x").params)
    ensures "" in Parsed("P\n :x").params
    ensures Parsed(Printed(Parsed("P\n :x"), order)) != Parsed("P\n :x")
  {
    hide Parsed, Printed, IsOrder, Lines, Header, HasBlankKey;
    var raw, line := "P\n :x", " :x";
    assert raw == "P" + "\n" + line;
    TextLines("P", line);
    assert ["P", line][1..] == [line];
    OneHeaderLine(line);
    ParamWithBlankKey();
    assert HasBlankKey([line][0]);
    EmptyKeyExactly(raw);
    ReparseExactly(raw, order);
  }

  lemma ThreeLines(a: string, b: string)
    requires NEWLINE !in a && NEWLINE !in b && a != "" && b != ""
    ensures Condensed(a + "\n" + ("" + "\n" + b)) == a + "\n" + b
  {
    LinesCons(a, "" + "\n" + b);
    LinesCons("", b);
    LinesOne(b);
    hide Lines, Join;
    assert Lines(a + "\n" + ("" + "\n" + b)) == [a] + ([""] + [b]);
    NonEmptyAppend([a], [""] + [b]);
    NonEmptyAppend([""], [b]);
    assert NonEmpty([]) == [] && [a][1..] == [] && [""][1..] == [] && [b][1..] == [];
    assert NonEmpty([a]) == [a] && NonEmpty([""]) == [] && NonEmpty([b]) == [b];
    assert [] + [b] == [b];
    JoinCons(a, [b]);
    JoinOne(b);
  }

  lemma JoinOne(l: string)
    ensures Join([l]) == l
  {
  }

  /** This message's body comes back without its empty line. */
  lemma EmptyBodyLineIsLost()
    ensures
      var m := Message("P", map[], "a\n\nb");
      Printable(m) && IsOrder([], m.params) && Parsed(Printed(m, [])).body == "a\nb" != m.body
  {
    var m := Message("P", map[], "a\n\nb");
    assert Printable(m) && IsOrder([], m.params);
    hide Printable, IsOrder, Parsed, Printed, Condensed, SolidBody, ReadsAs;
    PrintThenParse(m, []);
    assert m.body == "a" + "\n" + ("" + "\n" + "b");
    ThreeLines("a", "b");
    assert "a" + "\n" + "b" == "a\nb";
    assert |m.body| == 4 && |"a\nb"| == 3;
  }
}
