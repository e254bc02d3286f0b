/**
  Letters and blanks, spelled out: what the case of methods and keys is, and what trimming leaves.
 */
module Spelling {
  import opened Signaling
  import SignalingLaws

  const SMALL: string := "abcdefghijklmnopqrstuvwxyz"
  const LARGE: string := "ABCDEFGHIJKLMNOPQRSTUVWXYZ"
  const BLANKS: string := " \n\r\t"

  // ---------- Case ----------

  lemma SmallLetters(i: nat)
    requires i < 26
    ensures |SMALL| == 26 && SMALL[i] as int == 'a' as int + i
  {
  }

  lemma LargeLetters(i: nat)
    requires i < 26
    ensures |LARGE| == 26 && LARGE[i] as int == 'A' as int + i
  {
  }

  lemma IsSmall(c: char)
    ensures c in SMALL <==> 'a' <= c <= 'z'
  {
    if 'a' <= c <= 'z' { SmallLetters(c as int - 'a' as int); }
  }

  lemma IsLarge(c: char)
    ensures c in LARGE <==> 'A' <= c <= 'Z'
  {
    if 'A' <= c <= 'Z' { LargeLetters(c as int - 'A' as int); }
  }

  /** `t` is `s` with the i-th letter of one alphabet for the i-th of the other, and everything else as it is. */
  ghost predicate IsRespelled(s: string, t: string, from: string, to: string)
    requires |from| == |to|
  {
    && |t| == |s|
    && forall i | 0 <= i < |s| ::
         if s[i] in from then exists j :: 0 <= j < |from| && s[i] == from[j] && t[i] == to[j] else t[i] == s[i]
  }

  lemma LoweredLetter(c: char)
    ensures if c in LARGE then exists j :: 0 <= j < |LARGE| == |SMALL| && c == LARGE[j] && LowerChar(c) == SMALL[j]
            else LowerChar(c) == c
  {
    hide LARGE, SMALL;
    IsLarge(c);
    LargeLetters(0);
    SmallLetters(0);
    if c in LARGE {
      var j := c as int - 'A' as int;
      LargeLetters(j);
      SmallLetters(j);
      assert c == LARGE[j] && LowerChar(c) == SMALL[j];
    }
  }

  lemma RaisedLetter(c: char)
    ensures if c in SMALL then exists j :: 0 <= j < |SMALL| == |LARGE| && c == SMALL[j] && UpperChar(c) == LARGE[j]
            else UpperChar(c) == c
  {
    hide LARGE, SMALL;
    IsSmall(c);
    LargeLetters(0);
    SmallLetters(0);
    if c in SMALL {
      var j := c as int - 'a' as int;
      LargeLetters(j);
      SmallLetters(j);
      assert c == SMALL[j] && UpperChar(c) == LARGE[j];
    }
  }

  lemma LowerIsRespelled(s: string)
    ensures IsRespelled(s, Lower(s), LARGE, SMALL)
  {
    LargeLetters(0);
    SmallLetters(0);
    hide LARGE, SMALL;
    forall i | 0 <= i < |s|
      ensures if s[i] in LARGE then exists j :: 0 <= j < |LARGE| && s[i] == LARGE[j] && Lower(s)[i] == SMALL[j]
              else Lower(s)[i] == s[i]
    {
      LoweredLetter(s[i]);
    }
  }

  lemma UpperIsRespelled(s: string)
    ensures IsRespelled(s, Upper(s), SMALL, LARGE)
  {
    LargeLetters(0);
    SmallLetters(0);
    hide LARGE, SMALL;
    forall i | 0 <= i < |s|
      ensures if s[i] in SMALL then exists j :: 0 <= j < |SMALL| && s[i] == SMALL[j] && Upper(s)[i] == LARGE[j]
              else Upper(s)[i] == s[i]
    {
      RaisedLetter(s[i]);
    }
  }

  lemma LowerHasNoLarge(s: string)
    ensures forall c | c in Lower(s) :: c !in LARGE
  {
    forall c | c in Lower(s) ensures c !in LARGE { IsLarge(c); }
  }

  lemma UpperHasNoSmall(s: string)
    ensures forall c | c in Upper(s) :: c !in SMALL
  {
    forall c | c in Upper(s) ensures c !in SMALL { IsSmall(c); }
  }

  lemma KeysAreLowered(header: seq<string>, key: string)
    requires key in ParamsOf(header)
    ensures exists t :: key == Lower(t)
  {
    ParamsAreLastValues(header, key);
    var i :| 0 <= i < |header| && Sets(header[i], key);
    assert key == Lower(Trim(header[i][..Find(header[i], COLON)]));
  }

  /** Whatever the text, the method has no small letter and no key a large one. */
  lemma CaseOfMessages(raw: string)
    ensures forall c | c in Parsed(raw).verb :: c !in SMALL
    ensures forall k, c | k in Parsed(raw).params && c in k :: c !in LARGE
  {
    UpperHasNoSmall(Trim(Lines(raw)[0]));
    forall k, c | k in Parsed(raw).params && c in k ensures c !in LARGE {
      KeysAreLowered(Header(Lines(raw)[1..]), k);
      var t :| k == Lower(t);
      LowerHasNoLarge(t);
    }
  }

  // ---------- Blanks ----------

  predicate AllBlank(s: string) {
    forall c | c in s :: c in BLANKS
  }

  /** `t` is what is left of `s` without its blank ends. */
  ghost predicate IsTrimmed(s: string, t: string) {
    && (exists a, b :: AllBlank(a) && AllBlank(b) && s == a + t + b)
    && (t != "" ==> t[0] !in BLANKS && t[|t| - 1] !in BLANKS)
  }

  lemma IsBlank(c: char)
    ensures c in BLANKS <==> IsSpace(c)
  {
    assert BLANKS[0] == ' ' && BLANKS[1] == '\n' && BLANKS[2] == '\r' && BLANKS[3] == '\t';
  }

  lemma {:induction false} TrimLeftOf(s: string) returns (a: string)
    ensures AllBlank(a) && s == a + TrimLeft(s)
    ensures TrimLeft(s) != "" ==> TrimLeft(s)[0] !in BLANKS
    decreases |s|
  {
    if s == "" {
      a := "";
    } else {
      IsBlank(s[0]);
      if IsSpace(s[0]) {
        var more := TrimLeftOf(s[1..]);
        a := [s[0]] + more;
      } else {
        a := "";
      }
    }
  }

  lemma {:induction false} TrimRightOf(s: string) returns (b: string)
    ensures AllBlank(b) && s == TrimRight(s) + b
    ensures TrimRight(s) != "" ==> TrimRight(s)[|TrimRight(s)| - 1] !in BLANKS && TrimRight(s)[0] == s[0]
    decreases |s|
  {
    if s == "" {
      b := "";
    } else {
      IsBlank(s[|s| - 1]);
      if IsSpace(s[|s| - 1]) {
        var more := TrimRightOf(s[..|s| - 1]);
        b := more + [s[|s| - 1]];
      } else {
        b := "";
      }
    }
  }

  /** Trimming takes blanks from both ends, and all of them. */
  lemma TrimExactly(s: string)
    ensures IsTrimmed(s, Trim(s))
  {
    var a := TrimLeftOf(s);
    var b := TrimRightOf(TrimLeft(s));
    assert s == a + Trim(s) + b;
  }

  // ---------- Lines ----------

  /** A header line `a:b`, with no colon in `a` and `a` not empty, sets the key `a`, trimmed and in small letters, to
      `b`, trimmed; any other line sets nothing. */
  lemma ParameterExactly(line: string)
    ensures ParamOf(line) == NoParam <==> COLON !in line || line[0] == COLON
    ensures forall a, b | line == a + ":" + b && COLON !in a && a != "" ::
              ParamOf(line) == Param(Lower(Trim(a)), Trim(b))
  {
    forall a, b | line == a + ":" + b && COLON !in a && a != ""
      ensures ParamOf(line) == Param(Lower(Trim(a)), Trim(b))
    {
      SignalingLaws.FindAfter(a, COLON, b);
      assert line[..|a|] == a && line[|a| + 1..] == b;
    }
  }

  // ---------- Whole messages ----------

  /** The line is `a:b`; `key` is `a` and `value` is `b`, without blank ends, and `key` in small letters. */
  ghost predicate IsSetting(line: string, key: string, value: string) {
    exists a, b, t ::
      && line == a + ":" + b && COLON !in a && a != ""
      && IsTrimmed(a, t) && IsRespelled(t, key, LARGE, SMALL) && IsTrimmed(b, value)
  }

  lemma SettingOf(line: string)
    requires ParamOf(line).Param?
    ensures IsSetting(line, ParamOf(line).key, ParamOf(line).value)
  {
    var i := Find(line, COLON);
    var a, b := line[..i], line[i + 1..];
    assert line == a + ":" + b;
    TrimExactly(a);
    TrimExactly(b);
    LowerIsRespelled(Trim(a));
  }

  lemma {:induction false} ParametersAreSettings(header: seq<string>, key: string)
    requires key in ParamsOf(header)
    ensures exists i :: 0 <= i < |header| && IsSetting(header[i], key, ParamsOf(header)[key])
  {
    var n := |header| - 1;
    if Sets(header[n], key) {
      SettingOf(header[n]);
    } else {
      ParametersAreSettings(header[..n], key);
      var i :| 0 <= i < n && IsSetting(header[..n][i], key, ParamsOf(header[..n])[key]);
      assert header[..n][i] == header[i];
    }
  }

  /** The method of a text is its first line without blank ends, in large letters; and every parameter is set by a
      line of the header in the same way, with its key in small letters. */
  lemma MessagesAreSpelled(raw: string)
    ensures exists t :: IsTrimmed(Lines(raw)[0], t) && IsRespelled(t, Parsed(raw).verb, SMALL, LARGE)
    ensures forall key | key in Parsed(raw).params ::
              exists line :: line in Header(Lines(raw)[1..]) && IsSetting(line, key, Parsed(raw).params[key])
  {
    TrimExactly(Lines(raw)[0]);
    UpperIsRespelled(Trim(Lines(raw)[0]));
    var header := Header(Lines(raw)[1..]);
    forall key | key in Parsed(raw).params
      ensures exists line :: line in header && IsSetting(line, key, Parsed(raw).params[key])
    {
      ParametersAreSettings(header, key);
      var i :| 0 <= i < |header| && IsSetting(header[i], key, ParamsOf(header)[key]);
      assert header[i] in header;
    }
  }
}
