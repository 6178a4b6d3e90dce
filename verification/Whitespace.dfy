/** ECMAScript white space: `\s`, `trim`, and `replace(/\s+/g, " ")`. */
module Whitespace {

  /** WhiteSpace and LineTerminator code points of ECMA-262, section 12.2 and 12.3. */
  predicate IsSpace(c: char) {
    c in {'\t', '\n', '\U{000B}', '\U{000C}', '\r', ' ', '\U{00A0}', '\U{1680}', '\U{2028}', '\U{2029}', '\U{202F}', '\U{205F}', '\U{3000}', '\U{FEFF}'}
    || '\U{2000}' <= c <= '\U{200A}'
  }

  function DropSpaces(s: string): (r: string)
    ensures |r| <= |s|
  {
    if s != "" && IsSpace(s[0]) then DropSpaces(s[1..]) else s
  }

  function DropLastSpaces(s: string): string {
    if s != "" && IsSpace(s[|s| - 1]) then DropLastSpaces(s[..|s| - 1]) else s
  }

  function Trim(s: string): string { DropLastSpaces(DropSpaces(s)) }

  predicate Trimmed(s: string) {
    s == "" || (!IsSpace(s[0]) && !IsSpace(s[|s| - 1]))
  }

  /** Runs of white space become one space. */
  function Collapse(s: string): string
    decreases |s|
  {
    if s == "" then ""
    else if IsSpace(s[0]) then " " + Collapse(DropSpaces(s[1..]))
    else [s[0]] + Collapse(s[1..])
  }

  /** `s.replace(/\s+/g, " ").trim()`. */
  function Normalize(s: string): string { Trim(Collapse(s)) }

  /** Every character of `s` satisfies `p`. */
  predicate All(p: char -> bool, s: string) {
    forall i :: 0 <= i < |s| ==> p(s[i])
  }

  lemma {:induction false} DropSpacesShrinks(s: string)
    ensures |DropSpaces(s)| <= |s| && (s != "" && IsSpace(s[0]) ==> |DropSpaces(s)| < |s|)
    ensures DropSpaces(s) == s[|s| - |DropSpaces(s)|..]
    ensures DropSpaces(s) == "" || !IsSpace(DropSpaces(s)[0])
  {
    if s != "" && IsSpace(s[0]) {
      var rest, n := s[1..], |DropSpaces(s)|;
      DropSpacesShrinks(rest);
      assert n == |DropSpaces(rest)| && rest[|rest| - n..] == s[|s| - n..];
    }
  }

  lemma {:induction false} DropLastSpacesShrinks(s: string)
    ensures |DropLastSpaces(s)| <= |s| && DropLastSpaces(s) == s[..|DropLastSpaces(s)|]
    ensures DropLastSpaces(s) == "" || !IsSpace(DropLastSpaces(s)[|DropLastSpaces(s)| - 1])
  {
    if s != "" && IsSpace(s[|s| - 1]) { DropLastSpacesShrinks(s[..|s| - 1]); }
  }

  /** Trimming gives a trimmed part of the string, and trimmed strings are its fixed points. */
  lemma TrimIs(s: string)
    ensures Trimmed(Trim(s)) && |Trim(s)| <= |s|
    ensures Trim(s) == s <==> Trimmed(s)
  {
    DropSpacesShrinks(s);
    DropLastSpacesShrinks(DropSpaces(s));
    var d, t := DropSpaces(s), Trim(s);
    assert t == d[..|t|];
    if t != "" { assert t[0] == d[0]; }
  }

  /** Trimming and normalizing keep the first character that is no white space. */
  lemma FirstKept(s: string)
    ensures (Trim(s) == "" <==> DropSpaces(s) == "") && (Trim(s) != "" ==> Trim(s)[0] == DropSpaces(s)[0])
  {
    DropSpacesShrinks(s);
    var d := DropSpaces(s);
    DropLastSpacesShrinks(d);
    if d != "" { DropLastKeepsFirst(d); }
  }

  lemma {:induction false} DropLastKeepsFirst(s: string)
    requires s != "" && !IsSpace(s[0])
    ensures DropLastSpaces(s) != "" && DropLastSpaces(s)[0] == s[0]
  {
    if IsSpace(s[|s| - 1]) { DropLastKeepsFirst(s[..|s| - 1]); }
  }

  lemma FirstNormalKept(s: string)
    ensures (Normalize(s) == "" <==> DropSpaces(s) == "") && (Normalize(s) != "" ==> Normalize(s)[0] == DropSpaces(s)[0])
  {
    FirstKept(Collapse(s));
    DropSpacesShrinks(s);
    if s != "" && IsSpace(s[0]) {
      var rest := DropSpaces(s[1..]);
      DropSpacesShrinks(s[1..]);
      assert DropSpaces(rest) == rest;
      CollapseCollapses(rest);
      assert Collapse(s) == " " + Collapse(rest) && (" " + Collapse(rest))[1..] == Collapse(rest);
    } else {
      CollapseCollapses(s);
    }
  }

  lemma TrimAll(p: char -> bool, s: string)
    requires All(p, s)
    ensures All(p, Trim(s))
  {
    DropSpacesShrinks(s);
    DropLastSpacesShrinks(DropSpaces(s));
  }

  /** Single plain spaces only. */
  predicate Collapsed(s: string) {
    forall i :: 0 <= i < |s| && IsSpace(s[i]) ==> s[i] == ' ' && (i + 1 < |s| ==> !IsSpace(s[i + 1]))
  }

  lemma {:induction false} CollapseCollapses(s: string)
    ensures Collapsed(Collapse(s))
    ensures s != "" && !IsSpace(s[0]) ==> Collapse(s) != "" && Collapse(s)[0] == s[0]
    decreases |s|
  {
    if s != "" {
      if IsSpace(s[0]) {
        DropSpacesShrinks(s[1..]);
        CollapseCollapses(DropSpaces(s[1..]));
      } else {
        CollapseCollapses(s[1..]);
      }
    }
  }

  lemma {:induction false} CollapsedIsFixed(s: string)
    requires Collapsed(s)
    ensures Collapse(s) == s
    decreases |s|
  {
    if s != "" {
      assert Collapsed(s[1..]);
      CollapsedIsFixed(s[1..]);
      if IsSpace(s[0]) {
        assert DropSpaces(s[1..]) == s[1..];
      }
    }
  }

  lemma {:induction false} CollapseAll(p: char -> bool, s: string)
    requires All(p, s) && p(' ')
    ensures All(p, Collapse(s))
    decreases |s|
  {
    if s != "" {
      if IsSpace(s[0]) {
        DropSpacesShrinks(s[1..]);
        CollapseAll(p, DropSpaces(s[1..]));
      } else {
        CollapseAll(p, s[1..]);
      }
    }
  }

  lemma TrimKeepsCollapsed(s: string)
    requires Collapsed(s)
    ensures Collapsed(Trim(s))
  {
    DropSpacesShrinks(s);
    DropLastSpacesShrinks(DropSpaces(s));
    var d, t := DropSpaces(s), Trim(s);
    var k := |s| - |d|;
    assert forall i :: 0 <= i < |t| ==> t[i] == s[k + i];
  }

  /** Normalizing is idempotent. */
  lemma NormalizeIs(s: string)
    ensures Normalize(Normalize(s)) == Normalize(s)
    ensures Normalize(s) == s ==> Trimmed(s)
  {
    CollapseCollapses(s);
    TrimIs(Collapse(s));
    TrimKeepsCollapsed(Collapse(s));
    CollapsedIsFixed(Normalize(s));
    TrimIs(Normalize(s));
  }

  lemma NormalizeAll(p: char -> bool, s: string)
    requires All(p, s) && p(' ')
    ensures All(p, Normalize(s))
  {
    CollapseAll(p, s);
    TrimAll(p, Collapse(s));
  }

  // ----- Nothing but white space goes -----

  lemma {:induction false} DroppedIsSpace(s: string)
    ensures All(IsSpace, s[..|s| - |DropSpaces(s)|])
  {
    if s != "" && IsSpace(s[0]) {
      DroppedIsSpace(s[1..]);
      DropSpacesShrinks(s[1..]);
      var k := |s| - |DropSpaces(s)|;
      assert s[..k] == [s[0]] + s[1..][..k - 1];
    }
  }

  lemma {:induction false} DroppedLastIsSpace(s: string)
    ensures |DropLastSpaces(s)| <= |s| && All(IsSpace, s[|DropLastSpaces(s)|..])
  {
    if s != "" && IsSpace(s[|s| - 1]) {
      var init, k := s[..|s| - 1], |DropLastSpaces(s)|;
      DroppedLastIsSpace(init);
      DropLastSpacesShrinks(init);
      assert s[k..] == init[k..] + [s[|s| - 1]];
    }
  }

  /** What trimming takes away, at both ends, is white space and nothing else. */
  lemma TrimTakesOnlySpace(s: string)
    ensures exists a, b :: s == a + Trim(s) + b && All(IsSpace, a) && All(IsSpace, b)
  {
    var d, t := DropSpaces(s), Trim(s);
    DropSpacesShrinks(s);
    DropLastSpacesShrinks(d);
    DroppedIsSpace(s);
    DroppedLastIsSpace(d);
    assert s == s[..|s| - |d|] + d && d == t + d[|t|..];
    assert s == s[..|s| - |d|] + t + d[|t|..];
  }

  /** The runs of other characters. */
  function Words(s: string): seq<string> {
    if s == "" then []
    else if IsSpace(s[0]) then Words(s[1..])
    else if |s| > 1 && !IsSpace(s[1]) then Extended(s[0], Words(s[1..]))
    else [[s[0]]] + Words(s[1..])
  }

  function Extended(c: char, words: seq<string>): seq<string> {
    if words == [] then [[c]] else [[c] + words[0]] + words[1..]
  }

  lemma {:induction false} SpaceAddsNoWord(s: string, c: char)
    requires IsSpace(c)
    ensures Words(s + [c]) == Words(s)
  {
    var t := s + [c];
    if s == "" {
      assert t[1..] == "";
    } else {
      assert t[1..] == s[1..] + [c] && t[0] == s[0];
      SpaceAddsNoWord(s[1..], c);
      if |s| == 1 { assert t[1] == c; } else { assert t[1] == s[1]; }
    }
  }

  lemma {:induction false} DropKeepsWords(s: string)
    ensures Words(DropSpaces(s)) == Words(s)
  {
    if s != "" && IsSpace(s[0]) { DropKeepsWords(s[1..]); }
  }

  lemma {:induction false} DropLastKeepsWords(s: string)
    ensures Words(DropLastSpaces(s)) == Words(s)
  {
    if s != "" && IsSpace(s[|s| - 1]) {
      DropLastKeepsWords(s[..|s| - 1]);
      SpaceAddsNoWord(s[..|s| - 1], s[|s| - 1]);
      assert s[..|s| - 1] + [s[|s| - 1]] == s;
    }
  }

  lemma {:induction false} CollapseKeepsWords(s: string)
    ensures Words(Collapse(s)) == Words(s)
    decreases |s|
  {
    if s != "" {
      if IsSpace(s[0]) {
        var rest := DropSpaces(s[1..]);
        DropSpacesShrinks(s[1..]);
        CollapseKeepsWords(rest);
        DropKeepsWords(s[1..]);
        assert (" " + Collapse(rest))[1..] == Collapse(rest);
      } else {
        CollapseKeepsWords(s[1..]);
        CollapseCollapses(s[1..]);
        assert Collapse(s)[1..] == Collapse(s[1..]);
        if |s| > 1 && IsSpace(s[1]) { assert Collapse(s[1..])[0] == ' '; }
      }
    }
  }

  /** Normalizing keeps the words, puts single spaces between them, and nothing in front or behind. */
  lemma NormalizeKeepsWords(s: string)
    ensures Words(Normalize(s)) == Words(s) && Collapsed(Normalize(s)) && Trimmed(Normalize(s))
  {
    CollapseKeepsWords(s);
    DropKeepsWords(Collapse(s));
    DropLastKeepsWords(DropSpaces(Collapse(s)));
    CollapseCollapses(s);
    TrimKeepsCollapsed(Collapse(s));
    TrimIs(Collapse(s));
  }
}
