/**
 Values with `$` sequences that a line's replacement acts on (src/lib/meeting-markdown.ts:16-18, 38-54): exactly when a
 second heading, project field or info line makes the first one forgotten, in all texts that have the line.
 */
module LineSubstitution {
  import opened Text
  import opened Whitespace
  import opened MarkdownSegments
  import opened MetadataSlots
  import opened MeetingMarkdown
  import opened MarkdownAbsorption

  const MATCH := {'&'}
  const SIDES := {'`', '\''}

  /** Whether the replacement string, read as `Expand` reads it, has one of the acting sequences. */
  predicate Uses(tpl: string, acting: set<char>)
    decreases |tpl|
  {
    |tpl| >= 2 &&
    if tpl[0] != '$' then Uses(tpl[1..], acting)
    else if tpl[1] == '$' then Uses(tpl[2..], acting)
    else if tpl[1] in MATCH + SIDES then tpl[1] in acting || Uses(tpl[2..], acting)
    else Uses(tpl[1..], acting)
  }

  lemma {:induction false} UsesEither(tpl: string, a: set<char>, b: set<char>)
    ensures Uses(tpl, a + b) <==> Uses(tpl, a) || Uses(tpl, b)
    decreases |tpl|
  {
    if |tpl| >= 2 {
      UsesEither(tpl[1..], a, b);
      UsesEither(tpl[2..], a, b);
    }
  }

  predicate Literal(p: string) { forall i :: 0 <= i < |p| ==> p[i] != '$' }

  lemma FirstLiteral(s: string, acting: set<char>, m: Match)
    requires s != "" && s[0] != '$'
    ensures Uses(s, acting) <==> Uses(s[1..], acting)
    ensures Expand(s, m) == [s[0]] + Expand(s[1..], m)
  {}

  lemma {:induction false} AfterLiteral(p: string, tail: string, acting: set<char>, m: Match)
    requires Literal(p)
    ensures Uses(p + tail, acting) <==> Uses(tail, acting)
    ensures Expand(p + tail, m) == p + Expand(tail, m)
    decreases |p|
  {
    if p == "" {
      assert p + tail == tail;
    } else {
      AfterLiteral(p[1..], tail, acting, m);
      assert (p + tail)[1..] == p[1..] + tail;
      FirstLiteral(p + tail, acting, m);
      assert p == [p[0]] + p[1..];
    }
  }

  // ---- What an expansion depends on ----

  lemma {:induction false} ExpandForgetsMatch(tpl: string, m: Match, n: Match)
    requires !Uses(tpl, MATCH) && m.group.None? && n == m.(matched := n.matched)
    ensures Expand(tpl, m) == Expand(tpl, n)
    decreases |tpl|
  {
    if |tpl| >= 2 {
      if tpl[0] != '$' || tpl[1] !in MATCH + SIDES + {'$'} {
        ExpandForgetsMatch(tpl[1..], m, n);
      } else {
        ExpandForgetsMatch(tpl[2..], m, n);
      }
    }
  }

  lemma OneLineAppend(a: string, b: string)
    ensures OneLine(a + b) <==> OneLine(a) && OneLine(b)
  {
    assert forall i :: 0 <= i < |a| ==> (a + b)[i] == a[i];
    assert forall i :: 0 <= i < |b| ==> (a + b)[|a| + i] == b[i];
  }

  lemma {:induction false} ExpandLines(tpl: string, m: Match)
    requires OneLine(tpl) && OneLine(m.matched) && m.group.None?
    ensures !Uses(tpl, SIDES) ==> OneLine(Expand(tpl, m))
    ensures Uses(tpl, SIDES) && !OneLine(m.before) && !OneLine(m.after) ==> !OneLine(Expand(tpl, m))
    decreases |tpl|
  {
    if |tpl| >= 2 {
      var one, two := Expand(tpl[1..], m), Expand(tpl[2..], m);
      ExpandLines(tpl[1..], m);
      ExpandLines(tpl[2..], m);
      OneLineAppend([tpl[0]], one);
      OneLineAppend("$", one);
      OneLineAppend("$", two);
      OneLineAppend(m.matched, two);
      OneLineAppend(m.before, two);
      OneLineAppend(m.after, two);
    }
  }

  lemma {:induction false} ExpandKeepsLines(tpl: string, m: Match)
    requires !OneLine(tpl) && m.group.None?
    ensures !OneLine(Expand(tpl, m))
    decreases |tpl|
  {
    var i :| 0 <= i < |tpl| && IsTerminator(tpl[i]);
    if tpl[0] != '$' || |tpl| == 1 || tpl[1] !in MATCH + SIDES + {'$'} {
      OneLineAppend([tpl[0]], Expand(tpl[1..], m));
      if i > 0 {
        assert tpl[1..][i - 1] == tpl[i];
        ExpandKeepsLines(tpl[1..], m);
      } else {
        assert IsTerminator([tpl[0]][0]);
      }
    } else {
      var rest := Expand(tpl[2..], m);
      assert i >= 2 && tpl[2..][i - 2] == tpl[i];
      ExpandKeepsLines(tpl[2..], m);
      OneLineAppend("$", rest);
      OneLineAppend(m.matched, rest);
      OneLineAppend(m.before, rest);
      OneLineAppend(m.after, rest);
    }
  }

  /** Longer matches and longer rests never make an expansion shorter, and a longer match makes one that uses it longer. */
  lemma {:induction false} ExpandGrows(tpl: string, m: Match, n: Match)
    requires m.group.None? && n.group.None? && m.before == n.before
    requires |m.matched| <= |n.matched| && |m.after| <= |n.after|
    ensures |Expand(tpl, m)| <= |Expand(tpl, n)|
    ensures Uses(tpl, MATCH) && |m.matched| < |n.matched| ==> |Expand(tpl, m)| < |Expand(tpl, n)|
    decreases |tpl|
  {
    if |tpl| >= 2 {
      ExpandGrows(tpl[1..], m, n);
      ExpandGrows(tpl[2..], m, n);
    }
  }

  lemma {:induction false} ExpandNonempty(tpl: string, m: Match)
    requires tpl != "" && m.before != "" && m.matched != "" && m.after != "" && m.group.None?
    ensures Expand(tpl, m) != ""
  {}

  // ---- One replacement ----

  /** The slots that are one line. */
  predicate IsLine(c: Slot) { !IsBlock(c) }

  /** What the line holds after its prefix. */
  function Value(c: Slot, v: Fields): string
    requires IsLine(c)
  {
    match c
    case Title => v.title
    case Project => " " + Trim(Spaced(v.project))
    case ProjectInfo => Content(c, v)
    case PeopleInfo => Content(c, v)
  }

  lemma PrefixIs(c: Slot)
    requires IsLine(c)
    ensures Literal(Prefix(c)) && OneLine(Prefix(c)) && |Prefix(c)| > 1
  {}

  lemma TemplateIs(c: Slot, v: Fields)
    requires IsLine(c)
    ensures Template(c, v) == Prefix(c) + Value(c, v)
  {
    if c.Project? { assert Template(c, v) == Prefix(c) + (" " + Trim(Spaced(v.project))); }
  }

  lemma TemplateUses(c: Slot, v: Fields, acting: set<char>, m: Match)
    requires IsLine(c)
    ensures Uses(Template(c, v), acting) <==> Uses(Value(c, v), acting)
    ensures Expand(Template(c, v), m) == Prefix(c) + Expand(Value(c, v), m)
    ensures OneLine(Template(c, v)) <==> OneLine(Value(c, v))
  {
    TemplateIs(c, v);
    PrefixIs(c);
    AfterLiteral(Prefix(c), Value(c, v), acting, m);
    OneLineAppend(Prefix(c), Value(c, v));
  }

  /** Segments a first line of the slot can follow. */
  predicate Before(c: Slot, head: seq<Seg>) {
    && Chained(head) && !Has(c, head)
    && (head != [] ==> var last := head[|head| - 1]; if last.Ln? then last.end != "" else !last.open)
  }

  predicate IsFilled(c: Slot, text: string) { IsLine(c) && Prefix(c) <= text && OneLine(text) }

  predicate IsRest(rest: string) { rest == "" || IsTerminator(rest[0]) }

  lemma NotNamed(c: Slot, text: string)
    requires IsFilled(c, text)
    ensures text != "" && text != "tags:" && text != "participants:" && text[0] != ' '
  {
    assert text[0] == Prefix(c)[0] && text[1] == Prefix(c)[1];
  }

  lemma LineTail(c: Slot, text: string, rest: string)
    requires IsFilled(c, text) && IsRest(rest)
    ensures var tail := Segs(text + rest);
            tail[0].Ln? && tail[0].text == text && EndOf(tail[0]) + Render(tail[1..]) == rest
  {
    NotNamed(c, text);
    if rest == "" {
      SegsOfLast(text);
      assert text + "" == text;
      assert [Ln(text, "")][1..] == [];
    } else {
      assert rest == [rest[0]] + rest[1..];
      SegsOfLine(text, [rest[0]], rest[1..]);
      RenderSegs(rest[1..]);
      assert ([Ln(text, [rest[0]])] + Segs(rest[1..]))[1..] == Segs(rest[1..]);
    }
  }

  lemma LineAt(c: Slot, head: seq<Seg>, text: string, rest: string)
    requires Before(c, head) && IsFilled(c, text) && IsRest(rest)
    ensures var x := Segs(Onto(head, text + rest)); var k := |head|;
            First(c, x) == k && k < |x| && x[..k] == head && x[k].Ln? && x[k].text == text
            && EndOf(x[k]) + Render(x[k + 1..]) == rest
  {
    NotNamed(c, text);
    assert (text + rest)[0] == text[0] && !(ITEM <= text + rest);
    SegsAppend(head, text + rest);
    LineTail(c, text, rest);
    FirstAfter(c, head, Segs(text + rest));
  }

  lemma FirstAfter(c: Slot, head: seq<Seg>, tail: seq<Seg>)
    requires !Has(c, head) && tail != [] && Fits(c, tail[0])
    ensures var x := head + tail; var k := |head|;
            First(c, x) == k && x[..k] == head && x[k] == tail[0] && x[k + 1..] == tail[1..]
  {
    var x := head + tail;
    forall i | 0 <= i < |head| ensures !Fitter(c)(x[i]) { assert x[i] == head[i]; }
    IndexIs(Fitter(c), x, |head|);
  }

  function Expanded(c: Slot, v: Fields, before: string, text: string, rest: string): string {
    Expand(Template(c, v), Match(before, text, None, rest))
  }

  lemma LineMatch(c: Slot, v: Fields, x: seq<Seg>, head: seq<Seg>, text: string, rest: string)
    requires |head| < |x| && x[..|head|] == head && x[|head|].Ln? && x[|head|].text == text
    requires EndOf(x[|head|]) + Render(x[|head| + 1..]) == rest
    ensures ReplaceMatch(c, v, x, |head|) == Render(head) + (Expanded(c, v, Render(head), text, rest) + rest)
  {}

  lemma PutFound(c: Slot, v: Fields, s: string)
    requires Has(c, Segs(s))
    ensures Put(c, v, s) == ReplaceMatch(c, v, Segs(s), First(c, Segs(s)))
  {
  }

  lemma LinePut(c: Slot, v: Fields, head: seq<Seg>, text: string, rest: string)
    requires Before(c, head) && IsFilled(c, text) && IsRest(rest)
    ensures Put(c, v, Onto(head, text + rest)) == Onto(head, Expanded(c, v, Render(head), text, rest) + rest)
  {
    var s := Onto(head, text + rest);
    LineAt(c, head, text, rest);
    PutFound(c, v, s);
    LineMatch(c, v, Segs(s), head, text, rest);
    OntoIs(head, Expanded(c, v, Render(head), text, rest) + rest);
  }

  lemma CutAt(x: seq<Seg>, k: nat)
    requires Canonical(x) && k < |x| && x[k].Ln?
    ensures var rest := EndOf(x[k]) + Render(x[k + 1..]); IsRest(rest) && Render(x) == Onto(x[..k], x[k].text + rest)
  {
    assert x == x[..k] + ([x[k]] + x[k + 1..]);
    OntoAppend(x[..k], [x[k]] + x[k + 1..], "");
    RenderCons(x[k], x[k + 1..]);
    if k == |x| - 1 { assert x[k + 1..] == []; } else { assert Joins(x[k], x[k + 1]); }
  }

  lemma HeadBefore(c: Slot, x: seq<Seg>, k: nat)
    requires Canonical(x) && k < |x| && k == First(c, x)
    ensures Before(c, x[..k])
  {
    FitsHasText(c, x[k]);
    if k > 0 { assert Joins(x[k - 1], x[k]); }
    IndexIs(Fitter(c), x[..k], k);
  }

  /** Every text with such a line is cut by its first one. */
  lemma LineCut(c: Slot, s: string)
    requires IsLine(c) && Has(c, Segs(s))
    ensures var x := Segs(s); var k := First(c, x); var rest := EndOf(x[k]) + Render(x[k + 1..]);
            Before(c, x[..k]) && x[k].Ln? && IsFilled(c, x[k].text) && IsRest(rest) && s == Onto(x[..k], x[k].text + rest)
  {
    var x := Segs(s);
    SegsCanonical(s);
    RenderSegs(s);
    CutAt(x, First(c, x));
    HeadBefore(c, x, First(c, x));
  }

  /** The written line, up to its first terminator, and what follows it. */
  function Written(c: Slot, v: Fields, before: string, text: string, rest: string): (string, string) {
    var s := Expanded(c, v, before, text, rest) + rest;
    (LineText(s), s[|LineText(s)|..])
  }

  lemma WrittenIs(c: Slot, v: Fields, before: string, text: string, rest: string)
    requires IsFilled(c, text) && IsRest(rest)
    ensures var (t, r) := Written(c, v, before, text, rest);
            IsFilled(c, t) && IsRest(r) && t + r == Expanded(c, v, before, text, rest) + rest
    ensures var e := Expanded(c, v, before, text, rest); var (t, r) := Written(c, v, before, text, rest);
            if OneLine(e) then t == e && r == rest else |r| > |rest|
  {
    var e := Expanded(c, v, before, text, rest);
    PrefixIs(c);
    TemplateIs(c, v);
    TemplateUses(c, v, {}, Match(before, text, None, rest));
    var s := e + rest;
    var t := LineText(s);
    SplitPrefix(t, s);
    LineReaches(Prefix(c), s);
    if OneLine(e) {
      LineTextIs(e, rest);
      DropPrefix(e, rest);
    } else {
      var i :| 0 <= i < |e| && IsTerminator(e[i]);
      assert s[i] == e[i];
      LineStops(s, i);
    }
  }

  lemma LineReaches(p: string, s: string)
    requires p <= s && OneLine(p)
    ensures p <= LineText(s)
  {
    SplitPrefix(LineText(s), s);
    assert forall i :: 0 <= i < |p| ==> s[i] == p[i];
  }

  lemma LineStops(s: string, i: nat)
    requires i < |s| && IsTerminator(s[i])
    ensures |LineText(s)| <= i
  {
    assert forall j :: 0 <= j < |LineText(s)| ==> LineText(s)[j] == s[j];
  }

  lemma TwoLines(c: Slot, a: Fields, b: Fields, head: seq<Seg>, text: string, rest: string)
    requires Before(c, head) && IsFilled(c, text) && IsRest(rest)
    ensures var (t, r) := Written(c, a, Render(head), text, rest);
            Put(c, b, Put(c, a, Onto(head, text + rest))) == Onto(head, Expanded(c, b, Render(head), t, r) + r)
  {
    LinePut(c, a, head, text, rest);
    WrittenIs(c, a, Render(head), text, rest);
    var (t, r) := Written(c, a, Render(head), text, rest);
    LinePut(c, b, head, t, r);
  }

  /** Without an acting sequence for the text around the match, what is written stays one line. */
  lemma WrittenStays(c: Slot, v: Fields, before: string, text: string, rest: string)
    requires IsFilled(c, text) && IsRest(rest) && OneLine(Value(c, v)) && !Uses(Value(c, v), SIDES)
    ensures IsFilled(c, Written(c, v, before, text, rest).0) && Written(c, v, before, text, rest).1 == rest
  {
    var m := Match(before, text, None, rest);
    TemplateUses(c, v, SIDES, m);
    ExpandLines(Template(c, v), m);
    WrittenIs(c, v, before, text, rest);
  }

  lemma AbsorbsAt(c: Slot, a: Fields, b: Fields, head: seq<Seg>, text: string, rest: string)
    requires Before(c, head) && IsFilled(c, text) && IsRest(rest)
    requires OneLine(Value(c, a)) && !Uses(Value(c, a), SIDES) && !Uses(Value(c, b), MATCH)
    ensures Put(c, b, Put(c, a, Onto(head, text + rest))) == Put(c, b, Onto(head, text + rest))
  {
    var before := Render(head);
    var t := Written(c, a, before, text, rest).0;
    var m := Match(before, text, None, rest);
    TwoLines(c, a, b, head, text, rest);
    WrittenStays(c, a, before, text, rest);
    TemplateUses(c, b, MATCH, m);
    ExpandForgetsMatch(Template(c, b), m, Match(before, t, None, rest));
    LinePut(c, b, head, text, rest);
  }

  lemma LineAbsorbs(c: Slot, a: Fields, b: Fields, s: string)
    requires IsLine(c) && OneLine(Value(c, a)) && !Uses(Value(c, a), SIDES) && !Uses(Value(c, b), MATCH) && Has(c, Segs(s))
    ensures Put(c, b, Put(c, a, s)) == Put(c, b, s)
  {
    LineCut(c, s);
    var x := Segs(s);
    var k := First(c, x);
    var head, text, rest := x[..k], x[k].text, EndOf(x[k]) + Render(x[k + 1..]);
    assert s == Onto(head, text + rest);
    AbsorbsAt(c, a, b, head, text, rest);
  }

  predicate Forgettable(c: Slot, a: Fields, b: Fields)
    requires IsLine(c)
  {
    OneLine(Value(c, a)) && !Uses(Value(c, a), SIDES) && !Uses(Value(c, b), MATCH)
  }

  /** A text with a line before and after an empty line of the slot. */
  function Sandwich(c: Slot): string { Onto([Ln("p", "\n")], Prefix(c) + "\nq") }

  lemma SandwichHead(c: Slot)
    requires IsLine(c)
    ensures Before(c, [Ln("p", "\n")]) && Render([Ln("p", "\n")]) == "p\n" && IsFilled(c, Prefix(c)) && IsRest("\nq")
    ensures Has(c, Segs(Sandwich(c)))
  {
    var head := [Ln("p", "\n")];
    assert head[1..] == [];
    assert Render(head) == "p" + ("\n" + "");
    PrefixIs(c);
    assert OneLine("p") && IsTerminator("\nq"[0]);
    IndexIs(Fitter(c), head, 1);
    LineAt(c, head, Prefix(c), "\nq");
  }

  /** What the second replacement leaves is longer than without the first. */
  lemma SecondGrows(c: Slot, a: Fields, b: Fields)
    requires IsLine(c) && Value(c, a) != "" && !Forgettable(c, a, b)
    ensures var (t, r) := Written(c, a, "p\n", Prefix(c), "\nq");
            |Expanded(c, b, "p\n", t, r) + r| > |Expanded(c, b, "p\n", Prefix(c), "\nq") + "\nq"|
  {
    var before, text, rest := "p\n", Prefix(c), "\nq";
    SandwichHead(c);
    WrittenIs(c, a, before, text, rest);
    var (t, r) := Written(c, a, before, text, rest);
    var m, n := Match(before, text, None, rest), Match(before, t, None, r);
    TemplateUses(c, a, SIDES, m);
    TemplateUses(c, b, MATCH, m);
    assert before[1] == '\n' && rest[0] == '\n';
    if OneLine(Template(c, a)) { ExpandLines(Template(c, a), m); } else { ExpandKeepsLines(Template(c, a), m); }
    ExpandNonempty(Value(c, a), m);
    ExpandGrows(Template(c, b), m, n);
  }

  lemma LineGrows(c: Slot, a: Fields, b: Fields)
    requires IsLine(c) && Value(c, a) != "" && !Forgettable(c, a, b)
    ensures |Put(c, b, Put(c, a, Sandwich(c)))| > |Put(c, b, Sandwich(c))|
  {
    var head, text, rest, before := [Ln("p", "\n")], Prefix(c), "\nq", "p\n";
    SandwichHead(c);
    TwoLines(c, a, b, head, text, rest);
    LinePut(c, b, head, text, rest);
    SecondGrows(c, a, b);
    var (t, r) := Written(c, a, before, text, rest);
    OntoIs(head, Expanded(c, b, before, text, rest) + rest);
    OntoIs(head, Expanded(c, b, before, t, r) + r);
  }

  /**
   The second of two values makes the first one forgotten, in every text that has the line, if and only if the first is
   one line and has no acting `$` sequence for the text before or after the match, and the second none for the match.
   */
  lemma LineAbsorbsIff(c: Slot, a: Fields, b: Fields)
    requires IsLine(c) && Value(c, a) != ""
    ensures (forall s :: Has(c, Segs(s)) ==> Put(c, b, Put(c, a, s)) == Put(c, b, s)) <==> Forgettable(c, a, b)
  {
    if !Forgettable(c, a, b) {
      SandwichHead(c);
      LineGrows(c, a, b);
    } else {
      forall s | Has(c, Segs(s)) ensures Put(c, b, Put(c, a, s)) == Put(c, b, s) {
        LineAbsorbs(c, a, b, s);
      }
    }
  }

  /** Writing one value twice is writing it once exactly when it is one line with no acting sequence; `$$` is not one. */
  lemma LineIdempotentIff(c: Slot, v: Fields)
    requires IsLine(c) && Value(c, v) != ""
    ensures (forall s :: Has(c, Segs(s)) ==> Put(c, v, Put(c, v, s)) == Put(c, v, s))
            <==> OneLine(Value(c, v)) && !Uses(Value(c, v), MATCH + SIDES)
  {
    LineAbsorbsIff(c, v, v);
    UsesEither(Value(c, v), MATCH, SIDES);
  }

  // ---- The failing title in a whole rewrite ----

  lemma {:induction false} OthersIgnoreTitle(v: Fields, w: Fields, cs: seq<Slot>, s: string)
    requires w == v.(title := w.title) && Title !in cs
    ensures Body(v, cs, s) == Body(w, cs, s)
    decreases |cs|
  {
    if cs != [] {
      assert cs[0] != Title;
      SameTemplates(v, w, cs[0]);
      assert Put(cs[0], v, s) == Put(cs[0], w, s);
      OthersIgnoreTitle(v, w, cs[1..], if Active(cs[0], v) then Put(cs[0], v, s) else s);
    }
  }

  lemma SameTemplates(v: Fields, w: Fields, c: Slot)
    requires w == v.(title := w.title) && c != Title
    ensures Template(c, v) == Template(c, w) && InsertTemplate(c, v) == InsertTemplate(c, w) && Active(c, v) == Active(c, w)
  {}

  lemma PlainTitlePut(w: Fields, x: seq<Seg>, k: nat)
    requires k < |x| && x[k].Ln? && w.title == x[k].text && Inert(w.title)
    ensures ReplaceMatch(Title, w, x, k) == Render(x[k := Ln("# " + x[k].text, x[k].end)])
  {
    var after := EndOf(x[k]) + Render(x[k + 1..]);
    InertAppend("# ", w.title);
    ExpandInert("# " + w.title, Match(Render(x[..k]), x[k].text, None, after));
    RenderAround(x, k, Ln("# " + x[k].text, x[k].end));
  }

  /** A title `$&` writes what a title that repeats the old heading line would write. */
  lemma MatchTitleIs(v: Fields, x: seq<Seg>)
    requires v.title == "$&" && Canonical(x) && Has(Title, x) && Writable(x[First(Title, x)].text)
    ensures Body(v, ORDER, Render(x)) == Body(v.(title := x[First(Title, x)].text), ORDER, Render(x))
  {
    var k := First(Title, x);
    var w := v.(title := x[k].text);
    SegsRender(x);
    MatchInTitlePut(v, x, k);
    PlainTitlePut(w, x, k);
    OthersIgnoreTitle(v, w, ORDER[1..], Put(Title, v, Render(x)));
  }

  /** The heading that a rewrite with a sound title leaves. */
  lemma HeadingAfter(s: string, w: Fields)
    requires Trimmed(s) && Sound(w) && Good(Segs(s)) && Has(Title, Segs(s))
    ensures var out := Trim(Body(w, ORDER, s) + "\n"); var z := Segs(out);
            Trimmed(out) && Canonical(z) && Render(z) == out && Good(z) && Has(Title, z)
            && z[First(Title, z)].text == "# " + w.title
  {
    WrittenSound(s, w);
    var y := PutAll(w, ORDER, Segs(s));
    OrderDistinct();
    PutAllReads(w, ORDER, Segs(s), Title);
    ShutHolds(Title, w, y);
    ShutGood(y);
    ShutCanonical(y);
    TrimIs(Body(w, ORDER, s) + "\n");
  }

  lemma HeadingWritable(text: string)
    requires Writable(text)
    ensures Writable("# " + text)
  {
    InertAppend("# ", text);
    OneLineAppend("# ", text);
    LastOf("# ", text);
  }

  /** The heading line of the trimmed text, if it has one. */
  function HeadingLine(markdown: string): string {
    var x := Segs(Trim(markdown));
    if Has(Title, x) then x[First(Title, x)].text else ""
  }

  /** In a whole rewrite too, the title `$&` is never absorbed: each rewrite repeats the heading line it finds. */
  lemma MatchTitleNeverSettles(markdown: string, m: Metadata)
    requires Clean(m).title == "$&" && RestReady(Clean(m))
    requires Good(Segs(Trim(markdown))) && Has(Title, Segs(Trim(markdown))) && Writable(HeadingLine(markdown))
    ensures HeadingLine(Apply(markdown, m)) == "# " + HeadingLine(markdown)
    ensures Apply(Apply(markdown, m), m) != Apply(markdown, m)
  {
    var v, s, text := Clean(m), Trim(markdown), HeadingLine(markdown);
    TrimIs(markdown);
    SegsCanonical(s);
    RenderSegs(s);
    RestIsSound(m, text);
    MatchTitleIs(v, Segs(s));
    HeadingAfter(s, v.(title := text));
    var again := Trim(Apply(markdown, m));
    HeadingWritable(text);
    RestIsSound(m, "# " + text);
    MatchTitleIs(v, Segs(again));
    HeadingAfter(again, v.(title := "# " + text));
    assert HeadingLine(Apply(Apply(markdown, m), m)) == "# " + ("# " + text);
  }

  // ----- What a replacement string says -----

  /** A character as it is meant, or a reference to the match, the text on either side of it, or the captured group. */
  datatype Piece = Verbatim(c: char) | Matched | Before | After | Captured(padded: bool)

  function Spelled(p: Piece): string {
    match p
    case Verbatim(c) => if c == '$' then "$$" else [c]
    case Matched => "$&"
    case Before => "$`"
    case After => "$'"
    case Captured(padded) => if padded then "$01" else "$1"
  }

  function SpelledAll(ps: seq<Piece>): string { if ps == [] then "" else Spelled(ps[0]) + SpelledAll(ps[1..]) }

  /** Without a captured group its reference stands for itself. */
  function Meant(p: Piece, m: Match): string {
    match p
    case Verbatim(c) => [c]
    case Matched => m.matched
    case Before => m.before
    case After => m.after
    case Captured(_) => if m.group.Some? then m.group.value else Spelled(p)
  }

  function MeantAll(ps: seq<Piece>, m: Match): string { if ps == [] then "" else Meant(ps[0], m) + MeantAll(ps[1..], m) }

  lemma PieceExpands(p: Piece, tail: string, m: Match)
    ensures Expand(Spelled(p) + tail, m) == Meant(p, m) + Expand(tail, m)
  {
    var s := Spelled(p) + tail;
    assert s[|Spelled(p)|..] == tail;
    if p.Captured? && m.group.None? { ReferenceStands(p.padded, tail, m); }
  }

  lemma ReferenceStands(padded: bool, tail: string, m: Match)
    requires m.group.None?
    ensures Expand(Spelled(Captured(padded)) + tail, m) == Spelled(Captured(padded)) + Expand(tail, m)
  {
    var digits := if padded then "01" else "1";
    var s := "$" + (digits + tail);
    assert Spelled(Captured(padded)) + tail == s && s[1..] == digits + tail;
    AfterLiteral(digits, tail, MATCH, m);
  }

  /** A replacement written from characters, `$` doubled, and from references comes out as it is meant. */
  lemma {:induction false} SpelledMeans(ps: seq<Piece>, m: Match)
    ensures Expand(SpelledAll(ps), m) == MeantAll(ps, m)
  {
    if ps != [] {
      SpelledMeans(ps[1..], m);
      PieceExpands(ps[0], SpelledAll(ps[1..]), m);
    }
  }
}
