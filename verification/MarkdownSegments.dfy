/**
 * A Markdown text as the metadata patterns see it: lines, and front-matter blocks with their items.
 * Patterns with the `m` flag start at line starts; `.` and `$` stop at the four line terminators of ECMA-262.
 */
module MarkdownSegments {
  predicate IsTerminator(c: char) { c in {'\n', '\r', '\U{2028}', '\U{2029}'} }

  predicate OneLine(s: string) { forall i :: 0 <= i < |s| ==> !IsTerminator(s[i]) }

  const ITEM := "  - "

  /**
   * A line with its terminator (empty at the end of the text), or what `^tags:\n(?:  - .*\n?)*` and its
   * participants twin match; `open` when the last item's terminator is not part of the match.
   */
  datatype Seg = Ln(text: string, end: string) | Blk(people: bool, items: seq<string>, open: bool)

  function Header(people: bool): string { if people then "participants:\n" else "tags:\n" }

  /** The items as bullet lines in front of `rest`; an open list keeps `rest` on its last line. */
  function ItemsOnto(items: seq<string>, open: bool, rest: string): string {
    if items == [] then rest
    else if open && |items| == 1 then ITEM + (items[0] + rest)
    else ITEM + (items[0] + ("\n" + ItemsOnto(items[1..], open, rest)))
  }

  function SegOnto(seg: Seg, rest: string): string {
    match seg
    case Ln(text, end) => text + (end + rest)
    case Blk(people, items, open) => Header(people) + ItemsOnto(items, open, rest)
  }

  function Onto(x: seq<Seg>, rest: string): string {
    if x == [] then rest else SegOnto(x[0], Onto(x[1..], rest))
  }

  /** The text a list of segments stands for. */
  function Render(x: seq<Seg>): string { Onto(x, "") }

  /** The text up to the first terminator. */
  function LineText(s: string): (t: string)
    ensures t <= s && OneLine(t)
    ensures |t| < |s| ==> IsTerminator(s[|t|])
  {
    if s == "" || IsTerminator(s[0]) then "" else [s[0]] + LineText(s[1..])
  }

  datatype Taken = Taken(items: seq<string>, open: bool, rest: string)

  /** The greedy match of `(?:  - .*\n?)*`. */
  function TakeItems(s: string): (k: Taken)
    ensures |k.rest| <= |s|
    decreases |s|
  {
    if !(ITEM <= s) then Taken([], false, s)
    else
      var t := LineText(s[4..]);
      var after := s[4 + |t|..];
      if after != "" && after[0] == '\n' then
        var more := TakeItems(after[1..]);
        Taken([t] + more.items, more.open, more.rest)
      else Taken([t], true, after)
  }

  function Segs(s: string): (x: seq<Seg>)
    ensures x != []
    decreases |s|
  {
    if Header(false) <= s then
      var k := TakeItems(s[6..]);
      [Blk(false, k.items, k.open)] + Segs(k.rest)
    else if Header(true) <= s then
      var k := TakeItems(s[14..]);
      [Blk(true, k.items, k.open)] + Segs(k.rest)
    else
      var t := LineText(s);
      if |t| == |s| then [Ln(s, "")] else [Ln(t, [s[|t|]])] + Segs(s[|t| + 1..])
  }

  // ---- The segment lists that texts have ----

  predicate StartsItem(seg: Seg) { seg.Ln? && ITEM <= seg.text }

  predicate Piece(seg: Seg) {
    match seg
    case Ln(text, end) =>
      OneLine(text) && (end == "" || (|end| == 1 && IsTerminator(end[0])))
      && !(end == "\n" && (text == "tags:" || text == "participants:"))
    case Blk(_, items, open) => (forall i :: 0 <= i < |items| ==> OneLine(items[i])) && (open ==> items != [])
  }

  predicate Joins(a: Seg, b: Seg) {
    match a
    case Ln(_, end) => end != ""
    case Blk(_, _, open) => if open then b.Ln? && b.text == "" && b.end != "\n" else !StartsItem(b)
  }

  predicate Chained(x: seq<Seg>) {
    && (forall i :: 0 <= i < |x| ==> Piece(x[i]))
    && (forall i :: 0 <= i < |x| - 1 ==> Joins(x[i], x[i + 1]))
  }

  predicate Canonical(x: seq<Seg>) {
    x != [] && Chained(x) && x[|x| - 1].Ln? && x[|x| - 1].end == ""
  }

  lemma {:induction false} OntoAppend(x: seq<Seg>, y: seq<Seg>, rest: string)
    ensures Onto(x + y, rest) == Onto(x, Onto(y, rest))
  {
    if x == [] {
      assert x + y == y;
    } else {
      assert (x + y)[1..] == x[1..] + y;
      OntoAppend(x[1..], y, rest);
    }
  }

  lemma Assoc(a: string, b: string, c: string)
    ensures a + b + c == a + (b + c)
  {}

  lemma {:induction false} ItemsOntoIs(items: seq<string>, open: bool, a: string, rest: string)
    ensures ItemsOnto(items, open, a + rest) == ItemsOnto(items, open, a) + rest
  {
    if items != [] {
      if open && |items| == 1 {
        Assoc(items[0], a, rest);
        Assoc(ITEM, items[0] + a, rest);
      } else {
        var tail := ItemsOnto(items[1..], open, a);
        ItemsOntoIs(items[1..], open, a, rest);
        Assoc("\n", tail, rest);
        Assoc(items[0], "\n" + tail, rest);
        Assoc(ITEM, items[0] + ("\n" + tail), rest);
      }
    }
  }

  lemma SegOntoIs(seg: Seg, a: string, rest: string)
    ensures SegOnto(seg, a + rest) == SegOnto(seg, a) + rest
  {
    match seg {
      case Ln(text, end) => {
        Assoc(end, a, rest);
        Assoc(text, end + a, rest);
      }
      case Blk(people, items, open) => {
        ItemsOntoIs(items, open, a, rest);
        Assoc(Header(people), ItemsOnto(items, open, a), rest);
      }
    }
  }

  lemma {:induction false} OntoIs(x: seq<Seg>, rest: string)
    ensures Onto(x, rest) == Render(x) + rest
  {
    if x != [] {
      OntoIs(x[1..], rest);
      SegOntoIs(x[0], Render(x[1..]), rest);
    }
  }

  lemma RenderAppend(x: seq<Seg>, y: seq<Seg>)
    ensures Render(x + y) == Render(x) + Render(y)
  {
    OntoAppend(x, y, "");
    OntoIs(x, Render(y));
  }

  // ---- From text to segments and back ----

  lemma {:induction false} LineTextIs(t: string, rest: string)
    requires OneLine(t) && (rest == "" || IsTerminator(rest[0]))
    ensures LineText(t + rest) == t
  {
    if t == "" {
      assert t + rest == rest;
    } else {
      assert (t + rest)[1..] == t[1..] + rest;
      LineTextIs(t[1..], rest);
    }
  }

  lemma SplitPrefix(p: string, s: string)
    requires p <= s
    ensures s == p + s[|p|..]
  {}

  lemma DropPrefix(p: string, s: string)
    ensures (p + s)[|p|..] == s && p <= p + s
  {}

  lemma DropDrop(s: string, i: nat, j: nat)
    requires i + j <= |s|
    ensures s[i..][j..] == s[i + j..]
  {}

  predicate Ends(rest: string) { rest == "" || (IsTerminator(rest[0]) && rest[0] != '\n') }

  lemma TakeNewline(t: string, rest: string)
    requires OneLine(t)
    ensures var k := TakeItems(rest);
            TakeItems(ITEM + (t + ("\n" + rest))) == Taken([t] + k.items, k.open, k.rest)
  {
    var u := "\n" + rest;
    DropPrefix("\n", rest);
    LineTextIs(t, u);
    DropPrefix(t, u);
    DropPrefix(ITEM, t + u);
    DropDrop(ITEM + (t + u), 4, |t|);
  }

  lemma TakeOpen(t: string, rest: string)
    requires OneLine(t) && Ends(rest)
    ensures TakeItems(ITEM + (t + rest)) == Taken([t], true, rest)
  {
    LineTextIs(t, rest);
    DropPrefix(t, rest);
    DropPrefix(ITEM, t + rest);
    DropDrop(ITEM + (t + rest), 4, |t|);
  }

  /** What the match of the item group is. */
  predicate Matched(k: Taken) {
    && (forall i :: 0 <= i < |k.items| ==> OneLine(k.items[i]))
    && (if k.open then k.items != [] && Ends(k.rest) else !(ITEM <= k.rest))
  }

  /** One turn of the item group. */
  function ItemText(s: string): string
    requires ITEM <= s
  {
    LineText(s[4..])
  }

  function AfterItem(s: string): string
    requires ITEM <= s
  {
    s[4 + |ItemText(s)|..]
  }

  lemma TakeStep(s: string, t: string, after: string)
    requires ITEM <= s && t == ItemText(s) && after == AfterItem(s)
    ensures s == ITEM + (t + after) && OneLine(t) && (after == "" || IsTerminator(after[0]))
    ensures if after != "" && after[0] == '\n' then
              |after[1..]| < |s| && after == "\n" + after[1..]
              && var more := TakeItems(after[1..]); TakeItems(s) == Taken([t] + more.items, more.open, more.rest)
            else TakeItems(s) == Taken([t], true, after)
  {
    SplitPrefix(ITEM, s);
    SplitPrefix(t, s[4..]);
    DropDrop(s, 4, |t|);
    if after != "" && after[0] == '\n' { SplitPrefix("\n", after); }
  }

  lemma ItemsOntoCons(t: string, items: seq<string>, open: bool, rest: string)
    requires open ==> items != []
    ensures ItemsOnto([t] + items, open, rest) == ITEM + (t + ("\n" + ItemsOnto(items, open, rest)))
  {
    assert ([t] + items)[1..] == items;
  }

  lemma {:induction false} TakeItemsMatches(s: string)
    ensures Matched(TakeItems(s))
    decreases |s|
  {
    if ITEM <= s {
      var t, after := ItemText(s), AfterItem(s);
      TakeStep(s, t, after);
      if after != "" && after[0] == '\n' { TakeItemsMatches(after[1..]); }
    }
  }

  lemma {:induction false} TakeItemsIs(s: string)
    ensures var k := TakeItems(s); s == ItemsOnto(k.items, k.open, k.rest) && Matched(k)
    decreases |s|
  {
    TakeItemsMatches(s);
    if ITEM <= s {
      var t, after := ItemText(s), AfterItem(s);
      TakeStep(s, t, after);
      if after != "" && after[0] == '\n' {
        TakeItemsIs(after[1..]);
        var more := TakeItems(after[1..]);
        ItemsOntoCons(t, more.items, more.open, more.rest);
      }
    }
  }

  lemma CatCons<T>(a: T, b: seq<T>, c: seq<T>)
    ensures [a] + (b + c) == ([a] + b) + c
  {}

  lemma HeadTail<T>(b: seq<T>)
    requires b != []
    ensures b == [b[0]] + b[1..]
  {}

  /** Closed items in front of a text join the items the text begins with. */
  lemma {:induction false} TakeRendered(items: seq<string>, rest: string)
    requires forall i :: 0 <= i < |items| ==> OneLine(items[i])
    ensures var k := TakeItems(rest);
            TakeItems(ItemsOnto(items, false, rest)) == Taken(items + k.items, k.open, k.rest)
  {
    if items == [] {
      assert items + TakeItems(rest).items == TakeItems(rest).items;
    } else {
      TakeRendered(items[1..], rest);
      TakeNewline(items[0], ItemsOnto(items[1..], false, rest));
      HeadTail(items);
      CatCons(items[0], items[1..], TakeItems(rest).items);
    }
  }

  lemma {:induction false} TakeRenderedOpen(items: seq<string>, rest: string)
    requires items != [] && Ends(rest) && forall i :: 0 <= i < |items| ==> OneLine(items[i])
    ensures TakeItems(ItemsOnto(items, true, rest)) == Taken(items, true, rest)
  {
    HeadTail(items);
    if |items| == 1 {
      TakeOpen(items[0], rest);
    } else {
      TakeRenderedOpen(items[1..], rest);
      TakeNewline(items[0], ItemsOnto(items[1..], true, rest));
    }
  }

  lemma SegsOfBlock(people: bool, s: string)
    ensures var k := TakeItems(s); Segs(Header(people) + s) == [Blk(people, k.items, k.open)] + Segs(k.rest)
  {
    DropPrefix(Header(people), s);
    if people { assert (Header(people) + s)[0] == 'p'; }
  }

  /** A whole line found at the start of a text is the text's first line. */
  lemma FirstLineIs(name: string, text: string, rest: string)
    requires OneLine(name) && OneLine(text) && (rest == "" || IsTerminator(rest[0]))
    requires name + "\n" <= text + rest
    ensures text == name && rest != "" && rest[0] == '\n'
  {
    var s := text + rest;
    assert s[|name|] == (name + "\n")[|name|] == '\n';
    assert forall i :: 0 <= i < |name| ==> s[i] == (name + "\n")[i] == name[i];
    assert forall i :: 0 <= i < |text| ==> s[i] == text[i];
    var at := if |text| < |s| then s[|text|] else '\n';
    assert |text| < |s| ==> at == rest[0];
    assert |text| == |name|;
  }

  lemma ItemLineIs(text: string, rest: string)
    requires OneLine(text) && (rest == "" || IsTerminator(rest[0]))
    requires ITEM <= text + rest
    ensures ITEM <= text
  {
    var s := text + rest;
    assert s[0] == ' ' && s[1] == ' ' && s[2] == '-' && s[3] == ' ';
    var at := if |text| < |s| then s[|text|] else '\n';
    assert |text| < |s| ==> at == rest[0];
    assert forall i :: 0 <= i < |text| ==> s[i] == text[i];
  }

  lemma NotAHeader(text: string, rest: string)
    requires OneLine(text) && (rest == "" || IsTerminator(rest[0]))
    requires !(rest != "" && rest[0] == '\n' && (text == "tags:" || text == "participants:"))
    ensures !(Header(false) <= text + rest) && !(Header(true) <= text + rest)
  {
    if Header(false) <= text + rest {
      assert Header(false) == "tags:" + "\n";
      FirstLineIs("tags:", text, rest);
    }
    if Header(true) <= text + rest {
      assert Header(true) == "participants:" + "\n";
      FirstLineIs("participants:", text, rest);
    }
  }

  lemma SegsOfLine(text: string, end: string, rest: string)
    requires Piece(Ln(text, end)) && end != ""
    ensures Segs(text + (end + rest)) == [Ln(text, end)] + Segs(rest)
  {
    var s := text + (end + rest);
    NotAHeader(text, end + rest);
    LineTextIs(text, end + rest);
    DropPrefix(text, end + rest);
    DropPrefix(end, rest);
    DropDrop(s, |text|, 1);
    assert s[|text|] == (end + rest)[0] == end[0];
    assert [s[|text|]] == end && s[|text| + 1..] == rest;
  }

  lemma SegsOfLast(text: string)
    requires OneLine(text)
    ensures Segs(text) == [Ln(text, "")]
  {
    assert text + "" == text;
    NotAHeader(text, "");
    LineTextIs(text, "");
  }

  lemma RenderCons(seg: Seg, x: seq<Seg>)
    ensures Render([seg] + x) == SegOnto(seg, Render(x))
  {
    assert ([seg] + x)[1..] == x;
  }

  lemma RenderLast(text: string)
    ensures Render([Ln(text, "")]) == text
  {
    var x := [Ln(text, "")];
    assert x[1..] == [];
    assert Onto(x, "") == SegOnto(x[0], Onto([], "")) == text + ("" + "");
  }

  lemma FirstLine(s: string)
    requires |LineText(s)| < |s|
    ensures var t := LineText(s); s == t + ([s[|t|]] + s[|t| + 1..])
  {}

  lemma {:induction false} RenderSegs(s: string)
    ensures Render(Segs(s)) == s
    decreases |s|
  {
    if Header(false) <= s || Header(true) <= s {
      var people := !(Header(false) <= s);
      var rest := s[|Header(people)|..];
      assert s == Header(people) + rest;
      SegsOfBlock(people, rest);
      TakeItemsIs(rest);
      var k := TakeItems(rest);
      RenderSegs(k.rest);
      RenderCons(Blk(people, k.items, k.open), Segs(k.rest));
    } else {
      var t := LineText(s);
      if |t| < |s| {
        var rest := s[|t| + 1..];
        RenderSegs(rest);
        FirstLine(s);
        RenderCons(Ln(t, [s[|t|]]), Segs(rest));
      } else {
        RenderLast(s);
      }
    }
  }

  lemma ChainedCons(seg: Seg, x: seq<Seg>)
    requires Piece(seg) && Canonical(x) && Joins(seg, x[0])
    ensures Canonical([seg] + x)
  {
    var y := [seg] + x;
    forall i | 0 <= i < |y| - 1 ensures Joins(y[i], y[i + 1]) {
      if i > 0 { assert y[i] == x[i - 1] && y[i + 1] == x[i]; }
    }
  }

  lemma FirstOfSegs(s: string)
    ensures var first := Segs(s)[0];
            (StartsItem(first) ==> ITEM <= s) && (Ends(s) ==> first.Ln? && first.text == "" && first.end != "\n")
  {
    if s == "" {
      SegsOfLast("");
    } else if IsTerminator(s[0]) {
      SegsOfLine("", [s[0]], s[1..]);
      assert "" + ([s[0]] + s[1..]) == s;
    }
  }

  lemma FirstLineIsPiece(s: string)
    requires !(Header(false) <= s) && !(Header(true) <= s) && |LineText(s)| < |s|
    ensures Piece(Ln(LineText(s), [s[|LineText(s)|]]))
  {
    var t := LineText(s);
    if s[|t|] == '\n' && (t == "tags:" || t == "participants:") { LineIsHeader(s, t); }
  }

  lemma {:induction false} SegsCanonical(s: string)
    ensures Canonical(Segs(s))
    decreases |s|
  {
    if Header(false) <= s || Header(true) <= s {
      var people := !(Header(false) <= s);
      var rest := s[|Header(people)|..];
      assert s == Header(people) + rest;
      SegsOfBlock(people, rest);
      var k := TakeItems(rest);
      TakeItemsIs(rest);
      SegsCanonical(k.rest);
      FirstOfSegs(k.rest);
      ChainedCons(Blk(people, k.items, k.open), Segs(k.rest));
    } else {
      var t := LineText(s);
      if |t| < |s| {
        var rest := s[|t| + 1..];
        SegsCanonical(rest);
        FirstLineIsPiece(s);
        ChainedCons(Ln(t, [s[|t|]]), Segs(rest));
      }
    }
  }

  lemma LineIsHeader(s: string, name: string)
    requires LineText(s) == name && |name| < |s| && s[|name|] == '\n'
    ensures name + "\n" <= s
  {
    assert s[..|name| + 1] == name + "\n";
  }

  /** Whether a text can follow the segment without being read as part of it. */
  predicate JoinsText(a: Seg, t: string) {
    match a
    case Ln(_, end) => end != ""
    case Blk(_, _, open) => if open then Ends(t) else !(ITEM <= t)
  }

  lemma JoinsNext(a: Seg, b: Seg, t: string)
    requires Piece(b) && Joins(a, b) && JoinsText(b, t)
    ensures JoinsText(a, SegOnto(b, t))
  {
    if a.Blk? && !a.open {
      var s := SegOnto(b, t);
      if b.Blk? {
        assert s[0] == Header(b.people)[0];
      } else if ITEM <= s {
        ItemLineIs(b.text, b.end + t);
      }
    }
  }

  lemma {:induction false} JoinsOnto(a: Seg, y: seq<Seg>, t: string)
    requires y != [] && Chained(y) && JoinsText(y[|y| - 1], t) && Joins(a, y[0])
    ensures JoinsText(a, Onto(y, t))
    decreases |y|
  {
    if |y| > 1 {
      assert Joins(y[0], y[1]);
      assert Chained(y[1..]);
      JoinsOnto(y[0], y[1..], t);
    } else {
      assert y[1..] == [];
    }
    JoinsNext(a, y[0], Onto(y[1..], t));
  }

  /** Segments in front of a text are read back as they are when nothing runs together. */
  lemma {:induction false} SegsAppend(y: seq<Seg>, t: string)
    requires Chained(y) && (y != [] ==> JoinsText(y[|y| - 1], t))
    ensures Segs(Onto(y, t)) == y + Segs(t)
  {
    if y == [] {
      assert y + Segs(t) == Segs(t);
    } else {
      if |y| > 1 {
        assert Joins(y[0], y[1]);
        JoinsOnto(y[0], y[1..], t);
      } else {
        assert y[1..] == [];
      }
      SegsOfSeg(y[0], Onto(y[1..], t));
      SegsAppend(y[1..], t);
      HeadTail(y);
      CatCons(y[0], y[1..], Segs(t));
    }
  }

  lemma SegsOfSeg(a: Seg, r: string)
    requires Piece(a) && JoinsText(a, r)
    ensures Segs(SegOnto(a, r)) == [a] + Segs(r)
  {
    match a {
      case Ln(text, end) => SegsOfLine(text, end, r);
      case Blk(people, items, open) => {
        SegsOfBlock(people, ItemsOnto(items, open, r));
        if open { TakeRenderedOpen(items, r); } else {
          TakeRendered(items, r);
          assert TakeItems(r).items == [];
          assert items + [] == items;
        }
      }
    }
  }

  /** Canonical segment lists are exactly the readings of texts. */
  lemma SegsRender(x: seq<Seg>)
    requires Canonical(x)
    ensures Segs(Render(x)) == x
  {
    var n := |x| - 1;
    var y, last := x[..n], x[n];
    assert x == y + [last];
    assert Chained(y);
    if n > 0 {
      assert Joins(x[n - 1], x[n]);
    }
    OntoAppend(y, [last], "");
    RenderLast(last.text);
    SegsOfLast(last.text);
    SegsAppend(y, last.text);
  }
}
