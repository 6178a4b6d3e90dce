/** Writing metadata twice: when the second write alone decides the result. */
module MarkdownAbsorption {
  import opened Text
  import opened Whitespace
  import opened MarkdownSegments
  import opened MetadataSlots
  import opened MeetingMarkdown

  // ---- Texts without white space at the ends, and the newline a last block adds ----

  predicate InkFirst(seg: Seg) { seg.Ln? ==> seg.text != "" && !IsSpace(seg.text[0]) }

  function SlotOf(people: bool): Slot { if people then Participants else Tags }

  /** A block whose last item ends in ink. */
  predicate InkBlock(seg: Seg) { seg.Blk? && seg.items != [] && Ink(seg.items[|seg.items| - 1]) }

  /**
   * The end of a text: ink, or a block with nothing after its last item. A closed block at the end was just written,
   * so it is the first of its slot.
   */
  predicate InkLast(x: seq<Seg>)
    requires x != []
  {
    var n := |x| - 1;
    x[n].Ln? &&
    if x[n].text != "" then Ink(x[n].text)
    else n > 0 && InkBlock(x[n - 1]) && (x[n - 1].open || First(SlotOf(x[n - 1].people), x) == n - 1)
  }

  predicate Tidy(x: seq<Seg>) { x == [Ln("", "")] || (x != [] && InkFirst(x[0]) && InkLast(x)) }

  predicate EndsClosed(x: seq<Seg>) {
    var n := |x| - 1;
    n > 0 && x[n].Ln? && x[n].text == "" && x[n - 1].Blk? && !x[n - 1].open
  }

  /** The list without the newline a closed last block ends with. */
  function Shut(x: seq<Seg>): seq<Seg> {
    if EndsClosed(x) then x[|x| - 2 := x[|x| - 2].(open := true)] else x
  }

  lemma JoinedInk(parts: seq<string>, separator: string)
    requires parts != [] && forall i :: 0 <= i < |parts| ==> Ink(parts[i])
    ensures Ink(Joined(parts, separator))
  {
    if |parts| > 1 {
      JoinedInk(parts[1..], separator);
      var rest := Joined(parts[1..], separator);
      var s := Joined(parts, separator);
      assert s[|s| - 1] == rest[|rest| - 1];
    }
  }

  lemma LineInk(c: Slot, v: Fields)
    requires Sound(v) && !IsBlock(c)
    ensures Ink(LineOf(c, v)) && !IsSpace(LineOf(c, v)[0])
  {
    JoinedInk(v.participants, "、");
    var s := LineOf(c, v);
    assert s[0] == Prefix(c)[0];
    assert Ink(Content(c, v));
    assert s[|s| - 1] == Content(c, v)[|Content(c, v)| - 1];
  }

  lemma ReplaceInkFirst(c: Slot, v: Fields, x: seq<Seg>)
    requires Sound(v) && Has(c, x) && InkFirst(x[0])
    ensures InkFirst(PutSeg(c, v, x)[0])
  {
    ReplaceLands(c, v, x);
    if !IsBlock(c) { LineInk(c, v); }
  }

  lemma LastLineInk(c: Slot, v: Fields, x: seq<Seg>)
    requires Sound(v) && Has(c, x) && x[|x| - 1].Ln? && x[|x| - 1].text != "" && Ink(x[|x| - 1].text)
    ensures InkLast(PutSeg(c, v, x))
  {
    ReplaceLands(c, v, x);
    if !IsBlock(c) { LineInk(c, v); }
  }

  lemma NewBlockInk(c: Slot, v: Fields, end: string)
    requires Sound(v) && IsBlock(c)
    ensures var seg := NewSeg(c, v, end); InkBlock(seg) && SlotOf(seg.people) == c
  {
  }

  lemma LastBlockReplaced(c: Slot, v: Fields, x: seq<Seg>)
    requires Sound(v) && Has(c, x) && InkLast(x) && x[|x| - 1].text == "" && First(c, x) == |x| - 2 && IsBlock(c)
    ensures InkLast(PutSeg(c, v, x))
  {
    ReplaceLands(c, v, x);
    NewBlockInk(c, v, EndOf(x[|x| - 2]));
  }

  lemma LastBlockKept(c: Slot, v: Fields, x: seq<Seg>)
    requires Sound(v) && Has(c, x) && InkLast(x) && x[|x| - 1].text == "" && First(c, x) < |x| - 2
    ensures InkLast(PutSeg(c, v, x))
  {
    var n := |x| - 1;
    ReplaceLands(c, v, x);
    ReplaceMovesOr(c, v, x, SlotOf(x[n - 1].people));
    InkLastStays(x, PutSeg(c, v, x));
  }

  lemma InkLastStays(x: seq<Seg>, y: seq<Seg>)
    requires |x| > 1 && InkLast(x) && x[|x| - 1].text == "" && |y| == |x| && y[|x| - 1] == x[|x| - 1] && y[|x| - 2] == x[|x| - 2]
    requires First(SlotOf(x[|x| - 2].people), y) == First(SlotOf(x[|x| - 2].people), x)
    ensures InkLast(y)
  {
  }

  lemma LastBlockInk(c: Slot, v: Fields, x: seq<Seg>)
    requires Sound(v) && Has(c, x) && InkLast(x) && x[|x| - 1].text == ""
    ensures InkLast(PutSeg(c, v, x))
  {
    FitsHasText(c, x[First(c, x)]);
    if First(c, x) == |x| - 2 {
      assert IsBlock(c);
      LastBlockReplaced(c, v, x);
    } else {
      LastBlockKept(c, v, x);
    }
  }

  lemma ReplaceInkLast(c: Slot, v: Fields, x: seq<Seg>)
    requires Sound(v) && Has(c, x) && x != [] && InkLast(x)
    ensures InkLast(PutSeg(c, v, x))
  {
    if x[|x| - 1].text != "" { LastLineInk(c, v, x); } else { LastBlockInk(c, v, x); }
  }

  lemma ReplaceTidy(c: Slot, v: Fields, x: seq<Seg>)
    requires Sound(v) && Canonical(x) && Tidy(x) && Has(c, x)
    ensures Tidy(PutSeg(c, v, x))
  {
    FitsHasText(c, x[First(c, x)]);
    assert x != [Ln("", "")];
    ReplaceInkFirst(c, v, x);
    ReplaceInkLast(c, v, x);
  }

  lemma ReplaceMovesOr(c: Slot, v: Fields, x: seq<Seg>, d: Slot)
    requires Has(c, x)
    ensures First(d, PutSeg(c, v, x)) == First(d, x)
  {
    if c == d { ReplaceLands(c, v, x); } else { ReplaceMoves(c, v, x, d); }
  }

  lemma InsertEnds(x: seq<Seg>, at: nat, ins: seq<Seg>)
    requires 1 <= at < |x|
    ensures var y := InsertAt(x, at, ins);
            |y| == |x| + |ins| && y[0] == x[0] && y[|y| - 1] == x[|x| - 1]
            && (at < |x| - 1 ==> y[|y| - 2] == x[|x| - 2])
  {
    var n := |x| - 1 + |ins|;
    InsertedIndex(x, at, ins, 0);
    InsertedIndex(x, at, ins, n);
    if at < |x| - 1 { InsertedIndex(x, at, ins, n - 1); }
  }

  /** A slot is inserted after a line that has a terminator. */
  lemma SpotAfterLine(c: Slot, x: seq<Seg>)
    requires Canonical(x) && Spot(c, x).Some?
    ensures var at := Spot(c, x).value; 1 <= at < |x| && x[at - 1].Ln?
  {
    SpotIs(c, x);
  }

  lemma InsertTidy(c: Slot, v: Fields, x: seq<Seg>)
    requires Sound(v) && Canonical(x) && Tidy(x) && !Has(c, x) && Spot(c, x).Some?
    ensures Tidy(PutSeg(c, v, x))
  {
    SpotAfterLine(c, x);
    var at, n := Spot(c, x).value, |x| - 1;
    InsertEnds(x, at, Inserted(c, v));
    if x[n].text == "" {
      var d := SlotOf(x[n - 1].people);
      if !x[n - 1].open {
        assert Fits(d, x[n - 1]);
        InsertMoves(c, v, x, d);
      }
    }
  }

  lemma PutTidy(c: Slot, v: Fields, x: seq<Seg>)
    requires Sound(v) && Canonical(x) && Tidy(x)
    ensures Tidy(PutSeg(c, v, x))
  {
    if Has(c, x) { ReplaceTidy(c, v, x); } else if Spot(c, x).Some? { InsertTidy(c, v, x); }
  }

  // ---- Trimming a written text ----

  lemma {:induction false} ItemsEnd(items: seq<string>)
    requires items != []
    ensures ItemsOnto(items, false, "") == ItemsOnto(items, true, "") + "\n"
    ensures var s := ItemsOnto(items, true, ""); var last := items[|items| - 1];
            s != "" && s[|s| - 1] == if last == "" then ' ' else last[|last| - 1]
  {
    if |items| == 1 {
      var it := items[0];
      assert ItemsOnto(items, true, "") == ITEM + (it + "") == ITEM + it;
      assert ItemsOnto(items, false, "") == ITEM + (it + ("\n" + "")) == ITEM + (it + "\n");
      Assoc(ITEM, it, "\n");
    } else {
      ItemsEnd(items[1..]);
      var open := ItemsOnto(items[1..], true, "");
      Assoc("\n", open, "\n");
      Assoc(items[0], "\n" + open, "\n");
      Assoc(ITEM, items[0] + ("\n" + open), "\n");
      var s := ITEM + (items[0] + ("\n" + open));
      assert s[|s| - 1] == open[|open| - 1];
    }
  }

  lemma BlockEnd(people: bool, items: seq<string>)
    requires items != []
    ensures SegOnto(Blk(people, items, false), "") == SegOnto(Blk(people, items, true), "") + "\n"
    ensures var s := SegOnto(Blk(people, items, true), ""); var last := items[|items| - 1];
            s[|s| - 1] == if last == "" then ' ' else last[|last| - 1]
  {
    ItemsEnd(items);
    Assoc(Header(people), ItemsOnto(items, true, ""), "\n");
  }

  /** The text of all but the last two segments, of the one before the last, and of the last. */
  lemma RenderEnd(x: seq<Seg>)
    requires Canonical(x) && |x| > 1
    ensures Render(x) == Render(x[..|x| - 2]) + (SegOnto(x[|x| - 2], "") + x[|x| - 1].text)
  {
    var n := |x| - 1;
    var head := x[..n - 1];
    assert x == head + ([x[n - 1]] + [x[n]]);
    RenderAppend(head, [x[n - 1]] + [x[n]]);
    RenderAppend([x[n - 1]], [x[n]]);
    RenderOne(x[n - 1]);
    RenderLast(x[n].text);
  }

  lemma LastOf(a: string, b: string)
    ensures b != "" ==> (a + b)[|a + b| - 1] == b[|b| - 1]
    ensures b == "" ==> a + b == a
  {}

  lemma HeadOf(a: string, b: string)
    requires a + b != "" && !IsSpace((a + b)[0]) && (b != "" ==> IsSpace(b[0]))
    ensures a != "" && !IsSpace(a[0])
  {}

  lemma RenderStart(x: seq<Seg>)
    requires x != [] && InkFirst(x[0])
    ensures Render(x) != "" && !IsSpace(Render(x)[0])
  {
    if x[0].Blk? { assert Render(x)[0] == Header(x[0].people)[0]; }
  }

  lemma InkAhead(head: string, mid: string, last: string)
    requires if last == "" then Ink(mid) else Ink(last)
    ensures Ink(head + (mid + last))
  {
    LastOf(mid, last);
    LastOf(head, mid + last);
  }

  lemma OpenBlockInk(seg: Seg)
    requires InkBlock(seg) && seg.open
    ensures Ink(SegOnto(seg, ""))
  {
    var last := seg.items[|seg.items| - 1];
    BlockEnd(seg.people, seg.items);
    assert seg == Blk(seg.people, seg.items, true) && last != "" && !IsSpace(last[|last| - 1]);
    HeaderInFront(seg);
  }

  lemma HeaderInFront(seg: Seg)
    requires seg.Blk?
    ensures SegOnto(seg, "") != ""
  {
  }

  lemma InkEnds(x: seq<Seg>)
    requires Canonical(x) && InkLast(x) && !EndsClosed(x)
    ensures Ink(Render(x))
  {
    var n := |x| - 1;
    if n == 0 {
      RenderLast(x[0].text);
      assert x == [Ln(x[0].text, "")];
    } else {
      RenderEnd(x);
      if x[n].text == "" { OpenBlockInk(x[n - 1]); }
      InkAhead(Render(x[..n - 1]), SegOnto(x[n - 1], ""), x[n].text);
    }
  }

  /** A tidy list whose last block is open has no white space at the ends. */
  lemma TidyIsTrimmed(x: seq<Seg>)
    requires Canonical(x) && Tidy(x) && !EndsClosed(x)
    ensures Trimmed(Render(x))
  {
    if x == [Ln("", "")] {
      RenderLast("");
    } else {
      RenderStart(x);
      InkEnds(x);
    }
  }

  lemma ShutRenders(x: seq<Seg>)
    requires Canonical(x) && Canonical(Shut(x)) && EndsClosed(x) && x[|x| - 2].items != []
    ensures Render(x) == Render(Shut(x)) + "\n"
  {
    var n, y := |x| - 1, Shut(x);
    RenderEnd(x);
    RenderEnd(y);
    assert y[..n - 1] == x[..n - 1];
    var open := SegOnto(y[n - 1], "");
    BlockEnd(x[n - 1].people, x[n - 1].items);
    LastOf(open, "");
    LastOf(SegOnto(x[n - 1], ""), "");
    Assoc(Render(x[..n - 1]), open, "\n");
  }

  lemma ShutCanonical(x: seq<Seg>)
    requires Canonical(x) && Tidy(x)
    ensures Canonical(Shut(x)) && Tidy(Shut(x)) && !EndsClosed(Shut(x))
    ensures Render(x) == Render(Shut(x)) + if EndsClosed(x) then "\n" else ""
  {
    var y := Shut(x);
    if EndsClosed(x) {
      forall i | 0 <= i < |y| - 1 ensures Joins(y[i], y[i + 1]) { assert Joins(x[i], x[i + 1]); }
      ShutRenders(x);
    }
  }

  lemma {:induction false} TrimNewlines(s: string)
    requires Trimmed(s)
    ensures Trim(s + "\n") == s && Trim(s + "\n" + "\n") == s
  {
    var a, b := s + "\n", s + "\n" + "\n";
    if s == "" {
      assert a[1..] == "" && b[1..] == "\n" && "\n"[1..] == "";
      assert DropSpaces(b) == DropSpaces("\n") == DropSpaces("");
    } else {
      assert a[..|a| - 1] == s && b[..|b| - 1] == a;
      assert DropLastSpaces(a) == DropLastSpaces(s) == s;
      assert DropLastSpaces(b) == DropLastSpaces(a);
      assert DropSpaces(a) == a && DropSpaces(b) == b;
    }
  }

  /** Reading back a written text: the list, its last block open. */
  lemma WrittenTrims(x: seq<Seg>)
    requires Canonical(x) && Tidy(x)
    ensures Trim(Render(x) + "\n") == Render(Shut(x))
  {
    ShutCanonical(x);
    TidyIsTrimmed(Shut(x));
    TrimNewlines(Render(Shut(x)));
    if !EndsClosed(x) { assert Render(x) + "" == Render(x); }
  }

  lemma TrimmedStart(x: seq<Seg>)
    requires Canonical(x) && Trimmed(Render(x)) && Render(x) != ""
    ensures InkFirst(x[0])
  {
    if x[0].Ln? {
      var rest := Onto(x[1..], "");
      if |x| > 1 { assert Joins(x[0], x[1]); }
      assert x[0].end == "" ==> rest == "";
      HeadOf(x[0].text, x[0].end + rest);
    }
  }

  lemma InkBehind(head: string, mid: string, last: string)
    requires Ink(head + (mid + last)) && mid != ""
    ensures if last == "" then Ink(mid) else Ink(last)
  {
    LastOf(mid, last);
    LastOf(head, mid + last);
  }

  lemma EndsInNewline(s: string)
    ensures !Ink(s + "\n")
  {
    LastOf(s, "\n");
  }

  lemma EmptyBlockEnd(people: bool, open: bool)
    ensures !Ink(SegOnto(Blk(people, [], open), ""))
  {
    assert SegOnto(Blk(people, [], open), "") == Header(people) + "";
    LastOf(Header(people), "");
  }

  lemma BlockInk(people: bool, items: seq<string>, open: bool)
    requires Ink(SegOnto(Blk(people, items, open), ""))
    ensures open && InkBlock(Blk(people, items, open))
  {
    if items == [] {
      EmptyBlockEnd(people, open);
    } else {
      BlockEnd(people, items);
      if !open { EndsInNewline(SegOnto(Blk(people, items, true), "")); }
    }
  }

  lemma LineNotInk(text: string, end: string)
    requires |end| == 1 && IsTerminator(end[0])
    ensures var s := SegOnto(Ln(text, end), ""); s != "" && !Ink(s)
  {
    LastOf(end, "");
    LastOf(text, end + "");
  }

  lemma TrimmedEnd(x: seq<Seg>)
    requires Canonical(x) && Trimmed(Render(x)) && Render(x) != ""
    ensures InkLast(x) && !EndsClosed(x)
  {
    var n := |x| - 1;
    if n == 0 {
      RenderLast(x[0].text);
      assert x == [Ln(x[0].text, "")];
    } else {
      RenderEnd(x);
      assert Joins(x[n - 1], x[n]);
      var mid := SegOnto(x[n - 1], "");
      if x[n - 1].Ln? {
        LineNotInk(x[n - 1].text, x[n - 1].end);
      } else {
        assert mid[0] == Header(x[n - 1].people)[0];
      }
      InkBehind(Render(x[..n - 1]), mid, x[n].text);
      if x[n - 1].Blk? && x[n].text == "" { BlockInk(x[n - 1].people, x[n - 1].items, x[n - 1].open); }
    }
  }

  /** A text without white space at the ends reads as a tidy list. */
  lemma TrimmedIsTidy(s: string)
    requires Trimmed(s)
    ensures Canonical(Segs(s)) && Render(Segs(s)) == s && Tidy(Segs(s))
  {
    SegsCanonical(s);
    RenderSegs(s);
    if s == "" { SegsOfLast(""); } else {
      TrimmedStart(Segs(s));
      TrimmedEnd(Segs(s));
    }
  }

  // ---- Whole rewrites ----

  /** No block will be inserted on top of an item. */
  predicate Calm(x: seq<Seg>) { Danger(x) ==> Has(Tags, x) && Has(Participants, x) }

  /** The same, counting on the project line when that is the first to be inserted. */
  predicate Good(x: seq<Seg>) { Danger(x) && Has(Project, x) ==> Has(Tags, x) && Has(Participants, x) }

  lemma PutSecond(c: Slot, v: Fields, x: seq<Seg>)
    requires Sound(v) && Canonical(x) && Opens(x)
    ensures var y := PutSeg(c, v, x);
            |y| > 1 && |x| > 1
            && (StartsItem(y[1]) ==> y[1] == x[1] && (Has(c, x) || c.Title? || c.ProjectInfo? || c.PeopleInfo?))
            && (StartsItem(x[1]) && (Has(c, x) || c.Title?) ==> y[1] == x[1])
  {
    NewIsPiece(c, v, "");
    NewIsPiece(c, v, "\n");
    if Has(c, x) {
      var k := First(c, x);
      PieceEnd(x[k]);
      NewIsPiece(c, v, EndOf(x[k]));
      FitsHasText(c, x[k]);
    } else if Spot(c, x).Some? {
      SpotIs(c, x);
      InsertedIndex(x, Spot(c, x).value, Inserted(c, v), 1);
    }
  }

  lemma PutDanger(c: Slot, v: Fields, x: seq<Seg>)
    requires Sound(v) && Canonical(x)
    ensures var y := PutSeg(c, v, x);
            (Danger(y) ==> Danger(x) && (c.Project? ==> Has(c, x)))
            && (Danger(x) && (Has(c, x) || c.Title?) ==> Danger(y))
  {
    PutKeepsOpens(c, v, x);
    if Opens(x) { PutSecond(c, v, x); }
  }

  lemma PutHas(c: Slot, v: Fields, x: seq<Seg>, d: Slot)
    requires Has(d, x)
    ensures Has(d, PutSeg(c, v, x))
  {
    if c == d { PutSettles(c, v, x); } else { PutMoves(c, v, x, d); }
  }

  lemma PutCalm(c: Slot, v: Fields, x: seq<Seg>)
    requires Sound(v) && Canonical(x) && Calm(x)
    ensures Calm(PutSeg(c, v, x))
  {
    PutDanger(c, v, x);
    if Danger(x) {
      PutHas(c, v, x, Tags);
      PutHas(c, v, x, Participants);
    }
  }

  /** Once calm, a run of replacements on the text is the run of puts on its segments. */
  lemma {:induction false} CalmRun(v: Fields, cs: seq<Slot>, x: seq<Seg>)
    requires Sound(v) && Canonical(x) && Calm(x)
    ensures var y := PutAll(v, cs, x);
            Body(v, cs, Render(x)) == Render(y) && Canonical(y) && Calm(y)
            && (Tidy(x) ==> Tidy(y)) && Opens(y) == Opens(x) && (Danger(y) ==> Danger(x))
    decreases |cs|
  {
    if cs != [] {
      var c := cs[0];
      PutIs(c, v, x);
      PutCanonical(c, v, x);
      PutCalm(c, v, x);
      PutDanger(c, v, x);
      PutKeepsOpens(c, v, x);
      if Tidy(x) { PutTidy(c, v, x); }
      CalmRun(v, cs[1..], PutSeg(c, v, x));
    }
  }

  lemma BodyCons(v: Fields, c: Slot, cs: seq<Slot>, x: seq<Seg>)
    requires Sound(v) && Canonical(x)
    ensures Body(v, [c] + cs, Render(x)) == Body(v, cs, Render(PutSeg(c, v, x)))
    ensures PutAll(v, [c] + cs, x) == PutAll(v, cs, PutSeg(c, v, x))
  {
    PutIs(c, v, x);
    assert ([c] + cs)[1..] == cs;
  }

  lemma LineFirst(v: Fields, c: Slot, cs: seq<Slot>, x: seq<Seg>, y: seq<Seg>)
    requires Sound(v) && Canonical(x) && !IsBlock(c) && y == PutSeg(c, v, x)
    ensures Canonical(y) && Body(v, [c] + cs, Render(x)) == Body(v, cs, Render(y)) && PutAll(v, [c] + cs, x) == PutAll(v, cs, y)
  {
    BodyCons(v, c, cs, x);
    PutCanonical(c, v, x);
  }

  /** Title and project first: these never land on an item. */
  lemma FirstTwoWrite(v: Fields, x: seq<Seg>, cs: seq<Slot>)
    requires Sound(v) && Canonical(x)
    ensures var y := PutSeg(Project, v, PutSeg(Title, v, x));
            && Canonical(y)
            && Body(v, [Title] + ([Project] + cs), Render(x)) == Body(v, cs, Render(y))
            && PutAll(v, [Title] + ([Project] + cs), x) == PutAll(v, cs, y)
  {
    var t, more := PutSeg(Title, v, x), [Project] + cs;
    LineFirst(v, Title, more, x, t);
    LineFirst(v, Project, cs, t, PutSeg(Project, v, t));
  }

  lemma FirstTwoKeep(v: Fields, x: seq<Seg>, d: Slot)
    requires d.Tags? || d.Participants?
    ensures Has(d, PutSeg(Project, v, PutSeg(Title, v, x))) == Has(d, x)
  {
    PutMoves(Title, v, x, d);
    PutMoves(Project, v, PutSeg(Title, v, x), d);
  }

  lemma FirstTwo(v: Fields, x: seq<Seg>, cs: seq<Slot>, y: seq<Seg>)
    requires Sound(v) && Canonical(x) && y == PutSeg(Project, v, PutSeg(Title, v, x))
    ensures Body(v, [Title] + ([Project] + cs), Render(x)) == Body(v, cs, Render(y))
    ensures PutAll(v, [Title] + ([Project] + cs), x) == PutAll(v, cs, y)
    ensures Canonical(y) && (Tidy(x) ==> Tidy(y))
    ensures Has(Tags, y) == Has(Tags, x) && Has(Participants, y) == Has(Participants, x)
    ensures Danger(y) <==> Danger(x) && Has(Project, x)
  {
    var t := PutSeg(Title, v, x);
    FirstTwoWrite(v, x, cs);
    PutCanonical(Title, v, x);
    if Tidy(x) {
      PutTidy(Title, v, x);
      PutTidy(Project, v, t);
    }
    FirstTwoKeep(v, x, Tags);
    FirstTwoKeep(v, x, Participants);
    PutMoves(Title, v, x, Project);
    PutDanger(Title, v, x);
    PutDanger(Project, v, t);
  }

  const REST := [Tags, Participants, ProjectInfo, PeopleInfo]

  lemma OrderSplits()
    ensures ORDER == [Title] + ([Project] + REST) && REST == [Tags] + ([Participants] + [ProjectInfo, PeopleInfo])
  {}

  /** A rewrite of a good text is the puts on its segments. */
  lemma Runs(v: Fields, x: seq<Seg>)
    requires Sound(v) && Canonical(x) && Good(x)
    ensures var y := PutAll(v, ORDER, x);
            Body(v, ORDER, Render(x)) == Render(y) && Canonical(y) && Calm(y) && (Tidy(x) ==> Tidy(y))
  {
    OrderSplits();
    var y := PutSeg(Project, v, PutSeg(Title, v, x));
    FirstTwo(v, x, REST, y);
    CalmRun(v, REST, y);
  }

  /** Leaving the last block open makes no difference to the next rewrite. */
  lemma ShutForgets(v: Fields, x: seq<Seg>)
    requires Canonical(x) && Tidy(x)
    ensures PutAll(v, ORDER, Shut(x)) == PutAll(v, ORDER, x)
  {
    if EndsClosed(x) {
      var k := |x| - 2;
      var c := SlotOf(x[k].people);
      var y := Shut(x);
      UpdateKeeps(Fitter(c), x, k, y[k]);
      assert First(c, x) == k && First(c, y) == k;
      assert PutSeg(c, v, y) == PutSeg(c, v, x);
      PutAhead(c, v, ORDER, x);
      PutAhead(c, v, ORDER, y);
    }
  }

  lemma ShutGood(x: seq<Seg>)
    requires Canonical(x) && Tidy(x) && Calm(x)
    ensures Good(Shut(x))
  {
    if EndsClosed(x) {
      var k := |x| - 2;
      var y := Shut(x);
      UpdateKeeps(Fitter(Tags), x, k, y[k]);
      UpdateKeeps(Fitter(Participants), x, k, y[k]);
    }
  }

  /** What a rewrite with sound fields leaves of a good text, and how it reads. */
  lemma WrittenSound(s: string, v: Fields)
    requires Trimmed(s) && Sound(v) && Good(Segs(s))
    ensures var y := PutAll(v, ORDER, Segs(s)); var out := Body(v, ORDER, s) + "\n";
            Canonical(y) && Tidy(y) && Calm(y)
            && out == Render(y) + "\n" && Trim(out) == Render(Shut(y)) && Segs(Trim(out)) == Shut(y)
  {
    TrimmedIsTidy(s);
    var x := Segs(s);
    Runs(v, x);
    var y := PutAll(v, ORDER, x);
    WrittenTrims(y);
    ShutCanonical(y);
    SegsRender(Shut(y));
  }

  /** What a written good text reads as. */
  lemma Written(markdown: string, m: Metadata)
    requires Ready(m) && Good(Segs(Trim(markdown)))
    ensures var y := PutAll(Clean(m), ORDER, Segs(Trim(markdown)));
            Canonical(y) && Tidy(y) && Calm(y)
            && Apply(markdown, m) == Render(y) + "\n" && Trim(Apply(markdown, m)) == Render(Shut(y))
            && Segs(Trim(Apply(markdown, m))) == Shut(y)
  {
    ReadyIsSound(m);
    TrimIs(markdown);
    WrittenSound(Trim(markdown), Clean(m));
  }

  lemma OrderDistinct()
    ensures Distinct(ORDER)
  {}

  lemma SecondRewrite(a: Fields, b: Fields, x: seq<Seg>, y: seq<Seg>)
    requires y == PutAll(a, ORDER, x) && Canonical(y) && Tidy(y)
    ensures PutAll(b, ORDER, Shut(y)) == PutAll(b, ORDER, x)
  {
    ShutForgets(b, y);
    OrderDistinct();
    AbsorbAll(a, b, ORDER, x);
  }

  lemma RunsAgain(v: Fields, y: seq<Seg>)
    requires Sound(v) && Canonical(y) && Tidy(y) && Calm(y)
    ensures Body(v, ORDER, Render(Shut(y))) == Render(PutAll(v, ORDER, Shut(y)))
  {
    ShutGood(y);
    ShutCanonical(y);
    Runs(v, Shut(y));
  }

  lemma Absorbs(markdown: string, a: Metadata, b: Metadata)
    requires Ready(a) && Ready(b) && Good(Segs(Trim(markdown)))
    ensures Apply(Apply(markdown, a), b) == Apply(markdown, b)
  {
    Written(markdown, a);
    Written(markdown, b);
    ReadyIsSound(b);
    var x := Segs(Trim(markdown));
    var y := PutAll(Clean(a), ORDER, x);
    RunsAgain(Clean(b), y);
    SecondRewrite(Clean(a), Clean(b), x, y);
  }

  // ---- A block inserted on top of an item ----

  lemma {:induction false} TrimKeepsPrefix(p: string, t: string)
    requires Ink(p) && !IsSpace(p[0])
    ensures Trim(p + t) == p + DropLastSpaces(t)
    decreases |t|
  {
    assert DropSpaces(p + t) == p + t;
    DropLastInk(p, t);
  }

  lemma {:induction false} DropLastInk(p: string, t: string)
    requires Ink(p)
    ensures DropLastSpaces(p + t) == p + DropLastSpaces(t)
    decreases |t|
  {
    if t == "" {
      assert p + t == p;
    } else {
      var n := |t| - 1;
      assert (p + t)[|p + t| - 1] == t[n] && (p + t)[..|p + t| - 1] == p + t[..n];
      if IsSpace(t[n]) { DropLastInk(p, t[..n]); }
    }
  }

  lemma MergeText(people: bool, items: seq<string>, x: seq<Seg>)
    requires forall i :: 0 <= i < |items| ==> OneLine(items[i])
    ensures var k := TakeItems(Render(x));
            Segs(Render([Ln("---", "\n")] + ([Blk(people, items, false)] + x)))
            == [Ln("---", "\n")] + ([Blk(people, items + k.items, k.open)] + Segs(k.rest))
  {
    var blk, rest := Blk(people, items, false), Render(x);
    RenderCons(Ln("---", "\n"), [blk] + x);
    RenderCons(blk, x);
    var inner := ItemsOnto(items, false, rest);
    SegsOfLine("---", "\n", Header(people) + inner);
    SegsOfBlock(people, inner);
    TakeRendered(items, rest);
  }

  lemma MergedShape(c: Slot, v: Fields, z: seq<Seg>, extra: seq<string>, open: bool, rest: seq<Seg>)
    requires IsBlock(c) && extra != []
    requires z == [Ln("---", "\n")] + ([Blk(c.Participants?, ItemsOf(c, v) + extra, open)] + rest)
    ensures Opens(z) && !Danger(z) && |z| > 1 && First(c, z) == 1 && Took(c, v, z[1])
  {
    IndexIs(Fitter(c), z, 1);
  }

  lemma BlockPut(c: Slot, v: Fields, x: seq<Seg>)
    requires IsBlock(c) && !Has(c, x) && Opens(x)
    ensures PutSeg(c, v, x) == [Ln("---", "\n")] + ([Blk(c.Participants?, ItemsOf(c, v), false)] + x[1..])
  {
    assert x[..1] == [Ln("---", "\n")];
  }

  lemma ItemsOneLine(c: Slot, v: Fields)
    requires Sound(v)
    ensures forall i :: 0 <= i < |ItemsOf(c, v)| ==> OneLine(ItemsOf(c, v)[i])
  {}

  /** A block inserted right before an item takes it, and the items after it, as its own. */
  lemma MergePut(c: Slot, v: Fields, x: seq<Seg>)
    requires Sound(v) && Canonical(x) && IsBlock(c) && !Has(c, x) && Danger(x)
    ensures var z := Segs(Render(PutSeg(c, v, x)));
            Opens(z) && !Danger(z) && First(c, z) == 1 && |z| > 1 && Took(c, v, z[1])
  {
    BlockPut(c, v, x);
    ItemsOneLine(c, v);
    MergeText(c.Participants?, ItemsOf(c, v), x[1..]);
    ItemAhead(x);
    var k := TakeItems(Render(x[1..]));
    MergedShape(c, v, Segs(Render(PutSeg(c, v, x))), k.items, k.open, Segs(k.rest));
  }

  /** A slot's block that begins with the written items and goes on with items the text had. */
  predicate Took(c: Slot, v: Fields, seg: Seg) {
    seg.Blk? && |seg.items| > |ItemsOf(c, v)| && ItemsOf(c, v) <= seg.items
  }

  lemma ItemAhead(x: seq<Seg>)
    requires Canonical(x) && Danger(x)
    ensures TakeItems(Render(x[1..])).items != []
  {
    var text := x[1..][0].text;
    var rest := Render(x[1..]);
    assert rest == text + (x[1].end + Onto(x[1..][1..], ""));
    assert ITEM <= text;
    assert rest[..4] == text[..4] == ITEM;
  }

  function BadSlot(x: seq<Seg>): Slot { if Has(Tags, x) then Participants else Tags }

  lemma BodyStep(v: Fields, c: Slot, cs: seq<Slot>, s: string)
    requires Active(c, v)
    ensures Body(v, [c] + cs, s) == Body(v, cs, Put(c, v, s))
  {
    assert ([c] + cs)[1..] == cs;
  }

  lemma AfterMerge(c: Slot, v: Fields, cs: seq<Slot>, x: seq<Seg>)
    requires Sound(v) && Canonical(x) && IsBlock(c) && !Has(c, x) && Danger(x) && c !in cs
    ensures var y := Segs(Body(v, [c] + cs, Render(x)));
            Canonical(y) && Render(y) == Body(v, [c] + cs, Render(x))
            && Opens(y) && !Danger(y) && Has(c, y) && Took(c, v, y[First(c, y)])
  {
    BodyStep(v, c, cs, Render(x));
    PutIs(c, v, x);
    MergePut(c, v, x);
    var z := Segs(Put(c, v, Render(x)));
    SegsCanonical(Put(c, v, Render(x)));
    RenderSegs(Put(c, v, Render(x)));
    CalmRun(v, cs, z);
    PutAllKeeps(v, cs, z, c);
    SegsRender(PutAll(v, cs, z));
  }

  /** What a rewrite of a text that is not good leaves: a block that took items. */
  predicate Damaged(c: Slot, v: Fields, s: string) {
    var y := Segs(s);
    Canonical(y) && Render(y) == s && Opens(y) && !Danger(y) && Has(c, y) && Took(c, v, y[First(c, y)])
  }

  lemma BadTags(v: Fields, y: seq<Seg>)
    requires Sound(v) && Canonical(y) && Danger(y) && !Has(Tags, y)
    ensures Damaged(Tags, v, Body(v, REST, Render(y)))
  {
    OrderSplits();
    AfterMerge(Tags, v, [Participants] + [ProjectInfo, PeopleInfo], y);
  }

  lemma BadParticipants(v: Fields, y: seq<Seg>)
    requires Sound(v) && Canonical(y) && Danger(y) && Has(Tags, y) && !Has(Participants, y)
    ensures Damaged(Participants, v, Body(v, REST, Render(y)))
  {
    OrderSplits();
    var infos := [ProjectInfo, PeopleInfo];
    BodyCons(v, Tags, [Participants] + infos, y);
    PutCanonical(Tags, v, y);
    PutDanger(Tags, v, y);
    PutMoves(Tags, v, y, Participants);
    AfterMerge(Participants, v, infos, PutSeg(Tags, v, y));
  }

  lemma BadRun(v: Fields, x: seq<Seg>)
    requires Sound(v) && Canonical(x) && !Good(x)
    ensures Damaged(BadSlot(x), v, Body(v, ORDER, Render(x)))
  {
    OrderSplits();
    var y := PutSeg(Project, v, PutSeg(Title, v, x));
    FirstTwo(v, x, REST, y);
    if Has(Tags, x) { BadParticipants(v, y); } else { BadTags(v, y); }
  }

  /** The text up to the first item of a block, and the block, survive trimming. */
  lemma BlockSurvives(y: seq<Seg>, k: nat)
    requires Canonical(y) && Opens(y) && 1 <= k < |y| && y[k].Blk? && y[k].items != [] && Ink(y[k].items[0])
    ensures var w := Segs(Trim(Render(y) + "\n"));
            |w| > k && w[..k] == y[..k] && w[k].Blk? && w[k].people == y[k].people
  {
    var head, blk := y[..k], y[k];
    var start := Header(blk.people) + (ITEM + blk.items[0]);
    var tail := TailOf(y, k);
    BlockText(y, k);
    var p := Render(head) + start;
    assert Render(y) + "\n" == p + (tail + "\n") by {
      Assoc(Render(head), start, tail);
      Assoc(p, tail, "\n");
    }
    assert Ink(p) by {
      LastOf(ITEM, blk.items[0]);
      LastOf(Header(blk.people), ITEM + blk.items[0]);
      LastOf(Render(head), start);
    }
    assert !IsSpace(p[0]) by { assert head[0] == Ln("---", "\n"); OpensRender(head, start); }
    TrimKeepsPrefix(p, tail + "\n");
    var t := DropLastSpaces(tail + "\n");
    Assoc(Render(head), start, t);
    Assoc(Header(blk.people), ITEM + blk.items[0], t);
    OntoIs(head, start + t);
    assert Joins(y[k - 1], y[k]);
    assert !(ITEM <= start + t) by { assert (start + t)[0] == Header(blk.people)[0]; }
    SegsAppend(head, start + t);
    SegsOfBlock(blk.people, (ITEM + blk.items[0]) + t);
  }

  lemma OpensRender(x: seq<Seg>, t: string)
    requires Opens(x)
    ensures Render(x) + t != "" && (Render(x) + t)[0] == '-'
  {}

  /** The text of `y` after the first item of its block `k`. */
  function TailOf(y: seq<Seg>, k: nat): string
    requires k < |y| && y[k].Blk? && y[k].items != []
  {
    var after := Render(y[k + 1..]);
    if y[k].open && |y[k].items| == 1 then after else "\n" + ItemsOnto(y[k].items[1..], y[k].open, after)
  }

  lemma BlockText(y: seq<Seg>, k: nat)
    requires k < |y| && y[k].Blk? && y[k].items != []
    ensures Render(y) == Render(y[..k]) + ((Header(y[k].people) + (ITEM + y[k].items[0])) + TailOf(y, k))
  {
    var blk, tail := y[k], TailOf(y, k);
    assert y == y[k := blk];
    RenderAround(y, k, blk);
    Assoc(ITEM, blk.items[0], tail);
    Assoc(Header(blk.people), ITEM + blk.items[0], tail);
  }

  /** After a damaged text is trimmed, its block is still there, and nothing is in danger any more. */
  lemma DamageStays(c: Slot, v: Fields, s: string)
    requires Sound(v) && IsBlock(c) && Damaged(c, v, s)
    ensures var w := Segs(Trim(s + "\n")); Canonical(w) && Render(w) == Trim(s + "\n") && Has(c, w) && Good(w)
  {
    var y := Segs(s);
    var k := First(c, y);
    assert Ink(ItemsOf(c, v)[0]);
    assert y[k].items[0] == ItemsOf(c, v)[0];
    BlockSurvives(y, k);
    var w := Segs(Trim(s + "\n"));
    SegsCanonical(Trim(s + "\n"));
    RenderSegs(Trim(s + "\n"));
    assert Fits(c, w[k]);
    assert w[..k][0] == y[..k][0];
    if k > 1 { assert w[..k][1] == y[..k][1]; }
  }

  /** The second rewrite sets the block to its own items only. */
  lemma SecondSets(c: Slot, v: Fields, w: seq<Seg>)
    requires Sound(v) && Canonical(w) && Good(w) && IsBlock(c) && Has(c, w)
    ensures var y := Segs(Body(v, ORDER, Render(w))); Has(c, y) && y[First(c, y)].Blk? && y[First(c, y)].items == ItemsOf(c, v)
  {
    Runs(v, w);
    SegsRender(PutAll(v, ORDER, w));
    OrderDistinct();
    PutAllReads(v, ORDER, w, c);
  }

  lemma BadSlotIsBlock(x: seq<Seg>)
    ensures IsBlock(BadSlot(x))
  {}

  lemma SameBody(s: string, t: string)
    requires s + "\n" == t + "\n"
    ensures s == t
  {
    assert (s + "\n")[..|s|] == s && (t + "\n")[..|t|] == t;
  }

  lemma Damages(markdown: string, a: Metadata, b: Metadata)
    requires Ready(a) && Ready(b) && !Good(Segs(Trim(markdown)))
    ensures Apply(Apply(markdown, a), b) != Apply(markdown, b)
  {
    ReadyIsSound(a);
    ReadyIsSound(b);
    var x := Segs(Trim(markdown));
    SegsCanonical(Trim(markdown));
    RenderSegs(Trim(markdown));
    var c := BadSlot(x);
    BadSlotIsBlock(x);
    BadRun(Clean(a), x);
    BadRun(Clean(b), x);
    DamageStays(c, Clean(a), Body(Clean(a), ORDER, Trim(markdown)));
    var w := Segs(Trim(Apply(markdown, a)));
    SecondSets(c, Clean(b), w);
    var first, second := Body(Clean(b), ORDER, Trim(markdown)), Body(Clean(b), ORDER, Render(w));
    if first + "\n" == second + "\n" { SameBody(first, second); }
  }

  /**
   * Absorption: writing `a` and then `b` gives what writing `b` alone gives, for all metadata supplied in full, if and
   * only if the text is good: it does not open with `---` and an item line while a project line is there and the tags
   * or participants block is missing.
   */
  lemma AbsorbsIff(markdown: string, a: Metadata, b: Metadata)
    requires Ready(a) && Ready(b)
    ensures Apply(Apply(markdown, a), b) == Apply(markdown, b) <==> Good(Segs(Trim(markdown)))
  {
    if Good(Segs(Trim(markdown))) { Absorbs(markdown, a, b); } else { Damages(markdown, a, b); }
  }

  /** Front matter that starts with an item and goes on with a project line. */
  function ItemFirst(item: string, project: string): seq<Seg> {
    [Ln("---", "\n"), Ln(ITEM + item, "\n"), Ln(Prefix(Project) + project, "")]
  }

  lemma ItemFirstSlots(item: string, project: string)
    ensures var x := ItemFirst(item, project); Danger(x) && Has(Project, x) && !Has(Tags, x)
  {
    assert Fits(Project, ItemFirst(item, project)[2]);
  }

  lemma ItemFirstReads(item: string, project: string)
    requires OneLine(item) && OneLine(project) && Ink(project)
    ensures var x := ItemFirst(item, project); Canonical(x) && Tidy(x) && !EndsClosed(x)
  {
    var second, third := ITEM + item, Prefix(Project) + project;
    assert OneLine(ITEM) && OneLine("---") && OneLine(Prefix(Project));
    assert second[0] == ' ' && third[1] == 'r';
    LastOf(Prefix(Project), project);
    assert Piece(Ln(second, "\n")) && Piece(Ln(third, "")) && Piece(Ln("---", "\n"));
  }

  /** Such texts are not good, whatever the item and the project. */
  lemma ItemFirstIsBad(item: string, project: string)
    requires OneLine(item) && OneLine(project) && Ink(project)
    ensures !Good(Segs(Trim(Render(ItemFirst(item, project)))))
  {
    var x := ItemFirst(item, project);
    ItemFirstReads(item, project);
    ItemFirstSlots(item, project);
    TidyIsTrimmed(x);
    TrimIs(Render(x));
    SegsRender(x);
  }

  lemma ExpandMatched(m: Match)
    ensures Expand("# $&", m) == "# " + m.matched
  {
    assert "# $&"[1..] == " $&" && " $&"[1..] == "$&" && "$&"[2..] == "";
    assert Expand("$&", m) == m.matched + Expand("", m);
    assert Expand(" $&", m) == [' '] + Expand("$&", m);
    assert Expand("# $&", m) == ['#'] + Expand(" $&", m);
  }

  lemma MatchInTitlePut(v: Fields, x: seq<Seg>, k: nat)
    requires v.title == "$&" && k < |x| && x[k].Ln?
    ensures ReplaceMatch(Title, v, x, k) == Render(x[k := Ln("# " + x[k].text, x[k].end)])
  {
    var text, after := x[k].text, Render(x[k + 1..]);
    ExpandMatched(Match(Render(x[..k]), text, None, x[k].end + after));
    assert Template(Title, v) == "# $&";
    RenderAround(x, k, Ln("# " + text, x[k].end));
  }

  lemma HeadingGrows(x: seq<Seg>, k: nat)
    requires Canonical(x) && k < |x| && x[k].Ln? && x[k].text != ""
    ensures var y := x[k := Ln("# " + x[k].text, x[k].end)]; Canonical(y) && |Render(y)| == |Render(x)| + 2
  {
    var text, after := x[k].text, Render(x[k + 1..]);
    var seg := Ln("# " + text, x[k].end);
    RenderAround(x, k, x[k]);
    assert x[k := x[k]] == x;
    RenderAround(x, k, seg);
    assert seg.text[0] == '#' && seg.text[1] == ' ' && OneLine(seg.text);
    ReplaceCanonical(x, k, seg);
  }

  /** A title that is `$&` puts the old heading line behind a new `# `: no number of rewrites is ever the last. */
  lemma MatchInTitleGrows(v: Fields, s: string)
    requires v.title == "$&" && Has(Title, Segs(s))
    ensures |Put(Title, v, s)| == |s| + 2 && Has(Title, Segs(Put(Title, v, s)))
  {
    var x := Segs(s);
    SegsCanonical(s);
    RenderSegs(s);
    var k := First(Title, x);
    FitsHasText(Title, x[k]);
    MatchInTitlePut(v, x, k);
    HeadingGrows(x, k);
    var y := x[k := Ln("# " + x[k].text, x[k].end)];
    SegsRender(y);
    assert Fits(Title, y[k]);
  }

  // ---- What a rewrite leaves in the text ----

  /** The slot holds what was written (a block at the end loses its final newline). */
  predicate Holds(c: Slot, v: Fields, x: seq<Seg>) {
    Has(c, x) && var seg := x[First(c, x)];
    if IsBlock(c) then seg.items == ItemsOf(c, v) else seg.text == LineOf(c, v)
  }

  lemma ShutHolds(c: Slot, v: Fields, x: seq<Seg>)
    requires Canonical(x) && Has(c, x) && x[First(c, x)] == NewSeg(c, v, EndOf(x[First(c, x)]))
    ensures Holds(c, v, Shut(x))
  {
    if EndsClosed(x) {
      var k := |x| - 2;
      UpdateKeeps(Fitter(c), x, k, Shut(x)[k]);
    }
  }

  /** In a good text every slot that was there, or has a place, holds what was written. */
  lemma WrittenReads(markdown: string, m: Metadata, c: Slot)
    requires Ready(m) && Good(Segs(Trim(markdown)))
    requires var x := Segs(Trim(markdown)); Has(c, x) || Spot(c, x).Some?
    ensures Holds(c, Clean(m), Segs(Trim(Apply(markdown, m))))
  {
    Written(markdown, m);
    OrderDistinct();
    var x := Segs(Trim(markdown));
    PutAllReads(Clean(m), ORDER, x, c);
    ShutHolds(c, Clean(m), PutAll(Clean(m), ORDER, x));
  }

  /** A rewritten text ends in one newline, or in two behind a list at its end, and is trimmed otherwise. */
  lemma WrittenEnds(markdown: string, m: Metadata)
    requires Ready(m) && Good(Segs(Trim(markdown)))
    ensures var t := Trim(Apply(markdown, m)); Apply(markdown, m) == t + "\n" || Apply(markdown, m) == t + "\n\n"
  {
    Written(markdown, m);
    var y := PutAll(Clean(m), ORDER, Segs(Trim(markdown)));
    ShutCanonical(y);
    NewlineOnto(Render(Shut(y)), EndsClosed(y));
  }

  lemma NewlineOnto(t: string, closed: bool)
    ensures (t + if closed then "\n" else "") + "\n" == if closed then t + "\n\n" else t + "\n"
  {
    assert t + "" == t;
  }

  /** Everything that is no slot's and not blank survives, in order. */
  lemma WrittenKeepsBody(markdown: string, m: Metadata)
    requires Ready(m) && Good(Segs(Trim(markdown)))
    ensures BodyOf(Segs(Trim(Apply(markdown, m)))) == BodyOf(Segs(Trim(markdown)))
  {
    Written(markdown, m);
    var x := Segs(Trim(markdown));
    var y := PutAll(Clean(m), ORDER, x);
    PutAllKeepsBody(Clean(m), ORDER, x);
    if EndsClosed(y) {
      var k := |y| - 2;
      assert Fits(SlotOf(y[k].people), y[k]) && Fits(SlotOf(y[k].people), Shut(y)[k]);
      ReplaceKeepsBody(y, k, Shut(y)[k]);
    }
  }
}
