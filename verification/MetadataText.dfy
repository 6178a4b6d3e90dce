/**
 What a rewrite leaves in the text itself (src/lib/meeting-markdown.ts:8-63): the lines and lists that a reader finds, in
 terms of the metadata as it was supplied, all of it or part of it.
 */
module MetadataText {
  import opened Text
  import opened Whitespace
  import opened MarkdownSegments
  import opened MetadataSlots
  import opened MeetingMarkdown
  import opened MarkdownAbsorption

  // ---- Reading a text line by line ----

  /** The text from its first line on at whose start `p` holds. */
  function From(s: string, p: string -> bool): (r: Option<string>)
    ensures r.Some? ==> p(r.value)
    decreases |s|
  {
    if p(s) then Some(s)
    else
      var t := LineText(s);
      if |t| == |s| then None else From(s[|t| + 1..], p)
  }

  function StartsWith(prefix: string): string -> bool { (u: string) => prefix <= u }

  /** The first line that starts with the prefix. */
  function FirstLine(s: string, prefix: string): Option<string> {
    var u := From(s, StartsWith(prefix));
    if u.Some? then Some(LineText(u.value)) else None
  }

  /** The items of the first list with this header line. */
  function FirstList(s: string, header: string): Option<seq<string>> {
    var u := From(s, StartsWith(header + "\n"));
    if u.Some? then Some(TakeItems(u.value[|header| + 1..]).items) else None
  }

  predicate HeadingHere(s: string) { "# " <= s && LineText(s) + "\n" <= s }

  /** Some heading line is ended by a newline. */
  predicate HasHeading(s: string) { From(s, HeadingHere).Some? }

  // ---- ... is reading its segments ----

  /** Items and line ends are skipped, and the first segment decides. */
  ghost predicate Reads(p: string -> bool, q: Seg -> bool) {
    && (forall u :: ITEM <= u ==> !p(u))
    && (forall u: string :: u == "" || IsTerminator(u[0]) ==> !p(u))
    && (forall u :: p(u) <==> q(Segs(u)[0]))
  }

  lemma {:induction false} ItemsAreSkipped(s: string, p: string -> bool, q: Seg -> bool)
    requires Reads(p, q)
    ensures From(s, p) == From(TakeItems(s).rest, p)
    decreases |s|
  {
    if ITEM <= s {
      var t, after := LineText(s[4..]), s[4 + |LineText(s[4..])|..];
      ItemLine(s);
      if after != "" {
        assert s[|LineText(s)| + 1..] == after[1..];
        if after[0] == '\n' {
          ItemsAreSkipped(after[1..], p, q);
        } else {
          assert LineText(after) == "";
        }
      }
    }
  }

  lemma {:induction false} LineBehind(p: string, rest: string)
    requires OneLine(p)
    ensures LineText(p + rest) == p + LineText(rest)
  {
    if p == "" {
      assert p + rest == rest;
    } else {
      LineBehind(p[1..], rest);
      assert (p + rest)[1..] == p[1..] + rest && p == [p[0]] + p[1..];
    }
  }

  /** The line of an item reaches to the end of the item. */
  lemma ItemLine(s: string)
    requires ITEM <= s
    ensures LineText(s) == ITEM + LineText(s[4..])
  {
    assert s == ITEM + s[4..];
    LineBehind(ITEM, s[4..]);
  }

  lemma HeaderLine(s: string, people: bool)
    requires Header(people) <= s
    ensures LineText(s) + "\n" == Header(people)
  {
    var text := if people then "participants:" else "tags:";
    assert s == text + ("\n" + s[|text| + 1..]);
    LineTextIs(text, "\n" + s[|text| + 1..]);
  }

  lemma {:induction false} FromIs(s: string, p: string -> bool, q: Seg -> bool)
    requires Reads(p, q)
    ensures var x := Segs(s); var k := IndexOf(q, x);
            if k < |x| then From(s, p) == Some(Render(x[k..])) else From(s, p) == None
    decreases |s|
  {
    var x := Segs(s);
    RenderSegs(s);
    assert x[0..] == x;
    if !p(s) {
      if Header(false) <= s || Header(true) <= s {
        var people := !(Header(false) <= s);
        var body := s[|Header(people)|..];
        HeaderLine(s, people);
        ItemsAreSkipped(body, p, q);
        FromIs(TakeItems(body).rest, p, q);
        ShiftIndex(q, x);
      } else if |LineText(s)| < |s| {
        FromIs(s[|LineText(s)| + 1..], p, q);
        ShiftIndex(q, x);
      } else {
        assert x[1..] == [];
      }
    }
  }

  lemma ShiftIndex(q: Seg -> bool, x: seq<Seg>)
    requires x != [] && !q(x[0])
    ensures IndexOf(q, x) == 1 + IndexOf(q, x[1..])
    ensures x[IndexOf(q, x)..] == x[1..][IndexOf(q, x[1..])..]
  {
  }

  // ---- Lines, lists and headings of a text ----

  /** The first segment of a text is its first line, or the block whose header it starts with. */
  lemma FirstSegment(u: string)
    ensures var seg := Segs(u)[0];
            if Header(false) <= u then seg == Blk(false, TakeItems(u[6..]).items, TakeItems(u[6..]).open)
            else if Header(true) <= u then seg == Blk(true, TakeItems(u[14..]).items, TakeItems(u[14..]).open)
            else seg.Ln? && seg.text == LineText(u) && (|seg.text| < |u| ==> seg.end == [u[|seg.text|]])
                 && (|seg.text| == |u| ==> seg.end == "")
  {
  }

  lemma StartOfLine(prefix: string, u: string)
    requires OneLine(prefix)
    ensures prefix <= u <==> prefix <= LineText(u)
  {
    var t := LineText(u);
    SplitPrefix(t, u);
    assert prefix <= u ==> forall i :: 0 <= i < |prefix| ==> u[i] == prefix[i];
  }

  /** A text starts with one of two strings that differ somewhere. */
  lemma Apart(a: string, b: string, i: nat, u: string)
    requires i < |a| && i < |b| && a[i] != b[i]
    ensures !(a <= u && b <= u)
  {
    assert a <= u ==> u[i] == a[i];
    assert b <= u ==> u[i] == b[i];
  }

  lemma NoHeader(c: Slot, u: string)
    requires !IsBlock(c) && Prefix(c) <= u
    ensures !(Header(false) <= u) && !(Header(true) <= u)
  {
    Apart(Prefix(c), Header(false), 0, u);
    Apart(Prefix(c), Header(true), if c.Project? then 1 else 0, u);
  }

  lemma LineReadsAt(c: Slot, u: string)
    requires !IsBlock(c) && OneLine(Prefix(c))
    ensures Prefix(c) <= u <==> Fits(c, Segs(u)[0])
  {
    FirstSegment(u);
    StartOfLine(Prefix(c), u);
    if Prefix(c) <= u { NoHeader(c, u); }
  }

  lemma PrefixStarts(c: Slot)
    requires !IsBlock(c)
    ensures OneLine(Prefix(c)) && Prefix(c) != "" && Prefix(c)[0] != ' '
  {}

  lemma LineReads(c: Slot)
    requires !IsBlock(c)
    ensures Reads(StartsWith(Prefix(c)), Fitter(c))
  {
    PrefixStarts(c);
    forall u ensures StartsWith(Prefix(c))(u) <==> Fitter(c)(Segs(u)[0]) { LineReadsAt(c, u); }
  }

  lemma ListReads(people: bool)
    ensures Reads(StartsWith(Header(people)), Fitter(SlotOf(people)))
  {
    var header := Header(people);
    assert header[0] != ' ' && !IsTerminator(header[0]);
    forall u ensures StartsWith(header)(u) <==> Fitter(SlotOf(people))(Segs(u)[0]) {
      FirstSegment(u);
      Apart(Header(false), Header(true), 0, u);
    }
  }

  lemma HeadingReadsAt(u: string)
    ensures HeadingHere(u) <==> IsAnchor(Segs(u)[0])
  {
    FirstSegment(u);
    StartOfLine("# ", u);
    EndedLine(LineText(u), u);
    if "# " <= u { NoHeader(Title, u); }
  }

  lemma EndedLine(t: string, u: string)
    requires t <= u
    ensures t + "\n" <= u <==> |t| < |u| && u[|t|] == '\n'
  {
    assert u == t + u[|t|..];
  }

  lemma HeadingReads()
    ensures Reads(HeadingHere, IsAnchor)
  {
    forall u ensures HeadingHere(u) <==> IsAnchor(Segs(u)[0]) { HeadingReadsAt(u); }
  }

  lemma TextOfLine(x: seq<Seg>, k: nat)
    requires Canonical(x) && k < |x| && x[k].Ln?
    ensures LineText(Render(x[k..])) == x[k].text
  {
    assert x[k..][0] == x[k] && x[k..][1..] == x[k + 1..];
    var rest := x[k].end + Render(x[k + 1..]);
    if k == |x| - 1 { assert x[k + 1..] == []; } else { assert Joins(x[k], x[k + 1]); }
    LineTextIs(x[k].text, rest);
  }

  /** The first such line is the slot's segment. */
  lemma FirstLineIs(s: string, c: Slot)
    requires !IsBlock(c)
    ensures var x := Segs(s);
            FirstLine(s, Prefix(c)) == if Has(c, x) then Some(x[First(c, x)].text) else None
  {
    LineReads(c);
    FromIs(s, StartsWith(Prefix(c)), Fitter(c));
    SegsCanonical(s);
    if Has(c, Segs(s)) { TextOfLine(Segs(s), First(c, Segs(s))); }
  }

  lemma ItemsOfBlock(x: seq<Seg>, k: nat)
    requires Canonical(x) && k < |x| && x[k].Blk?
    ensures TakeItems(Render(x[k..])[|Header(x[k].people)|..]).items == x[k].items
  {
    var y := x[k..];
    assert y[0] == x[k];
    assert Canonical(y) by {
      assert forall i :: 0 <= i < |y| ==> y[i] == x[k + i];
      assert Joins(x[k], x[k + 1]);
    }
    SegsRender(y);
    FirstSegment(Render(y));
    DropPrefix(Header(x[k].people), ItemsOnto(x[k].items, x[k].open, Render(y[1..])));
    Apart(Header(false), Header(true), 0, Render(y));
  }

  lemma FirstListIs(s: string, people: bool)
    ensures var x, c := Segs(s), SlotOf(people);
            FirstList(s, if people then "participants:" else "tags:")
            == if Has(c, x) then Some(x[First(c, x)].items) else None
  {
    var name := if people then "participants:" else "tags:";
    assert name + "\n" == Header(people);
    ListReads(people);
    FromIs(s, StartsWith(Header(people)), Fitter(SlotOf(people)));
    SegsCanonical(s);
    if Has(SlotOf(people), Segs(s)) { ItemsOfBlock(Segs(s), First(SlotOf(people), Segs(s))); }
  }

  lemma HasHeadingIs(s: string)
    ensures HasHeading(s) <==> Anchor(Segs(s)) < |Segs(s)|
  {
    HeadingReads();
    FromIs(s, HeadingHere, IsAnchor);
  }

  lemma OpensIs(s: string)
    ensures "---\n" <= s <==> Opens(Segs(s))
  {
    FirstSegment(s);
    if "---\n" <= s {
      Apart("---\n", Header(false), 0, s);
      Apart("---\n", Header(true), 0, s);
      OpeningLine(s);
    }
  }

  lemma OpeningLine(s: string)
    requires "---\n" <= s
    ensures LineText(s) == "---" && |s| > 3 && s[3] == '\n'
  {
    var rest := "\n" + s[4..];
    assert s == "---" + rest;
    LineTextIs("---", rest);
  }

  // ---- Metadata of which a part is missing ----

  /** The slots that are written. */
  function ActiveOf(v: Fields, cs: seq<Slot>): seq<Slot> {
    if cs == [] then [] else (if Active(cs[0], v) then [cs[0]] else []) + ActiveOf(v, cs[1..])
  }

  /** The same fields, those of skipped slots replaced by what the info lines say of them. */
  function Filled(v: Fields): Fields {
    Fields(if v.title == "" then "-" else v.title,
           if v.project == "" then "未分类" else v.project,
           if v.participants == [] then ["未填写"] else v.participants, v.tags)
  }

  lemma FilledWrites(v: Fields, c: Slot)
    requires Active(c, v)
    ensures Active(c, Filled(v)) && Template(c, v) == Template(c, Filled(v)) && InsertTemplate(c, v) == InsertTemplate(c, Filled(v))
  {
    if c.PeopleInfo? && v.participants == [] { assert Joined(["未填写"], "、") == "未填写"; }
  }

  lemma FilledPut(v: Fields, c: Slot, s: string)
    requires Active(c, v)
    ensures Put(c, v, s) == Put(c, Filled(v), s)
  {
    FilledWrites(v, c);
  }

  lemma {:induction false} BodyIsFilled(v: Fields, cs: seq<Slot>, s: string)
    ensures Body(v, cs, s) == Body(Filled(v), ActiveOf(v, cs), s)
    decreases |cs|
  {
    if cs != [] {
      var rest := ActiveOf(v, cs[1..]);
      if Active(cs[0], v) {
        FilledPut(v, cs[0], s);
        FilledWrites(v, cs[0]);
        BodyIsFilled(v, cs[1..], Put(cs[0], v, s));
        assert ([cs[0]] + rest)[1..] == rest;
      } else {
        BodyIsFilled(v, cs[1..], s);
        assert [] + rest == rest;
      }
    }
  }

  /** No block will be inserted on top of an item, counting on the project line if there is one to insert. */
  predicate Fine(hasProject: bool, x: seq<Seg>) { if hasProject then Good(x) else Calm(x) }

  lemma {:induction false} ActiveIs(v: Fields, cs: seq<Slot>)
    requires Distinct(cs)
    ensures Distinct(ActiveOf(v, cs)) && forall c :: c in ActiveOf(v, cs) <==> c in cs && Active(c, v)
  {
    if cs != [] { ActiveIs(v, cs[1..]); }
  }

  lemma CalmAfterProject(w: Fields, x: seq<Seg>, cs: seq<Slot>)
    requires MeetingMarkdown.Sound(w) && Canonical(x) && Good(x)
    ensures var y := PutAll(w, [Project] + cs, x);
            Body(w, [Project] + cs, Render(x)) == Render(y) && Canonical(y) && Calm(y) && (Tidy(x) ==> Tidy(y))
  {
    var y := PutSeg(Project, w, x);
    LineFirst(w, Project, cs, x, y);
    PutDanger(Project, w, x);
    PutMoves(Project, w, x, Tags);
    PutMoves(Project, w, x, Participants);
    if Tidy(x) { PutTidy(Project, w, x); }
    CalmRun(w, cs, y);
  }

  lemma CalmAfterBoth(w: Fields, x: seq<Seg>, cs: seq<Slot>)
    requires MeetingMarkdown.Sound(w) && Canonical(x) && Good(x)
    ensures var all := [Title] + ([Project] + cs); var y := PutAll(w, all, x);
            Body(w, all, Render(x)) == Render(y) && Canonical(y) && Calm(y) && (Tidy(x) ==> Tidy(y))
  {
    var y := PutSeg(Project, w, PutSeg(Title, w, x));
    FirstTwo(w, x, cs, y);
    CalmRun(w, cs, y);
  }

  lemma ActiveOrder(v: Fields)
    ensures var rest := ActiveOf(v, REST);
            ActiveOf(v, ORDER) == (if v.title != "" then [Title] else []) + ((if v.project != "" then [Project] else []) + rest)
  {
    var two := [Project] + REST;
    assert ORDER == [Title] + two && ORDER[1..] == two && two[1..] == REST;
  }

  /** A rewrite with part of the metadata is the puts of that part. */
  lemma PartRuns(v: Fields, x: seq<Seg>)
    requires MeetingMarkdown.Sound(Filled(v)) && Canonical(x) && Fine(v.project != "", x)
    ensures var y := PutAll(Filled(v), ActiveOf(v, ORDER), x);
            Body(v, ORDER, Render(x)) == Render(y) && Canonical(y) && Calm(y) && (Tidy(x) ==> Tidy(y))
  {
    var w, rest := Filled(v), ActiveOf(v, REST);
    BodyIsFilled(v, ORDER, Render(x));
    ActiveOrder(v);
    if v.project == "" {
      CalmRun(w, ActiveOf(v, ORDER), x);
    } else if v.title == "" {
      CalmAfterProject(w, x, rest);
      assert ActiveOf(v, ORDER) == [Project] + rest;
    } else {
      CalmAfterBoth(w, x, rest);
      assert ActiveOf(v, ORDER) == [Title] + ([Project] + rest);
    }
  }

  /** How the written text reads. */
  lemma PartWritten(markdown: string, m: Metadata)
    requires MeetingMarkdown.Sound(Filled(Clean(m))) && Fine(Trim(m.project) != "", Segs(Trim(markdown)))
    ensures var v := Clean(m); var y := PutAll(Filled(v), ActiveOf(v, ORDER), Segs(Trim(markdown)));
            Canonical(y) && Tidy(y) && Segs(Trim(Apply(markdown, m))) == Shut(y)
  {
    var s, v := Trim(markdown), Clean(m);
    TrimIs(markdown);
    TrimmedIsTidy(s);
    SegsCanonical(s);
    RenderSegs(s);
    PartRuns(v, Segs(s));
    var y := PutAll(Filled(v), ActiveOf(v, ORDER), Segs(s));
    WrittenTrims(y);
    ShutCanonical(y);
    SegsRender(Shut(y));
  }

  /** A slot that is written and has a place holds its value. */
  lemma PartHolds(markdown: string, m: Metadata, c: Slot)
    requires MeetingMarkdown.Sound(Filled(Clean(m))) && Fine(Trim(m.project) != "", Segs(Trim(markdown))) && Active(c, Clean(m))
    requires var x := Segs(Trim(markdown)); Has(c, x) || Spot(c, x).Some?
    ensures Holds(c, Filled(Clean(m)), Segs(Trim(Apply(markdown, m))))
  {
    var v, x := Clean(m), Segs(Trim(markdown));
    PartWritten(markdown, m);
    OrderDistinct();
    ActiveIs(v, ORDER);
    PutAllReads(Filled(v), ActiveOf(v, ORDER), x, c);
    ShutHolds(c, Filled(v), PutAll(Filled(v), ActiveOf(v, ORDER), x));
  }

  lemma ShutKeepsLine(y: seq<Seg>, c: Slot)
    requires Canonical(y) && !IsBlock(c)
    ensures Has(c, Shut(y)) == Has(c, y)
    ensures Has(c, y) ==> Shut(y)[First(c, Shut(y))].Ln? && Shut(y)[First(c, Shut(y))].text == y[First(c, y)].text
  {
    if EndsClosed(y) { UpdateKeeps(Fitter(c), y, |y| - 2, Shut(y)[|y| - 2]); }
  }

  /** A line slot that is not written stays as it was. */
  lemma PartKeeps(markdown: string, m: Metadata, c: Slot)
    requires MeetingMarkdown.Sound(Filled(Clean(m))) && Fine(Trim(m.project) != "", Segs(Trim(markdown)))
    requires !Active(c, Clean(m)) && !IsBlock(c)
    ensures FirstLine(Trim(Apply(markdown, m)), Prefix(c)) == FirstLine(Trim(markdown), Prefix(c))
  {
    var v, x := Clean(m), Segs(Trim(markdown));
    PartWritten(markdown, m);
    OrderDistinct();
    ActiveIs(v, ORDER);
    PutAllKeeps(Filled(v), ActiveOf(v, ORDER), x, c);
    ShutKeepsLine(PutAll(Filled(v), ActiveOf(v, ORDER), x), c);
    FirstLineIs(Trim(markdown), c);
    FirstLineIs(Trim(Apply(markdown, m)), c);
  }

  // ---- The written text, in terms of what was supplied ----

  /** `x` is the supplied tag, trimmed and without a leading `#`. */
  predicate TagIs(x: string, tag: string) { Trim(tag) == "#" + x || (Trim(tag) == x && !("#" <= x)) }

  /** What is supplied is inert for the replacements; project and tags are one line each. */
  ghost predicate Supplied(m: Metadata) {
    && Inert(Normalize(m.title)) && Inert(Trim(m.project)) && OneLine(Trim(m.project))
    && (forall i :: 0 <= i < |m.participants| ==> Inert(Normalize(m.participants[i])))
    && (forall i, x :: 0 <= i < |m.tags| && TagIs(x, m.tags[i]) ==> Inert(x) && OneLine(x))
  }

  lemma CleanTagIs(tag: string, x: string)
    ensures TagIs(x, tag) <==> CleanTag(tag) == x
  {
    var t := Trim(tag);
    if "#" <= t { assert t == "#" + t[1..]; }
    if t == "#" + x { assert t[1..] == x; }
  }

  /** The first tag is supplied before the other one is. */
  ghost predicate SuppliedBefore(tags: seq<string>, x: string, y: string) {
    exists a :: 0 <= a < |tags| && TagIs(x, tags[a]) && forall b :: 0 <= b <= a ==> !TagIs(y, tags[b])
  }

  lemma {:induction false} UniqueOrder(ss: seq<string>, i: nat, j: nat)
    requires i < j < |Unique(ss)|
    ensures exists a :: 0 <= a < |ss| && ss[a] == Unique(ss)[i] && Unique(ss)[j] !in ss[..a + 1]
  {
    var n := |ss| - 1;
    var init := Unique(ss[..n]);
    UniqueIs(ss[..n]);
    UniqueIs(ss);
    if j < |init| {
      UniqueOrder(ss[..n], i, j);
      var a :| 0 <= a < n && ss[..n][a] == init[i] && init[j] !in ss[..n][..a + 1];
      assert ss[..a + 1] == ss[..n][..a + 1] && ss[a] == init[i];
    } else {
      assert init[i] in ss[..n];
      var a :| 0 <= a < n && ss[..n][a] == init[i];
      assert ss[..a + 1] <= ss[..n];
      assert forall y :: y in ss[..a + 1] ==> y in ss[..n];
    }
  }

  lemma {:induction false} NonemptyAt(ss: seq<string>, a: nat)
    requires a < |Nonempty(ss)|
    ensures exists k :: 0 <= k < |ss| && ss[k] == Nonempty(ss)[a] && Nonempty(ss[..k + 1]) == Nonempty(ss)[..a + 1]
  {
    var n := |ss| - 1;
    var init := ss[..n];
    NonemptyAppend(init, ss[n]);
    assert ss == init + [ss[n]];
    if a < |Nonempty(init)| {
      NonemptyAt(init, a);
      var k :| 0 <= k < n && init[k] == Nonempty(init)[a] && Nonempty(init[..k + 1]) == Nonempty(init)[..a + 1];
      assert ss[..k + 1] == init[..k + 1] && ss[k] == init[k];
      assert Nonempty(ss)[..a + 1] == Nonempty(init)[..a + 1];
    } else {
      assert ss[..n + 1] == ss && Nonempty(ss)[..a + 1] == Nonempty(ss);
    }
  }

  /** Custom tags keep the order in which they were first supplied. */
  lemma TagsInOrder(m: Metadata)
    ensures var tags := Clean(m).tags; forall i, j :: 0 < i < j < |tags| ==> SuppliedBefore(m.tags, tags[i], tags[j])
  {
    var tags := Clean(m).tags;
    TagsAre(m);
    forall i, j | 0 < i < j < |tags| ensures SuppliedBefore(m.tags, tags[i], tags[j]) { TagInOrder(m, i, j); }
  }

  lemma TagInOrder(m: Metadata, i: nat, j: nat)
    requires 0 < i < j < |Clean(m).tags|
    ensures SuppliedBefore(m.tags, Clean(m).tags[i], Clean(m).tags[j])
  {
    var tags, custom := Clean(m).tags, Each(CleanTag, m.tags);
    TagsAre(m);
    EachIs(CleanTag, m.tags);
    CustomOrder("meeting", custom, i, j);
    var k :| 0 <= k < |custom| && custom[k] == tags[i] && tags[j] !in Nonempty(custom[..k + 1]);
    CleanTagIs(m.tags[k], tags[i]);
    TagAbsentUntil(m.tags, tags[j], k);
  }

  lemma AfterHead(head: string, ns: seq<string>, a: nat, y: string)
    requires 0 < a <= |ns| && y !in ([head] + ns)[..a + 1]
    ensures ([head] + ns)[a] == ns[a - 1] && y !in ns[..a]
  {
    assert ([head] + ns)[..a + 1] == [head] + ns[..a];
  }

  lemma CustomOrder(head: string, custom: seq<string>, i: nat, j: nat)
    requires 0 < i < j < |Unique([head] + Nonempty(custom))|
    ensures var tags := Unique([head] + Nonempty(custom));
            exists k :: 0 <= k < |custom| && custom[k] == tags[i] && tags[j] !in Nonempty(custom[..k + 1])
  {
    var ns := Nonempty(custom);
    var all := [head] + ns;
    var x, y := Unique(all)[i], Unique(all)[j];
    UniqueIs(all);
    UniqueOrder(all, i, j);
    var a :| 0 <= a < |all| && all[a] == x && y !in all[..a + 1];
    assert a > 0 by { assert Unique(all)[0] == head; }
    AfterHead(head, ns, a, y);
    FirstSupply(custom, a - 1, y);
  }

  lemma FirstSupply(custom: seq<string>, a: nat, y: string)
    requires a < |Nonempty(custom)| && y !in Nonempty(custom)[..a + 1]
    ensures exists k :: 0 <= k < |custom| && custom[k] == Nonempty(custom)[a] && y !in Nonempty(custom[..k + 1])
  {
    NonemptyAt(custom, a);
    var k :| 0 <= k < |custom| && custom[k] == Nonempty(custom)[a] && Nonempty(custom[..k + 1]) == Nonempty(custom)[..a + 1];
    assert y !in Nonempty(custom[..k + 1]);
  }

  // A nonempty tag that is not among the first ones as cleaned was not supplied by them.
  lemma TagAbsentUntil(tags: seq<string>, y: string, k: nat)
    requires k < |tags| == |Each(CleanTag, tags)| && y != "" && y !in Nonempty(Each(CleanTag, tags)[..k + 1])
    ensures forall b :: 0 <= b <= k ==> !TagIs(y, tags[b])
  {
    var custom := Each(CleanTag, tags);
    EachIs(CleanTag, tags);
    forall b | 0 <= b <= k ensures !TagIs(y, tags[b]) {
      CleanTagIs(tags[b], y);
      if custom[b] == y {
        assert custom[..k + 1][b] == y;
        NonemptyIs(custom[..k + 1], y);
      }
    }
  }

  lemma TagsSupplied(m: Metadata)
    requires Supplied(m)
    ensures forall i :: 0 <= i < |Clean(m).tags| ==> Writable(Clean(m).tags[i])
    ensures forall x :: x in Clean(m).tags <==>
              x == "meeting" || (x != "" && exists i :: 0 <= i < |m.tags| && TagIs(x, m.tags[i]))
  {
    var custom := Each(CleanTag, m.tags);
    TagsAre(m);
    EachIs(CleanTag, m.tags);
    forall x ensures x in Nonempty(custom) <==> x != "" && exists i :: 0 <= i < |m.tags| && TagIs(x, m.tags[i]) {
      NonemptyIs(custom, x);
      if x in custom { var i :| 0 <= i < |custom| && custom[i] == x; CleanTagIs(m.tags[i], x); }
      if i :| 0 <= i < |m.tags| && TagIs(x, m.tags[i]) { CleanTagIs(m.tags[i], x); assert custom[i] == x; }
    }
    forall i | 0 <= i < |Clean(m).tags| ensures Writable(Clean(m).tags[i]) {
      var x := Clean(m).tags[i];
      assert x in Clean(m).tags;
      if x != "meeting" { var j :| 0 <= j < |m.tags| && TagIs(x, m.tags[j]); }
    }
  }

  lemma PeopleSupplied(m: Metadata)
    requires Supplied(m)
    ensures forall i :: 0 <= i < |Clean(m).participants| ==> Writable(Clean(m).participants[i])
  {
    EachIs(Normalize, m.participants);
    forall i | 0 <= i < |m.participants| ensures Normalize(m.participants[i]) != "" ==> Writable(Normalize(m.participants[i])) {
      NormalIsOneLine(m.participants[i]);
    }
    NonemptyKeeps(Writable, Each(Normalize, m.participants));
  }

  lemma DefaultsAreWritable()
    ensures Writable("-") && Writable("未分类") && Writable("未填写") && Trimmed("未分类")
  {}

  lemma SuppliedIsSound(m: Metadata)
    requires Supplied(m)
    ensures MeetingMarkdown.Sound(Filled(Clean(m)))
  {
    var v := Clean(m);
    TagsSupplied(m);
    PeopleSupplied(m);
    NormalIsOneLine(m.title);
    TrimIs(m.project);
    TagsAre(m);
    DefaultsAreWritable();
  }

  /** Where a line or a list stands, or can be put. */
  lemma PlaceIs(markdown: string, c: Slot)
    ensures var s := Trim(markdown); var x := Segs(s);
            && (c.Title? ==> (Has(c, x) <==> FirstLine(s, "# ").Some?))
            && (c.Project? ==> (Has(c, x) || Spot(c, x).Some? <==> FirstLine(s, "project:").Some? || "---\n" <= s))
            && (c.ProjectInfo? ==> (Has(c, x) || Spot(c, x).Some? <==> FirstLine(s, "项目：").Some? || HasHeading(s)))
            && (c.PeopleInfo? ==> (Has(c, x) || Spot(c, x).Some? <==> FirstLine(s, "参会人：").Some? || HasHeading(s)))
            && (c.Tags? ==> (Has(c, x) || Spot(c, x).Some? <==> FirstList(s, "tags:").Some? || "---\n" <= s))
            && (c.Participants? ==> (Has(c, x) || Spot(c, x).Some? <==> FirstList(s, "participants:").Some? || "---\n" <= s))
  {
    var s := Trim(markdown);
    OpensIs(s);
    HasHeadingIs(s);
    if IsBlock(c) { FirstListIs(s, c.Participants?); } else { FirstLineIs(s, c); }
  }

  lemma LineIsWritten(markdown: string, m: Metadata, c: Slot)
    requires Supplied(m) && Fine(Trim(m.project) != "", Segs(Trim(markdown))) && Active(c, Clean(m)) && !IsBlock(c)
    requires var x := Segs(Trim(markdown)); Has(c, x) || Spot(c, x).Some?
    ensures FirstLine(Trim(Apply(markdown, m)), Prefix(c)) == Some(LineOf(c, Filled(Clean(m))))
  {
    SuppliedIsSound(m);
    PartHolds(markdown, m, c);
    FirstLineIs(Trim(Apply(markdown, m)), c);
  }

  lemma ListIsWritten(markdown: string, m: Metadata, people: bool)
    requires Supplied(m) && Fine(Trim(m.project) != "", Segs(Trim(markdown))) && Active(SlotOf(people), Clean(m))
    requires var x, c := Segs(Trim(markdown)), SlotOf(people); Has(c, x) || Spot(c, x).Some?
    ensures FirstList(Trim(Apply(markdown, m)), if people then "participants:" else "tags:")
            == Some(if people then Clean(m).participants else Clean(m).tags)
  {
    SuppliedIsSound(m);
    PartHolds(markdown, m, SlotOf(people));
    FirstListIs(Trim(Apply(markdown, m)), people);
  }

  /** The heading is the supplied title with normal spacing, if there is a heading and a title. */
  lemma TitleIsShown(markdown: string, m: Metadata)
    requires Supplied(m) && Fine(Trim(m.project) != "", Segs(Trim(markdown)))
    ensures var s, t := Trim(markdown), Trim(Apply(markdown, m));
            FirstLine(t, "# ") == if FirstLine(s, "# ").Some? && Normalize(m.title) != "" then Some("# " + Normalize(m.title))
                                  else FirstLine(s, "# ")
  {
    SuppliedIsSound(m);
    PlaceIs(markdown, Title);
    if Normalize(m.title) == "" {
      PartKeeps(markdown, m, Title);
    } else if FirstLine(Trim(markdown), "# ").Some? {
      LineIsWritten(markdown, m, Title);
    } else {
      NoTitleAppears(markdown, m);
    }
  }

  /** The project field is the supplied project trimmed, if there is one and a place for it. */
  lemma ProjectIsShown(markdown: string, m: Metadata)
    requires Supplied(m) && Fine(Trim(m.project) != "", Segs(Trim(markdown)))
    ensures var s, t := Trim(markdown), Trim(Apply(markdown, m));
            && (Trim(m.project) != "" && (FirstLine(s, "project:").Some? || "---\n" <= s)
                ==> FirstLine(t, "project:") == Some("project: " + Trim(m.project)))
            && (Trim(m.project) == "" ==> FirstLine(t, "project:") == FirstLine(s, "project:"))
  {
    SuppliedIsSound(m);
    PlaceIs(markdown, Project);
    if Trim(m.project) == "" {
      PartKeeps(markdown, m, Project);
    } else if FirstLine(Trim(markdown), "project:").Some? || "---\n" <= Trim(markdown) {
      LineIsWritten(markdown, m, Project);
      ProjectField(m);
    }
  }

  lemma ProjectField(m: Metadata)
    requires Trim(m.project) != ""
    ensures LineOf(Project, Filled(Clean(m))) == "project: " + Trim(m.project)
  {
    Assoc("project:", " ", Trim(m.project));
  }

  /** A rewrite makes no heading where there is none. */
  lemma NoTitleAppears(markdown: string, m: Metadata)
    requires MeetingMarkdown.Sound(Filled(Clean(m))) && Fine(Trim(m.project) != "", Segs(Trim(markdown)))
    requires FirstLine(Trim(markdown), "# ").None?
    ensures FirstLine(Trim(Apply(markdown, m)), "# ").None?
  {
    var x := Segs(Trim(markdown));
    var y := PutAll(Filled(Clean(m)), ActiveOf(Clean(m), ORDER), x);
    PartWritten(markdown, m);
    FirstLineIs(Trim(markdown), Title);
    FirstLineIs(Trim(Apply(markdown, m)), Title);
    TitleStaysAway(Filled(Clean(m)), ActiveOf(Clean(m), ORDER), x);
    ShutKeepsLine(y, Title);
  }

  lemma {:induction false} TitleStaysAway(v: Fields, cs: seq<Slot>, x: seq<Seg>)
    requires !Has(Title, x)
    ensures !Has(Title, PutAll(v, cs, x))
    decreases |cs|
  {
    if cs != [] {
      if cs[0] != Title { PutMoves(cs[0], v, x, Title); }
      TitleStaysAway(v, cs[1..], PutSeg(cs[0], v, x));
    }
  }

  /** A joined list grows by the separator and the next part. */
  lemma {:induction false} JoinedGrows(parts: seq<string>, part: string, separator: string)
    ensures Joined(parts + [part], separator) == if parts == [] then part else Joined(parts, separator) + separator + part
  {
    var longer := parts + [part];
    if |parts| > 0 {
      assert longer[1..] == parts[1..] + [part];
      JoinedGrows(parts[1..], part, separator);
      if |parts| == 1 { assert longer[1..] == [part]; }
    }
  }

  /** The info lines: the project or that there is none, and the participants' names in order or that there are none. */
  lemma InfoIsShown(markdown: string, m: Metadata)
    requires Supplied(m) && Fine(Trim(m.project) != "", Segs(Trim(markdown)))
    ensures var s, t := Trim(markdown), Trim(Apply(markdown, m));
            var people := Nonempty(Each(Normalize, m.participants));
            && (FirstLine(s, "项目：").Some? || HasHeading(s)
                ==> FirstLine(t, "项目：") == Some("项目：" + if Trim(m.project) == "" then "未分类" else Trim(m.project)))
            && (FirstLine(s, "参会人：").Some? || HasHeading(s)
                ==> FirstLine(t, "参会人：") == Some("参会人：" + if people == [] then "未填写" else Joined(people, "、")))
  {
    PlaceIs(markdown, ProjectInfo);
    PlaceIs(markdown, PeopleInfo);
    var s := Trim(markdown);
    if FirstLine(s, "项目：").Some? || HasHeading(s) { LineIsWritten(markdown, m, ProjectInfo); }
    if FirstLine(s, "参会人：").Some? || HasHeading(s) {
      LineIsWritten(markdown, m, PeopleInfo);
      assert Joined(["未填写"], "、") == "未填写";
    }
  }

  /**
   The lists: the participants' names in order, and as tags `meeting` first and then each supplied tag, trimmed and
   without its leading `#`, once.
   */
  lemma ListsAreShown(markdown: string, m: Metadata)
    requires Supplied(m) && Fine(Trim(m.project) != "", Segs(Trim(markdown)))
    ensures var s, t := Trim(markdown), Trim(Apply(markdown, m));
            var people := Nonempty(Each(Normalize, m.participants));
            && (people != [] && (FirstList(s, "participants:").Some? || "---\n" <= s)
                ==> FirstList(t, "participants:") == Some(people))
            && (FirstList(s, "tags:").Some? || "---\n" <= s
                ==> && FirstList(t, "tags:").Some? && FirstList(t, "tags:").value != []
                    && var tags := FirstList(t, "tags:").value;
                       && tags[0] == "meeting"
                       && (forall i, j :: 0 <= i < j < |tags| ==> tags[i] != tags[j])
                       && (forall x :: x in tags <==>
                             x == "meeting" || (x != "" && exists i :: 0 <= i < |m.tags| && TagIs(x, m.tags[i])))
                       && (forall i, j :: 0 < i < j < |tags| ==> SuppliedBefore(m.tags, tags[i], tags[j])))
  {
    TagsInOrder(m);
    var s := Trim(markdown);
    PlaceIs(markdown, Participants);
    PlaceIs(markdown, Tags);
    TagsSupplied(m);
    TagsAre(m);
    if Nonempty(Each(Normalize, m.participants)) != [] && (FirstList(s, "participants:").Some? || "---\n" <= s) {
      ListIsWritten(markdown, m, true);
    }
    if FirstList(s, "tags:").Some? || "---\n" <= s { ListIsWritten(markdown, m, false); }
  }

  // ---- What an insertion adds to the text ----

  function Rows(items: seq<string>): string {
    if items == [] then "" else "  - " + (items[0] + "\n") + Rows(items[1..])
  }

  function AddedText(c: Slot, v: Fields): string {
    match c
    case Title => ""
    case Project => "project: " + v.project + "\n"
    case Tags => "tags:\n" + Rows(v.tags)
    case Participants => "participants:\n" + Rows(v.participants)
    case ProjectInfo => "\n" + ("项目：" + v.project + "\n")
    case PeopleInfo => "\n" + ("参会人：" + Joined(v.participants, "、") + "\n")
  }

  lemma {:induction false} RowsAre(items: seq<string>)
    ensures ItemsOnto(items, false, "") == Rows(items)
  {
    if items != [] { RowsAre(items[1..]); }
  }

  lemma LineOnto(text: string, end: string)
    ensures SegOnto(Ln(text, end), "") == text + end
  {
    assert end + "" == end;
  }

  lemma AddedLine(c: Slot, v: Fields)
    requires !IsBlock(c)
    ensures Render([NewSeg(c, v, "\n")]) == LineOf(c, v) + "\n"
  {
    RenderOne(NewSeg(c, v, "\n"));
    LineOnto(LineOf(c, v), "\n");
  }

  lemma AddedLineText(c: Slot, v: Fields)
    requires !IsBlock(c) && !c.Title? && v.project != "" && v.participants != []
    ensures AddedText(c, v) == if c.Project? then LineOf(c, v) + "\n" else "\n" + (LineOf(c, v) + "\n")
  {
    if c.Project? { Assoc("project:", " ", v.project); }
  }

  lemma AddedBlock(c: Slot, v: Fields)
    requires IsBlock(c)
    ensures Render([NewSeg(c, v, "\n")]) == AddedText(c, v)
  {
    RenderOne(NewSeg(c, v, "\n"));
    RowsAre(ItemsOf(c, v));
  }

  lemma AddedIs(c: Slot, v: Fields)
    requires Sound(v) && !c.Title?
    ensures Render(Inserted(c, v)) == AddedText(c, v)
  {
    if IsBlock(c) {
      AddedBlock(c, v);
    } else {
      AddedLine(c, v);
      AddedLineText(c, v);
      if !c.Project? { UnderBlank(c, v); }
    }
  }

  lemma UnderBlank(c: Slot, v: Fields)
    requires c.ProjectInfo? || c.PeopleInfo?
    ensures Render(Inserted(c, v)) == "\n" + Render([NewSeg(c, v, "\n")])
  {
    var line := [NewSeg(c, v, "\n")];
    assert Inserted(c, v) == [Ln("", "\n")] + line;
    RenderCons(Ln("", "\n"), line);
    assert "" + ("\n" + Render(line)) == "\n" + Render(line);
  }

  /** A heading line with its newline, at the end of a text. */
  ghost predicate EndsInHeading(u: string) {
    exists before: string, line: string :: u == before + (line + "\n") && "# " <= line
  }

  predicate AddedBetween(s: string, u: string, added: string, w: string, t: string) { s == u + w && t == u + (added + w) }

  /** The text `t` is `s` with `added` put in behind its opening line, or behind a heading line. */
  ghost predicate PutIn(s: string, added: string, t: string, behindHeading: bool) {
    exists u, w :: AddedBetween(s, u, added, w, t) && if behindHeading then EndsInHeading(u) else u == "---\n"
  }

  /**
   A slot that is missing is added as one piece, the info lines under a blank line behind a heading, the rest behind the
   opening `---`; a text with no place for it stays as it is.
   */
  lemma InsertionIs(c: Slot, v: Fields, s: string)
    requires Sound(v) && !c.Title? && !Has(c, Segs(s))
    ensures Spot(c, Segs(s)).None? ==> Put(c, v, s) == s
    ensures Spot(c, Segs(s)).Some? ==> PutIn(s, AddedText(c, v), Put(c, v, s), c.ProjectInfo? || c.PeopleInfo?)
  {
    if Spot(c, Segs(s)).Some? { PutAt(c, v, s, Spot(c, Segs(s)).value); }
  }

  lemma PutAt(c: Slot, v: Fields, s: string, at: nat)
    requires Sound(v) && !c.Title? && !Has(c, Segs(s)) && Spot(c, Segs(s)) == Some(at)
    ensures PutIn(s, AddedText(c, v), Put(c, v, s), c.ProjectInfo? || c.PeopleInfo?)
  {
    var x := Segs(s);
    SpotIs(c, x);
    PartsAre(s, at);
    InsertedAt(c, v, s, at);
    UpToHere(x, at, c.ProjectInfo? || c.PeopleInfo?);
    IsPutIn(s, Render(x[..at - 1]) + SegOnto(x[at - 1], ""), AddedText(c, v), Render(x[at..]), Put(c, v, s),
            c.ProjectInfo? || c.PeopleInfo?);
  }

  lemma IsPutIn(s: string, u: string, added: string, w: string, t: string, behindHeading: bool)
    requires s == u + w && t == u + (added + w) && if behindHeading then EndsInHeading(u) else u == "---\n"
    ensures PutIn(s, added, t, behindHeading)
  {
    assert AddedBetween(s, u, added, w, t);
  }

  lemma InsertedAt(c: Slot, v: Fields, s: string, at: nat)
    requires Sound(v) && !c.Title? && !Has(c, Segs(s)) && Spot(c, Segs(s)) == Some(at)
    ensures var x := Segs(s);
            Put(c, v, s) == (Render(x[..at - 1]) + SegOnto(x[at - 1], "")) + (AddedText(c, v) + Render(x[at..]))
  {
    var x := Segs(s);
    SpotIs(c, x);
    if !(c.ProjectInfo? || c.PeopleInfo?) { OpeningIs(x); }
    AddedIs(c, v);
    InsertAfterIs(c, v, x, at);
    PiecesAre(Render(x[..at - 1]), SegOnto(x[at - 1], ""), AddedText(c, v), Render(x[at..]));
  }

  lemma PiecesAre(head: string, anchor: string, added: string, rest: string)
    ensures head + ((anchor + added) + rest) == (head + anchor) + (added + rest)
  {}

  /** The text before an insertion ends in a heading, or is the opening line. */
  lemma UpToHere(x: seq<Seg>, at: nat, behindHeading: bool)
    requires 1 <= at <= |x|
    requires if behindHeading then IsAnchor(x[at - 1]) else at == 1 && x[0] == Ln("---", "\n")
    ensures var u := Render(x[..at - 1]) + SegOnto(x[at - 1], ""); if behindHeading then EndsInHeading(u) else u == "---\n"
  {
    LineOnto(x[at - 1].text, x[at - 1].end);
    if !behindHeading { OpeningIs(x); }
  }

  lemma PartsAre(s: string, at: nat)
    requires 1 <= at <= |Segs(s)|
    ensures var x := Segs(s); s == (Render(x[..at - 1]) + SegOnto(x[at - 1], "")) + Render(x[at..])
  {
    var x := Segs(s);
    RenderSegs(s);
    var head, here, rest := x[..at - 1], [x[at - 1]], x[at..];
    assert x == (head + here) + rest;
    RenderAppend(head + here, rest);
    RenderAppend(head, here);
    RenderOne(x[at - 1]);
  }

  lemma OpeningIs(x: seq<Seg>)
    requires x != [] && x[0] == Ln("---", "\n")
    ensures SegOnto(x[0], "") == "---\n" && Render(x[..0]) == ""
  {
    assert "---" + ("\n" + "") == "---\n";
  }
}
