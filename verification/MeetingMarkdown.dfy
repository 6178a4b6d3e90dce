/** Rewriting the metadata of a meeting's Markdown: front matter, title and info lines. */
module MeetingMarkdown {
  import opened Text
  import opened Whitespace
  import opened MarkdownSegments
  import opened MetadataSlots

  /** Metadata as supplied; an absent title or project is empty. */
  datatype Metadata = Metadata(title: string, project: string, participants: seq<string>, tags: seq<string>)

  // ---- Cleaning ----

  function CleanTag(tag: string): string {
    var t := Trim(tag);
    if t != "" && t[0] == '#' then t[1..] else t
  }

  /** First occurrences, in order: `Array.from(new Set(ss))`. */
  function Unique(ss: seq<string>): seq<string> {
    if ss == [] then []
    else
      var before, last := Unique(ss[..|ss| - 1]), ss[|ss| - 1];
      if last in before then before else before + [last]
  }

  function Clean(m: Metadata): Fields {
    Fields(Normalize(m.title), Trim(m.project), Nonempty(Each(Normalize, m.participants)),
           Unique(["meeting"] + Nonempty(Each(CleanTag, m.tags))))
  }

  // ---- Replacement strings ----

  datatype Match = Match(before: string, matched: string, group: Option<string>, after: string)

  /** GetSubstitution of ECMA-262 with at most one capture group. */
  function Expand(tpl: string, m: Match): string
    decreases |tpl|
  {
    if tpl == "" then ""
    else if tpl[0] != '$' || |tpl| == 1 then [tpl[0]] + Expand(tpl[1..], m)
    else if tpl[1] == '$' then "$" + Expand(tpl[2..], m)
    else if tpl[1] == '&' then m.matched + Expand(tpl[2..], m)
    else if tpl[1] == '`' then m.before + Expand(tpl[2..], m)
    else if tpl[1] == '\'' then m.after + Expand(tpl[2..], m)
    else if tpl[1] == '1' && m.group.Some? then m.group.value + Expand(tpl[2..], m)
    else if "$01" <= tpl && m.group.Some? then m.group.value + Expand(tpl[3..], m)
    else "$" + Expand(tpl[1..], m)
  }

  function Substitute(tpl: string, m: Match): string { m.before + (Expand(tpl, m) + m.after) }

  predicate Activates(c: char) { c in {'$', '&', '`', '\'', '0', '1'} }

  /** No `$` that a replacement could act on. */
  predicate Inert(s: string) { forall i :: 0 <= i < |s| - 1 && s[i] == '$' ==> !Activates(s[i + 1]) }

  // ---- One replacement ----

  function Spaced(s: string): string {
    if s == "" then "" else [if s[0] == '\n' then ' ' else s[0]] + Spaced(s[1..])
  }

  function Bullets(items: seq<string>): seq<string> {
    if items == [] then [] else [ITEM + items[0]] + Bullets(items[1..])
  }

  /** What the slot's match is replaced with. */
  function Template(c: Slot, v: Fields): string {
    if IsBlock(c) then Header(c.Participants?) + (Joined(Bullets(ItemsOf(c, v)), "\n") + "\n")
    else if c.Project? then "project: " + Trim(Spaced(v.project))
    else LineOf(c, v)
  }

  /** What the opening `---` line, or the heading line, is replaced with when the slot is missing. */
  function InsertTemplate(c: Slot, v: Fields): string {
    match c
    case Title => ""
    case Project => "---\n" + (Template(c, v) + "\n")
    case Tags => "---\n" + Template(c, v)
    case Participants => "---\n" + Template(c, v)
    case ProjectInfo => "$1" + ("\n" + (Template(c, v) + "\n"))
    case PeopleInfo => "$1" + ("\n" + (Template(c, v) + "\n"))
  }

  /** The slot's first match, segment `k`, replaced. */
  function ReplaceMatch(c: Slot, v: Fields, x: seq<Seg>, k: nat): string
    requires k < |x|
  {
    var text := if x[k].Ln? then x[k].text else SegOnto(x[k], "");
    Substitute(Template(c, v), Match(Render(x[..k]), text, None, EndOf(x[k]) + Render(x[k + 1..])))
  }

  /** The opening or heading line before segment `at` replaced by itself and the slot. */
  function InsertAfter(c: Slot, v: Fields, x: seq<Seg>, at: nat): string
    requires 1 <= at <= |x|
  {
    var text := SegOnto(x[at - 1], "");
    var group := if c.ProjectInfo? || c.PeopleInfo? then Some(text) else None;
    Substitute(InsertTemplate(c, v), Match(Render(x[..at - 1]), text, group, Render(x[at..])))
  }

  function Put(c: Slot, v: Fields, s: string): string {
    var x := Segs(s);
    if Has(c, x) then ReplaceMatch(c, v, x, First(c, x))
    else match Spot(c, x)
      case None => s
      case Some(at) => InsertAfter(c, v, x, at)
  }

  /** Slots whose value is absent are skipped, except the info lines. */
  predicate Active(c: Slot, v: Fields) {
    match c
    case Title => v.title != ""
    case Project => v.project != ""
    case Tags => v.tags != []
    case Participants => v.participants != []
    case ProjectInfo => true
    case PeopleInfo => true
  }

  function Body(v: Fields, cs: seq<Slot>, s: string): string {
    if cs == [] then s else Body(v, cs[1..], if Active(cs[0], v) then Put(cs[0], v, s) else s)
  }

  function Apply(markdown: string, m: Metadata): string { Body(Clean(m), ORDER, Trim(markdown)) + "\n" }

  // ---- The metadata the theorems are about ----

  predicate Ink(s: string) { s != "" && !IsSpace(s[|s| - 1]) }

  /** Project, participants and tags supplied, one line each, nothing a replacement could act on. */
  predicate RestReady(v: Fields) {
    && v.project != "" && v.participants != [] && Inert(v.project) && OneLine(v.project)
    && (forall i :: 0 <= i < |v.participants| ==> Inert(v.participants[i]))
    && (forall i :: 0 <= i < |v.tags| ==> Inert(v.tags[i]) && OneLine(v.tags[i]))
  }

  /** The title too. */
  predicate Ready(m: Metadata) {
    var v := Clean(m); v.title != "" && Inert(v.title) && RestReady(v)
  }

  predicate Writable(s: string) { OneLine(s) && Inert(s) && Ink(s) }

  predicate Sound(v: Fields) {
    && Writable(v.title) && Writable(v.project) && Trimmed(v.project)
    && v.participants != [] && (forall i :: 0 <= i < |v.participants| ==> Writable(v.participants[i]))
    && v.tags != [] && (forall i :: 0 <= i < |v.tags| ==> Writable(v.tags[i]))
  }

  lemma SpacesOnly(s: string)
    requires Collapsed(s)
    ensures OneLine(s)
  {}

  lemma NormalIsOneLine(s: string)
    ensures OneLine(Normalize(s)) && Trimmed(Normalize(s))
  {
    CollapseCollapses(s);
    TrimIs(Collapse(s));
    TrimKeepsCollapsed(Collapse(s));
    SpacesOnly(Normalize(s));
  }

  lemma {:induction false} UniqueIs(ss: seq<string>)
    ensures forall s :: s in Unique(ss) <==> s in ss
    ensures forall i, j :: 0 <= i < j < |Unique(ss)| ==> Unique(ss)[i] != Unique(ss)[j]
    ensures ss != [] ==> Unique(ss) != [] && Unique(ss)[0] == ss[0]
  {
    if ss != [] {
      UniqueIs(ss[..|ss| - 1]);
      assert ss == ss[..|ss| - 1] + [ss[|ss| - 1]];
    }
  }

  lemma CleanTagInk(tag: string)
    ensures CleanTag(tag) != "" ==> Ink(CleanTag(tag))
  {
    TrimIs(tag);
  }

  /** The written tags: `meeting` first, then each supplied tag once. */
  lemma TagsAre(m: Metadata)
    ensures var tags := Clean(m).tags;
            tags != [] && tags[0] == "meeting"
            && (forall i, j :: 0 <= i < j < |tags| ==> tags[i] != tags[j])
            && (forall t :: t in tags <==> t == "meeting" || t in Nonempty(Each(CleanTag, m.tags)))
            && (forall i :: 0 <= i < |tags| ==> Ink(tags[i]))
  {
    var custom := Nonempty(Each(CleanTag, m.tags));
    UniqueIs(["meeting"] + custom);
    EachIs(CleanTag, m.tags);
    forall i | 0 <= i < |m.tags| ensures CleanTag(m.tags[i]) != "" ==> Ink(CleanTag(m.tags[i])) {
      CleanTagInk(m.tags[i]);
    }
    NonemptyKeeps(Ink, Each(CleanTag, m.tags));
    var tags := Clean(m).tags;
    forall i | 0 <= i < |tags| ensures Ink(tags[i]) {
      assert tags[i] in ["meeting"] + custom;
    }
  }

  /** With any writable title in place of its own, ready metadata is sound. */
  lemma RestIsSound(m: Metadata, title: string)
    requires RestReady(Clean(m)) && Writable(title)
    ensures Sound(Clean(m).(title := title))
  {
    TrimIs(m.project);
    TagsAre(m);
    EachIs(Normalize, m.participants);
    forall i | 0 <= i < |m.participants|
      ensures Normalize(m.participants[i]) != "" ==> OneLineInk(Normalize(m.participants[i]))
    {
      NormalIsOneLine(m.participants[i]);
    }
    NonemptyKeeps(OneLineInk, Each(Normalize, m.participants));
  }

  lemma ReadyIsSound(m: Metadata)
    requires Ready(m)
    ensures Sound(Clean(m))
  {
    NormalIsOneLine(m.title);
    RestIsSound(m, Clean(m).title);
  }

  predicate OneLineInk(s: string) { OneLine(s) && Ink(s) }

  // ---- Inert replacement strings are written as they are ----

  lemma {:induction false} ExpandInert(tpl: string, m: Match)
    requires Inert(tpl)
    ensures Expand(tpl, m) == tpl
  {
    if tpl != "" {
      assert Inert(tpl[1..]) by {
        forall i | 0 <= i < |tpl[1..]| - 1 && tpl[1..][i] == '$' ensures !Activates(tpl[1..][i + 1]) {
          assert tpl[i + 1] == '$';
        }
      }
      ExpandInert(tpl[1..], m);
      assert tpl == [tpl[0]] + tpl[1..];
    }
  }

  lemma InertAppend(a: string, b: string)
    requires Inert(a) && Inert(b)
    requires a == "" || b == "" || a[|a| - 1] != '$' || !Activates(b[0])
    ensures Inert(a + b)
  {
    var s := a + b;
    forall i | 0 <= i < |s| - 1 && s[i] == '$' ensures !Activates(s[i + 1]) {
      if i < |a| - 1 {
        assert s[i] == a[i] && s[i + 1] == a[i + 1];
      } else if i >= |a| {
        assert s[i] == b[i - |a|] && s[i + 1] == b[i + 1 - |a|];
      }
    }
  }

  lemma {:induction false} JoinedInert(parts: seq<string>, separator: string)
    requires forall i :: 0 <= i < |parts| ==> Inert(parts[i])
    requires separator != "" && Inert(separator)
    requires !Activates(separator[0]) && separator[|separator| - 1] != '$'
    ensures Inert(Joined(parts, separator))
  {
    if |parts| > 1 {
      JoinedInert(parts[1..], separator);
      InertAppend(parts[0], separator);
      InertAppend(parts[0] + separator, Joined(parts[1..], separator));
    }
  }

  lemma {:induction false} BulletsInert(items: seq<string>)
    requires forall i :: 0 <= i < |items| ==> Inert(items[i])
    ensures forall i :: 0 <= i < |Bullets(items)| ==> Inert(Bullets(items)[i])
  {
    if items != [] {
      InertAppend(ITEM, items[0]);
      BulletsInert(items[1..]);
    }
  }

  /** Line feeds become spaces; the result is one line unless the value has another line terminator. */
  lemma {:induction false} SpacedIs(s: string)
    ensures |Spaced(s)| == |s| && forall i :: 0 <= i < |s| ==> Spaced(s)[i] == if s[i] == '\n' then ' ' else s[i]
    ensures OneLine(Spaced(s)) <==> forall i :: 0 <= i < |s| && IsTerminator(s[i]) ==> s[i] == '\n'
  {
    if s != "" { SpacedIs(s[1..]); }
  }

  lemma {:induction false} SpacedSame(s: string)
    requires OneLine(s)
    ensures Spaced(s) == s
  {
    if s != "" { SpacedSame(s[1..]); }
  }

  /** The joined bullets are the block's segment. */
  lemma {:induction false} BulletsRender(items: seq<string>)
    requires items != []
    ensures Joined(Bullets(items), "\n") + "\n" == ItemsOnto(items, false, "")
    ensures |Bullets(items)| == |items|
  {
    var head := ITEM + items[0];
    if |items| == 1 {
      assert Bullets(items) == [head] + Bullets(items[1..]) == [head];
      Assoc(ITEM, items[0], "\n");
      assert ItemsOnto(items, false, "") == ITEM + (items[0] + ("\n" + ""));
    } else {
      BulletsRender(items[1..]);
      var rest := Joined(Bullets(items[1..]), "\n");
      assert Bullets(items)[1..] == Bullets(items[1..]);
      assert Joined(Bullets(items), "\n") == head + "\n" + rest;
      Assoc(head + "\n", rest, "\n");
      Assoc(head, "\n", rest + "\n");
      Assoc(ITEM, items[0], "\n" + (rest + "\n"));
    }
  }

  lemma PeopleInert(v: Fields)
    requires Sound(v)
    ensures Inert(Joined(v.participants, "、"))
  {
    JoinedInert(v.participants, "、");
  }

  lemma LineInert(c: Slot, v: Fields)
    requires Sound(v) && !IsBlock(c)
    ensures Inert(LineOf(c, v)) && Inert(Content(c, v))
  {
    PeopleInert(v);
    if c.Project? { InertAppend(" ", v.project); }
    InertAppend(Prefix(c), Content(c, v));
  }

  lemma ProjectTemplate(v: Fields)
    requires Sound(v)
    ensures Template(Project, v) == LineOf(Project, v)
  {
    SpacedSame(v.project);
    TrimIs(v.project);
    assert "project: " == "project:" + " ";
    Assoc("project:", " ", v.project);
  }

  /** For sound values the template is the text of the new segment. */
  lemma TemplateIs(c: Slot, v: Fields, end: string)
    requires Sound(v)
    ensures Inert(Template(c, v))
    ensures IsBlock(c) ==> Template(c, v) == SegOnto(NewSeg(c, v, end), "")
    ensures !IsBlock(c) ==> Template(c, v) == LineOf(c, v)
  {
    if IsBlock(c) {
      var items := ItemsOf(c, v);
      BulletsRender(items);
      BulletsInert(items);
      JoinedInert(Bullets(items), "\n");
      InertAppend(Joined(Bullets(items), "\n"), "\n");
      InertAppend(Header(c.Participants?), Joined(Bullets(items), "\n") + "\n");
    } else {
      LineInert(c, v);
      if c.Project? { ProjectTemplate(v); }
    }
  }

  // ---- One replacement, on segments ----

  lemma RenderAround(x: seq<Seg>, k: nat, seg: Seg)
    requires k < |x|
    ensures Render(x[k := seg]) == Render(x[..k]) + SegOnto(seg, Render(x[k + 1..]))
  {
    assert x[k := seg] == x[..k] + ([seg] + x[k + 1..]);
    RenderAppend(x[..k], [seg] + x[k + 1..]);
    RenderCons(seg, x[k + 1..]);
  }

  lemma RenderOne(seg: Seg)
    ensures Render([seg]) == SegOnto(seg, "")
  {
    RenderCons(seg, []);
    assert [seg] + [] == [seg];
  }

  /** `text` in place of the segment's own match, between what comes before and after. */
  lemma ReplaceText(x: seq<Seg>, k: nat, seg: Seg, text: string)
    requires k < |x| && x[k].Ln? == seg.Ln?
    requires if seg.Ln? then seg == Ln(text, x[k].end) else SegOnto(seg, "") == text
    ensures Render(x[..k]) + (text + (EndOf(x[k]) + Render(x[k + 1..]))) == Render(x[k := seg])
  {
    RenderAround(x, k, seg);
    var after := Render(x[k + 1..]);
    if seg.Blk? {
      SegOntoIs(seg, "", after);
      assert "" + after == after;
    }
  }

  lemma MatchReplaced(c: Slot, v: Fields, x: seq<Seg>, k: nat)
    requires Sound(v) && k < |x|
    ensures ReplaceMatch(c, v, x, k) == Render(x[..k]) + (Template(c, v) + (EndOf(x[k]) + Render(x[k + 1..])))
  {
    var text := if x[k].Ln? then x[k].text else SegOnto(x[k], "");
    TemplateIs(c, v, "");
    ExpandInert(Template(c, v), Match(Render(x[..k]), text, None, EndOf(x[k]) + Render(x[k + 1..])));
  }

  lemma PutReplaces(c: Slot, v: Fields, x: seq<Seg>)
    requires Sound(v) && Has(c, x)
    ensures ReplaceMatch(c, v, x, First(c, x)) == Render(PutSeg(c, v, x))
  {
    var k := First(c, x);
    var seg := NewSeg(c, v, EndOf(x[k]));
    MatchReplaced(c, v, x, k);
    TemplateIs(c, v, EndOf(x[k]));
    assert Fits(c, x[k]) && x[k].Ln? == seg.Ln?;
    ReplaceText(x, k, seg, Template(c, v));
  }

  lemma InsertBlockTemplate(c: Slot, v: Fields, m: Match)
    requires Sound(v) && IsBlock(c) && m.matched == "---\n"
    ensures Expand(InsertTemplate(c, v), m) == m.matched + Render(Inserted(c, v))
  {
    TemplateIs(c, v, "\n");
    RenderOne(NewSeg(c, v, "\n"));
    InertAppend("---\n", Template(c, v));
    ExpandInert("---\n" + Template(c, v), m);
  }

  lemma LineRender(c: Slot, v: Fields)
    requires Sound(v) && !IsBlock(c)
    ensures Render([NewSeg(c, v, "\n")]) == Template(c, v) + "\n" && Inert(Template(c, v) + "\n")
  {
    TemplateIs(c, v, "\n");
    RenderOne(NewSeg(c, v, "\n"));
    InertAppend(Template(c, v), "\n");
  }

  lemma InsertProjectTemplate(v: Fields, m: Match)
    requires Sound(v) && m.matched == "---\n"
    ensures Expand(InsertTemplate(Project, v), m) == m.matched + Render(Inserted(Project, v))
  {
    LineRender(Project, v);
    InertAppend("---\n", Template(Project, v) + "\n");
    ExpandInert("---\n" + (Template(Project, v) + "\n"), m);
  }

  lemma ExpandGroup(rest: string, m: Match)
    requires m.group.Some?
    ensures Expand("$1" + rest, m) == m.group.value + Expand(rest, m)
  {
    assert ("$1" + rest)[2..] == rest;
  }

  lemma InsertInfoTemplate(c: Slot, v: Fields, m: Match)
    requires Sound(v) && (c.ProjectInfo? || c.PeopleInfo?) && m.group == Some(m.matched)
    ensures Expand(InsertTemplate(c, v), m) == m.matched + Render(Inserted(c, v))
  {
    LineRender(c, v);
    var line := Template(c, v) + "\n";
    InertAppend("\n", line);
    ExpandInert("\n" + line, m);
    ExpandGroup("\n" + line, m);
    RenderCons(Ln("", "\n"), [NewSeg(c, v, "\n")]);
    assert [Ln("", "\n")] + [NewSeg(c, v, "\n")] == Inserted(c, v);
    assert "" + ("\n" + line) == "\n" + line;
  }

  lemma InsertTemplateIs(c: Slot, v: Fields, m: Match)
    requires Sound(v) && !c.Title?
    requires if c.ProjectInfo? || c.PeopleInfo? then m.group == Some(m.matched) else m.matched == "---\n"
    ensures Expand(InsertTemplate(c, v), m) == m.matched + Render(Inserted(c, v))
  {
    if IsBlock(c) {
      InsertBlockTemplate(c, v, m);
    } else if c.Project? {
      InsertProjectTemplate(v, m);
    } else {
      InsertInfoTemplate(c, v, m);
    }
  }

  lemma RenderInsert(x: seq<Seg>, at: nat, ins: seq<Seg>)
    requires 1 <= at <= |x|
    ensures var text := SegOnto(x[at - 1], "");
            Render(InsertAt(x, at, ins)) == Render(x[..at - 1]) + ((text + Render(ins)) + Render(x[at..]))
  {
    var head := x[..at - 1];
    assert x[..at] == head + [x[at - 1]];
    RenderAppend(x[..at] + ins, x[at..]);
    RenderAppend(x[..at], ins);
    RenderAppend(head, [x[at - 1]]);
    RenderOne(x[at - 1]);
    Assoc(Render(head), SegOnto(x[at - 1], ""), Render(ins));
    Assoc(Render(head), SegOnto(x[at - 1], "") + Render(ins), Render(x[at..]));
  }

  lemma SpotIs(c: Slot, x: seq<Seg>)
    requires Spot(c, x).Some?
    ensures var at := Spot(c, x).value;
            if c.ProjectInfo? || c.PeopleInfo? then IsAnchor(x[at - 1]) else at == 1 && x[0] == Ln("---", "\n")
  {}

  /** What an insertion finds: the line it goes behind. */
  lemma InsertAfterIs(c: Slot, v: Fields, x: seq<Seg>, at: nat)
    requires Sound(v) && !c.Title? && 1 <= at <= |x|
    requires c.ProjectInfo? || c.PeopleInfo? || SegOnto(x[at - 1], "") == "---\n"
    ensures InsertAfter(c, v, x, at)
            == Render(x[..at - 1]) + ((SegOnto(x[at - 1], "") + Render(Inserted(c, v))) + Render(x[at..]))
  {
    var text := SegOnto(x[at - 1], "");
    var group := if c.ProjectInfo? || c.PeopleInfo? then Some(text) else None;
    InsertTemplateIs(c, v, Match(Render(x[..at - 1]), text, group, Render(x[at..])));
    Assoc(Render(x[..at - 1]), text + Render(Inserted(c, v)), Render(x[at..]));
  }

  lemma PutInserts(c: Slot, v: Fields, x: seq<Seg>)
    requires Sound(v) && !Has(c, x) && Spot(c, x).Some?
    ensures InsertAfter(c, v, x, Spot(c, x).value) == Render(PutSeg(c, v, x))
  {
    SpotIs(c, x);
    var at := Spot(c, x).value;
    if x[at - 1] == Ln("---", "\n") { assert SegOnto(x[at - 1], "") == "---" + ("\n" + "") == "---\n"; }
    InsertAfterIs(c, v, x, at);
    RenderInsert(x, at, Inserted(c, v));
    assert PutSeg(c, v, x) == InsertAt(x, at, Inserted(c, v));
  }

  /** The replacement on texts is the put on segments. */
  lemma PutIs(c: Slot, v: Fields, x: seq<Seg>)
    requires Sound(v) && Canonical(x)
    ensures Put(c, v, Render(x)) == Render(PutSeg(c, v, x))
  {
    SegsRender(x);
    if Has(c, x) {
      PutReplaces(c, v, x);
    } else if Spot(c, x).Some? {
      PutInserts(c, v, x);
    }
  }

  // ---- Puts keep segment lists canonical, unless a block lands on top of an item ----

  /** The line after the opening `---` would be read as an item of a block inserted there. */
  predicate Danger(x: seq<Seg>) { Opens(x) && |x| > 1 && StartsItem(x[1]) }

  lemma PeopleOneLine(parts: seq<string>)
    requires forall i :: 0 <= i < |parts| ==> OneLine(parts[i])
    ensures OneLine(Joined(parts, "、"))
  {
    if |parts| > 1 { PeopleOneLine(parts[1..]); }
  }

  lemma LineStarts(c: Slot, v: Fields)
    requires !IsBlock(c)
    ensures var line := LineOf(c, v);
            !(ITEM <= line) && line != "tags:" && line != "participants:"
  {
    var line := LineOf(c, v);
    assert Prefix(c) <= line;
    assert line[0] == Prefix(c)[0] && line[1] == Prefix(c)[1];
  }

  lemma ContentOneLine(c: Slot, v: Fields)
    requires Sound(v)
    ensures OneLine(Content(c, v))
  {
    PeopleOneLine(v.participants);
  }

  lemma LineOneLine(c: Slot, v: Fields)
    requires Sound(v)
    ensures OneLine(LineOf(c, v))
  {
    ContentOneLine(c, v);
    assert OneLine(Prefix(c));
  }

  lemma NewIsPiece(c: Slot, v: Fields, end: string)
    requires Sound(v) && (IsBlock(c) || end == "" || (|end| == 1 && IsTerminator(end[0])))
    ensures Piece(NewSeg(c, v, end)) && !StartsItem(NewSeg(c, v, end))
  {
    if !IsBlock(c) {
      LineOneLine(c, v);
      LineStarts(c, v);
    }
  }

  lemma PieceEnd(seg: Seg)
    requires Piece(seg)
    ensures EndOf(seg) == "" || (|EndOf(seg)| == 1 && IsTerminator(EndOf(seg)[0]))
  {}

  lemma FitsHasText(c: Slot, seg: Seg)
    requires Fits(c, seg)
    ensures seg.Ln? ==> seg.text != ""
    ensures !StartsItem(seg)
  {
    if seg.Ln? { assert seg.text[0] == Prefix(c)[0]; }
  }

  lemma ReplaceCanonical(x: seq<Seg>, k: nat, seg: Seg)
    requires Canonical(x) && k < |x| && Piece(seg) && !StartsItem(seg)
    requires x[k].Ln? ==> x[k].text != "" && seg.Ln? && seg.end == x[k].end
    requires x[k].Blk? ==> seg.Blk? && !seg.open
    ensures Canonical(x[k := seg])
  {
    var y := x[k := seg];
    forall i | 0 <= i < |y| - 1 ensures Joins(y[i], y[i + 1]) { assert Joins(x[i], x[i + 1]); }
  }

  lemma InsertCanonical(x: seq<Seg>, at: nat, ins: seq<Seg>)
    requires Canonical(x) && 1 <= at < |x| && ins != [] && Chained(ins)
    requires Joins(x[at - 1], ins[0]) && Joins(ins[|ins| - 1], x[at])
    ensures Canonical(InsertAt(x, at, ins))
  {
    var y := InsertAt(x, at, ins);
    forall i | 0 <= i < |y| ensures Piece(y[i]) && (i < |y| - 1 ==> Joins(y[i], y[i + 1])) {
      InsertedIndex(x, at, ins, i);
      if i < |y| - 1 { InsertedIndex(x, at, ins, i + 1); }
      if i < at - 1 {
        assert Joins(x[i], x[i + 1]);
      } else if at <= i < at + |ins| - 1 {
        assert Joins(ins[i - at], ins[i - at + 1]);
      } else if at + |ins| <= i < |y| - 1 {
        assert Joins(x[i - |ins|], x[i - |ins| + 1]);
      }
    }
    InsertedIndex(x, at, ins, |y| - 1);
  }

  lemma PutReplaceCanonical(c: Slot, v: Fields, x: seq<Seg>)
    requires Sound(v) && Canonical(x) && Has(c, x)
    ensures Canonical(PutSeg(c, v, x))
  {
    var k := First(c, x);
    PieceEnd(x[k]);
    NewIsPiece(c, v, EndOf(x[k]));
    FitsHasText(c, x[k]);
    ReplaceCanonical(x, k, NewSeg(c, v, EndOf(x[k])));
  }

  lemma InsertedChains(c: Slot, v: Fields)
    requires Sound(v)
    ensures var ins := Inserted(c, v);
            Chained(ins) && ins[|ins| - 1] == NewSeg(c, v, "\n") && (IsBlock(c) || ins[|ins| - 1].Ln?)
  {
    NewIsPiece(c, v, "\n");
  }

  lemma PutInsertCanonical(c: Slot, v: Fields, x: seq<Seg>)
    requires Sound(v) && Canonical(x) && !Has(c, x) && Spot(c, x).Some?
    requires IsBlock(c) ==> !Danger(x)
    ensures Canonical(PutSeg(c, v, x))
  {
    SpotIs(c, x);
    InsertedChains(c, v);
    var at, ins := Spot(c, x).value, Inserted(c, v);
    assert x[at - 1].Ln? && x[at - 1].end == "\n" && at < |x|;
    assert Joins(ins[|ins| - 1], x[at]) by {
      if IsBlock(c) { assert at == 1 && !StartsItem(x[1]); }
    }
    InsertCanonical(x, at, ins);
  }

  lemma PutCanonical(c: Slot, v: Fields, x: seq<Seg>)
    requires Sound(v) && Canonical(x)
    requires IsBlock(c) && !Has(c, x) ==> !Danger(x)
    ensures Canonical(PutSeg(c, v, x))
  {
    if Has(c, x) {
      PutReplaceCanonical(c, v, x);
    } else if Spot(c, x).Some? {
      PutInsertCanonical(c, v, x);
    }
  }
}
