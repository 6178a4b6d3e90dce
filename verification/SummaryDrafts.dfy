/** The summary drafts people edit as text: one row per line, columns split at bars, on the web and on the phone. */
module SummaryDrafts {
  import opened Text
  import opened Whitespace
  import opened DraftRows

  const UNKNOWN := "不确定"
  const UNCONFIRMED := "待确认"
  const CONFIRMED := "已确认"
  const CANDIDATE := "候选"

  datatype Status = Confirmed | Candidate
  datatype Pair = Pair(first: string, second: string)
  datatype Action = Action(task: string, owner: string, due: string, status: Status)

  // ---- Columns ----

  predicate IsBar(c: char) { c == '|' || c == '｜' }

  predicate Plain(c: char) { c != '\n' && !IsBar(c) }

  /** `line.split(/[|｜]/)`. */
  function SplitBars(s: string): (r: seq<string>)
    ensures r != []
  {
    if s == "" then [""]
    else
      var rest := SplitBars(s[1..]);
      if IsBar(s[0]) then [""] + rest else [[s[0]] + rest[0]] + rest[1..]
  }

  predicate BulletLed(s: string) { s != "" && (s[0] == '-' || s[0] == '*') }

  /** One leading `-` or `*` and the white space after it go (the replace at the start of both splitters). */
  function StripBullet(s: string): string {
    if BulletLed(s) then DropSpaces(s[1..]) else s
  }

  function WebCells(line: string): seq<string> { Each(Trim, SplitBars(StripBullet(line))) }

  function PhoneCells(line: string): seq<string> { Nonempty(Each(Normalize, SplitBars(line))) }

  /** `cells[i] || fallback`. */
  function CellOr(cells: seq<string>, i: nat, fallback: string): string {
    if i < |cells| && cells[i] != "" then cells[i] else fallback
  }

  // ---- Printers, the same on both sides ----

  function PairRow(x: Pair): string { x.first + "｜" + x.second }

  function StatusText(s: Status): string { if s.Confirmed? then CONFIRMED else CANDIDATE }

  function ActionRow(x: Action): string {
    x.task + "｜" + (x.owner + "｜" + (x.due + "｜" + StatusText(x.status)))
  }

  function LineRow(x: string): string { x }

  // ---- Row parsers of the web editor ----

  function LowerChar(c: char): char {
    if 'A' <= c <= 'Z' then (c as int + 32) as char else c
  }

  function Lower(s: string): string { if s == "" then "" else [LowerChar(s[0])] + Lower(s[1..]) }

  /** Decisions and speaker views: rows with neither column known are dropped. */
  function WebPair(line: string): Option<Pair> {
    var cells := WebCells(line);
    var x := Pair(CellOr(cells, 0, UNKNOWN), CellOr(cells, 1, UNKNOWN));
    if x.first != UNKNOWN || x.second != UNKNOWN then Some(x) else None
  }

  function WebStatus(cells: seq<string>): Status {
    if |cells| > 3 && (cells[3] == CONFIRMED || Lower(cells[3]) == "confirmed") then Confirmed else Candidate
  }

  function WebAction(line: string): Option<Action> {
    var cells := WebCells(line);
    var x := Action(CellOr(cells, 0, UNKNOWN), CellOr(cells, 1, UNKNOWN), CellOr(cells, 2, UNKNOWN), WebStatus(cells));
    if x.task != UNKNOWN then Some(x) else None
  }

  function WebLine(line: string): Option<string> {
    var x := Trim(StripBullet(line));
    if x == "" then None else Some(x)
  }

  // ---- Row parsers of the phone editor ----

  function PhoneDecision(line: string): Option<Pair> {
    var cells := PhoneCells(line);
    if cells == [] then None else Some(Pair(cells[0], if |cells| > 1 then cells[1] else ""))
  }

  function PhoneSpeakerView(line: string): Option<Pair> {
    var cells := PhoneCells(line);
    if cells == [] then None else Some(Pair(cells[0], if |cells| > 1 then cells[1] else UNKNOWN))
  }

  /** `text.includes("确认")`. */
  predicate SaysConfirmed(s: string) {
    exists i :: 0 <= i < |s| - 1 && s[i] == '确' && s[i + 1] == '认'
  }

  function PhoneStatus(cells: seq<string>): Status {
    if |cells| > 3 && SaysConfirmed(cells[3]) then Confirmed else Candidate
  }

  function PhoneAction(line: string): Option<Action> {
    var cells := PhoneCells(line);
    if cells == [] then None
    else Some(Action(cells[0], if |cells| > 1 then cells[1] else UNCONFIRMED,
                     if |cells| > 2 then cells[2] else UNCONFIRMED, PhoneStatus(cells)))
  }

  function PhoneLine(line: string): Option<string> {
    var x := Normalize(StripBullet(line));
    if x == "" then None else Some(x)
  }

  // ---- What a parsed field looks like ----

  predicate WebField(s: string) { s != "" && Trimmed(s) && All(Plain, s) }

  predicate PhoneField(s: string) { s != "" && Normalize(s) == s && All(Plain, s) }

  predicate WebPairLike(x: Pair) { WebField(x.first) && WebField(x.second) }

  predicate WebActionLike(x: Action) { WebField(x.task) && WebField(x.owner) && WebField(x.due) }

  predicate WebLineLike(x: string) { x != "" && Trimmed(x) && NoNewline(x) }

  predicate PhoneDecisionLike(x: Pair) { PhoneField(x.first) && (x.second == "" || PhoneField(x.second)) }

  predicate PhoneViewLike(x: Pair) { PhoneField(x.first) && PhoneField(x.second) }

  predicate PhoneActionLike(x: Action) { PhoneField(x.task) && PhoneField(x.owner) && PhoneField(x.due) }

  predicate PhoneLineLike(x: string) { x != "" && Normalize(x) == x && NoNewline(x) }

  // ---- Rows that survive printing on the web: known enough to be kept, and no bullet in front ----

  predicate WebPairClean(x: Pair) {
    WebPairLike(x) && !BulletLed(x.first) && (x.first != UNKNOWN || x.second != UNKNOWN)
  }

  predicate WebActionClean(x: Action) { WebActionLike(x) && !BulletLed(x.task) && x.task != UNKNOWN }

  predicate WebLineClean(x: string) { WebLineLike(x) && !BulletLed(x) }

  predicate PhoneLineClean(x: string) { PhoneLineLike(x) && !BulletLed(x) }

  // ---- Splitting ----

  lemma {:induction false} SplitBarsAll(p: char -> bool, s: string)
    requires All(p, s)
    ensures forall i :: 0 <= i < |SplitBars(s)| ==> All(c => p(c) && !IsBar(c), SplitBars(s)[i])
  {
    if s != "" { SplitBarsAll(p, s[1..]); }
  }

  lemma {:induction false} SplitBarsFirst(a: string, bar: char, b: string)
    requires All(Plain, a) && IsBar(bar)
    ensures SplitBars(a) == [a]
    ensures SplitBars(a + [bar] + b) == [a] + SplitBars(b)
  {
    var s := a + [bar] + b;
    if a == "" {
      assert s[1..] == b;
    } else {
      SplitBarsFirst(a[1..], bar, b);
      assert s[1..] == a[1..] + [bar] + b;
      assert [a[0]] + a[1..] == a;
    }
  }

  lemma PlainNoNewline(s: string)
    requires All(Plain, s)
    ensures NoNewline(s)
  {}

  lemma NoNewlineAll(s: string)
    requires NoNewline(s)
    ensures All(c => c != '\n', s)
  {}

  lemma StripBulletNoNewline(s: string)
    requires NoNewline(s)
    ensures All(c => c != '\n', StripBullet(s))
  {
    NoNewlineAll(s);
    if BulletLed(s) { DropSpacesShrinks(s[1..]); }
  }

  lemma WebCellsRange(line: string)
    requires NoNewline(line)
    ensures forall i :: 0 <= i < |WebCells(line)| && WebCells(line)[i] != "" ==> WebField(WebCells(line)[i])
  {
    var s := StripBullet(line);
    StripBulletNoNewline(line);
    SplitBarsAll(c => c != '\n', s);
    var pieces := SplitBars(s);
    EachIs(Trim, pieces);
    forall i | 0 <= i < |pieces| ensures Trim(pieces[i]) != "" ==> WebField(Trim(pieces[i])) {
      assert All(Plain, pieces[i]);
      TrimAll(Plain, pieces[i]);
      TrimIs(pieces[i]);
    }
  }

  lemma PhoneCellsRange(line: string)
    requires NoNewline(line)
    ensures forall i :: 0 <= i < |PhoneCells(line)| ==> PhoneField(PhoneCells(line)[i])
  {
    NoNewlineAll(line);
    SplitBarsAll(c => c != '\n', line);
    var pieces := SplitBars(line);
    EachIs(Normalize, pieces);
    forall i | 0 <= i < |pieces| ensures Normalize(pieces[i]) != "" ==> PhoneField(Normalize(pieces[i])) {
      assert All(Plain, pieces[i]);
      NormalizeAll(Plain, pieces[i]);
      NormalizeIs(pieces[i]);
    }
    NonemptyKeeps(PhoneField, Each(Normalize, pieces));
  }

  // ---- Each row parser yields rows of its own kind ----

  lemma WordIsAField(s: string)
    requires s != "" && All(c => Plain(c) && !IsSpace(c), s)
    ensures WebField(s) && PhoneField(s)
  {
    assert Collapsed(s);
    CollapsedIsFixed(s);
    TrimIs(s);
  }

  lemma UnknownIsAField()
    ensures WebField(UNKNOWN) && PhoneField(UNKNOWN) && PhoneField(UNCONFIRMED)
  {
    WordIsAField(UNKNOWN);
    WordIsAField(UNCONFIRMED);
  }

  lemma WebPairRange(line: string)
    requires NoNewline(line) && WebPair(line).Some?
    ensures WebPairLike(WebPair(line).value)
  {
    WebCellsRange(line);
    UnknownIsAField();
  }

  lemma WebActionRange(line: string)
    requires NoNewline(line) && WebAction(line).Some?
    ensures WebActionLike(WebAction(line).value)
  {
    WebCellsRange(line);
    UnknownIsAField();
  }

  lemma WebLineRange(line: string)
    requires NoNewline(line) && WebLine(line).Some?
    ensures WebLineLike(WebLine(line).value)
  {
    StripBulletNoNewline(line);
    TrimAll(c => c != '\n', StripBullet(line));
    TrimIs(StripBullet(line));
  }

  lemma PhoneDecisionRange(line: string)
    requires NoNewline(line) && PhoneDecision(line).Some?
    ensures PhoneDecisionLike(PhoneDecision(line).value)
  {
    PhoneCellsRange(line);
  }

  lemma PhoneViewRange(line: string)
    requires NoNewline(line) && PhoneSpeakerView(line).Some?
    ensures PhoneViewLike(PhoneSpeakerView(line).value)
  {
    PhoneCellsRange(line);
    UnknownIsAField();
  }

  lemma PhoneActionRange(line: string)
    requires NoNewline(line) && PhoneAction(line).Some?
    ensures PhoneActionLike(PhoneAction(line).value)
  {
    PhoneCellsRange(line);
    UnknownIsAField();
  }

  lemma PhoneLineRange(line: string)
    requires NoNewline(line) && PhoneLine(line).Some?
    ensures PhoneLineLike(PhoneLine(line).value)
  {
    StripBulletNoNewline(line);
    NormalizeAll(c => c != '\n', StripBullet(line));
    NormalizeIs(StripBullet(line));
  }

  // ---- Printed rows are single lines ----

  lemma PairRowNoNewline(x: Pair)
    requires NoNewline(x.first) && NoNewline(x.second)
    ensures NoNewline(PairRow(x)) && PairRow(x) != ""
  {}

  lemma ActionRowNoNewline(x: Action)
    requires NoNewline(x.task) && NoNewline(x.owner) && NoNewline(x.due)
    ensures NoNewline(ActionRow(x)) && ActionRow(x) != ""
  {}

  // ---- Columns of a printed row ----

  lemma PairColumns(a: string, b: string)
    requires All(Plain, a) && All(Plain, b)
    ensures SplitBars(PairRow(Pair(a, b))) == [a, b]
  {
    SplitBarsFirst(a, '｜', b);
    SplitBarsFirst(b, '｜', "");
  }

  lemma ColumnInFront(a: string, rest: string)
    requires All(Plain, a)
    ensures SplitBars(a + "｜" + rest) == [a] + SplitBars(rest)
  {
    SplitBarsFirst(a, '｜', rest);
  }

  lemma StatusTextPlain(s: Status)
    ensures WebField(StatusText(s)) && PhoneField(StatusText(s))
  {
    WordIsAField(StatusText(s));
  }

  lemma ActionColumns(x: Action)
    requires All(Plain, x.task) && All(Plain, x.owner) && All(Plain, x.due)
    ensures SplitBars(ActionRow(x)) == [x.task, x.owner, x.due, StatusText(x.status)]
  {
    var status := StatusText(x.status);
    StatusTextPlain(x.status);
    PairColumns(x.due, status);
    var two := x.due + "｜" + status;
    ColumnInFront(x.owner, two);
    var three := x.owner + "｜" + two;
    ColumnInFront(x.task, three);
    assert [x.task] + ([x.owner] + [x.due, status]) == [x.task, x.owner, x.due, status];
  }

  /** Dropping leading white space stops inside `a`, or at `b`. */
  lemma {:induction false} DropSpacesStops(a: string, b: string)
    requires b != "" && !IsSpace(b[0])
    ensures DropSpaces(a + b) == DropSpaces(a) + b
  {
    if a == "" {
      assert a + b == b;
    } else if IsSpace(a[0]) {
      assert (a + b)[1..] == a[1..] + b;
      DropSpacesStops(a[1..], b);
    }
  }

  lemma BulletStripped(a: string, b: string)
    requires BulletLed(a) && b != "" && !IsSpace(b[0])
    ensures StripBullet(a + b) == DropSpaces(a[1..]) + b
  {
    assert (a + b)[1..] == a[1..] + b;
    DropSpacesStops(a[1..], b);
  }

  lemma BarInFront(a: string, b: string)
    ensures a + "｜" + b == a + ("｜" + b)
  {}

  /** A bullet in front of a printed row eats into its first column. */
  lemma BulletEatsColumn(a: string, b: string)
    requires BulletLed(a) && All(Plain, a)
    ensures |WebCells(a + "｜" + b)| > 0 && WebCells(a + "｜" + b)[0] != a
  {
    var left := DropSpaces(a[1..]);
    BarInFront(a, b);
    BarInFront(left, b);
    BulletStripped(a, "｜" + b);
    DropSpacesShrinks(a[1..]);
    SplitBarsFirst(left, '｜', b);
    EachIs(Trim, [left] + SplitBars(b));
    TrimIs(left);
  }

  lemma {:induction false} EachFixes(f: string -> string, ss: seq<string>)
    requires forall i :: 0 <= i < |ss| ==> f(ss[i]) == ss[i]
    ensures Each(f, ss) == ss
  {
    EachIs(f, ss);
  }

  lemma {:induction false} NonemptyFixes(ss: seq<string>)
    requires "" !in ss
    ensures Nonempty(ss) == ss
  {
    if ss != [] {
      assert forall c :: c in ss[1..] ==> c in ss;
      NonemptyFixes(ss[1..]);
    }
  }

  // ---- Exactly which single rows survive printing and parsing ----

  lemma WebPairSurvives(x: Pair)
    requires WebPairLike(x)
    ensures WebPair(PairRow(x)) == Some(x) <==> WebPairClean(x)
  {
    if BulletLed(x.first) {
      BulletEatsColumn(x.first, x.second);
      assert x.first != UNKNOWN;
    } else {
      PairColumns(x.first, x.second);
      TrimIs(x.first);
      TrimIs(x.second);
      EachFixes(Trim, [x.first, x.second]);
      assert WebCells(PairRow(x)) == [x.first, x.second];
    }
  }

  lemma ActionCells(x: Action)
    requires WebActionLike(x) && !BulletLed(x.task)
    ensures WebCells(ActionRow(x)) == [x.task, x.owner, x.due, StatusText(x.status)]
  {
    ActionColumns(x);
    StatusTextPlain(x.status);
    TrimIs(x.task);
    TrimIs(x.owner);
    TrimIs(x.due);
    TrimIs(StatusText(x.status));
    EachFixes(Trim, [x.task, x.owner, x.due, StatusText(x.status)]);
  }

  lemma WebStatusReads(s: Status, a: string, b: string, c: string)
    ensures WebStatus([a, b, c, StatusText(s)]) == s
  {
    if s.Candidate? {
      assert Lower(CANDIDATE)[0] == '候';
    }
  }

  lemma WebActionSurvives(x: Action)
    requires WebActionLike(x)
    ensures WebAction(ActionRow(x)) == Some(x) <==> WebActionClean(x)
  {
    if BulletLed(x.task) {
      BulletEatsColumn(x.task, x.owner + "｜" + (x.due + "｜" + StatusText(x.status)));
      assert x.task != UNKNOWN;
    } else {
      ActionCells(x);
      WebStatusReads(x.status, x.task, x.owner, x.due);
    }
  }

  lemma WebLineSurvives(x: string)
    requires WebLineLike(x)
    ensures WebLine(LineRow(x)) == Some(x) <==> WebLineClean(x)
  {
    TrimIs(x);
    if BulletLed(x) {
      DropSpacesShrinks(x[1..]);
      TrimIs(StripBullet(x));
    }
  }

  lemma PhonePairCells(x: Pair)
    requires PhoneDecisionLike(x)
    ensures PhoneCells(PairRow(x)) == if x.second == "" then [x.first] else [x.first, x.second]
  {
    PairColumns(x.first, x.second);
    TrimIs("");
    assert Normalize("") == "";
    EachFixes(Normalize, [x.first, x.second]);
    if x.second == "" {
      assert [x.first, x.second][1..] == [""];
      assert Nonempty([x.first, ""]) == [x.first] + Nonempty([""]);
    } else {
      NonemptyFixes([x.first, x.second]);
    }
  }

  lemma PhoneDecisionSurvives(x: Pair)
    requires PhoneDecisionLike(x)
    ensures PhoneDecision(PairRow(x)) == Some(x)
  {
    PhonePairCells(x);
  }

  lemma PhoneViewSurvives(x: Pair)
    requires PhoneViewLike(x)
    ensures PhoneSpeakerView(PairRow(x)) == Some(x)
  {
    PhonePairCells(x);
  }

  lemma PhoneStatusReads(s: Status, a: string, b: string, c: string)
    ensures PhoneStatus([a, b, c, StatusText(s)]) == s
  {
    if s.Confirmed? {
      assert CONFIRMED[1] == '确' && CONFIRMED[2] == '认';
    }
  }

  lemma PhoneCellsOf(cells: seq<string>, line: string)
    requires SplitBars(line) == cells
    requires forall i :: 0 <= i < |cells| ==> PhoneField(cells[i])
    ensures PhoneCells(line) == cells
  {
    EachFixes(Normalize, cells);
    NonemptyFixes(cells);
  }

  lemma PhoneActionSurvives(x: Action)
    requires PhoneActionLike(x)
    ensures PhoneAction(ActionRow(x)) == Some(x)
  {
    ActionColumns(x);
    StatusTextPlain(x.status);
    PhoneCellsOf([x.task, x.owner, x.due, StatusText(x.status)], ActionRow(x));
    PhoneStatusReads(x.status, x.task, x.owner, x.due);
  }

  lemma PhoneLineSurvives(x: string)
    requires PhoneLineLike(x)
    ensures PhoneLine(LineRow(x)) == Some(x) <==> PhoneLineClean(x)
  {
    if BulletLed(x) {
      DropSpacesShrinks(x[1..]);
      NormalizeShrinks(StripBullet(x));
    }
  }

  lemma {:induction false} NormalizeShrinks(s: string)
    ensures |Normalize(s)| <= |s|
  {
    CollapseShrinks(s);
    TrimIs(Collapse(s));
  }

  lemma {:induction false} CollapseShrinks(s: string)
    ensures |Collapse(s)| <= |s|
    decreases |s|
  {
    if s != "" {
      if IsSpace(s[0]) { CollapseShrinks(DropSpaces(s[1..])); } else { CollapseShrinks(s[1..]); }
    }
  }

  // ---- The kinds of rows ----

  lemma EmptyLineHasNoCells()
    ensures PhoneCells("") == []
  {
    assert Normalize("") == "";
    assert SplitBars("") == [""];
    assert [""][1..] == [];
    assert Each(Normalize, [""]) == [""];
    assert Nonempty([""]) == Nonempty([""][1..]);
  }

  lemma WebPairsRows()
    ensures forall l :: NoNewline(l) && WebPair(l).Some? ==> WebPairLike(WebPair(l).value)
    ensures forall x :: WebPairLike(x) ==> NoNewline(PairRow(x)) && PairRow(x) != ""
    ensures forall x :: WebPairClean(x) <==> WebPairLike(x) && WebPair(PairRow(x)) == Some(x)
    ensures WebPair("").None?
  {
    forall l | NoNewline(l) && WebPair(l).Some? ensures WebPairLike(WebPair(l).value) { WebPairRange(l); }
    forall x | WebPairLike(x)
      ensures NoNewline(PairRow(x)) && PairRow(x) != "" && (WebPairClean(x) <==> WebPair(PairRow(x)) == Some(x))
    {
      PlainNoNewline(x.first);
      PlainNoNewline(x.second);
      PairRowNoNewline(x);
      WebPairSurvives(x);
    }
  }

  lemma WebActionsRows()
    ensures forall l :: NoNewline(l) && WebAction(l).Some? ==> WebActionLike(WebAction(l).value)
    ensures forall x :: WebActionLike(x) ==> NoNewline(ActionRow(x)) && ActionRow(x) != ""
    ensures forall x :: WebActionClean(x) <==> WebActionLike(x) && WebAction(ActionRow(x)) == Some(x)
    ensures WebAction("").None?
  {
    forall l | NoNewline(l) && WebAction(l).Some? ensures WebActionLike(WebAction(l).value) { WebActionRange(l); }
    forall x | WebActionLike(x)
      ensures NoNewline(ActionRow(x)) && ActionRow(x) != "" && (WebActionClean(x) <==> WebAction(ActionRow(x)) == Some(x))
    {
      PlainNoNewline(x.task);
      PlainNoNewline(x.owner);
      PlainNoNewline(x.due);
      ActionRowNoNewline(x);
      WebActionSurvives(x);
    }
  }

  lemma WebLinesRows()
    ensures forall l :: NoNewline(l) && WebLine(l).Some? ==> WebLineLike(WebLine(l).value)
    ensures forall x :: WebLineLike(x) ==> NoNewline(LineRow(x)) && LineRow(x) != ""
    ensures forall x :: WebLineClean(x) <==> WebLineLike(x) && WebLine(LineRow(x)) == Some(x)
    ensures WebLine("").None?
  {
    forall l | NoNewline(l) && WebLine(l).Some? ensures WebLineLike(WebLine(l).value) { WebLineRange(l); }
    forall x | WebLineLike(x)
      ensures NoNewline(LineRow(x)) && LineRow(x) != "" && (WebLineClean(x) <==> WebLine(LineRow(x)) == Some(x))
    {
      WebLineSurvives(x);
    }
  }

  lemma PhoneDecisionsRows()
    ensures forall l :: NoNewline(l) && PhoneDecision(l).Some? ==> PhoneDecisionLike(PhoneDecision(l).value)
    ensures forall x :: PhoneDecisionLike(x) ==> NoNewline(PairRow(x)) && PairRow(x) != ""
    ensures forall x :: PhoneDecisionLike(x) <==> PhoneDecisionLike(x) && PhoneDecision(PairRow(x)) == Some(x)
    ensures PhoneDecision("").None?
  {
    EmptyLineHasNoCells();
    forall l | NoNewline(l) && PhoneDecision(l).Some? ensures PhoneDecisionLike(PhoneDecision(l).value) { PhoneDecisionRange(l); }
    forall x | PhoneDecisionLike(x)
      ensures NoNewline(PairRow(x)) && PairRow(x) != "" && (PhoneDecisionLike(x) <==> PhoneDecision(PairRow(x)) == Some(x))
    {
      PlainNoNewline(x.first);
      PlainNoNewline(x.second);
      PairRowNoNewline(x);
      PhoneDecisionSurvives(x);
    }
  }

  lemma PhoneViewsRows()
    ensures forall l :: NoNewline(l) && PhoneSpeakerView(l).Some? ==> PhoneViewLike(PhoneSpeakerView(l).value)
    ensures forall x :: PhoneViewLike(x) ==> NoNewline(PairRow(x)) && PairRow(x) != ""
    ensures forall x :: PhoneViewLike(x) <==> PhoneViewLike(x) && PhoneSpeakerView(PairRow(x)) == Some(x)
    ensures PhoneSpeakerView("").None?
  {
    EmptyLineHasNoCells();
    forall l | NoNewline(l) && PhoneSpeakerView(l).Some? ensures PhoneViewLike(PhoneSpeakerView(l).value) { PhoneViewRange(l); }
    forall x | PhoneViewLike(x)
      ensures NoNewline(PairRow(x)) && PairRow(x) != "" && (PhoneViewLike(x) <==> PhoneSpeakerView(PairRow(x)) == Some(x))
    {
      PlainNoNewline(x.first);
      PlainNoNewline(x.second);
      PairRowNoNewline(x);
      PhoneViewSurvives(x);
    }
  }

  lemma PhoneActionsRows()
    ensures forall l :: NoNewline(l) && PhoneAction(l).Some? ==> PhoneActionLike(PhoneAction(l).value)
    ensures forall x :: PhoneActionLike(x) ==> NoNewline(ActionRow(x)) && ActionRow(x) != ""
    ensures forall x :: PhoneActionLike(x) <==> PhoneActionLike(x) && PhoneAction(ActionRow(x)) == Some(x)
    ensures PhoneAction("").None?
  {
    EmptyLineHasNoCells();
    forall l | NoNewline(l) && PhoneAction(l).Some? ensures PhoneActionLike(PhoneAction(l).value) { PhoneActionRange(l); }
    forall x | PhoneActionLike(x)
      ensures NoNewline(ActionRow(x)) && ActionRow(x) != "" && (PhoneActionLike(x) <==> PhoneAction(ActionRow(x)) == Some(x))
    {
      PlainNoNewline(x.task);
      PlainNoNewline(x.owner);
      PlainNoNewline(x.due);
      ActionRowNoNewline(x);
      PhoneActionSurvives(x);
    }
  }

  lemma PhoneLinesRows()
    ensures forall l :: NoNewline(l) && PhoneLine(l).Some? ==> PhoneLineLike(PhoneLine(l).value)
    ensures forall x :: PhoneLineLike(x) ==> NoNewline(LineRow(x)) && LineRow(x) != ""
    ensures forall x :: PhoneLineClean(x) <==> PhoneLineLike(x) && PhoneLine(LineRow(x)) == Some(x)
    ensures PhoneLine("").None?
  {
    forall l | NoNewline(l) && PhoneLine(l).Some? ensures PhoneLineLike(PhoneLine(l).value) { PhoneLineRange(l); }
    forall x | PhoneLineLike(x)
      ensures NoNewline(LineRow(x)) && LineRow(x) != "" && (PhoneLineClean(x) <==> PhoneLine(LineRow(x)) == Some(x))
    {
      PhoneLineSurvives(x);
    }
  }

  // ---- Round trips of whole drafts ----

  /**
   * Web decisions and speaker views: printing and parsing undo each other if and only if there are at most 20 rows,
   * all clean. Regenerated ids then number the rows from 1.
   */
  lemma WebPairsRoundTrip(xs: seq<Pair>)
    ensures Items(Parse(WebPair, Printed(PairRow, xs), Some(20))) == xs
            <==> |xs| <= 20 && forall i :: 0 <= i < |xs| ==> WebPairClean(xs[i])
    ensures var rows := Parse(WebPair, Printed(PairRow, xs), Some(20));
            Items(rows) == xs ==> forall i :: 0 <= i < |rows| ==> rows[i].line == i + 1
  {
    WebPairsRows();
    RoundTripIff(WebPair, PairRow, WebPairLike, WebPairClean, xs, Some(20));
  }

  lemma WebActionsRoundTrip(xs: seq<Action>)
    ensures Items(Parse(WebAction, Printed(ActionRow, xs), Some(30))) == xs
            <==> |xs| <= 30 && forall i :: 0 <= i < |xs| ==> WebActionClean(xs[i])
    ensures var rows := Parse(WebAction, Printed(ActionRow, xs), Some(30));
            Items(rows) == xs ==> forall i :: 0 <= i < |rows| ==> rows[i].line == i + 1
  {
    WebActionsRows();
    RoundTripIff(WebAction, ActionRow, WebActionLike, WebActionClean, xs, Some(30));
  }

  lemma WebLinesRoundTrip(xs: seq<string>)
    ensures Items(Parse(WebLine, Printed(LineRow, xs), Some(12))) == xs
            <==> |xs| <= 12 && forall i :: 0 <= i < |xs| ==> WebLineClean(xs[i])
  {
    WebLinesRows();
    RoundTripIff(WebLine, LineRow, WebLineLike, WebLineClean, xs, Some(12));
  }

  /** Phone decisions: any number of rows, bullets and empty details included. */
  lemma PhoneDecisionsRoundTrip(xs: seq<Pair>)
    ensures Items(Parse(PhoneDecision, Printed(PairRow, xs), None)) == xs
            <==> forall i :: 0 <= i < |xs| ==> PhoneDecisionLike(xs[i])
    ensures var rows := Parse(PhoneDecision, Printed(PairRow, xs), None);
            Items(rows) == xs ==> forall i :: 0 <= i < |rows| ==> rows[i].line == i + 1
  {
    PhoneDecisionsRows();
    RoundTripIff(PhoneDecision, PairRow, PhoneDecisionLike, PhoneDecisionLike, xs, None);
  }

  lemma PhoneViewsRoundTrip(xs: seq<Pair>)
    ensures Items(Parse(PhoneSpeakerView, Printed(PairRow, xs), Some(20))) == xs
            <==> |xs| <= 20 && forall i :: 0 <= i < |xs| ==> PhoneViewLike(xs[i])
  {
    PhoneViewsRows();
    RoundTripIff(PhoneSpeakerView, PairRow, PhoneViewLike, PhoneViewLike, xs, Some(20));
  }

  lemma PhoneActionsRoundTrip(xs: seq<Action>)
    ensures Items(Parse(PhoneAction, Printed(ActionRow, xs), None)) == xs
            <==> forall i :: 0 <= i < |xs| ==> PhoneActionLike(xs[i])
    ensures var rows := Parse(PhoneAction, Printed(ActionRow, xs), None);
            Items(rows) == xs ==> forall i :: 0 <= i < |rows| ==> rows[i].line == i + 1
  {
    PhoneActionsRows();
    RoundTripIff(PhoneAction, ActionRow, PhoneActionLike, PhoneActionLike, xs, None);
  }

  lemma PhoneLinesRoundTrip(xs: seq<string>)
    ensures Items(Parse(PhoneLine, Printed(LineRow, xs), Some(12))) == xs
            <==> |xs| <= 12 && forall i :: 0 <= i < |xs| ==> PhoneLineClean(xs[i])
  {
    PhoneLinesRows();
    RoundTripIff(PhoneLine, LineRow, PhoneLineLike, PhoneLineClean, xs, Some(12));
  }

  // ---- What the two editors make of text from anywhere ----

  /** Whatever was typed, a draft saved on the phone reads back the same when it is printed and saved again. */
  lemma PhoneDecisionSavesAreStable(text: string)
    ensures var xs := Items(Parse(PhoneDecision, text, None));
            Items(Parse(PhoneDecision, Printed(PairRow, xs), None)) == xs
  {
    PhoneDecisionsRows();
    SavesAreStableIff(PhoneDecision, PairRow, PhoneDecisionLike, PhoneDecisionLike, text, None);
  }

  lemma PhoneViewSavesAreStable(text: string)
    ensures var xs := Items(Parse(PhoneSpeakerView, text, Some(20)));
            Items(Parse(PhoneSpeakerView, Printed(PairRow, xs), Some(20))) == xs
  {
    PhoneViewsRows();
    SavesAreStableIff(PhoneSpeakerView, PairRow, PhoneViewLike, PhoneViewLike, text, Some(20));
  }

  lemma PhoneActionSavesAreStable(text: string)
    ensures var xs := Items(Parse(PhoneAction, text, None));
            Items(Parse(PhoneAction, Printed(ActionRow, xs), None)) == xs
  {
    PhoneActionsRows();
    SavesAreStableIff(PhoneAction, ActionRow, PhoneActionLike, PhoneActionLike, text, None);
  }

  /** A bullet that stood behind white space or behind a first bullet: it is in front once those are taken. */
  predicate StillBulleted(line: string) { BulletLed(DropSpaces(StripBullet(line))) }

  lemma {:induction false} FirstPiece(s: string)
    ensures BulletLed(DropSpaces(SplitBars(s)[0])) <==> BulletLed(DropSpaces(s))
  {
    if s != "" && IsSpace(s[0]) {
      FirstPiece(s[1..]);
      assert SplitBars(s)[0][1..] == SplitBars(s[1..])[0];
    }
  }

  lemma FirstCell(line: string)
    ensures WebCells(line) != [] && (BulletLed(WebCells(line)[0]) <==> StillBulleted(line))
  {
    var s := StripBullet(line);
    var pieces := SplitBars(s);
    EachIs(Trim, pieces);
    FirstPiece(s);
    FirstKept(pieces[0]);
  }

  lemma WebPairBullet(line: string)
    requires NoNewline(line) && WebPair(line).Some?
    ensures BulletLed(WebPair(line).value.first) <==> StillBulleted(line)
    ensures WebPairClean(WebPair(line).value) <==> !BulletLed(WebPair(line).value.first)
  {
    FirstCell(line);
    WebPairRange(line);
  }

  lemma WebActionBullet(line: string)
    requires NoNewline(line) && WebAction(line).Some?
    ensures BulletLed(WebAction(line).value.task) <==> StillBulleted(line)
    ensures WebActionClean(WebAction(line).value) <==> !BulletLed(WebAction(line).value.task)
  {
    FirstCell(line);
    WebActionRange(line);
  }

  lemma WebLineBullet(line: string)
    requires WebLine(line).Some?
    ensures BulletLed(WebLine(line).value) <==> StillBulleted(line)
  {
    FirstKept(StripBullet(line));
  }

  lemma PhoneLineBullet(line: string)
    requires PhoneLine(line).Some?
    ensures BulletLed(PhoneLine(line).value) <==> StillBulleted(line)
  {
    FirstNormalKept(StripBullet(line));
  }

  /** Every parsed row satisfies `p`, given that single rows do unless they are led by a bullet, as they are when typed with two. */
  lemma KeptUnlessTwice<T(!new)>(f: string -> Option<T>, like: T -> bool, clean: T -> bool, led: T -> bool,
                                 text: string, limit: Option<nat>)
    requires forall l :: NoNewline(l) && f(l).Some? ==> like(f(l).value)
    requires forall l :: NoNewline(l) && f(l).Some? ==> (led(f(l).value) <==> StillBulleted(l))
    requires forall l :: NoNewline(l) && f(l).Some? ==> (clean(f(l).value) <==> !led(f(l).value))
    ensures var rows := Parse(f, text, limit);
            (forall i :: 0 <= i < |rows| ==> clean(Items(rows)[i]))
            <==> forall i :: 0 <= i < |rows| ==> !StillBulleted(LineOf(text, rows[i]))
  {
    var rows := Parse(f, text, limit);
    ParsedLines(f, text, limit);
    SplitRunsNoNewline(text);
    forall i | 0 <= i < |rows| ensures clean(Items(rows)[i]) <==> !StillBulleted(LineOf(text, rows[i])) {
      assert NoNewline(LineOf(text, rows[i]));
    }
  }

  /**
   On the web the same holds of decisions and speaker views if and only if no row was typed with a second bullet behind
   the first.
   */
  lemma WebPairSavesAreStableIff(text: string)
    ensures var rows := Parse(WebPair, text, Some(20));
            Items(Parse(WebPair, Printed(PairRow, Items(rows)), Some(20))) == Items(rows)
            <==> forall i :: 0 <= i < |rows| ==> !StillBulleted(LineOf(text, rows[i]))
  {
    WebPairsRows();
    SavesAreStableIff(WebPair, PairRow, WebPairLike, WebPairClean, text, Some(20));
    forall l | NoNewline(l) && WebPair(l).Some?
      ensures BulletLed(WebPair(l).value.first) <==> StillBulleted(l)
      ensures WebPairClean(WebPair(l).value) <==> !BulletLed(WebPair(l).value.first)
    {
      WebPairBullet(l);
    }
    KeptUnlessTwice(WebPair, WebPairLike, WebPairClean, (x: Pair) => BulletLed(x.first), text, Some(20));
  }

  lemma WebActionSavesAreStableIff(text: string)
    ensures var rows := Parse(WebAction, text, Some(30));
            Items(Parse(WebAction, Printed(ActionRow, Items(rows)), Some(30))) == Items(rows)
            <==> forall i :: 0 <= i < |rows| ==> !StillBulleted(LineOf(text, rows[i]))
  {
    WebActionsRows();
    SavesAreStableIff(WebAction, ActionRow, WebActionLike, WebActionClean, text, Some(30));
    forall l | NoNewline(l) && WebAction(l).Some?
      ensures BulletLed(WebAction(l).value.task) <==> StillBulleted(l)
      ensures WebActionClean(WebAction(l).value) <==> !BulletLed(WebAction(l).value.task)
    {
      WebActionBullet(l);
    }
    KeptUnlessTwice(WebAction, WebActionLike, WebActionClean, (x: Action) => BulletLed(x.task), text, Some(30));
  }

  lemma WebLineSavesAreStableIff(text: string)
    ensures var rows := Parse(WebLine, text, Some(12));
            Items(Parse(WebLine, Printed(LineRow, Items(rows)), Some(12))) == Items(rows)
            <==> forall i :: 0 <= i < |rows| ==> !StillBulleted(LineOf(text, rows[i]))
  {
    WebLinesRows();
    SavesAreStableIff(WebLine, LineRow, WebLineLike, WebLineClean, text, Some(12));
    forall l | NoNewline(l) && WebLine(l).Some?
      ensures BulletLed(WebLine(l).value) <==> StillBulleted(l)
    {
      WebLineBullet(l);
    }
    KeptUnlessTwice(WebLine, WebLineLike, WebLineClean, BulletLed, text, Some(12));
  }

  /** Plain lines are the one draft that loses a second bullet on the phone, too. */
  lemma PhoneLineSavesAreStableIff(text: string)
    ensures var rows := Parse(PhoneLine, text, Some(12));
            Items(Parse(PhoneLine, Printed(LineRow, Items(rows)), Some(12))) == Items(rows)
            <==> forall i :: 0 <= i < |rows| ==> !StillBulleted(LineOf(text, rows[i]))
  {
    PhoneLinesRows();
    SavesAreStableIff(PhoneLine, LineRow, PhoneLineLike, PhoneLineClean, text, Some(12));
    forall l | NoNewline(l) && PhoneLine(l).Some?
      ensures BulletLed(PhoneLine(l).value) <==> StillBulleted(l)
    {
      PhoneLineBullet(l);
    }
    KeptUnlessTwice(PhoneLine, PhoneLineLike, PhoneLineClean, BulletLed, text, Some(12));
  }

  lemma OneRowParses<T>(f: string -> Option<T>, line: string, x: T, limit: Option<nat>)
    requires NoNewline(line) && f(line) == Some(x) && Within(1, limit)
    ensures Items(Parse(f, line, limit)) == [x]
  {
    SplitRunsFirst(line, "x");
    assert [line][1..] == [];
    assert Collect(f, [line], 1) == [Numbered(1, x)] + Collect(f, [line][1..], 2) == [Numbered(1, x)];
  }

  /** A row typed with one more bullet loses its own bullet the next time the draft is saved. */
  lemma SecondBulletIsEaten(x: Pair)
    requires WebPairLike(x) && BulletLed(x.first)
    ensures Items(Parse(WebPair, "-" + PairRow(x), Some(20))) == [x]
    ensures Items(Parse(WebPair, Printed(PairRow, [x]), Some(20))) != [x]
  {
    var line := "-" + PairRow(x);
    assert line[1..] == PairRow(x);
    TrimIs(x.first);
    TrimIs(x.second);
    PairColumns(x.first, x.second);
    EachFixes(Trim, [x.first, x.second]);
    assert WebPair(line) == Some(x);
    PlainNoNewline(x.first);
    PlainNoNewline(x.second);
    OneRowParses(WebPair, line, x, Some(20));
    WebPairsRoundTrip([x]);
    assert !WebPairClean([x][0]);
  }

  /** Rows clean for the web with plain spacing mean the same list to both editors. */
  lemma EditorsAgree(decisions: seq<Pair>, views: seq<Pair>, actions: seq<Action>)
    requires |decisions| <= 20 && |views| <= 20 && |actions| <= 30
    requires forall i :: 0 <= i < |decisions| ==> WebPairClean(decisions[i]) && PhoneDecisionLike(decisions[i])
    requires forall i :: 0 <= i < |views| ==> WebPairClean(views[i]) && PhoneViewLike(views[i])
    requires forall i :: 0 <= i < |actions| ==> WebActionClean(actions[i]) && PhoneActionLike(actions[i])
    ensures var text := Printed(PairRow, decisions);
            Items(Parse(WebPair, text, Some(20))) == Items(Parse(PhoneDecision, text, None)) == decisions
    ensures var text := Printed(PairRow, views);
            Items(Parse(WebPair, text, Some(20))) == Items(Parse(PhoneSpeakerView, text, Some(20))) == views
    ensures var text := Printed(ActionRow, actions);
            Items(Parse(WebAction, text, Some(30))) == Items(Parse(PhoneAction, text, None)) == actions
  {
    WebPairsRoundTrip(decisions);
    PhoneDecisionsRoundTrip(decisions);
    WebPairsRoundTrip(views);
    PhoneViewsRoundTrip(views);
    WebActionsRoundTrip(actions);
    PhoneActionsRoundTrip(actions);
  }

  // ---- What typed rows mean, column by column ----

  /** Columns as they are typed, with bars of either kind between them. */
  function Typed(columns: seq<string>, bar: char): string
    requires columns != []
  {
    if |columns| == 1 then columns[0] else columns[0] + [bar] + Typed(columns[1..], bar)
  }

  lemma {:induction false} TypedSplits(columns: seq<string>, bar: char)
    requires columns != [] && IsBar(bar) && forall i :: 0 <= i < |columns| ==> All(Plain, columns[i])
    ensures SplitBars(Typed(columns, bar)) == columns
    decreases |columns|
  {
    if |columns| == 1 {
      SplitBarsFirst(columns[0], bar, "");
    } else {
      TypedSplits(columns[1..], bar);
      SplitBarsFirst(columns[0], bar, Typed(columns[1..], bar));
    }
  }

  predicate Columns(columns: seq<string>, bar: char) {
    && columns != [] && (bar == '|' || bar == '｜')
    && forall i :: 0 <= i < |columns| ==> '|' !in columns[i] && '｜' !in columns[i] && '\n' !in columns[i]
  }

  lemma ColumnsSplit(columns: seq<string>, bar: char)
    requires Columns(columns, bar)
    ensures SplitBars(Typed(columns, bar)) == columns
  {
    forall i | 0 <= i < |columns| ensures All(Plain, columns[i]) {
      assert forall k :: 0 <= k < |columns[i]| ==> columns[i][k] in columns[i];
    }
    TypedSplits(columns, bar);
  }

  predicate Filled(columns: seq<string>) { forall i :: 0 <= i < |columns| ==> Normalize(columns[i]) != "" }

  lemma {:induction false} NoneEmpty(ss: seq<string>)
    requires forall i :: 0 <= i < |ss| ==> ss[i] != ""
    ensures Nonempty(ss) == ss
  {
    if ss != [] { NoneEmpty(ss[1..]); }
  }

  lemma TypedPhoneCells(columns: seq<string>, bar: char)
    requires Columns(columns, bar) && Filled(columns)
    ensures PhoneCells(Typed(columns, bar)) == Each(Normalize, columns)
  {
    ColumnsSplit(columns, bar);
    EachIs(Normalize, columns);
    NoneEmpty(Each(Normalize, columns));
  }

  /** On the phone a row of one to four filled columns is an action, with the open columns marked to be confirmed. */
  lemma PhoneActionReads(c: seq<string>, bar: char)
    requires Columns(c, bar) && Filled(c) && |c| <= 4
    ensures var x := PhoneAction(Typed(c, bar));
            && x.Some? && x.value.task == Normalize(c[0])
            && x.value.owner == (if |c| > 1 then Normalize(c[1]) else "待确认")
            && x.value.due == (if |c| > 2 then Normalize(c[2]) else "待确认")
            && (x.value.status.Confirmed? <==> |c| > 3 && exists u, w :: Normalize(c[3]) == u + ("确认" + w))
  {
    TypedPhoneCells(c, bar);
    EachIs(Normalize, c);
    if |c| > 3 { SaysConfirmedIff(Normalize(c[3])); }
  }

  lemma SaysConfirmedIff(s: string)
    ensures SaysConfirmed(s) <==> exists u, w :: s == u + ("确认" + w)
  {
    var part := "确认";
    assert part[0] == '确' && part[1] == '认';
    if i :| 0 <= i < |s| - 1 && s[i] == '确' && s[i + 1] == '认' { assert s == s[..i] + (part + s[i + 2..]); }
    if u, w :| s == u + (part + w) { assert s[|u|] == part[0] && s[|u| + 1] == part[1]; }
  }

  /** Any text with the two characters confirms, also one that says the opposite. */
  lemma NotYetConfirms(a: string, b: string, c: string)
    requires Columns([a, b, c], '｜') && Filled([a, b, c])
    ensures var x := PhoneAction(Typed([a, b, c, "待确认"], '｜')); x.Some? && x.value.status.Confirmed?
  {
    var status := "待确认";
    WordIsAField(status);
    assert Normalize(status) == status == "待" + ("确认" + "");
    var all := [a, b, c, status];
    forall i | 0 <= i < 4
      ensures '|' !in all[i] && '｜' !in all[i] && '\n' !in all[i] && Normalize(all[i]) != ""
    {
      if i < 3 { assert all[i] == [a, b, c][i]; }
    }
    PhoneActionReads(all, '｜');
  }

  lemma PhoneDecisionReads(c: seq<string>, bar: char)
    requires Columns(c, bar) && Filled(c)
    ensures PhoneDecision(Typed(c, bar)) == Some(Pair(Normalize(c[0]), if |c| > 1 then Normalize(c[1]) else ""))
    ensures PhoneSpeakerView(Typed(c, bar)) == Some(Pair(Normalize(c[0]), if |c| > 1 then Normalize(c[1]) else "不确定"))
  {
    TypedPhoneCells(c, bar);
    EachIs(Normalize, c);
  }

  /** A blank column is skipped: what follows moves up. */
  lemma BlankColumnIsSkipped(a: string, blank: string, b: string, bar: char)
    requires Columns([a, blank, b], bar) && Filled([a, b]) && Normalize(blank) == ""
    ensures PhoneCells(Typed([a, blank, b], bar)) == [Normalize(a), Normalize(b)]
    ensures PhoneAction(Typed([a, blank, b], bar)) == Some(Action(Normalize(a), Normalize(b), "待确认", Candidate))
  {
    var c := [a, blank, b];
    ColumnsSplit(c, bar);
    EachIs(Normalize, c);
    assert [a, b][0] == a && [a, b][1] == b;
    assert Each(Normalize, c) == [Normalize(a), "", Normalize(b)];
    BlankGoes(Normalize(a), Normalize(b));
  }

  lemma BlankGoes(a: string, b: string)
    requires a != "" && b != ""
    ensures Nonempty([a, "", b]) == [a, b]
  {
    var all, two, one := [a, "", b], ["", b], [b];
    assert all[1..] == two && two[1..] == one && one[1..] == [];
    assert Nonempty(one) == [b];
    assert Nonempty(two) == [b];
  }

  /** A typed row, behind a bullet and white space or not. */
  predicate Behind(line: string, row: string) {
    || (line == row && !("-" <= row) && !("*" <= row))
    || (("-" <= line || "*" <= line) && (row == "" || !IsSpace(row[0])) && DropSpaces(line[1..]) == row)
  }

  lemma BehindIs(line: string, row: string)
    requires Behind(line, row)
    ensures StripBullet(line) == row
  {
  }

  lemma TypedWebCells(line: string, c: seq<string>, bar: char)
    requires Columns(c, bar) && Behind(line, Typed(c, bar))
    ensures WebCells(line) == Each(Trim, c)
  {
    BehindIs(line, Typed(c, bar));
    ColumnsSplit(c, bar);
  }

  /** On the web blank or missing columns are unknown, and a row with neither column known is no row. */
  lemma WebPairReads(line: string, c: seq<string>, bar: char)
    requires Columns(c, bar) && Behind(line, Typed(c, bar))
    ensures var first := if Trim(c[0]) != "" then Trim(c[0]) else "不确定";
            var second := if |c| > 1 && Trim(c[1]) != "" then Trim(c[1]) else "不确定";
            WebPair(line) == if first == "不确定" && second == "不确定" then None else Some(Pair(first, second))
  {
    TypedWebCells(line, c, bar);
    EachIs(Trim, c);
  }

  lemma WebActionReads(line: string, c: seq<string>, bar: char)
    requires Columns(c, bar) && Behind(line, Typed(c, bar))
    ensures var task := Trim(c[0]);
            WebAction(line).None? <==> task == "" || task == "不确定"
    ensures WebAction(line).Some? ==>
              var x := WebAction(line).value;
              && x.task == Trim(c[0])
              && x.owner == (if |c| > 1 && Trim(c[1]) != "" then Trim(c[1]) else "不确定")
              && x.due == (if |c| > 2 && Trim(c[2]) != "" then Trim(c[2]) else "不确定")
              && (x.status.Confirmed? <==> |c| > 3 && (Trim(c[3]) == "已确认" || InAnyCase(Trim(c[3]))))
  {
    TypedWebCells(line, c, bar);
    EachIs(Trim, c);
    if |c| > 3 { ConfirmedInAnyCase(Trim(c[3])); }
  }

  /** "confirmed" with each letter small or capital. */
  predicate InAnyCase(s: string) {
    |s| == 9 && forall i :: 0 <= i < 9 ==> s[i] == "confirmed"[i] || s[i] == "CONFIRMED"[i]
  }

  lemma {:induction false} LowerIs(s: string)
    ensures |Lower(s)| == |s| && forall i :: 0 <= i < |s| ==> Lower(s)[i] == LowerChar(s[i])
  {
    if s != "" { LowerIs(s[1..]); }
  }

  lemma ConfirmedInAnyCase(s: string)
    ensures Lower(s) == "confirmed" <==> InAnyCase(s)
  {
    var small, capital := "confirmed", "CONFIRMED";
    LowerIs(s);
    assert forall i :: 0 <= i < 9 ==> 'A' <= capital[i] <= 'Z' && small[i] as int == capital[i] as int + 32;
    if Lower(s) == small {
      forall i | 0 <= i < 9 ensures s[i] == small[i] || s[i] == capital[i] { assert small[i] == LowerChar(s[i]); }
    }
  }

  /** A plain line, too, loses one bullet and the white space around it, on the phone also runs of it inside; blank lines go. */
  lemma LineReads(line: string, row: string)
    requires Behind(line, row)
    ensures WebLine(line) == if Trim(row) == "" then None else Some(Trim(row))
    ensures PhoneLine(line) == if Normalize(row) == "" then None else Some(Normalize(row))
  {
    BehindIs(line, row);
  }
}
