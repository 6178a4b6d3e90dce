/** Setting meeting metadata on a list of segments: six slots, each replaced where it first occurs or inserted. */
module MetadataSlots {
  import opened Text
  import opened MarkdownSegments

  datatype Slot = Title | Project | Tags | Participants | ProjectInfo | PeopleInfo

  /** The order in which the slots are written. */
  const ORDER := [Title, Project, Tags, Participants, ProjectInfo, PeopleInfo]

  /** Cleaned metadata; an absent title or project is empty. */
  datatype Fields = Fields(title: string, project: string, participants: seq<string>, tags: seq<string>)

  predicate IsBlock(c: Slot) { c.Tags? || c.Participants? }

  function Prefix(c: Slot): string {
    match c
    case Title => "# "
    case Project => "project:"
    case Tags => "tags:"
    case Participants => "participants:"
    case ProjectInfo => "项目："
    case PeopleInfo => "参会人："
  }

  /** Whether the slot's pattern matches at this segment. */
  predicate Fits(c: Slot, seg: Seg) {
    if IsBlock(c) then seg.Blk? && seg.people == c.Participants? else seg.Ln? && Prefix(c) <= seg.text
  }

  function Joined(parts: seq<string>, separator: string): string {
    if parts == [] then ""
    else if |parts| == 1 then parts[0]
    else parts[0] + separator + Joined(parts[1..], separator)
  }

  /** What a line slot holds after its prefix. */
  function Content(c: Slot, v: Fields): string {
    match c
    case Title => v.title
    case Project => " " + v.project
    case ProjectInfo => if v.project == "" then "未分类" else v.project
    case PeopleInfo => if v.participants == [] then "未填写" else Joined(v.participants, "、")
    case Tags => ""
    case Participants => ""
  }

  function LineOf(c: Slot, v: Fields): string { Prefix(c) + Content(c, v) }

  function ItemsOf(c: Slot, v: Fields): seq<string> { if c.Tags? then v.tags else v.participants }

  /** The slot's segment for `v`; a line keeps the terminator it had. */
  function NewSeg(c: Slot, v: Fields, end: string): Seg {
    if IsBlock(c) then Blk(c.Participants?, ItemsOf(c, v), false) else Ln(LineOf(c, v), end)
  }

  function EndOf(seg: Seg): string { if seg.Ln? then seg.end else "" }

  function IndexOf(p: Seg -> bool, x: seq<Seg>): (k: nat)
    ensures k <= |x| && (forall i :: 0 <= i < k ==> !p(x[i])) && (k < |x| ==> p(x[k]))
  {
    if x == [] || p(x[0]) then 0 else 1 + IndexOf(p, x[1..])
  }

  function Fitter(c: Slot): Seg -> bool { (seg: Seg) => Fits(c, seg) }

  /** A heading line ended by a newline, after which info lines are inserted. */
  predicate IsAnchor(seg: Seg) { seg.Ln? && "# " <= seg.text && seg.end == "\n" }

  function First(c: Slot, x: seq<Seg>): nat { IndexOf(Fitter(c), x) }

  function Anchor(x: seq<Seg>): nat { IndexOf(IsAnchor, x) }

  predicate Has(c: Slot, x: seq<Seg>) { First(c, x) < |x| }

  predicate Opens(x: seq<Seg>) { x != [] && x[0] == Ln("---", "\n") }

  /** Where a missing slot is inserted, if anywhere. */
  function Spot(c: Slot, x: seq<Seg>): (at: Option<nat>)
    ensures at.Some? ==> 1 <= at.value <= |x|
  {
    match c
    case Title => None
    case ProjectInfo => if Anchor(x) < |x| then Some(Anchor(x) + 1) else None
    case PeopleInfo => if Anchor(x) < |x| then Some(Anchor(x) + 1) else None
    case Project => if Opens(x) then Some(1) else None
    case Tags => if Opens(x) then Some(1) else None
    case Participants => if Opens(x) then Some(1) else None
  }

  function Inserted(c: Slot, v: Fields): seq<Seg> {
    if c.ProjectInfo? || c.PeopleInfo? then [Ln("", "\n"), NewSeg(c, v, "\n")] else [NewSeg(c, v, "\n")]
  }

  function InsertAt(x: seq<Seg>, at: nat, ins: seq<Seg>): seq<Seg>
    requires at <= |x|
  {
    x[..at] + ins + x[at..]
  }

  function PutSeg(c: Slot, v: Fields, x: seq<Seg>): seq<Seg> {
    var k := First(c, x);
    if k < |x| then x[k := NewSeg(c, v, EndOf(x[k]))]
    else match Spot(c, x)
      case None => x
      case Some(at) => InsertAt(x, at, Inserted(c, v))
  }

  function PutAll(v: Fields, cs: seq<Slot>, x: seq<Seg>): seq<Seg> {
    if cs == [] then x else PutAll(v, cs[1..], PutSeg(cs[0], v, x))
  }

  predicate Settled(c: Slot, x: seq<Seg>) { Has(c, x) || Spot(c, x).None? }

  // ---- Positions ----

  lemma IndexIs(p: Seg -> bool, x: seq<Seg>, k: nat)
    requires k <= |x| && (forall i :: 0 <= i < k ==> !p(x[i])) && (k < |x| ==> p(x[k]))
    ensures IndexOf(p, x) == k
  {}

  lemma UpdateKeeps(p: Seg -> bool, x: seq<Seg>, i: nat, seg: Seg)
    requires i < |x| && p(seg) == p(x[i])
    ensures IndexOf(p, x[i := seg]) == IndexOf(p, x)
  {
    IndexIs(p, x[i := seg], IndexOf(p, x));
  }

  lemma InsertedIndex(x: seq<Seg>, at: nat, ins: seq<Seg>, i: nat)
    requires at <= |x| && i < |x| + |ins|
    ensures |InsertAt(x, at, ins)| == |x| + |ins|
    ensures InsertAt(x, at, ins)[i] == if i < at then x[i] else if i < at + |ins| then ins[i - at] else x[i - |ins|]
  {}

  lemma InsertShifts(p: Seg -> bool, x: seq<Seg>, at: nat, ins: seq<Seg>)
    requires at <= |x| && forall i :: 0 <= i < |ins| ==> !p(ins[i])
    ensures IndexOf(p, InsertAt(x, at, ins)) == IndexOf(p, x) + if IndexOf(p, x) < at then 0 else |ins|
    ensures |InsertAt(x, at, ins)| == |x| + |ins|
    ensures var y := InsertAt(x, at, ins); IndexOf(p, x) < |x| ==> y[IndexOf(p, y)] == x[IndexOf(p, x)]
  {
    var y := InsertAt(x, at, ins);
    var k := IndexOf(p, x);
    var m := if k < at then k else k + |ins|;
    forall i | 0 <= i < m ensures !p(y[i]) { InsertedIndex(x, at, ins, i); }
    if k < |x| { InsertedIndex(x, at, ins, m); }
    IndexIs(p, y, m);
  }

  // ---- Slots do not get in each other's way ----

  lemma OneSlot(c: Slot, d: Slot, seg: Seg)
    requires Fits(c, seg) && Fits(d, seg)
    ensures c == d
  {
    if !IsBlock(c) { assert seg.text[0] == Prefix(c)[0] == Prefix(d)[0]; }
  }

  lemma NewFits(c: Slot, v: Fields, end: string)
    ensures Fits(c, NewSeg(c, v, end))
    ensures forall d :: d != c ==> !Fits(d, NewSeg(c, v, end))
    ensures IsAnchor(NewSeg(c, v, end)) <==> c.Title? && end == "\n"
    ensures forall d :: !Fits(d, Ln("", end))
  {
    forall d | d != c ensures !Fits(d, NewSeg(c, v, end)) {
      if Fits(d, NewSeg(c, v, end)) { OneSlot(c, d, NewSeg(c, v, end)); }
    }
    if !IsBlock(c) { assert LineOf(c, v)[0] == Prefix(c)[0]; }
  }

  lemma InsertedFits(c: Slot, v: Fields, d: Slot)
    requires d != c
    ensures forall i :: 0 <= i < |Inserted(c, v)| ==> !Fits(d, Inserted(c, v)[i])
    ensures !c.Title? ==> forall i :: 0 <= i < |Inserted(c, v)| ==> !IsAnchor(Inserted(c, v)[i])
  {
    NewFits(c, v, "\n");
  }

  lemma FirstApart(c: Slot, d: Slot, x: seq<Seg>)
    requires c != d && Has(c, x)
    ensures First(d, x) != First(c, x) && !Fits(d, x[First(c, x)])
  {
    if Fits(d, x[First(c, x)]) { OneSlot(c, d, x[First(c, x)]); }
  }

  lemma ReplaceMoves(c: Slot, v: Fields, x: seq<Seg>, d: Slot)
    requires d != c && Has(c, x)
    ensures var y := PutSeg(c, v, x);
            |y| == |x| && First(d, y) == First(d, x) && (Has(d, x) ==> y[First(d, y)] == x[First(d, x)])
  {
    var k := First(c, x);
    NewFits(c, v, EndOf(x[k]));
    FirstApart(c, d, x);
    UpdateKeeps(Fitter(d), x, k, NewSeg(c, v, EndOf(x[k])));
  }

  lemma InsertMoves(c: Slot, v: Fields, x: seq<Seg>, d: Slot)
    requires d != c && !Has(c, x) && Spot(c, x).Some?
    ensures var y := PutSeg(c, v, x); var k := First(d, x);
            |y| == |x| + |Inserted(c, v)|
            && First(d, y) == k + (if k < Spot(c, x).value then 0 else |Inserted(c, v)|)
            && (Has(d, x) ==> y[First(d, y)] == x[k])
  {
    InsertedFits(c, v, d);
    InsertShifts(Fitter(d), x, Spot(c, x).value, Inserted(c, v));
  }

  /** Where a put leaves the other slots. */
  lemma PutMoves(c: Slot, v: Fields, x: seq<Seg>, d: Slot)
    requires d != c
    ensures var y := PutSeg(c, v, x); var k := First(d, x);
            Has(d, y) == Has(d, x)
            && (Has(d, x) ==> y[First(d, y)] == x[k])
            && First(d, y) == k + if Has(c, x) || Spot(c, x).None? || k < Spot(c, x).value then 0 else |Inserted(c, v)|
  {
    if Has(c, x) {
      ReplaceMoves(c, v, x, d);
    } else if Spot(c, x).Some? {
      InsertMoves(c, v, x, d);
    }
  }

  lemma PutMovesAnchor(c: Slot, v: Fields, x: seq<Seg>)
    ensures var y := PutSeg(c, v, x);
            (Anchor(y) < |y| <==> Anchor(x) < |x|)
            && Anchor(y) == Anchor(x) + if Has(c, x) || Spot(c, x).None? || Anchor(x) < Spot(c, x).value then 0 else |Inserted(c, v)|
  {
    var k := First(c, x);
    if k < |x| {
      NewFits(c, v, EndOf(x[k]));
      if IsAnchor(x[k]) { OneSlot(c, Title, x[k]); }
      UpdateKeeps(IsAnchor, x, k, NewSeg(c, v, EndOf(x[k])));
    } else if Spot(c, x).Some? {
      InsertedFits(c, v, if c == Tags then Title else Tags);
      InsertShifts(IsAnchor, x, Spot(c, x).value, Inserted(c, v));
    }
  }

  lemma PutKeepsOpens(c: Slot, v: Fields, x: seq<Seg>)
    ensures Opens(PutSeg(c, v, x)) == Opens(x)
    ensures |PutSeg(c, v, x)| >= |x|
  {
    var k := First(c, x);
    if k == 0 && k < |x| {
      NewFits(c, v, EndOf(x[0]));
      if !IsBlock(c) {
        assert x[0].text[0] == Prefix(c)[0];
        assert LineOf(c, v)[0] == Prefix(c)[0];
      }
    }
  }

  lemma PutKeepsSpot(c: Slot, v: Fields, x: seq<Seg>, d: Slot)
    ensures Spot(d, PutSeg(c, v, x)).Some? == Spot(d, x).Some?
  {
    PutKeepsOpens(c, v, x);
    PutMovesAnchor(c, v, x);
  }

  lemma PutKeepsSettled(c: Slot, v: Fields, x: seq<Seg>, d: Slot)
    requires d != c && Settled(d, x)
    ensures Settled(d, PutSeg(c, v, x))
  {
    PutKeepsSpot(c, v, x, d);
    PutMoves(c, v, x, d);
  }

  /** Where an inserted slot ends up. */
  lemma InsertLands(c: Slot, v: Fields, x: seq<Seg>)
    requires !Has(c, x) && Spot(c, x).Some?
    ensures var y := PutSeg(c, v, x); var j := Spot(c, x).value + |Inserted(c, v)| - 1;
            j < |y| && First(c, y) == j && y[j] == NewSeg(c, v, "\n")
  {
    var at, ins := Spot(c, x).value, Inserted(c, v);
    var y := PutSeg(c, v, x);
    var j := at + |ins| - 1;
    NewFits(c, v, "\n");
    forall i | 0 <= i < j ensures !Fitter(c)(y[i]) { InsertedIndex(x, at, ins, i); }
    InsertedIndex(x, at, ins, j);
    IndexIs(Fitter(c), y, j);
  }

  lemma ReplaceLands(c: Slot, v: Fields, x: seq<Seg>)
    requires Has(c, x)
    ensures var y := PutSeg(c, v, x); var k := First(c, x);
            First(c, y) == k && k < |y| && y[k] == NewSeg(c, v, EndOf(x[k])) && y == x[k := y[k]]
            && NewSeg(c, v, EndOf(y[k])) == y[k]
  {
    var k := First(c, x);
    NewFits(c, v, EndOf(x[k]));
    UpdateKeeps(Fitter(c), x, k, NewSeg(c, v, EndOf(x[k])));
  }

  /** A slot that was there or could be inserted is there afterwards, with what was put. */
  lemma PutSettles(c: Slot, v: Fields, x: seq<Seg>)
    ensures var y := PutSeg(c, v, x);
            Settled(c, y)
            && (Has(c, x) || Spot(c, x).Some? ==> Has(c, y) && y[First(c, y)] == NewSeg(c, v, EndOf(y[First(c, y)])))
  {
    if Has(c, x) {
      ReplaceLands(c, v, x);
    } else if Spot(c, x).Some? {
      InsertLands(c, v, x);
    }
  }

  // ---- Algebra of puts ----

  lemma InsertTwice(x: seq<Seg>, at: nat, ins: seq<Seg>, seg: Seg)
    requires at <= |x| && ins != []
    ensures InsertAt(x, at, ins)[at + |ins| - 1 := seg] == InsertAt(x, at, ins[|ins| - 1 := seg])
  {}

  lemma NewKeepsEnd(c: Slot, a: Fields, b: Fields, end: string)
    ensures NewSeg(c, b, EndOf(NewSeg(c, a, end))) == NewSeg(c, b, end)
  {}

  lemma InsertedUpdates(c: Slot, a: Fields, b: Fields)
    ensures var ins := Inserted(c, a); ins[|ins| - 1 := NewSeg(c, b, "\n")] == Inserted(c, b)
  {}

  lemma OverwriteInserted(c: Slot, a: Fields, b: Fields, x: seq<Seg>)
    requires !Has(c, x) && Spot(c, x).Some?
    ensures PutSeg(c, b, PutSeg(c, a, x)) == PutSeg(c, b, x)
  {
    InsertLands(c, a, x);
    NewKeepsEnd(c, a, b, "\n");
    InsertTwice(x, Spot(c, x).value, Inserted(c, a), NewSeg(c, b, "\n"));
    InsertedUpdates(c, a, b);
  }

  lemma Overwrite(c: Slot, a: Fields, b: Fields, x: seq<Seg>)
    ensures PutSeg(c, b, PutSeg(c, a, x)) == PutSeg(c, b, x)
  {
    if Has(c, x) {
      ReplaceLands(c, a, x);
      NewKeepsEnd(c, a, b, EndOf(x[First(c, x)]));
    } else if Spot(c, x).Some? {
      OverwriteInserted(c, a, b, x);
    }
  }

  lemma UpdateInsert(x: seq<Seg>, k: nat, seg: Seg, at: nat, ins: seq<Seg>)
    requires k < |x| && at <= |x|
    ensures var j := if k < at then k else k + |ins|;
            InsertAt(x, at, ins)[j := seg] == InsertAt(x[k := seg], at, ins)
            && InsertAt(x, at, ins)[j] == x[k]
  {}

  lemma ReplaceKeepsSpot(c: Slot, v: Fields, x: seq<Seg>, d: Slot)
    requires Has(c, x)
    ensures Spot(d, PutSeg(c, v, x)) == Spot(d, x)
  {
    PutKeepsOpens(c, v, x);
    PutMovesAnchor(c, v, x);
  }

  lemma UpdateTwice(x: seq<Seg>, i: nat, s: Seg, j: nat, t: Seg)
    requires i < |x| && j < |x| && i != j
    ensures x[i := s][j := t] == x[j := t][i := s]
  {}

  lemma ReplaceReplace(c: Slot, b: Fields, d: Slot, a: Fields, x: seq<Seg>)
    requires c != d && Has(c, x) && Has(d, x)
    ensures PutSeg(c, b, PutSeg(d, a, x)) == PutSeg(d, a, PutSeg(c, b, x))
  {
    ReplaceMoves(d, a, x, c);
    ReplaceMoves(c, b, x, d);
    FirstApart(c, d, x);
    UpdateTwice(x, First(c, x), NewSeg(c, b, EndOf(x[First(c, x)])), First(d, x), NewSeg(d, a, EndOf(x[First(d, x)])));
  }

  lemma ReplaceInsert(c: Slot, b: Fields, d: Slot, a: Fields, x: seq<Seg>)
    requires c != d && Has(c, x) && !Has(d, x) && Spot(d, x).Some?
    ensures PutSeg(c, b, PutSeg(d, a, x)) == PutSeg(d, a, PutSeg(c, b, x))
  {
    ReplaceMoves(c, b, x, d);
    ReplaceKeepsSpot(c, b, x, d);
    InsertMoves(d, a, x, c);
    UpdateInsert(x, First(c, x), NewSeg(c, b, EndOf(x[First(c, x)])), Spot(d, x).value, Inserted(d, a));
  }

  /** Different slots can be put in either order once one of them has its place. */
  lemma Commute(c: Slot, b: Fields, d: Slot, a: Fields, x: seq<Seg>)
    requires c != d && Settled(c, x)
    ensures PutSeg(c, b, PutSeg(d, a, x)) == PutSeg(d, a, PutSeg(c, b, x))
  {
    if Has(c, x) {
      if Has(d, x) {
        ReplaceReplace(c, b, d, a, x);
      } else if Spot(d, x).Some? {
        ReplaceInsert(c, b, d, a, x);
      } else {
        ReplaceMoves(c, b, x, d);
        ReplaceKeepsSpot(c, b, x, d);
      }
    } else {
      PutMoves(d, a, x, c);
      PutKeepsSpot(d, a, x, c);
    }
  }

  lemma {:induction false} Push(c: Slot, b: Fields, a: Fields, cs: seq<Slot>, x: seq<Seg>)
    requires c !in cs && Settled(c, x)
    ensures PutSeg(c, b, PutAll(a, cs, x)) == PutAll(a, cs, PutSeg(c, b, x))
    decreases |cs|
  {
    if cs != [] {
      PutKeepsSettled(cs[0], a, x, c);
      Push(c, b, a, cs[1..], PutSeg(cs[0], a, x));
      Commute(c, b, cs[0], a, x);
    }
  }

  predicate Distinct(cs: seq<Slot>) { forall i, j :: 0 <= i < j < |cs| ==> cs[i] != cs[j] }

  /** Putting all of `a` and then all of `b` is putting all of `b`. */
  lemma {:induction false} AbsorbAll(a: Fields, b: Fields, cs: seq<Slot>, x: seq<Seg>)
    requires Distinct(cs)
    ensures PutAll(b, cs, PutAll(a, cs, x)) == PutAll(b, cs, x)
    decreases |cs|
  {
    if cs != [] {
      var c, rest := cs[0], cs[1..];
      var y := PutSeg(c, a, x);
      PutSettles(c, a, x);
      Push(c, b, a, rest, y);
      Overwrite(c, a, b, x);
      AbsorbAll(a, b, rest, PutSeg(c, b, x));
    }
  }

  /** Putting a slot that has its place once more beforehand makes no difference. */
  lemma {:induction false} PutAhead(c: Slot, b: Fields, cs: seq<Slot>, x: seq<Seg>)
    requires c in cs && Settled(c, x)
    ensures PutAll(b, cs, PutSeg(c, b, x)) == PutAll(b, cs, x)
    decreases |cs|
  {
    if cs[0] == c {
      Overwrite(c, b, b, x);
    } else {
      Commute(c, b, cs[0], b, x);
      PutKeepsSettled(cs[0], b, x, c);
      PutAhead(c, b, cs[1..], PutSeg(cs[0], b, x));
    }
  }

  // ---- What the puts leave alone, and what they leave behind ----

  lemma {:induction false} PutAllKeeps(v: Fields, cs: seq<Slot>, x: seq<Seg>, d: Slot)
    requires d !in cs
    ensures var y := PutAll(v, cs, x); Has(d, y) == Has(d, x) && (Has(d, x) ==> y[First(d, y)] == x[First(d, x)])
    decreases |cs|
  {
    if cs != [] {
      PutMoves(cs[0], v, x, d);
      PutAllKeeps(v, cs[1..], PutSeg(cs[0], v, x), d);
    }
  }

  /** Every slot that was there or could be inserted ends up holding exactly what was put. */
  lemma {:induction false} PutAllReads(v: Fields, cs: seq<Slot>, x: seq<Seg>, d: Slot)
    requires Distinct(cs) && d in cs && (Has(d, x) || Spot(d, x).Some?)
    ensures var y := PutAll(v, cs, x); Has(d, y) && y[First(d, y)] == NewSeg(d, v, EndOf(y[First(d, y)]))
    decreases |cs|
  {
    if cs[0] == d {
      PutSettles(d, v, x);
      PutAllKeeps(v, cs[1..], PutSeg(d, v, x), d);
    } else {
      PutMoves(cs[0], v, x, d);
      PutKeepsSpot(cs[0], v, x, d);
      PutAllReads(v, cs[1..], PutSeg(cs[0], v, x), d);
    }
  }

  /** Text that is no slot's: everything but slot segments and blank lines. */
  predicate IsBody(seg: Seg) { seg != Ln("", "\n") && forall c :: !Fits(c, seg) }

  function BodyOf(x: seq<Seg>): seq<Seg> {
    if x == [] then [] else if IsBody(x[0]) then [x[0]] + BodyOf(x[1..]) else BodyOf(x[1..])
  }

  lemma {:induction false} BodyAppend(x: seq<Seg>, y: seq<Seg>)
    ensures BodyOf(x + y) == BodyOf(x) + BodyOf(y)
  {
    if x == [] {
      assert x + y == y;
    } else {
      BodyAppend(x[1..], y);
      assert (x + y)[1..] == x[1..] + y;
      if IsBody(x[0]) {
        assert [x[0]] + (BodyOf(x[1..]) + BodyOf(y)) == ([x[0]] + BodyOf(x[1..])) + BodyOf(y);
      }
    }
  }

  lemma {:induction false} NoBody(x: seq<Seg>)
    requires forall i :: 0 <= i < |x| ==> !IsBody(x[i])
    ensures BodyOf(x) == []
  {
    if x != [] { NoBody(x[1..]); }
  }

  lemma ReplaceKeepsBody(x: seq<Seg>, k: nat, seg: Seg)
    requires k < |x| && !IsBody(x[k]) && !IsBody(seg)
    ensures BodyOf(x[k := seg]) == BodyOf(x)
  {
    BodySplits(x, k);
    BodySplits(x[k := seg], k);
    assert x[k := seg][..k] == x[..k] && x[k := seg][k + 1..] == x[k + 1..];
  }

  lemma InsertKeepsBody(x: seq<Seg>, at: nat, ins: seq<Seg>)
    requires at <= |x| && forall i :: 0 <= i < |ins| ==> !IsBody(ins[i])
    ensures BodyOf(InsertAt(x, at, ins)) == BodyOf(x)
  {
    assert x == x[..at] + x[at..];
    BodyAppend(x[..at], x[at..]);
    BodyAppend(x[..at] + ins, x[at..]);
    BodyAppend(x[..at], ins);
    NoBody(ins);
    assert BodyOf(x[..at]) + [] == BodyOf(x[..at]);
  }

  lemma PutKeepsBody(c: Slot, v: Fields, x: seq<Seg>)
    ensures BodyOf(PutSeg(c, v, x)) == BodyOf(x)
  {
    var k := First(c, x);
    if k < |x| {
      var seg := NewSeg(c, v, EndOf(x[k]));
      NewFits(c, v, EndOf(x[k]));
      assert Fits(c, x[k]) && Fits(c, seg);
      ReplaceKeepsBody(x, k, seg);
    } else if Spot(c, x).Some? {
      NewFits(c, v, "\n");
      assert Fits(c, NewSeg(c, v, "\n"));
      InsertKeepsBody(x, Spot(c, x).value, Inserted(c, v));
    }
  }

  lemma BodySplits(x: seq<Seg>, k: nat)
    requires k < |x| && !IsBody(x[k])
    ensures BodyOf(x) == BodyOf(x[..k]) + BodyOf(x[k + 1..])
  {
    var rest := [x[k]] + x[k + 1..];
    assert x == x[..k] + rest && rest[1..] == x[k + 1..];
    BodyAppend(x[..k], rest);
  }

  lemma {:induction false} PutAllKeepsBody(v: Fields, cs: seq<Slot>, x: seq<Seg>)
    ensures BodyOf(PutAll(v, cs, x)) == BodyOf(x)
    decreases |cs|
  {
    if cs != [] {
      PutKeepsBody(cs[0], v, x);
      PutAllKeepsBody(v, cs[1..], PutSeg(cs[0], v, x));
    }
  }
}
