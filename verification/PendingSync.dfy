/**
 Requests to synchronise recordings: which recordings a request selects, and how a request
 that must wait is merged with one already waiting (apps/mobile/src/pending-sync.ts:5-67).
 */
module PendingSync {
  import opened Text

  datatype Options = Options(force: bool, onlyMeetingId: Option<string>, showActiveResult: bool)

  /** What sync reads of a recording; `waiting` says that its retry time lies in the future, `modeFrozen` that its mode is fixed. */
  datatype Recording = Recording(
    meetingId: string, userId: Option<string>, localRecoveryOnly: bool, deletionPending: bool,
    active: bool, finalized: bool, waiting: bool, createdAt: int, modeFrozen: bool)

  predicate Selected(o: Options, user: string, r: Recording) {
    && r.userId == Some(user)
    && !r.localRecoveryOnly
    && (o.onlyMeetingId.None? || o.onlyMeetingId.value == r.meetingId)
    && !r.deletionPending
    && !r.active
    && (!r.finalized || (o.force && o.onlyMeetingId == Some(r.meetingId)))
    && (o.force || !r.waiting)
  }

  // ----- The targets of a request -----

  function Filtered(o: Options, user: string, recordings: seq<Recording>): seq<Recording> {
    if recordings == [] then []
    else (if Selected(o, user, recordings[0]) then [recordings[0]] else []) + Filtered(o, user, recordings[1..])
  }

  predicate OldestFirst(rs: seq<Recording>) { forall i, j :: 0 <= i < j < |rs| ==> rs[i].createdAt <= rs[j].createdAt }

  /** Placed behind those as old. */
  function Placed(rs: seq<Recording>, r: Recording): seq<Recording> {
    if rs != [] && r.createdAt < rs[|rs| - 1].createdAt then Placed(rs[..|rs| - 1], r) + [rs[|rs| - 1]] else rs + [r]
  }

  function SortedByAge(rs: seq<Recording>): seq<Recording> {
    if rs == [] then [] else Placed(SortedByAge(rs[..|rs| - 1]), rs[|rs| - 1])
  }

  /** `selectPendingSyncTargets`. */
  function Targets(o: Options, user: string, recordings: seq<Recording>): seq<Recording> {
    SortedByAge(Filtered(o, user, recordings))
  }

  lemma {:induction false} PlacedKeeps(rs: seq<Recording>, r: Recording)
    ensures multiset(Placed(rs, r)) == multiset(rs) + multiset{r}
  {
    if rs != [] && r.createdAt < rs[|rs| - 1].createdAt {
      var init, last := rs[..|rs| - 1], rs[|rs| - 1];
      PlacedKeeps(init, r);
      assert rs == init + [last];
    }
  }

  lemma {:induction false} PlacedIsOrdered(rs: seq<Recording>, r: Recording)
    requires OldestFirst(rs)
    ensures OldestFirst(Placed(rs, r))
  {
    if rs != [] && r.createdAt < rs[|rs| - 1].createdAt {
      var init, last := rs[..|rs| - 1], rs[|rs| - 1];
      var placed := Placed(init, r);
      PlacedIsOrdered(init, r);
      PlacedKeeps(init, r);
      forall i | 0 <= i < |placed| ensures placed[i].createdAt <= last.createdAt {
        assert placed[i] in multiset(placed);
        assert placed[i] == r || placed[i] in init;
      }
    }
  }

  lemma {:induction false} SortedIs(rs: seq<Recording>)
    ensures OldestFirst(SortedByAge(rs)) && multiset(SortedByAge(rs)) == multiset(rs)
  {
    if rs != [] {
      var init := rs[..|rs| - 1];
      SortedIs(init);
      PlacedKeeps(SortedByAge(init), rs[|rs| - 1]);
      PlacedIsOrdered(SortedByAge(init), rs[|rs| - 1]);
      assert rs == init + [rs[|rs| - 1]];
    }
  }

  lemma {:induction false} FilteredIs(o: Options, user: string, rs: seq<Recording>, r: Recording)
    ensures multiset(Filtered(o, user, rs))[r] == if Selected(o, user, r) then multiset(rs)[r] else 0
  {
    if rs != [] {
      FilteredIs(o, user, rs[1..], r);
      assert rs == [rs[0]] + rs[1..];
    }
  }

  /**
   The targets of a request, oldest first and each as often as it is stored: the user's own recordings that are neither
   kept for local recovery, nor being deleted, nor still recorded; of the named meeting if one is named; finalized ones
   only when that meeting is forced; waiting ones only when forced.
   */
  lemma TargetsAre(o: Options, user: string, recordings: seq<Recording>, r: Recording)
    ensures OldestFirst(Targets(o, user, recordings))
    ensures multiset(Targets(o, user, recordings))[r] <= multiset(recordings)[r]
    ensures r in Targets(o, user, recordings) ==> multiset(Targets(o, user, recordings))[r] == multiset(recordings)[r]
    ensures r in Targets(o, user, recordings) <==>
              && r in recordings && r.userId == Some(user)
              && !r.localRecoveryOnly && !r.deletionPending && !r.active
              && (o.onlyMeetingId == None || o.onlyMeetingId == Some(r.meetingId))
              && (r.finalized ==> o.force && o.onlyMeetingId.Some?)
              && (r.waiting ==> o.force)
  {
    SortedIs(Filtered(o, user, recordings));
    FilteredIs(o, user, recordings, r);
    assert r in recordings <==> multiset(recordings)[r] > 0;
    assert r in Targets(o, user, recordings) <==> multiset(Targets(o, user, recordings))[r] > 0;
  }

  function Merged(current: Option<Options>, incoming: Options): Options {
    if current.None? then incoming
    else
      var c := current.value;
      if c.onlyMeetingId.Some? && incoming.onlyMeetingId.Some? && c.onlyMeetingId != incoming.onlyMeetingId
      then Options(c.force || incoming.force, None, false)
      else
        var only := if incoming.onlyMeetingId.Some? then incoming.onlyMeetingId else c.onlyMeetingId;
        Options(c.force || incoming.force, only, only.Some? && (c.showActiveResult || incoming.showActiveResult))
  }

  /** Every recording the first request selects is selected by the second. */
  ghost predicate Covers(wide: Options, narrow: Options) {
    forall user, r :: Selected(narrow, user, r) ==> Selected(wide, user, r)
  }

  /** A merge leaves this request its scope: same meeting, or broadened to all without having been forced. */
  predicate ScopeKept(merged: Options, request: Options) {
    merged.onlyMeetingId == request.onlyMeetingId || (merged.onlyMeetingId.None? && !request.force)
  }

  function OtherThan(meetingId: string): string { meetingId + "'" }

  /** `wide` serves all that `narrow` asks for exactly when it keeps its scope. */
  lemma CoversIff(wide: Options, narrow: Options)
    requires narrow.force ==> wide.force
    ensures Covers(wide, narrow) <==> ScopeKept(wide, narrow)
  {
    if !ScopeKept(wide, narrow) {
      var meeting := if narrow.onlyMeetingId.Some? then narrow.onlyMeetingId.value else OtherThan(wide.onlyMeetingId.value);
      var lost := Recording(meeting, Some("user"), false, false, false, wide.onlyMeetingId.None?, false, 0, true);
      assert Selected(narrow, "user", lost) && !Selected(wide, "user", lost);
    }
  }

  /** Both requests name a meeting, and not the same one. */
  predicate Apart(a: Options, b: Options) {
    a.onlyMeetingId.Some? && b.onlyMeetingId.Some? && a.onlyMeetingId != b.onlyMeetingId
  }

  /**
   Which of two requests a merge still serves: not one for all recordings that meets one for a single meeting, and
   not a forced one that meets one for another meeting (its finalized recordings are dropped).
   */
  lemma MergeCoversIff(current: Options, incoming: Options)
    ensures var m := Merged(Some(current), incoming);
            && (Covers(m, current) <==>
                  !(current.onlyMeetingId.None? && incoming.onlyMeetingId.Some?) && !(Apart(current, incoming) && current.force))
            && (Covers(m, incoming) <==>
                  !(incoming.onlyMeetingId.None? && current.onlyMeetingId.Some?) && !(Apart(current, incoming) && incoming.force))
  {
    var m := Merged(Some(current), incoming);
    CoversIff(m, current);
    CoversIff(m, incoming);
  }

  /** A merged request shows its result exactly when it is for one meeting and one of the two wanted it shown. */
  lemma MergeShowsIff(current: Options, incoming: Options)
    ensures var m := Merged(Some(current), incoming);
            m.showActiveResult <==>
              && (current.onlyMeetingId.Some? || incoming.onlyMeetingId.Some?) && !Apart(current, incoming)
              && (current.showActiveResult || incoming.showActiveResult)
  {
  }

  /** What a request that may not wait longer adds: the default request of the periodic retry serves the unforced ones. */
  lemma DefaultCoversIff(o: Options)
    ensures Covers(Options(false, None, false), o) <==> !o.force
  {
    if o.force {
      var meeting := if o.onlyMeetingId.Some? then o.onlyMeetingId.value else "";
      var waiting := Recording(meeting, Some("user"), false, false, false, false, true, 0, true);
      assert Selected(o, "user", waiting) && !Selected(Options(false, None, false), "user", waiting);
    }
  }

  // ----- Any number of requests merged while they wait -----

  function MergedAll(rs: seq<Options>): Options
    requires rs != []
  {
    var n := |rs| - 1;
    Merged(if n == 0 then None else Some(MergedAll(rs[..n])), rs[n])
  }

  /** The meetings that requests name, in order. */
  function Names(rs: seq<Options>): seq<string> {
    if rs == [] then []
    else
      var n := |rs| - 1;
      Names(rs[..n]) + if rs[n].onlyMeetingId.Some? then [rs[n].onlyMeetingId.value] else []
  }

  /** How many names at the front are the same. */
  function RunLength(names: seq<string>): nat
    requires names != []
    ensures 1 <= RunLength(names) <= |names|
  {
    if |names| > 1 && names[1] == names[0] then 1 + RunLength(names[1..]) else 1
  }

  /** The names without their rounds, a round being a run of one name and the different name that ends it. */
  function Unpaired(names: seq<string>): seq<string>
    decreases |names|
  {
    if names == [] then []
    else if RunLength(names) == |names| then names
    else Unpaired(names[RunLength(names) + 1..])
  }

  /** The scope that is left: all recordings when the rounds use up the names, otherwise the name in the unfinished round. */
  function Scope(names: seq<string>): Option<string> {
    if Unpaired(names) == [] then None else Some(Unpaired(names)[0])
  }

  predicate AllSame(names: seq<string>) { forall i :: 0 <= i < |names| ==> names[i] == names[0] }

  lemma {:induction false} RunLengthIs(names: seq<string>, y: string)
    requires names != []
    ensures AllSame(names[..RunLength(names)])
    ensures RunLength(names) < |names| ==> names[RunLength(names)] != names[0]
    ensures RunLength(names + [y]) == RunLength(names) + if RunLength(names) == |names| && y == names[0] then 1 else 0
  {
    var longer := names + [y];
    assert longer[1..] == names[1..] + [y];
    if |names| > 1 && names[1] == names[0] { RunLengthIs(names[1..], y); }
    if |names| == 1 && y == names[0] { assert longer[1..] == [y]; }
  }

  lemma {:induction false} UnpairedAppend(names: seq<string>, y: string)
    ensures var u := Unpaired(names);
            AllSame(u) && Unpaired(names + [y]) == if u == [] then [y] else if u[0] == y then u + [y] else []
    decreases |names|
  {
    var longer := names + [y];
    if names == [] {
      assert longer == [y];
    } else {
      RunLengthIs(names, y);
      var r := RunLength(names);
      if r < |names| {
        UnpairedAppend(names[r + 1..], y);
        assert longer[r + 1..] == names[r + 1..] + [y];
      } else {
        assert names[..r] == names;
        assert longer[r + 1..] == [];
      }
    }
  }

  /** The scope of a whole sequence of merges: requests without a name have no part in it. */
  lemma {:induction false} MergedScope(rs: seq<Options>)
    requires rs != []
    ensures MergedAll(rs).onlyMeetingId == Scope(Names(rs))
    ensures MergedAll(rs).force <==> exists i :: 0 <= i < |rs| && rs[i].force
  {
    var n := |rs| - 1;
    var init := rs[..n];
    if n == 0 {
      assert Names(init) == [] && Unpaired([]) == [];
    } else {
      MergedScope(init);
      assert (exists i :: 0 <= i < |rs| && rs[i].force) <==> rs[n].force || exists i :: 0 <= i < n && rs[..n][i].force;
    }
    if rs[n].onlyMeetingId.Some? {
      UnpairedAppend(Names(init), rs[n].onlyMeetingId.value);
    } else {
      assert Names(rs) == Names(init);
    }
  }

  /**
   Which of any number of merged requests is still served: one of exactly the scope that is left, or an unforced one
   when all recordings are left.
   */
  lemma MergedAllCoversIff(rs: seq<Options>, k: nat)
    requires k < |rs|
    ensures Covers(MergedAll(rs), rs[k])
            <==> rs[k].onlyMeetingId == Scope(Names(rs)) || (Scope(Names(rs)).None? && !rs[k].force)
  {
    MergedScope(rs);
    CoversIff(MergedAll(rs), rs[k]);
  }

  predicate Distinct(names: seq<string>) { forall i, j :: 0 <= i < j < |names| ==> names[i] != names[j] }

  lemma {:induction false} DistinctScope(names: seq<string>)
    requires Distinct(names)
    ensures Scope(names) == if |names| % 2 == 0 then None else Some(names[|names| - 1])
    decreases |names|
  {
    if |names| >= 2 {
      assert RunLength(names) == 1;
      DistinctScope(names[2..]);
      if |names| > 2 { assert names[2..][|names| - 3] == names[|names| - 1]; }
    } else if |names| == 1 {
      assert RunLength(names) == 1;
    }
  }

  function Retries(names: seq<string>): seq<Options> {
    seq(|names|, i requires 0 <= i < |names| => Options(true, Some(names[i]), true))
  }

  lemma {:induction false} RetryNames(names: seq<string>)
    ensures Names(Retries(names)) == names
  {
    var n := |names| - 1;
    if names != [] {
      assert Retries(names)[..n] == Retries(names[..n]);
      RetryNames(names[..n]);
      assert names == names[..n] + [names[n]];
    }
  }

  /** Forced retries of different meetings: an open recording is still served for an even number of them, or as the last. */
  lemma RetryServedIff(names: seq<string>, k: nat, user: string)
    requires k < |names| && Distinct(names)
    ensures Selected(MergedAll(Retries(names)), user, Recording(names[k], Some(user), false, false, false, false, false, 0, true))
            <==> |names| % 2 == 0 || k == |names| - 1
  {
    MergedScope(Retries(names));
    RetryNames(names);
    DistinctScope(names);
  }

  /** Two waiting retries of different meetings are both served, unless finalized; a third one drops them. */
  lemma ThirdRetryDropsFirstTwo(a: string, b: string, c: string, user: string)
    requires a != b && b != c && a != c
    ensures var open := (m: string) => Recording(m, Some(user), false, false, false, false, false, 0, true);
            var two, three := MergedAll(Retries([a, b])), MergedAll(Retries([a, b, c]));
            && Selected(two, user, open(a)) && Selected(two, user, open(b))
            && Selected(three, user, open(c)) && !Selected(three, user, open(a)) && !Selected(three, user, open(b))
  {
    RetryServedIff([a, b], 0, user);
    RetryServedIff([a, b], 1, user);
    RetryServedIff([a, b, c], 0, user);
    RetryServedIff([a, b, c], 1, user);
    RetryServedIff([a, b, c], 2, user);
  }
}
