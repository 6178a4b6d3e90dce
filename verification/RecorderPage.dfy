/**
 The recorder component as an object: its methods use the store and the refs as the code does
 (src/components/meeting-recorder.tsx:126-352, 388-437), and each is proved to do to them what one step of the page does to
 the part of its state that the browser holds, for the meeting it acts on and for every other one.  What is proved of the
 page's runs thereby holds of the objects.
 */
module RecorderPage {
  import opened Text
  import Store = BrowserRecordingStore
  import R = Recovery
  import opened ChunkUploadClient
  import opened AudioManifest
  import opened UploadRefinement
  import P = UploadProtocol
  import U = UploadPage

  /** What the browser holds of a meeting: the stored chunks, the refs and counters, and the open requests. */
  datatype Held = Held(sizes: seq<nat>, marked: set<nat>, client: Client, open: set<nat>)

  function HeldIn(s: P.State): Held { Held(s.sizes, s.marked, s.client, s.requests.Keys) }

  /** What the code does to it. */
  datatype Doing =
    | Takes(size: nat)                                                // counts, stores and sends a chunk
    | Concludes(sequence: nat, ack: Option<Ack>)                      // after an awaited upload
    | Turns(sequence: nat, ack: Option<Ack>, rest: seq<nat>)          // the same in the resync loop, which sends the next
    | Enters(list: seq<nat>)                                          // resets the counters and sends the first
    | Closes(sequence: nat)                                           // a request's promise settles
    | Leaves
    | Rebuilds
    | Nothing

  function WithOutcome(h: Held, sequence: nat, ack: Option<Ack>): Held {
    if ack.Some? then h.(marked := h.marked + {sequence}, client := AckApplied(h.client, ack.value))
    else h.(client := FailureApplied(h.client, sequence))
  }

  function Sending(h: Held, list: seq<nat>): Held { if list == [] then h else h.(open := h.open + {list[0]}) }

  function Done(h: Held, d: Doing): Held {
    match d
    case Takes(size) => Held(h.sizes + [size], h.marked, Recorded(h.client), h.open + {|h.sizes| + 1})
    case Concludes(sequence, ack) => WithOutcome(h, sequence, ack)
    case Turns(sequence, ack, rest) => Sending(WithOutcome(h, sequence, ack), rest)
    case Enters(list) => Sending(h.(client := ResyncStarted(h.client, list)), list)
    case Closes(sequence) => h.(open := h.open - {sequence})
    case Leaves => h.(client := FreshClient, open := {})
    case Rebuilds =>
      h.(client := Recovered(h.marked, |P.UnmarkedList(|h.sizes|, h.marked)|, P.Bytes(h.sizes, h.marked)), open := {})
    case Nothing => h
  }

  // ----- The steps of one meeting, seen from the browser -----

  function AckOf(s: P.State, sequence: nat, outcome: P.Wait): Option<Ack>
    requires outcome.Got? ==> outcome.k <= |s.order|
  {
    if outcome.Got? then Some(P.AckFor(s, sequence, outcome.k)) else None
  }

  function DoingOf(s: P.State, step: P.Step): Doing
    requires P.Enabled(s, step)
  {
    match step
    case Record(size) => Takes(size)
    case HandlerContinues(c) => Concludes(c, AckOf(s, c, s.handlers[c]))
    case SyncContinues => Turns(s.todo[0], AckOf(s, s.todo[0], s.head), s.todo[1..])
    case Reset => Enters(s.loaded.value)
    case Settle(c, _) => Closes(c)
    case Crash => Leaves
    case Reload => Rebuilds
    case _ => Nothing
  }

  lemma SyncHolds(s: P.State)
    requires P.Enabled(s, P.SyncContinues)
    ensures HeldIn(P.Apply(s, P.SyncContinues)) == Done(HeldIn(s), DoingOf(s, P.SyncContinues))
  {
    var u := P.Conclude(s, s.todo[0], s.head);
    assert HeldIn(u) == WithOutcome(HeldIn(s), s.todo[0], AckOf(s, s.todo[0], s.head));
    SendHolds(u, s.todo[1..]);
  }

  lemma SendHolds(s: P.State, todo: seq<nat>)
    ensures HeldIn(P.SyncFrom(s, todo)) == Sending(HeldIn(s), todo)
  {
  }

  lemma RecordHolds(s: P.State, size: nat)
    requires P.Enabled(s, P.Record(size))
    ensures HeldIn(P.Apply(s, P.Record(size))) == Done(HeldIn(s), DoingOf(s, P.Record(size)))
  {
  }

  /** Every step of a meeting's upload is what the code does to the browser's part of its state. */
  lemma StepHolds(s: P.State, step: P.Step)
    requires P.Durable(s) && P.Enabled(s, step)
    ensures HeldIn(P.Apply(s, step)) == Done(HeldIn(s), DoingOf(s, step))
  {
    match step
    case Record(size) => RecordHolds(s, size);
    case SyncContinues => SyncHolds(s);
    case Reset =>
      SendHolds(s.(client := ResyncStarted(s.client, s.loaded.value), loaded := None, recovering := false), s.loaded.value);
    case _ =>
  }

  // ----- The steps of a page: one meeting changes, the others see the counters -----

  /** Meeting `k` of a page; the last index is the meeting shown. */
  function MeetingAt(p: U.Page, k: nat): P.State
    requires k <= |p.others|
  {
    if k < |p.others| then U.View(p, k) else p.now
  }

  function StepAt(p: U.Page, k: nat, step: P.Step): U.Step {
    if k < |p.others| then U.There(k, step) else U.Here(step)
  }

  /** The browser's part of every meeting. */
  function Kept(p: U.Page): (hs: seq<Held>)
    ensures |hs| == |p.others| + 1
  {
    seq(|p.others| + 1, k requires 0 <= k < |p.others| + 1 => HeldIn(MeetingAt(p, k)))
  }

  /** Meeting `k` moves to `h`, and the others see its counters. */
  function Moved(hs: seq<Held>, k: nat, h: Held): (r: seq<Held>)
    ensures |r| == |hs|
  {
    seq(|hs|, j requires 0 <= j < |hs| => if j == k then h else hs[j].(client := Shared(hs[j].client, h.client)))
  }

  lemma AppliedAt(p: U.Page, k: nat, step: P.Step)
    requires k <= |p.others| && U.Enabled(p, StepAt(p, k, step))
    ensures P.Enabled(MeetingAt(p, k), step)
    ensures var q, t := U.Apply(p, StepAt(p, k, step)), P.Apply(MeetingAt(p, k), step);
            && |q.others| == |p.others| && MeetingAt(q, k) == t
            && forall j :: 0 <= j <= |p.others| && j != k ==>
                 MeetingAt(q, j) == MeetingAt(p, j).(client := Shared(MeetingAt(p, j).client, t.client))
  {
  }

  /** The step can be taken, and is this to the browser. */
  predicate Does(p: U.Page, k: nat, step: P.Step, d: Doing) {
    && k <= |p.others| && U.Enabled(p, StepAt(p, k, step))
    && P.Enabled(MeetingAt(p, k), step) && DoingOf(MeetingAt(p, k), step) == d
  }

  /** Every step of a page moves the meeting it is of as that meeting's code does; its outcomes are of recorded chunks. */
  lemma StepAtHolds(p: U.Page, k: nat, step: P.Step, d: Doing)
    requires U.AllStored(p) && Does(p, k, step, d)
    ensures Kept(U.Apply(p, StepAt(p, k, step))) == Moved(Kept(p), k, Done(Kept(p)[k], d))
    ensures d.Concludes? || d.Turns? ==>
              1 <= d.sequence <= |Kept(p)[k].sizes| && (d.ack.Some? ==> d.ack.value.sequence == d.sequence)
  {
    NamesIssued(p, k);
    AppliedAt(p, k, step);
    AllDurable(p, k);
    StepHolds(MeetingAt(p, k), step);
  }

  lemma AllDurable(p: U.Page, k: nat)
    requires U.AllStored(p) && k <= |p.others|
    ensures P.Durable(MeetingAt(p, k))
  {
    if k < |p.others| { U.StoredIgnoresClient(p.others[k], MeetingAt(p, k).client); }
  }

  /** What the steps of the page itself leave in the browser. */
  function Cleared(hs: seq<Held>): (r: seq<Held>)
    ensures |r| == |hs|
  {
    seq(|hs|, k requires 0 <= k < |hs| => hs[k].(client := FreshClient))
  }

  lemma PageStepHolds(p: U.Page, e: U.Step)
    requires U.Enabled(p, e)
    ensures e.Begin? ==> Kept(U.Apply(p, e)) == Cleared(Kept(p))
    ensures e.NewMeeting? ==> Kept(U.Apply(p, e)) == Cleared(Kept(p)) + [HeldIn(U.Blank)]
    ensures e.Crash? ==>
              && |Kept(U.Apply(p, e))| == |Kept(p)|
              && forall k :: 0 <= k < |Kept(p)| ==> Kept(U.Apply(p, e))[k] == Done(Kept(p)[k], Leaves)
  {
    var before, after := Kept(p), Kept(U.Apply(p, e));
    if e.NewMeeting? {
      assert forall k :: 0 <= k < |before| ==> after[k] == before[k].(client := FreshClient);
    }
  }

  /** In a state that a run can reach, what waits for an outcome is a recorded chunk. */
  lemma NamesIssued(p: U.Page, k: nat)
    requires U.AllStored(p) && k <= |p.others|
    ensures var m := MeetingAt(p, k);
            && m.marked <= P.Issued(|m.sizes|) && |m.sizes| + 1 !in m.marked
            && (forall c :: c in m.handlers ==> 1 <= c <= |m.sizes|)
            && (m.todo != [] ==> 1 <= m.todo[0] <= |m.sizes|)
  {
    var m := MeetingAt(p, k);
    AllDurable(p, k);
    if m.todo != [] { assert m.todo[0] in Elements(m.todo); }
  }

  /** A meeting without chunks loads as nothing. */
  lemma NothingToLoad(db: Store.Db, m: string)
    requires Store.Sound(db) && Represents(db, m, [], {})
    ensures Store.Loaded(db, m).None?
  {
    Store.TopHolds(db, m);
    Store.TopUnique(db, m, Store.TopOf(db, m), 0);
  }

  // ----- The store, of all meetings -----

  /** `ids` name the meetings of the list. */
  ghost predicate Apart(ids: seq<string>) { forall i, j :: 0 <= i < j < |ids| ==> ids[i] != ids[j] }

  ghost predicate Chunks(db: Store.Db, id: string, h: Held) { Represents(db, id, h.sizes, h.marked) }

  ghost predicate InStore(db: Store.Db, ids: seq<string>, hs: seq<Held>) {
    |ids| == |hs| && forall k :: 0 <= k < |ids| ==> Chunks(db, ids[k], hs[k])
  }

  lemma PersistAll(db: Store.Db, ids: seq<string>, hs: seq<Held>, k: nat, user: string, chunk: Store.RecordedChunk,
                   now: Store.Timestamp)
    requires InStore(db, ids, hs) && Apart(ids) && k < |ids|
    requires chunk.sequence == |hs[k].sizes| + 1 && chunk.sequence !in hs[k].marked
    ensures InStore(Store.Persisted(db, ids[k], user, chunk, now), ids, Moved(hs, k, Done(hs[k], Takes(|chunk.blob|))))
  {
    var db', after := Store.Persisted(db, ids[k], user, chunk, now), Moved(hs, k, Done(hs[k], Takes(|chunk.blob|)));
    assert Chunks(db, ids[k], hs[k]);
    PersistRefines(db, ids[k], hs[k].sizes, hs[k].marked, user, chunk, now);
    forall j | 0 <= j < |ids| ensures Chunks(db', ids[j], after[j]) {
      assert Chunks(db, ids[j], hs[j]);
      if j != k { PersistElsewhere(db, ids[k], user, chunk, now, ids[j], hs[j].sizes, hs[j].marked); }
    }
  }

  function Noted(db: Store.Db, m: string, sequence: nat, ack: Option<Ack>,
                 at: Store.Timestamp, now: Store.Timestamp): Store.Db
  {
    if ack.Some? then Store.MarkedUploaded(db, m, sequence, at, now) else db
  }

  lemma MarkAll(db: Store.Db, ids: seq<string>, hs: seq<Held>, k: nat, sequence: nat, ack: Option<Ack>,
                at: Store.Timestamp, now: Store.Timestamp)
    requires InStore(db, ids, hs) && Apart(ids) && k < |ids| && 1 <= sequence <= |hs[k].sizes|
    ensures InStore(Noted(db, ids[k], sequence, ack, at, now), ids, Moved(hs, k, Done(hs[k], Concludes(sequence, ack))))
  {
    var db', after := Noted(db, ids[k], sequence, ack, at, now), Moved(hs, k, Done(hs[k], Concludes(sequence, ack)));
    forall j | 0 <= j < |ids| ensures Chunks(db', ids[j], after[j]) {
      assert Chunks(db, ids[j], hs[j]);
      if ack.Some? {
        if j == k {
          MarkRefines(db, ids[k], hs[k].sizes, hs[k].marked, sequence, at, now);
        } else {
          MarkElsewhere(db, ids[k], sequence, at, now, ids[j], hs[j].sizes, hs[j].marked);
        }
      }
    }
  }

  /** A transaction on sessions, and a change of the counters and the open requests. */
  lemma SessionsAll(db: Store.Db, after: Store.Db, ids: seq<string>, hs: seq<Held>, next: seq<Held>)
    requires InStore(db, ids, hs) && after.chunks == db.chunks && Store.Keyed(after) && |next| == |hs|
    requires forall k :: 0 <= k < |hs| ==> next[k].sizes == hs[k].sizes && next[k].marked == hs[k].marked
    ensures InStore(after, ids, next)
  {
    forall k | 0 <= k < |ids| ensures Chunks(after, ids[k], next[k]) {
      assert Chunks(db, ids[k], hs[k]);
      SessionsOnly(db, after, ids[k], hs[k].sizes, hs[k].marked);
    }
  }

  lemma TurnStored(db: Store.Db, ids: seq<string>, hs: seq<Held>, k: nat, sequence: nat, rest: seq<nat>, ack: Option<Ack>,
                   at: Store.Timestamp, now: Store.Timestamp)
    requires Store.Keyed(db) && InStore(db, ids, hs) && Apart(ids) && k < |ids| && 1 <= sequence <= |hs[k].sizes|
    ensures InStore(Noted(db, ids[k], sequence, ack, at, now), ids, Moved(hs, k, Done(hs[k], Turns(sequence, ack, rest))))
  {
    var after, h := Noted(db, ids[k], sequence, ack, at, now), WithOutcome(hs[k], sequence, ack);
    MarkAll(db, ids, hs, k, sequence, ack, at, now);
    if ack.Some? { Store.MarkKeepsKeyed(db, ids[k], sequence, at, now); }
    SessionsAll(after, after, ids, Moved(hs, k, h), Moved(hs, k, Sending(h, rest)));
  }

  lemma RebuiltStored(db: Store.Db, ids: seq<string>, hs: seq<Held>, k: nat, m: string, now: Store.Timestamp)
    requires Store.Keyed(db) && InStore(db, ids, hs) && k < |ids|
    ensures InStore(Store.WithStatus(db, m, Store.Stopped, now), ids, Moved(hs, k, Done(hs[k], Rebuilds)))
  {
    Store.StatusKeepsKeyed(db, m, Store.Stopped, now);
    SessionsAll(db, Store.WithStatus(db, m, Store.Stopped, now), ids, hs, Moved(hs, k, Done(hs[k], Rebuilds)));
  }

  /** The loaded rows give the lists, counts and bytes of the meeting's chunks. */
  ghost predicate Tells(rows: seq<Row>, h: Held) {
    && UnmarkedOf(rows) == P.UnmarkedList(|h.sizes|, h.marked) && MarkedBytes(rows) == P.Bytes(h.sizes, h.marked)
    && Elements(MarkedOf(rows)) == h.marked && |MarkedOf(rows)| == |h.marked|
  }

  /** Entry `k` changes places with the last, the one of the meeting shown. */
  function Swapped<T>(hs: seq<T>, k: nat): (r: seq<T>)
    requires k < |hs|
    ensures |r| == |hs|
  {
    hs[k := hs[|hs| - 1]][|hs| - 1 := hs[k]]
  }

  lemma SwapAll(db: Store.Db, ids: seq<string>, hs: seq<Held>, k: nat)
    requires InStore(db, ids, hs) && Apart(ids) && k < |ids|
    ensures InStore(db, Swapped(ids, k), Swapped(hs, k)) && Apart(Swapped(ids, k))
  {
    assert forall j :: 0 <= j < |ids| ==> Chunks(db, ids[j], hs[j]);
  }

  /** Entry `k` is shown and its counters are rebuilt. */
  function Rebuilt(hs: seq<Held>, k: nat): (r: seq<Held>)
    requires k < |hs|
    ensures |r| == |hs|
  {
    var n := |hs| - 1;
    Moved(Swapped(hs, k), n, Done(Swapped(hs, k)[n], Rebuilds))
  }

  function Place(p: U.Page, stored: Option<nat>): nat { if stored.Some? then stored.value else |p.others| }

  lemma RecoverHolds(p: U.Page, stored: Option<nat>)
    requires U.AllStored(p) && U.Enabled(p, U.Recover(stored))
    requires forall h :: h in Kept(p) ==> h.open == {}
    ensures var k := Place(p, stored);
            Kept(U.Apply(p, U.Recover(stored))) == Rebuilt(Kept(p), k) && Kept(p)[k].marked <= P.Issued(|Kept(p)[k].sizes|)
  {
    var k, n := Place(p, stored), |p.others|;
    var q, hs := U.Apply(p, U.Recover(stored)), Swapped(Kept(p), k);
    NamesIssued(p, k);
    assert Kept(p)[k].open == {};
    assert HeldIn(MeetingAt(q, n)) == Done(hs[n], Rebuilds);
  }

  lemma EmptyHolds(p: U.Page)
    requires !p.now.up && forall h :: h in Kept(p) ==> h.client == FreshClient
    ensures Kept(U.Apply(p, U.LoadEmpty)) == Kept(p) + [HeldIn(U.Blank)]
  {
    var hs, next := Kept(p), Kept(U.Apply(p, U.LoadEmpty));
    forall k | 0 <= k < |hs| ensures next[k] == hs[k] {
      assert hs[k] in hs && hs[|hs| - 1] in hs;
    }
  }

  /** A sending after a move does not change the counters. */
  lemma SentAfter(hs: seq<Held>, k: nat, h: Held, list: seq<nat>)
    requires k < |hs|
    ensures Moved(hs, k, h)[k := Sending(h, list)] == Moved(hs, k, Sending(h, list))
  {
  }

  // ----- The audio itself -----

  /** A request that was started, with the chunk it carries. */
  datatype Upload = Upload(meeting: string, chunk: Store.RecordedChunk)

  function Numbers(list: seq<Store.RecordedChunk>): (r: seq<nat>)
    ensures |r| == |list|
  {
    seq(|list|, i requires 0 <= i < |list| => list[i].sequence)
  }

  /** The same chunks with the same audio; marks and sessions may differ. */
  ghost predicate SameAudio(before: Store.Db, after: Store.Db) {
    && after.chunks.Keys == before.chunks.Keys
    && forall id :: id in before.chunks ==>
         after.chunks[id].chunk == before.chunks[id].chunk && after.chunks[id].meetingId == before.chunks[id].meetingId
  }

  /** The store holds this chunk of the meeting. */
  ghost predicate HasChunk(db: Store.Db, m: string, c: Store.RecordedChunk) {
    var id := Store.ChunkId(m, c.sequence);
    id in db.chunks && db.chunks[id].chunk == c
  }

  /** Every request carries the chunk that is stored under its key, so requests for one key carry one content. */
  ghost predicate Carries(db: Store.Db, uploads: seq<Upload>) {
    forall i :: 0 <= i < |uploads| ==> HasChunk(db, uploads[i].meeting, uploads[i].chunk)
  }

  lemma CarriesOn(before: Store.Db, after: Store.Db, uploads: seq<Upload>, more: seq<Upload>)
    requires SameAudio(before, after) && Carries(before, uploads) && Carries(before, more)
    ensures Carries(after, uploads + more)
  {
    forall i | 0 <= i < |uploads + more| ensures HasChunk(after, (uploads + more)[i].meeting, (uploads + more)[i].chunk) {
      if i < |uploads| {
        assert HasChunk(before, uploads[i].meeting, uploads[i].chunk);
      } else {
        assert HasChunk(before, more[i - |uploads|].meeting, more[i - |uploads|].chunk);
      }
    }
  }

  /** A key that was not stored is stored, and its chunk sent. */
  lemma CarriesNew(before: Store.Db, after: Store.Db, m: string, chunk: Store.RecordedChunk, uploads: seq<Upload>)
    requires Store.ChunkStored(before, after, m, chunk) && Store.ChunkId(m, chunk.sequence) !in before.chunks
    requires Carries(before, uploads)
    ensures Carries(after, uploads + [Upload(m, chunk)])
  {
    forall i | 0 <= i < |uploads| ensures HasChunk(after, uploads[i].meeting, uploads[i].chunk) {
      var id := Store.ChunkId(uploads[i].meeting, uploads[i].chunk.sequence);
      assert HasChunk(before, uploads[i].meeting, uploads[i].chunk);
      assert Store.Find(after.chunks, id) == Store.Find(before.chunks, id);
    }
  }

  lemma PersistCarries(db: Store.Db, m: string, user: string, chunk: Store.RecordedChunk, now: Store.Timestamp, uploads: seq<Upload>)
    requires Carries(db, uploads) && Store.ChunkId(m, chunk.sequence) !in db.chunks
    ensures Carries(Store.Persisted(db, m, user, chunk, now), uploads + [Upload(m, chunk)])
  {
    Store.PersistStores(db, m, user, chunk, now);
    CarriesNew(db, Store.Persisted(db, m, user, chunk, now), m, chunk, uploads);
  }

  /** What sending the first of the list starts. */
  ghost function FirstSent(m: string, list: seq<Store.RecordedChunk>, open: set<nat>): seq<Upload> {
    if list == [] || list[0].sequence in open then [] else [Upload(m, list[0])]
  }

  ghost predicate AllStored(db: Store.Db, m: string, list: seq<Store.RecordedChunk>) {
    forall c :: c in list ==> HasChunk(db, m, c)
  }

  /** What is sent of a list of stored chunks carries stored content. */
  lemma SentCarries(before: Store.Db, after: Store.Db, uploads: seq<Upload>, m: string, list: seq<Store.RecordedChunk>,
                    rest: seq<Store.RecordedChunk>, open: set<nat>)
    requires SameAudio(before, after) && forall c :: c in rest ==> c in list
    ensures Carries(before, uploads) && AllStored(before, m, list) ==> Carries(after, uploads + FirstSent(m, rest, open))
  {
    if Carries(before, uploads) && AllStored(before, m, list) {
      if rest != [] { assert rest[0] in list; }
      CarriesOn(before, after, uploads, FirstSent(m, rest, open));
    }
  }

  /** With an ack the chunk is marked, unless it was; without one nothing changes; the audio never does. */
  ghost predicate OutcomeNoted(before: Store.Db, after: Store.Db, m: string, sequence: nat, ack: Option<Ack>, at: Store.Timestamp) {
    && SameAudio(before, after)
    && if ack.Some? then Store.ChunkMarked(before, after, m, sequence, at) else after == before
  }

  lemma NotedIs(db: Store.Db, m: string, sequence: nat, ack: Option<Ack>, at: Store.Timestamp, now: Store.Timestamp)
    ensures OutcomeNoted(db, Noted(db, m, sequence, ack, at, now), m, sequence, ack, at)
  {
    Store.MarkMarks(db, m, sequence, at, now);
  }

  /** The chunks that carry no upload mark. */
  function Unmarked(stored: seq<Store.Stored>): seq<Store.RecordedChunk> {
    if stored == [] then []
    else
      var last := stored[|stored| - 1];
      Unmarked(stored[..|stored| - 1]) + if last.uploadedAt.Some? then [] else [last.chunk]
  }

  lemma {:induction false} UnmarkedRows(stored: seq<Store.Stored>)
    ensures Numbers(Unmarked(stored)) == UnmarkedOf(Rows(stored))
    ensures forall c :: c in Unmarked(stored) ==> exists i :: 0 <= i < |stored| && stored[i].chunk == c
  {
    if stored != [] {
      var n := |stored| - 1;
      UnmarkedRows(stored[..n]);
      assert Rows(stored)[..n] == Rows(stored[..n]);
      forall c | c in Unmarked(stored) ensures exists i :: 0 <= i < |stored| && stored[i].chunk == c {
        if c in Unmarked(stored[..n]) {
          var i :| 0 <= i < n && stored[..n][i].chunk == c;
          assert stored[i].chunk == c;
        } else {
          assert stored[n].chunk == c;
        }
      }
    }
  }

  /** The stored audio of a meeting, joined. */
  function AudioOf(db: Store.Db, m: string): Store.Bytes {
    match Store.Loaded(db, m)
    case None => []
    case Some(loaded) => R.Join(R.Blobs(R.ChunksOf(loaded.1)))
  }

  class RecorderPage {
    const store: Store.BrowserRecordingStore
    const user: string
    var meeting: string
    var refs: UploadRefs
    /** Every request started so far. */
    var uploads: seq<Upload>

    ghost predicate Counts(id: string, h: Held)
      reads this`refs, refs
    {
      refs.View(id) == h.client && refs.Open(id) == h.open
    }

    ghost predicate InRefs(ids: seq<string>, hs: seq<Held>)
      reads this`refs, refs
    {
      |ids| == |hs| && forall k :: 0 <= k < |ids| ==> Counts(ids[k], hs[k])
    }

    /** The last id is of the meeting shown. */
    ghost predicate Named(ids: seq<string>)
      reads this`meeting
    {
      ids != [] && ids[|ids| - 1] == meeting && Apart(ids)
    }

    /** The store and the refs hold these parts of the meetings. */
    ghost predicate Keeps(ids: seq<string>, hs: seq<Held>)
      reads this`meeting, this`refs, store, refs
    {
      store.Valid() && Named(ids) && InStore(store.View(), ids, hs) && InRefs(ids, hs)
    }

    ghost predicate Shows(p: U.Page, ids: seq<string>)
      reads this`meeting, this`refs, store, refs
    {
      Keeps(ids, Kept(p))
    }

    constructor (m: string, u: string)
      ensures Shows(U.Start, [m]) && fresh(store) && fresh(refs) && meeting == m && user == u && uploads == []
      ensures store.View() == Store.Db(map[], map[])
    {
      var db := new Store.BrowserRecordingStore();
      store, meeting, user, uploads := db, m, u, [];
      refs := new UploadRefs();
      new;
      assert Chunks(store.View(), m, HeldIn(U.Blank));
    }

    // ----- What the code does to the refs -----

    /** `uploadAudioChunkOnce`. */
    method Send(m: string, chunk: Store.RecordedChunk, ghost ids: seq<string>, ghost hs: seq<Held>, ghost k: nat)
      requires Apart(ids) && k < |ids| && m == ids[k] && InRefs(ids, hs)
      modifies refs, this`uploads
      ensures InRefs(ids, hs[k := hs[k].(open := hs[k].open + {chunk.sequence})])
      ensures uploads == old(uploads) + if chunk.sequence in hs[k].open then [] else [Upload(m, chunk)]
    {
      assert forall j :: 0 <= j < |ids| ==> Counts(ids[j], hs[j]);
      var started := refs.UploadOnce(m, chunk.sequence);
      if started { uploads := uploads + [Upload(m, chunk)]; }
    }

    method SendFirst(m: string, list: seq<Store.RecordedChunk>, ghost ids: seq<string>, ghost hs: seq<Held>, ghost k: nat)
      requires Apart(ids) && k < |ids| && m == ids[k] && InRefs(ids, hs)
      modifies refs, this`uploads
      ensures InRefs(ids, hs[k := Sending(hs[k], Numbers(list))])
      ensures uploads == old(uploads) + FirstSent(m, list, hs[k].open)
    {
      if |list| > 0 { Send(m, list[0], ids, hs, k); }
    }

    method CloseRequest(m: string, sequence: nat, ghost ids: seq<string>, ghost hs: seq<Held>, ghost k: nat)
      requires Apart(ids) && k < |ids| && m == ids[k] && InRefs(ids, hs)
      modifies refs
      ensures InRefs(ids, Moved(hs, k, Done(hs[k], Closes(sequence))))
    {
      assert forall j :: 0 <= j < |ids| ==> Counts(ids[j], hs[j]);
      refs.Settled(m, sequence);
    }

    method EnterList(m: string, list: seq<Store.RecordedChunk>, ghost ids: seq<string>, ghost hs: seq<Held>, ghost k: nat)
      requires Apart(ids) && k < |ids| && m == ids[k] && InRefs(ids, hs)
      modifies refs, this`uploads
      ensures InRefs(ids, Moved(hs, k, Done(hs[k], Enters(Numbers(list)))))
      ensures uploads == old(uploads) + FirstSent(m, list, hs[k].open)
    {
      ghost var h := hs[k].(client := ResyncStarted(hs[k].client, Numbers(list)));
      assert forall j :: 0 <= j < |ids| ==> Counts(ids[j], hs[j]);
      refs.BeginResync(m, Numbers(list));
      SendFirst(m, list, ids, Moved(hs, k, h), k);
      SentAfter(hs, k, h, Numbers(list));
    }

    /** `applyChunkUploadAck` or `applyChunkUploadFailure`. */
    method ApplyOutcome(m: string, sequence: nat, ack: Option<Ack>, ghost ids: seq<string>, ghost hs: seq<Held>, ghost k: nat)
      requires Apart(ids) && k < |ids| && m == ids[k] && InRefs(ids, hs) && (ack.Some? ==> ack.value.sequence == sequence)
      modifies refs
      ensures InRefs(ids, Moved(hs, k, Done(hs[k], Concludes(sequence, ack))))
    {
      assert forall j :: 0 <= j < |ids| ==> Counts(ids[j], hs[j]);
      if ack.Some? { refs.ApplyAck(m, ack.value); } else { refs.ApplyFailure(m, sequence); }
    }

    /** The same in the resync loop, which then sends its next chunk. */
    method ApplyTurn(m: string, sequence: nat, rest: seq<Store.RecordedChunk>, ack: Option<Ack>,
                     ghost ids: seq<string>, ghost hs: seq<Held>, ghost k: nat)
      requires Apart(ids) && k < |ids| && m == ids[k] && InRefs(ids, hs) && (ack.Some? ==> ack.value.sequence == sequence)
      modifies refs, this`uploads
      ensures InRefs(ids, Moved(hs, k, Done(hs[k], Turns(sequence, ack, Numbers(rest)))))
      ensures uploads == old(uploads) + FirstSent(m, rest, hs[k].open)
    {
      ghost var h := WithOutcome(hs[k], sequence, ack);
      ApplyOutcome(m, sequence, ack, ids, hs, k);
      SendFirst(m, rest, ids, Moved(hs, k, h), k);
      SentAfter(hs, k, h, Numbers(rest));
    }

    method CountAndSend(m: string, chunk: Store.RecordedChunk, ghost ids: seq<string>, ghost hs: seq<Held>, ghost k: nat)
      requires Apart(ids) && k < |ids| && m == ids[k] && InRefs(ids, hs)
      requires chunk.sequence == |hs[k].sizes| + 1 && chunk.sequence !in hs[k].open
      modifies refs, this`uploads
      ensures InRefs(ids, Moved(hs, k, Done(hs[k], Takes(|chunk.blob|)))) && uploads == old(uploads) + [Upload(m, chunk)]
    {
      assert forall j :: 0 <= j < |ids| ==> Counts(ids[j], hs[j]);
      refs.NoteRecorded();
      var started := refs.UploadOnce(m, chunk.sequence);
      if started { uploads := uploads + [Upload(m, chunk)]; }
    }

    method Clear(ghost ids: seq<string>, ghost hs: seq<Held>)
      requires InRefs(ids, hs)
      modifies refs
      ensures InRefs(ids, Cleared(hs)) && (forall o :: refs.View(o) == FreshClient) && refs.inFlight == old(refs.inFlight)
    {
      assert forall j :: 0 <= j < |ids| ==> Counts(ids[j], hs[j]);
      refs.Clear();
    }

    method Restore(m: string, rows: seq<Row>, ghost ids: seq<string>, ghost hs: seq<Held>, ghost k: nat)
      requires Apart(ids) && k < |ids| && m == ids[k] && InRefs(ids, hs)
      requires refs.View(m) == FreshClient && refs.Open(m) == {}
      requires Tells(rows, hs[k])
      modifies refs
      ensures InRefs(ids, Moved(hs, k, Done(hs[k], Rebuilds)))
    {
      assert forall j :: 0 <= j < |ids| ==> Counts(ids[j], hs[j]);
      refs.RestoreCounters(m, rows);
    }

    /** The chunks that `loadBrowserRecording` finds. */
    method LoadChunks(m: string, ghost h: Held) returns (stored: seq<Store.Stored>)
      requires store.Valid() && Chunks(store.View(), m, h) && h.marked <= P.Issued(|h.sizes|)
      ensures Tells(Rows(stored), h) && R.Join(R.Blobs(R.ChunksOf(stored))) == AudioOf(store.View(), m)
      ensures forall c :: c in stored ==> HasChunk(store.View(), m, c.chunk)
    {
      var loaded := store.Load(m);
      if loaded.None? { stored := []; } else { stored := loaded.value.1; }
      if h.sizes == [] {
        assert h.marked == {};
        NothingToLoad(store.View(), m);
      } else {
        LoadRefines(store.View(), m, h.sizes, h.marked);
      }
    }

    // ----- What it does to the store and the refs -----

    method TakeChunk(chunk: Store.RecordedChunk, now: Store.Timestamp,
                     ghost ids: seq<string>, ghost hs: seq<Held>, ghost k: nat)
      requires Keeps(ids, hs) && k == |ids| - 1 && chunk.sequence == |hs[k].sizes| + 1
      requires chunk.sequence !in hs[k].marked && chunk.sequence !in hs[k].open
      modifies store, refs, this`uploads
      ensures Keeps(ids, Moved(hs, k, Done(hs[k], Takes(|chunk.blob|))))
      ensures store.View() == Store.Persisted(old(store.View()), meeting, user, chunk, now)
      ensures uploads == old(uploads) + [Upload(meeting, chunk)]
    {
      CountAndSend(meeting, chunk, ids, hs, k);
      PersistAll(store.View(), ids, hs, k, user, chunk, now);
      store.Persist(meeting, user, chunk, now);
    }

    method MarkChunk(m: string, sequence: nat, ack: Option<Ack>, at: Store.Timestamp, now: Store.Timestamp)
      requires store.Valid()
      modifies store
      ensures store.Valid() && store.View() == Noted(old(store.View()), m, sequence, ack, at, now)
    {
      if ack.Some? { store.MarkUploaded(m, sequence, at, now); }
    }

    method MarkAndApply(m: string, sequence: nat, ack: Option<Ack>, at: Store.Timestamp, now: Store.Timestamp,
                        ghost ids: seq<string>, ghost hs: seq<Held>, ghost k: nat)
      requires Keeps(ids, hs) && k < |ids| && m == ids[k] && 1 <= sequence <= |hs[k].sizes|
      requires ack.Some? ==> ack.value.sequence == sequence
      modifies store, refs
      ensures Keeps(ids, Moved(hs, k, Done(hs[k], Concludes(sequence, ack))))
      ensures store.View() == Noted(old(store.View()), m, sequence, ack, at, now)
    {
      ApplyOutcome(m, sequence, ack, ids, hs, k);
      MarkAll(store.View(), ids, hs, k, sequence, ack, at, now);
      MarkChunk(m, sequence, ack, at, now);
    }

    method MarkAndTurn(m: string, sequence: nat, rest: seq<Store.RecordedChunk>, ack: Option<Ack>,
                       at: Store.Timestamp, now: Store.Timestamp, ghost ids: seq<string>, ghost hs: seq<Held>, ghost k: nat)
      requires Keeps(ids, hs) && k < |ids| && m == ids[k] && 1 <= sequence <= |hs[k].sizes|
      requires ack.Some? ==> ack.value.sequence == sequence
      modifies store, refs, this`uploads
      ensures Keeps(ids, Moved(hs, k, Done(hs[k], Turns(sequence, ack, Numbers(rest)))))
      ensures store.View() == Noted(old(store.View()), m, sequence, ack, at, now)
      ensures uploads == old(uploads) + FirstSent(m, rest, hs[k].open)
    {
      ApplyTurn(m, sequence, rest, ack, ids, hs, k);
      TurnStored(store.View(), ids, hs, k, sequence, Numbers(rest), ack, at, now);
      MarkChunk(m, sequence, ack, at, now);
    }

    method TakeTurn(m: string, todo: seq<Store.RecordedChunk>, ack: Option<Ack>, at: Store.Timestamp, now: Store.Timestamp,
                    ghost ids: seq<string>, ghost hs: seq<Held>, ghost k: nat)
      requires Keeps(ids, hs) && k < |ids| && m == ids[k] && todo != [] && 1 <= todo[0].sequence <= |hs[k].sizes|
      requires ack.Some? ==> ack.value.sequence == todo[0].sequence
      modifies store, refs, this`uploads
      ensures Keeps(ids, Moved(hs, k, Done(hs[k], Turns(todo[0].sequence, ack, Numbers(todo[1..])))))
      ensures OutcomeNoted(old(store.View()), store.View(), m, todo[0].sequence, ack, at)
      ensures uploads == old(uploads) + FirstSent(m, todo[1..], hs[k].open)
      ensures Carries(old(store.View()), old(uploads)) && AllStored(old(store.View()), m, todo) ==> Carries(store.View(), uploads)
    {
      ghost var db, was := store.View(), uploads;
      MarkAndTurn(m, todo[0].sequence, todo[1..], ack, at, now, ids, hs, k);
      NotedIs(db, m, todo[0].sequence, ack, at, now);
      SentCarries(db, store.View(), was, m, todo, todo[1..], hs[k].open);
    }

    method MarkStopped(now: Store.Timestamp)
      requires store.Valid()
      modifies store
      ensures store.Valid() && store.View() == Store.WithStatus(old(store.View()), meeting, Store.Stopped, now)
    {
      store.UpdateStatus(meeting, Store.Stopped, now);
    }

    method Close(m: string, sequence: nat, ghost ids: seq<string>, ghost hs: seq<Held>, ghost k: nat)
      requires Keeps(ids, hs) && k < |ids| && m == ids[k]
      modifies refs
      ensures Keeps(ids, Moved(hs, k, Done(hs[k], Closes(sequence))))
    {
      SessionsAll(store.View(), store.View(), ids, hs, Moved(hs, k, Done(hs[k], Closes(sequence))));
      CloseRequest(m, sequence, ids, hs, k);
    }

    method Enter(m: string, list: seq<Store.RecordedChunk>, ghost ids: seq<string>, ghost hs: seq<Held>, ghost k: nat)
      requires Keeps(ids, hs) && k < |ids| && m == ids[k]
      modifies refs, this`uploads
      ensures Keeps(ids, Moved(hs, k, Done(hs[k], Enters(Numbers(list)))))
      ensures uploads == old(uploads) + FirstSent(m, list, hs[k].open)
    {
      SessionsAll(store.View(), store.View(), ids, hs, Moved(hs, k, Done(hs[k], Enters(Numbers(list)))));
      EnterList(m, list, ids, hs, k);
    }

    /** The stored meeting is loaded, shown, marked as stopped, and counted; its chunks are joined. */
    method LoadAndRestore(id: string, now: Store.Timestamp, ghost ids: seq<string>, ghost hs: seq<Held>, ghost k: nat)
        returns (blob: Store.Bytes)
      requires Keeps(ids, hs) && k < |ids| && id == ids[k] && hs[k].marked <= P.Issued(|hs[k].sizes|)
      requires refs.View(id) == FreshClient && refs.Open(id) == {}
      modifies this`meeting, store, refs
      ensures Keeps(Swapped(ids, k), Rebuilt(hs, k)) && blob == AudioOf(old(store.View()), id)
      ensures meeting == id && store.View() == Store.WithStatus(old(store.View()), id, Store.Stopped, now)
    {
      var stored := LoadEntry(id, ids, hs, k);
      blob := R.Join(R.Blobs(R.ChunksOf(stored)));
      Switch(id, ids, hs, k);
      assert Swapped(hs, k)[|hs| - 1] == hs[k];
      StopAndRestore(Rows(stored), now, Swapped(ids, k), Swapped(hs, k), |hs| - 1);
    }

    method LoadEntry(id: string, ghost ids: seq<string>, ghost hs: seq<Held>, ghost k: nat) returns (stored: seq<Store.Stored>)
      requires Keeps(ids, hs) && k < |ids| && id == ids[k] && hs[k].marked <= P.Issued(|hs[k].sizes|)
      ensures Tells(Rows(stored), hs[k]) && R.Join(R.Blobs(R.ChunksOf(stored))) == AudioOf(store.View(), id)
      ensures forall c :: c in stored ==> HasChunk(store.View(), id, c.chunk)
    {
      assert Chunks(store.View(), ids[k], hs[k]);
      stored := LoadChunks(id, hs[k]);
    }

    method Switch(id: string, ghost ids: seq<string>, ghost hs: seq<Held>, ghost k: nat)
      requires Keeps(ids, hs) && k < |ids| && id == ids[k]
      modifies this`meeting
      ensures Keeps(Swapped(ids, k), Swapped(hs, k)) && meeting == id
    {
      SwapAll(store.View(), ids, hs, k);
      SwapRefs(ids, hs, k);
      meeting := id;
    }

    method StopAndRestore(rows: seq<Row>, now: Store.Timestamp, ghost ids: seq<string>, ghost hs: seq<Held>, ghost k: nat)
      requires Keeps(ids, hs) && k == |ids| - 1 && Tells(rows, hs[k])
      requires refs.View(meeting) == FreshClient && refs.Open(meeting) == {}
      modifies store, refs
      ensures Keeps(ids, Moved(hs, k, Done(hs[k], Rebuilds)))
      ensures store.View() == Store.WithStatus(old(store.View()), meeting, Store.Stopped, now)
    {
      Restore(meeting, rows, ids, hs, k);
      RebuiltStored(store.View(), ids, hs, k, meeting, now);
      MarkStopped(now);
    }

    // ----- The steps of the page -----

    /** `handleAudioChunk` up to its upload: count, persist and send the chunk. */
    method HandleAudioChunk(chunk: Store.RecordedChunk, now: Store.Timestamp, ghost p: U.Page, ghost ids: seq<string>)
      requires Shows(p, ids) && U.AllStored(p) && U.Enabled(p, U.Here(P.Record(|chunk.blob|)))
      requires chunk.sequence == |p.now.sizes| + 1
      modifies store, refs, this`uploads
      ensures Shows(U.Apply(p, U.Here(P.Record(|chunk.blob|))), ids)
      ensures Store.ChunkStored(old(store.View()), store.View(), meeting, chunk)
      ensures Store.SessionTouched(old(store.View()), store.View(), meeting, user, chunk, now)
      ensures uploads == old(uploads) + [Upload(meeting, chunk)]
      ensures Carries(old(store.View()), old(uploads)) ==> Carries(store.View(), uploads)
    {
      NewKey(p, ids);
      if Carries(store.View(), uploads) { PersistCarries(store.View(), meeting, user, chunk, now, uploads); }
      Store.PersistStores(store.View(), meeting, user, chunk, now);
      NamesIssued(p, |p.others|);
      StepAtHolds(p, |p.others|, P.Record(|chunk.blob|), Takes(|chunk.blob|));
      TakeChunk(chunk, now, ids, Kept(p), |p.others|);
    }

    lemma NewKey(p: U.Page, ids: seq<string>)
      requires Shows(p, ids)
      ensures Store.ChunkId(meeting, |p.now.sizes| + 1) !in store.chunks
    {
      var k, n := |p.others|, |p.now.sizes| + 1;
      assert Chunks(store.View(), ids[k], Kept(p)[k]);
      if Store.ChunkId(meeting, n) in store.chunks { Store.KeyTells(store.View(), meeting, n); }
    }

    /** A request's promise settles. */
    method RequestSettled(m: string, sequence: nat,
                          ghost p: U.Page, ghost ids: seq<string>, ghost k: nat, ghost delivered: bool)
      requires Shows(p, ids) && U.AllStored(p) && k < |ids| && m == ids[k]
      requires Does(p, k, P.Settle(sequence, delivered), Closes(sequence))
      modifies refs
      ensures Shows(U.Apply(p, StepAt(p, k, P.Settle(sequence, delivered))), ids)
    {
      StepAtHolds(p, k, P.Settle(sequence, delivered), Closes(sequence));
      Close(m, sequence, ids, Kept(p), k);
    }

    /** The rest of `handleAudioChunk`, of the meeting shown or of an earlier one. */
    method Conclude(m: string, sequence: nat, ack: Option<Ack>, at: Store.Timestamp, now: Store.Timestamp,
                    ghost p: U.Page, ghost ids: seq<string>, ghost k: nat)
      requires Shows(p, ids) && U.AllStored(p) && k < |ids| && m == ids[k]
      requires Does(p, k, P.HandlerContinues(sequence), Concludes(sequence, ack))
      modifies store, refs
      ensures Shows(U.Apply(p, StepAt(p, k, P.HandlerContinues(sequence))), ids)
      ensures OutcomeNoted(old(store.View()), store.View(), m, sequence, ack, at)
    {
      NotedIs(store.View(), m, sequence, ack, at, now);
      StepAtHolds(p, k, P.HandlerContinues(sequence), Concludes(sequence, ack));
      MarkAndApply(m, sequence, ack, at, now, ids, Kept(p), k);
    }

    /** A turn of the resync loop: the outcome of one chunk, and the next one sent. */
    method NextTurn(m: string, todo: seq<Store.RecordedChunk>, ack: Option<Ack>, at: Store.Timestamp, now: Store.Timestamp,
                    ghost p: U.Page, ghost ids: seq<string>, ghost k: nat)
      requires Shows(p, ids) && U.AllStored(p) && k < |ids| && m == ids[k] && todo != []
      requires Does(p, k, P.SyncContinues, Turns(todo[0].sequence, ack, Numbers(todo[1..])))
      modifies store, refs, this`uploads
      ensures Shows(U.Apply(p, StepAt(p, k, P.SyncContinues)), ids)
      ensures OutcomeNoted(old(store.View()), store.View(), m, todo[0].sequence, ack, at)
      ensures uploads == old(uploads) + FirstSent(m, todo[1..], Kept(p)[k].open)
      ensures Carries(old(store.View()), old(uploads)) && AllStored(old(store.View()), m, todo) ==> Carries(store.View(), uploads)
    {
      StepAtHolds(p, k, P.SyncContinues, Turns(todo[0].sequence, ack, Numbers(todo[1..])));
      TakeTurn(m, todo, ack, at, now, ids, Kept(p), k);
    }

    /** The load of `syncStoredBrowserChunks` reads the unmarked chunks, as the protocol's load does. */
    method LoadUnmarked(m: string, ghost p: U.Page, ghost ids: seq<string>, ghost k: nat)
        returns (unmarked: seq<Store.RecordedChunk>)
      requires Shows(p, ids) && U.AllStored(p) && k < |ids| && m == ids[k]
      ensures Numbers(unmarked) == P.UnmarkedList(|MeetingAt(p, k).sizes|, MeetingAt(p, k).marked)
      ensures AllStored(store.View(), m, unmarked)
    {
      NamesIssued(p, k);
      var stored := LoadEntry(m, ids, Kept(p), k);
      UnmarkedRows(stored);
      return Unmarked(stored);
    }

    /** The reset after that load, and the first upload of the loop. */
    method ResetCounters(m: string, list: seq<Store.RecordedChunk>, ghost p: U.Page, ghost ids: seq<string>, ghost k: nat)
      requires Shows(p, ids) && U.AllStored(p) && k < |ids| && m == ids[k]
      requires Does(p, k, P.Reset, Enters(Numbers(list)))
      modifies refs, this`uploads
      ensures Shows(U.Apply(p, StepAt(p, k, P.Reset)), ids)
      ensures uploads == old(uploads) + FirstSent(m, list, Kept(p)[k].open)
      ensures Carries(store.View(), old(uploads)) && AllStored(store.View(), m, list) ==> Carries(store.View(), uploads)
    {
      SentCarries(store.View(), store.View(), uploads, m, list, list, Kept(p)[k].open);
      StepAtHolds(p, k, P.Reset, Enters(Numbers(list)));
      Enter(m, list, ids, Kept(p), k);
    }

    /** `startRecording` up to the recorder's start. */
    method StartRecording(title: Option<string>, now: Store.Timestamp, ghost p: U.Page, ghost ids: seq<string>)
      requires Shows(p, ids) && U.Enabled(p, U.Begin)
      modifies store, refs
      ensures Shows(U.Apply(p, U.Begin), ids)
      ensures store.chunks == old(store.chunks) && meeting in store.sessions && store.sessions[meeting].status == Store.Recording
      ensures meeting !in old(store.sessions) ==> store.sessions[meeting].userId == user && store.sessions[meeting].title == title
    {
      ghost var hs := Kept(p);
      PageStepHolds(p, U.Begin);
      Clear(ids, hs);
      ghost var db := store.View();
      store.Begin(meeting, user, title, now);
      SessionsAll(db, store.View(), ids, hs, Cleared(hs));
    }

    /** `stopRecording`. */
    method StopRecording(now: Store.Timestamp, ghost p: U.Page, ghost ids: seq<string>)
      requires Shows(p, ids) && U.AllStored(p) && U.Enabled(p, U.Here(P.Stop))
      modifies store
      ensures Shows(U.Apply(p, U.Here(P.Stop)), ids)
      ensures store.chunks == old(store.chunks)
      ensures meeting in store.sessions ==> store.sessions[meeting].status == Store.Stopped
    {
      ghost var db := store.View();
      Silent(p, ids, |p.others|, P.Stop);
      MarkStopped(now);
      SessionsAll(db, store.View(), ids, Kept(p), Kept(p));
    }

    /** A step that the browser does not see. */
    lemma Silent(p: U.Page, ids: seq<string>, k: nat, step: P.Step)
      requires InRefs(ids, Kept(p)) && U.AllStored(p) && Does(p, k, step, Nothing)
      ensures Kept(U.Apply(p, StepAt(p, k, step))) == Kept(p)
    {
      var hs := Kept(p);
      StepAtHolds(p, k, step, Nothing);
      assert Counts(ids[k], hs[k]);
      forall j | 0 <= j < |hs| ensures Moved(hs, k, hs[k])[j] == hs[j] { assert Counts(ids[j], hs[j]); }
    }

    /** The reset button: the next meeting has an id that is not in use. */
    method NewMeeting(id: string, ghost p: U.Page, ghost ids: seq<string>)
      requires Shows(p, ids) && U.Enabled(p, U.NewMeeting)
      requires id !in ids && Represents(store.View(), id, [], {}) && refs.Open(id) == {}
      modifies this`meeting, refs
      ensures Shows(U.Apply(p, U.NewMeeting), ids + [id])
    {
      ghost var hs := Kept(p);
      PageStepHolds(p, U.NewMeeting);
      SessionsAll(store.View(), store.View(), ids, hs, Cleared(hs));
      Clear(ids, hs);
      Joins(ids, Cleared(hs), id);
      meeting := id;
    }

    lemma Joins(ids: seq<string>, hs: seq<Held>, id: string)
      requires InStore(store.View(), ids, hs) && InRefs(ids, hs) && Apart(ids)
      requires id !in ids && Represents(store.View(), id, [], {}) && Counts(id, HeldIn(U.Blank))
      ensures InStore(store.View(), ids + [id], hs + [HeldIn(U.Blank)]) && InRefs(ids + [id], hs + [HeldIn(U.Blank)])
      ensures Apart(ids + [id])
    {
      assert forall j :: 0 <= j < |ids| ==> Counts(ids[j], hs[j]) && Chunks(store.View(), ids[j], hs[j]);
      assert Chunks(store.View(), id, HeldIn(U.Blank));
    }

    /** A page that loads has fresh refs, and nothing of the page before goes on. */
    method LoadPage(ghost p: U.Page, ghost ids: seq<string>)
      requires Shows(p, ids) && U.Enabled(p, U.Crash)
      modifies this`refs
      ensures fresh(refs) && (forall m :: refs.View(m) == FreshClient && refs.Open(m) == {})
      ensures Shows(U.Apply(p, U.Crash), ids)
    {
      PageStepHolds(p, U.Crash);
      SessionsAll(store.View(), store.View(), ids, Kept(p), Kept(U.Apply(p, U.Crash)));
      refs := new UploadRefs();
    }

    /**
     The recovery effect of a new page, for the meeting last shown or another, up to the load of its resync.  The audio it
     shows is the stored chunks joined.
     */
    method Recover(id: string, now: Store.Timestamp, ghost p: U.Page, ghost ids: seq<string>, ghost stored: Option<nat>)
        returns (blob: Store.Bytes)
      requires Shows(p, ids) && U.AllStored(p) && U.Enabled(p, U.Recover(stored)) && id == ids[Place(p, stored)]
      requires forall m :: refs.View(m) == FreshClient && refs.Open(m) == {}
      modifies this`meeting, store, refs
      ensures Shows(U.Apply(p, U.Recover(stored)), Swapped(ids, Place(p, stored)))
      ensures meeting == id && blob == AudioOf(old(store.View()), id) && store.chunks == old(store.chunks)
      ensures id in store.sessions ==> store.sessions[id].status == Store.Stopped
    {
      NothingOpen(p, ids);
      RecoverHolds(p, stored);
      blob := LoadAndRestore(id, now, ids, Kept(p), Place(p, stored));
    }

    /** A new page that finds nothing to recover shows a meeting with an id that is not in use. */
    method ShowEmpty(id: string, ghost p: U.Page, ghost ids: seq<string>)
      requires Shows(p, ids) && U.Enabled(p, U.LoadEmpty)
      requires forall m :: refs.View(m) == FreshClient && refs.Open(m) == {}
      requires id !in ids && Represents(store.View(), id, [], {})
      modifies this`meeting
      ensures Shows(U.Apply(p, U.LoadEmpty), ids + [id])
    {
      NothingOpen(p, ids);
      EmptyHolds(p);
      Joins(ids, Kept(p), id);
      meeting := id;
    }

    lemma NothingOpen(p: U.Page, ids: seq<string>)
      requires InRefs(ids, Kept(p)) && forall m :: refs.View(m) == FreshClient && refs.Open(m) == {}
      ensures forall h :: h in Kept(p) ==> h.open == {} && h.client == FreshClient
    {
      forall h | h in Kept(p) ensures h.open == {} && h.client == FreshClient {
        var k :| 0 <= k < |ids| && Kept(p)[k] == h;
        assert Counts(ids[k], Kept(p)[k]);
      }
    }

    lemma SwapRefs(ids: seq<string>, hs: seq<Held>, k: nat)
      requires InRefs(ids, hs) && k < |ids|
      ensures InRefs(Swapped(ids, k), Swapped(hs, k))
    {
      assert forall j :: 0 <= j < |ids| ==> Counts(ids[j], hs[j]);
    }

    /**
     The finalize gate as the counters show it.  When the objects hold what a quiet run leads to, an open gate means
     that the server has exactly the recorded chunks and that `uploaded`, sent as the last sequence, is their number.
     */
    method CanFinalize(ghost steps: seq<U.Step>, ghost ids: seq<string>) returns (open: bool)
      requires U.ValidRun(U.Start, steps) && U.QuietRun(U.Start, steps)
      requires U.Run(U.Start, steps).now.up && Shows(U.Run(U.Start, steps), ids)
      ensures open == GateOpen(refs.View(meeting))
      ensures var s := U.Run(U.Start, steps).now;
              open ==>
                && Elements(s.order) == P.Issued(|s.sizes|) && refs.uploaded == |s.sizes|
                && (SealAccepted(P.Manifest(s.order, s.sizes), refs.uploaded, refs.savedBytes)
                    <==> s.lastTotal == refs.uploaded)
    {
      ghost var p := U.Run(U.Start, steps);
      open := !(refs.pending > 0 || refs.failed > 0 || refs.uploaded <= 0 || refs.savedBytes <= 0);
      assert Counts(ids[|p.others|], Kept(p)[|p.others|]);
      if open { U.GateTheorem(steps); }
    }
  }
}
