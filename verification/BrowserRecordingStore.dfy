/**
 The IndexedDB store of browser recordings (src/lib/browser-recording-store.ts).

 `BrowserRecordingStore` holds the two object stores and changes them in place, one
 transaction per method.  `Db` is their value.  `Column` lists what is stored for the
 sequences 1..n of one meeting; the session counters are summaries of that column.
 */
module BrowserRecordingStore {
  import opened Text

  type Bytes = seq<bv8>
  type Sequence = n: nat | 1 <= n witness 1
  /** ISO timestamps; never empty, so a stored upload time always counts as a mark. */
  type Timestamp = s: string | s != "" witness "0"

  datatype RecordedChunk = RecordedChunk(blob: Bytes, sequence: Sequence, mimeType: string, recordedAt: int, durationMs: int)

  datatype Status = Recording | Stopped | Finalized

  datatype Session = Session(
    meetingId: string, userId: string, title: Option<string>, createdAt: Timestamp, updatedAt: Timestamp,
    status: Status, mimeType: string, totalBytes: int, totalChunks: int, uploadedChunks: int)

  datatype Stored = Stored(id: string, meetingId: string, chunk: RecordedChunk, uploadedAt: Option<Timestamp>)

  datatype Db = Db(sessions: map<string, Session>, chunks: map<string, Stored>)

  function ChunkId(meetingId: string, sequence: nat): string {
    meetingId + ":" + PadZeros(Decimal(sequence), 8)
  }

  /** A text followed by a colon and digits has only one reading. */
  lemma ColonSplits(a: string, p: string, b: string, q: string)
    requires a + ":" + p == b + ":" + q
    requires ':' !in p && ':' !in q
    ensures a == b && p == q
  {
    var id := a + ":" + p;
    assert id[|a|] == ':' && id[|b|] == ':';
    assert |a| == |b|;
    assert a == id[..|a|] && b == id[..|b|] && p == id[|a| + 1..] && q == id[|b| + 1..];
  }

  /** Different meetings or different sequences never share a key. */
  lemma ChunkIdInjective(m1: string, s1: nat, m2: string, s2: nat)
    requires ChunkId(m1, s1) == ChunkId(m2, s2)
    ensures m1 == m2 && s1 == s2
  {
    var p1, p2 := PadZeros(Decimal(s1), 8), PadZeros(Decimal(s2), 8);
    PaddedDenotes(s1, 8);
    PaddedDenotes(s2, 8);
    ColonSplits(m1, p1, m2, p2);
  }

  // ----- What a transaction leaves behind -----

  function Find<T>(m: map<string, T>, key: string): Option<T> { if key in m then Some(m[key]) else None }

  function Truthy(s: Option<string>): Option<string> { if s == Some("") then None else s }

  /** The session that `beginBrowserRecordingSession` puts, from the one it found. */
  function BegunSession(found: Option<Session>, m: string, user: string, title: Option<string>, now: Timestamp): Session {
    var session := match found
      case Some(s) => s
      case None => Session(m, user, title, now, now, Recording, "", 0, 0, 0);
    session.(status := Recording, updatedAt := now, title := if Truthy(title).Some? then title else session.title)
  }

  function Began(db: Db, m: string, user: string, title: Option<string>, now: Timestamp): Db {
    db.(sessions := db.sessions[m := BegunSession(Find(db.sessions, m), m, user, title, now)])
  }

  function Persisted(db: Db, m: string, user: string, chunk: RecordedChunk, now: Timestamp): Db {
    var id := ChunkId(m, chunk.sequence);
    var session := Find(db.sessions, m);
    var existing := Find(db.chunks, id);
    var mime := if chunk.mimeType != "" then chunk.mimeType
                else if session.Some? && session.value.mimeType != "" then session.value.mimeType else "audio/webm";
    Db(db.sessions[m := Session(
         m, user,
         if session.Some? then session.value.title else None,
         if session.Some? then session.value.createdAt else now,
         now,
         if session.Some? && session.value.status.Stopped? then Stopped else Recording,
         mime,
         Max(0, (if session.Some? then session.value.totalBytes else 0)
                - (if existing.Some? then |existing.value.chunk.blob| else 0) + |chunk.blob|),
         Max(if session.Some? then session.value.totalChunks else 0, chunk.sequence),
         if session.Some? then session.value.uploadedChunks else 0)],
       db.chunks[id := Stored(id, m, chunk, if existing.Some? then existing.value.uploadedAt else None)])
  }

  function MarkedUploaded(db: Db, m: string, sequence: nat, uploadedAt: Timestamp, now: Timestamp): Db {
    var id := ChunkId(m, sequence);
    if id !in db.chunks || db.chunks[id].uploadedAt.Some? then db
    else Db(
      if m in db.sessions
      then var s := db.sessions[m];
           db.sessions[m := s.(updatedAt := now, uploadedChunks := Min(s.totalChunks, s.uploadedChunks + 1))]
      else db.sessions,
      db.chunks[id := db.chunks[id].(uploadedAt := Some(uploadedAt))])
  }

  function WithStatus(db: Db, m: string, status: Status, now: Timestamp): Db {
    if m in db.sessions then db.(sessions := db.sessions[m := db.sessions[m].(status := status, updatedAt := now)]) else db
  }

  /** Removes the sessions of `meetings` and every chunk that belongs to one of them. */
  function Without(db: Db, meetings: set<string>): Db {
    Db(map m | m in db.sessions && m !in meetings :: db.sessions[m],
       map id | id in db.chunks && db.chunks[id].meetingId !in meetings :: db.chunks[id])
  }

  function MeetingsOf(db: Db, user: string): set<string> {
    set m | m in db.sessions && db.sessions[m].userId == user
  }

  // ----- Columns and the store invariant -----

  /** What is stored for sequences 1..n of a meeting. */
  function Column(db: Db, m: string, n: nat): seq<Option<Stored>> {
    seq(n, i requires 0 <= i < n => Find(db.chunks, ChunkId(m, i + 1)))
  }

  function SumSizes(column: seq<Option<Stored>>): nat {
    if column == [] then 0
    else SumSizes(column[..|column| - 1]) + SizeOf(column[|column| - 1])
  }

  function SizeOf(slot: Option<Stored>): nat { if slot.Some? then |slot.value.chunk.blob| else 0 }

  function CountMarked(column: seq<Option<Stored>>): nat {
    if column == [] then 0
    else CountMarked(column[..|column| - 1]) + MarkOf(column[|column| - 1])
  }

  function MarkOf(slot: Option<Stored>): nat { if slot.Some? && slot.value.uploadedAt.Some? then 1 else 0 }

  /** The stored chunks of a column, in order. */
  function Present(column: seq<Option<Stored>>): seq<Stored> {
    if column == [] then []
    else Present(column[..|column| - 1]) + (if column[|column| - 1].Some? then [column[|column| - 1].value] else [])
  }

  lemma {:induction false} PresentFull(column: seq<Option<Stored>>)
    requires forall i :: 0 <= i < |column| ==> column[i].Some?
    ensures |Present(column)| == |column|
    ensures forall i :: 0 <= i < |column| ==> Present(column)[i] == column[i].value
  {
    if column != [] {
      var init := column[..|column| - 1];
      PresentFull(init);
      assert Present(column) == Present(init) + [column[|init|].value];
    }
  }

  predicate Keyed(db: Db) {
    && (forall m :: m in db.sessions ==> db.sessions[m].meetingId == m)
    && (forall id :: id in db.chunks ==>
          var c := db.chunks[id];
          c.id == id == ChunkId(c.meetingId, c.chunk.sequence) && c.meetingId in db.sessions)
  }

  /** `top` is the highest stored sequence of the meeting, or 0. */
  predicate TopIs(db: Db, m: string, top: int) {
    && top >= 0
    && (top > 0 ==> ChunkId(m, top) in db.chunks && db.chunks[ChunkId(m, top)].meetingId == m)
    && (forall id :: id in db.chunks && db.chunks[id].meetingId == m ==> db.chunks[id].chunk.sequence <= top)
  }

  /** The session's counters summarise its chunks; `totalChunks` is the highest stored sequence. */
  predicate CountersAgree(db: Db, m: string)
    requires m in db.sessions
  {
    var s := db.sessions[m];
    && TopIs(db, m, s.totalChunks)
    && s.totalBytes == SumSizes(Column(db, m, s.totalChunks))
    && s.uploadedChunks == CountMarked(Column(db, m, s.totalChunks))
  }

  predicate Sound(db: Db) {
    Keyed(db) && forall m :: m in db.sessions ==> CountersAgree(db, m)
  }

  // ----- Column arithmetic -----

  lemma {:induction false} ColumnUpdate(column: seq<Option<Stored>>, i: nat, slot: Option<Stored>)
    requires i < |column|
    ensures SumSizes(column[i := slot]) == SumSizes(column) - SizeOf(column[i]) + SizeOf(slot)
    ensures CountMarked(column[i := slot]) == CountMarked(column) - MarkOf(column[i]) + MarkOf(slot)
  {
    var last := |column| - 1;
    if i == last {
      assert column[i := slot][..last] == column[..last];
    } else {
      assert column[i := slot][..last] == column[..last][i := slot];
      ColumnUpdate(column[..last], i, slot);
    }
  }

  lemma {:induction false} ColumnGap(column: seq<Option<Stored>>, gap: seq<Option<Stored>>)
    requires forall i :: 0 <= i < |gap| ==> gap[i].None?
    ensures SumSizes(column + gap) == SumSizes(column) && CountMarked(column + gap) == CountMarked(column)
    ensures Present(column + gap) == Present(column)
  {
    if gap == [] {
      assert column + gap == column;
    } else {
      var last := |gap| - 1;
      assert (column + gap)[..|column| + last] == column + gap[..last];
      ColumnGap(column, gap[..last]);
    }
  }

  lemma {:induction false} CountBounded(column: seq<Option<Stored>>)
    ensures CountMarked(column) <= |column|
    ensures (exists i :: 0 <= i < |column| && MarkOf(column[i]) == 0) ==> CountMarked(column) < |column|
  {
    if column != [] {
      var last := |column| - 1;
      CountBounded(column[..last]);
      if i :| 0 <= i < |column| && MarkOf(column[i]) == 0 {
        if i < last { assert MarkOf(column[..last][i]) == 0; }
      }
    }
  }

  /** The key of a stored chunk tells its meeting and sequence. */
  lemma KeyTells(db: Db, m: string, sequence: nat)
    requires Keyed(db) && ChunkId(m, sequence) in db.chunks
    ensures var c := db.chunks[ChunkId(m, sequence)]; c.meetingId == m && c.chunk.sequence == sequence && m in db.sessions
  {
    var c := db.chunks[ChunkId(m, sequence)];
    ChunkIdInjective(m, sequence, c.meetingId, c.chunk.sequence);
  }

  /** Beyond the highest sequence a meeting's column is empty. */
  lemma ColumnBeyond(db: Db, m: string, top: nat, n: nat)
    requires Keyed(db) && top <= n && TopIs(db, m, top)
    ensures SumSizes(Column(db, m, n)) == SumSizes(Column(db, m, top))
    ensures CountMarked(Column(db, m, n)) == CountMarked(Column(db, m, top))
    ensures Present(Column(db, m, n)) == Present(Column(db, m, top))
  {
    var column, whole := Column(db, m, top), Column(db, m, n);
    var gap := whole[top..];
    assert whole == column + gap;
    forall i | 0 <= i < |gap| ensures gap[i].None? {
      if ChunkId(m, top + i + 1) in db.chunks { KeyTells(db, m, top + i + 1); }
    }
    ColumnGap(column, gap);
  }

  lemma TopUnique(db: Db, m: string, a: int, b: int)
    requires Keyed(db) && TopIs(db, m, a) && TopIs(db, m, b)
    ensures a == b
  {
    if a > 0 { KeyTells(db, m, a); }
    if b > 0 { KeyTells(db, m, b); }
  }

  lemma KeysApart(m: string, a: nat, other: string, b: nat)
    requires m != other || a != b
    ensures ChunkId(m, a) != ChunkId(other, b)
  {
    if ChunkId(m, a) == ChunkId(other, b) { ChunkIdInjective(m, a, other, b); }
  }

  /** Writing one key of a meeting changes one slot of its column. */
  lemma ColumnWrite(a: Db, b: Db, m: string, sequence: nat, n: nat)
    requires 1 <= sequence <= n
    requires forall id :: id != ChunkId(m, sequence) ==> Find(a.chunks, id) == Find(b.chunks, id)
    ensures Column(b, m, n) == Column(a, m, n)[sequence - 1 := Find(b.chunks, ChunkId(m, sequence))]
  {
    forall i | 0 <= i < n
      ensures Column(b, m, n)[i] == Column(a, m, n)[sequence - 1 := Find(b.chunks, ChunkId(m, sequence))][i]
    {
      if i + 1 != sequence { KeysApart(m, i + 1, m, sequence); }
    }
  }

  /** ... and no slot of another meeting's. */
  lemma ColumnUntouched(a: Db, b: Db, m: string, sequence: nat, other: string, n: nat)
    requires other != m
    requires forall id :: id != ChunkId(m, sequence) ==> Find(a.chunks, id) == Find(b.chunks, id)
    ensures Column(b, other, n) == Column(a, other, n)
  {
    forall i | 0 <= i < n ensures Column(b, other, n)[i] == Column(a, other, n)[i] {
      KeysApart(other, i + 1, m, sequence);
    }
  }

  // ----- Every transaction keeps the store sound -----

  lemma TopUntouched(a: Db, b: Db, m: string, sequence: nat, other: string, top: nat)
    requires Keyed(a) && Keyed(b) && TopIs(a, other, top) && other != m
    requires forall id :: id != ChunkId(m, sequence) ==> Find(a.chunks, id) == Find(b.chunks, id)
    ensures TopIs(b, other, top)
  {
    if top > 0 {
      KeysApart(other, top, m, sequence);
      assert Find(a.chunks, ChunkId(other, top)) == Find(b.chunks, ChunkId(other, top));
    }
    forall id | id in b.chunks && b.chunks[id].meetingId == other
      ensures b.chunks[id].chunk.sequence <= top
    {
      if id == ChunkId(m, sequence) { KeyTells(b, m, sequence); }
      assert Find(a.chunks, id) == Find(b.chunks, id);
    }
  }

  lemma OtherMeetingsKept(a: Db, b: Db, m: string, sequence: nat, other: string)
    requires Keyed(a) && Keyed(b) && other in a.sessions && CountersAgree(a, other) && other != m
    requires other in b.sessions && b.sessions[other] == a.sessions[other]
    requires forall id :: id != ChunkId(m, sequence) ==> Find(a.chunks, id) == Find(b.chunks, id)
    ensures CountersAgree(b, other)
  {
    var top := a.sessions[other].totalChunks;
    ColumnUntouched(a, b, m, sequence, other, top);
    TopUntouched(a, b, m, sequence, other, top);
  }

  function TopOf(db: Db, m: string): int { if m in db.sessions then db.sessions[m].totalChunks else 0 }

  function NewSlot(db: Db, m: string, chunk: RecordedChunk): Stored {
    var id := ChunkId(m, chunk.sequence);
    Stored(id, m, chunk, if id in db.chunks then db.chunks[id].uploadedAt else None)
  }

  lemma TopHolds(db: Db, m: string)
    requires Sound(db)
    ensures TopIs(db, m, TopOf(db, m))
  {
  }

  lemma PersistTop(db: Db, m: string, user: string, chunk: RecordedChunk, now: Timestamp, top: nat)
    requires Keyed(db) && TopIs(db, m, top)
    ensures TopIs(Persisted(db, m, user, chunk, now), m, Max(top, chunk.sequence))
  {
  }

  lemma SlotSwapped(db: Db, after: Db, m: string, slot: Stored, n: nat)
    requires 1 <= slot.chunk.sequence <= n && Find(after.chunks, ChunkId(m, slot.chunk.sequence)) == Some(slot)
    requires forall id :: id != ChunkId(m, slot.chunk.sequence) ==> Find(db.chunks, id) == Find(after.chunks, id)
    ensures var was := Find(db.chunks, ChunkId(m, slot.chunk.sequence));
            && SumSizes(Column(after, m, n)) == SumSizes(Column(db, m, n)) - SizeOf(was) + |slot.chunk.blob|
            && CountMarked(Column(after, m, n)) == CountMarked(Column(db, m, n)) - MarkOf(was) + MarkOf(Some(slot))
  {
    var column, i := Column(db, m, n), slot.chunk.sequence - 1;
    assert column[i] == Find(db.chunks, ChunkId(m, slot.chunk.sequence));
    ColumnWrite(db, after, m, slot.chunk.sequence, n);
    ColumnUpdate(column, i, Some(slot));
  }

  /** One slot of a meeting's column rewritten. */
  lemma SlotWritten(db: Db, after: Db, m: string, slot: Stored, top: nat, n: nat)
    requires Keyed(db) && TopIs(db, m, top) && 1 <= slot.chunk.sequence <= n && top <= n
    requires Find(after.chunks, ChunkId(m, slot.chunk.sequence)) == Some(slot)
    requires forall id :: id != ChunkId(m, slot.chunk.sequence) ==> Find(db.chunks, id) == Find(after.chunks, id)
    ensures var was := Find(db.chunks, ChunkId(m, slot.chunk.sequence));
            && SumSizes(Column(after, m, n)) == SumSizes(Column(db, m, top)) - SizeOf(was) + |slot.chunk.blob|
            && CountMarked(Column(after, m, n)) == CountMarked(Column(db, m, top)) - MarkOf(was) + MarkOf(Some(slot))
  {
    ColumnBeyond(db, m, top, n);
    SlotSwapped(db, after, m, slot, n);
  }

  lemma PersistSums(db: Db, m: string, user: string, chunk: RecordedChunk, now: Timestamp, top: nat)
    requires Keyed(db) && TopIs(db, m, top)
    ensures var column := Column(Persisted(db, m, user, chunk, now), m, Max(top, chunk.sequence));
            && SumSizes(column) == SumSizes(Column(db, m, top)) - SizeOf(Find(db.chunks, ChunkId(m, chunk.sequence))) + |chunk.blob|
            && CountMarked(column) == CountMarked(Column(db, m, top))
  {
    SlotWritten(db, Persisted(db, m, user, chunk, now), m, NewSlot(db, m, chunk), top, Max(top, chunk.sequence));
  }

  lemma PersistKeepsKeyed(db: Db, m: string, user: string, chunk: RecordedChunk, now: Timestamp)
    requires Keyed(db)
    ensures Keyed(Persisted(db, m, user, chunk, now))
  {
  }

  lemma EmptyMeeting(db: Db, m: string)
    requires Keyed(db) && m !in db.sessions
    ensures TopIs(db, m, 0) && SumSizes(Column(db, m, 0)) == CountMarked(Column(db, m, 0)) == 0
  {
  }

  lemma PersistAgrees(db: Db, m: string, user: string, chunk: RecordedChunk, now: Timestamp)
    requires Keyed(db) && (m in db.sessions ==> CountersAgree(db, m))
    ensures CountersAgree(Persisted(db, m, user, chunk, now), m)
  {
    if m !in db.sessions { EmptyMeeting(db, m); }
    PersistTop(db, m, user, chunk, now, TopOf(db, m));
    PersistSums(db, m, user, chunk, now, TopOf(db, m));
  }

  /** Persisting a chunk, new or rewritten, keeps every counter a summary of the stored chunks. */
  lemma PersistKeepsSound(db: Db, m: string, user: string, chunk: RecordedChunk, now: Timestamp)
    requires Sound(db)
    ensures Sound(Persisted(db, m, user, chunk, now))
  {
    var after := Persisted(db, m, user, chunk, now);
    PersistKeepsKeyed(db, m, user, chunk, now);
    PersistAgrees(db, m, user, chunk, now);
    forall other | other in after.sessions && other != m ensures CountersAgree(after, other) {
      OtherMeetingsKept(db, after, m, chunk.sequence, other);
    }
  }

  predicate Unmarked(db: Db, m: string, sequence: nat) {
    ChunkId(m, sequence) in db.chunks && db.chunks[ChunkId(m, sequence)].uploadedAt.None?
  }

  /** A column that holds an unmarked chunk has fewer marks than slots. */
  lemma MarkFits(db: Db, m: string, sequence: nat, top: nat)
    requires Keyed(db) && TopIs(db, m, top) && Unmarked(db, m, sequence)
    ensures CountMarked(Column(db, m, top)) < top
  {
    KeyTells(db, m, sequence);
    var column := Column(db, m, top);
    assert column[sequence - 1] == Find(db.chunks, ChunkId(m, sequence));
    assert MarkOf(column[sequence - 1]) == 0;
    CountBounded(column);
  }

  lemma MarkSums(db: Db, m: string, sequence: nat, uploadedAt: Timestamp, now: Timestamp, top: nat)
    requires Keyed(db) && TopIs(db, m, top) && Unmarked(db, m, sequence)
    ensures var column := Column(MarkedUploaded(db, m, sequence, uploadedAt, now), m, top);
            && SumSizes(column) == SumSizes(Column(db, m, top))
            && CountMarked(column) == CountMarked(Column(db, m, top)) + 1 <= top
  {
    KeyTells(db, m, sequence);
    MarkFits(db, m, sequence, top);
    var slot := db.chunks[ChunkId(m, sequence)].(uploadedAt := Some(uploadedAt));
    SlotWritten(db, MarkedUploaded(db, m, sequence, uploadedAt, now), m, slot, top, top);
  }

  lemma MarkTop(db: Db, m: string, sequence: nat, uploadedAt: Timestamp, now: Timestamp, top: nat)
    requires Keyed(db) && TopIs(db, m, top) && Unmarked(db, m, sequence)
    ensures TopIs(MarkedUploaded(db, m, sequence, uploadedAt, now), m, top)
  {
    var after := MarkedUploaded(db, m, sequence, uploadedAt, now);
    forall id | id in after.chunks && after.chunks[id].meetingId == m
      ensures after.chunks[id].chunk.sequence <= top
    {
      assert id in db.chunks && db.chunks[id].chunk == after.chunks[id].chunk;
    }
  }

  lemma MarkKeepsKeyed(db: Db, m: string, sequence: nat, uploadedAt: Timestamp, now: Timestamp)
    requires Keyed(db)
    ensures Keyed(MarkedUploaded(db, m, sequence, uploadedAt, now))
  {
  }

  /** Marking a chunk raises `uploadedChunks` by exactly one: the clamp to `totalChunks` never takes effect. */
  lemma MarkAgrees(db: Db, m: string, sequence: nat, uploadedAt: Timestamp, now: Timestamp)
    requires Sound(db) && Unmarked(db, m, sequence)
    ensures m in db.sessions
    ensures var after := MarkedUploaded(db, m, sequence, uploadedAt, now);
            CountersAgree(after, m) && after.sessions[m].uploadedChunks == db.sessions[m].uploadedChunks + 1
  {
    KeyTells(db, m, sequence);
    MarkSums(db, m, sequence, uploadedAt, now, TopOf(db, m));
    MarkTop(db, m, sequence, uploadedAt, now, TopOf(db, m));
  }

  lemma MarkKeepsSound(db: Db, m: string, sequence: nat, uploadedAt: Timestamp, now: Timestamp)
    requires Sound(db)
    ensures Sound(MarkedUploaded(db, m, sequence, uploadedAt, now))
  {
    if Unmarked(db, m, sequence) {
      var after := MarkedUploaded(db, m, sequence, uploadedAt, now);
      MarkAgrees(db, m, sequence, uploadedAt, now);
      MarkKeepsKeyed(db, m, sequence, uploadedAt, now);
      forall other | other in after.sessions && other != m ensures CountersAgree(after, other) {
        OtherMeetingsKept(db, after, m, sequence, other);
      }
    }
  }

  lemma SameChunksAgree(a: Db, b: Db, m: string)
    requires a.chunks == b.chunks && m in a.sessions && m in b.sessions && CountersAgree(a, m)
    requires a.sessions[m].totalChunks == b.sessions[m].totalChunks
    requires a.sessions[m].totalBytes == b.sessions[m].totalBytes
    requires a.sessions[m].uploadedChunks == b.sessions[m].uploadedChunks
    ensures CountersAgree(b, m)
  {
    assert Column(a, m, a.sessions[m].totalChunks) == Column(b, m, a.sessions[m].totalChunks);
  }

  /** The counters of a session, none for a meeting without one. */
  function CountsOf(session: Option<Session>): (int, int, int) {
    if session.Some? then (session.value.totalBytes, session.value.totalChunks, session.value.uploadedChunks) else (0, 0, 0)
  }

  /** Chunks determine the counters that agree with them. */
  lemma CountsDetermined(a: Db, b: Db, m: string)
    requires Sound(a) && Sound(b) && a.chunks == b.chunks && m in b.sessions
    ensures CountsOf(Find(a.sessions, m)) == CountsOf(Find(b.sessions, m))
  {
    var top := TopOf(a, m);
    TopHolds(a, m);
    TopHolds(b, m);
    assert TopIs(b, m, top);
    TopUnique(b, m, top, TopOf(b, m));
    assert Column(a, m, top) == Column(b, m, top);
    if m !in a.sessions { assert Column(a, m, 0) == []; }
  }

  lemma SameCountsKeepSound(a: Db, b: Db, m: string)
    requires Sound(a) && b.chunks == a.chunks && m in b.sessions && b.sessions[m].meetingId == m
    requires b.sessions == a.sessions[m := b.sessions[m]] && CountsOf(Find(b.sessions, m)) == CountsOf(Find(a.sessions, m))
    ensures Sound(b)
  {
    if m !in a.sessions { EmptyAfterBegin(a, b, m); }
    forall other | other in b.sessions ensures CountersAgree(b, other) {
      if other in a.sessions { SameChunksAgree(a, b, other); }
    }
  }

  /**
   The session is found in one transaction and put in another.  The counters still agree exactly when nothing changed the
   meeting's counters in between.
   */
  lemma BeginAfterReadIff(db: Db, found: Option<Session>, m: string, user: string, title: Option<string>, now: Timestamp)
    requires Sound(db) && (found.Some? ==> found.value.meetingId == m)
    ensures Sound(db.(sessions := db.sessions[m := BegunSession(found, m, user, title, now)]))
            <==> CountsOf(found) == CountsOf(Find(db.sessions, m))
  {
    var after := db.(sessions := db.sessions[m := BegunSession(found, m, user, title, now)]);
    assert CountsOf(Find(after.sessions, m)) == CountsOf(found);
    if Sound(after) { CountsDetermined(db, after, m); }
    if CountsOf(found) == CountsOf(Find(db.sessions, m)) { SameCountsKeepSound(db, after, m); }
  }

  lemma BeginKeepsSound(db: Db, m: string, user: string, title: Option<string>, now: Timestamp)
    requires Sound(db)
    ensures Sound(Began(db, m, user, title, now))
  {
    BeginAfterReadIff(db, Find(db.sessions, m), m, user, title, now);
  }

  lemma EmptyAfterBegin(db: Db, after: Db, m: string)
    requires Keyed(db) && m !in db.sessions && after.chunks == db.chunks
    requires m in after.sessions && after.sessions[m].totalChunks == after.sessions[m].totalBytes == after.sessions[m].uploadedChunks == 0
    ensures CountersAgree(after, m)
  {
    EmptyMeeting(db, m);
    assert Column(after, m, 0) == [];
  }

  lemma StatusKeepsAgreement(db: Db, m: string, status: Status, now: Timestamp, other: string)
    requires other in db.sessions && CountersAgree(db, other)
    ensures var after := WithStatus(db, m, status, now); other in after.sessions && CountersAgree(after, other)
  {
    SameChunksAgree(db, WithStatus(db, m, status, now), other);
  }

  lemma StatusKeepsKeyed(db: Db, m: string, status: Status, now: Timestamp)
    requires Keyed(db)
    ensures Keyed(WithStatus(db, m, status, now))
    ensures WithStatus(db, m, status, now).sessions.Keys == db.sessions.Keys
  {}

  lemma StatusKeepsSound(db: Db, m: string, status: Status, now: Timestamp)
    requires Sound(db)
    ensures Sound(WithStatus(db, m, status, now))
  {
    StatusKeepsKeyed(db, m, status, now);
    forall other | other in db.sessions ensures CountersAgree(WithStatus(db, m, status, now), other) {
      StatusKeepsAgreement(db, m, status, now, other);
    }
  }

  lemma DeletionSlots(db: Db, meetings: set<string>, m: string, n: nat)
    requires Keyed(db)
    ensures m !in meetings ==> Column(Without(db, meetings), m, n) == Column(db, m, n)
    ensures m in meetings ==> forall i :: 0 <= i < n ==> Column(Without(db, meetings), m, n)[i].None?
  {
    var after := Column(Without(db, meetings), m, n);
    forall i | 0 <= i < n ensures after[i] == if m in meetings then None else Column(db, m, n)[i] {
      if ChunkId(m, i + 1) in db.chunks { KeyTells(db, m, i + 1); }
    }
  }

  lemma DeletionKeepsSound(db: Db, meetings: set<string>)
    requires Sound(db)
    ensures Sound(Without(db, meetings))
  {
    var after := Without(db, meetings);
    forall m | m in after.sessions ensures CountersAgree(after, m) {
      var top := after.sessions[m].totalChunks;
      DeletionSlots(db, meetings, m, top);
      if top > 0 { KeyTells(db, m, top); }
    }
  }

  /** Deletion removes all that belongs to the meetings, and nothing of any other meeting changes. */
  lemma DeletionIsExact(db: Db, meetings: set<string>, other: string, n: nat)
    requires Sound(db)
    ensures var after := Without(db, meetings);
            if other in meetings
            then other !in after.sessions && (forall id :: id in after.chunks ==> after.chunks[id].meetingId != other)
                 && Present(Column(after, other, n)) == []
            else Find(after.sessions, other) == Find(db.sessions, other) && Column(after, other, n) == Column(db, other, n)
  {
    DeletionSlots(db, meetings, other, n);
    if other in meetings {
      var column := Column(Without(db, meetings), other, n);
      ColumnGap([], column);
      assert [] + column == column;
    }
  }

  // ----- What the transactions promise of every field -----

  /** The chunk is stored as it is, with the mark its key had, and no other key changes. */
  ghost predicate ChunkStored(before: Db, after: Db, m: string, chunk: RecordedChunk) {
    var id := ChunkId(m, chunk.sequence);
    && id in after.chunks && after.chunks[id].chunk == chunk && after.chunks[id].meetingId == m
    && after.chunks[id].uploadedAt == (if id in before.chunks then before.chunks[id].uploadedAt else None)
    && forall other :: other != id ==> Find(after.chunks, other) == Find(before.chunks, other)
  }

  /** The session belongs to the user, keeps its title and age, and stays stopped if it was; no other session changes. */
  ghost predicate SessionTouched(before: Db, after: Db, m: string, user: string, chunk: RecordedChunk, now: Timestamp) {
    && m in after.sessions
    && (var s := after.sessions[m];
        && s.userId == user && s.updatedAt == now
        && s.mimeType == (if chunk.mimeType != "" then chunk.mimeType
                          else if m in before.sessions && before.sessions[m].mimeType != "" then before.sessions[m].mimeType
                          else "audio/webm")
        && s.status == (if m in before.sessions && before.sessions[m].status.Stopped? then Stopped else Recording)
        && (if m in before.sessions then s.title == before.sessions[m].title && s.createdAt == before.sessions[m].createdAt
            else s.title == None && s.createdAt == now))
    && forall other :: other != m ==> Find(after.sessions, other) == Find(before.sessions, other)
  }

  lemma PersistStores(db: Db, m: string, user: string, chunk: RecordedChunk, now: Timestamp)
    ensures var after := Persisted(db, m, user, chunk, now);
            ChunkStored(db, after, m, chunk) && SessionTouched(db, after, m, user, chunk, now)
  {
  }

  /** A first mark is kept for good, and neither this chunk's audio nor any other chunk changes. */
  ghost predicate ChunkMarked(before: Db, after: Db, m: string, sequence: nat, uploadedAt: Timestamp) {
    var id := ChunkId(m, sequence);
    && after.chunks.Keys == before.chunks.Keys
    && (id in before.chunks ==>
          && after.chunks[id].chunk == before.chunks[id].chunk && after.chunks[id].meetingId == before.chunks[id].meetingId
          && after.chunks[id].uploadedAt == (if before.chunks[id].uploadedAt.Some? then before.chunks[id].uploadedAt
                                             else Some(uploadedAt)))
    && forall other :: other != id && other in before.chunks ==> after.chunks[other] == before.chunks[other]
  }

  /** Of the meeting's session only the counter of uploads and the time may change, of the others nothing. */
  ghost predicate OnlyCounted(before: Db, after: Db, m: string, now: Timestamp) {
    && after.sessions.Keys == before.sessions.Keys
    && forall o :: o in before.sessions ==>
         var s, t := before.sessions[o], after.sessions[o];
         t == s || (o == m && t == s.(updatedAt := now, uploadedChunks := t.uploadedChunks))
  }

  lemma MarkMarks(db: Db, m: string, sequence: nat, uploadedAt: Timestamp, now: Timestamp)
    ensures var after := MarkedUploaded(db, m, sequence, uploadedAt, now);
            ChunkMarked(db, after, m, sequence, uploadedAt) && OnlyCounted(db, after, m, now)
  {
  }

  // ----- Loading -----

  predicate Ascending(s: seq<Stored>) {
    forall i, j :: 0 <= i < j < |s| ==> s[i].chunk.sequence < s[j].chunk.sequence
  }

  function Inserted(s: seq<Stored>, c: Stored): seq<Stored> {
    if s == [] then [c]
    else if s[|s| - 1].chunk.sequence < c.chunk.sequence then s + [c]
    else Inserted(s[..|s| - 1], c) + [s[|s| - 1]]
  }

  lemma HighestLast(s: seq<Stored>, last: Stored)
    requires Ascending(s) && forall x :: x in s ==> x.chunk.sequence < last.chunk.sequence
    ensures Ascending(s + [last]) && forall x :: x in s + [last] <==> x in s || x == last
  {
  }

  lemma {:induction false} InsertedKeepsOrder(s: seq<Stored>, c: Stored)
    requires Ascending(s) && forall x :: x in s ==> x.chunk.sequence != c.chunk.sequence
    ensures Ascending(Inserted(s, c)) && forall x :: x in Inserted(s, c) <==> x in s || x == c
  {
    if s == [] {
    } else if s[|s| - 1].chunk.sequence < c.chunk.sequence {
      HighestLast(s, c);
    } else {
      var init, last := s[..|s| - 1], s[|s| - 1];
      assert s == init + [last] && last in s;
      InsertedKeepsOrder(init, c);
      HighestLast(Inserted(init, c), last);
    }
  }

  lemma HasMember(a: seq<Stored>)
    requires a != []
    ensures exists x :: x in a
  {
    assert a[0] in a;
  }

  lemma LastIsLargest(a: seq<Stored>)
    requires Ascending(a) && a != []
    ensures var init, last := a[..|a| - 1], a[|a| - 1];
            && a == init + [last] && Ascending(init)
            && (forall x :: x in init <==> x in a && x != last)
            && (forall x :: x in a ==> x == last || x.chunk.sequence < last.chunk.sequence)
  {
    var init, last := a[..|a| - 1], a[|a| - 1];
    assert a == init + [last];
    forall x | x in init ensures x.chunk.sequence < last.chunk.sequence {
      var i :| 0 <= i < |init| && init[i] == x;
      assert a[i] == x;
    }
  }

  lemma {:induction false} AscendingUnique(a: seq<Stored>, b: seq<Stored>)
    requires Ascending(a) && Ascending(b) && forall x :: x in a <==> x in b
    ensures a == b
  {
    if a == [] || b == [] {
      if b != [] { HasMember(b); }
      if a != [] { HasMember(a); }
    } else {
      var x, y := a[|a| - 1], b[|b| - 1];
      assert x in b && y in a;
      var a', b' := a[..|a| - 1], b[..|b| - 1];
      LastIsLargest(a);
      LastIsLargest(b);
      assert x == y;
      AscendingUnique(a', b');
    }
  }

  /** What a load returns: the meeting's stored chunks, ascending, each once. */
  lemma {:induction false} PresentIs(db: Db, m: string, n: nat)
    requires Keyed(db)
    ensures var p := Present(Column(db, m, n));
            Ascending(p) && forall c :: c in p <==> c.id in db.chunks && db.chunks[c.id] == c && c.meetingId == m && c.chunk.sequence <= n
  {
    if n > 0 {
      PresentIs(db, m, n - 1);
      var init, slot := Present(Column(db, m, n - 1)), Find(db.chunks, ChunkId(m, n));
      assert Column(db, m, n)[..n - 1] == Column(db, m, n - 1);
      assert Present(Column(db, m, n)) == init + if slot.Some? then [slot.value] else [];
      if slot.Some? {
        KeyTells(db, m, n);
        HighestLast(init, slot.value);
      }
      forall c: Stored | c.id in db.chunks && db.chunks[c.id] == c && c.meetingId == m && c.chunk.sequence == n
        ensures slot == Some(c)
      {
      }
    }
  }

  function Loaded(db: Db, m: string): Option<(Session, seq<Stored>)> {
    if m in db.sessions && db.sessions[m].totalChunks > 0
    then Some((db.sessions[m], Present(Column(db, m, db.sessions[m].totalChunks))))
    else None
  }

  /** Collecting a meeting's chunks in any order and sorting them gives its column. */
  lemma LoadedIs(db: Db, m: string, out: seq<Stored>)
    requires Keyed(db) && m in db.sessions && TopIs(db, m, db.sessions[m].totalChunks) && Ascending(out)
    requires forall c :: c in out <==> c.id in db.chunks && db.chunks[c.id] == c && c.meetingId == m
    ensures Loaded(db, m) == if out == [] then None else Some((db.sessions[m], out))
  {
    var top := db.sessions[m].totalChunks;
    PresentIs(db, m, top);
    AscendingUnique(out, Present(Column(db, m, top)));
    if top > 0 {
      assert db.chunks[ChunkId(m, top)].id == ChunkId(m, top);
      assert db.chunks[ChunkId(m, top)] in out;
    } else {
      assert Present(Column(db, m, 0)) == [];
    }
  }

  /** The later of two times; ISO timestamps are ordered as strings. */
  predicate Later(a: string, b: string) {
    a != "" && (b == "" || a[0] > b[0] || (a[0] == b[0] && Later(a[1..], b[1..])))
  }

  lemma {:induction false} LaterIsOrder(a: string, b: string, c: string)
    ensures Later(a, b) && !Later(c, b) ==> !Later(c, a)
  {
    if a != "" && b != "" && c != "" { LaterIsOrder(a[1..], b[1..], c[1..]); }
  }

  lemma {:induction false} NotLaterThanItself(a: string)
    ensures !Later(a, a)
  {
    if a != "" { NotLaterThanItself(a[1..]); }
  }

  /** A session that a new page of the user may recover. */
  predicate Recoverable(db: Db, user: string, m: string) {
    m in db.sessions && db.sessions[m].userId == user && !db.sessions[m].status.Finalized? && db.sessions[m].totalChunks > 0
  }

  class BrowserRecordingStore {
    var sessions: map<string, Session>
    var chunks: map<string, Stored>

    function View(): Db reads this { Db(sessions, chunks) }

    ghost predicate Valid() reads this { Sound(View()) }

    constructor ()
      ensures Valid() && View() == Db(map[], map[])
    {
      sessions, chunks := map[], map[];
    }

    method FindSession(m: string) returns (found: Option<Session>)
      ensures found == Find(sessions, m)
    {
      found := None;
      if m in sessions { found := Some(sessions[m]); }
    }

    method PutBegun(found: Option<Session>, m: string, user: string, title: Option<string>, now: Timestamp)
      modifies this`sessions
      ensures sessions == old(sessions)[m := BegunSession(found, m, user, title, now)]
      ensures sessions[m].status == Recording && sessions[m].updatedAt == now
      ensures sessions[m].title == if title.Some? && title.value != "" then title
                                   else if found.Some? then found.value.title else title
      ensures found.Some? ==> sessions[m].userId == found.value.userId && sessions[m].createdAt == found.value.createdAt
      ensures found.None? ==> sessions[m].userId == user && sessions[m].createdAt == now && sessions[m].totalChunks == 0
    {
      var session := Session(m, user, title, now, now, Recording, "", 0, 0, 0);
      if found.Some? { session := found.value; }
      session := session.(status := Recording, updatedAt := now);
      if Truthy(title).Some? { session := session.(title := title); }
      sessions := sessions[m := session];
    }

    /** A read and a put, with nothing in between. */
    method Begin(m: string, user: string, title: Option<string>, now: Timestamp)
      requires Valid()
      modifies this
      ensures Valid() && View() == Began(old(View()), m, user, title, now)
    {
      BeginKeepsSound(View(), m, user, title, now);
      var found := FindSession(m);
      PutBegun(found, m, user, title, now);
    }

    /** The puts of `persistBrowserAudioChunk`. */
    method PutChunk(m: string, user: string, chunk: RecordedChunk, now: Timestamp)
      modifies this
      ensures View() == Persisted(old(View()), m, user, chunk, now)
    {
      var id := ChunkId(m, chunk.sequence);
      var existingSession, existingChunk := Find(sessions, m), Find(chunks, id);
      var session := Session(m, user, None, now, now, Recording, "", 0, 0, 0);
      if existingSession.Some? {
        var s := existingSession.value;
        session := Session(m, user, s.title, s.createdAt, now, if s.status.Stopped? then Stopped else Recording,
                           s.mimeType, s.totalBytes, s.totalChunks, s.uploadedChunks);
      }
      var mimeType := if chunk.mimeType != "" then chunk.mimeType else if session.mimeType != "" then session.mimeType else "audio/webm";
      var uploadedAt, replaced := None, 0;
      if existingChunk.Some? {
        uploadedAt, replaced := existingChunk.value.uploadedAt, |existingChunk.value.chunk.blob|;
      }
      chunks := chunks[id := Stored(id, m, chunk, uploadedAt)];
      sessions := sessions[m := session.(
        mimeType := mimeType,
        totalBytes := Max(0, session.totalBytes - replaced + |chunk.blob|),
        totalChunks := Max(session.totalChunks, chunk.sequence))];
    }

    method Persist(m: string, user: string, chunk: RecordedChunk, now: Timestamp)
      requires Valid()
      modifies this
      ensures Valid() && View() == Persisted(old(View()), m, user, chunk, now)
      ensures ChunkStored(old(View()), View(), m, chunk) && SessionTouched(old(View()), View(), m, user, chunk, now)
    {
      PersistKeepsSound(View(), m, user, chunk, now);
      PersistStores(View(), m, user, chunk, now);
      PutChunk(m, user, chunk, now);
    }

    /** The puts of `markBrowserAudioChunkUploaded`. */
    method PutMark(m: string, sequence: nat, uploadedAt: Timestamp, now: Timestamp)
      modifies this
      ensures View() == MarkedUploaded(old(View()), m, sequence, uploadedAt, now)
    {
      var id := ChunkId(m, sequence);
      if id in chunks && chunks[id].uploadedAt.None? {
        chunks := chunks[id := chunks[id].(uploadedAt := Some(uploadedAt))];
        if m in sessions {
          var s := sessions[m];
          sessions := sessions[m := s.(updatedAt := now, uploadedChunks := Min(s.totalChunks, s.uploadedChunks + 1))];
        }
      }
    }

    method MarkUploaded(m: string, sequence: nat, uploadedAt: Timestamp, now: Timestamp)
      requires Valid()
      modifies this
      ensures Valid() && View() == MarkedUploaded(old(View()), m, sequence, uploadedAt, now)
      ensures ChunkMarked(old(View()), View(), m, sequence, uploadedAt) && OnlyCounted(old(View()), View(), m, now)
    {
      MarkKeepsSound(View(), m, sequence, uploadedAt, now);
      MarkMarks(View(), m, sequence, uploadedAt, now);
      PutMark(m, sequence, uploadedAt, now);
    }

    /** `markBrowserRecordingStopped` and `markBrowserRecordingFinalized`. */
    method UpdateStatus(m: string, status: Status, now: Timestamp)
      requires Valid()
      modifies this
      ensures Valid() && View() == WithStatus(old(View()), m, status, now)
      ensures chunks == old(chunks) && sessions.Keys == old(sessions).Keys
      ensures m in sessions ==> sessions[m].status == status && sessions[m].updatedAt == now
      ensures forall other :: other in sessions ==>
                sessions[other].(status := status, updatedAt := now) == old(sessions)[other].(status := status, updatedAt := now)
                && (other != m ==> sessions[other] == old(sessions)[other])
    {
      StatusKeepsSound(View(), m, status, now);
      if m in sessions { sessions := sessions[m := sessions[m].(status := status, updatedAt := now)]; }
    }

    /** Reads all chunks in any order, keeps the meeting's, and sorts them by sequence. */
    method ReadMeetingChunks(m: string) returns (out: seq<Stored>)
      requires Keyed(View())
      ensures Ascending(out)
      ensures forall c :: c in out <==> c.id in chunks && chunks[c.id] == c && c.meetingId == m
    {
      out := [];
      var rest := chunks.Keys;
      while rest != {}
        invariant rest <= chunks.Keys
        invariant Ascending(out)
        invariant forall c :: c in out <==> c.id in chunks && c.id !in rest && chunks[c.id] == c && c.meetingId == m
        decreases |rest|
      {
        var id :| id in rest;
        rest := rest - {id};
        var chunk := chunks[id];
        if chunk.meetingId == m {
          InsertedKeepsOrder(out, chunk);
          out := Inserted(out, chunk);
        }
      }
    }

    /** `loadBrowserRecording`: nothing without a session or without chunks. */
    method Load(m: string) returns (r: Option<(Session, seq<Stored>)>)
      requires Valid()
      ensures r == Loaded(View(), m)
      ensures r.None? <==> m !in sessions || forall id :: id in chunks ==> chunks[id].meetingId != m
      ensures r.Some? ==>
                && r.value.0 == sessions[m] && Ascending(r.value.1)
                && (forall c :: c in r.value.1 <==> c.id in chunks && chunks[c.id] == c && c.meetingId == m)
    {
      if m !in sessions { return None; }
      var out := ReadMeetingChunks(m);
      LoadedIs(View(), m, out);
      if |out| == 0 { return None; }
      return Some((sessions[m], out));
    }

    /** `loadLatestRecoverableBrowserRecording`: the user's unfinished recording touched last, with all of its chunks. */
    method LoadLatest(user: string) returns (r: Option<(Session, seq<Stored>)>)
      requires Valid()
      ensures r.None? <==> forall m :: !Recoverable(View(), user, m)
      ensures r.Some? ==>
                var s := r.value.0;
                && Recoverable(View(), user, s.meetingId) && sessions[s.meetingId] == s && Ascending(r.value.1)
                && (forall m :: Recoverable(View(), user, m) ==> !Later(sessions[m].updatedAt, s.updatedAt))
                && (forall c :: c in r.value.1 <==> c.id in chunks && chunks[c.id] == c && c.meetingId == s.meetingId)
    {
      var latest := FindLatest(user);
      if latest.None? { return None; }
      var out := ReadMeetingChunks(latest.value);
      LoadedIs(View(), latest.value, out);
      return Some((sessions[latest.value], out));
    }

    method FindLatest(user: string) returns (latest: Option<string>)
      ensures latest.None? <==> forall m :: !Recoverable(View(), user, m)
      ensures latest.Some? ==>
                && Recoverable(View(), user, latest.value)
                && forall m :: Recoverable(View(), user, m) ==> !Later(sessions[m].updatedAt, sessions[latest.value].updatedAt)
    {
      latest := None;
      var rest := sessions.Keys;
      while rest != {}
        invariant rest <= sessions.Keys
        invariant latest.None? ==> forall m :: Recoverable(View(), user, m) ==> m in rest
        invariant latest.Some? ==>
                    && Recoverable(View(), user, latest.value)
                    && forall m :: Recoverable(View(), user, m) && m !in rest
                                   ==> !Later(sessions[m].updatedAt, sessions[latest.value].updatedAt)
        decreases |rest|
      {
        var m :| m in rest;
        rest := rest - {m};
        if Recoverable(View(), user, m) && (latest.None? || Later(sessions[m].updatedAt, sessions[latest.value].updatedAt)) {
          forall o | latest.Some? && Recoverable(View(), user, o) && o !in rest && o != m
            ensures !Later(sessions[o].updatedAt, sessions[m].updatedAt)
          {
            LaterIsOrder(sessions[m].updatedAt, sessions[latest.value].updatedAt, sessions[o].updatedAt);
          }
          NotLaterThanItself(sessions[m].updatedAt);
          latest := Some(m);
        }
      }
    }

    /** Deletes chunk by chunk what belongs to the meetings. */
    method DeleteChunks(meetings: set<string>)
      requires forall id :: id in chunks ==> chunks[id].id == id
      modifies this`chunks
      ensures chunks == map id | id in old(chunks) && old(chunks)[id].meetingId !in meetings :: old(chunks)[id]
    {
      var rest := chunks.Keys;
      while rest != {}
        invariant rest <= old(chunks).Keys
        invariant chunks == map id | id in old(chunks) && (id in rest || old(chunks)[id].meetingId !in meetings) :: old(chunks)[id]
        decreases |rest|
      {
        var id :| id in rest;
        rest := rest - {id};
        var chunk := chunks[id];
        if chunk.meetingId in meetings { chunks := chunks - {chunk.id}; }
      }
    }

    method DeleteMeetings(meetings: set<string>)
      requires Valid()
      modifies this
      ensures Valid() && View() == Without(old(View()), meetings)
    {
      DeletionKeepsSound(View(), meetings);
      sessions := map m | m in sessions && m !in meetings :: sessions[m];
      DeleteChunks(meetings);
    }

    method Delete(m: string)
      requires Valid()
      modifies this
      ensures Valid() && View() == Without(old(View()), {m})
      ensures forall o :: o in sessions <==> o in old(sessions) && o != m
      ensures forall o :: o in sessions ==> sessions[o] == old(sessions)[o]
      ensures forall id :: id in chunks <==> id in old(chunks) && old(chunks)[id].meetingId != m
      ensures forall id :: id in chunks ==> chunks[id] == old(chunks)[id]
    {
      DeleteMeetings({m});
    }

    method DeleteForUser(user: string)
      requires Valid()
      modifies this
      ensures Valid() && View() == Without(old(View()), MeetingsOf(old(View()), user))
      ensures forall m :: m in sessions <==> m in old(sessions) && old(sessions)[m].userId != user
      ensures forall m :: m in sessions ==> sessions[m] == old(sessions)[m]
      ensures forall id :: id in old(chunks) ==> old(chunks)[id].meetingId in old(sessions)
      ensures forall id :: id in chunks <==>
                id in old(chunks) && old(sessions)[old(chunks)[id].meetingId].userId != user
      ensures forall id :: id in chunks ==> chunks[id] == old(chunks)[id]
    {
      var meetings := set m | m in sessions && sessions[m].userId == user :: sessions[m].meetingId;
      assert meetings == MeetingsOf(View(), user);
      DeleteMeetings(meetings);
    }
  }
}
