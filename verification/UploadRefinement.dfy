/**
 The durable half of the upload protocol is what the browser store keeps: each protocol step
 on `sizes` and `marked` is a store transaction, and what a reload reads from the store is
 what the protocol's reload assumes (src/components/meeting-recorder.tsx:222-234, 318-330).
 */
module UploadRefinement {
  import opened Text
  import opened BrowserRecordingStore
  import opened ChunkUploadClient
  import P = UploadProtocol

  function RowOf(c: Stored): Row { Row(c.chunk.sequence, |c.chunk.blob|, c.uploadedAt.Some?) }

  function Rows(stored: seq<Stored>): seq<Row> { seq(|stored|, i requires 0 <= i < |stored| => RowOf(stored[i])) }

  /** The rows of chunks 1..n in order. */
  function Expected(sizes: seq<nat>, marked: set<nat>): seq<Row> {
    seq(|sizes|, i requires 0 <= i < |sizes| => Row(i + 1, sizes[i], i + 1 in marked))
  }

  /** Every slot is filled as the protocol's sizes and marks say. */
  predicate Described(column: seq<Option<Stored>>, sizes: seq<nat>, marked: set<nat>) {
    |column| == |sizes|
    && forall i :: 0 <= i < |column| ==> column[i].Some? && RowOf(column[i].value) == Row(i + 1, sizes[i], i + 1 in marked)
  }

  /** The meeting's chunks are 1..n with these sizes, and exactly the `marked` ones carry an upload time. */
  predicate Represents(db: Db, m: string, sizes: seq<nat>, marked: set<nat>) {
    Keyed(db) && TopIs(db, m, |sizes|) && Described(Column(db, m, |sizes|), sizes, marked)
  }

  lemma ColumnLonger(db: Db, m: string, n: nat)
    ensures Column(db, m, n + 1) == Column(db, m, n) + [Find(db.chunks, ChunkId(m, n + 1))]
  {
  }

  /** Writing a key beyond the column leaves the column alone. */
  lemma ColumnBelow(a: Db, b: Db, m: string, n: nat)
    requires forall id :: id != ChunkId(m, n + 1) ==> Find(a.chunks, id) == Find(b.chunks, id)
    ensures Column(b, m, n) == Column(a, m, n)
  {
    ColumnWrite(a, b, m, n + 1, n + 1);
    ColumnLonger(a, m, n);
    ColumnLonger(b, m, n);
    assert Column(a, m, n) == Column(a, m, n + 1)[..n] && Column(b, m, n) == Column(b, m, n + 1)[..n];
  }

  lemma DescribedLonger(column: seq<Option<Stored>>, sizes: seq<nat>, marked: set<nat>, slot: Stored)
    requires Described(column, sizes, marked) && slot.chunk.sequence == |sizes| + 1
    requires slot.uploadedAt.Some? <==> |sizes| + 1 in marked
    ensures Described(column + [Some(slot)], sizes + [|slot.chunk.blob|], marked)
  {
  }

  lemma DescribedMarked(column: seq<Option<Stored>>, sizes: seq<nat>, marked: set<nat>, slot: Stored)
    requires Described(column, sizes, marked) && slot.chunk.sequence <= |sizes|
    requires var was := column[slot.chunk.sequence - 1];
             was.Some? && slot.chunk == was.value.chunk && slot.uploadedAt.Some?
    ensures Described(column[slot.chunk.sequence - 1 := Some(slot)], sizes, marked + {slot.chunk.sequence})
  {
  }

  lemma PersistRefines(db: Db, m: string, sizes: seq<nat>, marked: set<nat>, user: string, chunk: RecordedChunk, now: Timestamp)
    requires Represents(db, m, sizes, marked) && chunk.sequence == |sizes| + 1 && |sizes| + 1 !in marked
    ensures Represents(Persisted(db, m, user, chunk, now), m, sizes + [|chunk.blob|], marked)
  {
    var n, after, slot := |sizes|, Persisted(db, m, user, chunk, now), NewSlot(db, m, chunk);
    PersistTop(db, m, user, chunk, now, n);
    PersistKeepsKeyed(db, m, user, chunk, now);
    if ChunkId(m, n + 1) in db.chunks { KeyTells(db, m, n + 1); }
    ColumnBelow(db, after, m, n);
    ColumnLonger(after, m, n);
    DescribedLonger(Column(db, m, n), sizes, marked, slot);
  }

  lemma MarkRefines(db: Db, m: string, sizes: seq<nat>, marked: set<nat>, sequence: nat, at: Timestamp, now: Timestamp)
    requires Represents(db, m, sizes, marked) && 1 <= sequence <= |sizes|
    ensures Represents(MarkedUploaded(db, m, sequence, at, now), m, sizes, marked + {sequence})
  {
    var column, id := Column(db, m, |sizes|), ChunkId(m, sequence);
    assert column[sequence - 1] == Find(db.chunks, id);
    DescribedMarked(column, sizes, marked, db.chunks[id].(uploadedAt := Some(at)));
    if Unmarked(db, m, sequence) {
      var after := MarkedUploaded(db, m, sequence, at, now);
      MarkKeepsKeyed(db, m, sequence, at, now);
      MarkTop(db, m, sequence, at, now, |sizes|);
      ColumnWrite(db, after, m, sequence, |sizes|);
    } else {
      assert marked + {sequence} == marked;
    }
  }

  lemma RowsAre(column: seq<Option<Stored>>, sizes: seq<nat>, marked: set<nat>)
    requires Described(column, sizes, marked)
    ensures Rows(Present(column)) == Expected(sizes, marked)
  {
    PresentFull(column);
  }

  lemma NextMarked(list: seq<nat>, marked: set<nat>, n: nat)
    requires n >= 1 && Elements(list) == marked * P.Issued(n - 1) && P.Distinct(list)
    ensures var longer := list + if n in marked then [n] else [];
            Elements(longer) == marked * P.Issued(n) && P.Distinct(longer)
  {
    if n in marked {
      P.ElementsAppend(list, n);
      assert marked * P.Issued(n) == marked * P.Issued(n - 1) + {n};
    } else {
      assert list + [] == list;
      assert marked * P.Issued(n) == marked * P.Issued(n - 1);
    }
  }

  /** The sums over those rows are the protocol's. */
  lemma {:induction false} ExpectedSums(sizes: seq<nat>, marked: set<nat>)
    ensures var rows, n := Expected(sizes, marked), |sizes|;
            && UnmarkedOf(rows) == P.UnmarkedList(n, marked)
            && Elements(MarkedOf(rows)) == marked * P.Issued(n) && P.Distinct(MarkedOf(rows))
            && MarkedBytes(rows) == P.Bytes(sizes, marked)
  {
    var n := |sizes|;
    if n == 0 {
      assert P.Issued(0) == {};
    } else {
      var init, row := Expected(sizes[..n - 1], marked), Row(n, sizes[n - 1], n in marked);
      ExpectedSums(sizes[..n - 1], marked);
      assert Expected(sizes, marked) == init + [row];
      RowAppended(init, row);
      NextMarked(MarkedOf(init), marked, n);
    }
  }

  /**
   What recovery and resync compute from the loaded chunks is what the protocol's load and reload use: the list of
   unmarked sequences, the marked ones, how many they are, and their bytes.
   */
  lemma LoadRefines(db: Db, m: string, sizes: seq<nat>, marked: set<nat>)
    requires Sound(db) && Represents(db, m, sizes, marked) && sizes != [] && marked <= P.Issued(|sizes|)
    ensures Loaded(db, m).Some?
    ensures var rows := Rows(Loaded(db, m).value.1);
            && |rows| == |sizes|
            && UnmarkedOf(rows) == P.UnmarkedList(|sizes|, marked)
            && Elements(MarkedOf(rows)) == marked && |MarkedOf(rows)| == |marked|
            && MarkedBytes(rows) == P.Bytes(sizes, marked)
  {
    LoadedRows(db, m, sizes, marked);
    ExpectedSums(sizes, marked);
    P.DistinctSize(MarkedOf(Expected(sizes, marked)));
    assert marked * P.Issued(|sizes|) == marked;
  }

  lemma LoadedRows(db: Db, m: string, sizes: seq<nat>, marked: set<nat>)
    requires Sound(db) && Represents(db, m, sizes, marked) && sizes != []
    ensures Loaded(db, m).Some? && Rows(Loaded(db, m).value.1) == Expected(sizes, marked)
  {
    var column := Column(db, m, |sizes|);
    assert column[|sizes| - 1] == Find(db.chunks, ChunkId(m, |sizes|));
    KeyTells(db, m, |sizes|);
    TopHolds(db, m);
    TopUnique(db, m, db.sessions[m].totalChunks, |sizes|);
    RowsAre(column, sizes, marked);
  }

  /** What a transaction on one meeting leaves of another. */
  lemma Elsewhere(a: Db, b: Db, m: string, sequence: nat, other: string, sizes: seq<nat>, marked: set<nat>)
    requires Represents(a, other, sizes, marked) && Keyed(b) && other != m
    requires forall id :: id != ChunkId(m, sequence) ==> Find(a.chunks, id) == Find(b.chunks, id)
    ensures Represents(b, other, sizes, marked)
  {
    ColumnUntouched(a, b, m, sequence, other, |sizes|);
    TopUntouched(a, b, m, sequence, other, |sizes|);
  }

  lemma PersistElsewhere(db: Db, m: string, user: string, chunk: RecordedChunk, now: Timestamp,
                         other: string, sizes: seq<nat>, marked: set<nat>)
    requires Represents(db, other, sizes, marked) && other != m
    ensures Represents(Persisted(db, m, user, chunk, now), other, sizes, marked)
  {
    PersistKeepsKeyed(db, m, user, chunk, now);
    Elsewhere(db, Persisted(db, m, user, chunk, now), m, chunk.sequence, other, sizes, marked);
  }

  lemma MarkElsewhere(db: Db, m: string, sequence: nat, at: Timestamp, now: Timestamp,
                      other: string, sizes: seq<nat>, marked: set<nat>)
    requires Represents(db, other, sizes, marked) && other != m
    ensures Represents(MarkedUploaded(db, m, sequence, at, now), other, sizes, marked)
  {
    MarkKeepsKeyed(db, m, sequence, at, now);
    Elsewhere(db, MarkedUploaded(db, m, sequence, at, now), m, sequence, other, sizes, marked);
  }

  /** A transaction that writes sessions only leaves the chunks of every meeting. */
  lemma SessionsOnly(a: Db, b: Db, m: string, sizes: seq<nat>, marked: set<nat>)
    requires Represents(a, m, sizes, marked) && b.chunks == a.chunks && Keyed(b)
    ensures Represents(b, m, sizes, marked)
  {
    assert Column(b, m, |sizes|) == Column(a, m, |sizes|);
  }
}
