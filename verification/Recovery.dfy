/**
 The recorder's chunk numbering (src/hooks/use-stable-recorder.ts:285-345) and the recovery
 of a recording from the browser store (src/components/meeting-recorder.tsx:295-310).
 */
module Recovery {
  import opened Text
  import opened BrowserRecordingStore

  function Join(blobs: seq<Bytes>): Bytes {
    if blobs == [] then [] else Join(blobs[..|blobs| - 1]) + blobs[|blobs| - 1]
  }

  /** The chunks a recorder has emitted: numbered 1, 2, 3, ... without gaps, none empty. */
  predicate GapFree(emitted: seq<RecordedChunk>) {
    forall i :: 0 <= i < |emitted| ==> emitted[i].sequence == i + 1 && emitted[i].blob != []
  }

  function Blobs(emitted: seq<RecordedChunk>): seq<Bytes> {
    seq(|emitted|, i requires 0 <= i < |emitted| => emitted[i].blob)
  }

  class StableRecorder {
    var chunks: seq<Bytes>
    var chunkSequence: nat
    var bytes: nat
    var audio: Option<Bytes>
    /** What the `onChunk` callback received since the start. */
    var emitted: seq<RecordedChunk>

    ghost predicate Valid() reads this {
      && chunkSequence == |emitted|
      && GapFree(emitted)
      && chunks == Blobs(emitted)
      && bytes == |Join(chunks)|
    }

    constructor ()
      ensures Valid() && emitted == []
    {
      chunks, chunkSequence, bytes, audio, emitted := [], 0, 0, None, [];
    }

    method Start()
      modifies this
      ensures Valid() && emitted == [] && audio == None
    {
      chunks, chunkSequence, bytes, audio, emitted := [], 0, 0, None, [];
    }

    method OnDataAvailable(data: Bytes, mimeType: string, now: int)
      requires Valid()
      modifies this
      ensures Valid() && audio == old(audio)
      ensures emitted == if data == [] then old(emitted)
                         else old(emitted) + [RecordedChunk(data, |old(emitted)| + 1, mimeType, now, 1000)]
    {
      if |data| <= 0 { return; }
      chunkSequence := chunkSequence + 1;
      chunks := chunks + [data];
      assert chunks[..|chunks| - 1] == old(chunks);
      bytes := bytes + |data|;
      emitted := emitted + [RecordedChunk(data, chunkSequence, mimeType, now, 1000)];
    }

    method OnStop()
      requires Valid()
      modifies this`audio
      ensures Valid() && audio == Some(Join(Blobs(emitted)))
    {
      audio := Some(Join(chunks));
    }
  }

  // ----- Store traffic while a meeting is recorded -----

  datatype Op =
    | Begin(meetingId: string, user: string, title: Option<string>, now: Timestamp)
    | Persist(meetingId: string, user: string, chunk: RecordedChunk, now: Timestamp)
    | Mark(meetingId: string, sequence: nat, uploadedAt: Timestamp, now: Timestamp)
    | SetStatus(meetingId: string, status: Status, now: Timestamp)
    | Delete(meetings: set<string>)

  function Apply(db: Db, op: Op): Db {
    match op
    case Begin(m, user, title, now) => Began(db, m, user, title, now)
    case Persist(m, user, chunk, now) => Persisted(db, m, user, chunk, now)
    case Mark(m, sequence, at, now) => MarkedUploaded(db, m, sequence, at, now)
    case SetStatus(m, status, now) => WithStatus(db, m, status, now)
    case Delete(meetings) => Without(db, meetings)
  }

  function Run(db: Db, ops: seq<Op>): Db {
    if ops == [] then db else Apply(Run(db, ops[..|ops| - 1]), ops[|ops| - 1])
  }

  /** Traffic that stores for `m` only chunks of its recording, in any order and as often as it likes, and never deletes `m`. */
  predicate Faithful(ops: seq<Op>, m: string, emitted: seq<RecordedChunk>) {
    forall i :: 0 <= i < |ops| ==>
      && (ops[i].Persist? && ops[i].meetingId == m ==> ops[i].chunk in emitted)
      && (ops[i].Delete? ==> m !in ops[i].meetings)
  }

  /** Everything stored for `m` is a chunk of the recording. */
  predicate Holds(db: Db, m: string, emitted: seq<RecordedChunk>) {
    forall id :: id in db.chunks && db.chunks[id].meetingId == m ==>
      var c := db.chunks[id].chunk; c.sequence <= |emitted| && c == emitted[c.sequence - 1]
  }

  lemma ApplyKeepsSound(db: Db, op: Op)
    requires Sound(db)
    ensures Sound(Apply(db, op))
  {
    match op
    case Begin(m, user, title, now) => BeginKeepsSound(db, m, user, title, now);
    case Persist(m, user, chunk, now) => PersistKeepsSound(db, m, user, chunk, now);
    case Mark(m, sequence, at, now) => MarkKeepsSound(db, m, sequence, at, now);
    case SetStatus(m, status, now) => StatusKeepsSound(db, m, status, now);
    case Delete(meetings) => DeletionKeepsSound(db, meetings);
  }

  /** The store invariant holds after any traffic: counters, keys and sessions of every meeting agree with the chunks. */
  lemma {:induction false} TrafficKeepsSound(ops: seq<Op>)
    ensures Sound(Run(Db(map[], map[]), ops))
  {
    if ops != [] {
      TrafficKeepsSound(ops[..|ops| - 1]);
      ApplyKeepsSound(Run(Db(map[], map[]), ops[..|ops| - 1]), ops[|ops| - 1]);
    }
  }

  lemma ApplyKeepsChunks(db: Db, op: Op, m: string, i: nat)
    requires Keyed(db) && (op.Delete? ==> m !in op.meetings) && ChunkId(m, i) in db.chunks
    ensures ChunkId(m, i) in Apply(db, op).chunks
  {
    KeyTells(db, m, i);
  }

  lemma PersistKeepsHolds(db: Db, m: string, emitted: seq<RecordedChunk>, other: string, user: string, chunk: RecordedChunk,
                          now: Timestamp)
    requires Holds(db, m, emitted) && GapFree(emitted) && (other == m ==> chunk in emitted)
    ensures Holds(Persisted(db, other, user, chunk, now), m, emitted)
  {
    if other == m {
      var i :| 0 <= i < |emitted| && emitted[i] == chunk;
    }
  }

  /** The other operations store no chunk that was not there. */
  lemma OthersStoreNothing(db: Db, op: Op, id: string)
    requires !op.Persist? && id in Apply(db, op).chunks
    ensures id in db.chunks && Apply(db, op).chunks[id].chunk == db.chunks[id].chunk
    ensures Apply(db, op).chunks[id].meetingId == db.chunks[id].meetingId
  {}

  lemma ApplyKeepsHolds(db: Db, op: Op, m: string, emitted: seq<RecordedChunk>)
    requires Keyed(db) && Holds(db, m, emitted) && GapFree(emitted) && Faithful([op], m, emitted)
    ensures Holds(Apply(db, op), m, emitted)
    ensures forall i :: ChunkId(m, i) in db.chunks ==> ChunkId(m, i) in Apply(db, op).chunks
  {
    assert [op][0] == op;
    forall i | ChunkId(m, i) in db.chunks ensures ChunkId(m, i) in Apply(db, op).chunks {
      ApplyKeepsChunks(db, op, m, i);
    }
    if op.Persist? {
      PersistKeepsHolds(db, m, emitted, op.meetingId, op.user, op.chunk, op.now);
    } else {
      var after := Apply(db, op);
      forall id | id in after.chunks && after.chunks[id].meetingId == m
        ensures var c := after.chunks[id].chunk; c.sequence <= |emitted| && c == emitted[c.sequence - 1]
      {
        OthersStoreNothing(db, op, id);
      }
    }
  }

  lemma {:induction false} RunHolds(db: Db, ops: seq<Op>, m: string, emitted: seq<RecordedChunk>)
    requires Sound(db) && Holds(db, m, emitted) && GapFree(emitted) && Faithful(ops, m, emitted)
    ensures Sound(Run(db, ops)) && Holds(Run(db, ops), m, emitted)
    ensures forall i :: 0 <= i < |ops| && ops[i].Persist? && ops[i].meetingId == m ==>
              ChunkId(m, ops[i].chunk.sequence) in Run(db, ops).chunks
  {
    if ops != [] {
      var init, last := ops[..|ops| - 1], ops[|ops| - 1];
      RunHolds(db, init, m, emitted);
      ApplyKeepsSound(Run(db, init), last);
      assert Faithful([last], m, emitted);
      ApplyKeepsHolds(Run(db, init), last, m, emitted);
      forall i | 0 <= i < |ops| && ops[i].Persist? && ops[i].meetingId == m
        ensures ChunkId(m, ops[i].chunk.sequence) in Run(db, ops).chunks
      {
        if i < |ops| - 1 { assert init[i] == ops[i]; }
      }
    }
  }

  function ChunksOf(stored: seq<Stored>): seq<RecordedChunk> {
    seq(|stored|, i requires 0 <= i < |stored| => stored[i].chunk)
  }

  lemma StoredIs(db: Db, m: string, emitted: seq<RecordedChunk>, n: nat)
    requires Keyed(db) && Holds(db, m, emitted) && 1 <= n <= |emitted| && ChunkId(m, n) in db.chunks
    ensures db.chunks[ChunkId(m, n)].chunk == emitted[n - 1]
  {
    KeyTells(db, m, n);
  }

  lemma FullColumn(db: Db, m: string, emitted: seq<RecordedChunk>)
    requires Keyed(db) && Holds(db, m, emitted)
    requires forall i :: 1 <= i <= |emitted| ==> ChunkId(m, i) in db.chunks
    ensures ChunksOf(Present(Column(db, m, |emitted|))) == emitted
  {
    var column := Column(db, m, |emitted|);
    forall i | 0 <= i < |emitted|
      ensures column[i].Some? && column[i].value.chunk == emitted[i]
    {
      StoredIs(db, m, emitted, i + 1);
    }
    PresentFull(column);
  }

  lemma AllStored(db: Db, ops: seq<Op>, m: string, emitted: seq<RecordedChunk>, end: Db)
    requires GapFree(emitted)
    requires forall c :: c in emitted ==> exists i :: 0 <= i < |ops| && ops[i].Persist? && ops[i].meetingId == m && ops[i].chunk == c
    requires forall i :: 0 <= i < |ops| && ops[i].Persist? && ops[i].meetingId == m ==> ChunkId(m, ops[i].chunk.sequence) in end.chunks
    ensures forall i :: 1 <= i <= |emitted| ==> ChunkId(m, i) in end.chunks
  {
    forall i | 1 <= i <= |emitted| ensures ChunkId(m, i) in end.chunks {
      assert emitted[i - 1] in emitted;
      var k :| 0 <= k < |ops| && ops[k].Persist? && ops[k].meetingId == m && ops[k].chunk == emitted[i - 1];
    }
  }

  lemma HighestIsLast(db: Db, m: string, emitted: seq<RecordedChunk>)
    requires Sound(db) && Holds(db, m, emitted) && emitted != [] && ChunkId(m, |emitted|) in db.chunks
    ensures m in db.sessions && db.sessions[m].totalChunks == |emitted|
  {
    KeyTells(db, m, |emitted|);
    TopHolds(db, m);
    TopUnique(db, m, db.sessions[m].totalChunks, |emitted|);
  }

  /**
   Recovery rebuilds the recording: once every emitted chunk was stored, in whatever order,
   however often, and mixed with any traffic of other meetings, a load returns the recorder's
   chunks in order, and joining them gives the recorder's own audio.
   */
  lemma RecoveryRebuildsRecording(db: Db, ops: seq<Op>, m: string, emitted: seq<RecordedChunk>)
    requires Sound(db) && m !in db.sessions
    requires GapFree(emitted) && emitted != [] && Faithful(ops, m, emitted)
    requires forall c :: c in emitted ==> exists i :: 0 <= i < |ops| && ops[i].Persist? && ops[i].meetingId == m && ops[i].chunk == c
    ensures var loaded := Loaded(Run(db, ops), m);
            loaded.Some? && ChunksOf(loaded.value.1) == emitted && Join(Blobs(ChunksOf(loaded.value.1))) == Join(Blobs(emitted))
  {
    assert Holds(db, m, emitted);
    RunHolds(db, ops, m, emitted);
    var end := Run(db, ops);
    AllStored(db, ops, m, emitted, end);
    HighestIsLast(end, m, emitted);
    FullColumn(end, m, emitted);
  }
}
