/**
 What is recorded is what is stored and recovered: the recorder's chunks go through the component to the store, and
 whatever else the page does meanwhile, a page that loads later joins the recorder's own audio
 (src/hooks/use-stable-recorder.ts:298-343, src/components/meeting-recorder.tsx:174-194, 297-310).
 */
module RecordedAudio {
  import opened Text
  import Store = BrowserRecordingStore
  import R = Recovery
  import opened ChunkUploadClient
  import opened RecorderPage
  import P = UploadProtocol
  import U = UploadPage

  /** The meeting's stored chunks are exactly the emitted ones. */
  ghost predicate Audio(db: Store.Db, m: string, emitted: seq<Store.RecordedChunk>) {
    && R.GapFree(emitted) && Store.TopIs(db, m, |emitted|)
    && forall i :: 0 <= i < |emitted| ==> HasChunk(db, m, emitted[i])
  }

  lemma AudioAt(db: Store.Db, m: string, emitted: seq<Store.RecordedChunk>, id: string)
    requires Audio(db, m, emitted) && Store.Keyed(db) && id in db.chunks && db.chunks[id].meetingId == m
    ensures var c := db.chunks[id].chunk; c.sequence <= |emitted| && c == emitted[c.sequence - 1]
  {
    assert HasChunk(db, m, emitted[db.chunks[id].chunk.sequence - 1]);
  }

  lemma AudioIsAll(db: Store.Db, m: string, emitted: seq<Store.RecordedChunk>)
    requires Audio(db, m, emitted) && Store.Keyed(db)
    ensures R.Holds(db, m, emitted)
  {
    forall id | id in db.chunks && db.chunks[id].meetingId == m
      ensures var c := db.chunks[id].chunk; c.sequence <= |emitted| && c == emitted[c.sequence - 1]
    {
      AudioAt(db, m, emitted, id);
    }
  }

  /** Joining what is loaded gives the emitted audio. */
  lemma AudioIsRead(db: Store.Db, m: string, emitted: seq<Store.RecordedChunk>)
    requires Audio(db, m, emitted) && Store.Sound(db)
    ensures AudioOf(db, m) == R.Join(R.Blobs(emitted))
  {
    AudioIsAll(db, m, emitted);
    if emitted == [] {
      Store.TopHolds(db, m);
      Store.TopUnique(db, m, Store.TopOf(db, m), 0);
    } else {
      assert HasChunk(db, m, emitted[|emitted| - 1]);
      forall i | 1 <= i <= |emitted| ensures Store.ChunkId(m, i) in db.chunks { assert HasChunk(db, m, emitted[i - 1]); }
      R.HighestIsLast(db, m, emitted);
      R.FullColumn(db, m, emitted);
    }
  }

  lemma AudioStays(before: Store.Db, after: Store.Db, m: string, emitted: seq<Store.RecordedChunk>)
    requires Audio(before, m, emitted) && SameAudio(before, after)
    ensures Audio(after, m, emitted)
  {
    forall i | 0 <= i < |emitted| ensures HasChunk(after, m, emitted[i]) { assert HasChunk(before, m, emitted[i]); }
    if emitted != [] { assert HasChunk(before, m, emitted[|emitted| - 1]); }
  }

  lemma OtherChunkStays(before: Store.Db, after: Store.Db, m: string, chunk: Store.RecordedChunk, c: Store.RecordedChunk)
    requires Store.ChunkStored(before, after, m, chunk) && HasChunk(before, m, c) && c.sequence != chunk.sequence
    ensures HasChunk(after, m, c)
  {
    var other := Store.ChunkId(m, c.sequence);
    Store.KeysApart(m, c.sequence, m, chunk.sequence);
    assert Store.Find(after.chunks, other) == Store.Find(before.chunks, other);
  }

  lemma TopGrows(before: Store.Db, after: Store.Db, m: string, n: nat, chunk: Store.RecordedChunk)
    requires Store.TopIs(before, m, n) && Store.ChunkStored(before, after, m, chunk) && chunk.sequence == n + 1
    ensures Store.TopIs(after, m, n + 1)
  {
    forall other | other in after.chunks && after.chunks[other].meetingId == m
      ensures after.chunks[other].chunk.sequence <= n + 1
    {
      if other != Store.ChunkId(m, chunk.sequence) {
        assert Store.Find(after.chunks, other) == Store.Find(before.chunks, other);
      }
    }
  }

  lemma AudioGrows(before: Store.Db, after: Store.Db, m: string, emitted: seq<Store.RecordedChunk>, chunk: Store.RecordedChunk)
    requires Audio(before, m, emitted) && Store.ChunkStored(before, after, m, chunk)
    requires chunk.sequence == |emitted| + 1 && chunk.blob != []
    ensures Audio(after, m, emitted + [chunk])
  {
    var longer := emitted + [chunk];
    TopGrows(before, after, m, |emitted|, chunk);
    forall i | 0 <= i < |longer| ensures HasChunk(after, m, longer[i]) {
      if i < |emitted| { OtherChunkStays(before, after, m, chunk, emitted[i]); }
    }
  }

  /**
   Whichever request of each chunk the server took, joining what they carry gives the recorder's audio: of all requests
   that were started for the meeting, any choice of one for each number from 1 to the last.
   */
  lemma TakenIsRecorded(db: Store.Db, uploads: seq<Upload>, m: string, emitted: seq<Store.RecordedChunk>, taken: seq<Upload>)
    requires Carries(db, uploads) && Audio(db, m, emitted) && |taken| == |emitted|
    requires forall i :: 0 <= i < |taken| ==> taken[i] in uploads && taken[i].meeting == m && taken[i].chunk.sequence == i + 1
    ensures R.Join(seq(|taken|, i requires 0 <= i < |taken| => taken[i].chunk.blob)) == R.Join(R.Blobs(emitted))
  {
    forall i | 0 <= i < |taken| ensures taken[i].chunk == emitted[i] {
      var k :| 0 <= k < |uploads| && uploads[k] == taken[i];
      assert HasChunk(db, uploads[k].meeting, uploads[k].chunk) && HasChunk(db, m, emitted[i]);
    }
    assert seq(|taken|, i requires 0 <= i < |taken| => taken[i].chunk.blob) == R.Blobs(emitted);
  }

  // ----- What happens while a meeting is recorded -----

  datatype Input =
    | Data(data: Store.Bytes, mimeType: string, at: int, now: Store.Timestamp)           // the recorder emits
    | Settled(k: nat, sequence: nat, delivered: bool)                                    // an upload's promise settles
    | Concluded(k: nat, sequence: nat, ack: Option<Ack>, uploadedAt: Store.Timestamp, now: Store.Timestamp)
    | Entered(k: nat, list: seq<Store.RecordedChunk>)                                    // a resync begins
    | Turned(k: nat, todo: seq<Store.RecordedChunk>, ack: Option<Ack>, uploadedAt: Store.Timestamp, now: Store.Timestamp)
    | Unseen(k: nat, step: P.Step)                                                       // the server, a load

  function StepOf(p: U.Page, input: Input): U.Step {
    match input
    case Data(data, _, _, _) => U.Here(P.Record(|data|))
    case Settled(k, sequence, delivered) => StepAt(p, k, P.Settle(sequence, delivered))
    case Concluded(k, sequence, _, _, _) => StepAt(p, k, P.HandlerContinues(sequence))
    case Entered(k, _) => StepAt(p, k, P.Reset)
    case Turned(k, _, _, _, _) => StepAt(p, k, P.SyncContinues)
    case Unseen(k, step) => StepAt(p, k, step)
  }

  /** What the input says of the step is so. */
  predicate Tells(p: U.Page, input: Input) {
    match input
    case Data(data, _, _, _) => true
    case Settled(k, sequence, delivered) => Does(p, k, P.Settle(sequence, delivered), Closes(sequence))
    case Concluded(k, sequence, ack, _, _) => Does(p, k, P.HandlerContinues(sequence), Concludes(sequence, ack))
    case Entered(k, list) => Does(p, k, P.Reset, Enters(Numbers(list)))
    case Turned(k, todo, ack, _, _) =>
      todo != [] && Does(p, k, P.SyncContinues, Turns(todo[0].sequence, ack, Numbers(todo[1..])))
    case Unseen(k, step) => Does(p, k, step, Nothing)
  }

  /** Empty data is ignored. */
  predicate Ignored(input: Input) { input.Data? && input.data == [] }

  /** The page can do this now. */
  predicate Fits(p: U.Page, input: Input) { Ignored(input) || (U.Enabled(p, StepOf(p, input)) && Tells(p, input)) }

  function Next(p: U.Page, input: Input): U.Page
    requires Fits(p, input)
  {
    if Ignored(input) then p else U.Apply(p, StepOf(p, input))
  }

  predicate FitsAll(p: U.Page, inputs: seq<Input>)
    decreases |inputs|
  {
    inputs == [] || (Fits(p, inputs[0]) && FitsAll(Next(p, inputs[0]), inputs[1..]))
  }

  function After(p: U.Page, inputs: seq<Input>): U.Page
    requires FitsAll(p, inputs)
    decreases |inputs|
  {
    if inputs == [] then p else After(Next(p, inputs[0]), inputs[1..])
  }

  lemma NextIsStored(p: U.Page, input: Input)
    requires U.AllStored(p) && Fits(p, input)
    ensures U.AllStored(Next(p, input))
  {
    if !Ignored(input) { U.StepKeepsStored(p, StepOf(p, input)); }
  }

  /** The chunk that data becomes, if any. */
  function Emitted(emitted: seq<Store.RecordedChunk>, input: Input): seq<Store.RecordedChunk> {
    if input.Data? && input.data != []
    then emitted + [Store.RecordedChunk(input.data, |emitted| + 1, input.mimeType, input.at, 1000)]
    else emitted
  }

  /** The next number is the one the page counts on. */
  lemma NumberFits(page: RecorderPage, p: U.Page, ids: seq<string>, emitted: seq<Store.RecordedChunk>)
    requires page.Shows(p, ids) && Audio(page.store.View(), page.meeting, emitted)
    ensures |emitted| == |p.now.sizes|
  {
    var k := |p.others|;
    assert Chunks(page.store.View(), ids[k], Kept(p)[k]);
    Store.TopUnique(page.store.View(), page.meeting, |emitted|, |p.now.sizes|);
  }

  method HandleData(page: RecorderPage, recorder: R.StableRecorder, data: Store.Bytes, mimeType: string, at: int,
                    now: Store.Timestamp, ids: seq<string>, ghost p: U.Page)
    requires page.Shows(p, ids) && U.AllStored(p) && Fits(p, Data(data, mimeType, at, now))
    requires recorder.Valid() && Audio(page.store.View(), page.meeting, recorder.emitted)
    modifies page.store, page.refs, page`uploads, recorder
    ensures page.Shows(Next(p, Data(data, mimeType, at, now)), ids)
    ensures recorder.Valid() && recorder.emitted == Emitted(old(recorder.emitted), Data(data, mimeType, at, now))
    ensures Audio(page.store.View(), page.meeting, recorder.emitted)
  {
    NumberFits(page, p, ids, recorder.emitted);
    recorder.OnDataAvailable(data, mimeType, at);
    if |data| > 0 {
      var chunk := recorder.emitted[|recorder.emitted| - 1];
      TakeOver(page, chunk, now, ids, p, old(recorder.emitted));
    }
  }

  /** The callback of the recorder. */
  method TakeOver(page: RecorderPage, chunk: Store.RecordedChunk, now: Store.Timestamp, ghost ids: seq<string>, ghost p: U.Page,
                  ghost emitted: seq<Store.RecordedChunk>)
    requires page.Shows(p, ids) && U.AllStored(p) && U.Enabled(p, U.Here(P.Record(|chunk.blob|)))
    requires Audio(page.store.View(), page.meeting, emitted) && chunk.sequence == |emitted| + 1 == |p.now.sizes| + 1
    requires chunk.blob != []
    modifies page.store, page.refs, page`uploads
    ensures page.Shows(U.Apply(p, U.Here(P.Record(|chunk.blob|))), ids)
    ensures Audio(page.store.View(), page.meeting, emitted + [chunk])
  {
    ghost var db := page.store.View();
    page.HandleAudioChunk(chunk, now, p, ids);
    AudioGrows(db, page.store.View(), page.meeting, emitted, chunk);
  }

  method HandleOutcome(page: RecorderPage, input: Input, ids: seq<string>, ghost p: U.Page, ghost emitted: seq<Store.RecordedChunk>)
    requires page.Shows(p, ids) && U.AllStored(p) && input.Concluded? && Tells(p, input)
    requires Audio(page.store.View(), page.meeting, emitted)
    modifies page.store, page.refs
    ensures page.Shows(U.Apply(p, StepOf(p, input)), ids) && Audio(page.store.View(), page.meeting, emitted)
  {
    ghost var db := page.store.View();
    page.Conclude(ids[input.k], input.sequence, input.ack, input.uploadedAt, input.now, p, ids, input.k);
    AudioStays(db, page.store.View(), page.meeting, emitted);
  }

  method HandleTurn(page: RecorderPage, input: Input, ids: seq<string>, ghost p: U.Page, ghost emitted: seq<Store.RecordedChunk>)
    requires page.Shows(p, ids) && U.AllStored(p) && input.Turned? && Tells(p, input)
    requires Audio(page.store.View(), page.meeting, emitted)
    modifies page.store, page.refs, page`uploads
    ensures page.Shows(U.Apply(p, StepOf(p, input)), ids) && Audio(page.store.View(), page.meeting, emitted)
  {
    ghost var db := page.store.View();
    page.NextTurn(ids[input.k], input.todo, input.ack, input.uploadedAt, input.now, p, ids, input.k);
    AudioStays(db, page.store.View(), page.meeting, emitted);
  }

  /** What touches the refs alone. */
  method HandleRefs(page: RecorderPage, input: Input, ids: seq<string>, ghost p: U.Page)
    requires page.Shows(p, ids) && U.AllStored(p) && Tells(p, input)
    requires input.Settled? || input.Entered? || input.Unseen?
    modifies page.refs, page`uploads
    ensures page.Shows(U.Apply(p, StepOf(p, input)), ids)
  {
    if input.Settled? {
      page.RequestSettled(ids[input.k], input.sequence, p, ids, input.k, input.delivered);
    } else if input.Entered? {
      page.ResetCounters(ids[input.k], input.list, p, ids, input.k);
    } else {
      page.Silent(p, ids, input.k, input.step);
    }
  }

  method HandleUpload(page: RecorderPage, input: Input, ids: seq<string>, ghost p: U.Page, ghost emitted: seq<Store.RecordedChunk>)
    requires page.Shows(p, ids) && U.AllStored(p) && Fits(p, input) && !input.Data?
    requires Audio(page.store.View(), page.meeting, emitted)
    modifies page.store, page.refs, page`uploads
    ensures page.Shows(U.Apply(p, StepOf(p, input)), ids) && Audio(page.store.View(), page.meeting, emitted)
  {
    if input.Concluded? {
      HandleOutcome(page, input, ids, p, emitted);
    } else if input.Turned? {
      HandleTurn(page, input, ids, p, emitted);
    } else {
      HandleRefs(page, input, ids, p);
    }
  }

  method Handle(page: RecorderPage, recorder: R.StableRecorder, input: Input, ids: seq<string>, ghost p: U.Page)
    requires page.Shows(p, ids) && U.AllStored(p) && Fits(p, input)
    requires recorder.Valid() && Audio(page.store.View(), page.meeting, recorder.emitted)
    modifies page.store, page.refs, page`uploads, recorder
    ensures page.Shows(Next(p, input), ids)
    ensures recorder.Valid() && recorder.emitted == Emitted(old(recorder.emitted), input)
    ensures Audio(page.store.View(), page.meeting, recorder.emitted)
  {
    if input.Data? {
      HandleData(page, recorder, input.data, input.mimeType, input.at, input.now, ids, p);
    } else {
      HandleUpload(page, input, ids, p, recorder.emitted);
    }
  }

  /** All bytes that the recorder was given. */
  function DataOf(inputs: seq<Input>): Store.Bytes {
    if inputs == [] then [] else (if inputs[0].Data? then inputs[0].data else []) + DataOf(inputs[1..])
  }

  lemma DataAfter(before: Store.Bytes, inputs: seq<Input>)
    ensures before + DataOf(inputs)
            == if inputs == [] then before
               else (before + if inputs[0].Data? then inputs[0].data else []) + DataOf(inputs[1..])
  {
    if inputs != [] {
      var first := if inputs[0].Data? then inputs[0].data else [];
      assert before + (first + DataOf(inputs[1..])) == (before + first) + DataOf(inputs[1..]);
    }
  }

  lemma EmittedBytes(emitted: seq<Store.RecordedChunk>, input: Input)
    ensures R.Join(R.Blobs(Emitted(emitted, input)))
            == R.Join(R.Blobs(emitted)) + if input.Data? then input.data else []
  {
    var after := Emitted(emitted, input);
    if |after| > |emitted| { assert R.Blobs(after)[..|emitted|] == R.Blobs(emitted); }
  }

  /** The page and the recorder at work on the meeting shown. */
  ghost predicate Working(page: RecorderPage, recorder: R.StableRecorder, ids: seq<string>, p: U.Page)
    reads page, page.store, page.refs, recorder
  {
    page.Shows(p, ids) && U.AllStored(p) && recorder.Valid() && Audio(page.store.View(), page.meeting, recorder.emitted)
  }

  method HandleOne(page: RecorderPage, recorder: R.StableRecorder, input: Input, ids: seq<string>, ghost p: U.Page)
    requires Working(page, recorder, ids, p) && Fits(p, input)
    modifies page.store, page.refs, page`uploads, recorder
    ensures Working(page, recorder, ids, Next(p, input))
    ensures R.Join(R.Blobs(recorder.emitted))
            == R.Join(R.Blobs(old(recorder.emitted))) + if input.Data? then input.data else []
  {
    NextIsStored(p, input);
    EmittedBytes(recorder.emitted, input);
    Handle(page, recorder, input, ids, p);
  }

  method HandleAll(page: RecorderPage, recorder: R.StableRecorder, inputs: seq<Input>, ids: seq<string>, ghost p: U.Page)
    requires Working(page, recorder, ids, p) && FitsAll(p, inputs)
    modifies page.store, page.refs, page`uploads, recorder
    ensures Working(page, recorder, ids, After(p, inputs))
    ensures R.Join(R.Blobs(recorder.emitted)) == R.Join(R.Blobs(old(recorder.emitted))) + DataOf(inputs)
    decreases |inputs|
  {
    DataAfter(R.Join(R.Blobs(recorder.emitted)), inputs);
    if |inputs| > 0 {
      HandleOne(page, recorder, inputs[0], ids, p);
      HandleAll(page, recorder, inputs[1..], ids, Next(p, inputs[0]));
    }
  }

  /** Whatever the page does meanwhile, the recorder's chunks are what is stored when it stops. */
  method Record(page: RecorderPage, recorder: R.StableRecorder, title: Option<string>, now: Store.Timestamp,
                inputs: seq<Input>, ids: seq<string>, ghost p: U.Page)
    requires page.Shows(p, ids) && U.AllStored(p) && U.Enabled(p, U.Begin) && FitsAll(U.Apply(p, U.Begin), inputs)
    modifies page.store, page.refs, page`uploads, recorder
    ensures var q := After(U.Apply(p, U.Begin), inputs); page.Shows(q, ids) && U.AllStored(q)
    ensures recorder.Valid() && R.Join(R.Blobs(recorder.emitted)) == DataOf(inputs) && recorder.audio == Some(DataOf(inputs))
    ensures Audio(page.store.View(), page.meeting, recorder.emitted)
  {
    recorder.Start();
    Start(page, title, now, ids, p);
    U.StepKeepsStored(p, U.Begin);
    HandleAll(page, recorder, inputs, ids, U.Apply(p, U.Begin));
    recorder.OnStop();
  }

  method Start(page: RecorderPage, title: Option<string>, now: Store.Timestamp, ghost ids: seq<string>, ghost p: U.Page)
    requires page.Shows(p, ids) && U.Enabled(p, U.Begin)
    modifies page.store, page.refs
    ensures page.Shows(U.Apply(p, U.Begin), ids) && Audio(page.store.View(), page.meeting, [])
  {
    assert Chunks(page.store.View(), ids[|p.others|], Kept(p)[|p.others|]);
    page.StartRecording(title, now, p, ids);
  }

  /**
   A recording from its start to its end, with whatever the page does meanwhile, then a page that loads and recovers it:
   the recovered audio is the recorder's own, every byte it was given in order.
   */
  method RecordAndRecover(page: RecorderPage, recorder: R.StableRecorder, title: Option<string>, now: Store.Timestamp,
                          inputs: seq<Input>, ids: seq<string>, ghost p: U.Page) returns (blob: Store.Bytes)
    requires page.Shows(p, ids) && U.AllStored(p) && U.Enabled(p, U.Begin) && FitsAll(U.Apply(p, U.Begin), inputs)
    requires After(U.Apply(p, U.Begin), inputs).now.up && After(U.Apply(p, U.Begin), inputs).now.sizes != []
    modifies page, page.store, page.refs, recorder
    ensures recorder.Valid() && recorder.audio == Some(blob) && blob == DataOf(inputs)
  {
    Record(page, recorder, title, now, inputs, ids, p);
    blob := Reload(page, now, ids, After(U.Apply(p, U.Begin), inputs), recorder.emitted);
  }

  lemma CrashedCanRecover(q: U.Page)
    requires U.AllStored(q) && q.now.up && q.now.sizes != []
    ensures U.AllStored(U.Apply(q, U.Crash)) && U.Enabled(U.Apply(q, U.Crash), U.Recover(None))
  {
    U.StepKeepsStored(q, U.Crash);
  }

  method Reload(page: RecorderPage, now: Store.Timestamp, ghost ids: seq<string>, ghost q: U.Page,
                ghost emitted: seq<Store.RecordedChunk>) returns (blob: Store.Bytes)
    requires page.Shows(q, ids) && U.AllStored(q) && q.now.up && q.now.sizes != []
    requires Audio(page.store.View(), page.meeting, emitted)
    modifies page, page.store, page.refs
    ensures blob == R.Join(R.Blobs(emitted))
  {
    AudioIsRead(page.store.View(), page.meeting, emitted);
    CrashedCanRecover(q);
    page.LoadPage(q, ids);
    blob := RecoverLast(page, now, ids, U.Apply(q, U.Crash));
  }

  method RecoverLast(page: RecorderPage, now: Store.Timestamp, ghost ids: seq<string>, ghost p: U.Page) returns (blob: Store.Bytes)
    requires page.Shows(p, ids) && U.AllStored(p) && U.Enabled(p, U.Recover(None))
    requires forall m :: page.refs.View(m) == FreshClient && page.refs.Open(m) == {}
    modifies page`meeting, page.store, page.refs
    ensures blob == AudioOf(old(page.store.View()), old(page.meeting))
  {
    blob := page.Recover(page.meeting, now, p, ids, None);
  }
}
