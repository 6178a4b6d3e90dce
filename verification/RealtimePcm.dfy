/**
 Re-cutting of microphone buffers into fixed-size realtime chunks
 (apps/mobile/App.tsx:237-239, 1947-2019).

 `PcmBuffer` is the component's queue of buffers, its byte counter and the chunks it has
 handed on, updated in place.  `State` is what those fields mean: the queued bytes and the
 emitted chunks.  The reference semantics is `Reference`, which knows nothing of queues:
 it concatenates the bytes heard between two flushes and cuts the result into blocks.
 */
module RealtimePcm {
  import opened Text

  type Bytes = seq<bv8>

  const CHUNK_TARGET_MS: nat := 10000
  const CHUNK_TARGET_BYTES: nat := 320000
  const FLUSH_SAMPLE_RATE: nat := 16000
  const FLUSH_CHANNELS: nat := 1

  datatype Chunk = Chunk(bytes: Bytes, sampleRate: nat, channels: nat, durationMs: nat)

  function Zeros(n: nat): Bytes { seq(n, _ => 0) }

  function Flatten(parts: seq<Bytes>): Bytes {
    if parts == [] then [] else parts[0] + Flatten(parts[1..])
  }

  ghost predicate NoEmpty(parts: seq<Bytes>) {
    forall i :: 0 <= i < |parts| ==> parts[i] != []
  }

  /** The full blocks of a byte stream, in order. */
  function FullBlocks(s: Bytes): seq<Bytes> {
    if |s| < CHUNK_TARGET_BYTES then []
    else [s[..CHUNK_TARGET_BYTES]] + FullBlocks(s[CHUNK_TARGET_BYTES..])
  }

  /** What is left of a byte stream after its full blocks. */
  function Remainder(s: Bytes): Bytes {
    if |s| < CHUNK_TARGET_BYTES then s else Remainder(s[CHUNK_TARGET_BYTES..])
  }

  /** Milliseconds reported for a flushed chunk: half-up rounding of `bytes / 32`, at least one. */
  function FlushMs(byteCount: nat): nat {
    Max(1, (byteCount + 16) / 32)
  }

  /** Among all durations of at least a millisecond it is the nearest to the audio's own, the longer one of two. */
  lemma FlushMsIsNearest(byteCount: nat, ms: nat)
    requires byteCount > 0 && ms >= 1
    ensures FlushMs(byteCount) >= 1
    ensures Apart(32 * FlushMs(byteCount), byteCount) <= Apart(32 * ms, byteCount)
    ensures Apart(32 * FlushMs(byteCount), byteCount) == Apart(32 * ms, byteCount) ==> ms <= FlushMs(byteCount)
  {
  }

  function Apart(a: int, b: int): nat { if a < b then b - a else a - b }

  function Stamp(blocks: seq<Bytes>, sampleRate: nat, channels: nat): seq<Chunk> {
    seq(|blocks|, i requires 0 <= i < |blocks| => Chunk(blocks[i], sampleRate, channels, CHUNK_TARGET_MS))
  }

  datatype State = State(queued: Bytes, emitted: seq<Chunk>)

  function Accumulated(st: State, data: Bytes, sampleRate: nat, channels: nat): State {
    var stream := st.queued + data;
    State(Remainder(stream), st.emitted + Stamp(FullBlocks(stream), sampleRate, channels))
  }

  function Flushed(st: State): State {
    if st.queued == [] then st
    else State([], st.emitted + [Chunk(st.queued, FLUSH_SAMPLE_RATE, FLUSH_CHANNELS, FlushMs(|st.queued|))])
  }

  function Dropped(st: State): State { State([], st.emitted) }

  /** `s` with `data` written over it from `offset` on. */
  function Overwritten(s: Bytes, data: Bytes, offset: nat): Bytes
    requires offset + |data| <= |s|
  {
    s[..offset] + data + s[offset + |data|..]
  }

  class PcmBuffer {
    var pending: seq<Bytes>
    var pendingBytes: int
    var emitted: seq<Chunk>

    ghost predicate Valid() reads this {
      && pendingBytes == |Flatten(pending)|
      && |Flatten(pending)| < CHUNK_TARGET_BYTES
      && NoEmpty(pending)
    }

    ghost function View(): State reads this { State(Flatten(pending), emitted) }

    constructor ()
      ensures Valid() && View() == State([], [])
    {
      pending, pendingBytes, emitted := [], 0, [];
    }

    /** Reset of the queue; a failed realtime upload drops the queue the same way. */
    method Drop()
      modifies this
      ensures Valid() && View() == Dropped(old(View()))
    {
      pendingBytes := 0;
      pending := [];
    }

    /** `output.set(data, offset)`. */
    static method Set(output: array<bv8>, data: Bytes, offset: nat)
      requires offset + |data| <= output.Length
      modifies output
      ensures output[..] == Overwritten(old(output[..]), data, offset)
    {
      forall i | 0 <= i < |data| { output[offset + i] := data[i]; }
    }

    /** Takes `take` bytes off the first buffer, which goes when it is used up. */
    method Shift(take: nat)
      requires pending != [] && take <= |pending[0]|
      modifies this`pending
      ensures pending == Advanced(old(pending), take)
    {
      if take == |pending[0]| {
        pending := pending[1..];
      } else {
        pending := pending[0 := pending[0][take..]];
      }
    }

    /** Takes `byteLength` bytes off the front of the queue; bytes the queue does not hold stay zero. */
    method Take(byteLength: nat) returns (bytes: Bytes)
      modifies this`pending, this`pendingBytes
      ensures var held := Flatten(old(pending)); var n := Min(byteLength, |held|);
              && bytes == held[..n] + Zeros(byteLength - n)
              && Flatten(pending) == held[n..]
              && pendingBytes == Max(0, old(pendingBytes) - n)
      ensures old(NoEmpty(pending)) ==> NoEmpty(pending)
    {
      ghost var held, full := Flatten(pending), NoEmpty(pending);
      ghost var moved: Bytes := [];
      var output := new bv8[byteLength](_ => 0);
      var offset := 0;
      assert output[..] == [] + Zeros(byteLength);
      while offset < byteLength && |pending| > 0
        invariant |moved| == offset <= byteLength
        invariant output[..] == moved + Zeros(byteLength - offset)
        invariant moved + Flatten(pending) == held
        invariant full ==> NoEmpty(pending)
        invariant pendingBytes == old(pendingBytes)
        decreases |pending| + (byteLength - offset)
      {
        var take := Min(byteLength - offset, |pending[0]|);
        var next := pending[0][..take];
        TakeStep(moved, pending, take, byteLength - offset);
        Set(output, next, offset);
        moved := moved + next;
        offset := offset + take;
        Shift(take);
      }
      assert |pending| == 0 ==> Flatten(pending) == [];
      TakenIs(moved, Flatten(pending), held, byteLength);
      pendingBytes := Max(0, pendingBytes - offset);
      bytes := output[..];
    }

    method Append(bytes: Bytes, sampleRate: nat, channels: nat, durationMs: nat)
      modifies this`emitted
      ensures emitted == if bytes == [] then old(emitted)
                         else old(emitted) + [Chunk(bytes, sampleRate, channels, durationMs)]
    {
      if |bytes| <= 0 { return; }
      emitted := emitted + [Chunk(bytes, sampleRate, channels, durationMs)];
    }

    method Accumulate(data: Bytes, sampleRate: nat, channels: nat)
      requires Valid()
      modifies this
      ensures Valid() && View() == Accumulated(old(View()), data, sampleRate, channels)
      ensures old(emitted) <= emitted
      ensures forall k :: |old(emitted)| <= k < |emitted| ==>
                && emitted[k].sampleRate == sampleRate && emitted[k].channels == channels
                && emitted[k].durationMs == 10000 && |emitted[k].bytes| == 320000
    {
      ghost var stream := Flatten(pending) + data;
      if |data| <= 0 {
        assert stream == Flatten(pending);
        return;
      }
      CutRebuildsStream(stream);
      FlattenAppend(pending, data);
      pending := pending + [data];
      pendingBytes := pendingBytes + |data|;
      while pendingBytes >= CHUNK_TARGET_BYTES
        invariant pendingBytes == |Flatten(pending)| && NoEmpty(pending)
        invariant Remainder(Flatten(pending)) == Remainder(stream)
        invariant emitted + Stamp(FullBlocks(Flatten(pending)), sampleRate, channels)
               == old(emitted) + Stamp(FullBlocks(stream), sampleRate, channels)
        decreases pendingBytes
      {
        ghost var held := Flatten(pending);
        AccumulateStep(emitted, held, sampleRate, channels);
        var chunkBytes := Take(CHUNK_TARGET_BYTES);
        assert chunkBytes == held[..CHUNK_TARGET_BYTES];
        Append(chunkBytes, sampleRate, channels, CHUNK_TARGET_MS);
      }
    }

    method Flush()
      requires Valid()
      modifies this
      ensures Valid() && View() == Flushed(old(View()))
      ensures Flatten(pending) == []
      ensures emitted == if old(Flatten(pending)) == [] then old(emitted)
                         else old(emitted) + [Chunk(old(Flatten(pending)), 16000, 1, FlushMs(|old(Flatten(pending))|))]
    {
      var count := pendingBytes;
      if count <= 0 { return; }
      var chunkBytes := Take(count);
      assert chunkBytes == old(Flatten(pending));
      Append(chunkBytes, FLUSH_SAMPLE_RATE, FLUSH_CHANNELS, Max(1, (count + 16) / 32));
    }
  }

  /** The queue without the first `take` bytes of its first buffer. */
  function Advanced(pending: seq<Bytes>, take: nat): seq<Bytes>
    requires pending != [] && take <= |pending[0]|
  {
    if take == |pending[0]| then pending[1..] else pending[0 := pending[0][take..]]
  }

  lemma AdvancedIs(pending: seq<Bytes>, take: nat)
    requires pending != [] && take <= |pending[0]|
    ensures Flatten(pending) == pending[0][..take] + Flatten(Advanced(pending, take))
    ensures NoEmpty(pending) ==> NoEmpty(Advanced(pending, take))
  {
    var next, rest, left := pending[0], Flatten(pending[1..]), Advanced(pending, take);
    assert next == next[..take] + next[take..];
    if take < |next| { assert left[0] == next[take..] && left[1..] == pending[1..]; }
    assert Flatten(left) == next[take..] + rest;
    assert next + rest == next[..take] + (next[take..] + rest);
  }

  /** One turn of the take loop: `take` bytes go over the first of the zeros, and off the queue. */
  lemma TakeStep(moved: Bytes, pending: seq<Bytes>, take: nat, zeros: nat)
    requires pending != [] && take <= |pending[0]| && take <= zeros
    ensures (moved + pending[0][..take]) + Flatten(Advanced(pending, take)) == moved + Flatten(pending)
    ensures NoEmpty(pending) ==> NoEmpty(Advanced(pending, take))
    ensures Overwritten(moved + Zeros(zeros), pending[0][..take], |moved|)
            == (moved + pending[0][..take]) + Zeros(zeros - take)
  {
    AdvancedIs(pending, take);
    FillZeros(moved, pending[0][..take], zeros);
  }

  lemma FillZeros(moved: Bytes, data: Bytes, zeros: nat)
    requires |data| <= zeros
    ensures Overwritten(moved + Zeros(zeros), data, |moved|) == (moved + data) + Zeros(zeros - |data|)
  {
  }

  /** What was moved and what is left, by the lengths alone. */
  lemma TakenIs(moved: Bytes, left: Bytes, held: Bytes, byteLength: nat)
    requires moved + left == held && |moved| <= byteLength && (|moved| == byteLength || left == [])
    ensures var n := Min(byteLength, |held|); n == |moved| && moved == held[..n] && left == held[n..]
  {
  }

  lemma {:induction false} FlattenAppend(parts: seq<Bytes>, last: Bytes)
    ensures Flatten(parts + [last]) == Flatten(parts) + last
  {
    if parts == [] {
    } else {
      assert (parts + [last])[1..] == parts[1..] + [last];
      FlattenAppend(parts[1..], last);
    }
  }

  lemma {:induction false} FlattenConcat(a: seq<Bytes>, b: seq<Bytes>)
    ensures Flatten(a + b) == Flatten(a) + Flatten(b)
  {
    if a == [] {
      assert a + b == b;
    } else {
      assert (a + b)[1..] == a[1..] + b;
      FlattenConcat(a[1..], b);
    }
  }

  lemma StampCons(block: Bytes, rest: seq<Bytes>, sampleRate: nat, channels: nat)
    ensures Stamp([block] + rest, sampleRate, channels)
         == [Chunk(block, sampleRate, channels, CHUNK_TARGET_MS)] + Stamp(rest, sampleRate, channels)
  {
  }

  lemma AccumulateStep(emitted: seq<Chunk>, held: Bytes, sampleRate: nat, channels: nat)
    requires |held| >= CHUNK_TARGET_BYTES
    ensures var bytes, left := held[..CHUNK_TARGET_BYTES], held[CHUNK_TARGET_BYTES..];
            && Remainder(left) == Remainder(held)
            && emitted + Stamp(FullBlocks(held), sampleRate, channels)
               == (emitted + [Chunk(bytes, sampleRate, channels, CHUNK_TARGET_MS)])
                  + Stamp(FullBlocks(left), sampleRate, channels)
  {
    var bytes, more := held[..CHUNK_TARGET_BYTES], FullBlocks(held[CHUNK_TARGET_BYTES..]);
    assert FullBlocks(held) == [bytes] + more;
    StampCons(bytes, more, sampleRate, channels);
    EmitFirst(emitted, Chunk(bytes, sampleRate, channels, CHUNK_TARGET_MS), Stamp(more, sampleRate, channels));
  }

  lemma EmitFirst(emitted: seq<Chunk>, first: Chunk, rest: seq<Chunk>)
    ensures emitted + ([first] + rest) == (emitted + [first]) + rest
  {
  }

  // ----- The cut of a stream is canonical -----

  /** Blocks and remainder rebuild the stream, every block is full, and the remainder is shorter than one. */
  lemma {:induction false} CutRebuildsStream(s: Bytes)
    ensures Flatten(FullBlocks(s)) + Remainder(s) == s
    ensures |Remainder(s)| < CHUNK_TARGET_BYTES
    ensures forall i :: 0 <= i < |FullBlocks(s)| ==> |FullBlocks(s)[i]| == CHUNK_TARGET_BYTES
  {
    if |s| >= CHUNK_TARGET_BYTES {
      CutRebuildsStream(s[CHUNK_TARGET_BYTES..]);
    }
  }

  /** There is no other way to cut the stream into full blocks and a shorter rest. */
  lemma {:induction false} CutIsUnique(blocks: seq<Bytes>, rest: Bytes)
    requires forall i :: 0 <= i < |blocks| ==> |blocks[i]| == CHUNK_TARGET_BYTES
    requires |rest| < CHUNK_TARGET_BYTES
    ensures FullBlocks(Flatten(blocks) + rest) == blocks
    ensures Remainder(Flatten(blocks) + rest) == rest
  {
    if blocks != [] {
      CutIsUnique(blocks[1..], rest);
      var s := Flatten(blocks) + rest;
      assert s == blocks[0] + (Flatten(blocks[1..]) + rest);
      assert s[..CHUNK_TARGET_BYTES] == blocks[0];
      assert s[CHUNK_TARGET_BYTES..] == Flatten(blocks[1..]) + rest;
    }
  }

  lemma Regroup(a: Bytes, b: Bytes, c: Bytes, d: Bytes, t: Bytes)
    requires b + c == d + t
    ensures (a + b) + c == (a + d) + t
  {
    assert (a + b) + c == a + (b + c);
    assert (a + d) + t == a + (d + t);
  }

  /** Cutting a prefix first and carrying its remainder over changes nothing. */
  lemma CutCarriesOver(s: Bytes, t: Bytes)
    ensures FullBlocks(s + t) == FullBlocks(s) + FullBlocks(Remainder(s) + t)
    ensures Remainder(s + t) == Remainder(Remainder(s) + t)
  {
    CutRebuildsStream(s);
    var carried := Remainder(s) + t;
    CutRebuildsStream(carried);
    var blocks := FullBlocks(s) + FullBlocks(carried);
    FlattenConcat(FullBlocks(s), FullBlocks(carried));
    assert Flatten(blocks) + Remainder(carried) == s + t by {
      Regroup(Flatten(FullBlocks(s)), Flatten(FullBlocks(carried)), Remainder(carried), Remainder(s), t);
    }
    CutIsUnique(blocks, Remainder(carried));
  }

  // ----- Whole sessions -----

  datatype Op = Buffer(data: Bytes, sampleRate: nat, channels: nat) | Flush | Drop

  function Apply(st: State, op: Op): State {
    match op
    case Buffer(data, rate, channels) => Accumulated(st, data, rate, channels)
    case Flush => Flushed(st)
    case Drop => Dropped(st)
  }

  function Run(st: State, ops: seq<Op>): State
    decreases |ops|
  {
    if ops == [] then st else Run(Apply(st, ops[0]), ops[1..])
  }

  function BytesOf(chunks: seq<Chunk>): seq<Bytes> {
    seq(|chunks|, i requires 0 <= i < |chunks| => chunks[i].bytes)
  }

  /** The chunks a session owes for the bytes `heard` since the last flush, then for `ops`. */
  function Reference(heard: Bytes, ops: seq<Op>): seq<Bytes>
    decreases |ops|
  {
    if ops == [] then FullBlocks(heard)
    else match ops[0]
      case Buffer(data, _, _) => Reference(heard + data, ops[1..])
      case Flush =>
        FullBlocks(heard) + (if Remainder(heard) == [] then [] else [Remainder(heard)]) + Reference([], ops[1..])
      case Drop => FullBlocks(heard) + Reference([], ops[1..])
  }

  /** The byte blocks one operation hands on. */
  function Added(st: State, op: Op): seq<Bytes> {
    match op
    case Buffer(data, _, _) => FullBlocks(st.queued + data)
    case Flush => if st.queued == [] then [] else [st.queued]
    case Drop => []
  }

  lemma ApplyAdds(st: State, op: Op)
    ensures BytesOf(Apply(st, op).emitted) == BytesOf(st.emitted) + Added(st, op)
  {
    var next := BytesOf(Apply(st, op).emitted);
    assert next[..|st.emitted|] == BytesOf(st.emitted);
    assert next[|st.emitted|..] == Added(st, op);
  }

  lemma {:induction false} RunMeetsReferenceFrom(st: State, heard: Bytes, prefix: seq<Bytes>, ops: seq<Op>)
    requires BytesOf(st.emitted) == prefix + FullBlocks(heard)
    requires st.queued == Remainder(heard)
    ensures BytesOf(Run(st, ops).emitted) == prefix + Reference(heard, ops)
    decreases |ops|
  {
    if ops == [] {
    } else {
      var next := Apply(st, ops[0]);
      ApplyAdds(st, ops[0]);
      if ops[0].Buffer? {
        var data := ops[0].data;
        CutCarriesOver(heard, data);
        RegroupBlocks(prefix, FullBlocks(heard), FullBlocks(st.queued + data));
        RunMeetsReferenceFrom(next, heard + data, prefix, ops[1..]);
      } else {
        var settled := FullBlocks(heard) + Added(st, ops[0]);
        RegroupBlocks(prefix, FullBlocks(heard), Added(st, ops[0]));
        assert (prefix + settled) + FullBlocks([]) == prefix + settled;
        RunMeetsReferenceFrom(next, [], prefix + settled, ops[1..]);
        RegroupBlocks(prefix, settled, Reference([], ops[1..]));
        assert Reference(heard, ops) == settled + Reference([], ops[1..]);
      }
    }
  }

  lemma RegroupBlocks(a: seq<Bytes>, b: seq<Bytes>, c: seq<Bytes>)
    ensures (a + b) + c == a + (b + c)
  {
  }

  /** Whatever buffers, flushes and drops occur, the emitted bytes are those of the reference cut. */
  lemma RunMeetsReference(ops: seq<Op>)
    ensures BytesOf(Run(State([], []), ops).emitted) == Reference([], ops)
  {
    RunMeetsReferenceFrom(State([], []), [], [], ops);
  }

  predicate BuffersOnly(ops: seq<Op>) {
    forall i :: 0 <= i < |ops| ==> ops[i].Buffer?
  }

  function Stream(ops: seq<Op>): Bytes
    requires BuffersOnly(ops)
  {
    if ops == [] then [] else ops[0].data + Stream(ops[1..])
  }

  /** What a chunk is apart from the format of the buffer that completed it. */
  function Timed(chunks: seq<Chunk>): seq<(Bytes, nat)> {
    seq(|chunks|, i requires 0 <= i < |chunks| => (chunks[i].bytes, chunks[i].durationMs))
  }

  function TimedBlocks(blocks: seq<Bytes>): seq<(Bytes, nat)> {
    seq(|blocks|, i requires 0 <= i < |blocks| => (blocks[i], CHUNK_TARGET_MS))
  }

  lemma TimedAppend(chunks: seq<Chunk>, blocks: seq<Bytes>, sampleRate: nat, channels: nat)
    ensures Timed(chunks + Stamp(blocks, sampleRate, channels)) == Timed(chunks) + TimedBlocks(blocks)
  {}

  lemma TimedRegroup(t: seq<(Bytes, nat)>, a: seq<Bytes>, b: seq<Bytes>)
    ensures (t + TimedBlocks(a)) + TimedBlocks(b) == t + TimedBlocks(a + b)
  {}

  /** Buffers cut their stream: full blocks stamped with the target duration go out, the remainder stays queued. */
  lemma {:induction false} StreamCut(st: State, ops: seq<Op>)
    requires BuffersOnly(ops) && |st.queued| < CHUNK_TARGET_BYTES
    ensures var end := Run(st, ops); var stream := st.queued + Stream(ops);
            end.queued == Remainder(stream) && Timed(end.emitted) == Timed(st.emitted) + TimedBlocks(FullBlocks(stream))
    decreases |ops|
  {
    if ops == [] {
      assert st.queued + Stream(ops) == st.queued;
      assert FullBlocks(st.queued) == [];
    } else {
      var heard, rest := st.queued + ops[0].data, Stream(ops[1..]);
      var next := Apply(st, ops[0]);
      CutRebuildsStream(heard);
      TimedAppend(st.emitted, FullBlocks(heard), ops[0].sampleRate, ops[0].channels);
      StreamCut(next, ops[1..]);
      CutCarriesOver(heard, rest);
      TimedRegroup(Timed(st.emitted), FullBlocks(heard), FullBlocks(Remainder(heard) + rest));
      assert st.queued + Stream(ops) == heard + rest;
    }
  }

  /**
   Accumulation sees only the byte stream: two ways of splitting it emit the same chunks with the same durations, leave
   the same queue, and so flush the same last chunk.
   */
  lemma SplitIndependence(a: seq<Op>, b: seq<Op>)
    requires BuffersOnly(a) && BuffersOnly(b) && Stream(a) == Stream(b)
    ensures var x, y := Run(State([], []), a), Run(State([], []), b);
            && Timed(x.emitted) == Timed(y.emitted) && x.queued == y.queued
            && Timed(Flushed(x).emitted) == Timed(Flushed(y).emitted)
  {
    StreamCut(State([], []), a);
    StreamCut(State([], []), b);
    var x, y := Run(State([], []), a), Run(State([], []), b);
    if x.queued != [] {
      var last := Chunk(x.queued, FLUSH_SAMPLE_RATE, FLUSH_CHANNELS, FlushMs(|x.queued|));
      assert Timed(x.emitted + [last]) == Timed(x.emitted) + [(last.bytes, last.durationMs)];
      assert Timed(y.emitted + [last]) == Timed(y.emitted) + [(last.bytes, last.durationMs)];
    }
  }

  // ----- Bytes are conserved -----

  function Accepted(ops: seq<Op>): Bytes
    requires forall i :: 0 <= i < |ops| ==> !ops[i].Drop?
  {
    if ops == [] then [] else (if ops[0].Buffer? then ops[0].data else []) + Accepted(ops[1..])
  }

  /** Without drops, emitted chunks followed by the queue are the accepted bytes, and less than one block is queued. */
  lemma {:induction false} BytesConserved(st: State, ops: seq<Op>)
    requires forall i :: 0 <= i < |ops| ==> !ops[i].Drop?
    requires |st.queued| < CHUNK_TARGET_BYTES
    ensures var end := Run(st, ops);
            && Flatten(BytesOf(end.emitted)) + end.queued == Flatten(BytesOf(st.emitted)) + st.queued + Accepted(ops)
            && |end.queued| < CHUNK_TARGET_BYTES
    decreases |ops|
  {
    if ops != [] {
      var next := Apply(st, ops[0]);
      ApplyAdds(st, ops[0]);
      FlattenConcat(BytesOf(st.emitted), Added(st, ops[0]));
      var data := if ops[0].Buffer? then ops[0].data else [];
      AddedConserves(st, ops[0]);
      BytesConserved(next, ops[1..]);
      Regroup(Flatten(BytesOf(st.emitted)), Flatten(Added(st, ops[0])), next.queued, st.queued, data);
      Reassociate(Flatten(BytesOf(st.emitted)), st.queued, data, Accepted(ops[1..]));
    }
  }

  lemma AddedConserves(st: State, op: Op)
    requires !op.Drop? && |st.queued| < CHUNK_TARGET_BYTES
    ensures Flatten(Added(st, op)) + Apply(st, op).queued == st.queued + (if op.Buffer? then op.data else [])
    ensures |Apply(st, op).queued| < CHUNK_TARGET_BYTES
  {
    if op.Buffer? {
      CutRebuildsStream(st.queued + op.data);
    } else {
      assert Flatten([st.queued]) == st.queued + Flatten([]);
      assert st.queued + [] == st.queued;
    }
  }

  lemma Reassociate(a: Bytes, b: Bytes, c: Bytes, d: Bytes)
    ensures ((a + b) + c) + d == (a + b) + (c + d)
  {
  }

  // ----- Reported duration -----

  /** 32 bytes are one millisecond of audio: how far the reported time runs ahead of the bytes. */
  function Drift(chunks: seq<Chunk>): int {
    if chunks == [] then 0 else Drift(chunks[..|chunks| - 1]) + 32 * chunks[|chunks| - 1].durationMs - |chunks[|chunks| - 1].bytes|
  }

  function FlushCount(ops: seq<Op>): nat {
    if ops == [] then 0 else (if ops[0].Flush? then 1 else 0) + FlushCount(ops[1..])
  }

  lemma {:induction false} FullChunksDoNotDrift(emitted: seq<Chunk>, blocks: seq<Bytes>, sampleRate: nat, channels: nat)
    requires forall i :: 0 <= i < |blocks| ==> |blocks[i]| == CHUNK_TARGET_BYTES
    ensures Drift(emitted + Stamp(blocks, sampleRate, channels)) == Drift(emitted)
  {
    var chunks := emitted + Stamp(blocks, sampleRate, channels);
    if blocks == [] {
      assert chunks == emitted;
    } else {
      var init := blocks[..|blocks| - 1];
      assert chunks[..|chunks| - 1] == emitted + Stamp(init, sampleRate, channels);
      FullChunksDoNotDrift(emitted, init, sampleRate, channels);
    }
  }

  /** Only flushes round: each down by less than half a millisecond, or up by less than a whole one. */
  lemma {:induction false} DurationTracksAudio(st: State, ops: seq<Op>)
    ensures Drift(st.emitted) - 15 * FlushCount(ops) <= Drift(Run(st, ops).emitted) <= Drift(st.emitted) + 31 * FlushCount(ops)
    decreases |ops|
  {
    if ops != [] {
      var next := Apply(st, ops[0]);
      match ops[0] {
        case Buffer(data, rate, channels) =>
          CutRebuildsStream(st.queued + data);
          FullChunksDoNotDrift(st.emitted, FullBlocks(st.queued + data), rate, channels);
        case Flush =>
          if st.queued != [] {
            assert next.emitted[..|next.emitted| - 1] == st.emitted;
          }
        case Drop =>
      }
      DurationTracksAudio(next, ops[1..]);
    }
  }
}
