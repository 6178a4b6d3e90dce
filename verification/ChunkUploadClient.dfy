/**
 The browser client's upload bookkeeping (src/components/meeting-recorder.tsx:126-172, 222-234, 264-267, 320-330, 388-437).

 `UploadRefs` holds the refs and counters that the component changes in place.  Its sets name chunks by meeting and
 sequence; the counters belong to the page, whichever meeting it shows.  `Client` is what the callbacks of one meeting see
 of them, and the functions on `Client` say what each callback does to it.
 */
module ChunkUploadClient {
  import opened Text

  /** The fields of a server acknowledgement that reach the counters. */
  datatype Ack = Ack(sequence: nat, totalChunks: nat, totalBytes: nat)

  datatype Client = Client(
    acked: set<nat>,
    failedSet: set<nat>,
    uploaded: nat,
    pending: int,
    failed: int,
    savedBytes: nat)

  const FreshClient := Client({}, {}, 0, 0, 0, 0)

  /** A meeting's own keys with the page's counters. */
  function Shared(mine: Client, page: Client): Client { page.(acked := mine.acked, failedSet := mine.failedSet) }

  function Recorded(c: Client): Client { c.(pending := c.pending + 1) }

  function AckApplied(c: Client, ack: Ack): Client {
    var first := ack.sequence !in c.acked;
    var recovered := ack.sequence in c.failedSet;
    Client(
      c.acked + {ack.sequence},
      c.failedSet - {ack.sequence},
      Max(c.uploaded, ack.totalChunks),
      if first then Max(0, c.pending - 1) else c.pending,
      if recovered then Max(0, c.failed - 1) else c.failed,
      ack.totalBytes)
  }

  function FailureApplied(c: Client, sequence: nat): Client {
    if sequence in c.acked || sequence in c.failedSet then c
    else c.(failedSet := c.failedSet + {sequence}, pending := Max(0, c.pending - 1), failed := c.failed + 1)
  }

  function Elements(s: seq<nat>): set<nat> { set x | x in s }

  function ResyncStarted(c: Client, unmarked: seq<nat>): Client {
    if unmarked == [] then c
    else c.(failedSet := c.failedSet - Elements(unmarked), pending := |unmarked|, failed := 0)
  }

  /** What the client reads of a stored chunk. */
  datatype Row = Row(sequence: nat, bytes: nat, marked: bool)

  function UnmarkedOf(rows: seq<Row>): seq<nat> {
    if rows == [] then []
    else
      var row := rows[|rows| - 1];
      UnmarkedOf(rows[..|rows| - 1]) + if row.marked then [] else [row.sequence]
  }

  function MarkedOf(rows: seq<Row>): seq<nat> {
    if rows == [] then []
    else
      var row := rows[|rows| - 1];
      MarkedOf(rows[..|rows| - 1]) + if row.marked then [row.sequence] else []
  }

  function MarkedBytes(rows: seq<Row>): nat {
    if rows == [] then 0
    else
      var row := rows[|rows| - 1];
      MarkedBytes(rows[..|rows| - 1]) + if row.marked then row.bytes else 0
  }

  lemma RowAppended(rows: seq<Row>, row: Row)
    ensures UnmarkedOf(rows + [row]) == UnmarkedOf(rows) + if row.marked then [] else [row.sequence]
    ensures MarkedOf(rows + [row]) == MarkedOf(rows) + if row.marked then [row.sequence] else []
    ensures MarkedBytes(rows + [row]) == MarkedBytes(rows) + if row.marked then row.bytes else 0
  {
    assert (rows + [row])[..|rows|] == rows;
  }

  lemma RowCounted(rows: seq<Row>, i: nat)
    requires i < |rows|
    ensures var row, upto, next := rows[i], rows[..i], rows[..i + 1];
            && Elements(MarkedOf(next)) == Elements(MarkedOf(upto)) + (if row.marked then {row.sequence} else {})
            && Elements(UnmarkedOf(next)) == Elements(UnmarkedOf(upto)) + (if row.marked then {} else {row.sequence})
  {
    assert rows[..i + 1] == rows[..i] + [rows[i]];
    RowAppended(rows[..i], rows[i]);
  }

  function Recovered(marked: set<nat>, unmarkedCount: nat, markedBytes: nat): Client {
    Client(marked, {}, |marked|, unmarkedCount, 0, markedBytes)
  }

  predicate GateOpen(c: Client) {
    !(c.pending > 0 || c.failed > 0 || c.uploaded <= 0 || c.savedBytes <= 0)
  }

  // ----- Keys -----

  /** `browserChunkKey`; that its strings tell meetings and sequences apart is `BrowserRecordingStore.ChunkIdInjective`. */
  datatype Key = Key(meeting: string, sequence: nat)

  /** The sequences of one meeting. */
  function Of(keys: set<Key>, m: string): set<nat> { set k | k in keys && k.meeting == m :: k.sequence }

  function Keys(m: string, s: set<nat>): set<Key> { set x | x in s :: Key(m, x) }

  lemma Joined(keys: set<Key>, m: string, s: set<nat>)
    ensures forall o :: Of(keys + Keys(m, s), o) == if o == m then Of(keys, o) + s else Of(keys, o)
  {
    forall o ensures Of(keys + Keys(m, s), o) == if o == m then Of(keys, o) + s else Of(keys, o) {
      forall x ensures x in Of(keys + Keys(m, s), o) <==> x in Of(keys, o) || (o == m && x in s) {
        assert Key(o, x) in keys + Keys(m, s) <==> Key(o, x) in keys || (o == m && x in s);
      }
    }
  }

  lemma Parted(keys: set<Key>, m: string, s: set<nat>)
    ensures forall o :: Of(keys - Keys(m, s), o) == if o == m then Of(keys, o) - s else Of(keys, o)
  {
    forall o ensures Of(keys - Keys(m, s), o) == if o == m then Of(keys, o) - s else Of(keys, o) {
      forall x ensures x in Of(keys - Keys(m, s), o) <==> x in Of(keys, o) && !(o == m && x in s) {
        assert Key(o, x) in keys - Keys(m, s) <==> Key(o, x) in keys && !(o == m && x in s);
      }
    }
  }

  lemma OneKey(m: string, x: nat)
    ensures Keys(m, {x}) == {Key(m, x)}
  {}

  class UploadRefs {
    var inFlight: set<Key>
    var acknowledged: set<Key>
    var failedUploads: set<Key>
    var uploaded: nat
    var pending: int
    var failed: int
    var savedBytes: nat

    /** What the callbacks of meeting `m` see. */
    ghost function View(m: string): Client reads this {
      Client(Of(acknowledged, m), Of(failedUploads, m), uploaded, pending, failed, savedBytes)
    }

    ghost function Open(m: string): set<nat> reads this { Of(inFlight, m) }

    constructor ()
      ensures forall m :: View(m) == FreshClient && Open(m) == {}
    {
      inFlight, acknowledged, failedUploads := {}, {}, {};
      uploaded, pending, failed, savedBytes := 0, 0, 0, 0;
    }

    /** Single flight: a request is started only when none is open for the chunk. */
    method UploadOnce(m: string, sequence: nat) returns (started: bool)
      modifies this`inFlight
      ensures started == (sequence !in old(Open(m)))
      ensures forall o :: Open(o) == if o == m then old(Open(o)) + {sequence} else old(Open(o))
    {
      OneKey(m, sequence);
      Joined(inFlight, m, {sequence});
      if Key(m, sequence) in inFlight { return false; }
      assert sequence !in Open(m);
      inFlight := inFlight + {Key(m, sequence)};
      return true;
    }

    method Settled(m: string, sequence: nat)
      modifies this`inFlight
      ensures forall o :: Open(o) == if o == m then old(Open(o)) - {sequence} else old(Open(o))
    {
      OneKey(m, sequence);
      Parted(inFlight, m, {sequence});
      inFlight := inFlight - {Key(m, sequence)};
    }

    method NoteRecorded()
      modifies this`pending
      ensures forall m :: View(m) == Recorded(old(View(m)))
    {
      pending := pending + 1;
    }

    method ApplyAck(m: string, ack: Ack)
      modifies this
      ensures View(m) == AckApplied(old(View(m)), ack) && inFlight == old(inFlight)
      ensures forall o :: o != m ==> View(o) == Shared(old(View(o)), View(m))
    {
      OneKey(m, ack.sequence);
      Joined(acknowledged, m, {ack.sequence});
      Parted(failedUploads, m, {ack.sequence});
      var firstAcknowledgement := Key(m, ack.sequence) !in acknowledged;
      var recoveredFailure := Key(m, ack.sequence) in failedUploads;
      assert firstAcknowledgement <==> ack.sequence !in View(m).acked;
      assert recoveredFailure <==> ack.sequence in View(m).failedSet;
      failedUploads := failedUploads - {Key(m, ack.sequence)};
      acknowledged := acknowledged + {Key(m, ack.sequence)};
      uploaded := Max(uploaded, ack.totalChunks);
      if firstAcknowledgement { pending := Max(0, pending - 1); }
      if recoveredFailure { failed := Max(0, failed - 1); }
      savedBytes := ack.totalBytes;
    }

    method ApplyFailure(m: string, sequence: nat)
      modifies this
      ensures View(m) == FailureApplied(old(View(m)), sequence) && inFlight == old(inFlight)
      ensures forall o :: o != m ==> View(o) == Shared(old(View(o)), View(m))
    {
      OneKey(m, sequence);
      Joined(failedUploads, m, {sequence});
      assert Key(m, sequence) in acknowledged <==> sequence in View(m).acked;
      assert Key(m, sequence) in failedUploads <==> sequence in View(m).failedSet;
      if Key(m, sequence) in acknowledged || Key(m, sequence) in failedUploads { return; }
      failedUploads := failedUploads + {Key(m, sequence)};
      pending := Max(0, pending - 1);
      failed := failed + 1;
    }

    /** The reset at the head of a resync, over the stored chunks that carry no upload mark. */
    method BeginResync(m: string, unmarked: seq<nat>)
      modifies this
      ensures View(m) == ResyncStarted(old(View(m)), unmarked) && inFlight == old(inFlight)
      ensures forall o :: o != m ==> View(o) == Shared(old(View(o)), View(m))
    {
      if |unmarked| == 0 { return; }
      ghost var was := failedUploads;
      for i := 0 to |unmarked|
        invariant failedUploads == was - Keys(m, Elements(unmarked[..i]))
        invariant acknowledged == old(acknowledged) && inFlight == old(inFlight)
        invariant uploaded == old(uploaded) && savedBytes == old(savedBytes)
      {
        assert Elements(unmarked[..i + 1]) == Elements(unmarked[..i]) + {unmarked[i]};
        failedUploads := failedUploads - {Key(m, unmarked[i])};
      }
      assert unmarked[..|unmarked|] == unmarked;
      Parted(was, m, Elements(unmarked));
      pending, failed := |unmarked|, 0;
    }

    /** After a reload: chunks already marked count as acknowledged, the others as pending. */
    method RestoreCounters(m: string, rows: seq<Row>)
      modifies this
      ensures inFlight == old(inFlight)
      ensures var was := old(View(m));
              View(m) == Client(was.acked + Elements(MarkedOf(rows)), was.failedSet - Elements(UnmarkedOf(rows)),
                                |MarkedOf(rows)|, |UnmarkedOf(rows)|, 0, MarkedBytes(rows))
      ensures forall o :: o != m ==> View(o) == Shared(old(View(o)), View(m))
    {
      ghost var acked, failures := acknowledged, failedUploads;
      for i := 0 to |rows|
        invariant inFlight == old(inFlight)
        invariant acknowledged == acked + Keys(m, Elements(MarkedOf(rows[..i])))
        invariant failedUploads == failures - Keys(m, Elements(UnmarkedOf(rows[..i])))
      {
        RowCounted(rows, i);
        if rows[i].marked {
          acknowledged := acknowledged + {Key(m, rows[i].sequence)};
        } else {
          failedUploads := failedUploads - {Key(m, rows[i].sequence)};
        }
      }
      assert rows[..|rows|] == rows;
      Joined(acked, m, Elements(MarkedOf(rows)));
      Parted(failures, m, Elements(UnmarkedOf(rows)));
      uploaded, pending, failed, savedBytes := |MarkedOf(rows)|, |UnmarkedOf(rows)|, 0, MarkedBytes(rows);
    }

    /** A new meeting or recording starts with cleared counters and keys; the open requests stay. */
    method Clear()
      modifies this
      ensures forall m :: View(m) == FreshClient
      ensures inFlight == old(inFlight)
    {
      acknowledged, failedUploads := {}, {};
      uploaded, pending, failed, savedBytes := 0, 0, 0, 0;
    }
  }

  /** Chunks issued so far and neither acknowledged nor failed. */
  function Unsettled(c: Client, issued: set<nat>): set<nat> { issued - c.acked - c.failedSet }

  /** The counters agree with the sets they summarise. */
  predicate Exact(c: Client, issued: set<nat>) {
    c.pending == |Unsettled(c, issued)| && c.failed == |c.failedSet|
  }

  /** A repeated acknowledgement or failure changes no count. */
  lemma DuplicatesChangeNoCount(c: Client, sequence: nat, ack: Ack)
    requires ack.sequence == sequence && c.acked !! c.failedSet
    ensures sequence in c.acked ==>
              var d := AckApplied(c, ack); d.pending == c.pending && d.failed == c.failed && d.acked == c.acked
    ensures sequence in c.acked + c.failedSet ==> FailureApplied(c, sequence) == c
    ensures AckApplied(AckApplied(c, ack), ack) == AckApplied(c, ack)
    ensures FailureApplied(FailureApplied(c, sequence), sequence) == FailureApplied(c, sequence)
  {
    assert sequence in c.acked ==> c.acked + {sequence} == c.acked;
    var once := AckApplied(c, ack);
    assert once.acked + {sequence} == once.acked && once.failedSet - {sequence} == once.failedSet;
  }

  /**
   An acknowledgement keeps exact counters exact, except when the chunk is listed as failed
   while others are still pending: `pending` was already lowered by the failure.
   */
  lemma AckKeepsExactIff(c: Client, issued: set<nat>, ack: Ack)
    requires Exact(c, issued) && c.acked !! c.failedSet && c.failedSet <= issued
    requires ack.sequence in issued
    ensures Exact(AckApplied(c, ack), issued) <==> ack.sequence !in c.failedSet || c.pending == 0
  {
    if ack.sequence in c.failedSet {
      AckOfFailed(c, issued, ack);
    } else {
      AckOfUnfailed(c, issued, ack);
    }
  }

  lemma AckOfFailed(c: Client, issued: set<nat>, ack: Ack)
    requires Exact(c, issued) && c.acked !! c.failedSet && ack.sequence in c.failedSet
    ensures Exact(AckApplied(c, ack), issued) <==> c.pending == 0
  {
    var d := AckApplied(c, ack);
    assert Unsettled(d, issued) == Unsettled(c, issued);
    assert c.failedSet == d.failedSet + {ack.sequence};
  }

  lemma AckOfUnfailed(c: Client, issued: set<nat>, ack: Ack)
    requires Exact(c, issued) && ack.sequence in issued && ack.sequence !in c.failedSet
    ensures Exact(AckApplied(c, ack), issued)
  {
    var d, x := AckApplied(c, ack), ack.sequence;
    assert d.failedSet == c.failedSet;
    if x in c.acked {
      assert d.acked == c.acked;
    } else {
      ShrinksByOne(Unsettled(c, issued), Unsettled(d, issued), x);
    }
  }

  lemma ShrinksByOne(before: set<nat>, after: set<nat>, x: nat)
    requires x in before && x !in after && forall y :: y in before <==> y in after || y == x
    ensures |before| == |after| + 1
  {
    assert before == after + {x};
  }

  /** A first failure moves one chunk from pending to failed. */
  lemma FailureKeepsExact(c: Client, issued: set<nat>, sequence: nat)
    requires Exact(c, issued) && sequence in issued
    ensures Exact(FailureApplied(c, sequence), issued)
  {
    if sequence !in c.acked && sequence !in c.failedSet {
      ShrinksByOne(Unsettled(c, issued), Unsettled(FailureApplied(c, sequence), issued), sequence);
    }
  }
}
