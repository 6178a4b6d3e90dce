/**
 The server's chunk manifest of one meeting: storing a chunk once per sequence and sealing
 (src/lib/server/meeting-audio-store.ts:707-765, 801-846).
 */
module AudioManifest {

  datatype Entry = Entry(sequence: nat, bytes: nat)

  function TotalBytes(chunks: seq<Entry>): nat {
    if chunks == [] then 0 else chunks[0].bytes + TotalBytes(chunks[1..])
  }

  function Sequences(chunks: seq<Entry>): set<nat> {
    set i | 0 <= i < |chunks| :: chunks[i].sequence
  }

  predicate Sorted(chunks: seq<Entry>) {
    forall i, j :: 0 <= i < j < |chunks| ==> chunks[i].sequence < chunks[j].sequence
  }

  function Insert(chunks: seq<Entry>, e: Entry): seq<Entry> {
    if chunks == [] || e.sequence < chunks[0].sequence then [e] + chunks
    else [chunks[0]] + Insert(chunks[1..], e)
  }

  /** A chunk whose sequence is known is answered from the manifest; a new one is added in order. */
  function Saved(chunks: seq<Entry>, e: Entry): seq<Entry> {
    if e.sequence in Sequences(chunks) then chunks else Insert(chunks, e)
  }

  predicate SealAccepted(chunks: seq<Entry>, expectedLastSequence: int, totalBytes: int) {
    && expectedLastSequence > 0 && totalBytes > 0
    && |chunks| == expectedLastSequence
    && (forall i :: 0 <= i < |chunks| ==> chunks[i].sequence == i + 1)
    && TotalBytes(chunks) == totalBytes
  }

  lemma SequencesCons(e: Entry, chunks: seq<Entry>)
    ensures Sequences([e] + chunks) == {e.sequence} + Sequences(chunks)
  {
    var r := [e] + chunks;
    assert r[0] == e;
    forall x | x in Sequences(chunks) ensures x in Sequences(r) {
      var i :| 0 <= i < |chunks| && chunks[i].sequence == x;
      assert r[i + 1].sequence == x;
    }
  }

  lemma SortedCons(e: Entry, chunks: seq<Entry>)
    requires Sorted(chunks) && forall x :: x in Sequences(chunks) ==> e.sequence < x
    ensures Sorted([e] + chunks)
  {
    assert forall i :: 0 <= i < |chunks| ==> chunks[i].sequence in Sequences(chunks);
  }

  /** An entry in front of entries with higher sequences. */
  lemma FrontAdds(e: Entry, chunks: seq<Entry>)
    requires Sorted(chunks) && forall x :: x in Sequences(chunks) ==> e.sequence < x
    ensures Sorted([e] + chunks) && TotalBytes([e] + chunks) == e.bytes + TotalBytes(chunks)
    ensures Sequences([e] + chunks) == {e.sequence} + Sequences(chunks)
  {
    SequencesCons(e, chunks);
    SortedCons(e, chunks);
    assert ([e] + chunks)[1..] == chunks;
  }

  /** An entry that does not belong in front leaves the first entry the lowest. */
  lemma BehindFirst(chunks: seq<Entry>, others: set<nat>, e: Entry)
    requires Sorted(chunks) && chunks != [] && chunks[0].sequence <= e.sequence && e.sequence !in Sequences(chunks)
    requires others == Sequences(chunks[1..]) + {e.sequence}
    ensures forall x :: x in others ==> chunks[0].sequence < x
  {
    assert chunks[0].sequence in Sequences(chunks);
  }

  lemma {:induction false} InsertAdds(chunks: seq<Entry>, e: Entry)
    requires Sorted(chunks) && e.sequence !in Sequences(chunks)
    ensures Sorted(Insert(chunks, e)) && |Insert(chunks, e)| == |chunks| + 1
    ensures TotalBytes(Insert(chunks, e)) == TotalBytes(chunks) + e.bytes
    ensures Sequences(Insert(chunks, e)) == Sequences(chunks) + {e.sequence}
  {
    if chunks == [] || e.sequence < chunks[0].sequence {
      FrontAdds(e, chunks);
    } else {
      var first, rest := chunks[0], chunks[1..];
      assert chunks == [first] + rest;
      SequencesCons(first, rest);
      InsertAdds(rest, e);
      BehindFirst(chunks, Sequences(Insert(rest, e)), e);
      FrontAdds(first, Insert(rest, e));
    }
  }

  /** A sorted manifest holding 1..n is exactly the complete sequence the seal asks for. */
  lemma {:induction false} CompleteSequence(chunks: seq<Entry>, n: nat)
    requires Sorted(chunks) && |chunks| == n
    requires forall i :: 0 <= i < n ==> 1 <= chunks[i].sequence <= n
    ensures forall i :: 0 <= i < n ==> chunks[i].sequence == i + 1
  {
    if n > 0 {
      AtLeastIndex(chunks, n - 1);
      forall i | 0 <= i < n ensures chunks[i].sequence == i + 1 {
        AtLeastIndex(chunks, i);
        RoomAbove(chunks, i, n);
      }
    }
  }

  lemma {:induction false} AtLeastIndex(chunks: seq<Entry>, i: nat)
    requires Sorted(chunks) && i < |chunks| && chunks[0].sequence >= 1
    ensures chunks[i].sequence >= i + 1
  {
    if i > 0 { AtLeastIndex(chunks, i - 1); }
  }

  lemma {:induction false} RoomAbove(chunks: seq<Entry>, i: nat, n: nat)
    requires Sorted(chunks) && i < |chunks| == n && chunks[n - 1].sequence <= n
    ensures chunks[i].sequence <= i + 1
    decreases n - i
  {
    if i < n - 1 { RoomAbove(chunks, i + 1, n); }
  }

  /**
   Of a sorted manifest the seal is accepted exactly when it has at least one chunk and byte, its sequences are 1 to the
   expected last one, none missing and none beyond, and its sizes add up to the expected total.
   */
  lemma SealAcceptedIff(chunks: seq<Entry>, expectedLastSequence: int, totalBytes: int)
    requires Sorted(chunks)
    ensures SealAccepted(chunks, expectedLastSequence, totalBytes) <==>
              && expectedLastSequence > 0 && totalBytes > 0 && TotalBytes(chunks) == totalBytes
              && forall x :: x in Sequences(chunks) <==> 1 <= x <= expectedLastSequence
  {
    var n := expectedLastSequence;
    if SealAccepted(chunks, n, totalBytes) {
      forall x | 1 <= x <= n ensures x in Sequences(chunks) { assert chunks[x - 1].sequence == x; }
    }
    if n > 0 && forall x :: x in Sequences(chunks) <==> 1 <= x <= n {
      forall i | 0 <= i < |chunks| ensures 1 <= chunks[i].sequence <= n { assert chunks[i].sequence in Sequences(chunks); }
      AsManyAsSequences(chunks);
      UpToSize(Sequences(chunks), n);
      CompleteSequence(chunks, n);
    }
  }

  lemma {:induction false} AsManyAsSequences(chunks: seq<Entry>)
    requires Sorted(chunks)
    ensures |Sequences(chunks)| == |chunks|
  {
    if chunks != [] {
      var first, rest := chunks[0], chunks[1..];
      assert chunks == [first] + rest;
      SequencesCons(first, rest);
      AsManyAsSequences(rest);
      assert first.sequence !in Sequences(rest);
    }
  }

  lemma {:induction false} UpToSize(s: set<nat>, n: nat)
    requires forall x :: x in s <==> 1 <= x <= n
    ensures |s| == n
  {
    if n == 0 { assert s == {}; } else { UpToSize(s - {n}, n - 1); }
  }
}
