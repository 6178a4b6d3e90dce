/**
 Runs in which the browser code falls short (src/components/meeting-recorder.tsx:140-172, 222-234, 346-352, 388-411), each
 for all chunk sizes: the finalize gate opens too early, stays shut, or opens on a total that does not seal.
 */
module UploadFailures {
  import opened Text
  import opened ChunkUploadClient
  import opened AudioManifest
  import opened UploadProtocol
  import opened UploadProgress

  lemma Do(steps: seq<Step>, e: Step)
    requires ValidRun(Init, steps) && Enabled(Run(Init, steps), e)
    ensures ValidRun(Init, steps + [e]) && Run(Init, steps + [e]) == Apply(Run(Init, steps), e)
    ensures QuietRun(Init, steps) && Quiet(Run(Init, steps), e) ==> QuietRun(Init, steps + [e])
  {
    RunOne(Run(Init, steps), e);
    RunAppend(Init, steps, [e]);
  }

  /** Two chunks recorded, both requests open. */
  function BothOpen(first: nat, second: nat): State {
    Init.(sizes := [first, second], sent := {1, 2}, client := Client({}, {}, 0, 2, 0, 0),
          requests := map[1 := Waiting, 2 := Waiting], handlers := map[1 := Awaiting, 2 := Awaiting])
  }

  function TwoInFlightRun(first: nat, second: nat): seq<Step> { [Record(first)] + [Record(second)] }

  lemma TwoInFlight(first: nat, second: nat)
    requires first > 0 && second > 0
    ensures ValidRun(Init, TwoInFlightRun(first, second))
    ensures QuietRun(Init, TwoInFlightRun(first, second))
    ensures Run(Init, TwoInFlightRun(first, second)) == BothOpen(first, second)
  {
    Do([], Record(first));
    assert [] + [Record(first)] == [Record(first)];
    var run := [Record(first)];
    var s := Run(Init, run);
    assert s == Init.(sizes := [first], sent := {1}, client := Client({}, {}, 0, 1, 0, 0),
                      requests := map[1 := Waiting], handlers := map[1 := Awaiting]);
    Do(run, Record(second));
    run := run + [Record(second)];
    s := Run(Init, run);
    assert s.sizes == [first, second];
    assert s.handlers == map[1 := Awaiting, 2 := Awaiting];
    assert s.requests == map[1 := Waiting, 2 := Waiting];
  }

  lemma BytesOfTwo(first: nat, second: nat)
    ensures Bytes([first, second], {1}) == first && Bytes([first, second], {2}) == second
    ensures Bytes([first, second], {1, 2}) == first + second
  {
    BytesOfAppend([], first);
    BytesOfAppend([first], second);
    assert [] + [first] == [first] && [first] + [second] == [first, second];
  }

  lemma BytesOfAppend(sizes: seq<nat>, size: nat)
    ensures forall s: set<nat> :: Bytes(sizes + [size], s) == Bytes(sizes, s) + if |sizes| + 1 in s then size else 0
  {
    assert (sizes + [size])[..|sizes|] == sizes;
  }

  function BothStoredRun(first: nat, second: nat): seq<Step> {
    TwoInFlightRun(first, second) + [ServerAccept(1, true)] + [ServerAccept(2, true)]
  }

  lemma BothStored(first: nat, second: nat)
    requires first > 0 && second > 0
    ensures ValidRun(Init, BothStoredRun(first, second)) && QuietRun(Init, BothStoredRun(first, second))
    ensures Run(Init, BothStoredRun(first, second))
              == BothOpen(first, second).(order := [1, 2], requests := map[1 := Answered(1), 2 := Answered(2)])
  {
    TwoInFlight(first, second);
    var run := TwoInFlightRun(first, second);
    Do(run, ServerAccept(1, true));
    run := run + [ServerAccept(1, true)];
    var s := Run(Init, run);
    assert s.order == [1] && s.requests == map[1 := Answered(1), 2 := Waiting];
    Do(run, ServerAccept(2, true));
    run := run + [ServerAccept(2, true)];
    s := Run(Init, run);
    assert s.order == [1, 2] && s.requests == map[1 := Answered(1), 2 := Answered(2)];
  }

  function BothAnsweredRun(first: nat, second: nat): seq<Step> {
    BothStoredRun(first, second) + [Settle(1, true)] + [Settle(2, true)]
  }

  lemma BothAnswered(first: nat, second: nat)
    requires first > 0 && second > 0
    ensures ValidRun(Init, BothAnsweredRun(first, second)) && QuietRun(Init, BothAnsweredRun(first, second))
    ensures Run(Init, BothAnsweredRun(first, second))
              == BothOpen(first, second).(order := [1, 2], requests := map[], handlers := map[1 := Got(1), 2 := Got(2)])
  {
    BothStored(first, second);
    var run := BothStoredRun(first, second);
    Do(run, Settle(1, true));
    run := run + [Settle(1, true)];
    var s := Run(Init, run);
    assert s.requests == map[2 := Answered(2)] && s.handlers == map[1 := Got(1), 2 := Awaiting];
    Do(run, Settle(2, true));
    run := run + [Settle(2, true)];
    s := Run(Init, run);
    assert s.requests == map[] && s.handlers == map[1 := Got(1), 2 := Got(2)];
  }

  /** The client of two chunks whose acknowledgements were applied as 2, 1. */
  function ReorderedClient(first: nat): Client { Client({1, 2}, {}, 2, 0, 0, first) }

  function ReorderedAcksRun(first: nat, second: nat): seq<Step> {
    BothAnsweredRun(first, second) + [HandlerContinues(2)] + [HandlerContinues(1)]
  }

  lemma ReorderedAcks(first: nat, second: nat)
    requires first > 0 && second > 0
    ensures ValidRun(Init, ReorderedAcksRun(first, second)) && QuietRun(Init, ReorderedAcksRun(first, second))
    ensures var s := Run(Init, ReorderedAcksRun(first, second));
            s.up && s.sizes == [first, second] && s.order == [1, 2] && s.client == ReorderedClient(first) && s.lastTotal == 1
  {
    BothAnswered(first, second);
    var run := BothAnsweredRun(first, second);
    Do(run, HandlerContinues(2));
    run := run + [HandlerContinues(2)];
    var s := Run(Init, run);
    assert s.handlers == map[1 := Got(1)] && s.client.(savedBytes := 0) == Client({2}, {}, 2, 1, 0, 0);
    Do(run, HandlerContinues(1));
    run := run + [HandlerContinues(1)];
    s := Run(Init, run);
    assert s.order[..1] == [1];
    assert Prefix(s.order, 1) == {1};
    BytesOfTwo(first, second);
  }

  lemma TwoAreIssued()
    ensures Elements([1, 2]) == Issued(2) && Distinct([1, 2])
  {}

  /**
   Two acknowledgements applied in the wrong order: everything is on the server and the gate is open,
   but the server refuses the seal.
   */
  lemma ReorderedAcksBlockSeal(first: nat, second: nat)
    requires first > 0 && second > 0
    ensures ValidRun(Init, ReorderedAcksRun(first, second)) && QuietRun(Init, ReorderedAcksRun(first, second))
    ensures var s := Run(Init, ReorderedAcksRun(first, second));
            s.up && s.sizes == [first, second] && s.order == [1, 2] && s.client == ReorderedClient(first)
    ensures GateOpen(ReorderedClient(first)) && !SealAccepted(Manifest([1, 2], [first, second]), 2, first)
  {
    ReorderedAcks(first, second);
    TwoAreIssued();
    SealIff([1, 2], [first, second], first);
    BytesOfTwo(first, second);
    assert Elements([1, 2]) == {1, 2};
  }

  function FirstFailsRun(first: nat, second: nat): seq<Step> {
    TwoInFlightRun(first, second) + [Settle(1, false)] + [HandlerContinues(1)]
  }

  lemma FirstFails(first: nat, second: nat)
    requires first > 0 && second > 0
    ensures ValidRun(Init, FirstFailsRun(first, second))
    ensures Run(Init, FirstFailsRun(first, second))
              == BothOpen(first, second).(requests := map[2 := Waiting], handlers := map[2 := Awaiting],
                                                       client := Client({}, {1}, 0, 1, 1, 0))
  {
    TwoInFlight(first, second);
    var run := TwoInFlightRun(first, second);
    Do(run, Settle(1, false));
    run := run + [Settle(1, false)];
    var s := Run(Init, run);
    assert s.requests == map[2 := Waiting] && s.handlers == map[1 := Lost, 2 := Awaiting];
    Do(run, HandlerContinues(1));
    run := run + [HandlerContinues(1)];
    s := Run(Init, run);
    assert s.handlers == map[2 := Awaiting];
  }

  /** Chunk 1 failed while chunk 2 is in flight, and the browser reports being online again. */
  function OnlineWhileInFlightRun(first: nat, second: nat): seq<Step> { FirstFailsRun(first, second) + [Online] + [Reset] }

  lemma OnlineWhileInFlight(first: nat, second: nat)
    requires first > 0 && second > 0
    ensures ValidRun(Init, OnlineWhileInFlightRun(first, second))
    ensures Run(Init, OnlineWhileInFlightRun(first, second))
              == BothOpen(first, second).(handlers := map[2 := Awaiting], todo := [1, 2])
  {
    FirstFails(first, second);
    var run := FirstFailsRun(first, second);
    UnmarkedOfTwo();
    Do(run, Online);
    run := run + [Online];
    var s := Run(Init, run);
    assert s.loaded == Some([1, 2]);
    Do(run, Reset);
    run := run + [Reset];
    s := Run(Init, run);
    assert s.client == Client({}, {}, 0, 2, 0, 0) by { assert {1} - Elements([1, 2]) == {}; }
    assert s.requests == map[1 := Waiting, 2 := Waiting];
    assert s.sent == {1, 2};
  }

  lemma UnmarkedOfTwo()
    ensures UnmarkedList(2, {}) == [1, 2]
  {
    assert UnmarkedList(0, {}) == [] && UnmarkedList(1, {}) == [1];
  }

  function SecondFailsRun(first: nat, second: nat): seq<Step> {
    OnlineWhileInFlightRun(first, second) + [Settle(2, false)] + [HandlerContinues(2)]
  }

  lemma SecondFails(first: nat, second: nat)
    requires first > 0 && second > 0
    ensures ValidRun(Init, SecondFailsRun(first, second))
    ensures Run(Init, SecondFailsRun(first, second))
              == Init.(sizes := [first, second], sent := {1, 2}, client := Client({}, {2}, 0, 1, 1, 0),
              requests := map[1 := Waiting], todo := [1, 2])
  {
    OnlineWhileInFlight(first, second);
    var run := OnlineWhileInFlightRun(first, second);
    Do(run, Settle(2, false));
    run := run + [Settle(2, false)];
    var s := Run(Init, run);
    assert s.requests == map[1 := Waiting] && s.handlers == map[2 := Lost];
    Do(run, HandlerContinues(2));
    run := run + [HandlerContinues(2)];
    s := Run(Init, run);
    assert s.handlers == map[];
  }

  /** Then chunk 2 fails and chunk 3 is recorded. */
  function FailThenRecordRun(first: nat, second: nat, third: nat): seq<Step> {
    SecondFailsRun(first, second) + [Record(third)]
  }

  lemma FailThenRecord(first: nat, second: nat, third: nat)
    requires first > 0 && second > 0 && third > 0
    ensures ValidRun(Init, FailThenRecordRun(first, second, third))
    ensures Run(Init, FailThenRecordRun(first, second, third))
              == Init.(sizes := [first, second, third], sent := {1, 2, 3}, client := Client({}, {2}, 0, 2, 1, 0),
              requests := map[1 := Waiting, 3 := Waiting], handlers := map[3 := Awaiting], todo := [1, 2])
  {
    SecondFails(first, second);
    var run := SecondFailsRun(first, second);
    Do(run, Record(third));
    run := run + [Record(third)];
    var s := Run(Init, run);
    assert s.sizes == [first, second, third] && s.handlers == map[3 := Awaiting];
    assert s.requests == map[1 := Waiting, 3 := Waiting] && s.sent == {1, 2, 3};
  }

  lemma BytesWithThird(first: nat, second: nat, third: nat)
    ensures Bytes([first, second, third], {1}) == first && Bytes([first, second, third], {1, 2}) == first + second
  {
    assert [first, second, third] == [first, second] + [third];
    BytesOfNewChunk([first, second], third, {1});
    BytesOfNewChunk([first, second], third, {1, 2});
    BytesOfTwo(first, second);
  }

  function SyncFirstRun(first: nat, second: nat, third: nat): seq<Step> {
    FailThenRecordRun(first, second, third) + Delivery(1)
  }

  lemma SyncFirst(first: nat, second: nat, third: nat)
    requires first > 0 && second > 0 && third > 0
    ensures ValidRun(Init, SyncFirstRun(first, second, third))
    ensures var s := Run(Init, SyncFirstRun(first, second, third));
            && s.up && s.sizes == [first, second, third] && s.order == [1] && s.todo == [2] && s.head.Awaiting?
            && 2 in s.sent && 2 !in s.handlers && 2 in s.requests && s.requests[2].Waiting?
            && s.client == Client({1}, {2}, 1, 1, 1, first)
  {
    FailThenRecord(first, second, third);
    var run := FailThenRecordRun(first, second, third);
    SyncAcknowledges(run, 1);
    BytesWithThird(first, second, third);
    assert Elements([]) + {1} == {1};
  }

  /** The resync uploads chunk 1 and chunk 2; chunk 3 is still in flight. */
  function SyncBothRun(first: nat, second: nat, third: nat): seq<Step> {
    SyncFirstRun(first, second, third) + Delivery(2)
  }

  lemma SyncBoth(first: nat, second: nat, third: nat)
    requires first > 0 && second > 0 && third > 0
    ensures ValidRun(Init, SyncBothRun(first, second, third))
    ensures var s := Run(Init, SyncBothRun(first, second, third));
            s.up && s.sizes == [first, second, third] && s.order == [1, 2]
            && s.client == Client({1, 2}, {}, 2, 0, 0, first + second)
  {
    SyncFirst(first, second, third);
    var run := SyncFirstRun(first, second, third);
    SyncAcknowledges(run, 2);
    BytesWithThird(first, second, third);
    assert Elements([1]) + {2} == {1, 2};
  }

  /**
   A resync started by the `online` listener while chunk 2 is in flight: chunk 2 fails, its retry
   lowers `pending` a second time, and the gate opens and seals although chunk 3 is not on the server.
   */
  lemma OnlineResyncOpensGateEarly(first: nat, second: nat, third: nat)
    requires first > 0 && second > 0 && third > 0
    ensures ValidRun(Init, SyncBothRun(first, second, third))
    ensures var s := Run(Init, SyncBothRun(first, second, third));
            s.up && s.sizes == [first, second, third] && s.order == [1, 2] && s.client == EarlyClient(first, second)
    ensures GateOpen(EarlyClient(first, second))
    ensures SealAccepted(Manifest([1, 2], [first, second, third]), 2, first + second)
  {
    SyncBoth(first, second, third);
    SealsWithoutThird(first, second, third);
  }

  lemma SealsWithoutThird(first: nat, second: nat, third: nat)
    ensures first + second > 0 ==> SealAccepted(Manifest([1, 2], [first, second, third]), 2, first + second)
  {
    TwoAreIssued();
    ManifestTotals([1, 2], [first, second, third]);
    BytesWithThird(first, second, third);
    assert Elements([1, 2]) == {1, 2};
    var m := Manifest([1, 2], [first, second, third]);
    forall i | 0 <= i < |m| ensures 1 <= m[i].sequence <= 2 { assert m[i].sequence in Sequences(m); }
    CompleteSequence(m, 2);
  }

  /** The client after the resync acknowledged chunks 1 and 2. */
  function EarlyClient(first: nat, second: nat): Client { Client({1, 2}, {}, 2, 0, 0, first + second) }

  // ----- A chunk recorded while the resync loads -----

  function FailedAloneRun(first: nat): seq<Step> { [Record(first)] + [Settle(1, false)] + [HandlerContinues(1)] }

  /** Chunk 1 failed, nothing is pending, and recording goes on. */
  lemma FailedAlone(first: nat)
    requires first > 0
    ensures ValidRun(Init, FailedAloneRun(first)) && QuietRun(Init, FailedAloneRun(first))
    ensures Run(Init, FailedAloneRun(first)) == Init.(sizes := [first], sent := {1}, client := Client({}, {1}, 0, 0, 1, 0))
  {
    Do([], Record(first));
    assert [] + [Record(first)] == [Record(first)];
    var run := [Record(first)];
    var s := Run(Init, run);
    assert s.requests == map[1 := Waiting] && s.handlers == map[1 := Awaiting] && s.sent == {1};
    Do(run, Settle(1, false));
    run := run + [Settle(1, false)];
    s := Run(Init, run);
    assert s.requests == map[] && s.handlers == map[1 := Lost];
    Do(run, HandlerContinues(1));
    run := run + [HandlerContinues(1)];
    s := Run(Init, run);
    assert s.handlers == map[];
  }

  /** The `online` resync loads chunk 1, and chunk 2 is recorded during the load. */
  function RecordedDuringLoadRun(first: nat, second: nat): seq<Step> { FailedAloneRun(first) + [Online] + [Record(second)] }

  lemma RecordedDuringLoad(first: nat, second: nat)
    requires first > 0 && second > 0
    ensures ValidRun(Init, RecordedDuringLoadRun(first, second))
    ensures Run(Init, RecordedDuringLoadRun(first, second))
              == Init.(sizes := [first, second], sent := {1, 2}, client := Client({}, {1}, 0, 1, 1, 0),
                       requests := map[2 := Waiting], handlers := map[2 := Awaiting], loaded := Some([1]))
  {
    FailedAlone(first);
    var run := FailedAloneRun(first);
    assert UnmarkedList(0, {}) == [] && UnmarkedList(1, {}) == [1];
    Do(run, Online);
    run := run + [Online];
    Do(run, Record(second));
    run := run + [Record(second)];
    var s := Run(Init, run);
    assert s.sizes == [first, second] && s.requests == map[2 := Waiting] && s.handlers == map[2 := Awaiting];
    assert s.sent == {1, 2};
  }

  /** The reset overwrites the count of chunk 2. */
  function OverwrittenRun(first: nat, second: nat): seq<Step> { RecordedDuringLoadRun(first, second) + [Reset] }

  lemma Overwritten(first: nat, second: nat)
    requires first > 0 && second > 0
    ensures ValidRun(Init, OverwrittenRun(first, second))
    ensures Run(Init, OverwrittenRun(first, second))
              == Init.(sizes := [first, second], sent := {1, 2}, client := Client({}, {}, 0, 1, 0, 0),
                       requests := map[1 := Waiting, 2 := Waiting], handlers := map[2 := Awaiting], todo := [1])
  {
    RecordedDuringLoad(first, second);
    var run := RecordedDuringLoadRun(first, second);
    Do(run, Reset);
    var s := Run(Init, run + [Reset]);
    assert {1} - Elements([1]) == {};
    assert s.requests == map[1 := Waiting, 2 := Waiting] && s.sent == {1, 2};
  }

  function HalfSealedRun(first: nat, second: nat): seq<Step> { OverwrittenRun(first, second) + Delivery(1) }

  /**
   A resync started by the `online` listener with nothing pending, while recording: chunk 2 is recorded between the
   load and the reset, and once chunk 1 is acknowledged the gate opens and seals without chunk 2.
   */
  lemma RecordDuringLoadOpensGateEarly(first: nat, second: nat)
    requires first > 0 && second > 0
    ensures ValidRun(Init, FailedAloneRun(first)) && Run(Init, FailedAloneRun(first)).client.pending == 0
    ensures ValidRun(Init, HalfSealedRun(first, second))
    ensures var s := Run(Init, HalfSealedRun(first, second));
            s.up && s.sizes == [first, second] && s.order == [1] && s.client == HalfClient(first)
    ensures GateOpen(HalfClient(first)) && SealAccepted(Manifest([1], [first, second]), 1, first)
  {
    FailedAlone(first);
    Overwritten(first, second);
    SyncAcknowledges(OverwrittenRun(first, second), 1);
    BytesOfTwo(first, second);
    assert Elements([]) + {1} == {1};
    assert [1][..0] == [];
    assert Manifest([1], [first, second]) == [Entry(1, first)];
    assert TotalBytes([Entry(1, first)]) == first + TotalBytes([Entry(1, first)][1..]);
  }

  /** The client after the acknowledgement of chunk 1. */
  function HalfClient(first: nat): Client { Client({1}, {}, 1, 0, 0, first) }

  // ----- A chunk acknowledged while the resync loads -----

  /** Chunk 1 failed and chunk 2 is in flight when the resync loads. */
  function LoadedInFlightRun(first: nat, second: nat): seq<Step> {
    FirstFailsRun(first, second) + [Online] + [ServerAccept(2, true)]
  }

  lemma LoadedInFlight(first: nat, second: nat)
    requires first > 0 && second > 0
    ensures ValidRun(Init, LoadedInFlightRun(first, second))
    ensures Run(Init, LoadedInFlightRun(first, second))
              == Init.(sizes := [first, second], sent := {1, 2}, order := [2], client := Client({}, {1}, 0, 1, 1, 0),
                       requests := map[2 := Answered(1)], handlers := map[2 := Awaiting], loaded := Some([1, 2]))
  {
    FirstFails(first, second);
    var run := FirstFailsRun(first, second);
    UnmarkedOfTwo();
    Do(run, Online);
    run := run + [Online];
    Do(run, ServerAccept(2, true));
    run := run + [ServerAccept(2, true)];
    var s := Run(Init, run);
    assert s.order == [2] && s.requests == map[2 := Answered(1)];
  }

  /** Chunk 2 is acknowledged before the reset. */
  function MarkedDuringLoadRun(first: nat, second: nat): seq<Step> {
    LoadedInFlightRun(first, second) + [Settle(2, true)] + [HandlerContinues(2)] + [Reset]
  }

  lemma MarkedDuringLoad(first: nat, second: nat)
    requires first > 0 && second > 0
    ensures ValidRun(Init, MarkedDuringLoadRun(first, second))
    ensures var s := Run(Init, MarkedDuringLoadRun(first, second));
            && s.up && s.sizes == [first, second] && s.order == [2] && s.sent == {1, 2} && s.loaded.None?
            && s.todo == [1, 2] && s.head.Awaiting? && s.requests == map[1 := Waiting] && s.handlers == map[]
            && s.client == Client({2}, {}, 1, 2, 0, second)
  {
    LoadedInFlight(first, second);
    var run := LoadedInFlightRun(first, second);
    Do(run, Settle(2, true));
    run := run + [Settle(2, true)];
    var s := Run(Init, run);
    assert s.requests == map[] && s.handlers == map[2 := Got(1)];
    Do(run, HandlerContinues(2));
    run := run + [HandlerContinues(2)];
    s := Run(Init, run);
    assert [2][..1] == [2] && Prefix([2], 1) == {2};
    BytesOfTwo(first, second);
    assert s.handlers == map[] && s.client == Client({2}, {1}, 1, 0, 1, second);
    Do(run, Reset);
    run := run + [Reset];
    s := Run(Init, run);
    assert {1} - Elements([1, 2]) == {};
    assert s.requests == map[1 := Waiting];
  }

  lemma FirstAfterMark(first: nat, second: nat)
    requires first > 0 && second > 0
    ensures ValidRun(Init, MarkedDuringLoadRun(first, second) + Delivery(1))
    ensures var s := Run(Init, MarkedDuringLoadRun(first, second) + Delivery(1));
            && s.up && s.order == [2, 1] && s.loaded.None? && s.handlers == map[] && s.todo == [2] && s.head.Awaiting?
            && 2 in s.sent && 2 in s.requests && s.requests[2].Waiting?
            && s.client.acked == {1, 2} && s.client.pending == 1 && s.client.failedSet == {} && s.client.failed == 0
  {
    MarkedDuringLoad(first, second);
    SyncAcknowledges(MarkedDuringLoadRun(first, second), 1);
    assert [2] + [1] == [2, 1] && [1, 2][1..] == [2];
    assert {2} + {1} == {1, 2};
  }

  /** The resync uploads its last chunk again although it is acknowledged: no count changes. */
  lemma SyncAgain(run: seq<Step>, c: nat)
    requires ValidRun(Init, run)
    requires var s := Run(Init, run);
             s.todo == [c] && s.head.Awaiting? && c in s.sent && c in s.order && s.loaded.None? && s.handlers == map[]
             && c in s.client.acked && s.client.failedSet == {} && c in s.requests && s.requests[c].Waiting?
    ensures ValidRun(Init, run + Delivery(c))
    ensures var s := Run(Init, run); var t := Run(Init, run + Delivery(c));
            && t.up == s.up && t.order == s.order && t.handlers == map[] && !Busy(t)
            && t.client.acked == s.client.acked && t.client.pending == s.client.pending && t.client.failed == s.client.failed
  {
    var s := Run(Init, run);
    var longer := run + [ServerAccept(c, true)];
    Do(run, ServerAccept(c, true));
    Do(longer, Settle(c, true));
    var u := Run(Init, longer + [Settle(c, true)]);
    assert u.handlers == map[] && u.client == s.client && u.todo == [c] && u.head == Got(|s.order|);
    Do(longer + [Settle(c, true)], SyncContinues);
    assert s.client.acked + {c} == s.client.acked;
    assert longer + [Settle(c, true)] + [SyncContinues] == run + Delivery(c);
  }

  function StuckRun(first: nat, second: nat): seq<Step> {
    MarkedDuringLoadRun(first, second) + Delivery(1) + Delivery(2)
  }

  /**
   The other way round: everything is on the server and acknowledged, nothing is in flight, but `pending` stays 1,
   so the gate stays shut and neither the retry button nor the `online` listener resyncs.
   */
  lemma AckDuringLoadLeavesGateShut(first: nat, second: nat)
    requires first > 0 && second > 0
    ensures ValidRun(Init, StuckRun(first, second))
    ensures var s := Run(Init, StuckRun(first, second));
            && s.up && s.client.acked == {1, 2} && s.order == [2, 1] && s.handlers == map[] && !Busy(s)
            && s.client.pending == 1 && s.client.failed == 0
            && !GateOpen(s.client) && !Enabled(s, Retry) && !Enabled(s, Online)
  {
    FirstAfterMark(first, second);
    SyncAgain(MarkedDuringLoadRun(first, second) + Delivery(1), 2);
  }

  /** The resync loop waits for its chunk `c`, whose request is open and which the server does not have. */
  predicate AwaitsAck(s: State, c: nat) {
    s.todo != [] && s.todo[0] == c && s.head.Awaiting? && c in s.sent && c !in s.order && c !in s.handlers
    && c in s.requests && s.requests[c].Waiting?
  }

  /** The state after the chunk was stored and its answer delivered to the loop. */
  function Replied(s: State, c: nat): State {
    s.(order := s.order + [c], requests := s.requests - {c}, head := Got(|s.order| + 1))
  }

  lemma AnswerReaches(s: State, c: nat)
    requires AwaitsAck(s, c)
    ensures Enabled(s, ServerAccept(c, true))
    ensures var t := Apply(s, ServerAccept(c, true));
            Enabled(t, Settle(c, true)) && Apply(t, Settle(c, true)) == Replied(s, c)
  {
    var t := Apply(s, ServerAccept(c, true));
    assert t.requests - {c} == s.requests - {c};
  }

  lemma AckOfAnswered(s: State, c: nat)
    requires AwaitsAck(s, c)
    ensures Enabled(Replied(s, c), SyncContinues)
    ensures var t := Apply(Replied(s, c), SyncContinues);
            && t.up == s.up && t.sizes == s.sizes && t.order == s.order + [c] && t.handlers == s.handlers
            && t.client == AckApplied(s.client, Ack(c, |s.order| + 1, Bytes(s.sizes, Elements(s.order) + {c})))
            && t.todo == s.todo[1..] && t.head.Awaiting? && s.sent <= t.sent && t.loaded == s.loaded
            && (t.todo != [] && t.todo[0] != c && t.todo[0] !in s.requests ==>
                  t.todo[0] in t.requests && t.requests[t.todo[0]].Waiting?)
  {
    PrefixAppend(s.order, c, 0);
  }

  lemma SyncAcknowledges(run: seq<Step>, c: nat)
    requires ValidRun(Init, run) && AwaitsAck(Run(Init, run), c)
    ensures ValidRun(Init, run + Delivery(c))
    ensures var s := Run(Init, run); var t := Run(Init, run + Delivery(c));
            && t.up == s.up && t.sizes == s.sizes && t.order == s.order + [c] && t.handlers == s.handlers
            && t.client == AckApplied(s.client, Ack(c, |s.order| + 1, Bytes(s.sizes, Elements(s.order) + {c})))
            && t.todo == s.todo[1..] && t.head.Awaiting? && s.sent <= t.sent && t.loaded == s.loaded
            && (t.todo != [] && t.todo[0] != c && t.todo[0] !in s.requests ==>
                  t.todo[0] in t.requests && t.requests[t.todo[0]].Waiting?)
  {
    var s := Run(Init, run);
    AnswerReaches(s, c);
    AckOfAnswered(s, c);
    Do(run, ServerAccept(c, true));
    var longer := run + [ServerAccept(c, true)];
    Do(longer, Settle(c, true));
    Do(longer + [Settle(c, true)], SyncContinues);
    assert longer + [Settle(c, true)] + [SyncContinues] == run + Delivery(c);
  }
}
