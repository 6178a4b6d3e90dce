/**
 Runs in which an earlier meeting reaches the counters of the one shown (src/components/meeting-recorder.tsx:140-172,
 388-411), each for all chunk sizes and without a resync: the gate of the new meeting opens too early, or never.
 */
module UploadPageFailures {
  import opened Text
  import opened ChunkUploadClient
  import opened AudioManifest
  import opened UploadPage
  import P = UploadProtocol
  import F = UploadFailures

  /** The chunk's request is open and its handler waits for it. */
  predicate InFlight(m: P.State, c: nat) {
    && c in m.sent && c !in m.order && c in m.requests && m.requests[c].Waiting? && c in m.handlers && m.handlers[c].Awaiting?
    && m.todo == []
  }

  /** The server stores it, the answer arrives, and the handler goes on. */
  function Success(c: nat): seq<P.Step> { [P.ServerAccept(c, true), P.Settle(c, true)] + [P.HandlerContinues(c)] }

  function Succeeded(m: P.State, c: nat): P.State {
    var order := m.order + [c];
    m.(order := order, requests := m.requests - {c}, handlers := m.handlers - {c}, marked := m.marked + {c},
       client := AckApplied(m.client, Ack(c, |order|, P.Bytes(m.sizes, Elements(order)))), unacked := false,
       lastTotal := |order|)
  }

  lemma SuccessIs(m: P.State, c: nat)
    requires InFlight(m, c)
    ensures P.ValidRun(m, Success(c)) && P.Run(m, Success(c)) == Succeeded(m, c)
  {
    var a := P.AcceptStep(m, c, true);
    var b := P.Apply(a, P.Settle(c, true));
    assert m.requests[c := P.Answered(|a.order|)] - {c} == m.requests - {c};
    assert m.handlers[c := P.Got(|a.order|)] - {c} == m.handlers - {c};
    assert a.order[..|a.order|] == a.order;
    P.RunTwo(m, P.ServerAccept(c, true), P.Settle(c, true));
    P.RunOne(b, P.HandlerContinues(c));
    P.RunAppend(m, [P.ServerAccept(c, true), P.Settle(c, true)], [P.HandlerContinues(c)]);
  }

  /** The request is lost, and the handler goes on. */
  function Failure(c: nat): seq<P.Step> { [P.Settle(c, false), P.HandlerContinues(c)] }

  function Failed(m: P.State, c: nat): P.State {
    m.(requests := m.requests - {c}, handlers := m.handlers - {c}, client := FailureApplied(m.client, c))
  }

  lemma FailureIs(m: P.State, c: nat)
    requires InFlight(m, c)
    ensures P.ValidRun(m, Failure(c)) && P.Run(m, Failure(c)) == Failed(m, c)
  {
    assert m.handlers[c := P.Lost] - {c} == m.handlers - {c};
    P.RunTwo(m, P.Settle(c, false), P.HandlerContinues(c));
  }

  // ----- One chunk of the first meeting is in flight when the second begins -----

  lemma Do(steps: seq<Step>, e: Step)
    requires ValidRun(Start, steps) && Enabled(Run(Start, steps), e)
    ensures ValidRun(Start, steps + [e]) && Run(Start, steps + [e]) == Apply(Run(Start, steps), e)
  {
    RunOne(Run(Start, steps), e);
    RunAppend(Start, steps, [e]);
  }

  lemma DoHere(steps: seq<Step>, more: seq<P.Step>)
    requires ValidRun(Start, steps) && P.ValidRun(Run(Start, steps).now, more)
    requires forall k :: 0 <= k < |more| ==> OnPage(more[k]).Here?
    ensures var run, p := steps + AllOnPage(more), Run(Start, steps);
            ValidRun(Start, run) && Run(Start, run) == p.(now := P.Run(p.now, more))
  {
    AllOnPageIs(Run(Start, steps), more);
    RunAppend(Start, steps, AllOnPage(more));
  }

  lemma DoThere(steps: seq<Step>, i: nat, more: seq<P.Step>)
    requires ValidRun(Start, steps) && i < |Run(Start, steps).others| && P.ValidRun(View(Run(Start, steps), i), more)
    requires forall k :: 0 <= k < |more| ==> GoesOn(more[k])
    ensures var run, p := steps + AllElsewhere(i, more), Run(Start, steps);
            && ValidRun(Start, run)
            && Run(Start, run).now == p.now.(client := Shared(p.now.client, P.Run(View(p, i), more).client))
  {
    AllElsewhereIs(Run(Start, steps), i, more);
    RunAppend(Start, steps, AllElsewhere(i, more));
  }

  function Recorded1(size: nat): P.State {
    P.Init.(sizes := [size], sent := {1}, requests := map[1 := P.Waiting], handlers := map[1 := P.Awaiting],
            recording := false, client := Client({}, {}, 0, 1, 0, 0))
  }

  function OneRun(size: nat): seq<P.Step> { [P.Record(size), P.Stop] }

  lemma OneRecorded(size: nat)
    requires size > 0
    ensures P.ValidRun(P.Init, OneRun(size)) && P.Run(P.Init, OneRun(size)) == Recorded1(size)
  {
    var m := P.RecordStep(P.Init, size);
    assert m.sizes == [size] && m.sent == {1} && m.requests == map[1 := P.Waiting] && m.handlers == map[1 := P.Awaiting];
    P.RunTwo(P.Init, P.Record(size), P.Stop);
  }

  /** A meeting of one chunk is recorded and stopped, and with its upload in flight the next recording starts. */
  function LeftOpenRun(size: nat): seq<Step> { [Begin] + AllOnPage(OneRun(size)) + [NewMeeting] + [Begin] }

  lemma LeftOpen(size: nat)
    requires size > 0
    ensures ValidRun(Start, LeftOpenRun(size)) && Run(Start, LeftOpenRun(size)) == Page(P.Init, [Recorded1(size)])
  {
    RunOne(Start, Begin);
    var run := [Begin];
    assert Run(Start, run) == Page(P.Init, []);
    OneRecorded(size);
    DoHere(run, OneRun(size));
    run := run + AllOnPage(OneRun(size));
    Do(run, NewMeeting);
    run := run + [NewMeeting];
    assert Run(Start, run) == Page(Blank, [Recorded1(size)]);
    Do(run, Begin);
    assert Run(Start, run + [Begin]) == Page(P.Init, [Recorded1(size)]);
  }

  // ----- The late acknowledgement -----

  function ThreeRun(b: seq<nat>): seq<P.Step>
    requires |b| == 3
  {
    F.TwoInFlightRun(b[0], b[1]) + [P.Record(b[2])]
  }

  function Recorded3(b: seq<nat>): P.State {
    P.Init.(sizes := b, sent := {1, 2, 3}, client := Client({}, {}, 0, 3, 0, 0),
            requests := map[1 := P.Waiting, 2 := P.Waiting, 3 := P.Waiting],
            handlers := map[1 := P.Awaiting, 2 := P.Awaiting, 3 := P.Awaiting])
  }

  lemma ThreeRecorded(b: seq<nat>)
    requires |b| == 3 && b[0] > 0 && b[1] > 0 && b[2] > 0
    ensures P.ValidRun(P.Init, ThreeRun(b)) && P.Run(P.Init, ThreeRun(b)) == Recorded3(b)
  {
    F.TwoInFlight(b[0], b[1]);
    var m := F.BothOpen(b[0], b[1]);
    P.RunOne(m, P.Record(b[2]));
    P.RunAppend(P.Init, F.TwoInFlightRun(b[0], b[1]), [P.Record(b[2])]);
    ThirdRecorded(b);
  }

  lemma ThirdRecorded(b: seq<nat>)
    requires |b| == 3
    ensures P.RecordStep(F.BothOpen(b[0], b[1]), b[2]) == Recorded3(b)
  {
    var m, t := F.BothOpen(b[0], b[1]), Recorded3(b);
    assert m.sizes + [b[2]] == b && {1, 2} + {3} == {1, 2, 3};
    assert m.requests[3 := P.Waiting] == t.requests && m.handlers[3 := P.Awaiting] == t.handlers;
  }

  function LateAckRun(a: nat, b: seq<nat>): seq<Step>
    requires |b| == 3
  {
    LeftOpenRun(a) + AllOnPage(ThreeRun(b)) + AllElsewhere(0, Success(1))
  }

  /** The answer for the first meeting's chunk is counted as one of the three just recorded. */
  lemma LateAck(a: nat, b: seq<nat>)
    requires a > 0 && |b| == 3 && b[0] > 0 && b[1] > 0 && b[2] > 0
    ensures ValidRun(Start, LateAckRun(a, b))
    ensures Run(Start, LateAckRun(a, b)).now == Recorded3(b).(client := Client({}, {}, 1, 2, 0, a))
  {
    LeftOpen(a);
    ThreeRecorded(b);
    DoHere(LeftOpenRun(a), ThreeRun(b));
    var run := LeftOpenRun(a) + AllOnPage(ThreeRun(b));
    var v := View(Run(Start, run), 0);
    SuccessIs(v, 1);
    DoThere(run, 0, Success(1));
    OneSucceededLate(a, v);
  }

  lemma OneSucceededLate(a: nat, v: P.State)
    requires v.sizes == [a] && v.order == [] && v.client == Client({}, {}, 0, 3, 0, 0)
    ensures Succeeded(v, 1).client == Client({1}, {}, 1, 2, 0, a)
  {
    assert [] + [1] == [1] && Elements([1]) == {1} && [a][..0] == [] && {} + {1} == {1};
    assert P.Bytes([a], {1}) == P.Bytes([a][..0], {1}) + a;
  }

  function EarlySealRun(a: nat, b: seq<nat>): seq<Step>
    requires |b| == 3
  {
    LateAckRun(a, b) + AllOnPage(Success(1)) + AllOnPage(Success(2))
  }

  lemma FirstOfSecond(a: nat, b: seq<nat>)
    requires a > 0 && |b| == 3 && b[0] > 0 && b[1] > 0 && b[2] > 0
    ensures ValidRun(Start, LateAckRun(a, b) + AllOnPage(Success(1)))
    ensures var m := Run(Start, LateAckRun(a, b) + AllOnPage(Success(1))).now;
            && m.up && m.sizes == b && m.order == [1] && InFlight(m, 2) && m.client == Client({1}, {}, 1, 1, 0, b[0])
  {
    LateAck(a, b);
    var run, m := LateAckRun(a, b), Run(Start, LateAckRun(a, b)).now;
    SuccessIs(m, 1);
    DoHere(run, Success(1));
    FirstSucceeded(m, b);
  }

  lemma FirstSucceeded(m: P.State, b: seq<nat>)
    requires |b| == 3 && m == Recorded3(b).(client := m.client) && m.client.(savedBytes := 0) == Client({}, {}, 1, 2, 0, 0)
    ensures var t := Succeeded(m, 1);
            t.up && t.sizes == b && t.order == [1] && InFlight(t, 2) && t.client == Client({1}, {}, 1, 1, 0, b[0])
  {
    assert [] + [1] == [1] && Elements([1]) == {1} && {} + {1} == {1};
    assert b == [b[0], b[1], b[2]];
    F.BytesWithThird(b[0], b[1], b[2]);
  }

  lemma EarlySeal(a: nat, b: seq<nat>)
    requires a > 0 && |b| == 3 && b[0] > 0 && b[1] > 0 && b[2] > 0
    ensures ValidRun(Start, EarlySealRun(a, b))
    ensures var m := Run(Start, EarlySealRun(a, b)).now;
            m.up && m.sizes == b && m.order == [1, 2] && m.client == EarlyClient(b)
  {
    FirstOfSecond(a, b);
    var run := LateAckRun(a, b) + AllOnPage(Success(1));
    var m := Run(Start, run).now;
    SuccessIs(m, 2);
    DoHere(run, Success(2));
    SecondSucceeded(m, b);
  }

  lemma SecondSucceeded(m: P.State, b: seq<nat>)
    requires |b| == 3 && m.sizes == b && m.order == [1] && m.client == Client({1}, {}, 1, 1, 0, b[0])
    ensures var t := Succeeded(m, 2); t.up == m.up && t.sizes == b && t.order == [1, 2] && t.client == EarlyClient(b)
  {
    assert [1] + [2] == [1, 2] && Elements([1, 2]) == {1, 2} && {1} + {2} == {1, 2};
    assert b == [b[0], b[1], b[2]];
    F.BytesWithThird(b[0], b[1], b[2]);
  }

  function EarlyClient(b: seq<nat>): Client
    requires |b| == 3
  {
    Client({1, 2}, {}, 2, 0, 0, b[0] + b[1])
  }

  /**
   The reset button with a chunk of the first meeting in flight: its late acknowledgement lowers `pending` of the second
   meeting, so that the gate opens and seals without chunk 3.
   */
  lemma LateAckOpensGateEarly(a: nat, b: seq<nat>)
    requires a > 0 && |b| == 3 && b[0] > 0 && b[1] > 0 && b[2] > 0
    ensures ValidRun(Start, EarlySealRun(a, b))
    ensures var m := Run(Start, EarlySealRun(a, b)).now;
            m.up && m.sizes == b && m.order == [1, 2] && m.client == EarlyClient(b)
    ensures GateOpen(EarlyClient(b)) && SealAccepted(P.Manifest([1, 2], b), 2, b[0] + b[1])
  {
    EarlySeal(a, b);
    SealsEarly(b);
  }

  lemma SealsEarly(b: seq<nat>)
    requires |b| == 3 && b[0] > 0
    ensures GateOpen(EarlyClient(b)) && SealAccepted(P.Manifest([1, 2], b), 2, b[0] + b[1])
  {
    assert b == [b[0], b[1], b[2]];
    F.SealsWithoutThird(b[0], b[1], b[2]);
  }

  // ----- The late failure -----

  function LateFailureRun(a: nat, b: nat): seq<Step> {
    LeftOpenRun(a) + AllOnPage(OneRun(b)) + AllOnPage(Success(1)) + AllElsewhere(0, Failure(1))
  }

  /** The second meeting is on the server and acknowledged; the failure of the first one's chunk is counted. */
  function Stranded(b: nat): P.State {
    Recorded1(b).(order := [1], requests := map[], handlers := map[], marked := {1}, unacked := false, lastTotal := 1,
                  client := Client({1}, {}, 1, 0, 1, b))
  }

  lemma LateFailure(a: nat, b: nat)
    requires a > 0 && b > 0
    ensures ValidRun(Start, LateFailureRun(a, b)) && Run(Start, LateFailureRun(a, b)).now == Stranded(b)
  {
    LeftOpen(a);
    OneRecorded(b);
    var run := LeftOpenRun(a);
    DoHere(run, OneRun(b));
    run := run + AllOnPage(OneRun(b));
    SuccessIs(Recorded1(b), 1);
    DoHere(run, Success(1));
    run := run + AllOnPage(Success(1));
    OneSucceeded(b);
    FailureIs(View(Run(Start, run), 0), 1);
    DoThere(run, 0, Failure(1));
  }

  /**
   The same with a late failure: the second meeting is wholly on the server and acknowledged, but `failed` stays 1; the
   gate is shut, and a retry finds nothing to upload and leaves the page as it was.
   */
  lemma LateFailureLeavesGateShut(a: nat, b: nat)
    requires a > 0 && b > 0
    ensures ValidRun(Start, LateFailureRun(a, b)) && Run(Start, LateFailureRun(a, b)).now == Stranded(b)
    ensures Elements(Stranded(b).order) == Stranded(b).client.acked == P.Issued(1) && !GateOpen(Stranded(b).client)
    ensures var p := Run(Start, LateFailureRun(a, b));
            && Enabled(p, Here(P.Retry))
            && var q := Apply(p, Here(P.Retry)); Enabled(q, Here(P.Reset)) && Apply(q, Here(P.Reset)) == p
  {
    LateFailure(a, b);
    RetryIsIdle(Run(Start, LateFailureRun(a, b)));
    assert Elements([1]) == {1} == P.Issued(1);
  }

  lemma OneSucceeded(b: nat)
    ensures Succeeded(Recorded1(b), 1)
            == Recorded1(b).(order := [1], requests := map[], handlers := map[], marked := {1}, unacked := false,
                             lastTotal := 1, client := Client({1}, {}, 1, 0, 0, b))
  {
    assert [] + [1] == [1] && Elements([1]) == {1} && [b][..0] == [];
    assert P.Bytes([b], {1}) == P.Bytes([b][..0], {1}) + b;
    assert {} + {1} == {1};
  }

  lemma RetryIsIdle(p: Page)
    requires var m := p.now;
             m.up && !m.recording && !m.recovering && |m.sizes| == 1 && m.marked == {1} && m.client.failed > 0
             && m.client.pending <= 0 && m.loaded.None? && m.todo == [] && m.head == P.Awaiting
    ensures Enabled(p, Here(P.Retry))
    ensures var q := Apply(p, Here(P.Retry)); Enabled(q, Here(P.Reset)) && Apply(q, Here(P.Reset)) == p
  {
    assert P.UnmarkedList(0, {1}) == [] && P.UnmarkedList(1, {1}) == [];
  }
}
