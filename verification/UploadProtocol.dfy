/**
 The durable chunk upload of one meeting by the browser recorder
 (src/components/meeting-recorder.tsx:126-255, 290-352, 424-437) against a server that
 stores each sequence once (src/lib/server/meeting-audio-store.ts:670-770).

 Requests, replies, client continuations, crashes and reloads interleave freely.  A request
 that left the browser may reach the server at any later time, also after a crash, so
 delivery is at least once and replies can be lost or reordered.  `UploadPage` is the page
 that shows one meeting after another on the same counters.
 */
module UploadProtocol {
  import opened Text
  import opened ChunkUploadClient
  import opened AudioManifest

  // ----- Sets of sequences and their bytes -----

  /** The sequences 1..n. */
  function Issued(n: nat): (r: set<nat>)
    ensures forall i :: i in r <==> 1 <= i <= n
  {
    if n == 0 then {} else Issued(n - 1) + {n}
  }

  /** The first `k` chunks the server accepted. */
  function Prefix(order: seq<nat>, k: nat): set<nat>
    requires k <= |order|
  {
    Elements(order[..k])
  }

  ghost predicate Distinct(s: seq<nat>) {
    forall i, j :: 0 <= i < j < |s| ==> s[i] != s[j]
  }

  /** Total size of the chunks of `s`; `sizes[i]` is the size of chunk `i + 1`. */
  function Bytes(sizes: seq<nat>, s: set<nat>): nat {
    if sizes == [] then 0
    else Bytes(sizes[..|sizes| - 1], s) + (if |sizes| in s then sizes[|sizes| - 1] else 0)
  }

  /** The sequences up to `n` that carry no upload mark, ascending. */
  function UnmarkedList(n: nat, marked: set<nat>): seq<nat> {
    if n == 0 then [] else UnmarkedList(n - 1, marked) + (if n in marked then [] else [n])
  }

  lemma {:induction false} IssuedSize(n: nat)
    ensures |Issued(n)| == n
  {
    if n > 0 {
      IssuedSize(n - 1);
    }
  }

  lemma {:induction false} DistinctSize(s: seq<nat>)
    requires Distinct(s)
    ensures |Elements(s)| == |s|
  {
    if s != [] {
      var init := s[..|s| - 1];
      DistinctSize(init);
      assert s == init + [s[|s| - 1]];
      assert Elements(s) == Elements(init) + {s[|s| - 1]};
    }
  }

  lemma PrefixSize(order: seq<nat>, k: nat)
    requires Distinct(order) && k <= |order|
    ensures |Prefix(order, k)| == k
  {
    DistinctSize(order[..k]);
  }

  lemma SubsetSize(a: set<nat>, b: set<nat>)
    requires a <= b
    ensures |a| <= |b|
    ensures |a| == |b| ==> a == b
  {
    assert b == a + (b - a);
  }

  lemma PrefixMonotone(order: seq<nat>, j: nat, k: nat)
    requires j <= k <= |order|
    ensures Prefix(order, j) <= Prefix(order, k)
  {
    forall x | x in Prefix(order, j)
      ensures x in Prefix(order, k)
    {
      var i :| 0 <= i < j && order[i] == x;
      assert order[..k][i] == x;
    }
  }

  lemma PrefixAppend(order: seq<nat>, x: nat, k: nat)
    requires k <= |order|
    ensures Prefix(order + [x], k) == Prefix(order, k)
    ensures Prefix(order + [x], |order| + 1) == Elements(order) + {x}
  {
    assert (order + [x])[..k] == order[..k];
    assert (order + [x])[..|order| + 1] == order + [x];
    forall y
      ensures y in Elements(order + [x]) <==> y in Elements(order) + {x}
    {
    }
  }

  lemma ElementsAppend(s: seq<nat>, x: nat)
    ensures Elements(s + [x]) == Elements(s) + {x}
    ensures Distinct(s) && x !in Elements(s) ==> Distinct(s + [x])
  {
    assert forall i :: 0 <= i < |s| ==> s[i] in Elements(s);
  }

  lemma {:induction false} UnmarkedListIs(n: nat, marked: set<nat>)
    ensures Elements(UnmarkedList(n, marked)) == Issued(n) - marked
    ensures Distinct(UnmarkedList(n, marked))
  {
    if n > 0 {
      UnmarkedListIs(n - 1, marked);
      ElementsAppend(UnmarkedList(n - 1, marked), n);
    }
  }

  lemma {:induction false} BytesOfNewChunk(sizes: seq<nat>, size: nat, s: set<nat>)
    ensures |sizes| + 1 !in s ==> Bytes(sizes + [size], s) == Bytes(sizes, s)
  {
    assert (sizes + [size])[..|sizes|] == sizes;
  }

  /** With every chunk nonempty, a proper subset has strictly fewer bytes. */
  lemma {:induction false} BytesStrictlyMonotone(sizes: seq<nat>, a: set<nat>, b: set<nat>)
    requires a <= b
    requires forall i :: 0 <= i < |sizes| ==> sizes[i] > 0
    ensures Bytes(sizes, a) <= Bytes(sizes, b)
    ensures Bytes(sizes, a) == Bytes(sizes, b) <==> a * Issued(|sizes|) == b * Issued(|sizes|)
  {
    var n := |sizes|;
    if n == 0 {
      assert Issued(0) == {};
    } else {
      BytesStrictlyMonotone(sizes[..n - 1], a, b);
      assert Issued(n) == Issued(n - 1) + {n};
      assert a * Issued(n) == a * Issued(n - 1) + a * {n};
      assert b * Issued(n) == b * Issued(n - 1) + b * {n};
      if a * Issued(n) == b * Issued(n) {
        assert n in a <==> n in a * Issued(n);
        assert n in b <==> n in b * Issued(n);
        assert a * Issued(n - 1) == a * Issued(n) - {n};
        assert b * Issued(n - 1) == b * Issued(n) - {n};
      }
    }
  }

  // ----- State -----

  /** An open request; `Answered(k)` when the server replied after accepting `k` distinct chunks. */
  datatype Request = Waiting | Answered(k: nat)

  /** What a continuation of the client waits for. */
  datatype Wait = Awaiting | Got(k: nat) | Lost

  datatype State = State(
    // kept across crashes: IndexedDB, the server, and requests still on the wire
    sizes: seq<nat>,
    marked: set<nat>,
    order: seq<nat>,
    sent: set<nat>,
    // the page
    up: bool,
    recording: bool,
    client: Client,
    requests: map<nat, Request>,
    handlers: map<nat, Wait>,
    loaded: Option<seq<nat>>,   // a resync has read these unmarked chunks and not yet reset the counters
    recovering: bool,           // the counters already describe the loaded chunks
    todo: seq<nat>,
    head: Wait,
    // history: marks and acceptances at page load, whether an ack came since, and the last ack
    seed: set<nat>,
    base: nat,
    unacked: bool,
    lastTotal: nat)

  const Init := State([], {}, [], {}, true, true, FreshClient, map[], map[], None, false, [], Awaiting, {}, 0, true, 0)

  datatype Step =
    | Record(size: nat)
    | Stop
    | ServerAccept(sequence: nat, answers: bool)
    | Settle(sequence: nat, delivered: bool)
    | HandlerContinues(sequence: nat)
    | SyncContinues
    | Retry
    | Online
    | Reset
    | Crash
    | Reload

  function AckFor(s: State, sequence: nat, k: nat): Ack
    requires k <= |s.order|
  {
    Ack(sequence, k, Bytes(s.sizes, Prefix(s.order, k)))
  }

  /** `uploadAudioChunkOnce`: shares an open request for the chunk or starts one. */
  function Opened(requests: map<nat, Request>, sequence: nat): map<nat, Request> {
    if sequence in requests then requests else requests[sequence := Waiting]
  }

  function Sent(s: State, sequence: nat): set<nat> {
    if sequence in s.requests then s.sent else s.sent + {sequence}
  }

  function Send(s: State, sequence: nat): State {
    s.(requests := Opened(s.requests, sequence), sent := Sent(s, sequence))
  }

  /** Marks the chunk uploaded and applies its acknowledgement. */
  function Acknowledge(s: State, sequence: nat, k: nat): State
    requires k <= |s.order|
  {
    s.(marked := s.marked + {sequence},
       client := AckApplied(s.client, AckFor(s, sequence, k)),
       unacked := false,
       lastTotal := k)
  }

  function Conclude(s: State, sequence: nat, outcome: Wait): State
    requires outcome.Got? ==> outcome.k <= |s.order|
  {
    if outcome.Got? then Acknowledge(s, sequence, outcome.k)
    else s.(client := FailureApplied(s.client, sequence))
  }

  /** The resync loop turns to its first remaining chunk, if any. */
  function SyncFrom(s: State, todo: seq<nat>): State {
    s.(todo := todo, head := Awaiting,
       requests := if todo == [] then s.requests else Opened(s.requests, todo[0]),
       sent := if todo == [] then s.sent else Sent(s, todo[0]))
  }

  predicate Busy(s: State) { s.loaded.Some? || s.todo != [] }

  /** `syncStoredBrowserChunks` up to the end of its await of the load; a running resync is shared instead. */
  function Load(s: State): State {
    if Busy(s) then s else s.(loaded := Some(UnmarkedList(|s.sizes|, s.marked)))
  }

  /** The resync after the load: the counters are reset to the loaded list and its uploads begin. */
  function ResetTo(s: State, list: seq<nat>): State {
    SyncFrom(s.(client := ResyncStarted(s.client, list), loaded := None, recovering := false), list)
  }

  predicate Enabled(s: State, step: Step) {
    match step
    case Record(size) => s.up && s.recording && size > 0
    case Stop => s.up && s.recording
    case ServerAccept(c, answers) => c in s.sent && (answers ==> c in s.requests && s.requests[c].Waiting?)
    case Settle(c, delivered) => c in s.requests && (delivered ==> s.requests[c].Answered?)
    case HandlerContinues(c) =>
      c in s.handlers && !s.handlers[c].Awaiting? && (s.handlers[c].Got? ==> s.handlers[c].k <= |s.order|)
    case SyncContinues => s.todo != [] && !s.head.Awaiting? && (s.head.Got? ==> s.head.k <= |s.order|)
    case Retry => s.up && !s.recording && s.client.failed > 0 && s.client.pending <= 0
    case Online => s.up && s.client.failed > 0
    case Reset => s.up && s.loaded.Some?
    case Crash => s.up
    case Reload => !s.up && s.sizes != []
  }

  /** `handleAudioChunk` up to its upload: number, persist and send the chunk. */
  function RecordStep(s: State, size: nat): State {
    var c := |s.sizes| + 1;
    Send(s.(sizes := s.sizes + [size], client := Recorded(s.client), handlers := s.handlers[c := Awaiting]), c)
  }

  /** The server stores a chunk it does not know yet; it may answer the open request. */
  function AcceptStep(s: State, c: nat, answers: bool): State {
    var t := if c in s.order then s else s.(order := s.order + [c]);
    if answers then t.(requests := t.requests[c := Answered(|t.order|)]) else t
  }

  /** A request's promise settles for everyone who awaits it. */
  function SettleStep(s: State, c: nat, outcome: Wait): State {
    s.(requests := s.requests - {c},
       handlers := if c in s.handlers && s.handlers[c].Awaiting? then s.handlers[c := outcome] else s.handlers,
       head := if s.todo != [] && s.todo[0] == c && s.head.Awaiting? then outcome else s.head)
  }

  function CrashStep(s: State): State {
    s.(up := false, recording := false, client := FreshClient, requests := map[], handlers := map[],
       loaded := None, recovering := false, todo := [], head := Awaiting)
  }

  /** The recovery effect up to the load of its resync: the counters are set from the stored chunks. */
  function Reloaded(s: State): State {
    s.(up := true, loaded := Some(UnmarkedList(|s.sizes|, s.marked)), recovering := true,
       client := Recovered(s.marked, |UnmarkedList(|s.sizes|, s.marked)|, Bytes(s.sizes, s.marked)),
       seed := s.marked, base := |s.order|, unacked := true, lastTotal := |s.marked|)
  }

  function OutcomeOf(s: State, c: nat, delivered: bool): Wait
    requires Enabled(s, Settle(c, delivered))
  {
    if delivered then Got(s.requests[c].k) else Lost
  }

  function Apply(s: State, step: Step): State
    requires Enabled(s, step)
  {
    match step
    case Record(size) => RecordStep(s, size)
    case Stop => s.(recording := false)
    case ServerAccept(c, answers) => AcceptStep(s, c, answers)
    case Settle(c, delivered) => SettleStep(s, c, OutcomeOf(s, c, delivered))
    case HandlerContinues(c) => Conclude(s.(handlers := s.handlers - {c}), c, s.handlers[c])
    case SyncContinues => SyncFrom(Conclude(s, s.todo[0], s.head), s.todo[1..])
    case Retry => Load(s)
    case Online => Load(s)
    case Reset => ResetTo(s, s.loaded.value)
    case Crash => CrashStep(s)
    case Reload => Reloaded(s)
  }

  predicate ValidRun(s: State, steps: seq<Step>)
    decreases |steps|
  {
    steps == [] || (Enabled(s, steps[0]) && ValidRun(Apply(s, steps[0]), steps[1..]))
  }

  function Run(s: State, steps: seq<Step>): State
    requires ValidRun(s, steps)
    decreases |steps|
  {
    if steps == [] then s else Run(Apply(s, steps[0]), steps[1..])
  }

  // ----- What every run keeps: uploadedAt <= manifest <= persisted -----

  ghost predicate Covers(s: State, c: nat, k: nat) {
    s.base <= k <= |s.order| && c in Prefix(s.order, k)
  }

  ghost predicate Durable(s: State) {
    var n := |s.sizes|;
    && (forall i :: 0 <= i < n ==> s.sizes[i] > 0)
    && Distinct(s.order)
    && s.marked <= Elements(s.order) <= s.sent <= Issued(n)
    && s.requests.Keys <= Issued(n) && s.handlers.Keys <= Issued(n) && Elements(s.todo) <= Issued(n)
    && s.base <= |s.order|
    && (!s.up ==> s.requests == map[] && s.handlers == map[] && s.todo == [])
    && (forall c :: c in s.requests && s.requests[c].Answered? ==> Covers(s, c, s.requests[c].k))
    && (forall c :: c in s.handlers && s.handlers[c].Got? ==> Covers(s, c, s.handlers[c].k))
    && (s.todo != [] && s.head.Got? ==> Covers(s, s.todo[0], s.head.k))
  }

  /** What a resync between its load and its reset holds. */
  ghost predicate Loading(s: State) {
    && (!s.up ==> s.loaded.None? && !s.recording)
    && (s.loaded.Some? ==>
          s.todo == [] && Distinct(s.loaded.value) && Elements(s.loaded.value) <= Issued(|s.sizes|))
    && (s.recovering ==>
          s.loaded == Some(UnmarkedList(|s.sizes|, s.marked)) && s.handlers == map[] && s.requests == map[] && !s.recording)
  }

  lemma StepKeepsLoading(s: State, step: Step)
    requires Durable(s) && Loading(s) && Enabled(s, step)
    ensures Loading(Apply(s, step))
  {
    UnmarkedListIs(|s.sizes|, s.marked);
    if step.Record? { assert Issued(|s.sizes|) <= Issued(|s.sizes| + 1); }
  }

  lemma SendKeepsDurable(s: State, c: nat)
    requires Durable(s) && s.up && c in Issued(|s.sizes|)
    ensures Durable(Send(s, c))
  {
  }

  lemma SyncFromKeepsDurable(s: State, todo: seq<nat>)
    requires s.up && Durable(s.(todo := [], head := Awaiting)) && Elements(todo) <= Issued(|s.sizes|)
    ensures Durable(SyncFrom(s, todo))
  {
    var t := s.(todo := todo, head := Awaiting);
    assert Durable(t);
    if todo != [] {
      assert todo[0] in Elements(todo);
      SendKeepsDurable(t, todo[0]);
      assert SyncFrom(s, todo) == Send(t, todo[0]);
    }
  }

  lemma ConcludeKeepsDurable(s: State, c: nat, outcome: Wait)
    requires Durable(s) && (outcome.Got? ==> Covers(s, c, outcome.k))
    ensures Durable(Conclude(s, c, outcome))
  {
    if outcome.Got? {
      PrefixMonotone(s.order, outcome.k, |s.order|);
      assert s.order[..|s.order|] == s.order;
    }
  }

  lemma AcceptKeepsDurable(s: State, c: nat, answers: bool)
    requires Durable(s) && Enabled(s, ServerAccept(c, answers))
    ensures Durable(Apply(s, ServerAccept(c, answers)))
  {
    var t := if c in s.order then s else s.(order := s.order + [c]);
    assert Elements(t.order) == Elements(s.order) + {c} by {
      PrefixAppend(s.order, c, 0);
      assert t.order != s.order ==> t.order[..|t.order|] == t.order;
    }
    forall x, k | Covers(s, x, k)
      ensures Covers(t, x, k)
    {
      PrefixAppend(s.order, c, k);
    }
    assert Durable(t);
    assert t.order[..|t.order|] == t.order;
    assert Covers(t, c, |t.order|);
  }

  lemma ResetKeepsDurable(s: State)
    requires Durable(s) && Loading(s) && Enabled(s, Reset)
    ensures Durable(Apply(s, Reset))
  {
    var list := s.loaded.value;
    SyncFromKeepsDurable(s.(client := ResyncStarted(s.client, list), loaded := None, recovering := false), list);
  }

  lemma GrowKeepsDurable(s: State, size: nat)
    requires Durable(s) && s.up && size > 0
    ensures Durable(s.(sizes := s.sizes + [size], client := Recorded(s.client)))
  {
    assert Issued(|s.sizes|) <= Issued(|s.sizes| + 1);
  }

  lemma RecordKeepsDurable(s: State, size: nat)
    requires Durable(s) && Enabled(s, Record(size))
    ensures Durable(Apply(s, Record(size)))
  {
    var c := |s.sizes| + 1;
    GrowKeepsDurable(s, size);
    var t := s.(sizes := s.sizes + [size], client := Recorded(s.client));
    var u := t.(handlers := t.handlers[c := Awaiting]);
    assert u.handlers.Keys == t.handlers.Keys + {c};
    assert Durable(u);
    SendKeepsDurable(u, c);
  }

  lemma OutcomeKeepsDurable(s: State, c: nat, outcome: Wait)
    requires Durable(s) && c in s.handlers && (outcome.Got? ==> Covers(s, c, outcome.k))
    ensures Durable(s.(handlers := s.handlers[c := outcome]))
  {
    assert s.handlers[c := outcome].Keys == s.handlers.Keys;
  }

  lemma HeadKeepsDurable(s: State, c: nat, outcome: Wait)
    requires Durable(s) && (outcome.Got? ==> Covers(s, c, outcome.k))
    ensures Durable(s.(head := if s.todo != [] && s.todo[0] == c && s.head.Awaiting? then outcome else s.head))
  {
  }

  lemma ClosedKeepsDurable(s: State, c: nat)
    requires Durable(s)
    ensures Durable(s.(requests := s.requests - {c}))
  {}

  lemma SettleKeepsDurable(s: State, c: nat, delivered: bool)
    requires Durable(s) && Enabled(s, Settle(c, delivered))
    ensures Durable(Apply(s, Settle(c, delivered)))
  {
    var outcome := OutcomeOf(s, c, delivered);
    ClosedKeepsDurable(s, c);
    var t := s.(requests := s.requests - {c});
    assert outcome.Got? ==> Covers(t, c, outcome.k);
    if c in t.handlers && t.handlers[c].Awaiting? {
      OutcomeKeepsDurable(t, c, outcome);
      t := t.(handlers := t.handlers[c := outcome]);
    }
    assert outcome.Got? ==> Covers(t, c, outcome.k);
    HeadKeepsDurable(t, c, outcome);
  }

  lemma ReloadKeepsDurable(s: State)
    requires Durable(s) && Enabled(s, Reload)
    ensures Durable(Apply(s, Reload))
  {
  }

  lemma HandlerKeepsDurable(s: State, c: nat)
    requires Durable(s) && Enabled(s, HandlerContinues(c))
    ensures Durable(Apply(s, HandlerContinues(c)))
  {
    ConcludeKeepsDurable(s.(handlers := s.handlers - {c}), c, s.handlers[c]);
  }

  lemma RestKeepsDurable(s: State)
    requires Durable(s)
    ensures Durable(s.(todo := [], head := Awaiting))
  {}

  lemma TailElements(s: seq<nat>)
    requires s != []
    ensures Elements(s[1..]) <= Elements(s)
  {}

  lemma SyncKeepsDurable(s: State)
    requires Durable(s) && Enabled(s, SyncContinues)
    ensures Durable(Apply(s, SyncContinues))
  {
    ConcludeKeepsDurable(s, s.todo[0], s.head);
    TailElements(s.todo);
    RestKeepsDurable(Conclude(s, s.todo[0], s.head));
    SyncFromKeepsDurable(Conclude(s, s.todo[0], s.head), s.todo[1..]);
  }

  /** Every step keeps: marked chunks are on the server, and the server holds only recorded chunks. */
  lemma StepKeepsDurable(s: State, step: Step)
    requires Durable(s) && Loading(s) && Enabled(s, step)
    ensures Durable(Apply(s, step))
  {
    match step
    case Record(size) => RecordKeepsDurable(s, size);
    case Stop =>
    case ServerAccept(c, answers) => AcceptKeepsDurable(s, c, answers);
    case Settle(c, delivered) => SettleKeepsDurable(s, c, delivered);
    case HandlerContinues(c) => HandlerKeepsDurable(s, c);
    case SyncContinues => SyncKeepsDurable(s);
    case Retry =>
    case Online =>
    case Reset => ResetKeepsDurable(s);
    case Crash =>
    case Reload => ReloadKeepsDurable(s);
  }

  // ----- `uploaded` and `savedBytes` report acceptance prefixes -----

  /**
   Since the page was loaded, either no acknowledgement came and the counters describe the
   chunks marked at load, or `uploaded` is an acceptance count whose prefix holds every
   acknowledged chunk, and `savedBytes` is the size of the prefix last reported.
   */
  ghost predicate Reported(s: State) {
    var c := s.client;
    s.up && s.base <= |s.order| ==>
      && c.acked == s.marked
      && s.seed <= c.acked
      && s.seed <= Prefix(s.order, s.base)
      && c.uploaded <= |s.order|
      && s.lastTotal <= c.uploaded
      && if s.unacked
         then c.acked == s.seed && c.uploaded == |s.seed| == s.lastTotal && c.savedBytes == Bytes(s.sizes, s.seed)
         else s.base <= c.uploaded && c.acked <= Prefix(s.order, c.uploaded)
              && c.savedBytes == Bytes(s.sizes, Prefix(s.order, s.lastTotal))
  }

  lemma ReportedUnlessClientMoves(s: State, t: State)
    requires Durable(s) && Reported(s)
    requires t.up ==> s.up
    requires t.client.(pending := 0, failed := 0, failedSet := {}) == s.client.(pending := 0, failed := 0, failedSet := {})
    requires t.marked == s.marked && t.seed == s.seed && t.base == s.base && t.unacked == s.unacked && t.lastTotal == s.lastTotal
    requires t.order == s.order && t.sizes == s.sizes
    ensures Reported(t)
  {
  }

  lemma AcceptKeepsReported(s: State, c: nat, answers: bool)
    requires Durable(s) && Reported(s) && Enabled(s, ServerAccept(c, answers))
    ensures Reported(Apply(s, ServerAccept(c, answers)))
  {
    if s.up && c !in s.order {
      PrefixAppend(s.order, c, s.base);
      PrefixAppend(s.order, c, s.client.uploaded);
      PrefixAppend(s.order, c, s.lastTotal);
    }
  }

  lemma RecordKeepsReported(s: State, size: nat)
    requires Durable(s) && Reported(s) && Enabled(s, Record(size))
    ensures Reported(Apply(s, Record(size)))
  {
    BytesOfNewChunk(s.sizes, size, s.seed);
    BytesOfNewChunk(s.sizes, size, Prefix(s.order, s.lastTotal));
    assert s.order[..|s.order|] == s.order;
    PrefixMonotone(s.order, s.lastTotal, |s.order|);
    PrefixMonotone(s.order, s.base, |s.order|);
  }

  lemma AcknowledgeKeepsReported(s: State, c: nat, k: nat)
    requires Durable(s) && Reported(s) && s.up && Covers(s, c, k)
    ensures Reported(Acknowledge(s, c, k))
  {
    var t := Acknowledge(s, c, k);
    var u := t.client.uploaded;
    assert s.base <= u;
    PrefixMonotone(s.order, k, u);
    PrefixMonotone(s.order, s.base, u);
    if !s.unacked {
      PrefixMonotone(s.order, s.client.uploaded, u);
    }
    assert t.client.acked == t.marked;
  }

  lemma ConcludeKeepsReported(s: State, c: nat, outcome: Wait)
    requires Durable(s) && Reported(s) && s.up && (outcome.Got? ==> Covers(s, c, outcome.k))
    ensures Reported(Conclude(s, c, outcome))
  {
    if outcome.Got? {
      AcknowledgeKeepsReported(s, c, outcome.k);
    } else {
      ReportedUnlessClientMoves(s, Conclude(s, c, outcome));
    }
  }

  lemma ReloadKeepsReported(s: State)
    requires Durable(s) && Enabled(s, Reload)
    ensures Reported(Apply(s, Reload))
  {
    var t := Apply(s, Reload);
    assert s.order[..|s.order|] == s.order;
    SubsetSize(s.marked, Elements(s.order));
    DistinctSize(s.order);
    assert Prefix(t.order, t.base) == Elements(s.order);
  }

  lemma SettleKeepsReported(s: State, c: nat, delivered: bool)
    requires Durable(s) && Reported(s) && Enabled(s, Settle(c, delivered))
    ensures Reported(Apply(s, Settle(c, delivered)))
  {
    ReportedUnlessClientMoves(s, Apply(s, Settle(c, delivered)));
  }

  lemma ResetKeepsReported(s: State)
    requires Durable(s) && Reported(s) && Enabled(s, Reset)
    ensures Reported(Apply(s, Reset))
  {
    ReportedUnlessClientMoves(s, Apply(s, Reset));
  }

  lemma HandlerKeepsReported(s: State, c: nat)
    requires Durable(s) && Reported(s) && Enabled(s, HandlerContinues(c))
    ensures Reported(Apply(s, HandlerContinues(c)))
  {
    var u := s.(handlers := s.handlers - {c});
    ReportedUnlessClientMoves(s, u);
    assert Durable(u);
    ConcludeKeepsReported(u, c, s.handlers[c]);
  }

  lemma SyncKeepsReported(s: State)
    requires Durable(s) && Reported(s) && Enabled(s, SyncContinues)
    ensures Reported(Apply(s, SyncContinues))
  {
    ConcludeKeepsReported(s, s.todo[0], s.head);
    ConcludeKeepsDurable(s, s.todo[0], s.head);
    var u := Conclude(s, s.todo[0], s.head);
    ReportedUnlessClientMoves(u, SyncFrom(u, s.todo[1..]));
  }

  /** Every step keeps the meaning of `uploaded` and `savedBytes`, in whatever order acks are applied. */
  lemma PageStepKeepsReported(s: State, step: Step)
    requires Durable(s) && Reported(s) && Enabled(s, step)
    requires step.Stop? || step.Retry? || step.Online? || step.Reset? || step.Crash? || step.Reload?
    ensures Reported(Apply(s, step))
  {
    match step
    case Stop => ReportedUnlessClientMoves(s, s.(recording := false));
    case Retry => ReportedUnlessClientMoves(s, Load(s));
    case Online => ReportedUnlessClientMoves(s, Load(s));
    case Reset => ResetKeepsReported(s);
    case Crash => assert !CrashStep(s).up;
    case Reload => ReloadKeepsReported(s);
  }

  lemma StepKeepsReported(s: State, step: Step)
    requires Durable(s) && Reported(s) && Enabled(s, step)
    ensures Reported(Apply(s, step))
  {
    match step
    case Record(size) => RecordKeepsReported(s, size);
    case ServerAccept(c, answers) => AcceptKeepsReported(s, c, answers);
    case Settle(c, delivered) => SettleKeepsReported(s, c, delivered);
    case HandlerContinues(c) => HandlerKeepsReported(s, c);
    case SyncContinues => SyncKeepsReported(s);
    case _ => PageStepKeepsReported(s, step);
  }

  // ----- The counters are exact while every reset of a resync is balanced -----

  /**
   Each recorded chunk is acknowledged, failed, awaited by its handler or queued in the resync; only a queued chunk may
   be acknowledged, too.
   */
  ghost predicate Placed(acked: set<nat>, failed: set<nat>, waiting: set<nat>, queued: set<nat>, n: nat) {
    && (forall x :: x in acked ==> x !in failed)
    && (forall x :: x in waiting ==> x !in acked && x !in failed && x !in queued)
    && (forall x :: x in queued ==> x !in failed)
    && (forall x :: 1 <= x <= n <==> x in acked || x in failed || x in waiting || x in queued)
  }

  /** The chunks that an outcome still moves. */
  function OpenCount(acked: set<nat>, waiting: set<nat>, queued: set<nat>): nat { |waiting| + |queued - acked| }

  /** Every chunk has its place, and the counters count the open and the failed ones. */
  ghost predicate Ledger(c: Client, waiting: set<nat>, queued: set<nat>, n: nat) {
    && Placed(c.acked, c.failedSet, waiting, queued, n)
    && c.pending == OpenCount(c.acked, waiting, queued)
    && c.failed == |c.failedSet|
  }

  /** What the counters count as queued: the rest of the resync, or the list a recovery is about to enter. */
  function Queued(s: State): seq<nat> {
    if s.recovering && s.loaded.Some? then s.loaded.value else s.todo
  }

  ghost predicate Books(c: Client, marked: set<nat>, waiting: set<nat>, queued: seq<nat>, n: nat) {
    c.acked == marked && Distinct(queued) && Ledger(c, waiting, Elements(queued), n)
  }

  ghost predicate Counted(s: State) {
    s.up ==> Books(s.client, s.marked, s.handlers.Keys, Queued(s), |s.sizes|)
  }

  /**
   The loaded list holds every failed chunk and none whose handler still waits, and as many of its chunks were
   acknowledged since the load as handlers wait now, so that its length is the number of open chunks.
   */
  predicate Balanced(c: Client, waiting: set<nat>, list: seq<nat>) {
    && c.failedSet <= Elements(list)
    && waiting !! Elements(list)
    && |Elements(list) * c.acked| == |waiting|
  }

  /** A reset that enters chunks is balanced, or belongs to a recovery, whose counters describe them already. */
  predicate Quiet(s: State, step: Step)
    requires Enabled(s, step)
  {
    step.Reset? && !s.recovering && s.loaded.value != [] ==> Balanced(s.client, s.handlers.Keys, s.loaded.value)
  }

  lemma LedgerIsExact(c: Client, waiting: set<nat>, queued: set<nat>, n: nat)
    requires Ledger(c, waiting, queued, n)
    ensures Exact(c, Issued(n))
  {
    var open := queued - c.acked;
    assert Unsettled(c, Issued(n)) == waiting + open;
    assert waiting !! open;
  }

  lemma LedgerRecord(c: Client, waiting: set<nat>, queued: set<nat>, n: nat)
    requires Ledger(c, waiting, queued, n)
    ensures Ledger(Recorded(c), waiting + {n + 1}, queued, n + 1)
  {
    assert n + 1 !in waiting;
    assert Placed(c.acked, c.failedSet, waiting + {n + 1}, queued, n + 1);
  }

  lemma HandledIsPlaced(acked: set<nat>, failed: set<nat>, before: set<nat>, queued: set<nat>, n: nat, x: nat)
    requires Placed(acked, failed, before, queued, n) && x in before
    ensures Placed(acked + {x}, failed - {x}, before - {x}, queued, n)
    ensures Placed(acked, failed + {x}, before - {x}, queued, n)
    ensures failed - {x} == failed && queued - (acked + {x}) == queued - acked && x !in acked && x !in failed
  {
  }

  /** The outcome of an awaited chunk. */
  lemma LedgerHandled(c: Client, before: set<nat>, queued: set<nat>, n: nat, x: nat, ack: Ack)
    requires Ledger(c, before, queued, n) && x in before && ack.sequence == x
    ensures Ledger(AckApplied(c, ack), before - {x}, queued, n) && Ledger(FailureApplied(c, x), before - {x}, queued, n)
    ensures c.pending > 0 && AckApplied(c, ack).pending == c.pending - 1 == FailureApplied(c, x).pending
  {
    HandledIsPlaced(c.acked, c.failedSet, before, queued, n, x);
    assert |before| == |before - {x}| + 1;
  }

  lemma SyncedIsPlaced(acked: set<nat>, failed: set<nat>, waiting: set<nat>, rest: set<nat>, n: nat, x: nat)
    requires Placed(acked, failed, waiting, rest + {x}, n) && x !in rest
    ensures Placed(acked + {x}, failed - {x}, waiting, rest, n)
    ensures if x in acked then Placed(acked, failed, waiting, rest, n) else Placed(acked, failed + {x}, waiting, rest, n)
    ensures failed - {x} == failed && x !in failed
  {
    if x in acked { assert acked + {x} == acked; }
  }

  lemma SyncedCounts(acked: set<nat>, rest: set<nat>, x: nat)
    requires x !in rest
    ensures |rest - (acked + {x})| == |rest - acked|
    ensures |rest + {x} - acked| == |rest - acked| + if x in acked then 0 else 1
  {
    assert rest - (acked + {x}) == rest - acked;
    if x in acked {
      assert rest + {x} - acked == rest - acked;
    } else {
      assert rest + {x} - acked == (rest - acked) + {x};
    }
  }

  /** The outcome of a queued chunk; one acknowledged before changes no count. */
  lemma LedgerSynced(c: Client, waiting: set<nat>, rest: set<nat>, n: nat, x: nat, ack: Ack)
    requires Ledger(c, waiting, rest + {x}, n) && x !in rest && ack.sequence == x
    ensures Ledger(AckApplied(c, ack), waiting, rest, n) && Ledger(FailureApplied(c, x), waiting, rest, n)
    ensures if x in c.acked then AckApplied(c, ack).pending == c.pending == FailureApplied(c, x).pending
            else c.pending > 0 && AckApplied(c, ack).pending == c.pending - 1 == FailureApplied(c, x).pending
  {
    SyncedIsPlaced(c.acked, c.failedSet, waiting, rest, n, x);
    SyncedCounts(c.acked, rest, x);
  }

  lemma BalancedIsPlaced(c: Client, waiting: set<nat>, all: set<nat>, n: nat)
    requires Placed(c.acked, c.failedSet, waiting, {}, n) && all <= Issued(n)
    ensures Placed(c.acked, c.failedSet - all, waiting, all, n) <==> waiting !! all
  {
    if x :| x in waiting && x in all { assert x in waiting * all; }
  }

  lemma BalancedCounts(acked: set<nat>, waiting: set<nat>, list: seq<nat>)
    requires Distinct(list)
    ensures |list| == OpenCount(acked, waiting, Elements(list)) <==> |Elements(list) * acked| == |waiting|
  {
    var all := Elements(list);
    DistinctSize(list);
    assert all == (all - acked) + (all * acked);
  }

  /** Entering a list keeps the ledger exactly when the list is balanced. */
  lemma LedgerResetIff(c: Client, waiting: set<nat>, list: seq<nat>, n: nat)
    requires Ledger(c, waiting, {}, n) && list != [] && Distinct(list) && Elements(list) <= Issued(n)
    ensures Ledger(ResyncStarted(c, list), waiting, Elements(list), n) <==> Balanced(c, waiting, list)
  {
    var left := c.failedSet - Elements(list);
    BalancedIsPlaced(c, waiting, Elements(list), n);
    BalancedCounts(c.acked, waiting, list);
    assert |left| == 0 <==> left == {};
    assert left == {} <==> c.failedSet <= Elements(list);
  }

  /**
   The two counters themselves are right after the reset exactly when the list holds every failed chunk and is as long
   as the chunks not acknowledged are many.
   */
  lemma ResetIsExactIff(c: Client, list: seq<nat>, n: nat)
    requires list != []
    ensures Exact(ResyncStarted(c, list), Issued(n))
            <==> c.failedSet <= Elements(list) && |list| == |Issued(n) - c.acked|
  {
    var d := ResyncStarted(c, list);
    if c.failedSet <= Elements(list) {
      assert d.failedSet == {};
      assert Unsettled(d, Issued(n)) == Issued(n) - c.acked;
    } else {
      var x :| x in c.failedSet && x !in Elements(list);
      assert x in d.failedSet;
    }
  }

  lemma LedgerOfRecovery(marked: set<nat>, bytes: nat, n: nat)
    requires marked <= Issued(n)
    ensures var list := UnmarkedList(n, marked);
            Distinct(list) && Ledger(Recovered(marked, |list|, bytes), {}, Elements(list), n)
  {
    UnmarkedListIs(n, marked);
    var list := UnmarkedList(n, marked);
    DistinctSize(list);
    assert Elements(list) - marked == Elements(list);
  }

  /** With nothing pending, no handler waits and every chunk is acknowledged or failed. */
  lemma LedgerAtRest(c: Client, waiting: set<nat>, queued: set<nat>, n: nat)
    requires Ledger(c, waiting, queued, n) && c.pending <= 0
    ensures waiting == {} && queued <= c.acked && Issued(n) == c.acked + c.failedSet
  {
    assert waiting == {} && queued - c.acked == {};
  }

  lemma CountedIsExact(s: State)
    requires Counted(s) && s.up
    ensures Exact(s.client, Issued(|s.sizes|))
  {
    LedgerIsExact(s.client, s.handlers.Keys, Elements(Queued(s)), |s.sizes|);
  }

  lemma RecordKeepsCounted(s: State, size: nat)
    requires Loading(s) && Counted(s) && Enabled(s, Record(size))
    ensures Counted(Apply(s, Record(size)))
  {
    var t, n := RecordStep(s, size), |s.sizes|;
    assert !s.recovering && Queued(s) == s.todo == Queued(t);
    LedgerRecord(s.client, s.handlers.Keys, Elements(s.todo), n);
    assert t.handlers.Keys == s.handlers.Keys + {n + 1};
    assert t.client == Recorded(s.client) && t.marked == s.marked && |t.sizes| == n + 1;
  }

  /** What an outcome does to the client, and nothing else that the ledger reads. */
  lemma ConcludeIs(s: State, c: nat, outcome: Wait)
    requires outcome.Got? ==> outcome.k <= |s.order|
    requires s.client.acked == s.marked
    ensures var t := Conclude(s, c, outcome);
            && t.client == (if outcome.Got? then AckApplied(s.client, AckFor(s, c, outcome.k)) else FailureApplied(s.client, c))
            && t.client.acked == t.marked && t.sizes == s.sizes && t.handlers == s.handlers && t.up == s.up
            && t.loaded == s.loaded && t.recovering == s.recovering && t.todo == s.todo
  {}

  lemma HandlerKeepsCounted(s: State, c: nat)
    requires Durable(s) && Loading(s) && Counted(s) && s.up && Enabled(s, HandlerContinues(c))
    ensures Counted(Apply(s, HandlerContinues(c)))
  {
    var u := s.(handlers := s.handlers - {c});
    assert u.handlers.Keys == s.handlers.Keys - {c};
    var k := if s.handlers[c].Got? then s.handlers[c].k else 0;
    ConcludeIs(u, c, s.handlers[c]);
    LedgerHandled(s.client, s.handlers.Keys, Elements(s.todo), |s.sizes|, c, AckFor(u, c, k));
  }

  lemma SyncFromCounts(s: State, todo: seq<nat>)
    requires !s.recovering && s.client.acked == s.marked && Distinct(todo)
    requires Ledger(s.client, s.handlers.Keys, Elements(todo), |s.sizes|)
    ensures Counted(SyncFrom(s, todo))
  {}

  lemma HeadTaken(queued: seq<nat>)
    requires Distinct(queued) && queued != []
    ensures Distinct(queued[1..]) && queued[0] !in Elements(queued[1..])
    ensures Elements(queued) == Elements(queued[1..]) + {queued[0]}
  {
    var rest := queued[1..];
    assert forall i :: 0 <= i < |rest| ==> rest[i] == queued[i + 1];
    assert queued[0] in queued && forall y :: y in queued ==> y == queued[0] || y in rest;
  }

  lemma SyncKeepsCounted(s: State)
    requires Durable(s) && Loading(s) && Counted(s) && s.up && Enabled(s, SyncContinues)
    ensures Counted(Apply(s, SyncContinues))
  {
    var k := if s.head.Got? then s.head.k else 0;
    var c := s.todo[0];
    ConcludeIs(s, c, s.head);
    HeadTaken(s.todo);
    LedgerSynced(s.client, s.handlers.Keys, Elements(s.todo[1..]), |s.sizes|, c, AckFor(s, c, k));
    SyncFromCounts(Conclude(s, c, s.head), s.todo[1..]);
  }

  lemma ResetKeepsCounted(s: State)
    requires Durable(s) && Loading(s) && Counted(s) && Enabled(s, Reset) && Quiet(s, Reset)
    ensures Counted(Apply(s, Reset))
  {
    var list, n := s.loaded.value, |s.sizes|;
    if list != [] {
      if s.recovering { RecoveryIsEntered(s); } else { LedgerResetIff(s.client, s.handlers.Keys, list, n); }
      assert Ledger(ResyncStarted(s.client, list), s.handlers.Keys, Elements(list), n);
    }
  }

  /** Entering a list that the ledger counts already, with nothing of it acknowledged. */
  lemma LedgerEntered(c: Client, list: seq<nat>, n: nat)
    requires Distinct(list) && Ledger(c, {}, Elements(list), n) && Elements(list) == Issued(n) - c.acked
    ensures Ledger(ResyncStarted(c, list), {}, Elements(list), n)
  {
    assert Elements(list) - c.acked == Elements(list);
    DistinctSize(list);
    assert c.failedSet <= Issued(n) - c.acked;
    assert c.failedSet == {};
  }

  /** A recovery's reset enters the list that the counters count already. */
  lemma RecoveryIsEntered(s: State)
    requires Loading(s) && Counted(s) && Enabled(s, Reset) && s.recovering
    ensures Ledger(ResyncStarted(s.client, s.loaded.value), s.handlers.Keys, Elements(s.loaded.value), |s.sizes|)
  {
    UnmarkedListIs(|s.sizes|, s.marked);
    assert s.handlers.Keys == {};
    LedgerEntered(s.client, s.loaded.value, |s.sizes|);
  }

  /** The books survive a reset exactly when it is balanced. */
  lemma ResetKeepsCountedIff(s: State)
    requires Durable(s) && Loading(s) && Counted(s) && Enabled(s, Reset) && !s.recovering && s.loaded.value != []
    ensures Counted(Apply(s, Reset)) <==> Balanced(s.client, s.handlers.Keys, s.loaded.value)
  {
    LedgerResetIff(s.client, s.handlers.Keys, s.loaded.value, |s.sizes|);
  }

  lemma ReloadKeepsCounted(s: State)
    requires Durable(s) && Enabled(s, Reload)
    ensures Counted(Apply(s, Reload))
  {
    LedgerOfRecovery(s.marked, Bytes(s.sizes, s.marked), |s.sizes|);
    assert Apply(s, Reload).handlers.Keys == {};
  }

  lemma SettleKeepsCounted(s: State, c: nat, delivered: bool)
    requires Counted(s) && Enabled(s, Settle(c, delivered))
    ensures Counted(Apply(s, Settle(c, delivered)))
  {
    assert Apply(s, Settle(c, delivered)).handlers.Keys == s.handlers.Keys;
  }

  lemma LoadKeepsCounted(s: State)
    requires Loading(s) && Counted(s)
    ensures Counted(Load(s))
  {
    assert Queued(Load(s)) == Queued(s);
  }

  lemma AcceptKeepsCounted(s: State, c: nat, answers: bool)
    requires Counted(s) && Enabled(s, ServerAccept(c, answers))
    ensures Counted(Apply(s, ServerAccept(c, answers)))
  {
    var t := AcceptStep(s, c, answers);
    assert t.handlers == s.handlers && Queued(t) == Queued(s);
  }

  lemma StepKeepsCounted(s: State, step: Step)
    requires Durable(s) && Loading(s) && Counted(s) && Enabled(s, step) && Quiet(s, step)
    ensures Counted(Apply(s, step))
  {
    match step
    case Record(size) => RecordKeepsCounted(s, size);
    case Stop => assert Queued(s.(recording := false)) == Queued(s);
    case ServerAccept(c, answers) => AcceptKeepsCounted(s, c, answers);
    case Settle(c, delivered) => SettleKeepsCounted(s, c, delivered);
    case HandlerContinues(c) => HandlerKeepsCounted(s, c);
    case SyncContinues => SyncKeepsCounted(s);
    case Retry => LoadKeepsCounted(s);
    case Online => LoadKeepsCounted(s);
    case Reset => ResetKeepsCounted(s);
    case Crash => assert !CrashStep(s).up;
    case Reload => ReloadKeepsCounted(s);
  }

  // ----- Whole runs -----

  predicate QuietRun(s: State, steps: seq<Step>)
    requires ValidRun(s, steps)
    decreases |steps|
  {
    steps == [] || (Quiet(s, steps[0]) && QuietRun(Apply(s, steps[0]), steps[1..]))
  }

  lemma {:induction false} RunAppend(s: State, a: seq<Step>, b: seq<Step>)
    requires ValidRun(s, a) && ValidRun(Run(s, a), b)
    ensures ValidRun(s, a + b) && Run(s, a + b) == Run(Run(s, a), b)
    ensures QuietRun(s, a) && QuietRun(Run(s, a), b) ==> QuietRun(s, a + b)
    decreases |a|
  {
    if a == [] {
      assert a + b == b;
    } else {
      assert (a + b)[0] == a[0] && (a + b)[1..] == a[1..] + b;
      RunAppend(Apply(s, a[0]), a[1..], b);
    }
  }

  lemma RunOne(s: State, a: Step)
    requires Enabled(s, a)
    ensures ValidRun(s, [a]) && Run(s, [a]) == Apply(s, a)
    ensures QuietRun(s, [a]) <==> Quiet(s, a)
  {
    var t := Apply(s, a);
    assert [a][1..] == [];
    assert ValidRun(t, []) && Run(t, []) == t && QuietRun(t, []);
  }

  lemma RunTwo(s: State, a: Step, b: Step)
    requires Enabled(s, a) && Enabled(Apply(s, a), b)
    ensures ValidRun(s, [a, b]) && Run(s, [a, b]) == Apply(Apply(s, a), b)
  {
    RunOne(s, a);
    RunOne(Apply(s, a), b);
    RunAppend(s, [a], [b]);
    assert [a] + [b] == [a, b];
  }

  lemma InitHolds()
    ensures Durable(Init) && Loading(Init) && Reported(Init) && Counted(Init)
  {
    assert Init.handlers.Keys == {} && Init.requests.Keys == {} && Elements([]) == {};
  }

  /** The `online` listener starts a resync only once recording is over and with nothing pending, as the retry button does. */
  predicate Calm(s: State, step: Step) {
    step.Online? && !Busy(s) ==> !s.recording && s.client.pending <= 0
  }

  /** Between a calm load and its reset nothing is recorded and nothing is awaited. */
  ghost predicate Still(s: State) {
    s.loaded.Some? && s.loaded.value != [] && !s.recovering ==>
      !s.recording && s.handlers == map[] && Elements(s.loaded.value) == Issued(|s.sizes|) - s.marked
  }

  lemma LoadIsStill(s: State)
    requires Counted(s) && s.up && !Busy(s) && !s.recovering && !s.recording && s.client.pending <= 0
    ensures Still(Load(s))
  {
    LedgerAtRest(s.client, s.handlers.Keys, Elements(s.todo), |s.sizes|);
    UnmarkedListIs(|s.sizes|, s.marked);
    assert s.handlers.Keys == {};
  }

  lemma WaitingIsStill(s: State, step: Step)
    requires Loading(s) && Still(s) && Enabled(s, step) && s.loaded.Some? && !s.recovering && !step.Reset? && !step.Crash?
    ensures Apply(s, step).loaded == s.loaded && Still(Apply(s, step))
  {}

  lemma StillIsQuiet(s: State)
    requires Counted(s) && Still(s) && Enabled(s, Reset)
    ensures Quiet(s, Reset)
  {
    var list := s.loaded.value;
    if !s.recovering && list != [] {
      LedgerIsExact(s.client, s.handlers.Keys, Elements(Queued(s)), |s.sizes|);
      assert s.handlers.Keys == {} && Elements(list) * s.client.acked == {};
    }
  }

  /** A load is the only step that leaves a list to wait with. */
  lemma NoLoadNoWait(s: State, step: Step)
    requires Loading(s) && Enabled(s, step) && !step.Online? && !step.Retry?
    requires s.loaded.Some? && s.loaded.value != [] ==> s.recovering
    ensures Still(Apply(s, step))
  {
    match step
    case SyncContinues => assert Apply(s, step).loaded == s.loaded;
    case _ =>
  }

  lemma StepKeepsStill(s: State, step: Step)
    requires Durable(s) && Loading(s) && Counted(s) && Still(s) && Enabled(s, step) && Calm(s, step)
    ensures Still(Apply(s, step)) && Quiet(s, step)
  {
    if step.Reset? { StillIsQuiet(s); }
    if step.Online? || step.Retry? {
      if !Busy(s) { LoadIsStill(s); }
    } else if s.loaded.Some? && s.loaded.value != [] && !s.recovering {
      if !step.Reset? && !step.Crash? { WaitingIsStill(s, step); }
    } else {
      NoLoadNoWait(s, step);
    }
  }

  // ----- The gate and the seal -----

  /** The manifest the server has after accepting `order`. */
  function Manifest(order: seq<nat>, sizes: seq<nat>): seq<Entry> {
    if order == [] then []
    else
      var x := order[|order| - 1];
      Saved(Manifest(order[..|order| - 1], sizes), Entry(x, SizeOf(sizes, x)))
  }

  function SizeOf(sizes: seq<nat>, x: nat): nat {
    if 1 <= x <= |sizes| then sizes[x - 1] else 0
  }

  lemma {:induction false} BytesOfOneMore(sizes: seq<nat>, s: set<nat>, x: nat)
    requires 1 <= x <= |sizes| && x !in s
    ensures Bytes(sizes, s + {x}) == Bytes(sizes, s) + sizes[x - 1]
  {
    var n := |sizes|;
    if x == n {
      BytesOutside(sizes[..n - 1], s, {x});
    } else {
      BytesOfOneMore(sizes[..n - 1], s, x);
    }
  }

  lemma {:induction false} BytesOutside(sizes: seq<nat>, s: set<nat>, extra: set<nat>)
    requires forall x :: x in extra ==> x > |sizes|
    ensures Bytes(sizes, s + extra) == Bytes(sizes, s)
  {
    if sizes != [] { BytesOutside(sizes[..|sizes| - 1], s, extra); }
  }

  /** One more acceptance of a chunk not accepted before. */
  lemma ManifestGrows(init: seq<nat>, x: nat, sizes: seq<nat>)
    requires x !in Elements(init) && 1 <= x <= |sizes|
    requires var m := Manifest(init, sizes); Sorted(m) && Sequences(m) == Elements(init)
    ensures var m, n := Manifest(init, sizes), Manifest(init + [x], sizes);
            && Sorted(n) && |n| == |m| + 1
            && TotalBytes(n) == TotalBytes(m) + sizes[x - 1]
            && Sequences(n) == Elements(init) + {x}
  {
    var order := init + [x];
    var m, e := Manifest(init, sizes), Entry(x, sizes[x - 1]);
    assert order[..|order| - 1] == init && order[|order| - 1] == x;
    assert Manifest(order, sizes) == Saved(m, e) == Insert(m, e);
    InsertAdds(m, e);
  }

  /** The totals in the server's acknowledgement: its chunk count and the bytes of the accepted set. */
  lemma {:induction false} ManifestTotals(order: seq<nat>, sizes: seq<nat>)
    requires Distinct(order) && forall i :: 0 <= i < |order| ==> 1 <= order[i] <= |sizes|
    ensures var m := Manifest(order, sizes);
            && Sorted(m) && |m| == |order|
            && TotalBytes(m) == Bytes(sizes, Elements(order))
            && Sequences(m) == Elements(order)
  {
    if order == [] {
      BytesOfNone(sizes);
      assert Elements(order) == {};
    } else {
      var init, x := order[..|order| - 1], order[|order| - 1];
      assert order == init + [x];
      ManifestTotals(init, sizes);
      ElementsAppend(init, x);
      assert x !in Elements(init);
      ManifestGrows(init, x, sizes);
      BytesOfOneMore(sizes, Elements(init), x);
    }
  }

  lemma {:induction false} BytesOfNone(sizes: seq<nat>)
    ensures Bytes(sizes, {}) == 0
  {
    if sizes != [] { BytesOfNone(sizes[..|sizes| - 1]); }
  }

  /** When everything recorded is acknowledged, `uploaded` is the number of recorded chunks. */
  lemma UploadedIsAll(s: State)
    requires Durable(s) && Reported(s) && s.up && s.client.acked == Issued(|s.sizes|)
    ensures Elements(s.order) == Issued(|s.sizes|) && |s.order| == |s.sizes| == s.client.uploaded
  {
    var n := |s.sizes|;
    IssuedSize(n);
    DistinctSize(s.order);
    SubsetSize(Issued(n), Elements(s.order));
    if !s.unacked {
      PrefixSize(s.order, s.client.uploaded);
      SubsetSize(Issued(n), Prefix(s.order, s.client.uploaded));
    }
  }

  /** `savedBytes` is the full total exactly when the last applied ack reported the full count. */
  lemma SavedBytesAtGate(s: State)
    requires Durable(s) && Reported(s) && s.up && s.client.acked == Issued(|s.sizes|)
    ensures s.client.savedBytes == Bytes(s.sizes, Elements(s.order)) <==> s.lastTotal == s.client.uploaded
  {
    UploadedIsAll(s);
    var n, all := |s.sizes|, Elements(s.order);
    assert s.order[..|s.order|] == s.order;
    if !s.unacked {
      var part := Prefix(s.order, s.lastTotal);
      PrefixMonotone(s.order, s.lastTotal, |s.order|);
      PrefixSize(s.order, s.lastTotal);
      PrefixSize(s.order, |s.order|);
      BytesStrictlyMonotone(s.sizes, part, all);
      assert part * Issued(n) == part && all * Issued(n) == all;
      if s.lastTotal != |s.order| { assert part != all; }
    }
  }

  /** The manifest of all recorded chunks passes every seal check but, perhaps, the byte total. */
  lemma SealIff(order: seq<nat>, sizes: seq<nat>, totalBytes: int)
    requires Distinct(order) && Elements(order) == Issued(|sizes|) && |order| == |sizes| > 0 && totalBytes > 0
    ensures SealAccepted(Manifest(order, sizes), |sizes|, totalBytes) <==> totalBytes == Bytes(sizes, Elements(order))
  {
    assert forall i :: 0 <= i < |order| ==> order[i] in Elements(order);
    ManifestTotals(order, sizes);
    var m := Manifest(order, sizes);
    forall i | 0 <= i < |m| ensures 1 <= m[i].sequence <= |m| {
      assert m[i].sequence in Sequences(m);
    }
    CompleteSequence(m, |m|);
  }

  /** With nothing pending and nothing failed, every recorded chunk is acknowledged. */
  lemma SettledIsAcknowledged(s: State)
    requires Counted(s) && s.up && s.client.pending <= 0 && s.client.failed <= 0
    ensures s.client.acked == Issued(|s.sizes|) && s.handlers == map[] && Elements(Queued(s)) <= s.client.acked
  {
    LedgerAtRest(s.client, s.handlers.Keys, Elements(Queued(s)), |s.sizes|);
    assert s.handlers.Keys == {} && s.client.failedSet == {};
  }

  lemma GateMeansComplete(s: State)
    requires Durable(s) && Loading(s) && Reported(s) && Counted(s) && s.up && GateOpen(s.client)
    ensures s.client.acked == Issued(|s.sizes|)
    ensures Elements(s.order) == Issued(|s.sizes|)
    ensures s.client.uploaded == |s.sizes| == |s.order|
    ensures s.handlers == map[] && Elements(Queued(s)) <= s.client.acked
    ensures SealAccepted(Manifest(s.order, s.sizes), s.client.uploaded, s.client.savedBytes)
       <==> s.lastTotal == s.client.uploaded
  {
    SettledIsAcknowledged(s);
    UploadedIsAll(s);
    SavedBytesAtGate(s);
    SealIff(s.order, s.sizes, s.client.savedBytes);
  }

  /** An acknowledgement applied by this step is not older than one already applied. */
  predicate InOrder(s: State, step: Step)
    requires Enabled(s, step)
  {
    match step
    case HandlerContinues(c) => s.handlers[c].Got? ==> s.handlers[c].k >= s.client.uploaded
    case SyncContinues => s.head.Got? ==> s.head.k >= s.client.uploaded
    case _ => true
  }

  lemma InOrderConclude(s: State, c: nat, outcome: Wait)
    requires outcome.Got? ==> s.client.uploaded <= outcome.k <= |s.order|
    requires s.lastTotal == s.client.uploaded
    ensures var t := Conclude(s, c, outcome); t.lastTotal == t.client.uploaded
  {}

  lemma InOrderStep(s: State, step: Step)
    requires Enabled(s, step) && InOrder(s, step) && (s.up ==> s.lastTotal == s.client.uploaded)
    requires s.up || !(step.HandlerContinues? || step.SyncContinues?)
    ensures var t := Apply(s, step); t.up ==> t.lastTotal == t.client.uploaded
  {
    match step
    case HandlerContinues(c) => InOrderConclude(s.(handlers := s.handlers - {c}), c, s.handlers[c]);
    case SyncContinues => InOrderConclude(s, s.todo[0], s.head);
    case _ =>
  }
}
