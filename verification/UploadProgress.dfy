/**
 Nothing is stuck for good: whatever happened to a meeting's upload, a page that recovers it and deliveries that succeed
 lead to an open gate and a seal (src/components/meeting-recorder.tsx:236-247, 290-345).
 */
module UploadProgress {
  import opened Text
  import opened ChunkUploadClient
  import opened AudioManifest
  import opened UploadProtocol
  import U = UploadPage

  /** The server stores the chunk and answers, the answer arrives, and the resync loop goes on. */
  function Delivery(c: nat): seq<Step> { [ServerAccept(c, true), Settle(c, true), SyncContinues] }

  function Deliveries(todo: seq<nat>): seq<Step> {
    if todo == [] then [] else Delivery(todo[0]) + Deliveries(todo[1..])
  }

  ghost predicate Sound(s: State) { Durable(s) && Loading(s) && Reported(s) && Counted(s) }

  lemma StepKeepsSound(s: State, step: Step)
    requires Sound(s) && Enabled(s, step) && Quiet(s, step)
    ensures Sound(Apply(s, step))
  {
    StepKeepsDurable(s, step);
    StepKeepsLoading(s, step);
    StepKeepsReported(s, step);
    StepKeepsCounted(s, step);
  }

  /** A resync loop at work, alone: its first chunk has the only open request. */
  predicate Looping(s: State) {
    && s.up && !s.recovering && s.loaded.None? && s.handlers == map[] && s.head.Awaiting?
    && s.client.failed == 0 && s.lastTotal == s.client.uploaded
    && s.requests == (if s.todo == [] then map[] else map[s.todo[0] := Waiting])
    && (s.todo != [] ==> s.todo[0] in s.sent)
  }

  function Stored(s: State, c: nat): State { AcceptStep(s, c, true) }

  function Answering(s: State, c: nat): State
    requires s.todo != [] && s.todo[0] == c
  {
    SettleStep(Stored(s, c), c, Got(|Stored(s, c).order|))
  }

  lemma StoreIs(s: State, c: nat)
    requires Sound(s) && Looping(s) && s.todo != [] && c == s.todo[0]
    ensures Enabled(s, ServerAccept(c, true)) && Sound(Stored(s, c))
    ensures Enabled(Stored(s, c), Settle(c, true)) && Apply(Stored(s, c), Settle(c, true)) == Answering(s, c)
  {
    StepKeepsSound(s, ServerAccept(c, true));
  }

  /** What the answer leaves for the loop to read. */
  predicate AfterAnswer(s: State, t: State) {
    && t.up && !t.recovering && t.loaded.None? && t.handlers == map[] && t.requests == map[] && t.client == s.client
    && t.head == Got(|t.order|) && t.todo == s.todo && t.sizes == s.sizes
  }

  lemma AnswerReads(s: State, c: nat)
    requires Looping(s) && s.todo != [] && c == s.todo[0]
    ensures AfterAnswer(s, Answering(s, c))
  {
  }

  lemma AnswerIs(s: State, c: nat)
    requires Sound(s) && Looping(s) && s.todo != [] && c == s.todo[0]
    ensures Sound(Answering(s, c)) && Enabled(Answering(s, c), SyncContinues) && AfterAnswer(s, Answering(s, c))
  {
    StoreIs(s, c);
    AnswerReads(s, c);
    StepKeepsSound(Stored(s, c), Settle(c, true));
  }

  lemma AckIs(s: State, t: State)
    requires Sound(t) && Looping(s) && AfterAnswer(s, t) && t.todo != [] && Enabled(t, SyncContinues)
    ensures var u := Apply(t, SyncContinues);
            Sound(u) && Looping(u) && u.todo == t.todo[1..] && u.sizes == t.sizes
  {
    StepKeepsSound(t, SyncContinues);
    assert t.client.uploaded <= |t.order|;
  }

  lemma DeliveryIs(s: State, c: nat)
    requires Sound(s) && Looping(s) && s.todo != [] && c == s.todo[0]
    ensures ValidRun(s, Delivery(c))
    ensures var u := Run(s, Delivery(c)); Sound(u) && Looping(u) && u.todo == s.todo[1..] && u.sizes == s.sizes
  {
    var t := Answering(s, c);
    StoreIs(s, c);
    AnswerIs(s, c);
    AckIs(s, t);
    DeliveryRuns(s, c, t);
  }

  lemma DeliveryRuns(s: State, c: nat, t: State)
    requires Enabled(s, ServerAccept(c, true)) && Enabled(Apply(s, ServerAccept(c, true)), Settle(c, true))
    requires t == Apply(Apply(s, ServerAccept(c, true)), Settle(c, true)) && Enabled(t, SyncContinues)
    ensures ValidRun(s, Delivery(c)) && Run(s, Delivery(c)) == Apply(t, SyncContinues)
  {
    RunTwo(s, ServerAccept(c, true), Settle(c, true));
    RunOne(t, SyncContinues);
    RunAppend(s, [ServerAccept(c, true), Settle(c, true)], [SyncContinues]);
    assert Delivery(c) == [ServerAccept(c, true), Settle(c, true)] + [SyncContinues];
  }

  lemma {:induction false} DeliveriesAre(s: State)
    requires Sound(s) && Looping(s)
    ensures ValidRun(s, Deliveries(s.todo))
    ensures var u := Run(s, Deliveries(s.todo)); Sound(u) && Looping(u) && u.todo == [] && u.sizes == s.sizes
    decreases |s.todo|
  {
    if s.todo != [] {
      DeliveryIs(s, s.todo[0]);
      DeliveriesAre(Run(s, Delivery(s.todo[0])));
      RunAppend(s, Delivery(s.todo[0]), Deliveries(s.todo[1..]));
    }
  }

  lemma {:induction false} BytesOfAll(sizes: seq<nat>)
    requires sizes != [] && forall i :: 0 <= i < |sizes| ==> sizes[i] > 0
    ensures Bytes(sizes, Issued(|sizes|)) > 0
  {
    BytesOfNone(sizes);
    BytesStrictlyMonotone(sizes, {}, Issued(|sizes|));
    IssuedSize(|sizes|);
    assert Issued(|sizes|) * Issued(|sizes|) == Issued(|sizes|) && {} * Issued(|sizes|) == {};
  }

  /** A loop that has come to its end leaves an open gate and a total that seals. */
  lemma LoopedSeals(s: State)
    requires Sound(s) && Looping(s) && s.todo == [] && s.sizes != []
    ensures GateOpen(s.client) && SealAccepted(Manifest(s.order, s.sizes), s.client.uploaded, s.client.savedBytes)
    ensures s.client.uploaded == |s.sizes|
  {
    assert s.handlers.Keys == {} && Elements(Queued(s)) == {};
    assert s.client.pending == 0;
    SettledIsAcknowledged(s);
    UploadedIsAll(s);
    SavedBytesAtGate(s);
    BytesOfAll(s.sizes);
    GateMeansComplete(s);
  }

  /** From a page that is down: recovery, its resync's reset, and a delivery of every unmarked chunk. */
  function Recovery(s: State): seq<Step> { [Reload, Reset] + Deliveries(UnmarkedList(|s.sizes|, s.marked)) }

  lemma ReloadIs(s: State)
    requires Durable(s) && Loading(s) && Enabled(s, Reload)
    ensures var t := Reloaded(s); Sound(t) && Enabled(t, Reset) && Quiet(t, Reset) && t.recovering
  {
    StepKeepsLoading(s, Reload);
    ReloadKeepsDurable(s);
    ReloadKeepsReported(s);
    ReloadKeepsCounted(s);
  }

  lemma EntersLoop(t: State)
    requires t.up && t.loaded.Some? && t.handlers == map[] && t.requests == map[]
    requires t.client.failed == 0 && t.lastTotal == t.client.uploaded
    ensures var u := Apply(t, Reset); Looping(u) && u.todo == t.loaded.value && u.sizes == t.sizes
  {
    var list := t.loaded.value;
    if list != [] { assert map[][list[0] := Waiting] == map[list[0] := Waiting]; }
  }

  lemma ResetIs(s: State)
    requires Durable(s) && Loading(s) && Enabled(s, Reload)
    ensures var u := Apply(Reloaded(s), Reset);
            Sound(u) && Looping(u) && u.todo == UnmarkedList(|s.sizes|, s.marked) && u.sizes == s.sizes
  {
    ReloadIs(s);
    var t := Reloaded(s);
    EntersLoop(t);
    StepKeepsSound(t, Reset);
  }

  /** A recovered page whose uploads are delivered opens the gate and seals, whatever went before. */
  lemma RecoverySeals(s: State)
    requires Durable(s) && Loading(s) && Enabled(s, Reload)
    ensures ValidRun(s, Recovery(s))
    ensures var u := Run(s, Recovery(s));
            && u.up && GateOpen(u.client) && u.sizes == s.sizes && u.client.uploaded == |s.sizes|
            && SealAccepted(Manifest(u.order, u.sizes), u.client.uploaded, u.client.savedBytes)
  {
    ReloadIs(s);
    ResetIs(s);
    var u := Apply(Reloaded(s), Reset);
    DeliveriesAre(u);
    LoopedSeals(Run(u, Deliveries(u.todo)));
    RunTwo(s, Reload, Reset);
    RunAppend(s, [Reload, Reset], Deliveries(u.todo));
  }

  /** The same on a page that loads and recovers the meeting last shown, or another one. */
  function PageRecovery(p: U.Page, stored: Option<nat>): seq<U.Step>
    requires U.Enabled(p, U.Recover(stored))
  {
    var m := if stored.Some? then p.others[stored.value] else p.now;
    [U.Recover(stored)] + U.AllOnPage(Recovery(m)[1..])
  }

  /** After any run, quiet or not, every stored meeting can be recovered and then seals with all of its chunks. */
  lemma EveryMeetingCanBeSealed(steps: seq<U.Step>, stored: Option<nat>)
    requires U.ValidRun(U.Start, steps) && U.Enabled(U.Run(U.Start, steps), U.Recover(stored))
    ensures var p := U.Run(U.Start, steps);
            var m := if stored.Some? then p.others[stored.value] else p.now;
            && U.ValidRun(p, PageRecovery(p, stored))
            && var u := U.Run(p, PageRecovery(p, stored)).now;
               && u.up && GateOpen(u.client) && u.sizes == m.sizes && u.client.uploaded == |m.sizes|
               && SealAccepted(Manifest(u.order, u.sizes), u.client.uploaded, u.client.savedBytes)
  {
    var p := U.Run(U.Start, steps);
    U.StartIsGood();
    U.RunKeepsStored(U.Start, steps);
    if stored.Some? {
      var i := stored.value;
      var swapped := U.Page(p.others[i], p.others[i := p.now]);
      RecoveryOnPage(swapped);
      assert U.Apply(swapped, U.Recover(None)) == U.Apply(p, U.Recover(stored));
    } else {
      RecoveryOnPage(p);
    }
  }

  /** What the recovery steps of the meeting shown do on the page. */
  lemma RecoveryOnPage(p: U.Page)
    requires U.Stored(p.now) && U.Enabled(p, U.Recover(None))
    ensures var rest := U.AllOnPage(Recovery(p.now)[1..]);
            && U.ValidRun(U.Apply(p, U.Recover(None)), rest)
            && var u := U.Run(U.Apply(p, U.Recover(None)), rest).now;
               && u.up && GateOpen(u.client) && u.sizes == p.now.sizes && u.client.uploaded == |p.now.sizes|
               && SealAccepted(Manifest(u.order, u.sizes), u.client.uploaded, u.client.savedBytes)
  {
    var all := Recovery(p.now);
    RecoverySeals(p.now);
    assert all[0] == Reload;
    U.OnPageIs(p, Reload);
    U.AllOnPageIs(U.Apply(p, U.OnPage(Reload)), all[1..]);
  }
}
