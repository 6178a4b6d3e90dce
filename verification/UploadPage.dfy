/**
 The browser page over any number of meetings (src/components/meeting-recorder.tsx:110-125, 222-288, 290-352, 388-437).

 The refs and counters belong to the page: a new meeting or a new recording clears them, but what an earlier meeting has
 open goes on, and its outcomes reach the same counters.  `now` is the meeting shown; `others` are the meetings that were
 shown before or are only stored.  The upload of each meeting is a state of `UploadProtocol`, whose steps act on the
 page's counters.
 */
module UploadPage {
  import opened Text
  import opened ChunkUploadClient
  import opened AudioManifest
  import P = UploadProtocol

  /** The counters and keys of `now` are the page's; of another meeting only the keys are read, the counters are `now`'s. */
  datatype Page = Page(now: P.State, others: seq<P.State>)

  /** Another meeting as its callbacks see it. */
  function View(p: Page, i: nat): P.State
    requires i < |p.others|
  {
    p.others[i].(client := Shared(p.others[i].client, p.now.client))
  }

  /** The sets of acknowledged and failed keys are cleared. */
  function Forgotten(m: P.State): P.State { m.(client := m.client.(acked := {}, failedSet := {})) }

  function AllForgotten(ms: seq<P.State>): seq<P.State> {
    seq(|ms|, i requires 0 <= i < |ms| => Forgotten(ms[i]))
  }

  function AllClosed(ms: seq<P.State>): seq<P.State> {
    seq(|ms|, i requires 0 <= i < |ms| => P.CrashStep(ms[i]))
  }

  /** A meeting id of which nothing was recorded. */
  const Blank := P.Init.(recording := false)

  const Start := Page(Blank, [])

  datatype Step =
    | Here(step: P.Step)                    // of the meeting shown
    | There(meeting: nat, step: P.Step)     // of another meeting
    | NewMeeting                            // the reset button
    | Begin                                 // the start of a recording
    | Crash
    | Recover(stored: Option<nat>)          // a page loads and recovers a stored meeting, the last one shown or another
    | LoadEmpty                             // a page loads and finds nothing to recover

  /** What goes on of a meeting that is not shown. */
  predicate GoesOn(step: P.Step) {
    step.ServerAccept? || step.Settle? || step.HandlerContinues? || step.SyncContinues? || step.Reset?
  }

  predicate Enabled(p: Page, e: Step) {
    match e
    case Here(step) => P.Enabled(p.now, step) && !step.Crash? && !step.Reload?
    case There(i, step) => i < |p.others| && GoesOn(step) && P.Enabled(View(p, i), step)
    case NewMeeting => p.now.up && !p.now.recording
    case Begin => p.now.up && !p.now.recording && p.now.sizes == []
    case Crash => p.now.up
    case Recover(None) => P.Enabled(p.now, P.Reload)
    case Recover(Some(i)) => !p.now.up && i < |p.others| && P.Enabled(p.others[i], P.Reload)
    case LoadEmpty => !p.now.up
  }

  /** Recording starts with cleared counters and keys. */
  function Begun(m: P.State): P.State {
    m.(client := FreshClient, recording := true, recovering := false, seed := {}, base := |m.order|, unacked := true,
       lastTotal := 0)
  }

  function ThereStep(p: Page, i: nat, step: P.Step): Page
    requires i < |p.others| && P.Enabled(View(p, i), step)
  {
    var t := P.Apply(View(p, i), step);
    Page(p.now.(client := Shared(p.now.client, t.client)), p.others[i := t])
  }

  function Apply(p: Page, e: Step): Page
    requires Enabled(p, e)
  {
    match e
    case Here(step) => p.(now := P.Apply(p.now, step))
    case There(i, step) => ThereStep(p, i, step)
    case NewMeeting => Page(Blank, AllForgotten(p.others + [p.now]))
    case Begin => Page(Begun(p.now), AllForgotten(p.others))
    case Crash => Page(P.CrashStep(p.now), AllClosed(p.others))
    case Recover(None) => p.(now := P.Reloaded(p.now))
    case Recover(Some(i)) => Page(P.Reloaded(p.others[i]), p.others[i := p.now])
    case LoadEmpty => Page(Blank, p.others + [p.now])
  }

  predicate ValidRun(p: Page, steps: seq<Step>)
    decreases |steps|
  {
    steps == [] || (Enabled(p, steps[0]) && ValidRun(Apply(p, steps[0]), steps[1..]))
  }

  function Run(p: Page, steps: seq<Step>): Page
    requires ValidRun(p, steps)
    decreases |steps|
  {
    if steps == [] then p else Run(Apply(p, steps[0]), steps[1..])
  }

  // ----- What every run keeps of every meeting -----

  ghost predicate Stored(m: P.State) { P.Durable(m) && P.Loading(m) }

  ghost predicate AllStored(p: Page) {
    && Stored(p.now)
    && forall i :: 0 <= i < |p.others| ==> Stored(p.others[i]) && (!p.now.up ==> !p.others[i].up)
  }

  /** The stored part of a meeting does not look at the counters. */
  lemma StoredIgnoresClient(m: P.State, c: Client)
    requires Stored(m)
    ensures Stored(m.(client := c))
  {
  }

  lemma ThereKeepsStored(p: Page, i: nat, step: P.Step)
    requires AllStored(p) && Enabled(p, There(i, step))
    ensures AllStored(Apply(p, There(i, step)))
  {
    var v := View(p, i);
    StoredIgnoresClient(p.others[i], v.client);
    P.StepKeepsDurable(v, step);
    P.StepKeepsLoading(v, step);
    var t := P.Apply(v, step);
    StoredIgnoresClient(p.now, Shared(p.now.client, t.client));
    assert t.up == p.others[i].up;
  }

  lemma BlankIsStored()
    ensures Stored(Blank)
  {
    P.InitHolds();
  }

  lemma CrashKeepsStored(m: P.State)
    requires Stored(m)
    ensures Stored(P.CrashStep(m)) && !P.CrashStep(m).up
  {
  }

  lemma ReloadKeepsStored(m: P.State)
    requires Stored(m) && P.Enabled(m, P.Reload)
    ensures Stored(P.Reloaded(m))
  {
    P.StepKeepsDurable(m, P.Reload);
    P.StepKeepsLoading(m, P.Reload);
  }

  lemma SomeElement(s: seq<nat>)
    ensures s != [] ==> Elements(s) != {}
  {
    if s != [] { assert s[0] in Elements(s); }
  }

  lemma BegunIsStored(m: P.State)
    requires Stored(m) && m.up && m.sizes == []
    ensures Stored(Begun(m)) && m.order == []
  {
    assert P.Issued(0) == {};
    SomeElement(m.order);
  }

  lemma StepKeepsStored(p: Page, e: Step)
    requires AllStored(p) && Enabled(p, e)
    ensures AllStored(Apply(p, e))
  {
    BlankIsStored();
    match e
    case Here(step) =>
      P.StepKeepsDurable(p.now, step);
      P.StepKeepsLoading(p.now, step);
    case There(i, step) => ThereKeepsStored(p, i, step);
    case NewMeeting => ForgettingKeepsStored(p.others + [p.now]);
    case Begin =>
      BegunIsStored(p.now);
      ForgettingKeepsStored(p.others);
    case Crash =>
      CrashKeepsStored(p.now);
      forall i | 0 <= i < |p.others| ensures Stored(AllClosed(p.others)[i]) { CrashKeepsStored(p.others[i]); }
    case Recover(None) => ReloadKeepsStored(p.now);
    case Recover(Some(i)) => ReloadKeepsStored(p.others[i]);
    case LoadEmpty =>
  }

  lemma ForgettingKeepsStored(ms: seq<P.State>)
    requires forall i :: 0 <= i < |ms| ==> Stored(ms[i])
    ensures forall i :: 0 <= i < |ms| ==> Stored(AllForgotten(ms)[i])
  {
    forall i | 0 <= i < |ms| ensures Stored(AllForgotten(ms)[i]) {
      StoredIgnoresClient(ms[i], ms[i].client.(acked := {}, failedSet := {}));
    }
  }

  // ----- What an earlier meeting leaves behind -----

  /** Nothing of the meeting goes on: no handler waits, no resync is under way. */
  predicate Idle(m: P.State) {
    m.handlers == map[] && m.todo == [] && (m.loaded.Some? ==> m.loaded.value == [])
  }

  predicate OthersIdle(p: Page) { forall i :: 0 <= i < |p.others| ==> Idle(p.others[i]) }

  /** What the reset button can check: nothing is pending and no resync is under way. */
  predicate Settled(p: Page) {
    p.now.client.pending <= 0 && p.now.todo == [] && (p.now.loaded.Some? ==> p.now.loaded.value == [])
  }

  /** By the counters, this is that nothing of the meeting goes on. */
  lemma SettledIffIdle(p: Page)
    requires P.Loading(p.now) && P.Counted(p.now) && p.now.up
    ensures Settled(p) <==> Idle(p.now)
  {
    var m := p.now;
    if Settled(p) {
      P.LedgerAtRest(m.client, m.handlers.Keys, Elements(P.Queued(m)), |m.sizes|);
      assert m.handlers.Keys == {};
    }
    assert Idle(m) ==> m.handlers.Keys == {} && P.Queued(m) == [];
  }

  /** A meeting of which nothing goes on does not reach the page's counters. */
  lemma IdleIsSilent(p: Page, i: nat, step: P.Step)
    requires Enabled(p, There(i, step)) && Idle(p.others[i])
    ensures Apply(p, There(i, step)).now == p.now && Idle(Apply(p, There(i, step)).others[i])
  {
    assert P.Apply(View(p, i), step).client == View(p, i).client;
  }

  lemma ForgottenIdle(ms: seq<P.State>)
    requires forall i :: 0 <= i < |ms| ==> Idle(ms[i])
    ensures forall i :: 0 <= i < |ms| ==> Idle(AllForgotten(ms)[i])
  {}

  lemma DownIsIdle(m: P.State)
    requires Stored(m) && !m.up
    ensures Idle(m)
  {}

  /** When a new meeting begins, nothing of the one before goes on. */
  predicate Ended(p: Page, e: Step) { e.NewMeeting? ==> Idle(p.now) }

  lemma StepKeepsOthersIdle(p: Page, e: Step)
    requires AllStored(p) && OthersIdle(p) && Enabled(p, e) && Ended(p, e)
    ensures OthersIdle(Apply(p, e))
  {
    match e
    case Here(_) =>
    case There(i, step) => IdleIsSilent(p, i, step);
    case NewMeeting => ForgottenIdle(p.others + [p.now]);
    case Begin => ForgottenIdle(p.others);
    case Crash =>
    case Recover(None) =>
    case Recover(Some(i)) => DownIsIdle(p.now);
    case LoadEmpty => DownIsIdle(p.now);
  }

  // ----- The counters of the meeting shown -----

  lemma BlankHolds()
    ensures Stored(Blank) && P.Reported(Blank) && P.Counted(Blank) && P.Still(Blank) && Awaited(Blank)
  {
    P.InitHolds();
  }

  lemma BegunHolds(m: P.State)
    requires Stored(m) && m.up && m.sizes == []
    ensures P.Reported(Begun(m)) && P.Counted(Begun(m)) && P.Still(Begun(m))
  {
    var t := Begun(m);
    BegunIsStored(m);
    assert P.Issued(0) == {};
    SomeElement(m.todo);
    assert m.marked == {} && t.handlers.Keys == {} && Elements([]) == {} && m.todo == [];
    if m.loaded.Some? { SomeElement(m.loaded.value); }
    P.BytesOfNone([]);
  }

  /** `uploaded` and `savedBytes` report acceptance prefixes of the meeting shown. */
  lemma StepKeepsReported(p: Page, e: Step)
    requires AllStored(p) && OthersIdle(p) && P.Reported(p.now) && Enabled(p, e)
    ensures P.Reported(Apply(p, e).now)
  {
    BlankHolds();
    match e
    case Here(step) => P.StepKeepsReported(p.now, step);
    case There(i, step) => IdleIsSilent(p, i, step);
    case NewMeeting =>
    case Begin => BegunHolds(p.now);
    case Crash => assert !P.CrashStep(p.now).up;
    case Recover(None) => P.ReloadKeepsReported(p.now);
    case Recover(Some(i)) => P.ReloadKeepsReported(p.others[i]);
    case LoadEmpty =>
  }

  /** Every reset that enters chunks is balanced or a recovery's, and a new meeting begins on a settled page. */
  predicate Quiet(p: Page, e: Step)
    requires Enabled(p, e)
  {
    match e
    case Here(step) => P.Quiet(p.now, step)
    case NewMeeting => Settled(p)
    case _ => true
  }

  ghost predicate Good(p: Page) { AllStored(p) && OthersIdle(p) && P.Reported(p.now) && P.Counted(p.now) }

  lemma StepKeepsCounted(p: Page, e: Step)
    requires Good(p) && Enabled(p, e) && Quiet(p, e)
    ensures P.Counted(Apply(p, e).now)
  {
    BlankHolds();
    match e
    case Here(step) => P.StepKeepsCounted(p.now, step);
    case There(i, step) => IdleIsSilent(p, i, step);
    case NewMeeting =>
    case Begin => BegunHolds(p.now);
    case Crash => assert !P.CrashStep(p.now).up;
    case Recover(None) => P.ReloadKeepsCounted(p.now);
    case Recover(Some(i)) => P.ReloadKeepsCounted(p.others[i]);
    case LoadEmpty =>
  }

  lemma StepKeepsGood(p: Page, e: Step)
    requires Good(p) && Enabled(p, e) && Quiet(p, e)
    ensures Good(Apply(p, e))
  {
    if e.NewMeeting? { SettledIffIdle(p); }
    StepKeepsStored(p, e);
    StepKeepsOthersIdle(p, e);
    StepKeepsReported(p, e);
    StepKeepsCounted(p, e);
  }

  // ----- Whole runs -----

  predicate QuietRun(p: Page, steps: seq<Step>)
    requires ValidRun(p, steps)
    decreases |steps|
  {
    steps == [] || (Quiet(p, steps[0]) && QuietRun(Apply(p, steps[0]), steps[1..]))
  }

  predicate EndedRun(p: Page, steps: seq<Step>)
    requires ValidRun(p, steps)
    decreases |steps|
  {
    steps == [] || (Ended(p, steps[0]) && EndedRun(Apply(p, steps[0]), steps[1..]))
  }

  lemma StartIsGood()
    ensures Good(Start)
  {
    BlankHolds();
  }

  lemma {:induction false} RunKeepsStored(p: Page, steps: seq<Step>)
    requires AllStored(p) && ValidRun(p, steps)
    ensures AllStored(Run(p, steps))
    ensures OthersIdle(p) && P.Reported(p.now) && EndedRun(p, steps) ==> P.Reported(Run(p, steps).now)
    decreases |steps|
  {
    if steps != [] {
      StepKeepsStored(p, steps[0]);
      if OthersIdle(p) && P.Reported(p.now) && Ended(p, steps[0]) {
        StepKeepsOthersIdle(p, steps[0]);
        StepKeepsReported(p, steps[0]);
      }
      RunKeepsStored(Apply(p, steps[0]), steps[1..]);
    }
  }

  lemma {:induction false} RunKeepsGood(p: Page, steps: seq<Step>)
    requires Good(p) && ValidRun(p, steps) && QuietRun(p, steps)
    ensures Good(Run(p, steps))
    decreases |steps|
  {
    if steps != [] {
      StepKeepsGood(p, steps[0]);
      RunKeepsGood(Apply(p, steps[0]), steps[1..]);
    }
  }

  /** Of every meeting of a page: marked chunks are on the server, and the server holds only recorded ones. */
  ghost predicate Chained(m: P.State) { m.marked <= Elements(m.order) <= P.Issued(|m.sizes|) }

  /**
   In every run this holds of every meeting.  When nothing of a meeting goes on at the time a new one begins, `uploaded`
   never exceeds the manifest of the meeting shown either.
   */
  lemma DurableChain(steps: seq<Step>)
    requires ValidRun(Start, steps)
    ensures var p := Run(Start, steps);
            && Chained(p.now) && (forall i :: 0 <= i < |p.others| ==> Chained(p.others[i]))
            && (EndedRun(Start, steps) && p.now.up ==> p.now.client.uploaded <= |p.now.order|)
  {
    StartIsGood();
    RunKeepsStored(Start, steps);
  }

  /** In every quiet run `pending` and `failed` count the chunks of the meeting shown that they are named after. */
  lemma CountersAreExact(steps: seq<Step>)
    requires ValidRun(Start, steps) && QuietRun(Start, steps)
    ensures var p := Run(Start, steps); p.now.up ==> Exact(p.now.client, P.Issued(|p.now.sizes|))
  {
    StartIsGood();
    RunKeepsGood(Start, steps);
    var p := Run(Start, steps);
    if p.now.up { P.CountedIsExact(p.now); }
  }

  /** In every quiet run an open gate means that exactly the recorded chunks are on the server. */
  lemma GateTheorem(steps: seq<Step>)
    requires ValidRun(Start, steps) && QuietRun(Start, steps)
    ensures var m := Run(Start, steps).now;
            m.up && GateOpen(m.client) ==>
              && Elements(m.order) == P.Issued(|m.sizes|) && m.client.acked == P.Issued(|m.sizes|)
              && m.client.uploaded == |m.sizes|
              && (SealAccepted(P.Manifest(m.order, m.sizes), m.client.uploaded, m.client.savedBytes)
                  <==> m.lastTotal == m.client.uploaded)
  {
    StartIsGood();
    RunKeepsGood(Start, steps);
    var m := Run(Start, steps).now;
    if m.up && GateOpen(m.client) { P.GateMeansComplete(m); }
  }

  // ----- Runs that are quiet by what the page can see -----

  /** The `online` listener resyncs only with recording over and nothing pending, and so does the reset button act. */
  predicate Calm(p: Page, e: Step) {
    match e
    case Here(step) => P.Calm(p.now, step)
    case NewMeeting => Settled(p)
    case _ => true
  }

  predicate CalmRun(p: Page, steps: seq<Step>)
    requires ValidRun(p, steps)
    decreases |steps|
  {
    steps == [] || (Calm(p, steps[0]) && CalmRun(Apply(p, steps[0]), steps[1..]))
  }

  lemma StepKeepsStill(p: Page, e: Step)
    requires Good(p) && P.Still(p.now) && Enabled(p, e) && Calm(p, e)
    ensures Quiet(p, e) && P.Still(Apply(p, e).now)
  {
    BlankHolds();
    match e
    case Here(step) => P.StepKeepsStill(p.now, step);
    case There(i, step) => IdleIsSilent(p, i, step);
    case Begin => BegunHolds(p.now);
    case _ =>
  }

  lemma {:induction false} CalmFromIsQuiet(p: Page, steps: seq<Step>)
    requires Good(p) && P.Still(p.now) && ValidRun(p, steps) && CalmRun(p, steps)
    ensures QuietRun(p, steps)
    decreases |steps|
  {
    if steps != [] {
      StepKeepsStill(p, steps[0]);
      StepKeepsGood(p, steps[0]);
      CalmFromIsQuiet(Apply(p, steps[0]), steps[1..]);
    }
  }

  lemma CalmIsQuiet(steps: seq<Step>)
    requires ValidRun(Start, steps) && CalmRun(Start, steps)
    ensures QuietRun(Start, steps)
  {
    StartIsGood();
    BlankHolds();
    CalmFromIsQuiet(Start, steps);
  }

  /** Acknowledgements of the meeting shown are applied in the order in which the server gave them. */
  predicate InOrder(p: Page, e: Step)
    requires Enabled(p, e)
  {
    e.Here? ==> P.InOrder(p.now, e.step)
  }

  predicate InOrderRun(p: Page, steps: seq<Step>)
    requires ValidRun(p, steps)
    decreases |steps|
  {
    steps == [] || (InOrder(p, steps[0]) && InOrderRun(Apply(p, steps[0]), steps[1..]))
  }

  predicate Level(m: P.State) { m.up ==> m.lastTotal == m.client.uploaded }

  lemma InOrderStep(p: Page, e: Step)
    requires Good(p) && Level(p.now) && Enabled(p, e) && InOrder(p, e)
    ensures Level(Apply(p, e).now)
  {
    match e
    case Here(step) => P.InOrderStep(p.now, step);
    case There(i, step) => IdleIsSilent(p, i, step);
    case _ =>
  }

  lemma {:induction false} InOrderRunKeeps(p: Page, steps: seq<Step>)
    requires Good(p) && Level(p.now) && ValidRun(p, steps) && QuietRun(p, steps) && InOrderRun(p, steps)
    ensures Level(Run(p, steps).now)
    decreases |steps|
  {
    if steps != [] {
      InOrderStep(p, steps[0]);
      StepKeepsGood(p, steps[0]);
      InOrderRunKeeps(Apply(p, steps[0]), steps[1..]);
    }
  }

  /** With acknowledgements applied in order, an open gate seals. */
  lemma InOrderAcksSeal(steps: seq<Step>)
    requires ValidRun(Start, steps) && QuietRun(Start, steps) && InOrderRun(Start, steps)
    ensures var m := Run(Start, steps).now;
            m.up && GateOpen(m.client) ==> SealAccepted(P.Manifest(m.order, m.sizes), m.client.uploaded, m.client.savedBytes)
  {
    StartIsGood();
    GateTheorem(steps);
    InOrderRunKeeps(Start, steps);
  }

  // ----- Exactly when a new meeting may begin -----

  /** Whatever waits for a request's outcome has the request open. */
  predicate Awaited(m: P.State) {
    && (forall c :: c in m.handlers && m.handlers[c].Awaiting? ==> c in m.requests)
    && (m.todo != [] && m.head.Awaiting? ==> m.todo[0] in m.requests)
  }

  lemma SyncFromIsAwaited(m: P.State, todo: seq<nat>)
    requires Awaited(m)
    ensures Awaited(P.SyncFrom(m, todo))
  {}

  lemma SettleKeepsAwaited(m: P.State, c: nat, delivered: bool)
    requires Awaited(m) && P.Enabled(m, P.Settle(c, delivered))
    ensures Awaited(P.Apply(m, P.Settle(c, delivered)))
  {}

  lemma RecordKeepsAwaited(m: P.State, size: nat)
    requires Awaited(m) && P.Enabled(m, P.Record(size))
    ensures Awaited(P.Apply(m, P.Record(size)))
  {}

  lemma SyncKeepsAwaited(m: P.State)
    requires Awaited(m) && P.Enabled(m, P.SyncContinues)
    ensures Awaited(P.Apply(m, P.SyncContinues))
  {
    var t := P.Conclude(m, m.todo[0], m.head);
    assert t.handlers == m.handlers && t.requests == m.requests && t.todo == m.todo && t.head == m.head;
    SyncFromIsAwaited(t, m.todo[1..]);
  }

  lemma HandlerKeepsAwaited(m: P.State, c: nat)
    requires Awaited(m) && P.Enabled(m, P.HandlerContinues(c))
    ensures Awaited(P.Apply(m, P.HandlerContinues(c)))
  {
    var t := P.Apply(m, P.HandlerContinues(c));
    assert t.handlers == m.handlers - {c} && t.requests == m.requests && t.todo == m.todo && t.head == m.head;
  }

  lemma ResetKeepsAwaited(m: P.State)
    requires Awaited(m) && P.Enabled(m, P.Reset)
    ensures Awaited(P.Apply(m, P.Reset))
  {
    var list := m.loaded.value;
    SyncFromIsAwaited(m.(client := ResyncStarted(m.client, list), loaded := None, recovering := false), list);
  }

  lemma AcceptKeepsAwaited(m: P.State, c: nat, answers: bool)
    requires Awaited(m) && P.Enabled(m, P.ServerAccept(c, answers))
    ensures Awaited(P.Apply(m, P.ServerAccept(c, answers)))
  {
    var t := P.Apply(m, P.ServerAccept(c, answers));
    assert t.handlers == m.handlers && t.requests.Keys == m.requests.Keys && t.todo == m.todo && t.head == m.head;
  }

  lemma LoadKeepsAwaited(m: P.State)
    requires Awaited(m)
    ensures Awaited(P.Load(m))
  {}

  lemma MeetingStepKeepsAwaited(m: P.State, step: P.Step)
    requires Awaited(m) && P.Enabled(m, step) && !step.Crash? && !step.Reload?
    ensures Awaited(P.Apply(m, step))
  {
    match step
    case Record(size) => RecordKeepsAwaited(m, size);
    case Stop =>
    case ServerAccept(c, answers) => AcceptKeepsAwaited(m, c, answers);
    case Settle(c, delivered) => SettleKeepsAwaited(m, c, delivered);
    case HandlerContinues(c) => HandlerKeepsAwaited(m, c);
    case SyncContinues => SyncKeepsAwaited(m);
    case Reset => ResetKeepsAwaited(m);
    case _ => LoadKeepsAwaited(m);
  }

  lemma BegunKeepsAwaited(m: P.State)
    requires Awaited(m)
    ensures Awaited(Begun(m))
  {}

  lemma CrashedIsAwaited(m: P.State)
    ensures Awaited(P.CrashStep(m))
  {}

  lemma ReloadedIsAwaited(m: P.State)
    requires P.Durable(m) && P.Enabled(m, P.Reload)
    ensures Awaited(P.Reloaded(m))
  {}

  lemma RecoveryIsAwaited(p: Page, e: Step)
    requires AllStored(p) && AllAwaited(p) && Enabled(p, e) && e.Recover?
    ensures AllAwaited(Apply(p, e))
  {
    match e.stored
    case None =>
      assert P.Durable(p.now);
      ReloadedIsAwaited(p.now);
    case Some(i) =>
      assert P.Durable(p.others[i]);
      ReloadedIsAwaited(p.others[i]);
  }

  ghost predicate AllAwaited(p: Page) {
    Awaited(p.now) && forall i :: 0 <= i < |p.others| ==> Awaited(p.others[i])
  }

  lemma ThereKeepsAwaited(p: Page, i: nat, step: P.Step)
    requires AllAwaited(p) && Enabled(p, There(i, step))
    ensures AllAwaited(Apply(p, There(i, step)))
  {
    var v := View(p, i);
    assert Awaited(v);
    MeetingStepKeepsAwaited(v, step);
  }

  lemma ForgottenAwaited(ms: seq<P.State>)
    requires forall i :: 0 <= i < |ms| ==> Awaited(ms[i])
    ensures forall i :: 0 <= i < |ms| ==> Awaited(AllForgotten(ms)[i])
  {}

  lemma StepKeepsAwaited(p: Page, e: Step)
    requires AllStored(p) && AllAwaited(p) && Enabled(p, e)
    ensures AllAwaited(Apply(p, e))
  {
    BlankHolds();
    match e
    case Here(step) => MeetingStepKeepsAwaited(p.now, step);
    case There(i, step) => ThereKeepsAwaited(p, i, step);
    case NewMeeting => ForgottenAwaited(p.others + [p.now]);
    case Begin =>
      BegunKeepsAwaited(p.now);
      ForgottenAwaited(p.others);
    case Crash =>
      CrashedIsAwaited(p.now);
      forall i | 0 <= i < |p.others| ensures Awaited(AllClosed(p.others)[i]) { CrashedIsAwaited(p.others[i]); }
    case Recover(_) => RecoveryIsAwaited(p, e);
    case LoadEmpty =>
  }

  lemma {:induction false} RunKeepsAwaited(p: Page, steps: seq<Step>)
    requires AllStored(p) && AllAwaited(p) && ValidRun(p, steps)
    ensures AllStored(Run(p, steps)) && AllAwaited(Run(p, steps))
    decreases |steps|
  {
    if steps != [] {
      StepKeepsAwaited(p, steps[0]);
      StepKeepsStored(p, steps[0]);
      RunKeepsAwaited(Apply(p, steps[0]), steps[1..]);
    }
  }

  /** The counters describe the meeting shown. */
  ghost predicate Describes(p: Page) { P.Counted(p.now) && P.Reported(p.now) }

  /** And go on to do so, whatever happens in quiet runs. */
  ghost predicate DescribesForever(p: Page) {
    forall steps :: ValidRun(p, steps) && QuietRun(p, steps) ==> Describes(Run(p, steps))
  }

  lemma RunOne(p: Page, a: Step)
    requires Enabled(p, a)
    ensures ValidRun(p, [a]) && Run(p, [a]) == Apply(p, a)
    ensures QuietRun(p, [a]) <==> Quiet(p, a)
  {
    var q := Apply(p, a);
    assert [a][1..] == [];
    assert ValidRun(q, []) && Run(q, []) == q && QuietRun(q, []);
  }

  lemma OneStepSpoils(p: Page, a: Step)
    requires Enabled(p, a) && Quiet(p, a) && !Describes(Apply(p, a))
    ensures !DescribesForever(p)
  {
    RunOne(p, a);
  }

  lemma TwoStepsSpoil(p: Page, a: Step, b: Step)
    requires Enabled(p, a) && Quiet(p, a) && Enabled(Apply(p, a), b) && Quiet(Apply(p, a), b)
    requires !Describes(Apply(Apply(p, a), b))
    ensures !DescribesForever(p)
  {
    var t := Apply(p, a);
    RunOne(t, b);
    assert [a, b][1..] == [b];
    assert ValidRun(p, [a, b]) && QuietRun(p, [a, b]) && Run(p, [a, b]) == Apply(t, b);
  }

  /** Nothing of the meeting was recorded, and its counters are cleared. */
  predicate New(m: P.State) {
    && m.up && m.client == FreshClient && m.order == [] && m.base == 0
    && m.handlers == map[] && m.todo == [] && !m.recovering
  }

  /** A new meeting on the page of an earlier one, whose keys are forgotten. */
  ghost predicate Left(p: Page, i: nat) {
    && New(p.now) && i < |p.others| && Stored(p.others[i]) && p.others[i].up
    && p.others[i].client.acked == {} && p.others[i].client.failedSet == {}
  }

  /** An outcome of the earlier meeting's chunk lowers or raises counters that do not count it. */
  lemma OutcomeSpoils(m: P.State, c: nat, outcome: P.Wait)
    requires Stored(m) && m.client == FreshClient && (outcome.Got? ==> P.Covers(m, c, outcome.k))
    ensures var d := P.Conclude(m, c, outcome).client; d.failed == 1 || d.uploaded > 0
  {
    if outcome.Got? { assert outcome.k > 0; }
  }

  lemma Spoilt(p: Page)
    requires p.now.order == [] && p.now.up && p.now.base == 0
    requires (p.now.client.failed == 1 && p.now.client.failedSet == {}) || p.now.client.uploaded > 0
    ensures !Describes(p)
  {
  }

  lemma HandlerSpoils(p: Page, i: nat, c: nat)
    requires Left(p, i) && c in p.others[i].handlers && !p.others[i].handlers[c].Awaiting?
    ensures Enabled(p, There(i, P.HandlerContinues(c))) && !Describes(Apply(p, There(i, P.HandlerContinues(c))))
  {
    var m := View(p, i);
    OutcomeSpoils(m.(handlers := m.handlers - {c}), c, m.handlers[c]);
    Spoilt(Apply(p, There(i, P.HandlerContinues(c))));
  }

  lemma HeadSpoils(p: Page, i: nat)
    requires Left(p, i) && p.others[i].todo != [] && !p.others[i].head.Awaiting?
    ensures Enabled(p, There(i, P.SyncContinues)) && !Describes(Apply(p, There(i, P.SyncContinues)))
  {
    var m := View(p, i);
    OutcomeSpoils(m, m.todo[0], m.head);
    Spoilt(Apply(p, There(i, P.SyncContinues)));
  }

  /** A request of the earlier meeting is lost. */
  lemma LossIs(p: Page, i: nat, c: nat)
    requires Left(p, i) && c in p.others[i].requests
    ensures Enabled(p, There(i, P.Settle(c, false)))
    ensures var q := Apply(p, There(i, P.Settle(c, false)));
            && Left(q, i)
            && (c in p.others[i].handlers && p.others[i].handlers[c].Awaiting? ==>
                  c in q.others[i].handlers && q.others[i].handlers[c].Lost?)
            && q.others[i].todo == p.others[i].todo
            && (p.others[i].todo != [] && p.others[i].todo[0] == c && p.others[i].head.Awaiting? ==> q.others[i].head.Lost?)
  {
    var v := View(p, i);
    StoredIgnoresClient(p.others[i], v.client);
    P.StepKeepsDurable(v, P.Settle(c, false));
    P.StepKeepsLoading(v, P.Settle(c, false));
  }

  lemma ResetSpoils(p: Page, i: nat)
    requires Left(p, i) && p.others[i].loaded.Some? && p.others[i].loaded.value != []
    ensures Enabled(p, There(i, P.Reset)) && !Describes(Apply(p, There(i, P.Reset)))
  {
    var q := Apply(p, There(i, P.Reset));
    assert q.now.client.pending > 0;
    assert q.now.handlers.Keys == {} && Elements(P.Queued(q.now)) == {};
  }

  lemma LeftSpoils(p: Page, i: nat)
    requires Left(p, i) && Awaited(p.others[i]) && !Idle(p.others[i])
    ensures !DescribesForever(p)
  {
    var m := p.others[i];
    if c :| c in m.handlers {
      if m.handlers[c].Awaiting? {
        LossIs(p, i, c);
        var a := There(i, P.Settle(c, false));
        HandlerSpoils(Apply(p, a), i, c);
        TwoStepsSpoil(p, a, There(i, P.HandlerContinues(c)));
      } else {
        HandlerSpoils(p, i, c);
        OneStepSpoils(p, There(i, P.HandlerContinues(c)));
      }
    } else if m.todo != [] {
      if m.head.Awaiting? {
        LossIs(p, i, m.todo[0]);
        var a := There(i, P.Settle(m.todo[0], false));
        HeadSpoils(Apply(p, a), i);
        TwoStepsSpoil(p, a, There(i, P.SyncContinues));
      } else {
        HeadSpoils(p, i);
        OneStepSpoils(p, There(i, P.SyncContinues));
      }
    } else {
      ResetSpoils(p, i);
      OneStepSpoils(p, There(i, P.Reset));
    }
  }

  lemma NewPageIff(p: Page)
    requires AllStored(p) && AllAwaited(p) && New(p.now) && Describes(p)
    requires forall i :: 0 <= i < |p.others| ==> p.others[i].client.acked == {} && p.others[i].client.failedSet == {}
    ensures DescribesForever(p) <==> OthersIdle(p)
  {
    if OthersIdle(p) {
      forall steps | ValidRun(p, steps) && QuietRun(p, steps) ensures Describes(Run(p, steps)) { RunKeepsGood(p, steps); }
    } else {
      var i :| 0 <= i < |p.others| && !Idle(p.others[i]);
      if !p.others[i].up { DownIsIdle(p.others[i]); }
      LeftSpoils(p, i);
    }
  }

  lemma ForgottenIdleIff(ms: seq<P.State>)
    ensures (forall i :: 0 <= i < |ms| ==> Idle(AllForgotten(ms)[i])) <==> forall i :: 0 <= i < |ms| ==> Idle(ms[i])
  {
    assert forall i :: 0 <= i < |ms| ==> (Idle(AllForgotten(ms)[i]) <==> Idle(ms[i]));
  }

  /**
   After any run, the start of a recording leaves counters that describe it, however it goes on, exactly when nothing of
   an earlier meeting goes on; otherwise some outcome of that makes them wrong.
   */
  lemma BeginIff(steps: seq<Step>)
    requires ValidRun(Start, steps) && Enabled(Run(Start, steps), Begin)
    ensures DescribesForever(Apply(Run(Start, steps), Begin)) <==> OthersIdle(Run(Start, steps))
  {
    var p := Run(Start, steps);
    BlankHolds();
    RunKeepsAwaited(Start, steps);
    StepKeepsStored(p, Begin);
    StepKeepsAwaited(p, Begin);
    BegunHolds(p.now);
    BegunIsNew(p.now);
    NewPageIff(Apply(p, Begin));
    ForgottenIdleIff(p.others);
  }

  lemma BegunIsNew(m: P.State)
    requires Stored(m) && m.up && m.sizes == []
    ensures New(Begun(m))
  {
    BegunIsStored(m);
    assert P.Issued(0) == {};
    SomeElement(m.todo);
    assert m.handlers.Keys == {};
  }

  /**
   The same for the reset button, where the meeting shown becomes an earlier one.  After a quiet run the condition is that
   nothing is pending and no resync is under way.
   */
  lemma NewMeetingIff(steps: seq<Step>)
    requires ValidRun(Start, steps) && Enabled(Run(Start, steps), NewMeeting)
    ensures var p := Run(Start, steps);
            && (DescribesForever(Apply(p, NewMeeting)) <==> OthersIdle(p) && Idle(p.now))
            && (QuietRun(Start, steps) ==> (DescribesForever(Apply(p, NewMeeting)) <==> Settled(p)))
  {
    var p := Run(Start, steps);
    BlankHolds();
    RunKeepsAwaited(Start, steps);
    StepKeepsStored(p, NewMeeting);
    StepKeepsAwaited(p, NewMeeting);
    NewPageIff(Apply(p, NewMeeting));
    ForgottenIdleIff(p.others + [p.now]);
    OneMoreIdle(p);
    if QuietRun(Start, steps) {
      RunKeepsGood(Start, steps);
      SettledIffIdle(p);
    }
  }

  lemma OneMoreIdle(p: Page)
    ensures (forall i :: 0 <= i < |p.others + [p.now]| ==> Idle((p.others + [p.now])[i])) <==> OthersIdle(p) && Idle(p.now)
  {
    var all := p.others + [p.now];
    assert all[|p.others|] == p.now && forall i :: 0 <= i < |p.others| ==> all[i] == p.others[i];
  }

  // ----- One meeting's runs are runs of a page -----

  /** A step of one meeting's protocol on the page that shows the meeting. */
  function OnPage(step: P.Step): Step {
    if step.Crash? then Crash else if step.Reload? then Recover(None) else Here(step)
  }

  function AllOnPage(steps: seq<P.Step>): seq<Step> {
    if steps == [] then [] else [OnPage(steps[0])] + AllOnPage(steps[1..])
  }

  lemma OnPageIs(p: Page, step: P.Step)
    requires P.Enabled(p.now, step)
    ensures Enabled(p, OnPage(step)) && Apply(p, OnPage(step)).now == P.Apply(p.now, step)
    ensures Quiet(p, OnPage(step)) <==> P.Quiet(p.now, step)
  {
  }

  lemma {:induction false} AllOnPageIs(p: Page, steps: seq<P.Step>)
    requires P.ValidRun(p.now, steps)
    ensures ValidRun(p, AllOnPage(steps)) && Run(p, AllOnPage(steps)).now == P.Run(p.now, steps)
    ensures QuietRun(p, AllOnPage(steps)) <==> P.QuietRun(p.now, steps)
    ensures (forall k :: 0 <= k < |steps| ==> OnPage(steps[k]).Here?) ==> Run(p, AllOnPage(steps)).others == p.others
    decreases |steps|
  {
    if steps != [] {
      var a, rest := OnPage(steps[0]), AllOnPage(steps[1..]);
      OnPageIs(p, steps[0]);
      AllOnPageIs(Apply(p, a), steps[1..]);
      assert ([a] + rest)[0] == a && ([a] + rest)[1..] == rest;
    }
  }

  /** Every run of one meeting is what a page shows that starts a recording. */
  lemma MeetingRunIsPageRun(steps: seq<P.Step>)
    requires P.ValidRun(P.Init, steps)
    ensures var run := [Begin] + AllOnPage(steps);
            && ValidRun(Start, run) && Run(Start, run).now == P.Run(P.Init, steps)
            && (QuietRun(Start, run) <==> P.QuietRun(P.Init, steps))
  {
    var rest := AllOnPage(steps);
    assert Begun(Blank) == P.Init;
    AllOnPageIs(Apply(Start, Begin), steps);
    assert ([Begin] + rest)[0] == Begin && ([Begin] + rest)[1..] == rest;
  }

  /** Steps of a meeting that is not shown. */
  function AllElsewhere(i: nat, steps: seq<P.Step>): seq<Step> {
    if steps == [] then [] else [There(i, steps[0])] + AllElsewhere(i, steps[1..])
  }

  lemma ElsewhereIs(p: Page, i: nat, step: P.Step)
    requires i < |p.others| && GoesOn(step) && P.Enabled(View(p, i), step)
    ensures Enabled(p, There(i, step))
    ensures var q, t := Apply(p, There(i, step)), P.Apply(View(p, i), step);
            && |q.others| == |p.others| && View(q, i) == t
            && q.now == p.now.(client := Shared(p.now.client, t.client))
  {
  }

  /** A run of an earlier meeting goes on as it would alone, but on the counters of the meeting shown. */
  lemma {:induction false} AllElsewhereIs(p: Page, i: nat, steps: seq<P.Step>)
    requires i < |p.others| && P.ValidRun(View(p, i), steps) && forall k :: 0 <= k < |steps| ==> GoesOn(steps[k])
    ensures ValidRun(p, AllElsewhere(i, steps))
    ensures var q, t := Run(p, AllElsewhere(i, steps)), P.Run(View(p, i), steps);
            && |q.others| == |p.others| && View(q, i) == t
            && q.now == p.now.(client := Shared(p.now.client, t.client))
    decreases |steps|
  {
    if steps != [] {
      var a, rest := There(i, steps[0]), AllElsewhere(i, steps[1..]);
      ElsewhereIs(p, i, steps[0]);
      AllElsewhereIs(Apply(p, a), i, steps[1..]);
      assert ([a] + rest)[0] == a && ([a] + rest)[1..] == rest;
    }
  }

  lemma {:induction false} RunAppend(p: Page, a: seq<Step>, b: seq<Step>)
    requires ValidRun(p, a) && ValidRun(Run(p, a), b)
    ensures ValidRun(p, a + b) && Run(p, a + b) == Run(Run(p, a), b)
    ensures QuietRun(p, a) && QuietRun(Run(p, a), b) ==> QuietRun(p, a + b)
    decreases |a|
  {
    if a == [] {
      assert a + b == b;
    } else {
      assert (a + b)[0] == a[0] && (a + b)[1..] == a[1..] + b;
      RunAppend(Apply(p, a[0]), a[1..], b);
    }
  }
}
