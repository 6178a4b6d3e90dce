/**
 Single flight and deferral of synchronisation requests on mobile
 (apps/mobile/App.tsx:685-687, 1891-1916, 4604-4622, 4646-4647, 4872-4886).

 The busy flag of the recorder exists three times: `busy` is the ref that requests test,
 `wanted` the React state a render copies into it, and `rendered` the value of the last
 committed render, whose change runs the drain effect.
 */
module DeferredSync {
  import opened Text
  import opened PendingSync

  datatype State = State(
    busy: bool,
    wanted: bool,
    rendered: bool,
    currentMeeting: string,
    inFlight: bool,
    bodies: nat,
    deferred: Option<Options>,
    wakeTimer: bool,
    drainTimer: bool)

  /** What a request looks at besides the queue: session, network and stored recordings. */
  datatype Environment = Environment(
    reauthenticationRequired: bool,
    user: Option<string>,           // none without a session cookie
    online: bool,
    recordings: seq<Recording>)

  function Frozen(rs: seq<Recording>): seq<Recording> {
    if rs == [] then [] else (if rs[0].modeFrozen then [rs[0]] else []) + Frozen(rs[1..])
  }

  predicate HasTarget(o: Options, user: string, recordings: seq<Recording>) { Frozen(Targets(o, user, recordings)) != [] }

  /** What the source asks of session, network and recordings before a sync body may run. */
  ghost predicate Syncable(o: Options, env: Environment) {
    && !env.reauthenticationRequired && env.online && env.user.Some?
    && exists i :: 0 <= i < |env.recordings| && Owed(o, env.user.value, env.recordings[i])
  }

  /** The recording is the user's, finished, not being deleted, its mode fixed, and the request asks for it. */
  predicate Owed(o: Options, user: string, r: Recording) {
    && r.modeFrozen && r.userId == Some(user) && !r.localRecoveryOnly && !r.deletionPending && !r.active
    && (o.onlyMeetingId == None || o.onlyMeetingId == Some(r.meetingId))
    && (r.finalized ==> o.force && o.onlyMeetingId.Some?) && (r.waiting ==> o.force)
  }

  lemma {:induction false} FrozenIs(rs: seq<Recording>)
    ensures Frozen(rs) != [] <==> exists r :: r in rs && r.modeFrozen
  {
    if rs != [] {
      FrozenIs(rs[1..]);
      assert rs[0] in rs && forall r :: r in rs <==> r == rs[0] || r in rs[1..];
    }
  }

  /** A sync body runs exactly when this holds. */
  lemma ProceedsIff(o: Options, env: Environment)
    ensures Proceeds(o, env) <==> Syncable(o, env)
  {
    if env.user.Some? {
      var user := env.user.value;
      FrozenIs(Targets(o, user, env.recordings));
      forall r ensures r in Targets(o, user, env.recordings) && r.modeFrozen <==> r in env.recordings && Owed(o, user, r) {
        TargetsAre(o, user, env.recordings, r);
      }
      if HasTarget(o, user, env.recordings) {
        var r :| r in Targets(o, user, env.recordings) && r.modeFrozen;
        assert r in env.recordings && Owed(o, user, r);
      }
    }
  }

  /** The checks between the two deferrals and the start of the sync body. */
  predicate Proceeds(o: Options, env: Environment) {
    !env.reauthenticationRequired && env.user.Some? && env.online && HasTarget(o, env.user.value, env.recordings)
  }

  /** The options of a request without options. */
  const DefaultOptions := Options(false, None, false)

  predicate ExplicitRetry(s: State, o: Options) {
    o.force && o.onlyMeetingId == Some(s.currentMeeting)
  }

  /** A request that must wait: the recorder is busy, or a sync is under way. */
  predicate Defers(s: State, o: Options) { (s.busy && !ExplicitRetry(s, o)) || s.inFlight }

  /** `syncPendingRecordings` up to its first await. */
  function Requested(s: State, o: Options, env: Environment): State {
    if s.busy && !ExplicitRetry(s, o) then s.(deferred := Some(Merged(s.deferred, o)))
    else if s.inFlight then s.(deferred := Some(Merged(s.deferred, o)), wakeTimer := true)
    else if Proceeds(o, env) then s.(inFlight := true, bodies := s.bodies + 1)
    else s
  }

  /** `autoSyncRequestRef`: takes the deferred options and requests a sync with them. */
  function Drained(s: State, env: Environment): State {
    var o := if s.deferred.Some? then s.deferred.value else DefaultOptions;
    Requested(s.(deferred := None), o, env)
  }

  function BodyEnded(s: State): State
    requires s.bodies > 0
  {
    s.(inFlight := false, bodies := s.bodies - 1, wakeTimer := s.deferred.Some? || s.wakeTimer)
  }

  predicate ShouldDrain(s: State, busy: bool) { s.deferred.Some? && !busy && !s.inFlight }

  /** A render copies the flag; when its value changed, the drain effect is cleaned up and run. */
  function Rendered(s: State): State {
    if s.wanted == s.rendered then s.(busy := s.wanted)
    else s.(busy := s.wanted, rendered := s.wanted, drainTimer := ShouldDrain(s, s.wanted))
  }

  datatype Step =
    | Request(options: Options, env: Environment)
    | BodyEnds
    | WakeFires(env: Environment)
    | DrainFires(env: Environment)
    | AutoFires(env: Environment)       // the periodic retry effect
    | WantBusy(busy: bool)              // a React state change
    | SeizeBusy                         // a start sets the ref at once
    | ReleaseBusy                       // a failed start clears the ref at once
    | Render
    | Logout
    | NewMeeting(meetingId: string)

  predicate Enabled(s: State, step: Step) {
    match step
    case BodyEnds => s.bodies > 0
    case WakeFires(_) => s.wakeTimer
    case DrainFires(_) => s.drainTimer
    case _ => true
  }

  function Apply(s: State, step: Step): State
    requires Enabled(s, step)
  {
    match step
    case Request(o, env) => Requested(s, o, env)
    case BodyEnds => BodyEnded(s)
    case WakeFires(env) =>
      var t := s.(wakeTimer := false);
      if t.busy then t else Drained(t, env)
    case DrainFires(env) => Drained(s.(drainTimer := false), env)
    case AutoFires(env) => Drained(s, env)
    case WantBusy(b) => s.(wanted := b)
    case SeizeBusy => s.(busy := true, wanted := true)
    case ReleaseBusy => s.(busy := false, wanted := false)
    case Render => Rendered(s)
    case Logout => s.(deferred := None, wakeTimer := false)
    case NewMeeting(m) => s.(currentMeeting := m)
  }

  /** A busy flag seen by requests is rendered before it is taken back. */
  predicate RenderedFirst(s: State, step: Step) {
    (step == WantBusy(false) || step.ReleaseBusy?) && s.busy ==> s.rendered
  }

  predicate ValidRun(s: State, steps: seq<Step>)
    decreases |steps|
  {
    steps == [] || (Enabled(s, steps[0]) && ValidRun(Apply(s, steps[0]), steps[1..]))
  }

  /** A run that keeps the rendering rule at every step. */
  predicate RenderedRun(s: State, steps: seq<Step>)
    requires ValidRun(s, steps)
    decreases |steps|
  {
    steps == [] || (RenderedFirst(s, steps[0]) && RenderedRun(Apply(s, steps[0]), steps[1..]))
  }

  function Run(s: State, steps: seq<Step>): State
    requires ValidRun(s, steps)
    decreases |steps|
  {
    if steps == [] then s else Run(Apply(s, steps[0]), steps[1..])
  }

  /** Deferred options have something that will pick them up. */
  predicate NotStranded(s: State) {
    s.deferred.Some? ==> s.busy || s.rendered || s.inFlight || s.wakeTimer || s.drainTimer
  }

  /** At most one sync body is under way, and the flag says whether there is one. */
  predicate SingleFlight(s: State) { (s.inFlight <==> s.bodies == 1) && s.bodies <= 1 }

  predicate Good(s: State) {
    && NotStranded(s)
    && SingleFlight(s)
    && (s.busy ==> s.wanted || s.rendered)
  }

  function Launched(meeting: string): State { State(false, false, false, meeting, false, 0, None, false, false) }

  /** Deferred options that no timer and no running sync will pick up. */
  predicate Unattended(s: State) { s.deferred.Some? && !s.inFlight && !s.wakeTimer && !s.drainTimer }

  lemma RequestKeepsGood(s: State, o: Options, env: Environment)
    requires Good(s)
    ensures Good(Requested(s, o, env))
  {
  }

  lemma DrainKeepsGood(s: State, env: Environment)
    requires Good(s.(deferred := None))
    ensures Good(Drained(s, env))
  {
    RequestKeepsGood(s.(deferred := None), if s.deferred.Some? then s.deferred.value else DefaultOptions, env);
  }

  lemma RenderKeepsGood(s: State)
    requires Good(s)
    ensures Good(Rendered(s))
  {
  }

  /**
   Exactly the releases of a busy flag that was never rendered break the rule, and a release of the ref only if options
   then wait unattended.
   */
  lemma StepKeepsGoodIff(s: State, step: Step)
    requires Good(s) && Enabled(s, step)
    ensures Good(Apply(s, step)) <==> RenderedFirst(s, step) || (step.ReleaseBusy? && !Unattended(s))
  {
    match step
    case Request(o, env) => RequestKeepsGood(s, o, env);
    case WakeFires(env) => if !s.busy { DrainKeepsGood(s.(wakeTimer := false), env); }
    case DrainFires(env) => DrainKeepsGood(s.(drainTimer := false), env);
    case AutoFires(env) => DrainKeepsGood(s, env);
    case Render => RenderKeepsGood(s);
    case _ =>
  }

  lemma StepKeepsGood(s: State, step: Step)
    requires Good(s) && Enabled(s, step) && RenderedFirst(s, step)
    ensures Good(Apply(s, step))
  {
    StepKeepsGoodIff(s, step);
  }

  lemma {:induction false} RunKeepsGood(s: State, steps: seq<Step>)
    requires Good(s) && ValidRun(s, steps) && RenderedRun(s, steps)
    ensures Good(Run(s, steps))
    decreases |steps|
  {
    if steps != [] {
      StepKeepsGood(s, steps[0]);
      RunKeepsGood(Apply(s, steps[0]), steps[1..]);
    }
  }

  /**
   In every run that keeps the rendering rule at most one sync body is under way, and a deferred request always has the
   recorder, a render that will clear it, a running sync or an armed timer behind it.
   */
  lemma DeferredIsNeverStranded(meeting: string, steps: seq<Step>)
    requires ValidRun(Launched(meeting), steps) && RenderedRun(Launched(meeting), steps)
    ensures var s := Run(Launched(meeting), steps);
            NotStranded(s) && SingleFlight(s)
  {
    RunKeepsGood(Launched(meeting), steps);
  }

  /** When the busy period ends, the render that shows it arms the drain timer for what was deferred meanwhile. */
  lemma EndOfBusyDrains(s: State)
    requires s.rendered && !s.wanted && s.deferred.Some? && !s.inFlight
    ensures var t := Apply(s, Render);
            t.drainTimer && !t.busy
            && forall env :: var u := Apply(t, DrainFires(env));
                             u.deferred.None? && (u.bodies == s.bodies + 1 <==> Syncable(s.deferred.value, env))
  {
    forall env ensures Proceeds(s.deferred.value, env) <==> Syncable(s.deferred.value, env) {
      ProceedsIff(s.deferred.value, env);
    }
  }

  /**
   When a sync ends, the wake timer is armed for what was deferred meanwhile; it leaves that to the end of a busy period,
   and otherwise takes it.
   */
  lemma EndOfSyncDrains(s: State, env: Environment)
    requires s.bodies == 1 && s.inFlight && s.deferred.Some?
    ensures var t := Apply(s, BodyEnds); var u := Apply(t, WakeFires(env));
            && t.wakeTimer && t.bodies == 0 && !t.inFlight && t.deferred == s.deferred
            && (if s.busy then u.deferred == s.deferred && u.bodies == 0
                else u.deferred.None? && (u.bodies == 1 <==> Syncable(s.deferred.value, env)))
  {
    ProceedsIff(s.deferred.value, env);
  }

  /**
   With nothing in the way, the periodic retry starts a body for what was deferred, or else for every unforced target of
   the user; the answer of the checks is final for it.
   */
  lemma PeriodicRetrySyncs(s: State, env: Environment)
    requires !s.busy && !s.inFlight
    ensures var t := Apply(s, AutoFires(env));
            var o := if s.deferred.Some? then s.deferred.value else Options(false, None, false);
            t.deferred.None? && (t.inFlight <==> Syncable(o, env)) && (t.bodies == s.bodies + 1 <==> Syncable(o, env))
  {
    ProceedsIff(if s.deferred.Some? then s.deferred.value else DefaultOptions, env);
  }

  /** While a busy recorder is shown, every request but a forced retry of the current meeting waits. */
  lemma BusyDefers(s: State, o: Options, env: Environment)
    requires s.wanted && !(o.force && o.onlyMeetingId == Some(s.currentMeeting))
    ensures var t := Apply(s, Render); var u := Apply(t, Request(o, env));
            t.busy && t.rendered && u.bodies == s.bodies && u.deferred == Some(Merged(s.deferred, o))
  {
  }

  /** A busy flag taken back before a render showed it, and then rendered, strands exactly options that wait unattended. */
  lemma UnrenderedReleaseStrandsIff(s: State, release: Step)
    requires Good(s) && (release == ReleaseBusy || release == WantBusy(false))
    ensures var t := Apply(Apply(s, release), Render);
            !NotStranded(t) <==> Unattended(s) && !s.rendered
  {
  }

  /** Such a state is reached by a start that seizes the flag just before a sync is requested. */
  lemma UnrenderedReleaseStrands(meeting: string, o: Options, env: Environment)
    requires !ExplicitRetry(Launched(meeting), o)
    ensures var s := Apply(Apply(Launched(meeting), SeizeBusy), Request(o, env));
            Good(s) && s.deferred == Some(o) && !NotStranded(Apply(Apply(s, ReleaseBusy), Render))
  {
  }

  // ----- What becomes of each request -----

  datatype Fate =
    | Started(env: Environment)     // handed to a sync body
    | Refused(env: Environment)     // dropped by the checks
    | Forgotten                     // dropped at logout

  /** Requests that were merged and left the queue together. */
  datatype Batch = Batch(requests: seq<Options>, fate: Fate)

  /** The requests waiting in the queue, and the batches that have left it. */
  datatype Book = Book(waiting: seq<Options>, closed: seq<Batch>)

  /** The batch that the checks close, with their verdict. */
  function Closing(batch: seq<Options>, env: Environment): Batch
    requires batch != []
  {
    Batch(batch, if Proceeds(MergedAll(batch), env) then Started(env) else Refused(env))
  }

  function Submitted(s: State, b: Book, batch: seq<Options>, env: Environment): Book
    requires batch != []
  {
    if Defers(s, MergedAll(batch)) then b.(waiting := b.waiting + batch)
    else b.(closed := b.closed + [Closing(batch, env)])
  }

  function DrainSubmitted(s: State, b: Book, env: Environment): Book {
    Submitted(s.(deferred := None), b.(waiting := []), if b.waiting == [] then [DefaultOptions] else b.waiting, env)
  }

  function Noted(s: State, b: Book, step: Step): Book {
    match step
    case Request(o, env) => Submitted(s, b, [o], env)
    case WakeFires(env) => if s.busy then b else DrainSubmitted(s.(wakeTimer := false), b, env)
    case DrainFires(env) => DrainSubmitted(s.(drainTimer := false), b, env)
    case AutoFires(env) => DrainSubmitted(s, b, env)
    case Logout => if b.waiting == [] then b else Book([], b.closed + [Batch(b.waiting, Forgotten)])
    case _ => b
  }

  /** The requests a step makes: a timer that finds nothing deferred makes one without options. */
  function Made(s: State, step: Step): seq<Options> {
    match step
    case Request(o, _) => [o]
    case WakeFires(_) => if s.busy || s.deferred.Some? then [] else [DefaultOptions]
    case DrainFires(_) => if s.deferred.Some? then [] else [DefaultOptions]
    case AutoFires(_) => if s.deferred.Some? then [] else [DefaultOptions]
    case _ => []
  }

  function BookOf(s: State, b: Book, steps: seq<Step>): Book
    requires ValidRun(s, steps)
    decreases |steps|
  {
    if steps == [] then b else BookOf(Apply(s, steps[0]), Noted(s, b, steps[0]), steps[1..])
  }

  function AllMade(s: State, steps: seq<Step>): multiset<Options>
    requires ValidRun(s, steps)
    decreases |steps|
  {
    if steps == [] then multiset{} else multiset(Made(s, steps[0])) + AllMade(Apply(s, steps[0]), steps[1..])
  }

  function BodiesEnded(steps: seq<Step>): nat {
    if steps == [] then 0 else (if steps[0].BodyEnds? then 1 else 0) + BodiesEnded(steps[1..])
  }

  /** The requests of all batches. */
  function InBatches(closed: seq<Batch>): multiset<Options> {
    if closed == [] then multiset{}
    else InBatches(closed[..|closed| - 1]) + multiset(closed[|closed| - 1].requests)
  }

  function StartedBatches(closed: seq<Batch>): nat {
    if closed == [] then 0
    else StartedBatches(closed[..|closed| - 1]) + if closed[|closed| - 1].fate.Started? then 1 else 0
  }

  function Accounted(b: Book): multiset<Options> { InBatches(b.closed) + multiset(b.waiting) }

  /** A batch left the queue for the reason it carries. */
  ghost predicate Justified(batch: Batch) {
    && batch.requests != []
    && (batch.fate.Started? ==> Syncable(MergedAll(batch.requests), batch.fate.env))
    && (batch.fate.Refused? ==> !Syncable(MergedAll(batch.requests), batch.fate.env))
  }

  function Waits(waiting: seq<Options>): Option<Options> { if waiting == [] then None else Some(MergedAll(waiting)) }

  /** The deferred options are the merge of the requests that wait. */
  ghost predicate Agrees(s: State, b: Book) {
    && s.deferred == Waits(b.waiting) && SingleFlight(s)
    && forall i :: 0 <= i < |b.closed| ==> Justified(b.closed[i])
  }

  lemma BatchClosed(closed: seq<Batch>, batch: Batch)
    ensures InBatches(closed + [batch]) == InBatches(closed) + multiset(batch.requests)
    ensures StartedBatches(closed + [batch]) == StartedBatches(closed) + if batch.fate.Started? then 1 else 0
  {
    assert (closed + [batch])[..|closed|] == closed;
  }

  lemma WaitsLonger(waiting: seq<Options>, batch: seq<Options>)
    requires batch != [] && (|batch| == 1 || waiting == [])
    ensures Waits(waiting + batch) == Some(Merged(Waits(waiting), MergedAll(batch)))
  {
    if waiting == [] {
      assert waiting + batch == batch;
    } else {
      var longer := waiting + batch;
      assert longer[..|longer| - 1] == waiting && longer[|longer| - 1] == batch[0];
    }
  }

  lemma DeferralAgrees(s: State, b: Book, batch: seq<Options>, env: Environment)
    requires Agrees(s, b) && batch != [] && (|batch| == 1 || b.waiting == [])
    requires Defers(s, MergedAll(batch))
    ensures Agrees(Requested(s, MergedAll(batch), env), Submitted(s, b, batch, env))
  {
    WaitsLonger(b.waiting, batch);
  }

  lemma DeferralAccounts(s: State, b: Book, batch: seq<Options>, env: Environment)
    requires batch != [] && Defers(s, MergedAll(batch))
    ensures var t, c := Requested(s, MergedAll(batch), env), Submitted(s, b, batch, env);
            Accounted(c) == Accounted(b) + multiset(batch) && c.closed == b.closed && t.bodies == s.bodies
  {
    assert multiset(b.waiting + batch) == multiset(b.waiting) + multiset(batch);
  }

  lemma ClosingIsJustified(batch: seq<Options>, env: Environment)
    requires batch != []
    ensures Justified(Closing(batch, env))
  {
    ProceedsIff(MergedAll(batch), env);
  }

  lemma ClosingCounts(s: State, b: Book, batch: seq<Options>, env: Environment)
    requires batch != [] && !Defers(s, MergedAll(batch))
    ensures var t, c := Requested(s, MergedAll(batch), env), Submitted(s, b, batch, env);
            Accounted(c) == Accounted(b) + multiset(batch)
            && StartedBatches(c.closed) - StartedBatches(b.closed) == t.bodies - s.bodies
  {
    BatchClosed(b.closed, Closing(batch, env));
  }

  lemma ClosingAgrees(s: State, b: Book, batch: seq<Options>, env: Environment)
    requires Agrees(s, b) && batch != [] && !Defers(s, MergedAll(batch))
    ensures Agrees(Requested(s, MergedAll(batch), env), Submitted(s, b, batch, env))
  {
    ClosingIsJustified(batch, env);
  }

  lemma SubmitAgrees(s: State, b: Book, batch: seq<Options>, env: Environment)
    requires Agrees(s, b) && batch != [] && (|batch| == 1 || b.waiting == [])
    ensures var t, c := Requested(s, MergedAll(batch), env), Submitted(s, b, batch, env);
            && Agrees(t, c) && Accounted(c) == Accounted(b) + multiset(batch)
            && StartedBatches(c.closed) - StartedBatches(b.closed) == t.bodies - s.bodies
  {
    if Defers(s, MergedAll(batch)) {
      DeferralAgrees(s, b, batch, env);
      DeferralAccounts(s, b, batch, env);
    } else {
      ClosingAgrees(s, b, batch, env);
      ClosingCounts(s, b, batch, env);
    }
  }

  lemma DrainAgrees(s: State, b: Book, env: Environment)
    requires Agrees(s, b)
    ensures var t, c := Drained(s, env), DrainSubmitted(s, b, env);
            && Agrees(t, c)
            && Accounted(c) == Accounted(b) + multiset(if s.deferred.Some? then [] else [DefaultOptions])
            && StartedBatches(c.closed) - StartedBatches(b.closed) == t.bodies - s.bodies
  {
    SubmitAgrees(s.(deferred := None), b.(waiting := []), if b.waiting == [] then [DefaultOptions] else b.waiting, env);
  }

  lemma LogoutAgrees(s: State, b: Book)
    requires Agrees(s, b)
    ensures Agrees(Apply(s, Logout), Noted(s, b, Logout)) && Accounted(Noted(s, b, Logout)) == Accounted(b)
    ensures StartedBatches(Noted(s, b, Logout).closed) == StartedBatches(b.closed)
  {
    if b.waiting != [] {
      var closing := Batch(b.waiting, Forgotten);
      assert Justified(closing);
      BatchClosed(b.closed, closing);
    }
  }

  /** The requests that a step makes are those of `Made`, and the books take them up. */
  ghost predicate Follows(s: State, b: Book, step: Step, t: State, c: Book) {
    && Agrees(t, c) && Accounted(c) == Accounted(b) + multiset(Made(s, step))
    && StartedBatches(c.closed) - StartedBatches(b.closed) == t.bodies - s.bodies + if step.BodyEnds? then 1 else 0
  }

  lemma TimerAgrees(s: State, b: Book, step: Step)
    requires Agrees(s, b) && Enabled(s, step)
    requires step.WakeFires? || step.DrainFires? || step.AutoFires?
    ensures Follows(s, b, step, Apply(s, step), Noted(s, b, step))
  {
    match step
    case WakeFires(env) =>
      if !s.busy { DrainAgrees(s.(wakeTimer := false), b, env); }
    case DrainFires(env) => DrainAgrees(s.(drainTimer := false), b, env);
    case AutoFires(env) => DrainAgrees(s, b, env);
  }

  lemma StepAgrees(s: State, b: Book, step: Step)
    requires Agrees(s, b) && Enabled(s, step)
    ensures Follows(s, b, step, Apply(s, step), Noted(s, b, step))
  {
    match step
    case Request(o, env) =>
      assert MergedAll([o]) == o;
      SubmitAgrees(s, b, [o], env);
    case WakeFires(env) => TimerAgrees(s, b, step);
    case DrainFires(env) => TimerAgrees(s, b, step);
    case AutoFires(env) => TimerAgrees(s, b, step);
    case Logout => LogoutAgrees(s, b);
    case _ =>
  }

  lemma {:induction false} RunAgrees(s: State, b: Book, steps: seq<Step>)
    requires Agrees(s, b) && ValidRun(s, steps)
    ensures var t, c := Run(s, steps), BookOf(s, b, steps);
            && Agrees(t, c) && Accounted(c) == Accounted(b) + AllMade(s, steps)
            && StartedBatches(c.closed) - StartedBatches(b.closed) == t.bodies - s.bodies + BodiesEnded(steps)
    decreases |steps|
  {
    if steps != [] {
      StepAgrees(s, b, steps[0]);
      RunAgrees(Apply(s, steps[0]), Noted(s, b, steps[0]), steps[1..]);
    }
  }

  /**
   No request vanishes: every one made in a run, by a caller or by a timer, is in exactly one place.  Either it waits,
   and the deferred options are the merge of all that wait, or it left in one batch that was handed to a sync body,
   refused by the checks, or forgotten at logout.  Bodies never overlap, and each that ever ran belongs to one batch.
   */
  lemma RequestsAreAccountedFor(meeting: string, steps: seq<Step>)
    requires ValidRun(Launched(meeting), steps)
    ensures var s, b := Run(Launched(meeting), steps), BookOf(Launched(meeting), Book([], []), steps);
            && InBatches(b.closed) + multiset(b.waiting) == AllMade(Launched(meeting), steps)
            && s.deferred == (if b.waiting == [] then None else Some(MergedAll(b.waiting)))
            && (forall i :: 0 <= i < |b.closed| ==> Justified(b.closed[i]))
            && SingleFlight(s) && StartedBatches(b.closed) == s.bodies + BodiesEnded(steps)
  {
    RunAgrees(Launched(meeting), Book([], []), steps);
  }

  /** A request that covers another starts a sync body wherever the other would. */
  lemma CoveringProceeds(wide: Options, narrow: Options, env: Environment)
    requires Covers(wide, narrow) && Syncable(narrow, env)
    ensures Syncable(wide, env)
  {
    var user := env.user.value;
    var i :| 0 <= i < |env.recordings| && Owed(narrow, user, env.recordings[i]);
    assert Selected(narrow, user, env.recordings[i]);
    assert Selected(wide, user, env.recordings[i]);
    assert Owed(wide, user, env.recordings[i]);
  }

  /**
   What a batch means for one of its requests.  A started body serves it exactly when the batch kept its scope; a
   refused batch that kept its scope would have been refused for this request alone, too; and whatever was dropped, the
   next request of the periodic retry asks for it again exactly when it was not forced.
   */
  lemma FateOfRequest(batch: Batch, k: nat)
    requires Justified(batch) && k < |batch.requests|
    ensures var rs := batch.requests;
            && (Covers(MergedAll(rs), rs[k])
                <==> rs[k].onlyMeetingId == Scope(Names(rs)) || (Scope(Names(rs)).None? && !rs[k].force))
            && (batch.fate.Refused? && Covers(MergedAll(rs), rs[k]) ==> !Syncable(rs[k], batch.fate.env))
            && (Covers(DefaultOptions, rs[k]) <==> !rs[k].force)
  {
    var rs := batch.requests;
    MergedAllCoversIff(rs, k);
    DefaultCoversIff(rs[k]);
    if batch.fate.Refused? && Covers(MergedAll(rs), rs[k]) && Syncable(rs[k], batch.fate.env) {
      CoveringProceeds(MergedAll(rs), rs[k], batch.fate.env);
    }
  }

  class SyncQueue {
    var busy: bool
    var wanted: bool
    var rendered: bool
    var currentMeeting: string
    var inFlight: bool
    var bodies: nat
    var deferred: Option<Options>
    var wakeTimer: bool
    var drainTimer: bool

    ghost function View(): State reads this {
      State(busy, wanted, rendered, currentMeeting, inFlight, bodies, deferred, wakeTimer, drainTimer)
    }

    constructor (meeting: string)
      ensures View() == Launched(meeting)
    {
      busy, wanted, rendered, currentMeeting := false, false, false, meeting;
      inFlight, bodies, deferred, wakeTimer, drainTimer := false, 0, None, false, false;
    }

    method SyncPendingRecordings(o: Options, env: Environment) returns (isDeferred: bool)
      modifies this
      ensures View() == Requested(old(View()), o, env)
      ensures isDeferred <==> Defers(old(View()), o)
      ensures isDeferred ==> deferred == Some(Merged(old(deferred), o))
      ensures !isDeferred ==> deferred == old(deferred)
      ensures isDeferred <==> (old(busy) && !(o.force && o.onlyMeetingId == Some(currentMeeting))) || old(inFlight)
      ensures bodies == old(bodies) + 1 <==> !isDeferred && Syncable(o, env)
    {
      ProceedsIff(o, env);
      if busy && !(o.force && o.onlyMeetingId == Some(currentMeeting)) {
        deferred := Some(Merged(deferred, o));
        return true;
      }
      if inFlight {
        deferred := Some(Merged(deferred, o));
        if !wakeTimer { wakeTimer := true; }
        return true;
      }
      if env.reauthenticationRequired { return false; }
      if env.user.None? || !env.online { return false; }
      if !HasTarget(o, env.user.value, env.recordings) { return false; }
      inFlight := true;
      bodies := bodies + 1;
      return false;
    }

    method AutoSyncRequest(env: Environment)
      modifies this
      ensures View() == Drained(old(View()), env)
    {
      var o := if deferred.Some? then deferred.value else DefaultOptions;
      deferred := None;
      var _ := SyncPendingRecordings(o, env);
    }

    method EndBody()
      requires bodies > 0
      modifies this
      ensures View() == BodyEnded(old(View()))
    {
      inFlight := false;
      bodies := bodies - 1;
      if deferred.Some? || wakeTimer { wakeTimer := true; }
    }

    method WakeTimerFires(env: Environment)
      requires wakeTimer
      modifies this
      ensures View() == Apply(old(View()), WakeFires(env))
    {
      wakeTimer := false;
      if busy { return; }
      AutoSyncRequest(env);
    }

    method CommitRender()
      modifies this
      ensures View() == Rendered(old(View()))
    {
      busy := wanted;
      if rendered != wanted {
        rendered := wanted;
        drainTimer := deferred.Some? && !wanted && !inFlight;
      }
    }
  }
}
