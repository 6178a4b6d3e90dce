/**
 Pause, resume, stop and media reset of the mobile recorder, interleaving at their awaits
 (apps/mobile/App.tsx:4138-4214, 4263-4354, 4356-4362, 4391-4396, 4538-4584), once a start
 has settled.

 An async function runs without interruption up to its next await.  `bodies` lists the
 calls that are suspended at an await; any of them may be resumed next.  `log` records the
 calls to the native recorder and the acceptance of stop requests.
 */
module RecorderLifecycle {
  import opened Text

  datatype Reason = UserStop | LowStorage | DurationLimit | NativeError | FileStalled | FileMissing

  datatype Status = Idle | Recording | Paused | Processing | Complete | Error

  /** A suspended call. */
  datatype Body =
    | Resuming(generation: nat, seconds: nat)   // awaits the audio stream, to record for the seconds that remain
    | ResumingPastLimit             // awaits the stop it issued to itself
    | Stopping(reason: Reason)      // awaits recorder.stop() or one of the awaits after it
    | Resetting                     // awaits the media-reset clean-up
  {
    predicate IsTransition() { Resuming? || ResumingPastLimit? }
  }

  /** Accepted stops, calls of the native recorder, and what is learnt of it; `works` is false when a call fails. */
  datatype Event =
    | StopAccepted(reason: Reason)
    | NativeStop
    | NativeRecord(seconds: nat, works: bool)
    | NativePause(works: bool)
    | MediaLost                     // a media reset ends the recording
    | FoundStopped(canRecord: bool) // the foreground check
    | StopEnded(completed: bool)    // the stop's own body ends, its recording kept or not

  datatype State = State(
    transition: bool,
    stopInFlight: bool,
    pendingStop: Option<Reason>,
    generation: nat,
    status: Status,       // the ref that the code tests
    shown: Status,        // the React state, copied to the ref by a render
    resetHandled: bool,
    armed: bool,
    bodies: seq<Body>,
    log: seq<Event>)

  const RECORDING_DURATION_MAXIMUM_MS := 120 * 60 * 1000

  /** A duration in whole milliseconds; `None` is a number that is not finite. */
  function ElapsedMs(durationMs: Option<real>): nat {
    if durationMs.Some? && durationMs.value >= 0.0 then durationMs.value.Floor else 0
  }

  /** The seconds still allowed, rounded up. */
  function RemainingSeconds(durationMs: Option<real>): nat {
    (Max(0, RECORDING_DURATION_MAXIMUM_MS - ElapsedMs(durationMs)) + 999) / 1000
  }

  /** The seconds still allowed end at the limit, or less than a second after it. */
  lemma RemainingIsTight(durationMs: Option<real>)
    requires durationMs.Some? ==> durationMs.value < RECORDING_DURATION_MAXIMUM_MS as real
    ensures RECORDING_DURATION_MAXIMUM_MS <= ElapsedMs(durationMs) + 1000 * RemainingSeconds(durationMs)
            < RECORDING_DURATION_MAXIMUM_MS + 1000
  {
    var d := if durationMs.Some? then durationMs.value else 0.0;
    assert d.Floor as real <= d;
  }

  lemma NothingRemainsIff(durationMs: Option<real>)
    ensures RemainingSeconds(durationMs) == 0
            <==> durationMs.Some? && durationMs.value >= RECORDING_DURATION_MAXIMUM_MS as real
  {
    var d := if durationMs.Some? then durationMs.value else 0.0;
    assert d.Floor as real <= d < d.Floor as real + 1.0;
  }

  /** What a native status event says of the recorder. */
  datatype NativeStatus = NativeStatus(finished: bool, failed: bool, mediaReset: bool, durationMs: Option<real>)

  datatype Disposition = Ignore | MediaServicesReset | StopFor(reason: Reason)

  /** `classifyNativeRecordingCompletion`: only a completion within two seconds of the limit is the intended one. */
  function Classify(e: NativeStatus, armed: bool, stopInFlight: bool): Disposition {
    if !e.finished || !armed || stopInFlight then Ignore
    else if e.mediaReset then MediaServicesReset
    else if e.failed then StopFor(NativeError)
    else
      var d := if e.durationMs.Some? && e.durationMs.value >= 0.0 then e.durationMs.value else 0.0;
      StopFor(if d >= (RECORDING_DURATION_MAXIMUM_MS - 2000) as real then DurationLimit else NativeError)
  }

  /** A recording that has just started. */
  const Started := State(false, false, None, 1, Recording, Recording, false, true, [], [NativeRecord(RemainingSeconds(None), true)])

  function Without(bodies: seq<Body>, i: nat): seq<Body>
    requires i < |bodies|
  {
    bodies[..i] + bodies[i + 1..]
  }

  /** `stopRecording` up to its first await. */
  function StopRequested(s: State, reason: Reason): State {
    if s.transition then s.(pendingStop := Some(reason), log := s.log + [StopAccepted(reason)])
    else if s.stopInFlight then s
    else s.(stopInFlight := true, armed := false, shown := Processing, generation := s.generation + 1,
            bodies := s.bodies + [Stopping(reason)],
            log := s.log + [StopAccepted(reason), NativeStop])
  }

  /** The `finally` of pause and resume. */
  function TransitionEnded(s: State): State {
    var t := s.(transition := false, pendingStop := None);
    if s.pendingStop.Some? then StopRequested(t, s.pendingStop.value) else t
  }

  function Refused(s: State): bool { s.transition || s.stopInFlight }

  /** `pauseRecording`; it has no await.  `works` is false when the native pause throws. */
  function PauseCalled(s: State, works: bool): State {
    if Refused(s) then s
    else
      var t := s.(transition := true, log := s.log + [NativePause(works)]);
      TransitionEnded(if works then t.(status := Paused, shown := Paused) else t)
  }

  /** `resumeRecording` up to its first await, once it knows how much time remains. */
  function Resumed(s: State, seconds: nat): State {
    if Refused(s) then s
    else
      var t := s.(transition := true);
      if seconds > 0 then t.(bodies := t.bodies + [Resuming(s.generation, seconds)])
      else var u := StopRequested(t, DurationLimit); u.(bodies := u.bodies + [ResumingPastLimit])
  }

  function ResumeCalled(s: State, durationMs: Option<real>): State {
    Resumed(s, RemainingSeconds(durationMs))
  }

  /** `resumeRecording` from the await of the stream to its end.  `works` is false when `record` fails. */
  function ResumeContinued(s: State, generation: nat, seconds: nat, works: bool): State {
    TransitionEnded(
      if generation != s.generation || !s.status.Paused? || s.pendingStop.Some? then s
      else
        var t := s.(log := s.log + [NativeRecord(seconds, works)]);
        if works then t.(armed := true, status := Recording, shown := Recording) else t)
  }

  /** `handleMediaServicesReset` up to its first await. */
  function ResetCalled(s: State): State {
    if s.resetHandled then s
    else if s.transition then
      s.(resetHandled := true, pendingStop := Some(NativeError), log := s.log + [StopAccepted(NativeError)])
    else if s.stopInFlight then s.(resetHandled := true)
    else s.(resetHandled := true, stopInFlight := true, armed := false, generation := s.generation + 1,
            shown := Processing, bodies := s.bodies + [Resetting], log := s.log + [MediaLost])
  }

  /** A native status event. */
  function NativeEvent(s: State, e: NativeStatus): State {
    var d := Classify(e, s.armed, s.stopInFlight);
    if d.Ignore? then s
    else
      var t := s.(armed := false);
      if d.MediaServicesReset? then ResetCalled(t) else StopRequested(t, d.reason)
  }

  datatype Step =
    | Pause(works: bool)
    | Resume(durationMs: Option<real>)
    | Stop(reason: Reason)
    | MediaReset
    | Native(event: NativeStatus)
    | Continue(index: nat, works: bool)    // a suspended call reaches its next await, or its end
    | Finish(index: nat, completed: bool)    // a stop or reset body ends
    | Render
    | Interrupted(canRecord: bool)         // the foreground check finds the recorder stopped

  predicate Enabled(s: State, step: Step) {
    match step
    case Continue(i, _) => i < |s.bodies|
    case Finish(i, _) => i < |s.bodies| && !s.bodies[i].IsTransition()
    case Interrupted(_) => s.status.Recording? && !Refused(s)
    case _ => true
  }

  function Apply(s: State, step: Step): State
    requires Enabled(s, step)
  {
    match step
    case Pause(works) => PauseCalled(s, works)
    case Resume(durationMs) => ResumeCalled(s, durationMs)
    case Stop(reason) => StopRequested(s, reason)
    case MediaReset => ResetCalled(s)
    case Native(e) => NativeEvent(s, e)
    case Continue(i, works) =>
      (match s.bodies[i]
       case Resuming(generation, seconds) => ResumeContinued(s.(bodies := Without(s.bodies, i)), generation, seconds, works)
       case ResumingPastLimit => TransitionEnded(s.(bodies := Without(s.bodies, i)))
       case Stopping(_) => s
       case Resetting => s)
    case Finish(i, completed) =>
      s.(stopInFlight := false, bodies := Without(s.bodies, i),
         shown := if s.bodies[i].Stopping? && completed then Complete else Error,
         log := s.log + if s.bodies[i].Stopping? then [StopEnded(completed)] else [])
    case Render => s.(status := s.shown)
    case Interrupted(canRecord) =>
      s.(shown := if canRecord then Paused else Error, log := s.log + [FoundStopped(canRecord)])
  }

  function Run(s: State, steps: seq<Step>): State
    requires ValidRun(s, steps)
    decreases |steps|
  {
    if steps == [] then s else Run(Apply(s, steps[0]), steps[1..])
  }

  predicate ValidRun(s: State, steps: seq<Step>)
    decreases |steps|
  {
    steps == [] || (Enabled(s, steps[0]) && ValidRun(Apply(s, steps[0]), steps[1..]))
  }

  // ----- What the log promises -----

  /** A stop was accepted and the recorder has not been stopped since. */
  predicate StopOwed(log: seq<Event>) {
    log != [] &&
    match log[|log| - 1]
    case StopAccepted(_) => true
    case NativeStop => false
    case _ => StopOwed(log[..|log| - 1])
  }

  /** `recorder.record()` is never called while a stop is owed. */
  predicate NoRecordWhileOwed(log: seq<Event>) {
    log == [] ||
    (NoRecordWhileOwed(log[..|log| - 1]) && (log[|log| - 1].NativeRecord? ==> !StopOwed(log[..|log| - 1])))
  }

  /** At most one body is suspended, and the two flags say which kind it is. */
  predicate Exclusive(s: State) {
    && |s.bodies| <= 1
    && (s.transition <==> s.bodies != [] && s.bodies[0].IsTransition())
    && (s.stopInFlight <==> s.bodies != [] && !s.bodies[0].IsTransition())
  }

  predicate Good(s: State) {
    && Exclusive(s)
    && (s.pendingStop.Some? ==> s.transition)
    && (s.bodies != [] && s.bodies[0].ResumingPastLimit? ==> s.pendingStop.Some?)
    && (StopOwed(s.log) <==> s.pendingStop.Some?)
    && NoRecordWhileOwed(s.log)
  }

  lemma LogOne(log: seq<Event>, e: Event)
    requires NoRecordWhileOwed(log) && (e.NativeRecord? ==> !StopOwed(log))
    ensures NoRecordWhileOwed(log + [e])
    ensures StopOwed(log + [e]) == if e.StopAccepted? then true else if e.NativeStop? then false else StopOwed(log)
  {
    assert (log + [e])[..|log|] == log;
  }

  lemma LogStop(log: seq<Event>, reason: Reason)
    requires NoRecordWhileOwed(log)
    ensures NoRecordWhileOwed(log + [StopAccepted(reason), NativeStop]) && !StopOwed(log + [StopAccepted(reason), NativeStop])
  {
    LogOne(log, StopAccepted(reason));
    LogOne(log + [StopAccepted(reason)], NativeStop);
    assert log + [StopAccepted(reason), NativeStop] == (log + [StopAccepted(reason)]) + [NativeStop];
  }

  lemma StopKeepsGood(s: State, reason: Reason)
    requires Good(s)
    ensures Good(StopRequested(s, reason))
  {
    LogOne(s.log, StopAccepted(reason));
    LogStop(s.log, reason);
  }

  /** A transition that ends pays its stop at once: the body starts and the recorder is stopped. */
  lemma EndingPaysStop(s: State)
    requires s.bodies == [] && !s.stopInFlight
    requires StopOwed(s.log) <==> s.pendingStop.Some?
    requires NoRecordWhileOwed(s.log)
    ensures Good(TransitionEnded(s)) && !TransitionEnded(s).transition
    ensures s.pendingStop.Some? ==>
              TransitionEnded(s).bodies == [Stopping(s.pendingStop.value)]
              && TransitionEnded(s).log == s.log + [StopAccepted(s.pendingStop.value), NativeStop]
  {
    if s.pendingStop.Some? { LogStop(s.log, s.pendingStop.value); }
  }

  lemma PauseKeepsGood(s: State, works: bool)
    requires Good(s)
    ensures Good(PauseCalled(s, works))
  {
    if !Refused(s) {
      LogOne(s.log, NativePause(works));
      var t := s.(transition := true, log := s.log + [NativePause(works)]);
      EndingPaysStop(t);
      EndingPaysStop(t.(status := Paused, shown := Paused));
    }
  }

  lemma ResumedStates(s: State, seconds: nat)
    requires Good(s) && !Refused(s)
    ensures Resumed(s, seconds)
            == if seconds > 0 then s.(transition := true, bodies := [Resuming(s.generation, seconds)])
               else s.(transition := true, pendingStop := Some(DurationLimit),
                       log := s.log + [StopAccepted(DurationLimit)], bodies := [ResumingPastLimit])
  {
    assert s.bodies == [];
  }

  lemma ResumeKeepsGood(s: State, seconds: nat)
    requires Good(s)
    ensures Good(Resumed(s, seconds))
  {
    if !Refused(s) {
      ResumedStates(s, seconds);
      if seconds == 0 { OwnStopKeepsGood(s); }
    }
  }

  lemma OwnStopKeepsGood(s: State)
    requires Good(s) && !Refused(s)
    ensures Good(s.(transition := true, pendingStop := Some(DurationLimit), log := s.log + [StopAccepted(DurationLimit)],
                    bodies := [ResumingPastLimit]))
  {
    LogOne(s.log, StopAccepted(DurationLimit));
  }

  lemma ResetKeepsGood(s: State)
    requires Good(s)
    ensures Good(ResetCalled(s))
  {
    LogOne(s.log, StopAccepted(NativeError));
    LogOne(s.log, MediaLost);
  }

  lemma ContinueKeepsGood(s: State, i: nat, works: bool)
    requires Good(s) && i < |s.bodies|
    ensures Good(Apply(s, Continue(i, works)))
  {
    var t := s.(bodies := Without(s.bodies, i));
    assert t.bodies == [];
    match s.bodies[i]
    case Resuming(generation, seconds) =>
      if !t.pendingStop.Some? { LogOne(t.log, NativeRecord(seconds, works)); }
      var u := t.(log := t.log + [NativeRecord(seconds, works)]);
      if generation != t.generation || !t.status.Paused? || t.pendingStop.Some? {
        EndingPaysStop(t);
      } else {
        EndingPaysStop(if works then u.(armed := true, status := Recording, shown := Recording) else u);
      }
    case ResumingPastLimit => EndingPaysStop(t);
    case Stopping(_) =>
    case Resetting =>
  }

  lemma NativeKeepsGood(s: State, e: NativeStatus)
    requires Good(s)
    ensures Good(NativeEvent(s, e))
  {
    var d, t := Classify(e, s.armed, s.stopInFlight), s.(armed := false);
    if d.MediaServicesReset? {
      ResetKeepsGood(t);
    } else if d.StopFor? {
      StopKeepsGood(t, d.reason);
    }
  }

  lemma StepKeepsGood(s: State, step: Step)
    requires Good(s) && Enabled(s, step)
    ensures Good(Apply(s, step))
  {
    match step
    case Pause(works) => PauseKeepsGood(s, works);
    case Resume(durationMs) => ResumeKeepsGood(s, RemainingSeconds(durationMs));
    case Stop(reason) => StopKeepsGood(s, reason);
    case MediaReset => ResetKeepsGood(s);
    case Native(e) => NativeKeepsGood(s, e);
    case Continue(i, works) => ContinueKeepsGood(s, i, works);
    case Finish(i, completed) =>
      assert Without(s.bodies, i) == [] && s.log + [] == s.log;
      LogOne(s.log, StopEnded(completed));
    case Render =>
    case Interrupted(canRecord) => LogOne(s.log, FoundStopped(canRecord));
  }

  lemma {:induction false} RunKeepsGood(s: State, steps: seq<Step>)
    requires Good(s) && ValidRun(s, steps)
    ensures Good(Run(s, steps))
    decreases |steps|
  {
    if steps != [] {
      StepKeepsGood(s, steps[0]);
      RunKeepsGood(Apply(s, steps[0]), steps[1..]);
    }
  }

  lemma StartedIsGood()
    ensures Good(Started)
  {
    var first := NativeRecord(RemainingSeconds(None), true);
    assert [first] == [] + [first];
    LogOne([], first);
  }

  /** Whatever awaits interleave: one body at a time, and a pending stop only during a transition. */
  lemma MutualExclusion(steps: seq<Step>)
    requires ValidRun(Started, steps)
    ensures var s := Run(Started, steps);
            Exclusive(s) && !(s.transition && s.stopInFlight) && (s.pendingStop.Some? ==> s.transition)
  {
    StartedIsGood();
    RunKeepsGood(Started, steps);
  }

  /** Whenever no transition is under way, every stop accepted so far has stopped the recorder. */
  lemma NoStopIsLost(steps: seq<Step>)
    requires ValidRun(Started, steps)
    ensures var s := Run(Started, steps); !s.transition ==> !StopOwed(s.log)
  {
    StartedIsGood();
    RunKeepsGood(Started, steps);
  }

  lemma {:induction false} OwedAt(log: seq<Event>, k: nat)
    requires NoRecordWhileOwed(log) && k < |log| && log[k].NativeRecord?
    ensures !StopOwed(log[..k])
    decreases |log|
  {
    var init := log[..|log| - 1];
    if k < |init| {
      OwedAt(init, k);
      assert init[..k] == log[..k];
    }
  }

  /** Between the acceptance of a stop and that stop's `recorder.stop()`, `recorder.record()` is not called. */
  lemma NoRecordAfterStopAccepted(steps: seq<Step>, k: nat)
    requires ValidRun(Started, steps)
    requires k < |Run(Started, steps).log| && Run(Started, steps).log[k].NativeRecord?
    ensures !StopOwed(Run(Started, steps).log[..k])
  {
    StartedIsGood();
    RunKeepsGood(Started, steps);
    OwedAt(Run(Started, steps).log, k);
  }

  predicate Resets(s: State) { s.bodies != [] && s.bodies[0].Resetting? }

  predicate Stops(s: State) { s.bodies != [] && s.bodies[0].Stopping? }

  /**
   What becomes of a stop request: during a transition it waits, at rest it starts, during another stop it joins that
   one, and during a media reset, which ends the recording itself, it is dropped.
   */
  lemma StopIsTakenUp(s: State, reason: Reason)
    requires Good(s)
    ensures var t := StopRequested(s, reason);
            && (t.pendingStop == Some(reason) <==> s.transition)
            && (s.bodies == [] ==> t.bodies == [Stopping(reason)] && t.log == s.log + [StopAccepted(reason), NativeStop])
            && (t.pendingStop == Some(reason) || Stops(t) <==> !Resets(s))
            && (Stops(s) || Resets(s) <==> t == s)
  {
    if s.transition || s.bodies == [] {
      assert |StopRequested(s, reason).log| > |s.log|;
    }
  }

  /** The step that ends a transition with a pending stop starts the body of exactly that stop, without recording again. */
  lemma PendingStopStarts(s: State, step: Step)
    requires Good(s) && Enabled(s, step) && s.pendingStop.Some? && !Apply(s, step).transition
    ensures var t := Apply(s, step);
            t.bodies == [Stopping(s.pendingStop.value)] && t.stopInFlight && t.pendingStop.None?
            && t.log == s.log + [StopAccepted(s.pendingStop.value), NativeStop]
  {
    match step
    case Continue(i, works) =>
      assert Without(s.bodies, i) == [];
    case _ =>
  }

  /** The log has only grown by accepted stops. */
  predicate OnlyStopsAccepted(before: seq<Event>, after: seq<Event>) {
    before <= after && forall i :: |before| <= i < |after| ==> after[i].StopAccepted?
  }

  /** While a resume past the limit awaits its own stop, nothing moves it on and nothing is recorded. */
  lemma PastLimitStep(s: State, step: Step)
    requires Good(s) && Enabled(s, step) && !step.Continue?
    requires s.bodies == [ResumingPastLimit]
    ensures Apply(s, step).bodies == [ResumingPastLimit] && OnlyStopsAccepted(s.log, Apply(s, step).log)
  {
  }

  lemma {:induction false} PastLimitWaits(s: State, steps: seq<Step>)
    requires Good(s) && s.bodies == [ResumingPastLimit]
    requires ValidRun(s, steps) && forall i :: 0 <= i < |steps| ==> !steps[i].Continue?
    ensures Run(s, steps).bodies == [ResumingPastLimit] && OnlyStopsAccepted(s.log, Run(s, steps).log)
    decreases |steps|
  {
    if steps != [] {
      StepKeepsGood(s, steps[0]);
      PastLimitStep(s, steps[0]);
      PastLimitWaits(Apply(s, steps[0]), steps[1..]);
    }
  }

  lemma OnlyStopsFrom(before: seq<Event>, reason: Reason, after: seq<Event>)
    requires OnlyStopsAccepted(before + [StopAccepted(reason)], after)
    ensures OnlyStopsAccepted(before, after)
  {
    var one := before + [StopAccepted(reason)];
    assert after[..|one|] == one;
    assert after[|before|] == one[|before|];
  }

  lemma PastLimitBegins(s: State, durationMs: Option<real>)
    requires Good(s) && !Refused(s)
    requires durationMs.Some? && durationMs.value >= RECORDING_DURATION_MAXIMUM_MS as real
    ensures var t := Apply(s, Resume(durationMs));
            && Good(t) && t.bodies == [ResumingPastLimit] && t.pendingStop == Some(DurationLimit)
            && t.log == s.log + [StopAccepted(DurationLimit)]
  {
    NothingRemainsIff(durationMs);
    ResumedStates(s, 0);
    ResumeKeepsGood(s, 0);
  }

  lemma PastLimitEnds(u: State, works: bool)
    requires Good(u) && u.bodies == [ResumingPastLimit]
    ensures var v := Apply(u, Continue(0, works));
            && u.pendingStop.Some? && v.bodies == [Stopping(u.pendingStop.value)]
            && v.log == u.log + [StopAccepted(u.pendingStop.value), NativeStop]
  {
    assert Without(u.bodies, 0) == [];
  }

  /**
   Resuming at or past the duration limit: whatever happens until the call continues, it then ends in the stop that is
   pending, issued by the resume itself or by a later request, and the recorder was never started.
   */
  lemma ResumePastLimitStops(s: State, durationMs: Option<real>, steps: seq<Step>, works: bool)
    requires Good(s) && !Refused(s)
    requires durationMs.Some? && durationMs.value >= RECORDING_DURATION_MAXIMUM_MS as real
    requires ValidRun(Apply(s, Resume(durationMs)), steps) && forall i :: 0 <= i < |steps| ==> !steps[i].Continue?
    ensures Apply(s, Resume(durationMs)).pendingStop == Some(DurationLimit)
    ensures var u := Run(Apply(s, Resume(durationMs)), steps);
            && u.bodies == [ResumingPastLimit] && u.pendingStop.Some? && OnlyStopsAccepted(s.log, u.log)
            && Apply(u, Continue(0, works)).bodies == [Stopping(u.pendingStop.value)]
            && Apply(u, Continue(0, works)).log == u.log + [StopAccepted(u.pendingStop.value), NativeStop]
  {
    PastLimitBegins(s, durationMs);
    var t := Apply(s, Resume(durationMs));
    PastLimitWaits(t, steps);
    OnlyStopsFrom(s.log, DurationLimit, Run(t, steps).log);
    RunKeepsGood(t, steps);
    PastLimitEnds(Run(t, steps), works);
  }

  // ----- What the app shows is what the recorder was last told -----

  predicate Unheard(e: Event) {
    e.StopAccepted? || (e.NativeRecord? && !e.works) || (e.NativePause? && !e.works)
  }

  /** The last event that says what the recorder does: a call that worked, a loss, or a finding. */
  function LastHeard(log: seq<Event>): Option<Event> {
    if log == [] then None
    else
      var e := log[|log| - 1];
      if Unheard(e) then LastHeard(log[..|log| - 1]) else Some(e)
  }

  /** Status and shown status follow from what was last heard; a render may still be due after a stop, a loss or a finding. */
  predicate Mirrors(s: State) {
    match LastHeard(s.log)
    case None => false
    case Some(e) =>
      && (Stops(s) ==> e.NativeStop?) && (Resets(s) ==> e.MediaLost?)
      && match e
      case NativeRecord(_, _) =>
        s.status.Recording? && s.shown.Recording? && (s.pendingStop.None? && !s.resetHandled ==> s.armed)
      case NativePause(_) => s.status.Paused? && s.shown.Paused?
      case NativeStop => Stops(s) && s.shown.Processing? && !s.armed
      case StopEnded(completed) => !s.armed && s.shown == if completed then Complete else Error
      case MediaLost => !s.armed && s.shown == if Resets(s) then Processing else Error
      case FoundStopped(canRecord) => s.shown == if canRecord then Paused else Error
      case StopAccepted(_) => false
  }

  /** How often the recording was ended by a stop or lost. */
  function Endings(log: seq<Event>): nat {
    if log == [] then 0
    else Endings(log[..|log| - 1]) + if log[|log| - 1].NativeStop? || log[|log| - 1].MediaLost? then 1 else 0
  }

  /** The generation counts the endings, and a resume that is under way is of this generation. */
  predicate Current(s: State) {
    s.generation == 1 + Endings(s.log)
    && (s.bodies != [] && s.bodies[0].Resuming? ==> s.bodies[0].generation == s.generation)
  }

  lemma HeardOne(log: seq<Event>, e: Event)
    ensures LastHeard(log + [e])
            == if Unheard(e) then LastHeard(log) else Some(e)
    ensures Endings(log + [e]) == Endings(log) + if e.NativeStop? || e.MediaLost? then 1 else 0
  {
    assert (log + [e])[..|log|] == log;
  }

  lemma HeardStop(log: seq<Event>, reason: Reason)
    ensures LastHeard(log + [StopAccepted(reason), NativeStop]) == Some(NativeStop)
    ensures Endings(log + [StopAccepted(reason), NativeStop]) == Endings(log) + 1
  {
    HeardOne(log, StopAccepted(reason));
    HeardOne(log + [StopAccepted(reason)], NativeStop);
    assert log + [StopAccepted(reason), NativeStop] == (log + [StopAccepted(reason)]) + [NativeStop];
  }

  lemma EndingMirrors(s: State)
    requires s.bodies == [] && !s.stopInFlight && Mirrors(s) && s.generation == 1 + Endings(s.log)
    ensures Mirrors(TransitionEnded(s)) && Current(TransitionEnded(s))
  {
    if s.pendingStop.Some? { HeardStop(s.log, s.pendingStop.value); }
  }

  lemma PauseMirrors(s: State, works: bool)
    requires Good(s) && Mirrors(s) && Current(s)
    ensures Mirrors(PauseCalled(s, works)) && Current(PauseCalled(s, works))
  {
    if !Refused(s) { HeardOne(s.log, NativePause(works)); }
  }

  lemma ResumeMirrors(s: State, seconds: nat)
    requires Good(s) && Mirrors(s) && Current(s)
    ensures Mirrors(Resumed(s, seconds)) && Current(Resumed(s, seconds))
  {
    if !Refused(s) {
      ResumedStates(s, seconds);
      HeardOne(s.log, StopAccepted(DurationLimit));
    }
  }

  lemma ResetMirrors(s: State)
    requires Good(s) && Mirrors(s) && Current(s)
    ensures Mirrors(ResetCalled(s)) && Current(ResetCalled(s))
  {
    HeardOne(s.log, StopAccepted(NativeError));
    HeardOne(s.log, MediaLost);
  }

  lemma ContinueMirrors(s: State, i: nat, works: bool)
    requires Good(s) && Mirrors(s) && Current(s) && i < |s.bodies|
    ensures Mirrors(Apply(s, Continue(i, works))) && Current(Apply(s, Continue(i, works)))
  {
    var t := s.(bodies := Without(s.bodies, i));
    assert t.bodies == [];
    match s.bodies[i]
    case Resuming(generation, seconds) =>
      HeardOne(t.log, NativeRecord(seconds, works));
      var u := t.(log := t.log + [NativeRecord(seconds, works)]);
      if generation != t.generation || !t.status.Paused? || t.pendingStop.Some? {
        EndingMirrors(t);
      } else {
        EndingMirrors(if works then u.(armed := true, status := Recording, shown := Recording) else u);
      }
    case ResumingPastLimit => EndingMirrors(t);
    case Stopping(_) =>
    case Resetting =>
  }

  lemma NativeMirrors(s: State, e: NativeStatus)
    requires Good(s) && Mirrors(s) && Current(s)
    ensures Mirrors(NativeEvent(s, e)) && Current(NativeEvent(s, e))
  {
    var d := Classify(e, s.armed, s.stopInFlight);
    if d.MediaServicesReset? {
      HeardOne(s.log, StopAccepted(NativeError));
      HeardOne(s.log, MediaLost);
    } else if d.StopFor? {
      HeardOne(s.log, StopAccepted(d.reason));
      HeardStop(s.log, d.reason);
    }
  }

  lemma StopMirrors(s: State, reason: Reason)
    requires Good(s) && Mirrors(s) && Current(s)
    ensures Mirrors(StopRequested(s, reason)) && Current(StopRequested(s, reason))
  {
    HeardOne(s.log, StopAccepted(reason));
    HeardStop(s.log, reason);
  }

  lemma FinishMirrors(s: State, i: nat, completed: bool)
    requires Good(s) && Mirrors(s) && Current(s) && Enabled(s, Finish(i, completed))
    ensures Mirrors(Apply(s, Finish(i, completed))) && Current(Apply(s, Finish(i, completed)))
  {
    assert Without(s.bodies, i) == [] && s.log + [] == s.log;
    HeardOne(s.log, StopEnded(completed));
  }

  lemma StepMirrors(s: State, step: Step)
    requires Good(s) && Mirrors(s) && Current(s) && Enabled(s, step)
    ensures Mirrors(Apply(s, step)) && Current(Apply(s, step))
  {
    match step
    case Pause(works) => PauseMirrors(s, works);
    case Resume(durationMs) => ResumeMirrors(s, RemainingSeconds(durationMs));
    case Stop(reason) => StopMirrors(s, reason);
    case MediaReset => ResetMirrors(s);
    case Native(e) => NativeMirrors(s, e);
    case Continue(i, works) => ContinueMirrors(s, i, works);
    case Finish(i, completed) => FinishMirrors(s, i, completed);
    case Render =>
    case Interrupted(canRecord) => HeardOne(s.log, FoundStopped(canRecord));
  }

  lemma {:induction false} RunMirrors(s: State, steps: seq<Step>)
    requires Good(s) && Mirrors(s) && Current(s) && ValidRun(s, steps)
    ensures Good(Run(s, steps)) && Mirrors(Run(s, steps)) && Current(Run(s, steps))
    decreases |steps|
  {
    if steps != [] {
      StepKeepsGood(s, steps[0]);
      StepMirrors(s, steps[0]);
      RunMirrors(Apply(s, steps[0]), steps[1..]);
    }
  }

  lemma StartedMirrors()
    ensures Good(Started) && Mirrors(Started) && Current(Started)
  {
    StartedIsGood();
    var first := NativeRecord(RemainingSeconds(None), true);
    HeardOne([], first);
    assert [first] == [] + [first];
  }

  /** After a stop or a loss. */
  predicate Over(log: seq<Event>) {
    LastHeard(log).Some? && (LastHeard(log).value.NativeStop? || LastHeard(log).value.StopEnded? || LastHeard(log).value.MediaLost?)
  }

  predicate Records(e: Option<Event>) { e.Some? && e.value.NativeRecord? && e.value.works }

  /**
   In every run the app shows a recording exactly when the last call that worked started the recorder, and a pause only
   when the last one paused it or the recorder was found stopped.  Both refs agree then; a render may be due otherwise.
   */
  lemma ShownIsTrue(steps: seq<Step>)
    requires ValidRun(Started, steps)
    ensures var s := Run(Started, steps);
            && (s.shown.Recording? <==> Records(LastHeard(s.log)))
            && (s.shown.Recording? ==> s.status.Recording?)
            && (s.shown.Paused? <==> LastHeard(s.log) == Some(NativePause(true)) || LastHeard(s.log) == Some(FoundStopped(true)))
            && (LastHeard(s.log) == Some(NativePause(true)) ==> s.status.Paused?)
            && (s.shown.Processing? <==> s.stopInFlight)
            && (s.shown.Complete? <==> LastHeard(s.log) == Some(StopEnded(true)))
            && (s.shown.Error? <==> LastHeard(s.log) == Some(StopEnded(false)) || LastHeard(s.log) == Some(FoundStopped(false))
                                    || (LastHeard(s.log) == Some(MediaLost) && !s.stopInFlight))
            && (s.status.Recording? && s.status == s.shown ==> Records(LastHeard(s.log)))
  {
    StartedMirrors();
    RunMirrors(Started, steps);
    HeardWorks(Run(Started, steps).log);
  }

  /** The generation that a resume checks tells every recording from the ones before it: it counts their endings. */
  lemma GenerationCountsEndings(steps: seq<Step>)
    requires ValidRun(Started, steps)
    ensures Run(Started, steps).generation == 1 + Endings(Run(Started, steps).log)
  {
    StartedMirrors();
    RunMirrors(Started, steps);
  }

  /** Only calls that worked are heard. */
  lemma {:induction false} HeardWorks(log: seq<Event>)
    ensures LastHeard(log).Some? ==> !Unheard(LastHeard(log).value)
  {
    if log != [] { HeardWorks(log[..|log| - 1]); }
  }

  // ----- A resume within the limit -----

  lemma ResumingStep(s: State, step: Step)
    requires Good(s) && Enabled(s, step) && !step.Continue? && s.bodies != [] && s.bodies[0].Resuming?
    requires s.status.Paused? && s.shown.Paused?
    ensures var t := Apply(s, step);
            t.bodies == s.bodies && t.generation == s.generation && t.status.Paused? && t.shown.Paused?
            && OnlyStopsAccepted(s.log, t.log)
  {
  }

  lemma {:induction false} ResumingWaits(s: State, steps: seq<Step>)
    requires Good(s) && s.bodies != [] && s.bodies[0].Resuming? && s.status.Paused? && s.shown.Paused?
    requires ValidRun(s, steps) && forall i :: 0 <= i < |steps| ==> !steps[i].Continue?
    ensures var u := Run(s, steps);
            Good(u) && u.bodies == s.bodies && u.generation == s.generation && u.status.Paused? && u.shown.Paused?
            && OnlyStopsAccepted(s.log, u.log)
    decreases |steps|
  {
    if steps != [] {
      StepKeepsGood(s, steps[0]);
      ResumingStep(s, steps[0]);
      ResumingWaits(Apply(s, steps[0]), steps[1..]);
    }
  }

  /** The continuation of a resume that nothing came between restarts the recorder. */
  lemma ContinuationRecords(u: State, works: bool)
    requires Good(u) && |u.bodies| == 1 && u.bodies[0].Resuming? && u.bodies[0].generation == u.generation
    requires u.status.Paused? && u.pendingStop.None?
    ensures var v := Apply(u, Continue(0, works));
            && v.log == u.log + [NativeRecord(u.bodies[0].seconds, works)] && v.bodies == [] && !v.transition
            && (works ==> v.armed && v.status.Recording? && v.shown.Recording?)
            && (!works ==> v.status == u.status && v.shown == u.shown)
  {
    assert Without(u.bodies, 0) == [];
  }

  /**
   Resuming a paused recording with time left: whatever happens until the stream answers, the call then starts the
   recorder and arms its limit, or starts the stop that was requested meanwhile.
   */
  lemma ResumeRestarts(s: State, durationMs: Option<real>, steps: seq<Step>, works: bool)
    requires Good(s) && !Refused(s) && s.status.Paused? && s.shown.Paused?
    requires durationMs.Some? ==> durationMs.value < RECORDING_DURATION_MAXIMUM_MS as real
    requires ValidRun(Apply(s, Resume(durationMs)), steps) && forall i :: 0 <= i < |steps| ==> !steps[i].Continue?
    ensures var u := Run(Apply(s, Resume(durationMs)), steps);
            && u.bodies == [Resuming(s.generation, RemainingSeconds(durationMs))] && OnlyStopsAccepted(s.log, u.log)
            && var v := Apply(u, Continue(0, works));
               if u.pendingStop.Some?
               then v.bodies == [Stopping(u.pendingStop.value)]
                    && v.log == u.log + [StopAccepted(u.pendingStop.value), NativeStop]
               else v.bodies == [] && v.log == u.log + [NativeRecord(RemainingSeconds(durationMs), works)]
                    && (works ==> v.armed && v.status.Recording? && v.shown.Recording?)
  {
    ResumeBegins(s, durationMs);
    var t := Apply(s, Resume(durationMs));
    ResumingWaits(t, steps);
    ResumeEnds(Run(t, steps), works);
  }

  lemma ResumeBegins(s: State, durationMs: Option<real>)
    requires Good(s) && !Refused(s) && (durationMs.Some? ==> durationMs.value < RECORDING_DURATION_MAXIMUM_MS as real)
    ensures Apply(s, Resume(durationMs))
            == s.(transition := true, bodies := [Resuming(s.generation, RemainingSeconds(durationMs))])
    ensures Good(Apply(s, Resume(durationMs)))
  {
    NothingRemainsIff(durationMs);
    ResumedStates(s, RemainingSeconds(durationMs));
    ResumeKeepsGood(s, RemainingSeconds(durationMs));
  }

  lemma ResumeEnds(u: State, works: bool)
    requires Good(u) && |u.bodies| == 1 && u.bodies[0].Resuming? && u.bodies[0].generation == u.generation && u.status.Paused?
    ensures var v := Apply(u, Continue(0, works));
            if u.pendingStop.Some?
            then v.bodies == [Stopping(u.pendingStop.value)]
                 && v.log == u.log + [StopAccepted(u.pendingStop.value), NativeStop]
            else v.bodies == [] && v.log == u.log + [NativeRecord(u.bodies[0].seconds, works)]
                 && (works ==> v.armed && v.status.Recording? && v.shown.Recording?)
  {
    if u.pendingStop.None? { ContinuationRecords(u, works); } else { assert Without(u.bodies, 0) == []; }
  }

  // ----- A completion of the native recorder -----

  /** The limit's own completion is the one that comes with at most two seconds left. */
  lemma LimitCompletionIff(e: NativeStatus, armed: bool, stopInFlight: bool)
    ensures Classify(e, armed, stopInFlight) == StopFor(DurationLimit)
            <==> e.finished && armed && !stopInFlight && !e.mediaReset && !e.failed && RemainingSeconds(e.durationMs) <= 2
  {
    var d := if e.durationMs.Some? then e.durationMs.value else 0.0;
    assert d.Floor as real <= d < d.Floor as real + 1.0;
  }

  /** While the app shows a recording, no completion of the recorder goes unheard: it is lost, stopped, or will be. */
  lemma CompletionIsTaken(steps: seq<Step>, e: NativeStatus)
    requires ValidRun(Started, steps) && e.finished
    requires var s := Run(Started, steps); s.shown.Recording? && s.pendingStop.None? && !s.resetHandled
    ensures var s := Run(Started, steps); var t := Apply(s, Native(e));
            var reason := if !e.mediaReset && !e.failed && RemainingSeconds(e.durationMs) <= 2 then DurationLimit else NativeError;
            if s.transition then t.pendingStop == Some(reason)
            else if e.mediaReset then t.bodies == [Resetting] && t.stopInFlight
            else t.bodies == [Stopping(reason)] && t.stopInFlight
  {
    StartedMirrors();
    RunMirrors(Started, steps);
    var s := Run(Started, steps);
    assert Records(LastHeard(s.log)) by { ShownIsTrue(steps); }
    LimitCompletionIff(e, s.armed, s.stopInFlight);
    assert !s.transition ==> s.bodies == [];
  }

  /** A native event that reports no completion, or comes after a stop or a loss, changes nothing. */
  lemma LateEventIsIgnored(steps: seq<Step>, e: NativeStatus)
    requires ValidRun(Started, steps) && (!e.finished || Over(Run(Started, steps).log))
    ensures Apply(Run(Started, steps), Native(e)) == Run(Started, steps)
  {
    StartedMirrors();
    RunMirrors(Started, steps);
  }

  /**
   A media reset is taken up once.  During a transition it leaves a stop for that to end in; at rest it ends the
   recording itself; during a stop it joins that one.
   */
  lemma ResetIsTakenUp(s: State)
    requires Good(s)
    ensures var t := Apply(s, MediaReset);
            && t.resetHandled && Apply(t, MediaReset) == t
            && (s.resetHandled ==> t == s)
            && (!s.resetHandled ==>
                  && (s.transition ==> t.pendingStop == Some(NativeError) && t.bodies == s.bodies)
                  && (s.bodies == [] ==>
                        Resets(t) && t.stopInFlight && !t.armed && t.shown.Processing? && t.log == s.log + [MediaLost])
                  && (s.stopInFlight ==> t.bodies == s.bodies && t.log == s.log && t.shown == s.shown))
  {
  }

  // ----- The component's refs, changed in place -----

  class Recorder {
    var transition: bool
    var stopInFlight: bool
    var pendingStop: Option<Reason>
    var generation: nat
    var status: Status
    var shown: Status
    var resetHandled: bool
    var armed: bool
    var bodies: seq<Body>
    var log: seq<Event>

    ghost function View(): State reads this {
      State(transition, stopInFlight, pendingStop, generation, status, shown, resetHandled, armed, bodies, log)
    }

    constructor ()
      ensures View() == Started
    {
      transition, stopInFlight, pendingStop, generation := false, false, None, 1;
      status, shown, resetHandled, armed, bodies := Recording, Recording, false, true, [];
      log := [NativeRecord(RemainingSeconds(None), true)];
    }

    method StopRecording(reason: Reason)
      modifies this
      ensures View() == StopRequested(old(View()), reason)
    {
      if transition {
        pendingStop := Some(reason);
        log := log + [StopAccepted(reason)];
        return;
      }
      if stopInFlight { return; }
      stopInFlight := true;
      armed := false;
      log := log + [StopAccepted(reason)];
      shown := Processing;
      generation := generation + 1;
      log := log + [NativeStop];
      bodies := bodies + [Stopping(reason)];
      assert log == old(log) + [StopAccepted(reason), NativeStop];
    }

    method EndTransition()
      modifies this
      ensures View() == TransitionEnded(old(View()))
    {
      transition := false;
      var pending := pendingStop;
      pendingStop := None;
      if pending.Some? { StopRecording(pending.value); }
    }

    method PauseRecording(works: bool)
      modifies this
      ensures View() == PauseCalled(old(View()), works)
    {
      if transition || stopInFlight { return; }
      transition := true;
      log := log + [NativePause(works)];
      if works {
        status := Paused;
        shown := Paused;
      }
      EndTransition();
    }

    method ResumeRecording(durationMs: Option<real>)
      modifies this
      ensures View() == ResumeCalled(old(View()), durationMs)
    {
      if transition || stopInFlight { return; }
      var captured := generation;
      transition := true;
      var remaining := RemainingSeconds(durationMs);
      if remaining <= 0 {
        StopRecording(DurationLimit);
        bodies := bodies + [ResumingPastLimit];
        return;
      }
      bodies := bodies + [Resuming(captured, remaining)];
    }

    method ResumeAfterStream(index: nat, works: bool)
      requires index < |bodies| && bodies[index].Resuming?
      modifies this
      ensures View() == Apply(old(View()), Continue(index, works))
    {
      var captured, seconds := bodies[index].generation, bodies[index].seconds;
      bodies := Without(bodies, index);
      if !(captured != generation || status != Paused || pendingStop.Some?) {
        log := log + [NativeRecord(seconds, works)];
        if works {
          armed := true;
          status := Recording;
          shown := Recording;
        }
      }
      EndTransition();
    }

    method ResumeAfterOwnStop(index: nat)
      requires index < |bodies| && bodies[index].ResumingPastLimit?
      modifies this
      ensures View() == Apply(old(View()), Continue(index, true))
    {
      bodies := Without(bodies, index);
      EndTransition();
    }

    method HandleMediaServicesReset()
      modifies this
      ensures View() == ResetCalled(old(View()))
    {
      if resetHandled { return; }
      if transition {
        resetHandled := true;
        pendingStop := Some(NativeError);
        log := log + [StopAccepted(NativeError)];
        return;
      }
      resetHandled := true;
      if stopInFlight { return; }
      stopInFlight := true;
      armed := false;
      generation := generation + 1;
      shown := Processing;
      log := log + [MediaLost];
      bodies := bodies + [Resetting];
    }

    method OnNativeStatus(e: NativeStatus)
      modifies this
      ensures View() == NativeEvent(old(View()), e)
    {
      var disposition := Classify(e, armed, stopInFlight);
      if disposition.Ignore? { return; }
      armed := false;
      if disposition.MediaServicesReset? {
        HandleMediaServicesReset();
        return;
      }
      StopRecording(disposition.reason);
    }

    method FinishBody(index: nat, completed: bool)
      requires index < |bodies| && !bodies[index].IsTransition()
      modifies this
      ensures View() == Apply(old(View()), Finish(index, completed))
    {
      shown := if bodies[index].Stopping? && completed then Complete else Error;
      if bodies[index].Stopping? { log := log + [StopEnded(completed)]; }
      bodies := Without(bodies, index);
      stopInFlight := false;
    }
  }
}
