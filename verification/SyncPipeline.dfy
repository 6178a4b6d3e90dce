/**
 The phases in which mobile sync brings one recording to the server: close the realtime
 session, upload, finalize, each persisted before the next
 (apps/mobile/App.tsx:4658-4726, 4756-4764, 4782-4821).

 The code runs from await to await; at each await the call succeeds, fails, or the app
 crashes.  `durable` is the record in the index file, `memory` the record in the list a sync
 picks its targets from (App.tsx:1715-1719, 4636-4640), `working` the local copy.  A write may
 take effect although the call fails or the app dies; only a write that succeeds updates the
 list.  Sync is the only writer of the record.  `log` lists the calls to the server, their
 successes, and when the upload and the finalization first are on record.
 */
module SyncPipeline {
  import opened Text

  datatype Record = Record(
    createdAt: int,
    closePending: bool,
    uploadId: Option<nat>,
    recordedAt: Option<int>,
    uploadedParts: nat,
    audioUploaded: bool,
    finalized: bool,
    attempts: nat)

  datatype Phase =
    | Idle
    | Closing | SavingClose | ClearingJournal
    | SavingId | Uploading | SavingProgress | SavingUploaded
    | Finalizing | SavingFinal
    | SavingError

  datatype Event =
    | CloseCalled | CloseDone
    | UploadCalled(id: nat) | UploadDone | UploadRecorded
    | FinalizeCalled | FinalizeDone | FinalRecorded

  datatype State = State(
    durable: Record, memory: Record, working: Record, phase: Phase, freshId: nat, errorRecord: Record, log: seq<Event>)

  datatype Outcome =
    | Done
    | Failed(written: bool, rejected: bool)   // the call throws; `rejected` when the session was refused
    | Crashed(written: bool)

  datatype Step = Start(freshId: nat, forced: bool) | Progress(parts: nat) | Resume(outcome: Outcome)

  /** `{ ...existing, ...recording }`: a field the written copy does not have keeps its stored value. */
  function Merge(existing: Record, r: Record): Record {
    r.(uploadId := if r.uploadId.Some? then r.uploadId else existing.uploadId,
       recordedAt := if r.recordedAt.Some? then r.recordedAt else existing.recordedAt,
       audioUploaded := r.audioUploaded || existing.audioUploaded,
       finalized := r.finalized || existing.finalized)
  }

  /** What a write notes: an upload or a finalization that first becomes durable. */
  function News(before: Record, after: Record): seq<Event> {
    (if after.audioUploaded && !before.audioUploaded then [UploadRecorded] else [])
    + if after.finalized && !before.finalized then [FinalRecorded] else []
  }

  /** An index write. */
  function Saved(s: State, r: Record): State {
    var merged := Merge(s.durable, r);
    s.(durable := merged, log := s.log + News(s.durable, merged))
  }

  predicate Unstamped(r: Record) { r.uploadId.None? || r.recordedAt.None? || r.recordedAt.value == 0 }

  function Stamped(r: Record, freshId: nat): Record {
    r.(uploadId := if r.uploadId.Some? then r.uploadId else Some(freshId),
       recordedAt := if r.recordedAt.Some? then r.recordedAt else Some(r.createdAt),
       uploadedParts := 0)
  }

  function CallFinalize(s: State): State { s.(phase := Finalizing, log := s.log + [FinalizeCalled]) }

  function CallUpload(s: State): State
    requires s.working.uploadId.Some?
  {
    s.(phase := Uploading, log := s.log + [UploadCalled(s.working.uploadId.value)])
  }

  function ToUpload(s: State): State {
    if s.working.audioUploaded then CallFinalize(s)
    else if Unstamped(s.working) then s.(working := Stamped(s.working, s.freshId), phase := SavingId)
    else CallUpload(s)
  }

  function Started(s: State, freshId: nat): State {
    var t := s.(working := s.memory, freshId := freshId);
    if t.working.closePending then t.(phase := Closing, log := t.log + [CloseCalled]) else ToUpload(t)
  }

  predicate IsWrite(p: Phase) {
    p.SavingClose? || p.SavingId? || p.SavingProgress? || p.SavingUploaded? || p.SavingFinal? || p.SavingError?
  }

  /** What the write at this phase puts into the index. */
  function Written(s: State): Record { if s.phase.SavingError? then s.errorRecord else s.working }

  /** The catch clause up to its own write. */
  function Caught(s: State, rejected: bool): State {
    s.(phase := SavingError, errorRecord := s.working.(attempts := if rejected then s.working.attempts else s.working.attempts + 1))
  }

  function Succeeded(s: State): State
    requires s.phase.SavingId? ==> s.working.uploadId.Some?
  {
    match s.phase
    case Idle => s
    case Closing => s.(working := s.working.(closePending := false), phase := SavingClose, log := s.log + [CloseDone])
    case SavingClose => s.(phase := ClearingJournal)
    case ClearingJournal => ToUpload(s)
    case SavingId => CallUpload(s)
    case Uploading =>
      s.(working := s.working.(audioUploaded := true, attempts := 0), phase := SavingUploaded, log := s.log + [UploadDone])
    case SavingProgress => s.(phase := Uploading)
    case SavingUploaded => CallFinalize(s)
    case Finalizing =>
      s.(working := s.working.(finalized := true, attempts := 0), phase := SavingFinal, log := s.log + [FinalizeDone])
    case SavingFinal => s.(phase := Idle)
    case SavingError => s.(phase := Idle)
  }

  function Resumed(s: State, outcome: Outcome): State
    requires s.phase.SavingId? ==> s.working.uploadId.Some?
  {
    var wrote := IsWrite(s.phase) && (outcome.Done? || outcome.written);
    var t := if wrote then Saved(s, Written(s)) else s;
    match outcome
    case Done => Succeeded(if wrote then t.(memory := t.durable) else t)
    case Failed(_, rejected) => if s.phase.SavingError? || s.phase.Idle? then t.(phase := Idle) else Caught(t, rejected)
    case Crashed(_) => t.(memory := t.durable, phase := Idle)
  }

  predicate Enabled(s: State, step: Step) {
    match step
    case Start(_, forced) => s.phase.Idle? && (!s.memory.finalized || forced)
    case Progress(_) => s.phase.Uploading?
    case Resume(_) => !s.phase.Idle? && (s.phase.SavingId? ==> s.working.uploadId.Some?)
  }

  function Apply(s: State, step: Step): State
    requires Enabled(s, step)
  {
    match step
    case Start(freshId, _) => Started(s, freshId)
    case Progress(parts) => s.(working := s.working.(uploadedParts := parts), phase := SavingProgress)
    case Resume(outcome) => Resumed(s, outcome)
  }

  predicate ValidRun(s: State, steps: seq<Step>)
    decreases |steps|
  {
    steps == [] || (Enabled(s, steps[0]) && ValidRun(Apply(s, steps[0]), steps[1..]))
  }

  function Run(s: State, steps: seq<Step>): State
    requires ValidRun(s, steps)
    decreases |steps|
  {
    if steps == [] then s else Run(Apply(s, steps[0]), steps[1..])
  }

  function Initial(r: Record): State { State(r, r, r, Idle, 0, r, []) }

  // ----- What the log promises -----

  predicate Closed(initial: Record, log: seq<Event>) { initial.closePending ==> CloseDone in log }

  predicate Recorded(initial: Record, log: seq<Event>) { initial.audioUploaded || UploadRecorded in log }

  predicate Finalized(initial: Record, log: seq<Event>) { initial.finalized || FinalRecorded in log }

  predicate Ends(log: seq<Event>, e: Event) { log != [] && log[|log| - 1] == e }

  predicate EndsInUpload(log: seq<Event>) { log != [] && log[|log| - 1].UploadCalled? }

  /** What may come after what: the step itself, and nothing before the one it rests on is done and on record. */
  predicate Allowed(initial: Record, log: seq<Event>, e: Event) {
    match e
    case CloseCalled => true
    case CloseDone => Ends(log, CloseCalled)
    case UploadCalled(_) => Closed(initial, log)
    case UploadDone => EndsInUpload(log)
    case UploadRecorded => UploadDone in log
    case FinalizeCalled => Recorded(initial, log)
    case FinalizeDone => Ends(log, FinalizeCalled)
    case FinalRecorded => FinalizeDone in log
  }

  /** Upload calls come after the realtime close, finalize calls after the upload is on record, records after successes. */
  predicate Orderly(initial: Record, log: seq<Event>) {
    forall k :: 0 <= k < |log| ==> Allowed(initial, log[..k], log[k])
  }

  /** No upload call follows the record of the upload. */
  predicate NoLateUpload(initial: Record, log: seq<Event>) {
    forall k :: 0 <= k < |log| && log[k].UploadCalled? ==> !Recorded(initial, log[..k])
  }

  predicate OneId(log: seq<Event>, id: Option<nat>) {
    forall k :: 0 <= k < |log| && log[k].UploadCalled? ==> id == Some(log[k].id)
  }

  /** `later` may follow `earlier` in the index: ids stay, a close and an upload are never undone. */
  predicate Follows(earlier: Record, later: Record) {
    && (earlier.uploadId.Some? ==> later.uploadId == earlier.uploadId)
    && (!earlier.closePending ==> !later.closePending)
    && (earlier.audioUploaded ==> later.audioUploaded)
    && (earlier.finalized ==> later.finalized)
  }

  /** What a record claims has happened. */
  predicate Vouched(initial: Record, log: seq<Event>, r: Record) {
    && (!r.closePending ==> Closed(initial, log))
    && (r.audioUploaded ==> initial.audioUploaded || UploadDone in log)
    && (r.finalized ==> initial.finalized || FinalizeDone in log)
  }

  /** A call that is awaited is the last thing that happened. */
  predicate Awaits(s: State) {
    match s.phase
    case Closing => Ends(s.log, CloseCalled)
    case Uploading => EndsInUpload(s.log)
    case SavingProgress => EndsInUpload(s.log)
    case Finalizing => Ends(s.log, FinalizeCalled)
    case _ => true
  }

  /** The list may be behind the index, and only in these ways. */
  predicate Behind(memory: Record, durable: Record) {
    && (memory.uploadId.Some? || memory.closePending || memory.audioUploaded ==> durable.uploadId == memory.uploadId)
    && (memory.audioUploaded || memory.closePending ==> durable.audioUploaded == memory.audioUploaded)
    && (durable.closePending ==> memory.closePending)
  }

  /** What the local copy shares with the list at each phase. */
  predicate PhaseFits(s: State) {
    var w, m := s.working, s.memory;
    && (w.uploadId == m.uploadId ||
        (m.uploadId.None? && !m.audioUploaded && !m.closePending && (s.phase.SavingId? || s.phase.SavingError?)))
    && (w.closePending ==> m.closePending && (s.phase.Closing? || s.phase.SavingError?))
    && (m.closePending ==>
          w.audioUploaded == m.audioUploaded && (s.phase.Closing? || s.phase.SavingClose? || s.phase.SavingError?))
    && (s.phase.Closing? || s.phase.SavingClose? ==> m.closePending)
    && (s.phase.ClearingJournal? ==> w.audioUploaded == m.audioUploaded)
    && (s.phase.SavingId? ==> w.uploadId.Some? && !w.audioUploaded && !m.audioUploaded)
    && (s.phase.Uploading? || s.phase.SavingProgress? || s.phase.SavingUploaded? ==> m.uploadId.Some?)
    && (s.phase.Uploading? || s.phase.SavingProgress? ==> !w.audioUploaded)
    && (s.phase.SavingUploaded? ==> w.audioUploaded)
    && (s.phase.SavingFinal? ==> w.finalized)
    && (w.finalized ==> s.durable.finalized || s.phase.SavingFinal? || s.phase.SavingError?)
    && (s.phase.Finalizing? || s.phase.SavingFinal? ==> m.audioUploaded && w.audioUploaded)
    && (s.phase.SavingError? ==> s.errorRecord == w.(attempts := s.errorRecord.attempts))
  }

  /** What every run keeps, also with a list that is behind the index. */
  predicate Good(initial: Record, s: State) {
    && Orderly(initial, s.log)
    && OneId(s.log, s.memory.uploadId)
    && Behind(s.memory, s.durable)
    && Vouched(initial, s.log, s.durable) && (s.memory.finalized ==> s.durable.finalized)
    && (s.durable.audioUploaded <==> Recorded(initial, s.log))
    && (s.durable.finalized <==> Finalized(initial, s.log))
    && (!s.phase.Idle? ==> PhaseFits(s) && Vouched(initial, s.log, s.working) && Awaits(s))
  }

  lemma LogOne(initial: Record, log: seq<Event>, e: Event)
    ensures Orderly(initial, log) && Allowed(initial, log, e) ==> Orderly(initial, log + [e])
    ensures (e.UploadCalled? ==> !Recorded(initial, log)) ==> (NoLateUpload(initial, log) ==> NoLateUpload(initial, log + [e]))
    ensures e.UploadCalled? && Recorded(initial, log) ==> !NoLateUpload(initial, log + [e])
    ensures Closed(initial, log + [e]) <==> Closed(initial, log) || e.CloseDone?
    ensures Recorded(initial, log + [e]) <==> Recorded(initial, log) || e.UploadRecorded?
    ensures Finalized(initial, log + [e]) <==> Finalized(initial, log) || e.FinalRecorded?
    ensures UploadDone in log + [e] <==> UploadDone in log || e.UploadDone?
    ensures FinalizeDone in log + [e] <==> FinalizeDone in log || e.FinalizeDone?
  {
    var longer := log + [e];
    assert longer[|log|] == e && longer[..|log|] == log;
    assert CloseDone in longer <==> CloseDone in log || e.CloseDone?;
    assert UploadRecorded in longer <==> UploadRecorded in log || e.UploadRecorded?;
    assert FinalRecorded in longer <==> FinalRecorded in log || e.FinalRecorded?;
    assert forall k :: 0 <= k < |log| ==> longer[..k] == log[..k];
  }

  /** What a write notes changes what is on record, and nothing else. */
  lemma NewsMembers(log: seq<Event>, before: Record, after: Record, id: Option<nat>)
    ensures var longer := log + News(before, after);
            && (CloseDone in longer <==> CloseDone in log) && (UploadDone in longer <==> UploadDone in log)
            && (FinalizeDone in longer <==> FinalizeDone in log)
            && (UploadRecorded in longer <==> UploadRecorded in log || (after.audioUploaded && !before.audioUploaded))
            && (FinalRecorded in longer <==> FinalRecorded in log || (after.finalized && !before.finalized))
            && (OneId(log, id) ==> OneId(longer, id))
  {
    var news := News(before, after);
    assert forall e :: e in news ==> e == UploadRecorded || e == FinalRecorded;
    assert forall e :: e in log + news <==> e in log || e in news;
    assert UploadRecorded in news <==> after.audioUploaded && !before.audioUploaded;
    assert FinalRecorded in news <==> after.finalized && !before.finalized;
  }

  lemma NewsOrderly(initial: Record, log: seq<Event>, before: Record, after: Record)
    requires after.audioUploaded && !before.audioUploaded ==> UploadDone in log
    requires after.finalized && !before.finalized ==> FinalizeDone in log
    ensures Orderly(initial, log) ==> Orderly(initial, log + News(before, after))
    ensures NoLateUpload(initial, log) ==> NoLateUpload(initial, log + News(before, after))
  {
    var first := if after.audioUploaded && !before.audioUploaded then log + [UploadRecorded] else log;
    LogOne(initial, log, UploadRecorded);
    LogOne(initial, first, FinalRecorded);
    assert log + News(before, after) == if after.finalized && !before.finalized then first + [FinalRecorded] else first;
  }

  lemma WrittenIsVouched(initial: Record, s: State)
    requires Good(initial, s) && IsWrite(s.phase)
    ensures Vouched(initial, s.log, Merge(s.durable, Written(s)))
    ensures var merged := Merge(s.durable, Written(s));
            && (merged.audioUploaded && !s.durable.audioUploaded ==> UploadDone in s.log)
            && (merged.finalized && !s.durable.finalized ==> FinalizeDone in s.log)
            && (s.phase.SavingProgress? ==> News(s.durable, merged) == [])
  {
  }

  lemma SavedLog(initial: Record, s: State)
    requires Good(initial, s) && IsWrite(s.phase)
    ensures var t := Saved(s, Written(s));
            && Orderly(initial, t.log) && OneId(t.log, t.memory.uploadId)
            && (t.durable.audioUploaded <==> Recorded(initial, t.log)) && (t.durable.finalized <==> Finalized(initial, t.log))
            && Vouched(initial, t.log, t.durable) && Vouched(initial, t.log, t.working) && Awaits(t)
  {
    var merged := Merge(s.durable, Written(s));
    WrittenIsVouched(initial, s);
    NewsMembers(s.log, s.durable, merged, s.memory.uploadId);
    NewsOrderly(initial, s.log, s.durable, merged);
  }

  lemma SavedFits(s: State)
    requires IsWrite(s.phase) && PhaseFits(s) && Behind(s.memory, s.durable)
    ensures var t := Saved(s, Written(s)); PhaseFits(t) && Behind(t.memory, t.durable)
    ensures var t := Saved(s, Written(s)); s.durable.finalized ==> t.durable.finalized
  {
  }

  lemma SaveKeepsGood(initial: Record, s: State)
    requires Good(initial, s) && IsWrite(s.phase)
    ensures Good(initial, Saved(s, Written(s)))
  {
    SavedLog(initial, s);
    SavedFits(s);
  }

  lemma ToUploadKeepsGood(initial: Record, s: State)
    requires Good(initial, s.(phase := ClearingJournal))
    ensures Good(initial, ToUpload(s))
  {
    if s.working.audioUploaded {
      LogOne(initial, s.log, FinalizeCalled);
    } else if !Unstamped(s.working) {
      LogOne(initial, s.log, UploadCalled(s.working.uploadId.value));
    }
  }

  lemma StartKeepsGood(initial: Record, s: State, freshId: nat)
    requires Good(initial, s) && s.phase.Idle?
    ensures Good(initial, Started(s, freshId))
  {
    var t := s.(working := s.memory, freshId := freshId);
    if t.working.closePending {
      LogOne(initial, t.log, CloseCalled);
    } else {
      ToUploadKeepsGood(initial, t);
    }
  }

  lemma CloseSucceeds(initial: Record, s: State)
    requires Good(initial, s) && s.phase.Closing?
    ensures Good(initial, Succeeded(s))
  {
    LogOne(initial, s.log, CloseDone);
  }

  lemma UploadSucceeds(initial: Record, s: State)
    requires Good(initial, s) && s.phase.Uploading?
    ensures Good(initial, Succeeded(s))
  {
    LogOne(initial, s.log, UploadDone);
  }

  lemma FinalizeSucceeds(initial: Record, s: State)
    requires Good(initial, s) && s.phase.Finalizing?
    ensures Good(initial, Succeeded(s))
  {
    LogOne(initial, s.log, FinalizeDone);
  }

  lemma CallSucceeds(initial: Record, s: State)
    requires Good(initial, s) && !s.phase.Idle? && !IsWrite(s.phase)
    ensures Good(initial, Succeeded(s))
  {
    match s.phase
    case Closing => CloseSucceeds(initial, s);
    case ClearingJournal => ToUploadKeepsGood(initial, s);
    case Uploading => UploadSucceeds(initial, s);
    case Finalizing => FinalizeSucceeds(initial, s);
  }

  /** A write that succeeds: the list and the index agree again. */
  lemma WriteSucceeds(initial: Record, s: State)
    requires Good(initial, s) && IsWrite(s.phase)
    ensures var t := Saved(s, Written(s)); Good(initial, Succeeded(t.(memory := t.durable)))
  {
    SaveKeepsGood(initial, s);
    var t := Saved(s, Written(s));
    match s.phase
    case SavingId => LogOne(initial, t.log, UploadCalled(s.working.uploadId.value));
    case SavingUploaded => LogOne(initial, t.log, FinalizeCalled);
    case _ =>
  }

  /** A call that fails, or an app that dies; the record may have been written. */
  lemma BreakKeepsGood(initial: Record, t: State, outcome: Outcome)
    requires Good(initial, t) && !t.phase.Idle? && !outcome.Done?
    ensures match outcome
            case Failed(_, rejected) => Good(initial, t.(phase := Idle)) && (!t.phase.SavingError? ==> Good(initial, Caught(t, rejected)))
            case Crashed(_) => Good(initial, t.(memory := t.durable, phase := Idle))
            case Done => true
  {
  }

  lemma ResumeKeepsGood(initial: Record, s: State, outcome: Outcome)
    requires Good(initial, s) && !s.phase.Idle?
    ensures Good(initial, Resumed(s, outcome))
  {
    if outcome.Done? {
      if IsWrite(s.phase) { WriteSucceeds(initial, s); } else { CallSucceeds(initial, s); }
    } else {
      var wrote := IsWrite(s.phase) && outcome.written;
      if wrote { SaveKeepsGood(initial, s); }
      BreakKeepsGood(initial, if wrote then Saved(s, Written(s)) else s, outcome);
    }
  }

  /** Every step keeps what holds of every run. */
  lemma StepKeepsGood(initial: Record, s: State, step: Step)
    requires Good(initial, s) && Enabled(s, step)
    ensures Good(initial, Apply(s, step))
  {
    match step
    case Start(freshId, forced) => StartKeepsGood(initial, s, freshId);
    case Progress(parts) =>
    case Resume(outcome) => ResumeKeepsGood(initial, s, outcome);
  }

  lemma {:induction false} RunKeepsGood(initial: Record, s: State, steps: seq<Step>)
    requires Good(initial, s) && ValidRun(s, steps)
    ensures Good(initial, Run(s, steps))
    decreases |steps|
  {
    if steps != [] {
      StepKeepsGood(initial, s, steps[0]);
      RunKeepsGood(initial, Apply(s, steps[0]), steps[1..]);
    }
  }

  /** A record that sync finds; an upload already on record is not made again, so it may carry no id. */
  lemma InitialIsGood(r: Record)
    ensures Good(r, Initial(r)) && NoLateUpload(r, [])
  {
  }

  /**
   Over all crashes, failures and retries: every upload call carries one id, the one of the list and the index, and
   comes after a pending realtime close was confirmed; every finalize call comes after the upload is on record.
   */
  lemma UploadsAreOrderly(r: Record, steps: seq<Step>)
    requires ValidRun(Initial(r), steps)
    ensures var s := Run(Initial(r), steps);
            Orderly(r, s.log) && OneId(s.log, s.memory.uploadId) && OneId(s.log, s.durable.uploadId)
  {
    InitialIsGood(r);
    RunKeepsGood(r, Initial(r), steps);
  }

  // ----- No upload after the upload is on record: exactly while the list knows of it -----

  /** The list says of the upload what the index says. */
  predicate UploadKnown(s: State) { s.memory.audioUploaded == s.durable.audioUploaded }

  /** A sync under way has not fallen behind the index. */
  predicate Current(s: State) {
    !s.phase.Idle? && !s.phase.SavingError? && !s.working.audioUploaded ==> !s.durable.audioUploaded
  }

  lemma ToUploadStaysCurrent(initial: Record, s: State)
    requires NoLateUpload(initial, s.log) && (s.durable.audioUploaded <==> Recorded(initial, s.log))
    requires !s.working.audioUploaded ==> !s.durable.audioUploaded
    ensures Current(ToUpload(s)) && NoLateUpload(initial, ToUpload(s).log)
  {
    if s.working.audioUploaded {
      LogOne(initial, s.log, FinalizeCalled);
    } else if !Unstamped(s.working) {
      LogOne(initial, s.log, UploadCalled(s.working.uploadId.value));
    }
  }

  lemma SavedStaysCurrent(initial: Record, s: State)
    requires Good(initial, s) && IsWrite(s.phase) && Current(s) && NoLateUpload(initial, s.log)
    ensures var t := Saved(s, Written(s)); Current(t) && NoLateUpload(initial, t.log)
  {
    LogOne(initial, s.log, UploadRecorded);
  }

  lemma ResumeStaysCurrent(initial: Record, s: State, outcome: Outcome)
    requires Good(initial, s) && !s.phase.Idle? && Current(s) && NoLateUpload(initial, s.log)
    ensures Current(Resumed(s, outcome)) && NoLateUpload(initial, Resumed(s, outcome).log)
  {
    var wrote := IsWrite(s.phase) && (outcome.Done? || outcome.written);
    if wrote {
      SavedStaysCurrent(initial, s);
      SaveKeepsGood(initial, s);
    }
    var t := if wrote then Saved(s, Written(s)) else s;
    if outcome.Done? {
      match s.phase
      case Closing => LogOne(initial, t.log, CloseDone);
      case ClearingJournal => ToUploadStaysCurrent(initial, t);
      case SavingId => LogOne(initial, t.log, UploadCalled(t.working.uploadId.value));
      case SavingUploaded => LogOne(initial, t.log, FinalizeCalled);
      case _ =>
    }
  }

  lemma StepStaysCurrent(initial: Record, s: State, step: Step)
    requires Good(initial, s) && Enabled(s, step) && Current(s) && NoLateUpload(initial, s.log)
    requires step.Start? ==> UploadKnown(s)
    ensures Current(Apply(s, step)) && NoLateUpload(initial, Apply(s, step).log)
  {
    match step
    case Start(freshId, forced) =>
      var t := s.(working := s.memory, freshId := freshId);
      if t.working.closePending { LogOne(initial, t.log, CloseCalled); } else { ToUploadStaysCurrent(initial, t); }
    case Progress(parts) =>
    case Resume(outcome) => ResumeStaysCurrent(initial, s, outcome);
  }

  /** Each sync starts while the list knows whether the upload is on record. */
  predicate KnowingRun(s: State, steps: seq<Step>)
    requires ValidRun(s, steps)
    decreases |steps|
  {
    steps == [] || ((steps[0].Start? ==> UploadKnown(s)) && KnowingRun(Apply(s, steps[0]), steps[1..]))
  }

  lemma {:induction false} RunStaysCurrent(initial: Record, s: State, steps: seq<Step>)
    requires Good(initial, s) && Current(s) && NoLateUpload(initial, s.log) && ValidRun(s, steps) && KnowingRun(s, steps)
    ensures NoLateUpload(initial, Run(s, steps).log)
    decreases |steps|
  {
    if steps != [] {
      StepKeepsGood(initial, s, steps[0]);
      StepStaysCurrent(initial, s, steps[0]);
      RunStaysCurrent(initial, Apply(s, steps[0]), steps[1..]);
    }
  }

  /** In runs that start each sync with a knowing list, no upload call follows the record of the upload. */
  lemma KnownUploadsAreNotRepeated(r: Record, steps: seq<Step>)
    requires ValidRun(Initial(r), steps) && KnowingRun(Initial(r), steps)
    ensures NoLateUpload(r, Run(Initial(r), steps).log)
  {
    InitialIsGood(r);
    RunStaysCurrent(r, Initial(r), steps);
  }

  /** The steps of one sync, after its start. */
  predicate OneSync(steps: seq<Step>) { forall i :: 0 <= i < |steps| ==> !steps[i].Start? }

  lemma {:induction false} OneSyncStaysCurrent(initial: Record, s: State, steps: seq<Step>)
    requires Good(initial, s) && Current(s) && NoLateUpload(initial, s.log) && ValidRun(s, steps) && OneSync(steps)
    ensures NoLateUpload(initial, Run(s, steps).log)
    decreases |steps|
  {
    if steps != [] {
      assert !steps[0].Start?;
      StepKeepsGood(initial, s, steps[0]);
      StepStaysCurrent(initial, s, steps[0]);
      OneSyncStaysCurrent(initial, Apply(s, steps[0]), steps[1..]);
    }
  }

  /** The outcomes that lead a sync with a list behind the index to its upload call. */
  function ToLateUpload(s: State, freshId: nat): seq<Step> {
    if Started(s, freshId).phase.SavingId? then [Resume(Done)] else []
  }

  /** A first id is saved, and the upload is called although it is on record. */
  lemma LateStampedUpload(initial: Record, t: State)
    requires t.phase.SavingId? && t.working.uploadId.Some? && Recorded(initial, t.log) && t.durable.audioUploaded
    requires t.working.finalized ==> t.durable.finalized
    ensures ValidRun(t, [Resume(Done)]) && !NoLateUpload(initial, Run(t, [Resume(Done)]).log)
  {
    var u := Apply(t, Resume(Done));
    assert [Resume(Done)][1..] == [];
    assert Run(t, [Resume(Done)]) == Run(u, []) == u;
    assert News(t.durable, u.durable) == [] && t.log + [] == t.log;
    LogOne(initial, t.log, UploadCalled(t.working.uploadId.value));
  }

  lemma LateUpload(initial: Record, s: State, freshId: nat)
    requires Good(initial, s) && s.phase.Idle? && !UploadKnown(s)
    ensures var t, steps := Started(s, freshId), ToLateUpload(s, freshId);
            OneSync(steps) && ValidRun(t, steps) && !NoLateUpload(initial, Run(t, steps).log)
  {
    var t := Started(s, freshId);
    assert s.durable.audioUploaded && !s.memory.audioUploaded && !s.memory.closePending;
    if t.phase.SavingId? {
      LateStampedUpload(initial, t);
    } else {
      LogOne(initial, s.log, UploadCalled(s.memory.uploadId.value));
    }
  }

  /** A sync can call upload after the upload is on record if and only if it starts while the list does not know of it. */
  lemma LateUploadIff(initial: Record, s: State, freshId: nat)
    requires Good(initial, s) && s.phase.Idle? && NoLateUpload(initial, s.log)
    ensures (exists steps :: OneSync(steps) && ValidRun(Started(s, freshId), steps)
                             && !NoLateUpload(initial, Run(Started(s, freshId), steps).log))
            <==> !UploadKnown(s)
  {
    var t := Started(s, freshId);
    if UploadKnown(s) {
      StartKeepsGood(initial, s, freshId);
      StepStaysCurrent(initial, s, Start(freshId, true));
      forall steps | OneSync(steps) && ValidRun(t, steps) ensures NoLateUpload(initial, Run(t, steps).log) {
        OneSyncStaysCurrent(initial, t, steps);
      }
    } else {
      LateUpload(initial, s, freshId);
    }
  }

  /** Two upload calls of a run carry the same id; with a knowing list no finalize call lies between them. */
  lemma UploadCallsAgree(r: Record, steps: seq<Step>, i: nat, j: nat)
    requires ValidRun(Initial(r), steps)
    requires var log := Run(Initial(r), steps).log; i < j < |log| && log[i].UploadCalled? && log[j].UploadCalled?
    ensures var log := Run(Initial(r), steps).log;
            log[i].id == log[j].id && (KnowingRun(Initial(r), steps) ==> forall k :: i <= k < j ==> !log[k].FinalizeCalled?)
  {
    UploadsAreOrderly(r, steps);
    var log := Run(Initial(r), steps).log;
    if KnowingRun(Initial(r), steps) {
      KnownUploadsAreNotRepeated(r, steps);
      forall k | i <= k < j ensures !log[k].FinalizeCalled? {
        if Recorded(r, log[..k]) { RecordedStays(r, log, k, j); }
      }
    }
  }

  lemma RecordedStays(initial: Record, log: seq<Event>, k: nat, j: nat)
    requires k <= j <= |log| && Recorded(initial, log[..k])
    ensures Recorded(initial, log[..j])
  {
    if UploadRecorded in log[..k] {
      var n :| 0 <= n < k && log[..k][n] == UploadRecorded;
      assert log[..j][n] == UploadRecorded;
    }
  }

  // ----- Progress in the index: kept exactly while the list knows of it -----

  /** The list knows the upload id and the finished close that the index has. */
  predicate ProgressKnown(s: State) {
    s.memory.uploadId == s.durable.uploadId && s.memory.closePending == s.durable.closePending
  }

  /** The index, and the copy a sync works on, keep the progress of `base`. */
  predicate Keeps(base: Record, s: State) {
    && Follows(base, s.durable)
    && (!s.phase.Idle? ==>
          && (base.uploadId.Some? ==> s.working.uploadId == base.uploadId)
          && (!base.closePending ==> !s.working.closePending))
  }

  lemma ToUploadKeepsProgress(base: Record, s: State)
    requires Follows(base, s.durable) && (base.uploadId.Some? ==> s.working.uploadId == base.uploadId)
    requires !base.closePending ==> !s.working.closePending
    ensures Keeps(base, ToUpload(s))
  {}

  /** Both records a phase can write carry the working copy's id and close flag. */
  lemma SaveKeepsProgress(initial: Record, base: Record, s: State)
    requires Good(initial, s) && Keeps(base, s) && IsWrite(s.phase)
    ensures Keeps(base, Saved(s, Written(s)))
  {
    var r := Written(s);
    assert r.uploadId == s.working.uploadId && r.closePending == s.working.closePending;
  }

  lemma SuccessKeepsProgress(base: Record, s: State)
    requires Keeps(base, s) && !s.phase.Idle? && (s.phase.SavingId? ==> s.working.uploadId.Some?)
    ensures Keeps(base, Succeeded(s))
  {
    if s.phase.ClearingJournal? { ToUploadKeepsProgress(base, s); }
  }

  lemma ResumeKeepsProgress(initial: Record, base: Record, s: State, outcome: Outcome)
    requires Good(initial, s) && Enabled(s, Resume(outcome)) && Keeps(base, s)
    ensures Keeps(base, Resumed(s, outcome))
  {
    var t := s;
    if IsWrite(s.phase) && (outcome.Done? || outcome.written) {
      SaveKeepsProgress(initial, base, s);
      t := Saved(s, Written(s));
    }
    assert Keeps(base, t) && Keeps(base, t.(memory := t.durable)) && t.phase == s.phase;
    if outcome.Done? {
      SuccessKeepsProgress(base, if IsWrite(s.phase) then t.(memory := t.durable) else t);
    }
  }

  lemma StepKeepsProgress(initial: Record, base: Record, s: State, step: Step)
    requires Good(initial, s) && Enabled(s, step) && Keeps(base, s)
    requires step.Start? ==> ProgressKnown(s)
    ensures Keeps(base, Apply(s, step))
  {
    match step
    case Start(freshId, forced) =>
      if !s.memory.closePending { ToUploadKeepsProgress(base, s.(working := s.memory, freshId := freshId)); }
    case Progress(parts) =>
    case Resume(outcome) => ResumeKeepsProgress(initial, base, s, outcome);
  }

  predicate InformedRun(s: State, steps: seq<Step>)
    requires ValidRun(s, steps)
    decreases |steps|
  {
    steps == [] || ((steps[0].Start? ==> ProgressKnown(s)) && InformedRun(Apply(s, steps[0]), steps[1..]))
  }

  lemma {:induction false} RunKeepsProgress(initial: Record, base: Record, s: State, steps: seq<Step>)
    requires Good(initial, s) && Keeps(base, s) && ValidRun(s, steps) && (InformedRun(s, steps) || OneSync(steps))
    ensures Keeps(base, Run(s, steps))
    decreases |steps|
  {
    if steps != [] {
      StepKeepsGood(initial, s, steps[0]);
      StepKeepsProgress(initial, base, s, steps[0]);
      RunKeepsProgress(initial, base, Apply(s, steps[0]), steps[1..]);
    }
  }

  /** From any moment between two syncs: id, finished close and recorded upload stay in the index over informed runs. */
  lemma ProgressSurvives(r: Record, before: seq<Step>, after: seq<Step>)
    requires ValidRun(Initial(r), before) && ValidRun(Run(Initial(r), before), after)
    requires Run(Initial(r), before).phase.Idle? && InformedRun(Run(Initial(r), before), after)
    ensures Follows(Run(Initial(r), before).durable, Run(Run(Initial(r), before), after).durable)
  {
    InitialIsGood(r);
    RunKeepsGood(r, Initial(r), before);
    var s := Run(Initial(r), before);
    RunKeepsProgress(r, s.durable, s, after);
  }

  /** The outcomes that lead a sync with an uninformed list to overwrite progress. */
  function ToLoss(s: State): seq<Step> {
    if s.memory.closePending then [Resume(Failed(false, false)), Resume(Done)] else [Resume(Done)]
  }

  lemma ProgressLost(initial: Record, s: State, freshId: nat)
    requires Good(initial, s) && s.phase.Idle? && !ProgressKnown(s) && s.durable.uploadId != Some(freshId)
    ensures var t, steps := Started(s, freshId), ToLoss(s);
            OneSync(steps) && ValidRun(t, steps) && !Follows(s.durable, Run(t, steps).durable)
  {
    var t, steps := Started(s, freshId), ToLoss(s);
    var u := Apply(t, steps[0]);
    if s.memory.closePending {
      assert steps[1..] == [Resume(Done)] && steps[1..][1..] == [];
      var v := Apply(u, Resume(Done));
      assert Run(u, steps[1..]) == Run(v, []) == v;
    } else {
      assert steps[1..] == [];
      assert Run(t, steps) == Run(u, []) == u;
    }
  }

  /**
   A sync can lose progress from the index, an id or a finished close, if and only if it starts while the list does
   not know of it. Fresh ids are taken to be new.
   */
  lemma ProgressLostIff(initial: Record, s: State, freshId: nat)
    requires Good(initial, s) && s.phase.Idle? && s.durable.uploadId != Some(freshId)
    ensures (exists steps :: OneSync(steps) && ValidRun(Started(s, freshId), steps)
                             && !Follows(s.durable, Run(Started(s, freshId), steps).durable))
            <==> !ProgressKnown(s)
  {
    var t := Started(s, freshId);
    if ProgressKnown(s) {
      StartKeepsGood(initial, s, freshId);
      StepKeepsProgress(initial, s.durable, s, Start(freshId, true));
      forall steps | OneSync(steps) && ValidRun(t, steps) ensures Follows(s.durable, Run(t, steps).durable) {
        RunKeepsProgress(initial, s.durable, t, steps);
      }
    } else {
      ProgressLost(initial, s, freshId);
    }
  }

  // ----- The sync in which everything succeeds -----

  lemma RunCons(s: State, e: Step, rest: seq<Step>)
    requires Enabled(s, e) && ValidRun(Apply(s, e), rest)
    ensures ValidRun(s, [e] + rest) && Run(s, [e] + rest) == Run(Apply(s, e), rest)
  {
    assert ([e] + rest)[1..] == rest;
  }

  function Dones(n: nat): seq<Step> { if n == 0 then [] else [Resume(Done)] + Dones(n - 1) }

  lemma {:induction false} DonesJoin(s: State, m: nat, n: nat)
    requires ValidRun(s, Dones(m)) && ValidRun(Run(s, Dones(m)), Dones(n))
    ensures ValidRun(s, Dones(m + n)) && Run(s, Dones(m + n)) == Run(Run(s, Dones(m)), Dones(n))
    decreases m
  {
    if m > 0 {
      var t := Apply(s, Resume(Done));
      assert Dones(m)[1..] == Dones(m - 1);
      DonesJoin(t, m - 1, n);
      RunCons(s, Resume(Done), Dones(m - 1 + n));
    }
  }

  lemma DoneOnce(s: State)
    requires Enabled(s, Resume(Done))
    ensures ValidRun(s, Dones(1)) && Run(s, Dones(1)) == Apply(s, Resume(Done))
  {
    RunCons(s, Resume(Done), []);
    assert [Resume(Done)] + [] == Dones(1);
  }

  /** A sync at the end of a block, its copy, the list and the index agreeing. */
  function At(r: Record, freshId: nat, err: Record, log: seq<Event>): State {
    State(r, r, r, ClearingJournal, freshId, err, log)
  }

  lemma CloseStage(r: Record, freshId: nat, err: Record, log: seq<Event>)
    requires r.closePending
    ensures var s := At(r, freshId, err, log).(phase := Closing);
            ValidRun(s, Dones(3))
            && Run(s, Dones(3)) == ToUpload(At(r.(closePending := false), freshId, err, log + [CloseDone]))
  {
    var s := At(r, freshId, err, log).(phase := Closing);
    var t := Apply(s, Resume(Done));
    var u := Apply(t, Resume(Done));
    assert u == At(r.(closePending := false), freshId, err, log + [CloseDone]);
    DoneOnce(s);
    DoneOnce(t);
    DoneOnce(u);
    DonesJoin(t, 1, 1);
    DonesJoin(s, 1, 2);
  }

  /** The record that is uploaded. */
  function Ided(r: Record, freshId: nat): Record { if Unstamped(r) then Stamped(r, freshId) else r }

  lemma IdStage(r: Record, freshId: nat, err: Record, log: seq<Event>)
    requires !r.audioUploaded
    ensures var s, k := ToUpload(At(r, freshId, err, log)), if Unstamped(r) then 1 else 0;
            ValidRun(s, Dones(k)) && Run(s, Dones(k)) == CallUpload(At(Ided(r, freshId), freshId, err, log))
  {
    var s := ToUpload(At(r, freshId, err, log));
    if Unstamped(r) {
      DoneOnce(s);
      assert log + [] == log;
    }
  }

  lemma UploadStage(r: Record, freshId: nat, err: Record, log: seq<Event>)
    requires !r.audioUploaded && r.uploadId.Some?
    ensures var s, uploaded := CallUpload(At(r, freshId, err, log)), r.(audioUploaded := true, attempts := 0);
            ValidRun(s, Dones(2))
            && Run(s, Dones(2))
               == CallFinalize(At(uploaded, freshId, err, log + [UploadCalled(r.uploadId.value), UploadDone, UploadRecorded]))
  {
    var s := CallUpload(At(r, freshId, err, log));
    var t := Apply(s, Resume(Done));
    DoneOnce(s);
    DoneOnce(t);
    DonesJoin(s, 1, 1);
    assert (log + [UploadCalled(r.uploadId.value)] + [UploadDone]) + ([UploadRecorded] + [])
           == log + [UploadCalled(r.uploadId.value), UploadDone, UploadRecorded];
  }

  lemma FinalizeStage(r: Record, freshId: nat, err: Record, log: seq<Event>)
    ensures var s, final := CallFinalize(At(r, freshId, err, log)), r.(finalized := true, attempts := 0);
            var calls := [FinalizeCalled, FinalizeDone] + if r.finalized then [] else [FinalRecorded];
            ValidRun(s, Dones(2)) && Run(s, Dones(2)) == At(final, freshId, err, log + calls).(phase := Idle)
  {
    var s := CallFinalize(At(r, freshId, err, log));
    var t := Apply(s, Resume(Done));
    DoneOnce(s);
    DoneOnce(t);
    DonesJoin(s, 1, 1);
    var last: seq<Event> := if r.finalized then [] else [FinalRecorded];
    assert (log + [FinalizeCalled] + [FinalizeDone]) + ([] + last) == log + ([FinalizeCalled, FinalizeDone] + last);
  }

  /** The record that a sync with no failure leaves. */
  function Completed(r: Record, freshId: nat): Record {
    (if r.audioUploaded then r else Ided(r, freshId)).(closePending := false, audioUploaded := true, finalized := true, attempts := 0)
  }

  /** The calls that a sync owes, with what is put on record. */
  function Owed(r: Record, freshId: nat): seq<Event> {
    (if r.closePending then [CloseCalled, CloseDone] else [])
    + (if r.audioUploaded then [] else [UploadCalled(Ided(r, freshId).uploadId.value), UploadDone, UploadRecorded])
    + ([FinalizeCalled, FinalizeDone] + if r.finalized then [] else [FinalRecorded])
  }

  /** How many awaits it has. */
  function AwaitsOf(r: Record): nat {
    (if r.closePending then 3 else 0) + (if r.audioUploaded then 0 else if Unstamped(r) then 3 else 2) + 2
  }

  lemma AfterClose(r: Record, freshId: nat, err: Record, log: seq<Event>)
    requires !r.closePending
    ensures var s := ToUpload(At(r, freshId, err, log));
            ValidRun(s, Dones(AwaitsOf(r)))
            && Run(s, Dones(AwaitsOf(r))) == At(Completed(r, freshId), freshId, err, log + Owed(r, freshId)).(phase := Idle)
  {
    var s := ToUpload(At(r, freshId, err, log));
    var finish := [FinalizeCalled, FinalizeDone] + if r.finalized then [] else [FinalRecorded];
    if r.audioUploaded {
      FinalizeStage(r, freshId, err, log);
      assert Owed(r, freshId) == finish;
    } else {
      var ided, k := Ided(r, freshId), if Unstamped(r) then 1 else 0;
      var upload := [UploadCalled(ided.uploadId.value), UploadDone, UploadRecorded];
      IdStage(r, freshId, err, log);
      UploadStage(ided, freshId, err, log);
      FinalizeStage(ided.(audioUploaded := true, attempts := 0), freshId, err, log + upload);
      DonesJoin(s, k, 2);
      DonesJoin(s, k + 2, 2);
      assert log + upload + finish == log + Owed(r, freshId);
    }
  }

  /**
   A sync in which every await succeeds makes exactly the calls the recording still owes, in order, and ends with the
   recording closed, uploaded and finalized in the index and in the list, no attempts counted.
   */
  lemma SyncCompletes(s: State, freshId: nat)
    requires s.phase.Idle? && s.memory == s.durable
    ensures var r, t := s.durable, Started(s, freshId); var n := AwaitsOf(r);
            && ValidRun(t, Dones(n))
            && var u := Run(t, Dones(n));
               && u.phase.Idle? && u.durable == u.memory == Completed(r, freshId) && u.log == s.log + Owed(r, freshId)
               && u.durable.audioUploaded && u.durable.finalized && !u.durable.closePending && u.durable.attempts == 0
               && u.durable.createdAt == r.createdAt
               && if r.audioUploaded then u.durable.uploadId == r.uploadId && u.durable.recordedAt == r.recordedAt
                  else u.durable.uploadId == Some(if r.uploadId.Some? then r.uploadId.value else freshId)
                       && u.durable.recordedAt == Some(if r.recordedAt.Some? then r.recordedAt.value else r.createdAt)
                       && UploadCalled(u.durable.uploadId.value) in u.log
  {
    var r, err := s.durable, s.errorRecord;
    if r.closePending {
      ClosesThenCompletes(r, freshId, err, s.log);
      assert Started(s, freshId) == At(r, freshId, err, s.log + [CloseCalled]).(phase := Closing);
    } else {
      assert Started(s, freshId) == ToUpload(At(r, freshId, err, s.log));
      AfterClose(r, freshId, err, s.log);
    }
    if !r.audioUploaded { UploadIsOwed(r, freshId); }
  }

  lemma UploadIsOwed(r: Record, freshId: nat)
    requires !r.audioUploaded
    ensures Ided(r, freshId).uploadId.Some? && UploadCalled(Ided(r, freshId).uploadId.value) in Owed(r, freshId)
  {
    var k := if r.closePending then 2 else 0;
    assert Owed(r, freshId)[k] == UploadCalled(Ided(r, freshId).uploadId.value);
  }

  lemma ClosesThenCompletes(r: Record, freshId: nat, err: Record, log: seq<Event>)
    requires r.closePending
    ensures var s := At(r, freshId, err, log + [CloseCalled]).(phase := Closing);
            ValidRun(s, Dones(AwaitsOf(r)))
            && Run(s, Dones(AwaitsOf(r))) == At(Completed(r, freshId), freshId, err, log + Owed(r, freshId)).(phase := Idle)
  {
    var s := At(r, freshId, err, log + [CloseCalled]).(phase := Closing);
    var closed := r.(closePending := false);
    CloseStage(r, freshId, err, log + [CloseCalled]);
    AfterClose(closed, freshId, err, log + [CloseCalled] + [CloseDone]);
    DonesJoin(s, 3, AwaitsOf(closed));
    CloseIsOwed(r, freshId, log);
  }

  lemma CloseIsOwed(r: Record, freshId: nat, log: seq<Event>)
    requires r.closePending
    ensures var closed := r.(closePending := false);
            && log + [CloseCalled] + [CloseDone] + Owed(closed, freshId) == log + Owed(r, freshId)
            && Completed(closed, freshId) == Completed(r, freshId) && AwaitsOf(r) == 3 + AwaitsOf(closed)
  {
    var closed := r.(closePending := false);
    assert Owed(r, freshId) == [CloseCalled, CloseDone] + Owed(closed, freshId);
    assert log + [CloseCalled] + [CloseDone] == log + [CloseCalled, CloseDone];
  }

  // ----- A finalization on record is final -----

  /** A finalize call that succeeds and whose record is written leaves the index and the list finalized. */
  lemma FinalizeIsRecorded(s: State)
    requires s.phase.Finalizing?
    ensures var t := Run(s, Dones(2));
            && ValidRun(s, Dones(2)) && t.phase.Idle? && t.durable.finalized && t.memory.finalized && t.durable.attempts == 0
  {
    DoneOnce(s);
    DoneOnce(Apply(s, Resume(Done)));
    DonesJoin(s, 1, 1);
  }

  /** A step never takes a finalization, or a recorded upload, off the index. */
  lemma {:induction false} FinalStays(s: State, steps: seq<Step>)
    requires ValidRun(s, steps)
    ensures (s.durable.finalized ==> Run(s, steps).durable.finalized)
    ensures (s.durable.audioUploaded ==> Run(s, steps).durable.audioUploaded)
    decreases |steps|
  {
    if steps != [] { FinalStays(Apply(s, steps[0]), steps[1..]); }
  }

  /** A sync that the list does not hold back works on a record that is not final, until it writes that it is. */
  predicate Unfinished(s: State) {
    !s.phase.Idle? && !s.phase.SavingError? && !s.phase.SavingFinal? ==> !s.durable.finalized && !s.working.finalized
  }

  /** No server is called once the finalization is on record. */
  predicate NoCallAfterFinal(initial: Record, log: seq<Event>) {
    forall k :: 0 <= k < |log| && (log[k].CloseCalled? || log[k].UploadCalled? || log[k].FinalizeCalled?)
      ==> !Finalized(initial, log[..k])
  }

  lemma CallOne(initial: Record, log: seq<Event>, e: Event)
    requires NoCallAfterFinal(initial, log)
    requires e.CloseCalled? || e.UploadCalled? || e.FinalizeCalled? ==> !Finalized(initial, log)
    ensures NoCallAfterFinal(initial, log + [e])
  {
    var longer := log + [e];
    assert longer[..|log|] == log && forall k :: 0 <= k < |log| ==> longer[..k] == log[..k];
  }

  lemma NewsCallNothing(initial: Record, log: seq<Event>, before: Record, after: Record)
    requires NoCallAfterFinal(initial, log)
    ensures NoCallAfterFinal(initial, log + News(before, after))
  {
    var first := if after.audioUploaded && !before.audioUploaded then log + [UploadRecorded] else log;
    CallOne(initial, log, UploadRecorded);
    CallOne(initial, first, FinalRecorded);
    assert log + News(before, after) == if after.finalized && !before.finalized then first + [FinalRecorded] else first;
  }

  lemma ToUploadStaysUnfinished(initial: Record, s: State)
    requires NoCallAfterFinal(initial, s.log) && (s.durable.finalized <==> Finalized(initial, s.log))
    requires !s.durable.finalized && !s.working.finalized
    ensures Unfinished(ToUpload(s)) && NoCallAfterFinal(initial, ToUpload(s).log)
  {
    if s.working.audioUploaded {
      CallOne(initial, s.log, FinalizeCalled);
    } else if !Unstamped(s.working) {
      CallOne(initial, s.log, UploadCalled(s.working.uploadId.value));
    }
  }

  lemma SuccessStaysUnfinished(initial: Record, s: State)
    requires NoCallAfterFinal(initial, s.log) && (s.durable.finalized <==> Finalized(initial, s.log)) && Unfinished(s)
    requires s.phase.SavingId? ==> s.working.uploadId.Some?
    ensures Unfinished(Succeeded(s)) && NoCallAfterFinal(initial, Succeeded(s).log)
  {
    match s.phase
    case Closing => CallOne(initial, s.log, CloseDone);
    case ClearingJournal => ToUploadStaysUnfinished(initial, s);
    case SavingId => CallOne(initial, s.log, UploadCalled(s.working.uploadId.value));
    case Uploading => CallOne(initial, s.log, UploadDone);
    case SavingUploaded => CallOne(initial, s.log, FinalizeCalled);
    case Finalizing => CallOne(initial, s.log, FinalizeDone);
    case _ =>
  }

  lemma ResumeStaysUnfinished(initial: Record, s: State, outcome: Outcome)
    requires Good(initial, s) && Enabled(s, Resume(outcome)) && Unfinished(s) && NoCallAfterFinal(initial, s.log)
    ensures Unfinished(Resumed(s, outcome)) && NoCallAfterFinal(initial, Resumed(s, outcome).log)
  {
    var wrote := IsWrite(s.phase) && (outcome.Done? || outcome.written);
    var t := if wrote then Saved(s, Written(s)) else s;
    if wrote {
      NewsCallNothing(initial, s.log, s.durable, t.durable);
      SaveKeepsGood(initial, s);
    }
    assert Unfinished(t);
    if outcome.Done? { SuccessStaysUnfinished(initial, if wrote then t.(memory := t.durable) else t); }
  }

  /** The list says of the finalization what the index says. */
  predicate FinalKnown(s: State) { s.memory.finalized == s.durable.finalized }

  /** Each sync starts unforced while the list knows whether the recording is finalized. */
  predicate PlainRun(s: State, steps: seq<Step>)
    requires ValidRun(s, steps)
    decreases |steps|
  {
    steps == [] || ((steps[0].Start? ==> !steps[0].forced && FinalKnown(s)) && PlainRun(Apply(s, steps[0]), steps[1..]))
  }

  lemma StepStaysUnfinished(initial: Record, s: State, step: Step)
    requires Good(initial, s) && Enabled(s, step) && Unfinished(s) && NoCallAfterFinal(initial, s.log)
    requires step.Start? ==> !step.forced && FinalKnown(s)
    ensures Unfinished(Apply(s, step)) && NoCallAfterFinal(initial, Apply(s, step).log)
  {
    match step
    case Start(freshId, forced) =>
      var t := s.(working := s.memory, freshId := freshId);
      if t.working.closePending { CallOne(initial, t.log, CloseCalled); } else { ToUploadStaysUnfinished(initial, t); }
    case Progress(parts) =>
    case Resume(outcome) => ResumeStaysUnfinished(initial, s, outcome);
  }

  lemma {:induction false} RunStaysUnfinished(initial: Record, s: State, steps: seq<Step>)
    requires Good(initial, s) && ValidRun(s, steps) && Unfinished(s) && NoCallAfterFinal(initial, s.log) && PlainRun(s, steps)
    ensures NoCallAfterFinal(initial, Run(s, steps).log)
    decreases |steps|
  {
    if steps != [] {
      StepKeepsGood(initial, s, steps[0]);
      StepStaysUnfinished(initial, s, steps[0]);
      RunStaysUnfinished(initial, Apply(s, steps[0]), steps[1..]);
    }
  }

  /** Over runs with a knowing list, unless a retry is forced, no server call follows the record of the finalization. */
  lemma FinalizedIsLeftAlone(r: Record, steps: seq<Step>)
    requires ValidRun(Initial(r), steps) && PlainRun(Initial(r), steps)
    ensures NoCallAfterFinal(r, Run(Initial(r), steps).log)
  {
    InitialIsGood(r);
    RunStaysUnfinished(r, Initial(r), steps);
  }

  // ----- A failure is counted and loses nothing -----

  /**
   An await that fails, and whose error is then written: the index and the list carry one attempt more, none for a
   refused session, and the copy's progress; the sync has ended.
   */
  lemma FailureIsCounted(s: State, written: bool, rejected: bool)
    requires !s.phase.Idle? && !s.phase.SavingError? && (s.phase.SavingId? ==> s.working.uploadId.Some?)
    ensures var t := Apply(Apply(s, Resume(Failed(written, rejected))), Resume(Done));
            && t.phase.Idle? && t.memory == t.durable
            && t.durable.attempts == s.working.attempts + (if rejected then 0 else 1)
            && t.durable.uploadId == (if s.working.uploadId.Some? then s.working.uploadId else s.durable.uploadId)
            && t.durable.closePending == s.working.closePending && t.durable.uploadedParts == s.working.uploadedParts
            && t.durable.recordedAt == (if s.working.recordedAt.Some? then s.working.recordedAt else s.durable.recordedAt)
            && (t.durable.audioUploaded <==> s.working.audioUploaded || s.durable.audioUploaded)
            && (t.durable.finalized <==> s.working.finalized || s.durable.finalized)
  {
  }

  /** The parts that the server has are on record before the upload goes on. */
  lemma ProgressIsSaved(s: State, parts: nat)
    requires s.phase.Uploading?
    ensures var t := Apply(Apply(s, Progress(parts)), Resume(Done));
            && t.phase.Uploading? && t.durable.uploadedParts == parts && t.memory == t.durable
            && (s.working.uploadId.Some? ==> t.durable.uploadId == s.working.uploadId)
  {
  }

  // ----- Where the code falls short: a write that fails after taking effect, twice -----

  /** A first write that takes effect but throws, and a second that throws without effect. */
  function Unheard(): seq<Step> { [Resume(Failed(true, false)), Resume(Failed(false, false))] }

  lemma UnheardRuns(s: State, rest: seq<Step>)
    requires IsWrite(s.phase) && !s.phase.SavingError? && (s.phase.SavingId? ==> s.working.uploadId.Some?)
    requires ValidRun(Missed(s), rest)
    ensures ValidRun(s, Unheard() + rest) && Run(s, Unheard() + rest) == Run(Missed(s), rest)
  {
    var first, second := Resume(Failed(true, false)), Resume(Failed(false, false));
    var t := Apply(s, first);
    assert Apply(t, second) == Missed(s);
    RunCons(t, second, rest);
    RunCons(s, first, [second] + rest);
    assert Unheard() + rest == [first] + ([second] + rest);
  }

  /** The index has the write, the list has not. */
  function Missed(s: State): State {
    Caught(Saved(s, Written(s)), false).(phase := Idle)
  }

  /** A record ready for upload. */
  predicate Ready(r: Record) { !r.closePending && !r.audioUploaded && !Unstamped(r) }

  function RepeatedUpload(r: Record, id: nat): seq<Step> {
    [Start(id, r.finalized)] + ([Resume(Done)] + (Unheard() + [Start(id, r.finalized)]))
  }

  /**
   The upload succeeds, the write of its record takes effect but throws, and so does the write of the error: the next
   sync uploads again.
   */
  lemma UploadIsRepeated(r: Record, id: nat)
    requires Ready(r)
    ensures ValidRun(Initial(r), RepeatedUpload(r, id))
    ensures var s, call := Run(Initial(r), RepeatedUpload(r, id)), UploadCalled(r.uploadId.value);
            s.log == [call, UploadDone, UploadRecorded, call] && s.durable.audioUploaded && s.phase.Uploading?
  {
    var start := Start(id, r.finalized);
    var s1 := Apply(Initial(r), start);
    var s2 := Apply(s1, Resume(Done));
    var s3 := Missed(s2);
    assert [start] + [] == [start];
    RunCons(s3, start, []);
    UnheardRuns(s2, [start]);
    RunCons(s1, Resume(Done), Unheard() + [start]);
    RunCons(Initial(r), start, [Resume(Done)] + (Unheard() + [start]));
  }

  function ReplacedId(r: Record, first: nat, second: nat): seq<Step> {
    [Start(first, r.finalized)] + (Unheard() + ([Start(second, r.finalized)] + [Resume(Done)]))
  }

  /** The same with the write of a first upload id: the next sync puts another id in its place. */
  lemma IdIsReplaced(r: Record, first: nat, second: nat)
    requires !r.closePending && !r.audioUploaded && r.uploadId.None?
    ensures ValidRun(Initial(r), [Start(first, r.finalized)] + Unheard())
    ensures ValidRun(Initial(r), ReplacedId(r, first, second))
    ensures Run(Initial(r), [Start(first, r.finalized)] + Unheard()).durable.uploadId == Some(first)
    ensures Run(Initial(r), ReplacedId(r, first, second)).durable.uploadId == Some(second)
  {
    var start, again := Start(first, r.finalized), Start(second, r.finalized);
    var s1 := Apply(Initial(r), start);
    var s2 := Missed(s1);
    UnheardRuns(s1, []);
    assert Unheard() + [] == Unheard();
    RunCons(Initial(r), start, Unheard());
    var s3 := Apply(s2, again);
    assert [Resume(Done)] + [] == [Resume(Done)];
    RunCons(s3, Resume(Done), []);
    RunCons(s2, again, [Resume(Done)]);
    UnheardRuns(s1, [again] + [Resume(Done)]);
    RunCons(Initial(r), start, Unheard() + ([again] + [Resume(Done)]));
  }

  class SyncJob {
    var durable: Record
    var memory: Record
    var working: Record
    var phase: Phase
    var freshId: nat
    var errorRecord: Record
    var log: seq<Event>

    ghost function View(): State reads this { State(durable, memory, working, phase, freshId, errorRecord, log) }

    constructor (r: Record)
      ensures View() == Initial(r)
    {
      durable, memory, working := r, r, r;
      phase, freshId, errorRecord, log := Idle, 0, r, [];
    }

    /** The index write of `upsertPendingRecording` when it takes effect. */
    method Persist(r: Record)
      modifies this`durable, this`log
      ensures View() == Saved(old(View()), r)
    {
      var next := r;
      if next.uploadId.None? { next := next.(uploadId := durable.uploadId); }
      if next.recordedAt.None? { next := next.(recordedAt := durable.recordedAt); }
      if durable.audioUploaded { next := next.(audioUploaded := true); }
      if durable.finalized { next := next.(finalized := true); }
      if next.audioUploaded && !durable.audioUploaded { log := log + [UploadRecorded]; }
      if next.finalized && !durable.finalized { log := log + [FinalRecorded]; }
      durable := next;
    }

    /** The upload block up to its first await, or the finalize call if the upload is on record. */
    method EnterUpload()
      modifies this`working, this`phase, this`log
      ensures View() == ToUpload(old(View()))
    {
      if !working.audioUploaded {
        var uploadId := if working.uploadId.Some? then working.uploadId.value else freshId;
        var recordedAt := if working.recordedAt.Some? then working.recordedAt.value else working.createdAt;
        if working.uploadId.None? || working.recordedAt.None? || working.recordedAt.value == 0 {
          working := working.(recordedAt := Some(recordedAt), uploadId := Some(uploadId), uploadedParts := 0);
          phase := SavingId;
          return;
        }
        log := log + [UploadCalled(uploadId)];
        phase := Uploading;
        return;
      }
      log := log + [FinalizeCalled];
      phase := Finalizing;
    }

    method Begin(newId: nat)
      modifies this`working, this`phase, this`log, this`freshId
      ensures View() == Started(old(View()), newId)
    {
      working := memory;
      freshId := newId;
      if working.closePending {
        log := log + [CloseCalled];
        phase := Closing;
        return;
      }
      EnterUpload();
    }

    method OnProgress(parts: nat)
      requires phase.Uploading?
      modifies this`working, this`phase
      ensures View() == Apply(old(View()), Progress(parts))
    {
      working := working.(uploadedParts := parts);
      phase := SavingProgress;
    }

    method AfterSuccess()
      requires phase.SavingId? ==> working.uploadId.Some?
      modifies this`working, this`phase, this`log
      ensures View() == Succeeded(old(View()))
    {
      match phase
      case Idle =>
      case Closing =>
        working := working.(closePending := false);
        log := log + [CloseDone];
        phase := SavingClose;
      case SavingClose => phase := ClearingJournal;
      case ClearingJournal => EnterUpload();
      case SavingId =>
        log := log + [UploadCalled(working.uploadId.value)];
        phase := Uploading;
      case Uploading =>
        working := working.(audioUploaded := true, attempts := 0);
        log := log + [UploadDone];
        phase := SavingUploaded;
      case SavingProgress => phase := Uploading;
      case SavingUploaded =>
        log := log + [FinalizeCalled];
        phase := Finalizing;
      case Finalizing =>
        working := working.(finalized := true, attempts := 0);
        log := log + [FinalizeDone];
        phase := SavingFinal;
      case SavingFinal => phase := Idle;
      case SavingError => phase := Idle;
    }

    method AfterAwait(outcome: Outcome)
      requires phase.SavingId? ==> working.uploadId.Some?
      modifies this
      ensures View() == Resumed(old(View()), outcome)
    {
      if IsWrite(phase) && (outcome.Done? || outcome.written) {
        Persist(if phase.SavingError? then errorRecord else working);
        if outcome.Done? { memory := durable; }
      }
      match outcome
      case Done => AfterSuccess();
      case Failed(_, rejected) =>
        if phase.SavingError? || phase.Idle? {
          phase := Idle;
        } else {
          errorRecord := working.(attempts := if rejected then working.attempts else working.attempts + 1);
          phase := SavingError;
        }
      case Crashed(_) =>
        memory := durable;
        phase := Idle;
    }
  }
}
