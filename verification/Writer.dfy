// The debounced persistence writer as a protocol of interleaved steps: critical sections that may change
// what is to be saved, the writer goroutine with its debounce timer, and callers of stopPersistence.
module Writer {
  import opened Routes
  import opened Persistence

  // ---- State ----

  /** The part of the store that is saved. */
  datatype Content = Content(sessions: map<Digest, Session>, sequence: nat)

  /** Where the writer goroutine is. `final` says that it saw the stop channel closed. */
  datatype Program =
    | Waiting
    | Debouncing
    | Snapshotting(final: bool)
    | Writing(body: Body, final: bool)
    | Recording(body: Body, ok: bool, final: bool)
    | Closing
    | Done

  /** Where a caller of stopPersistence is. Claimed: it set the stopped flag, and alone will close the stop
      channel. Left: it found the flag set and returned at once. */
  datatype Stopper = Outside | Claimed | Joining | Returned | Left {
    predicate Owns() {
      Claimed? || Joining? || Returned?
    }
  }

  /** The whole system. `history` lists what was to be saved after each critical section, oldest first; its
      last entry is the present. `snap` is the entry last copied, `fileAt` the entry the file holds, and
      `stoppedAt` the entry that was present when the stopped flag was set. */
  datatype System = System(
    history: seq<Content>,
    stopped: bool, wake: bool, stopClosed: nat, doneClosed: nat,
    writer: Program, stoppers: map<nat, Stopper>,
    snap: nat, fileAt: Option<nat>, file: Option<Body>, lastOk: bool, stoppedAt: nat)

  predicate Initial(s: System) {
    && |s.history| == 1
    && !s.stopped && !s.wake && s.stopClosed == 0 && s.doneClosed == 0
    && s.writer == Waiting && s.stoppers == map[]
    && s.snap == 0 && s.fileAt == None && !s.lastOk && s.stoppedAt == 0
  }

  /** The newest entry of the history. */
  function Last(s: System): nat {
    if |s.history| > 0 then |s.history| - 1 else 0
  }

  function Present(s: System): Content
    requires s.history != []
  {
    s.history[Last(s)]
  }

  function StopperOf(stoppers: map<nat, Stopper>, who: nat): Stopper {
    if who in stoppers then stoppers[who] else Outside
  }

  // ---- Steps ----

  /** Section is a critical section of the store that leaves `after` to be saved and, if `marks`, ends by
      marking the store dirty. */
  datatype Step =
    | Section(after: Content, marks: bool)
    | TakeWake | SeeStop
    | TimerFires | DebounceAgain | StopInDebounce
    | CopyState(now: Time) | WriteFile(ok: bool) | RecordResult | CloseDone
    | CallStop(who: nat) | CloseStop(who: nat) | JoinStop(who: nat)

  predicate Can(s: System, step: Step)
    requires s.history != []
  {
    match step
    case Section(after, marks) => marks || after == Present(s)
    case TakeWake => s.writer == Waiting && s.wake
    case SeeStop => s.writer == Waiting && s.stopClosed > 0
    case TimerFires => s.writer == Debouncing
    case DebounceAgain => s.writer == Debouncing && s.wake
    case StopInDebounce => s.writer == Debouncing && s.stopClosed > 0
    case CopyState(_) => s.writer.Snapshotting?
    case WriteFile(_) => s.writer.Writing?
    case RecordResult => s.writer.Recording?
    case CloseDone => s.writer == Closing
    case CallStop(who) => StopperOf(s.stoppers, who) == Outside
    case CloseStop(who) => StopperOf(s.stoppers, who) == Claimed
    case JoinStop(who) => StopperOf(s.stoppers, who) == Joining && s.doneClosed > 0
  }

  function BodyOf(c: Content, now: Time): Body {
    Body(VERSION, now, c.sequence, c.sessions)
  }

  function Take(s: System, step: Step): (t: System)
    requires s.history != [] && Can(s, step)
    ensures t.history != []
  {
    match step
    case Section(after, marks) => s.(history := s.history + [after], wake := s.wake || (marks && !s.stopped))
    case TakeWake => s.(wake := false, writer := Debouncing)
    case SeeStop => s.(writer := Snapshotting(true))
    case TimerFires => s.(writer := Snapshotting(false))
    case DebounceAgain => s.(wake := false)
    case StopInDebounce => s.(writer := Snapshotting(true))
    case CopyState(now) => s.(snap := Last(s), writer := Writing(BodyOf(Present(s), now), s.writer.final))
    case WriteFile(ok) =>
      var t := s.(writer := Recording(s.writer.body, ok, s.writer.final));
      if ok then t.(file := Some(s.writer.body), fileAt := Some(s.snap)) else t
    case RecordResult => s.(lastOk := s.writer.ok, writer := if s.writer.final then Closing else Waiting)
    case CloseDone => s.(doneClosed := s.doneClosed + 1, writer := Done)
    case CallStop(who) =>
      if s.stopped then s.(stoppers := s.stoppers[who := Left])
      else s.(stopped := true, stoppedAt := Last(s), stoppers := s.stoppers[who := Claimed])
    case CloseStop(who) => s.(stopClosed := s.stopClosed + 1, stoppers := s.stoppers[who := Joining])
    case JoinStop(who) => s.(stoppers := s.stoppers[who := Returned])
  }

  /** A run: the steps happen one after another, each when it can. */
  ghost predicate Reaches(s: System, steps: seq<Step>, t: System)
    requires s.history != []
    decreases |steps|
  {
    if steps == [] then t == s
    else Can(s, steps[0]) && Reaches(Take(s, steps[0]), steps[1..], t)
  }

  // ---- Invariants ----

  /** The writer is bound to copy the state again before it rests. */
  predicate MustCopy(p: Program) {
    p.Debouncing? || p.Snapshotting?
  }

  predicate IsFinal(p: Program) {
    match p
    case Waiting => false
    case Debouncing => false
    case Snapshotting(final) => final
    case Writing(_, final) => final
    case Recording(_, _, final) => final
    case Closing => true
    case Done => true
  }

  /** Has the copy made after seeing stop been made? */
  predicate CopiedFinally(p: Program) {
    IsFinal(p) && !p.Snapshotting?
  }

  /** Entry n of the history is what the body holds. */
  predicate Holds(s: System, n: nat, body: Body) {
    n < |s.history| && Content(body.sessions, body.sequence) == s.history[n] && body.version == VERSION
  }

  /** One caller at most owns the shutdown; it closes stop, waits for done and returns, in this order. */
  ghost predicate StopOnce(stopped: bool, stopClosed: nat, doneClosed: nat, stoppers: map<nat, Stopper>) {
    && stopClosed <= 1
    && (!stopped ==> stopClosed == 0 && forall w :: !StopperOf(stoppers, w).Owns())
    && (forall v, w :: StopperOf(stoppers, v).Owns() && StopperOf(stoppers, w).Owns() ==> v == w)
    && (forall w :: StopperOf(stoppers, w) == Claimed ==> stopClosed == 0)
    && (forall w :: StopperOf(stoppers, w) == Joining ==> stopClosed == 1)
    && (forall w :: StopperOf(stoppers, w) == Returned ==> stopClosed == 1 && doneClosed == 1)
  }

  /** The writer is final only after stop was closed, and closes done once, at its end. */
  predicate DoneOnce(s: System) {
    && s.doneClosed == (if s.writer == Done then 1 else 0)
    && (IsFinal(s.writer) ==> s.stopClosed == 1 && s.stopped)
  }

  /** Until the stopped flag is set, whatever the last copy misses has a wake token queued or a writer that
      must still copy; and the final copy includes all that happened before the flag was set. */
  ghost predicate NothingLost(s: System) {
    && s.snap < |s.history|
    && (!s.stopped && !s.wake && !MustCopy(s.writer) ==>
          forall i :: s.snap <= i < |s.history| ==> s.history[i] == s.history[s.snap])
    && (s.stopped ==> s.stoppedAt < |s.history|)
    && (CopiedFinally(s.writer) ==> s.stoppedAt <= s.snap)
  }

  /** What is written is what was copied, and the file holds a state the store really had. */
  predicate FileIsTrue(s: System) {
    && (s.writer.Writing? ==> Holds(s, s.snap, s.writer.body))
    && (s.writer.Recording? && s.writer.ok ==> s.fileAt == Some(s.snap))
    && (s.fileAt.Some? ==> s.file.Some? && Holds(s, s.fileAt.value, s.file.value))
    && (!s.writer.Writing? && !s.writer.Recording? && s.lastOk ==> s.fileAt == Some(s.snap))
  }

  ghost predicate Safe(s: System) {
    && s.history != []
    && StopOnce(s.stopped, s.stopClosed, s.doneClosed, s.stoppers)
    && DoneOnce(s) && NothingLost(s) && FileIsTrue(s)
  }

  lemma SectionIsSafe(s: System, step: Step)
    requires Safe(s) && Can(s, step) && step.Section?
    ensures Safe(Take(s, step))
  {
  }

  lemma WriterKeepsDone(s: System, step: Step)
    requires s.history != [] && DoneOnce(s) && Can(s, step) && IsWriterStep(step)
    requires s.stopClosed <= 1 && (!s.stopped ==> s.stopClosed == 0)
    ensures var t := Take(s, step);
            && DoneOnce(t) && s.doneClosed <= t.doneClosed
            && t.stopped == s.stopped && t.stopClosed == s.stopClosed && t.stoppers == s.stoppers
  {
  }

  lemma DoneOnly(stopped: bool, stopClosed: nat, before: nat, after: nat, stoppers: map<nat, Stopper>)
    requires StopOnce(stopped, stopClosed, before, stoppers) && before <= after <= 1
    ensures StopOnce(stopped, stopClosed, after, stoppers)
  {
  }

  lemma WriterLosesNothing(s: System, step: Step)
    requires s.history != [] && DoneOnce(s) && NothingLost(s) && Can(s, step) && IsWriterStep(step)
    ensures NothingLost(Take(s, step))
  {
  }

  lemma WriterKeepsFileTrue(s: System, step: Step)
    requires s.history != [] && FileIsTrue(s) && Can(s, step) && IsWriterStep(step)
    ensures FileIsTrue(Take(s, step))
  {
  }

  lemma WriterIsSafe(s: System, step: Step)
    requires Safe(s) && Can(s, step) && IsWriterStep(step)
    ensures Safe(Take(s, step))
  {
    WriterKeepsDone(s, step);
    var t := Take(s, step);
    DoneOnly(s.stopped, s.stopClosed, s.doneClosed, t.doneClosed, s.stoppers);
    WriterLosesNothing(s, step);
    WriterKeepsFileTrue(s, step);
  }

  lemma StopperIsSafe(s: System, step: Step)
    requires Safe(s) && Can(s, step) && (step.CallStop? || step.CloseStop? || step.JoinStop?)
    ensures Safe(Take(s, step))
  {
    var t := Take(s, step);
    assert forall w :: StopperOf(t.stoppers, w)
                       == if w == step.who then t.stoppers[step.who] else StopperOf(s.stoppers, w);
  }

  lemma {:induction false} RunIsSafe(s: System, steps: seq<Step>, t: System)
    requires Safe(s) && Reaches(s, steps, t)
    ensures Safe(t)
    decreases |steps|
  {
    if steps == [] {
    } else {
      if steps[0].Section? {
        SectionIsSafe(s, steps[0]);
      } else if IsWriterStep(steps[0]) {
        WriterIsSafe(s, steps[0]);
      } else {
        StopperIsSafe(s, steps[0]);
      }
      RunIsSafe(Take(s, steps[0]), steps[1..], t);
    }
  }

  lemma InitialIsSafe(s: System)
    requires Initial(s)
    ensures Safe(s)
  {
  }

  // ---- What that means ----

  /** No lost update, in every interleaving: before shutdown, a change the last copy misses has a wake token
      queued or a writer that must still copy. */
  lemma NoLostUpdate(s: System, steps: seq<Step>, t: System)
    requires Initial(s) && Reaches(s, steps, t)
    ensures t.snap < |t.history|
    ensures !t.stopped && t.history[t.snap] != Present(t) ==> t.wake || MustCopy(t.writer)
  {
    InitialIsSafe(s);
    RunIsSafe(s, steps, t);
  }

  /** The writer rests: it waits, no wake token is queued, and no shutdown has begun. */
  predicate Resting(s: System) {
    !s.stopped && s.writer == Waiting && !s.wake
  }

  /** The file holds exactly what is to be saved now. */
  predicate FileIsCurrent(s: System)
    requires s.history != []
  {
    s.fileAt.Some? && s.file.Some? && Content(s.file.value.sessions, s.file.value.sequence) == Present(s)
  }

  /** At rest the file is stale exactly when the last write failed, or none was made, and the last good write,
      if any, was of something else than what the last copy holds. */
  lemma RestingFileIsCurrent(s: System, steps: seq<Step>, t: System)
    requires Initial(s) && Reaches(s, steps, t) && Resting(t)
    ensures t.history != [] && t.snap < |t.history| && (t.fileAt.Some? ==> t.fileAt.value < |t.history|)
    ensures !FileIsCurrent(t) <==> !t.lastOk && (t.fileAt.Some? ==> t.history[t.fileAt.value] != t.history[t.snap])
  {
    InitialIsSafe(s);
    RunIsSafe(s, steps, t);
  }

  /** Recording the outcome of a write puts the writer to rest with the file missing a change exactly when
      the write failed, no change came meanwhile, and the file does not hold the copied state already: the
      failed write is not repeated. */
  lemma FailedWriteIsNotRepeated(s: System, steps: seq<Step>, t: System)
    requires Initial(s) && Reaches(s, steps, t) && t.history != [] && t.writer.Recording? && !t.stopped
    ensures t.snap < |t.history| && (t.fileAt.Some? ==> t.fileAt.value < |t.history|)
    ensures var u := Take(t, RecordResult);
            Resting(u) && !FileIsCurrent(u)
            <==> !t.wake && !t.writer.final && !t.writer.ok
                 && (t.fileAt.Some? ==> t.history[t.fileAt.value] != t.history[t.snap])
  {
    InitialIsSafe(s);
    RunIsSafe(s, steps, t);
    WriterIsSafe(t, RecordResult);
  }

  // ---- A run in which the file stays stale ----

  /** One change, copied by the writer, whose write fails. */
  function FailingRun(after: Content, now: Time): seq<Step> {
    [Section(after, true), TakeWake, TimerFires, CopyState(now), WriteFile(false), RecordResult]
  }

  /** What that run makes of a system that has just started. */
  function Failed(s: System, after: Content): System {
    s.(history := s.history + [after], snap := |s.history|, lastOk := false)
  }

  lemma StepFirst(s: System, step: Step, rest: seq<Step>, t: System)
    requires s.history != [] && Can(s, step) && Reaches(Take(s, step), rest, t)
    ensures Reaches(s, [step] + rest, t)
  {
    assert ([step] + rest)[1..] == rest;
  }

  /** A failed write is a reachable way to rest with a stale file: whatever the first change is, if its write
      fails, the writer comes to rest with the change in the store and not in the file. */
  lemma StaleFileIsReachable(s: System, after: Content, now: Time)
    requires Initial(s)
    ensures Reaches(s, FailingRun(after, now), Failed(s, after))
    ensures Resting(Failed(s, after)) && !FileIsCurrent(Failed(s, after))
    ensures Present(Failed(s, after)) == after && Failed(s, after).file == s.file
  {
    var s1 := Take(s, Section(after, true));
    var s2 := Take(s1, TakeWake);
    var s3 := Take(s2, TimerFires);
    var s4 := Take(s3, CopyState(now));
    var s5 := Take(s4, WriteFile(false));
    assert Take(s5, RecordResult) == Failed(s, after);
    StepFirst(s5, RecordResult, [], Failed(s, after));
    StepFirst(s4, WriteFile(false), [RecordResult], Failed(s, after));
    StepFirst(s3, CopyState(now), [WriteFile(false), RecordResult], Failed(s, after));
    StepFirst(s2, TimerFires, [CopyState(now), WriteFile(false), RecordResult], Failed(s, after));
    StepFirst(s1, TakeWake, [TimerFires, CopyState(now), WriteFile(false), RecordResult], Failed(s, after));
    StepFirst(s, Section(after, true), [TakeWake, TimerFires, CopyState(now), WriteFile(false), RecordResult],
              Failed(s, after));
  }

  /** Neither channel is ever closed twice: before a closing step it is open. */
  lemma ChannelsCloseOnce(s: System, steps: seq<Step>, t: System, step: Step)
    requires Initial(s) && Reaches(s, steps, t) && t.history != [] && Can(t, step)
    ensures step.CloseStop? ==> t.stopClosed == 0
    ensures step.CloseDone? ==> t.doneClosed == 0
  {
    InitialIsSafe(s);
    RunIsSafe(s, steps, t);
  }

  /** When the call that closed the stop channel returns, done is closed and the writer gone; and if its last
      write succeeded, the file holds exactly a state that was to be saved when the stopped flag was set or
      later, so every change made before the flag. */
  lemma StopFlushes(s: System, steps: seq<Step>, t: System, who: nat)
    requires Initial(s) && Reaches(s, steps, t) && StopperOf(t.stoppers, who) == Returned
    ensures t.doneClosed == 1 && t.writer == Done
    ensures t.lastOk ==>
              && t.fileAt.Some? && t.file.Some?
              && t.stoppedAt <= t.fileAt.value && Holds(t, t.fileAt.value, t.file.value)
  {
    InitialIsSafe(s);
    RunIsSafe(s, steps, t);
  }

  // ---- Shutdown terminates ----

  predicate IsWriterStep(step: Step) {
    !step.Section? && !step.CallStop? && !step.CloseStop? && !step.JoinStop?
  }

  /** How many writer steps a shutdown may still need; a queued wake token may cost a round more. */
  function Remaining(s: System): nat {
    var token := if s.wake then 8 else 0;
    match s.writer
    case Done => 0
    case Closing => 1
    case Recording(_, _, final) => if final then 2 else 7 + token
    case Writing(_, final) => if final then 3 else 8 + token
    case Snapshotting(final) => if final then 4 else 9 + token
    case Debouncing => 10 + token
    case Waiting => 6 + token
  }

  /** A step the writer can take. */
  function WriterMove(s: System): Step {
    match s.writer
    case Waiting => SeeStop
    case Debouncing => StopInDebounce
    case Snapshotting(_) => CopyState(0)
    case Writing(_, _) => WriteFile(true)
    case Recording(_, _, _) => RecordResult
    case Closing => CloseDone
    case Done => CloseDone
  }

  /** Once stop is closed, the writer can move until it is done, each of its moves brings it closer, and no
      critical section and no caller pushes it back: stopPersistence returns. */
  lemma ShutdownTerminates(s: System, step: Step)
    requires Safe(s) && s.stopClosed > 0 && Can(s, step)
    ensures IsWriterStep(step) ==> Remaining(Take(s, step)) < Remaining(s)
    ensures step.SeeStop? || step.StopInDebounce? ==> Remaining(Take(s, step)) == 4
    ensures !IsWriterStep(step) ==> Remaining(Take(s, step)) <= Remaining(s)
    ensures Remaining(s) > 0 ==> IsWriterStep(WriterMove(s)) && Can(s, WriterMove(s))
  {
  }
}
