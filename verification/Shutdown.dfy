// The store and its writer together: what a shutdown writes, the next start accepts.
module Shutdown {
  import opened Routes
  import opened Protocol
  import opened Invariant
  import opened Sweeping
  import opened Persistence
  import opened Writer

  datatype Joint = Joint(world: World, system: System)

  /** A request on the store, or a step of the writer or of a stopPersistence caller. */
  datatype Move = Request(e: Event) | Other(step: Step)

  function ContentOf(c: Core): Content {
    Content(c.sessions, c.sequence)
  }

  /** The events whose method ends by marking the store dirty: all but a discard, and a completion with a
      blank id, which returns before taking the lock. */
  predicate Marks(e: Event) {
    !e.Discard? && (e.Completion? ==> e.pk != "")
  }

  /** What a move does to the writer protocol. */
  ghost function StepOf(cfg: Config, j: Joint, m: Move): Step {
    match m
    case Request(e) => Section(ContentOf(Next(cfg, j.world, e).core), Marks(e))
    case Other(step) => step
  }

  /** Requests are those the interceptor makes; the snapshot reads the same clock as the store. */
  ghost predicate Allowed(cfg: Config, j: Joint, m: Move)
    requires j.system.history != []
  {
    match m
    case Request(e) => Enabled(cfg, j.world, e) && OpaqueEvent(e)
    case Other(step) => !step.Section? && Can(j.system, step) && (step.CopyState? ==> j.world.clock <= step.now)
  }

  ghost function WorldAfter(cfg: Config, j: Joint, m: Move): World {
    match m
    case Request(e) => Next(cfg, j.world, e)
    case Other(step) => if step.CopyState? then j.world.(clock := step.now) else j.world
  }

  /** What does not mark the store dirty does not change what is saved. */
  lemma UnmarkedChangesNothing(cfg: Config, w: World, e: Event)
    requires !Marks(e)
    ensures ContentOf(Next(cfg, w, e).core) == ContentOf(w.core)
  {
  }

  /** A request queues a wake token exactly if the writer is not stopped and the request is not a discard or a
      completion with a blank id; a token already queued stays. */
  lemma RequestWakes(cfg: Config, j: Joint, e: Event)
    requires j.system.history != [] && Can(j.system, StepOf(cfg, j, Request(e)))
    ensures Take(j.system, StepOf(cfg, j, Request(e))).wake
            <==> j.system.wake
                 || (!j.system.stopped && (e.Prepare? || e.Snapshot? || e.Reset? || (e.Completion? && e.pk != "")))
  {
  }

  /** The entry is what some sound store of intercepted requests would save. */
  ghost predicate Storable(cfg: Config, c: Content, clock: Time) {
    var core := Core(c.sessions, map[], c.sequence);
    Sound(cfg, core, clock) && Opaque(core)
  }

  ghost predicate StampedWithin(body: Body, clock: Time) {
    0 < body.savedAt <= clock
  }

  /** The history is the store's: each entry storable, the last one what the store holds. */
  ghost predicate Recorded(cfg: Config, w: World, history: seq<Content>) {
    && Inv(cfg, w) && Opaque(w.core)
    && history != [] && history[|history| - 1] == ContentOf(w.core)
    && forall i :: 0 <= i < |history| ==> Storable(cfg, history[i], w.clock)
  }

  ghost predicate Stamps(s: System, clock: Time) {
    && (s.writer.Writing? ==> StampedWithin(s.writer.body, clock))
    && (s.fileAt.Some? ==> s.file.Some? && StampedWithin(s.file.value, clock))
  }

  ghost predicate Linked(cfg: Config, j: Joint) {
    Safe(j.system) && Recorded(cfg, j.world, j.system.history) && Stamps(j.system, j.world.clock)
  }

  lemma WorldIsStorable(cfg: Config, w: World)
    requires Inv(cfg, w) && Opaque(w.core)
    ensures Storable(cfg, ContentOf(w.core), w.clock)
  {
  }

  lemma RequestWorld(cfg: Config, was: World, e: Event, w: World)
    requires Inv(cfg, was) && Opaque(was.core) && Enabled(cfg, was, e) && OpaqueEvent(e) && w == Next(cfg, was, e)
    ensures Inv(cfg, w) && Opaque(w.core) && was.clock <= w.clock
    ensures Marks(e) || ContentOf(w.core) == ContentOf(was.core)
  {
    EventKeepsInv(cfg, was, e);
    EventKeepsOpaque(cfg, was, e);
    ClockForward(cfg, was, e);
    if !Marks(e) {
      UnmarkedChangesNothing(cfg, was, e);
    }
  }

  lemma RequestStaysLinked(cfg: Config, j: Joint, e: Event)
    requires Linked(cfg, j) && Allowed(cfg, j, Request(e))
    ensures Can(j.system, StepOf(cfg, j, Request(e)))
    ensures Linked(cfg, Joint(WorldAfter(cfg, j, Request(e)), Take(j.system, StepOf(cfg, j, Request(e)))))
  {
    var w := WorldAfter(cfg, j, Request(e));
    RequestWorld(cfg, j.world, e, w);
    SectionStaysLinked(cfg, j, w, Marks(e));
  }

  lemma ClockForward(cfg: Config, w: World, e: Event)
    requires Enabled(cfg, w, e)
    ensures w.clock <= Next(cfg, w, e).clock
  {
  }

  lemma RecordedLater(cfg: Config, w: World, history: seq<Content>, now: Time)
    requires Recorded(cfg, w, history) && w.clock <= now
    ensures Recorded(cfg, w.(clock := now), history)
  {
  }

  lemma RecordMore(cfg: Config, was: World, w: World, history: seq<Content>)
    requires Recorded(cfg, was, history) && Inv(cfg, w) && Opaque(w.core) && was.clock <= w.clock
    ensures Recorded(cfg, w, history + [ContentOf(w.core)])
  {
    RecordedLater(cfg, was, history, w.clock);
    WorldIsStorable(cfg, w);
    var more := history + [ContentOf(w.core)];
    forall i | 0 <= i < |more|
      ensures Storable(cfg, more[i], w.clock)
    {
      if i < |history| {
        assert more[i] == history[i];
      }
    }
  }

  lemma SectionStaysLinked(cfg: Config, j: Joint, w: World, marks: bool)
    requires Linked(cfg, j) && Inv(cfg, w) && Opaque(w.core) && j.world.clock <= w.clock
    requires marks || ContentOf(w.core) == ContentOf(j.world.core)
    ensures Can(j.system, Section(ContentOf(w.core), marks))
    ensures Linked(cfg, Joint(w, Take(j.system, Section(ContentOf(w.core), marks))))
  {
    SectionIsSafe(j.system, Section(ContentOf(w.core), marks));
    RecordMore(cfg, j.world, w, j.system.history);
  }

  lemma OtherIsSafe(s: System, step: Step)
    requires Safe(s) && Can(s, step) && !step.Section?
    ensures Safe(Take(s, step)) && Take(s, step).history == s.history
  {
    if IsWriterStep(step) {
      WriterIsSafe(s, step);
    } else {
      StopperIsSafe(s, step);
    }
  }

  lemma StampsStay(s: System, step: Step, was: Time, clock: Time)
    requires s.history != [] && Can(s, step) && !step.Section? && (step.CopyState? ==> step.now <= clock)
    requires Stamps(s, was) && was <= clock && (step.CopyState? ==> 0 < step.now)
    ensures Stamps(Take(s, step), clock)
  {
  }

  lemma OtherStaysLinked(cfg: Config, j: Joint, step: Step)
    requires Linked(cfg, j) && Allowed(cfg, j, Other(step))
    ensures Linked(cfg, Joint(WorldAfter(cfg, j, Other(step)), Take(j.system, step)))
  {
    var now := if step.CopyState? then step.now else j.world.clock;
    OtherIsSafe(j.system, step);
    StampsStay(j.system, step, j.world.clock, now);
    RecordedLater(cfg, j.world, j.system.history, now);
    assert j.world.(clock := j.world.clock) == j.world;
  }

  /** A joint run. */
  ghost predicate Runs(cfg: Config, j: Joint, moves: seq<Move>, k: Joint)
    requires j.system.history != []
    decreases |moves|
  {
    if moves == [] then k == j
    else
      && Allowed(cfg, j, moves[0]) && Can(j.system, StepOf(cfg, j, moves[0]))
      && Runs(cfg, Joint(WorldAfter(cfg, j, moves[0]), Take(j.system, StepOf(cfg, j, moves[0]))), moves[1..], k)
  }

  lemma {:induction false} RunsStayLinked(cfg: Config, j: Joint, moves: seq<Move>, k: Joint)
    requires Linked(cfg, j) && Runs(cfg, j, moves, k)
    ensures Linked(cfg, k)
    decreases |moves|
  {
    if moves == [] {
    } else {
      match moves[0]
      case Request(e) =>
        RequestStaysLinked(cfg, j, e);
        RunsStayLinked(cfg, Joint(WorldAfter(cfg, j, moves[0]), Take(j.system, StepOf(cfg, j, moves[0]))), moves[1..],
                       k);
      case Other(step) =>
        OtherStaysLinked(cfg, j, step);
        RunsStayLinked(cfg, Joint(WorldAfter(cfg, j, moves[0]), Take(j.system, StepOf(cfg, j, moves[0]))), moves[1..],
                       k);
    }
  }

  /** Nothing a request does is ever refused by the writer protocol: every allowed move can be taken. */
  lemma MovesAreNeverBlocked(cfg: Config, j: Joint, moves: seq<Move>, k: Joint, m: Move)
    requires Linked(cfg, j) && Runs(cfg, j, moves, k) && k.system.history != [] && Allowed(cfg, k, m)
    ensures Can(k.system, StepOf(cfg, k, m))
  {
    RunsStayLinked(cfg, j, moves, k);
    match m
    case Request(e) => RequestStaysLinked(cfg, k, e);
    case Other(_) =>
  }

  /** What a start makes of a saved state. */
  ghost function Continued(cfg: Config, c: Content, now: Time): World {
    if NoBlank(Core(c.sessions, map[], c.sequence))
    then World(Core(Unexpired(cfg, c.sessions, now), map[], c.sequence), now)
    else World(EMPTY_CORE, now)
  }

  /** The file is a state the store had when the stopped flag was set or later. It is acceptable at `now`
      exactly when it holds no blank session, and the next start begins with that state's sequence and
      unexpired sessions, or else with an empty store. */
  ghost predicate Flushed(cfg: Config, t: System, now: Time) {
    && t.fileAt.Some? && t.file.Some? && t.stoppedAt <= t.fileAt.value < |t.history|
    && (Acceptable(t.file.value, cfg, now) <==> NoBlank(Core(t.file.value.sessions, map[], t.file.value.sequence)))
    && Content(t.file.value.sessions, t.file.value.sequence) == t.history[t.fileAt.value]
    && Started(Some(Document(t.file.value, true)), cfg, now) == Continued(cfg, t.history[t.fileAt.value], now)
  }

  /** The file a successful shutdown leaves is accepted by the next start exactly when it holds no blank
      session, and it then restores the sequence and the unexpired sessions of a moment no earlier than the
      one at which the stopped flag was set. */
  lemma FlushedFileLoads(cfg: Config, j: Joint, moves: seq<Move>, k: Joint, who: nat, now: Time)
    requires Linked(cfg, j) && Runs(cfg, j, moves, k)
    requires StopperOf(k.system.stoppers, who) == Returned && k.system.lastOk && k.world.clock <= now
    ensures Flushed(cfg, k.system, now)
  {
    RunsStayLinked(cfg, j, moves, k);
    FlushedIsAcceptable(cfg, k, who, now);
  }

  lemma FlushedIsAcceptable(cfg: Config, k: Joint, who: nat, now: Time)
    requires Safe(k.system) && Recorded(cfg, k.world, k.system.history) && Stamps(k.system, k.world.clock)
    requires StopperOf(k.system.stoppers, who) == Returned && k.system.lastOk && k.world.clock <= now
    ensures Flushed(cfg, k.system, now)
  {
    var t := k.system;
    FlushedHolds(t, who);
    StorableIsAcceptable(cfg, t.history[t.fileAt.value], t.file.value, k.world.clock, now);
  }

  lemma FlushedHolds(t: System, who: nat)
    requires Safe(t) && StopperOf(t.stoppers, who) == Returned && t.lastOk
    ensures t.fileAt.Some? && t.file.Some? && t.stoppedAt <= t.fileAt.value && Holds(t, t.fileAt.value, t.file.value)
  {
  }

  lemma StorableIsAcceptable(cfg: Config, c: Content, body: Body, clock: Time, now: Time)
    requires Storable(cfg, c, clock) && clock <= now && StampedWithin(body, clock)
    requires Content(body.sessions, body.sequence) == c && body.version == VERSION
    ensures Acceptable(body, cfg, now) <==> NoBlank(Core(c.sessions, map[], c.sequence))
  {
    var core := Core(c.sessions, map[], c.sequence);
    SavedIsAcceptable(cfg, World(core, clock), clock, now);
    AcceptableAnyStamp(body, Saved(core, clock), cfg, now);
  }

  lemma AcceptableAnyStamp(a: Body, b: Body, cfg: Config, now: Time)
    requires a.version == b.version && a.sequence == b.sequence && a.sessions == b.sessions
    requires StampedWithin(a, now) && StampedWithin(b, now)
    ensures Acceptable(a, cfg, now) <==> Acceptable(b, cfg, now)
  {
  }

  /** A fresh store with a fresh writer is linked. */
  lemma StartIsLinked(cfg: Config, w: World, s: System)
    requires Inv(cfg, w) && Opaque(w.core) && Initial(s) && s.history == [ContentOf(w.core)]
    ensures Linked(cfg, Joint(w, s))
  {
    InitialIsSafe(s);
    WorldIsStorable(cfg, w);
  }

  /** From a fresh or restored store with a fresh writer, through every interleaving: a shutdown that returns
      after a successful write leaves a file with which the next start goes on. */
  lemma ShutdownRestarts(cfg: Config, w: World, s: System, moves: seq<Move>, k: Joint, who: nat, now: Time)
    requires Inv(cfg, w) && Opaque(w.core) && Initial(s) && s.history == [ContentOf(w.core)]
    requires Runs(cfg, Joint(w, s), moves, k)
    requires StopperOf(k.system.stoppers, who) == Returned && k.system.lastOk && k.world.clock <= now
    ensures Flushed(cfg, k.system, now)
  {
    StartIsLinked(cfg, w, s);
    FlushedFileLoads(cfg, Joint(w, s), moves, k, who, now);
  }
}
