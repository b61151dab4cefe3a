// Safety across a restart: the next run begins with what the last one saved.
module Restarts {
  import opened Routes
  import opened Protocol
  import opened Events
  import opened Runs
  import opened Invariant
  import opened Meanwhile
  import opened Sweeping
  import opened Persistence

  /** The store a restart begins with, after a run whose state was saved at savedAt and loaded at `at`. */
  ghost function Restarted(cfg: Config, start: World, es: seq<Event>, savedAt: Time, at: Time): World {
    Started(Some(Document(Saved(Play(cfg, start, es).core, savedAt), true)), cfg, at)
  }

  /** A run of intercepted requests, saved after its last event and loaded later. */
  ghost predicate SavedRun(cfg: Config, start: World, es: seq<Event>, savedAt: Time, at: Time) {
    && IsRun(cfg, start, es) && Opaque(start.core) && (forall e :: e in es ==> OpaqueEvent(e))
    && Play(cfg, start, es).clock <= savedAt <= at
  }

  /** Whether the file is accepted or refused, a run can begin with what the restart makes of it, every
      identity in it is a digest, and every binding in it is one the last run ended with. */
  lemma RestartBegins(cfg: Config, start: World, es: seq<Event>, savedAt: Time, at: Time)
    requires SavedRun(cfg, start, es, savedAt, at)
    ensures var next := Restarted(cfg, start, es, savedAt, at);
            && Begins(cfg, next) && Opaque(next.core) && NoBlank(next.core)
            && forall sk :: sk in next.core.sessions ==>
                 sk in Play(cfg, start, es).core.sessions
                   && next.core.sessions[sk] == Play(cfg, start, es).core.sessions[sk]
  {
    var s := Play(cfg, start, es);
    RunKeepsInv(cfg, start, es);
    RunKeepsOpaque(cfg, start, es);
    RoundTrip(cfg, s, savedAt, at);
    if NoBlank(s.core) {
      RestartIsSound(cfg, s, at);
    } else {
      EmptyBegins(cfg, at);
    }
  }

  /** Run safety across a restart: state let through after the restart is trusted as ever, and its route was
      committed by the success of a latest candidate after the restart, or before it, or was there when the
      first run began. */
  lemma RunSafetyAcrossRestart(cfg: Config, start: World, es: seq<Event>, savedAt: Time, at: Time, fs: seq<Event>,
                               e: Event)
    requires SavedRun(cfg, start, es, savedAt, at)
    requires var next := Restarted(cfg, start, es, savedAt, at);
             IsRun(cfg, next, fs + [e]) && LetThrough(cfg, Play(cfg, next, fs).core, e)
    ensures var next := Restarted(cfg, start, es, savedAt, at);
            var c := Play(cfg, next, fs).core;
            && Trusted(cfg, Ground(cfg, c, e), e, Answer(cfg, c, e).blocked)
            && var n := Ground(cfg, c, e).sessions[e.sk].sequence;
            || (exists i, j :: CommittedBy(cfg, next, fs, i, j, e.sk, e.route, n))
            || BindingHasOrigin(cfg, start, es, e.sk, e.route, n)
  {
    var next := Restarted(cfg, start, es, savedAt, at);
    RestartBegins(cfg, start, es, savedAt, at);
    RunSafety(cfg, next, fs, e);
    var n := Ground(cfg, Play(cfg, next, fs).core, e).sessions[e.sk].sequence;
    if BoundAtStart(next, e.sk, e.route, n) {
      RouteProvenance(cfg, start, es, e.sk);
    }
  }

  // ---- What a restart changes ----

  /** A session with nothing in flight looks the same, at any later time, after events about others. */
  lemma IdleView(cfg: Config, s: World, es: seq<Event>, sk: Digest, now: Time)
    requires Inv(cfg, s) && Playable(cfg, s, es) && Elsewhere(cfg, s, es, sk) && !InFlight(s.core, sk)
    requires Play(cfg, s, es).clock <= now
    ensures var w := Play(cfg, s, es);
            && Inv(cfg, w) && s.clock <= w.clock && OwnPending(w.core, sk) == map[]
            && LocalSession(cfg, SessionAt(w.core, sk), map[], now)
              == LocalSession(cfg, SessionAt(s.core, sk), map[], now)
  {
    ElsewhereKeeps(cfg, s, es, sk);
    assert OwnPending(s.core, sk) == map[];
  }

  lemma SameLook(cfg: Config, u: World, v: World, e: Event, f: Event)
    requires Inv(cfg, u) && Roomy(cfg, u.core) && Enabled(cfg, u, e) && e.Prepare?
    requires Inv(cfg, v) && Roomy(cfg, v.core) && Enabled(cfg, v, f) && SameRequest(e, f)
    requires OwnPending(u.core, e.sk) == map[] == OwnPending(v.core, e.sk)
    requires LocalSession(cfg, SessionAt(u.core, e.sk), map[], e.w.now)
             == LocalSession(cfg, SessionAt(v.core, e.sk), map[], e.w.now)
    ensures Answer(cfg, u.core, e) == Answer(cfg, v.core, f)
  {
    GroundIsLocal(cfg, u, e);
    GroundIsLocal(cfg, v, f);
    VerdictIsLocal(cfg, Ground(cfg, u.core, e), Ground(cfg, v.core, f), e.w.now, e.sk, e.route, e.known, e.signals);
  }

  /** The request comes to a store that served others since `s`: it is enabled, below the cap, and its session
      was left to itself. */
  ghost predicate ComesLater(cfg: Config, s: World, es: seq<Event>, e: Event) {
    && e.Prepare? && Playable(cfg, s, es) && Elsewhere(cfg, s, es, e.sk)
    && Roomy(cfg, Play(cfg, s, es).core) && Enabled(cfg, Play(cfg, s, es), e)
  }

  /** A restart with requests in flight is transparent: a session with none of its own in flight is judged as
      it would have been, however many requests of other sessions either store serves in between, as long as
      the sessions fit below the cap. */
  lemma RestartIsTransparent(cfg: Config, s: World, at: Time, es: seq<Event>, e: Event, fs: seq<Event>, f: Event)
    requires Inv(cfg, s) && s.clock <= at && NoBlank(s.core)
    requires ComesLater(cfg, s, es, e) && ComesLater(cfg, Restart(cfg, s, at), fs, f) && SameRequest(e, f)
    requires !InFlight(s.core, e.sk)
    ensures Answer(cfg, Play(cfg, s, es).core, e) == Answer(cfg, Play(cfg, Restart(cfg, s, at), fs).core, f)
  {
    RestartIsSound(cfg, s, at);
    IdleView(cfg, s, es, e.sk, e.w.now);
    IdleView(cfg, Restart(cfg, s, at), fs, e.sk, e.w.now);
    RestartedView(cfg, s, at, e.sk, e.w.now);
    SameLook(cfg, Play(cfg, s, es), Play(cfg, Restart(cfg, s, at), fs), e, f);
  }

  /** A request without a session or without a known route is judged by its body alone, restart or not. */
  lemma UntrackedIsTransparent(cfg: Config, c: Core, d: Core, e: Event, f: Event)
    requires e.Prepare? && SameRequest(e, f) && (e.sk == "" || !e.known)
    ensures Answer(cfg, c, e) == Answer(cfg, d, f) == FailClosed(e.signals, cfg.policy)
  {
  }
}
