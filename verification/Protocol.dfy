// The commit protocol of state.go on values. A Core holds only what decides behaviour: the in-flight
// index and the sweep schedule of the store are optimisations (module Store proves them exact), so here
// in-flight tests scan and a sweep is either done or provably needless.
module Protocol {
  import opened Routes
  import opened Eviction

  datatype Core = Core(sessions: map<Digest, Session>, pending: map<Digest, Pending>, sequence: nat)

  const EMPTY_CORE := Core(map[], map[], 0)

  /** What one call reads from its surroundings: the clock on entry and when trimming, whether the
      amortised sweep ran, and in which order the in-flight map was iterated if it did. */
  datatype Call = Call(now: Time, late: Time, swept: bool, order: seq<Digest>)

  // ---- Reading ----

  function SessionAt(c: Core, sk: Digest): Session {
    if sk in c.sessions then c.sessions[sk] else BLANK
  }

  function Active(pending: map<Digest, Pending>): set<Digest> {
    set k | k in pending :: pending[k].sessionKey
  }

  predicate InFlight(c: Core, sk: Digest) {
    exists k | k in c.pending :: c.pending[k].sessionKey == sk
  }

  predicate RouteMismatch(c: Core, sk: Digest, route: Digest) {
    exists k | k in c.pending :: c.pending[k].sessionKey == sk && RouteKey(c.pending[k]) != route
  }

  predicate Expired(cfg: Config, stamp: Time, now: Time) {
    now - stamp > cfg.ttl
  }

  /** Nothing is left for a sweep to do, blank sessions apart. */
  ghost predicate Fresh(cfg: Config, c: Core, now: Time) {
    && (forall k :: k in c.sessions && c.sessions[k].updatedAt != 0 ==> !Expired(cfg, c.sessions[k].updatedAt, now))
    && (forall k :: k in c.pending ==> !Expired(cfg, c.pending[k].observedAt, now))
  }

  // ---- Micro steps ----

  function Drop(c: Core, k: Digest): Core {
    c.(pending := c.pending - {k})
  }

  function Enter(c: Core, k: Digest, p: Pending): Core {
    c.(pending := c.pending[k := p], sequence := p.sequence)
  }

  ghost function Put(cfg: Config, c: Core, sk: Digest, s: Session): Core {
    c.(sessions := TrimSessions(cfg.maxSessions, c.sessions[sk := s], Active(c.pending)))
  }

  ghost function Taint(cfg: Config, c: Core, sk: Digest, now: Time): Core {
    if sk == "" then c else Put(cfg, c, sk, SessionAt(c, sk).(tainted := true, updatedAt := now))
  }

  ghost function TrimPending(cfg: Config, c: Core, late: Time): (r: Core)
    ensures |r.pending| <= cfg.maxPending
    ensures |c.pending| <= cfg.maxPending ==> r == c
    decreases |c.pending|
  {
    if |c.pending| <= cfg.maxPending then c
    else
      var k := Oldest(PendingRanks(c.pending));
      var rest := Drop(c, k);
      assert rest.pending.Keys == c.pending.Keys - {k};
      TrimPending(cfg, Taint(cfg, rest, c.pending[k].sessionKey, late), late)
  }

  // ---- The sweep ----

  function ExpireSessions(cfg: Config, c: Core, now: Time): Core {
    c.(sessions := map k | k in c.sessions && !Expired(cfg, c.sessions[k].updatedAt, now) :: c.sessions[k])
  }

  ghost function ExpireOne(cfg: Config, c: Core, now: Time, k: Digest): Core {
    if k in c.pending && Expired(cfg, c.pending[k].observedAt, now)
    then Taint(cfg, Drop(c, k), c.pending[k].sessionKey, now)
    else c
  }

  ghost function ExpirePending(cfg: Config, c: Core, now: Time, order: seq<Digest>): Core
    decreases |order|
  {
    if order == [] then c
    else ExpireOne(cfg, ExpirePending(cfg, c, now, order[..|order| - 1]), now, order[|order| - 1])
  }

  ghost function Sweep(cfg: Config, c: Core, now: Time, order: seq<Digest>): Core {
    ExpirePending(cfg, ExpireSessions(cfg, c, now), now, order)
  }

  ghost function Purge(cfg: Config, c: Core, w: Call): Core {
    if w.swept then Sweep(cfg, c, w.now, w.order) else c
  }

  /** The readings a call may make: the clock never goes back, a sweep visits every in-flight entry, and
      a sweep is only skipped when it would have found nothing but blank sessions. */
  ghost predicate Admissible(cfg: Config, c: Core, clock: Time, w: Call) {
    && clock <= w.now <= w.late
    && (w.swept ==> forall k :: k in w.order <==> k in c.pending)
    && (!w.swept ==> Fresh(cfg, c, w.now))
  }

  // ---- prepare ----

  /** The session a tracked request is judged against: a conflicting request in flight taints it. */
  function Judged(c: Core, sk: Digest, route: Digest, now: Time): Session {
    var s := SessionAt(c, sk);
    if RouteMismatch(c, sk, route) then s.(tainted := true, updatedAt := now) else s
  }

  function Decide(cfg: Config, s: Session, route: Digest, signals: Signals): Decision {
    var same := s.hasRoute && !s.tainted && RouteEqual(s.route, route);
    var relation := if same then Same else if s.hasRoute then Changed else Unknown;
    var overflowed := same && s.overflow && (signals.hasReasoning || signals.hasCompaction);
    var blocked := if same && !overflowed then Matches(s, signals.items, route) else [];
    var unsafeState := signals.RouteBound() && (s.tainted || !same);
    if unsafeState && signals.hasCompaction && cfg.policy == Block then Decision(relation, overflowed, true, blocked)
    else Decision(relation, overflowed || unsafeState, false, blocked)
  }

  function Candidate(c: Core, sk: Digest, route: Digest, known: bool, s: Session, signals: Signals, strip: bool,
                     now: Time): Pending {
    var clean := strip || !signals.RouteBound();
    var carried := if strip then Bounded(signals.items) else ([], false);
    Pending(sk, if known then route else "", known, c.sequence + 1, now, clean,
            known && s.tainted && clean && !InFlight(c, sk), carried.1, carried.0)
  }

  /** Puts the session in the store and the candidate in flight. */
  ghost function Register(cfg: Config, c: Core, w: Call, pk: Digest, s: Session, p: Pending): Core {
    TrimPending(cfg, Enter(Put(cfg, c, p.sessionKey, s.(updatedAt := w.now)), pk, p), w.late)
  }

  /** The state prepare decides in: swept, and without the candidate this request replaces. */
  ghost function Base(cfg: Config, c: Core, w: Call, pk: Digest): Core {
    if pk == "" then Purge(cfg, c, w) else Drop(Purge(cfg, c, w), pk)
  }

  ghost function Verdict(cfg: Config, b: Core, now: Time, sk: Digest, route: Digest, known: bool,
                         signals: Signals): Decision {
    if sk == "" || !known then FailClosed(signals, cfg.policy)
    else Decide(cfg, Judged(b, sk, route, now), route, signals)
  }

  ghost function Admit(cfg: Config, b: Core, w: Call, pk: Digest, sk: Digest, route: Digest, known: bool,
                       signals: Signals): Core {
    var d := Verdict(cfg, b, w.now, sk, route, known, signals);
    if sk == "" || !known then
      if d.strip && sk != "" && pk != ""
      then Register(cfg, b, w, pk, SessionAt(b, sk), Candidate(b, sk, "", false, BLANK, signals, true, w.now))
      else b
    else
      var s := Judged(b, sk, route, w.now);
      if d.reject then
        var (t, n) := Retire(s, b.sequence, signals.items, route, true, w.now);
        Put(cfg, b.(sequence := n), sk, t)
      else if pk == "" then b
      else Register(cfg, b, w, pk, s, Candidate(b, sk, route, true, s, signals, d.strip, w.now))
  }

  // ---- complete ----

  /** The session after the candidate's stripped items went behind the barrier, and the sequence used up to. */
  function Settled(c: Core, p: Pending, now: Time): (Session, nat) {
    var s := SessionAt(c, p.sessionKey);
    if p.overflow then (MarkOverflow(s, now), c.sequence)
    else if p.retired != [] then Retire(s, c.sequence, p.retired, p.route, p.routeKnown, now)
    else (s, c.sequence)
  }

  /** May this success clear a taint? */
  predicate Clears(c: Core, s: Session, p: Pending) {
    p.routeKnown && p.canClearTaint && p.cleanStart && Applies(s, p) && !InFlight(c, p.sessionKey)
  }

  function Finished(c: Core, p: Pending, now: Time): Session {
    var s := Settled(c, p, now).0;
    var t := Commit(s, p, now);
    if Clears(c, s, p) then t.(tainted := false) else t
  }

  /** `c` is swept and no longer holds the candidate. */
  ghost function Conclude(cfg: Config, c: Core, now: Time, p: Pending, outcome: Outcome): Core {
    match outcome
    case Succeeded => Put(cfg, c.(sequence := Settled(c, p, now).1), p.sessionKey, Finished(c, p, now))
    case Unsuccessful(error) =>
      if InvalidEncryptedContent(error)
      then Put(cfg, c, p.sessionKey, Invalidate(SessionAt(c, p.sessionKey), p, now))
      else c
  }

  ghost function Complete(cfg: Config, c: Core, w: Call, pk: Digest, outcome: Outcome): Core {
    if pk == "" then c
    else
      var b := Purge(cfg, c, w);
      if pk in b.pending then Conclude(cfg, Drop(b, pk), w.now, b.pending[pk], outcome) else b
  }

  // ---- Events ----

  /** One critical section of the store. Request ids appear as in-flight keys, "" standing for a blank id. */
  datatype Event =
    | Prepare(w: Call, pk: Digest, sk: Digest, route: Digest, known: bool, signals: Signals)
    | Completion(w: Call, pk: Digest, outcome: Outcome)
    | Discard(pk: Digest)
    | Snapshot(w: Call)
    | Reset

  datatype World = World(core: Core, clock: Time)

  ghost predicate Enabled(cfg: Config, s: World, e: Event) {
    match e
    case Prepare(w, pk, sk, route, known, signals) => Admissible(cfg, s.core, s.clock, w) && (known ==> route != "")
    case Completion(w, pk, outcome) => pk != "" ==> Admissible(cfg, s.core, s.clock, w)
    case Snapshot(w) => Admissible(cfg, s.core, s.clock, w)
    case Discard(_) => true
    case Reset => true
  }

  ghost function Apply(cfg: Config, c: Core, e: Event): Core {
    match e
    case Prepare(w, pk, sk, route, known, signals) => Admit(cfg, Base(cfg, c, w, pk), w, pk, sk, route, known, signals)
    case Completion(w, pk, outcome) => Complete(cfg, c, w, pk, outcome)
    case Discard(pk) => Drop(c, pk)
    case Snapshot(w) => Purge(cfg, c, w)
    case Reset => EMPTY_CORE
  }

  ghost function Tick(s: World, e: Event): Time {
    match e
    case Prepare(w, _, _, _, _, _) => w.late
    case Completion(w, pk, _) => if pk == "" then s.clock else w.late
    case Snapshot(w) => w.late
    case Discard(_) => s.clock
    case Reset => s.clock
  }

  ghost function Next(cfg: Config, s: World, e: Event): World {
    World(Apply(cfg, s.core, e), Tick(s, e))
  }

  /** What a prepare answers. */
  ghost function Answer(cfg: Config, c: Core, e: Event): Decision
    requires e.Prepare?
  {
    Verdict(cfg, Base(cfg, c, e.w, e.pk), e.w.now, e.sk, e.route, e.known, e.signals)
  }
}
