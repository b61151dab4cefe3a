// Safety over whole runs, from an empty store or a restored one: where every in-flight candidate and every
// committed route came from, and what a prepare that lets route-bound state through has checked.
module Runs {
  import opened Routes
  import opened Retirement
  import opened Protocol
  import opened Footprint
  import opened Events
  import opened Invariant

  /** The state after the events, one by one. */
  ghost function Play(cfg: Config, s: World, es: seq<Event>): World
    decreases |es|
  {
    if es == [] then s else Next(cfg, Play(cfg, s, es[..|es| - 1]), es[|es| - 1])
  }

  ghost predicate Playable(cfg: Config, s: World, es: seq<Event>)
    decreases |es|
  {
    es == [] || (Playable(cfg, s, es[..|es| - 1]) && Enabled(cfg, Play(cfg, s, es[..|es| - 1]), es[|es| - 1]))
  }

  lemma {:induction false} PlayKeepsInv(cfg: Config, s: World, es: seq<Event>)
    requires Inv(cfg, s) && Playable(cfg, s, es)
    ensures Inv(cfg, Play(cfg, s, es))
    decreases |es|
  {
    if es == [] {
    } else {
      PlayKeepsInv(cfg, s, es[..|es| - 1]);
      EventKeepsInv(cfg, Play(cfg, s, es[..|es| - 1]), es[|es| - 1]);
    }
  }

  /** Where a run may begin: a sound store with nothing in flight, empty or restored by a load. */
  ghost predicate Begins(cfg: Config, start: World) {
    Inv(cfg, start) && start.core.pending == map[]
  }

  /** With valid bounds and a clock more than one TTL past Go's zero time, an empty store is one. */
  lemma EmptyBegins(cfg: Config, clock: Time)
    requires cfg.Valid() && cfg.ttl < clock
    ensures Begins(cfg, World(EMPTY_CORE, clock))
  {
  }

  /** A run: every event is enabled when it happens. */
  ghost predicate IsRun(cfg: Config, start: World, es: seq<Event>) {
    Begins(cfg, start) && Playable(cfg, start, es)
  }

  lemma RunExtends(cfg: Config, start: World, es: seq<Event>, e: Event)
    ensures Play(cfg, start, es + [e]) == Next(cfg, Play(cfg, start, es), e)
    ensures IsRun(cfg, start, es + [e]) <==> IsRun(cfg, start, es) && Enabled(cfg, Play(cfg, start, es), e)
  {
    assert (es + [e])[..|es|] == es;
  }

  ghost function Before(cfg: Config, start: World, es: seq<Event>, i: nat): Core
    requires i < |es|
  {
    Play(cfg, start, es[..i]).core
  }

  lemma RunKeepsInv(cfg: Config, start: World, es: seq<Event>)
    requires IsRun(cfg, start, es)
    ensures Inv(cfg, Play(cfg, start, es))
  {
    PlayKeepsInv(cfg, start, es);
  }

  // ---- Provenance ----

  /** The event is a prepare that puts p in flight under pk. */
  ghost predicate Enters(cfg: Config, c: Core, e: Event, pk: Digest, p: Pending) {
    Registers(cfg, c, e) && e.pk == pk && p == Entrant(cfg, c, e)
  }

  ghost predicate EntersAfter(cfg: Config, start: World, prefix: seq<Event>, e: Event, pk: Digest, p: Pending) {
    Enters(cfg, Play(cfg, start, prefix).core, e, pk, p)
  }

  /** The candidate p in flight under pk is the one prepare number i registered, and nothing that concerns
      pk happened since: it is the latest candidate of its request. */
  ghost predicate RegisteredBy(cfg: Config, start: World, es: seq<Event>, i: nat, pk: Digest, p: Pending) {
    && i < |es|
    && EntersAfter(cfg, start, es[..i], es[i], pk, p)
    && forall m :: i < m < |es| ==> !About(es[m], pk)
  }

  /** Completion number j succeeded for the candidate prepare number i registered, which was still in flight
      and still the latest of its request, and that candidate named this session, route and sequence. */
  ghost predicate CommittedBy(cfg: Config, start: World, es: seq<Event>, i: nat, j: nat, sk: Digest, route: Digest,
                              sequence: nat) {
    && i < j < |es|
    && es[j].Completion? && es[j].outcome.Succeeded?
    && Settles(cfg, Before(cfg, start, es, j), es[j])
    && var p := Settling(cfg, Before(cfg, start, es, j), es[j]);
    && RegisteredBy(cfg, start, es[..j], i, es[j].pk, p)
    && p.routeKnown && p.sessionKey == sk && p.route == route && p.sequence == sequence
  }

  lemma BeforePrefix(cfg: Config, start: World, es: seq<Event>, n: nat, i: nat)
    requires i < n <= |es|
    ensures Before(cfg, start, es[..n], i) == Before(cfg, start, es, i)
  {
    assert es[..n][..i] == es[..i];
  }

  lemma RegisteredExtends(cfg: Config, start: World, es: seq<Event>, i: nat, pk: Digest, p: Pending)
    requires es != [] && RegisteredBy(cfg, start, es[..|es| - 1], i, pk, p) && !About(es[|es| - 1], pk)
    ensures RegisteredBy(cfg, start, es, i, pk, p)
  {
    var front := es[..|es| - 1];
    assert front[..i] == es[..i];
    assert front[i] == es[i];
    AboutNeither(front, es[|es| - 1], i, pk);
    assert es == front + [es[|es| - 1]];
  }

  lemma AboutNeither(front: seq<Event>, e: Event, i: nat, pk: Digest)
    requires !About(e, pk) && forall m :: i < m < |front| ==> !About(front[m], pk)
    ensures forall m :: i < m < |front + [e]| ==> !About((front + [e])[m], pk)
  {
  }

  lemma CommittedExtends(cfg: Config, start: World, es: seq<Event>, i: nat, j: nat, sk: Digest, route: Digest,
                         sequence: nat)
    requires es != [] && CommittedBy(cfg, start, es[..|es| - 1], i, j, sk, route, sequence)
    ensures CommittedBy(cfg, start, es, i, j, sk, route, sequence)
  {
    BeforePrefix(cfg, start, es, |es| - 1, j);
    assert es[..|es| - 1][..j] == es[..j];
  }

  /** Latest candidate only: whatever is in flight under a request was put there by that request's most
      recent prepare, with no completion or discard of the request since. */
  lemma {:induction false} LatestCandidateOnly(cfg: Config, start: World, es: seq<Event>, pk: Digest)
    requires IsRun(cfg, start, es) && pk in Play(cfg, start, es).core.pending
    ensures exists i :: RegisteredBy(cfg, start, es, i, pk, Play(cfg, start, es).core.pending[pk])
    decreases |es|
  {
    if es == [] {
    } else {
      var front, e := es[..|es| - 1], es[|es| - 1];
      var c := Play(cfg, start, front).core;
      var p := Play(cfg, start, es).core.pending[pk];
      CandidatesAfter(cfg, c, e, pk);
      if Registers(cfg, c, e) && pk == e.pk {
        assert RegisteredBy(cfg, start, es, |es| - 1, pk, p);
      } else {
        LatestCandidateOnly(cfg, start, front, pk);
        var i :| RegisteredBy(cfg, start, front, i, pk, p);
        RegisteredExtends(cfg, start, es, i, pk, p);
      }
    }
  }

  /** The event commits this route under this session. */
  ghost predicate Commits(cfg: Config, c: Core, e: Event, sk: Digest, route: Digest, sequence: nat) {
    && Settles(cfg, c, e) && e.outcome.Succeeded?
    && var p := Settling(cfg, c, e);
       p.routeKnown && p.sessionKey == sk && p.route == route && p.sequence == sequence
  }

  predicate SameBinding(s: Session, t: Session) {
    s.hasRoute == t.hasRoute && s.route == t.route && s.sequence == t.sequence
  }

  /** What the event itself does to the binding of its session: it keeps it, commits the settled candidate's
      route over an older one, or drops it. */
  ghost predicate BindingStep(cfg: Config, c: Core, e: Event, was: Session, own: Session) {
    || SameBinding(was, own)
    || (Commits(cfg, c, e, Subject(cfg, c, e), own.route, own.sequence) && own.hasRoute
        && (was.hasRoute ==> was.sequence <= own.sequence))
    || (Invalidates(cfg, c, e) && !own.hasRoute)
  }

  lemma OwnBinding(cfg: Config, s: World, e: Event)
    requires Inv(cfg, s) && Enabled(cfg, s, e) && !e.Reset?
    ensures BindingStep(cfg, s.core, e, SessionAt(Ground(cfg, s.core, e), Subject(cfg, s.core, e)), Own(cfg, s.core, e))
  {
    if Registers(cfg, s.core, e) {
      RegisteredSession(cfg, s.core, e);
    } else if RejectsTracked(cfg, s.core, e) {
      RejectedBinding(cfg, s, e);
    } else if Settles(cfg, s.core, e) && e.outcome.Succeeded? {
      FinishedBinding(cfg, s, e);
    }
  }

  /** Registering touches nothing of the session but its stamp, and may taint it. */
  lemma RegisteredSession(cfg: Config, c: Core, e: Event)
    requires Registers(cfg, c, e)
    ensures var was, own := SessionAt(Ground(cfg, c, e), e.sk), Own(cfg, c, e);
            own == was.(tainted := own.tainted, updatedAt := e.w.now) && (was.tainted ==> own.tainted)
  {
  }

  lemma RejectedBinding(cfg: Config, s: World, e: Event)
    requires Inv(cfg, s) && Enabled(cfg, s, e) && RejectsTracked(cfg, s.core, e)
    ensures SameBinding(SessionAt(Ground(cfg, s.core, e), e.sk), Own(cfg, s.core, e))
    ensures SessionAt(Ground(cfg, s.core, e), e.sk).tainted ==> Own(cfg, s.core, e).tainted
  {
    var b := Ground(cfg, s.core, e);
    GroundKeepsSound(cfg, s, e);
    SessionAtOK(cfg, b, e.sk, e.w.now);
    RetireSpec(Judged(b, e.sk, e.route, e.w.now), b.sequence, e.signals.items, e.route, true, e.w.now);
  }

  lemma FinishedBinding(cfg: Config, s: World, e: Event)
    requires Inv(cfg, s) && Enabled(cfg, s, e) && Settles(cfg, s.core, e) && e.outcome.Succeeded?
    ensures BindingStep(cfg, s.core, e, SessionAt(Ground(cfg, s.core, e), Subject(cfg, s.core, e)), Own(cfg, s.core, e))
  {
    GroundKeepsSound(cfg, s, e);
    SettlingOK(cfg, s, e);
    SettledBinding(cfg, Ground(cfg, s.core, e), Settling(cfg, s.core, e), e.w.now);
  }

  lemma SettledBinding(cfg: Config, b: Core, p: Pending, now: Time)
    requires Sound(cfg, b, now) && CandidateOK(p, b.sequence, now)
    ensures SameBinding(Settled(b, p, now).0, SessionAt(b, p.sessionKey))
    ensures Settled(b, p, now).0.tainted == SessionAt(b, p.sessionKey).tainted
  {
    var s := SessionAt(b, p.sessionKey);
    SessionAtOK(cfg, b, p.sessionKey, now);
    if p.retired != [] && !p.overflow {
      RetireSpec(s, b.sequence, p.retired, p.route, p.routeKnown, now);
    }
  }

  lemma BindingSurvives(c: Core, b: Core, d: Core, r1: set<Digest>, r2: set<Digest>, sk: Digest, own: Session)
    requires Background(c, b, r1) && Effect(b, d, r2, sk, own)
    requires sk in d.sessions && d.sessions[sk].hasRoute
    ensures SameBinding(own, d.sessions[sk]) && (own.tainted ==> d.sessions[sk].tainted)
    ensures SessionAt(b, sk).hasRoute ==> sk in c.sessions && SameBinding(c.sessions[sk], SessionAt(b, sk))
  {
  }

  /** A session has a route after an event only if the event committed it, or it had the same one before. */
  lemma RoutesAfter(cfg: Config, s: World, e: Event, o: Digest)
    requires Inv(cfg, s) && Enabled(cfg, s, e)
    requires o in Apply(cfg, s.core, e).sessions && Apply(cfg, s.core, e).sessions[o].hasRoute
    ensures var t := Apply(cfg, s.core, e).sessions[o];
            || Commits(cfg, s.core, e, o, t.route, t.sequence)
            || (o in s.core.sessions && SameBinding(s.core.sessions[o], t))
  {
    if !e.Reset? {
      if o == Subject(cfg, s.core, e) {
        var b := Ground(cfg, s.core, e);
        EventEffect(cfg, s.core, e);
        GroundIsBackground(cfg, s.core, e);
        OwnBinding(cfg, s, e);
        BindingSurvives(s.core, b, Apply(cfg, s.core, e), EarlyRemoves(cfg, s.core, e), LateRemoves(cfg, s.core, e), o,
                        Own(cfg, s.core, e));
      } else {
        SessionIsolation(cfg, s.core, e, o);
      }
    }
  }

  /** A completion settles the candidate of its request's latest prepare. */
  lemma SettledOrigin(cfg: Config, start: World, es: seq<Event>, e: Event)
    requires IsRun(cfg, start, es) && Enabled(cfg, Play(cfg, start, es), e)
             && Settles(cfg, Play(cfg, start, es).core, e)
    ensures exists i :: RegisteredBy(cfg, start, es, i, e.pk, Settling(cfg, Play(cfg, start, es).core, e))
  {
    RunKeepsInv(cfg, start, es);
    SettlingOK(cfg, Play(cfg, start, es), e);
    LatestCandidateOnly(cfg, start, es, e.pk);
  }

  /** The binding was already there when the run began. */
  predicate BoundAtStart(start: World, sk: Digest, route: Digest, sequence: nat) {
    && sk in start.core.sessions
    && var s := start.core.sessions[sk];
       s.hasRoute && s.route == route && s.sequence == sequence
  }

  /** Where the binding comes from: the success of a request's latest candidate in this run, or the store the
      run began with. */
  ghost predicate BindingHasOrigin(cfg: Config, start: World, es: seq<Event>, sk: Digest, route: Digest,
                                   sequence: nat) {
    || (exists i, j :: CommittedBy(cfg, start, es, i, j, sk, route, sequence))
    || BoundAtStart(start, sk, route, sequence)
  }

  /** Every committed route was committed by the success of a request's latest candidate, or was there from
      the start; in a run from an empty store only the former. */
  lemma {:induction false} RouteProvenance(cfg: Config, start: World, es: seq<Event>, sk: Digest)
    requires IsRun(cfg, start, es)
    requires sk in Play(cfg, start, es).core.sessions && Play(cfg, start, es).core.sessions[sk].hasRoute
    ensures var s := Play(cfg, start, es).core.sessions[sk]; BindingHasOrigin(cfg, start, es, sk, s.route, s.sequence)
    decreases |es|
  {
    if es == [] {
    } else {
      var front, e := es[..|es| - 1], es[|es| - 1];
      var w := Play(cfg, start, front);
      var s := Play(cfg, start, es).core.sessions[sk];
      RunKeepsInv(cfg, start, front);
      RoutesAfter(cfg, w, e, sk);
      if Commits(cfg, w.core, e, sk, s.route, s.sequence) {
        SettledOrigin(cfg, start, front, e);
        var i :| RegisteredBy(cfg, start, front, i, e.pk, Settling(cfg, w.core, e));
        assert es[..|es| - 1] == front;
        assert CommittedBy(cfg, start, es, i, |es| - 1, sk, s.route, s.sequence);
      } else {
        RouteProvenance(cfg, start, front, sk);
        OriginExtends(cfg, start, es, sk, s.route, s.sequence);
      }
    }
  }

  lemma OriginExtends(cfg: Config, start: World, es: seq<Event>, sk: Digest, route: Digest, sequence: nat)
    requires es != [] && BindingHasOrigin(cfg, start, es[..|es| - 1], sk, route, sequence)
    ensures BindingHasOrigin(cfg, start, es, sk, route, sequence)
  {
    if !BoundAtStart(start, sk, route, sequence) {
      var i, j :| CommittedBy(cfg, start, es[..|es| - 1], i, j, sk, route, sequence);
      CommittedExtends(cfg, start, es, i, j, sk, route, sequence);
    }
  }

  // ---- Run safety ----

  /** A route-bound request is let through unchanged, up to its blocked items. */
  ghost predicate LetThrough(cfg: Config, c: Core, e: Event) {
    e.Prepare? && e.signals.RouteBound() && !Answer(cfg, c, e).strip && !Answer(cfg, c, e).reject
  }

  /** What was checked before route-bound state was let through, in the swept state. */
  ghost predicate Trusted(cfg: Config, b: Core, e: Event, blocked: seq<Digest>)
    requires e.Prepare?
  {
    && e.known && e.sk in b.sessions
    && var s := b.sessions[e.sk];
    && s.hasRoute && s.route == e.route && !s.tainted
    && e.w.now - s.updatedAt <= cfg.ttl
    && (forall k :: k in b.pending && b.pending[k].sessionKey == e.sk ==>
          b.pending[k].routeKnown && b.pending[k].route == e.route)
    && (forall f :: f in blocked <==> f in e.signals.items && Barred(s, f, e.route))
    && (s.overflow ==> !e.signals.hasReasoning && !e.signals.hasCompaction)
  }

  /** May state bound to this route be let through on the session? */
  ghost predicate Reusable(b: Core, sk: Digest, route: Digest, known: bool) {
    && known && sk != "" && sk in b.sessions
    && var s := b.sessions[sk];
    && s.hasRoute && !s.tainted && s.route == route
    && forall k :: k in b.pending && b.pending[k].sessionKey == sk ==>
         b.pending[k].routeKnown && b.pending[k].route == route
  }

  /** The decision table: everything turns on whether the session is reusable, and otherwise on the policy. */
  ghost predicate DecidedExactly(cfg: Config, b: Core, sk: Digest, route: Digest, known: bool, signals: Signals,
                                 d: Decision) {
    var was, reusable := SessionAt(b, sk), Reusable(b, sk, route, known);
    && (d.relation == Same <==> reusable)
    && (d.relation == Changed <==> !reusable && known && sk != "" && was.hasRoute)
    && (d.reject <==> !reusable && signals.hasCompaction && cfg.policy == Block)
    && (d.strip <==> if reusable then was.overflow && (signals.hasReasoning || signals.hasCompaction)
                     else signals.RouteBound() && !d.reject)
    && (forall f :: f in d.blocked <==> reusable && !d.strip && f in signals.items && Barred(was, f, route))
  }

  /** Every answer of a prepare is that of the decision table. */
  lemma DecisionIsExact(cfg: Config, s: World, e: Event)
    requires Inv(cfg, s) && Enabled(cfg, s, e) && e.Prepare?
    ensures DecidedExactly(cfg, Ground(cfg, s.core, e), e.sk, e.route, e.known, e.signals, Answer(cfg, s.core, e))
  {
    GroundKeepsSound(cfg, s, e);
    VerdictIsExact(cfg, Ground(cfg, s.core, e), e.w.now, e.sk, e.route, e.known, e.signals);
  }

  lemma VerdictIsExact(cfg: Config, b: Core, now: Time, sk: Digest, route: Digest, known: bool, signals: Signals)
    requires Sound(cfg, b, now) && (known ==> route != "")
    ensures DecidedExactly(cfg, b, sk, route, known, signals, Verdict(cfg, b, now, sk, route, known, signals))
  {
    if known && sk != "" {
      SessionAtOK(cfg, b, sk, now);
      MismatchIsExact(cfg, b, now, sk, route);
      JudgedReusable(b, sk, route, now);
      DecideExactly(cfg, Judged(b, sk, route, now), route, signals);
    }
  }

  lemma MismatchIsExact(cfg: Config, b: Core, now: Time, sk: Digest, route: Digest)
    requires Sound(cfg, b, now) && route != ""
    ensures !RouteMismatch(b, sk, route)
            <==> forall k :: k in b.pending && b.pending[k].sessionKey == sk ==>
                   b.pending[k].routeKnown && b.pending[k].route == route
  {
  }

  lemma JudgedReusable(b: Core, sk: Digest, route: Digest, now: Time)
    ensures var j, was := Judged(b, sk, route, now), SessionAt(b, sk);
            && j == was.(tainted := j.tainted, updatedAt := j.updatedAt)
            && (j.tainted <==> was.tainted || RouteMismatch(b, sk, route))
  {
  }

  lemma DecideExactly(cfg: Config, s: Session, route: Digest, signals: Signals)
    requires route != "" && (s.hasRoute ==> s.route != "")
    ensures var d, same := Decide(cfg, s, route, signals), s.hasRoute && !s.tainted && s.route == route;
            && (d.relation == Same <==> same) && (d.relation == Changed <==> !same && s.hasRoute)
            && (d.reject <==> !same && signals.hasCompaction && cfg.policy == Block)
            && (d.strip <==> if same then s.overflow && (signals.hasReasoning || signals.hasCompaction)
                             else signals.RouteBound() && !d.reject)
            && (forall f :: f in d.blocked <==> same && !d.strip && f in signals.items && Barred(s, f, route))
  {
  }

  lemma GroundIsFresh(cfg: Config, s: World, e: Event)
    requires Enabled(cfg, s, e) && e.Prepare?
    ensures Fresh(cfg, Ground(cfg, s.core, e), e.w.now)
  {
    PurgeIsFresh(cfg, s.core, s.clock, e.w);
  }

  lemma LetThroughIsTrusted(cfg: Config, s: World, e: Event)
    requires Inv(cfg, s) && Enabled(cfg, s, e) && LetThrough(cfg, s.core, e)
    ensures Trusted(cfg, Ground(cfg, s.core, e), e, Answer(cfg, s.core, e).blocked)
  {
    var b := Ground(cfg, s.core, e);
    GroundKeepsSound(cfg, s, e);
    assert e.sk != "" && e.known;
    assert e.sk in b.sessions && !RouteMismatch(b, e.sk, e.route);
    SessionAtOK(cfg, b, e.sk, e.w.now);
    GroundIsFresh(cfg, s, e);
    forall k | k in b.pending && b.pending[k].sessionKey == e.sk
      ensures b.pending[k].routeKnown && b.pending[k].route == e.route
    {
      assert CandidateOK(b.pending[k], b.sequence, e.w.now);
      assert RouteKey(b.pending[k]) == e.route;
    }
  }

  /** Run safety: in every run, route-bound state is let through only for an untainted, unexpired session
      whose committed route is the selected one, with nothing else in flight on another or unknown route and
      every barred item blocked; and that route was committed by the success of a latest candidate, in this run
      or in what the store was restored from. */
  lemma RunSafety(cfg: Config, start: World, es: seq<Event>, e: Event)
    requires IsRun(cfg, start, es + [e]) && LetThrough(cfg, Play(cfg, start, es).core, e)
    ensures var c := Play(cfg, start, es).core;
            && Trusted(cfg, Ground(cfg, c, e), e, Answer(cfg, c, e).blocked)
            && var n := Ground(cfg, c, e).sessions[e.sk].sequence;
            && BindingHasOrigin(cfg, start, es, e.sk, e.route, n)
            && (start.core == EMPTY_CORE ==> exists i, j :: CommittedBy(cfg, start, es, i, j, e.sk, e.route, n))
  {
    var w := Play(cfg, start, es);
    assert (es + [e])[..|es|] == es;
    RunKeepsInv(cfg, start, es);
    LetThroughIsTrusted(cfg, w, e);
    GroundIsBackground(cfg, w.core, e);
    assert Spared(w.core, Ground(cfg, w.core, e), EarlyRemoves(cfg, w.core, e), e.sk);
    RouteProvenance(cfg, start, es, e.sk);
  }
}
