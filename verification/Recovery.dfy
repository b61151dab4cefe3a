// Recovery: one accepted request that succeeds makes a session usable on its route, whatever it was before.
module Recovery {
  import opened Routes
  import opened Retirement
  import opened Protocol
  import opened Footprint
  import opened Events
  import opened Invariant
  import opened Runs
  import opened Sweeping
  import opened Meanwhile

  /** The prepare is accepted on a session with nothing else in flight, below the caps. */
  ghost predicate AcceptsAlone(cfg: Config, s: World, e: Event) {
    && Inv(cfg, s) && Enabled(cfg, s, e) && Registers(cfg, s.core, e) && e.known
    && var b := Ground(cfg, s.core, e);
    && (e.sk in b.sessions || |b.sessions| < cfg.maxSessions)
    && !InFlight(b, e.sk)
    && |b.pending| < cfg.maxPending
  }

  /** Below the caps registering trims nothing. */
  lemma AcceptedState(cfg: Config, s: World, e: Event)
    requires AcceptsAlone(cfg, s, e)
    ensures var b, p := Ground(cfg, s.core, e), Entrant(cfg, s.core, e);
            var was := SessionAt(b, e.sk);
            && Apply(cfg, s.core, e) == Core(b.sessions[e.sk := was.(updatedAt := e.w.now)], b.pending[e.pk := p],
                                             p.sequence)
            && (was.tainted ==> p.canClearTaint && p.cleanStart)
            && p.observedAt == e.w.now && p.sequence == b.sequence + 1
            && p.sessionKey == e.sk && p.routeKnown && p.route == e.route
  {
    var b, p := Ground(cfg, s.core, e), Entrant(cfg, s.core, e);
    RegistersBy(cfg, s.core, e);
    GroundKeepsSound(cfg, s, e);
    CardReplace(b.sessions, e.sk, SessionAt(b, e.sk).(updatedAt := e.w.now));
    CardReplace(b.pending, e.pk, p);
    assert Judged(b, e.sk, e.route, e.w.now) == SessionAt(b, e.sk);
  }

  /** The session is still there, and the candidate still alone, when the completion arrives in time. */
  lemma StillAlone(cfg: Config, s: World, e: Event, sk: Digest, pk: Digest, at: Time)
    requires Inv(cfg, s) && Enabled(cfg, s, e) && e.Completion? && e.pk == pk != "" && Roomy(cfg, s.core)
    requires sk in s.core.sessions && s.core.sessions[sk].updatedAt == at && e.w.now - at <= cfg.ttl
    requires OwnPending(s.core, sk).Keys == {pk} && s.core.pending[pk].observedAt == at
    ensures var b := Ground(cfg, s.core, e);
            && Settles(cfg, s.core, e) && Settling(cfg, s.core, e) == s.core.pending[pk]
            && SessionAt(b, sk) == s.core.sessions[sk] && !InFlight(b, sk)
  {
    var own := OwnPending(s.core, sk);
    assert pk in own;
    if e.w.swept {
      SweepIsLocal(cfg, s, e.w.now, e.w.order, sk);
    }
    var b := Ground(cfg, s.core, e);
    GroundIsBackground(cfg, s.core, e);
    forall k | k in b.pending
      ensures b.pending[k].sessionKey != sk
    {
      assert k in own <==> b.pending[k].sessionKey == sk;
    }
  }

  lemma FinishedClean(cfg: Config, b: Core, p: Pending, now: Time)
    requires Sound(cfg, b, now) && CandidateOK(p, b.sequence, now)
    requires p.routeKnown && !InFlight(b, p.sessionKey)
    requires SessionAt(b, p.sessionKey).tainted ==> p.canClearTaint && p.cleanStart
    requires SessionAt(b, p.sessionKey).sequence < p.sequence
    ensures var t := Finished(b, p, now); !t.tainted && t.hasRoute && t.route == p.route && t.updatedAt == now
  {
    SettledBinding(cfg, b, p, now);
  }

  /** What the request leaves when it succeeds within the TTL. */
  ghost predicate Recovered(cfg: Config, s: World, sk: Digest, route: Digest, at: Time) {
    && Inv(cfg, s) && Roomy(cfg, s.core) && s.clock >= at
    && sk in s.core.sessions && !InFlight(s.core, sk)
    && var t := s.core.sessions[sk];
       !t.tainted && t.hasRoute && t.route == route && t.updatedAt == at
  }

  lemma BackgroundKeepsRoom(cfg: Config, c: Core, d: Core, removed: set<Digest>)
    requires Background(c, d, removed) && Roomy(cfg, c)
    ensures Roomy(cfg, d)
  {
    forall o | o in d.sessions
      ensures o in c.sessions.Keys + Active(c.pending)
    {
      assert Spared(c, d, removed, o);
    }
    forall k | k in d.pending
      ensures d.pending[k].sessionKey in Active(c.pending)
    {
      assert k in c.pending;
    }
    CardSubset(d.sessions.Keys + Active(d.pending), c.sessions.Keys + Active(c.pending));
  }

  /** A success of a session that is in the store changes that entry and evicts nobody. */
  lemma ConcludeInPlace(cfg: Config, b: Core, now: Time, p: Pending)
    requires p.sessionKey in b.sessions && |b.sessions| <= cfg.maxSessions
    ensures var d := Conclude(cfg, b, now, p, Succeeded);
            d.pending == b.pending && d.sessions == b.sessions[p.sessionKey := Finished(b, p, now)]
  {
  }

  lemma ReplaceKeepsRoom(cfg: Config, b: Core, d: Core, sk: Digest, t: Session)
    requires Roomy(cfg, b) && sk in b.sessions && d.pending == b.pending && d.sessions == b.sessions[sk := t]
    ensures Roomy(cfg, d)
  {
    assert d.sessions.Keys == b.sessions.Keys;
  }

  lemma GroundKeepsRoom(cfg: Config, c: Core, e: Event)
    requires !e.Reset? && Roomy(cfg, c)
    ensures Roomy(cfg, Ground(cfg, c, e))
  {
    GroundIsBackground(cfg, c, e);
    BackgroundKeepsRoom(cfg, c, Ground(cfg, c, e), EarlyRemoves(cfg, c, e));
  }

  lemma SuccessRecovers(cfg: Config, s: World, e: Event, p: Pending)
    requires Inv(cfg, s) && Enabled(cfg, s, e) && Settles(cfg, s.core, e) && e.outcome.Succeeded? && Roomy(cfg, s.core)
    requires p == Settling(cfg, s.core, e)
    requires p.routeKnown
    requires var b := Ground(cfg, s.core, e);
             && p.sessionKey in b.sessions && !InFlight(b, p.sessionKey)
             && (b.sessions[p.sessionKey].tainted ==> p.canClearTaint && p.cleanStart)
             && b.sessions[p.sessionKey].sequence < p.sequence
    ensures Recovered(cfg, Next(cfg, s, e), p.sessionKey, p.route, e.w.now)
  {
    var b, d := Ground(cfg, s.core, e), Apply(cfg, s.core, e);
    GroundKeepsSound(cfg, s, e);
    SettlingOK(cfg, s, e);
    FinishedClean(cfg, b, p, e.w.now);
    GroundKeepsRoom(cfg, s.core, e);
    ConcludeInPlace(cfg, b, e.w.now, p);
    assert d == Conclude(cfg, b, e.w.now, p, Succeeded);
    ReplaceKeepsRoom(cfg, b, d, p.sessionKey, Finished(b, p, e.w.now));
    EventKeepsInv(cfg, s, e);
  }

  /** The session waits for its only candidate, which entered at `at` and may bind and untaint it. */
  ghost predicate AwaitsAlone(cfg: Config, s: World, sk: Digest, pk: Digest, route: Digest, at: Time) {
    && Inv(cfg, s) && at <= s.clock && sk in s.core.sessions && OwnPending(s.core, sk).Keys == {pk}
    && var t, p := s.core.sessions[sk], s.core.pending[pk];
    && t.updatedAt == at && p.observedAt == at && p.routeKnown && p.route == route
    && t.sequence < p.sequence && (t.tainted ==> p.canClearTaint && p.cleanStart)
  }

  lemma AcceptedAwaits(cfg: Config, s: World, e: Event)
    requires AcceptsAlone(cfg, s, e)
    ensures AwaitsAlone(cfg, Next(cfg, s, e), e.sk, e.pk, e.route, e.w.now)
  {
    EventKeepsInv(cfg, s, e);
    AcceptedState(cfg, s, e);
    GroundKeepsSound(cfg, s, e);
    SessionAtOK(cfg, Ground(cfg, s.core, e), e.sk, e.w.now);
    AloneInFlight(Ground(cfg, s.core, e), Next(cfg, s, e).core, e.pk, e.sk);
  }

  lemma AwaitsOn(cfg: Config, s: World, es: seq<Event>, sk: Digest, pk: Digest, route: Digest, at: Time)
    requires AwaitsAlone(cfg, s, sk, pk, route, at) && Playable(cfg, s, es) && Elsewhere(cfg, s, es, sk)
    requires Play(cfg, s, es).clock - at <= cfg.ttl
    ensures AwaitsAlone(cfg, Play(cfg, s, es), sk, pk, route, at)
  {
    ElsewhereKeeps(cfg, s, es, sk);
    var w := Play(cfg, s, es);
    assert SessionAt(w.core, sk) == s.core.sessions[sk];
    assert pk in OwnPending(w.core, sk);
    assert w.core.pending[pk] == OwnPending(w.core, sk)[pk] == OwnPending(s.core, sk)[pk];
  }

  lemma AwaitedSuccess(cfg: Config, s: World, f: Event, sk: Digest, pk: Digest, route: Digest, at: Time)
    requires AwaitsAlone(cfg, s, sk, pk, route, at) && Roomy(cfg, s.core) && Enabled(cfg, s, f)
    requires f.Completion? && f.pk == pk && f.outcome.Succeeded? && f.w.now - at <= cfg.ttl
    ensures Recovered(cfg, Next(cfg, s, f), sk, route, f.w.now)
  {
    assert pk in OwnPending(s.core, sk);
    StillAlone(cfg, s, f, sk, pk, at);
    SuccessRecovers(cfg, s, f, s.core.pending[pk]);
  }

  /** Recovery, whatever the store does meanwhile for other sessions: a request accepted alone, succeeding
      within the TTL below the caps, leaves its session untainted and bound to its route, whether the session
      was new, tainted or bound to another route. */
  lemma RouteRecovery(cfg: Config, s: World, e: Event, es: seq<Event>, f: Event)
    requires AcceptsAlone(cfg, s, e)
    requires Playable(cfg, Next(cfg, s, e), es) && Elsewhere(cfg, Next(cfg, s, e), es, e.sk)
    requires var w := Play(cfg, Next(cfg, s, e), es);
             && Roomy(cfg, w.core) && Enabled(cfg, w, f)
             && f.Completion? && f.pk == e.pk && f.outcome.Succeeded? && f.w.now - e.w.now <= cfg.ttl
    ensures Recovered(cfg, Next(cfg, Play(cfg, Next(cfg, s, e), es), f), e.sk, e.route, f.w.now)
  {
    AcceptedAwaits(cfg, s, e);
    AwaitsOn(cfg, Next(cfg, s, e), es, e.sk, e.pk, e.route, e.w.now);
    AwaitedSuccess(cfg, Play(cfg, Next(cfg, s, e), es), f, e.sk, e.pk, e.route, e.w.now);
  }

  lemma AloneInFlight(b: Core, d: Core, pk: Digest, sk: Digest)
    requires !InFlight(b, sk) && pk in d.pending && d.pending[pk].sessionKey == sk
    requires d.pending == b.pending[pk := d.pending[pk]]
    ensures OwnPending(d, sk).Keys == {pk}
  {
  }

  lemma RecoveredOn(cfg: Config, s: World, sk: Digest, route: Digest, at: Time, es: seq<Event>)
    requires Recovered(cfg, s, sk, route, at) && Playable(cfg, s, es) && Elsewhere(cfg, s, es, sk)
    requires Roomy(cfg, Play(cfg, s, es).core) && Play(cfg, s, es).clock - at <= cfg.ttl
    ensures Recovered(cfg, Play(cfg, s, es), sk, route, at)
    ensures Play(cfg, s, es).core.sessions[sk] == s.core.sessions[sk]
  {
    ElsewhereKeeps(cfg, s, es, sk);
    NoneInFlight(s.core, sk);
    NoneInFlight(Play(cfg, s, es).core, sk);
    assert SessionAt(Play(cfg, s, es).core, sk) == s.core.sessions[sk];
  }

  lemma NoneInFlight(c: Core, sk: Digest)
    ensures InFlight(c, sk) <==> OwnPending(c, sk) != map[]
  {
    if k :| k in c.pending && c.pending[k].sessionKey == sk {
      assert k in OwnPending(c, sk);
    }
  }

  /** The session's next request on the recovered route, within the TTL and whatever the store does meanwhile
      for other sessions, is answered Same, is never rejected, loses exactly the items barred there, and is
      stripped whole only by an overflowed barrier. */
  lemma RecoveredPasses(cfg: Config, s: World, sk: Digest, route: Digest, at: Time, es: seq<Event>, e: Event)
    requires Recovered(cfg, s, sk, route, at) && Playable(cfg, s, es) && Elsewhere(cfg, s, es, sk)
    requires Roomy(cfg, Play(cfg, s, es).core) && Enabled(cfg, Play(cfg, s, es), e)
    requires e.Prepare? && e.sk == sk && e.known && e.route == route && e.w.now - at <= cfg.ttl
    ensures PassesOn(s.core.sessions[sk], route, e.signals, Answer(cfg, Play(cfg, s, es).core, e))
  {
    RecoveredOn(cfg, s, sk, route, at, es);
    NextPasses(cfg, Play(cfg, s, es), sk, route, at, e);
  }

  /** The answer Same, with nothing taken but what the barrier of the session holds back. */
  ghost predicate PassesOn(t: Session, route: Digest, signals: Signals, d: Decision) {
    && d.relation == Same && !d.reject
    && (d.strip <==> t.overflow && (signals.hasReasoning || signals.hasCompaction))
    && (forall f :: f in d.blocked <==> !d.strip && f in signals.items && Barred(t, f, route))
  }

  lemma NextPasses(cfg: Config, s: World, sk: Digest, route: Digest, at: Time, e: Event)
    requires Recovered(cfg, s, sk, route, at) && Enabled(cfg, s, e)
    requires e.Prepare? && e.sk == sk && e.known && e.route == route && e.w.now - at <= cfg.ttl
    ensures PassesOn(s.core.sessions[sk], route, e.signals, Answer(cfg, s.core, e))
  {
    GroundIsLocal(cfg, s, e);
    NoneInFlight(s.core, sk);
    UnmatchedAlone(Ground(cfg, s.core, e), sk, route);
    DecideExactly(cfg, s.core.sessions[sk], route, e.signals);
  }

  lemma UnmatchedAlone(b: Core, sk: Digest, route: Digest)
    requires OwnPending(b, sk) == map[]
    ensures !RouteMismatch(b, sk, route)
  {
    assert forall k :: k in b.pending && b.pending[k].sessionKey == sk ==> k in OwnPending(b, sk);
  }
}
