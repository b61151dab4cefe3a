// What a session keeps while the store serves other sessions: its entry, unless that expires, and its own
// candidates.
module Meanwhile {
  import opened Routes
  import opened Retirement
  import opened Eviction
  import opened Protocol
  import opened Footprint
  import opened Events
  import opened Invariant
  import opened Runs
  import opened Sweeping

  // ---- One event ----

  /** The session's own candidates are in flight after the event as before. */
  ghost predicate OwnStay(cfg: Config, c: Core, e: Event, sk: Digest) {
    forall k :: k in OwnPending(c, sk) ==> k in Apply(cfg, c, e).pending && Apply(cfg, c, e).pending[k] == c.pending[k]
  }

  /** The event is about another session; it takes none of this one's candidates, and at most lets its entry
      expire. */
  ghost predicate Undisturbing(cfg: Config, c: Core, e: Event, sk: Digest) {
    && !e.Reset? && Subject(cfg, c, e) != sk && OwnStay(cfg, c, e, sk)
    && (sk in Removes(cfg, c, e) ==> Purges(e) && Expired(cfg, SessionAt(c, sk).updatedAt, e.w.now))
  }

  /** At a later time the entry is as it was, or expired and forgotten. */
  predicate KeptUntil(cfg: Config, was: Session, left: Session, now: Time) {
    left == was || (left == BLANK && Expired(cfg, was.updatedAt, now))
  }

  lemma EntrantIsForeign(cfg: Config, c: Core, e: Event, sk: Digest)
    requires Registers(cfg, c, e) && Subject(cfg, c, e) != sk
    ensures Entrant(cfg, c, e).sessionKey != sk
  {
    RegistersBy(cfg, c, e);
  }

  /** A candidate that stays in flight was in the ground state. */
  lemma StayedInGround(cfg: Config, c: Core, e: Event, sk: Digest, k: Digest)
    requires Undisturbing(cfg, c, e, sk) && k in OwnPending(c, sk)
    ensures k in Ground(cfg, c, e).pending && Ground(cfg, c, e).pending[k] == c.pending[k]
  {
    CandidatesAfter(cfg, c, e, k);
    GroundIsBackground(cfg, c, e);
    if Registers(cfg, c, e) {
      EntrantIsForeign(cfg, c, e, sk);
    }
  }

  lemma StayedIsFresh(cfg: Config, s: World, e: Event, sk: Digest, k: Digest)
    requires Enabled(cfg, s, e) && Purges(e) && Undisturbing(cfg, s.core, e, sk) && k in OwnPending(s.core, sk)
    ensures !Expired(cfg, s.core.pending[k].observedAt, e.w.now)
  {
    StayedInGround(cfg, s.core, e, sk, k);
    PurgeIsFresh(cfg, s.core, s.clock, e.w);
    assert k in Purge(cfg, s.core, e.w).pending;
    PurgeIsBackground(cfg, s.core, e.w);
  }

  lemma NothingLost(cfg: Config, s: World, e: Event, sk: Digest)
    requires Enabled(cfg, s, e) && Undisturbing(cfg, s.core, e, sk)
    ensures !LostToLimits(cfg, s.core, e, sk)
  {
    if Purges(e) && ExpiresOwn(cfg, s.core, e.w, sk) {
      var k :| k in s.core.pending && s.core.pending[k].sessionKey == sk
               && Expired(cfg, s.core.pending[k].observedAt, e.w.now);
      StayedIsFresh(cfg, s, e, sk, k);
    }
    var b, d := Ground(cfg, s.core, e), Apply(cfg, s.core, e);
    if LostOwn(b, d, sk) {
      var k :| k in b.pending && b.pending[k].sessionKey == sk && (k !in d.pending || d.pending[k] != b.pending[k]);
      GroundIsBackground(cfg, s.core, e);
    }
  }

  lemma OwnPendingStays(cfg: Config, c: Core, e: Event, sk: Digest)
    requires Undisturbing(cfg, c, e, sk)
    ensures OwnPending(Apply(cfg, c, e), sk) == OwnPending(c, sk)
  {
    forall k | k in OwnPending(Apply(cfg, c, e), sk)
      ensures k in OwnPending(c, sk)
    {
      CandidatesAfter(cfg, c, e, k);
      if Registers(cfg, c, e) {
        EntrantIsForeign(cfg, c, e, sk);
      }
    }
  }

  lemma UndisturbedSession(cfg: Config, s: World, e: Event, sk: Digest)
    requires Enabled(cfg, s, e) && Undisturbing(cfg, s.core, e, sk)
    ensures KeptUntil(cfg, SessionAt(s.core, sk), SessionAt(Apply(cfg, s.core, e), sk), Tick(s, e))
  {
    NothingLost(cfg, s, e, sk);
    SessionIsolation(cfg, s.core, e, sk);
  }

  // ---- Below the caps ----

  /** The event meets neither cap. */
  ghost predicate Uncrowded(cfg: Config, c: Core, e: Event) {
    && |c.sessions.Keys + Active(c.pending) + {Subject(cfg, c, e)}| <= cfg.maxSessions
    && |c.pending| < cfg.maxPending
  }

  lemma GroundFits(cfg: Config, c: Core, e: Event)
    requires !e.Reset?
    ensures var b := Ground(cfg, c, e);
            b.sessions.Keys <= c.sessions.Keys + Active(c.pending) && b.pending.Keys <= c.pending.Keys
  {
    GroundIsBackground(cfg, c, e);
    forall o | o in Ground(cfg, c, e).sessions
      ensures o in c.sessions.Keys + Active(c.pending)
    {
      assert Spared(c, Ground(cfg, c, e), EarlyRemoves(cfg, c, e), o);
    }
  }

  lemma PutWithRoom(cfg: Config, b: Core, n: nat, sk: Digest, s: Session, room: set<Digest>)
    requires b.sessions.Keys + {sk} <= room && |room| <= cfg.maxSessions
    ensures Put(cfg, b.(sequence := n), sk, s) == Core(b.sessions[sk := s], b.pending, n)
    ensures StoreRemoves(cfg, b, sk, s) == {}
  {
    assert b.sessions[sk := s].Keys == b.sessions.Keys + {sk};
    CardSubset(b.sessions[sk := s].Keys, room);
  }

  lemma RegisterWithRoom(cfg: Config, b: Core, w: Call, pk: Digest, s: Session, p: Pending, room: set<Digest>)
    requires b.sessions.Keys + {p.sessionKey} <= room && |room| <= cfg.maxSessions && |b.pending| < cfg.maxPending
    ensures Register(cfg, b, w, pk, s, p)
            == Core(b.sessions[p.sessionKey := s.(updatedAt := w.now)], b.pending[pk := p], p.sequence)
    ensures RegisterRemoves(cfg, b, w, pk, s, p) == {}
  {
    assert b.(sequence := b.sequence) == b;
    PutWithRoom(cfg, b, b.sequence, p.sessionKey, s.(updatedAt := w.now), room);
    CardReplace(b.pending, pk, p);
  }

  lemma RegisteringEvictsNobody(cfg: Config, c: Core, e: Event)
    requires Uncrowded(cfg, c, e) && Registers(cfg, c, e)
    ensures LateRemoves(cfg, c, e) == {}
    ensures Apply(cfg, c, e).pending == Ground(cfg, c, e).pending[e.pk := Entrant(cfg, c, e)]
  {
    var b, room := Ground(cfg, c, e), c.sessions.Keys + Active(c.pending) + {Subject(cfg, c, e)};
    GroundFits(cfg, c, e);
    RegistersBy(cfg, c, e);
    CardSubset(b.pending.Keys, c.pending.Keys);
    RegisterWithRoom(cfg, b, e.w, e.pk, Admitted(cfg, c, e), Entrant(cfg, c, e), room);
  }

  lemma WritingRemoves(cfg: Config, c: Core, e: Event)
    requires !Registers(cfg, c, e)
    ensures LateRemoves(cfg, c, e) <= StoreRemoves(cfg, Ground(cfg, c, e), Subject(cfg, c, e), Own(cfg, c, e))
  {
  }

  lemma UncrowdedEvictsNobody(cfg: Config, c: Core, e: Event)
    requires !e.Reset? && Uncrowded(cfg, c, e)
    ensures LateRemoves(cfg, c, e) == {}
  {
    if Registers(cfg, c, e) {
      RegisteringEvictsNobody(cfg, c, e);
    } else {
      var b := Ground(cfg, c, e);
      GroundFits(cfg, c, e);
      WritingRemoves(cfg, c, e);
      PutWithRoom(cfg, b, b.sequence, Subject(cfg, c, e), Own(cfg, c, e),
                  c.sessions.Keys + Active(c.pending) + {Subject(cfg, c, e)});
    }
  }

  lemma SweepEvictsNobody(cfg: Config, s: World, w: Call, sk: Digest)
    requires Inv(cfg, s) && Roomy(cfg, s.core) && sk in PurgeRemoves(cfg, s.core, w)
    ensures w.swept && Expired(cfg, SessionAt(s.core, sk).updatedAt, w.now)
  {
    ExpiryKeepsRoom(cfg, s.core, w.now);
    SweepClosedForm(cfg, ExpireSessions(cfg, s.core, w.now), w.now, w.order);
  }

  lemma UnexpiredFlyOn(cfg: Config, c: Core, e: Event, k: Digest)
    requires !e.Reset? && Uncrowded(cfg, c, e) && k in c.pending && !About(e, k) && k != ""
    requires Purges(e) ==> !Expired(cfg, c.pending[k].observedAt, e.w.now)
    ensures k in Apply(cfg, c, e).pending && Apply(cfg, c, e).pending[k] == c.pending[k]
  {
    StaysInGround(cfg, c, e, k);
    if Registers(cfg, c, e) {
      RegisteringEvictsNobody(cfg, c, e);
    } else {
      OnlyPreparesEnter(cfg, c, e);
    }
  }

  lemma StaysInGround(cfg: Config, c: Core, e: Event, k: Digest)
    requires !e.Reset? && k in c.pending && !About(e, k)
    requires Purges(e) ==> !Expired(cfg, c.pending[k].observedAt, e.w.now)
    ensures k in Ground(cfg, c, e).pending && Ground(cfg, c, e).pending[k] == c.pending[k]
  {
    GroundIsBackground(cfg, c, e);
    if Purges(e) && k !in Purge(cfg, c, e.w).pending {
      OnlyExpiredLeave(cfg, ExpireSessions(cfg, c, e.w.now), e.w.now, e.w.order, k);
    }
  }

  lemma OwnFlyOn(cfg: Config, s: World, e: Event, sk: Digest)
    requires Inv(cfg, s) && !e.Reset? && Uncrowded(cfg, s.core, e) && OwnUntouched(cfg, s.core, e, sk)
    ensures OwnStay(cfg, s.core, e, sk)
  {
    forall k | k in OwnPending(s.core, sk)
      ensures k in Apply(cfg, s.core, e).pending && Apply(cfg, s.core, e).pending[k] == s.core.pending[k]
    {
      UnexpiredFlyOn(cfg, s.core, e, k);
    }
  }

  /** The event is about none of the session's requests, and finds none of them past its TTL. */
  predicate OwnUntouched(cfg: Config, c: Core, e: Event, sk: Digest) {
    forall k | k in OwnPending(c, sk) ::
      !About(e, k) && (Purges(e) ==> !Expired(cfg, c.pending[k].observedAt, e.w.now))
  }

  lemma OnlyExpiryRemoves(cfg: Config, s: World, e: Event, sk: Digest)
    requires Inv(cfg, s) && !e.Reset? && Uncrowded(cfg, s.core, e) && sk in Removes(cfg, s.core, e)
    ensures Purges(e) && Expired(cfg, SessionAt(s.core, sk).updatedAt, e.w.now)
  {
    var all := s.core.sessions.Keys + Active(s.core.pending);
    UncrowdedEvictsNobody(cfg, s.core, e);
    CardSubset(all, all + {Subject(cfg, s.core, e)});
    SweepEvictsNobody(cfg, s, e.w, sk);
  }

  /** Below the caps, an event about another session and other requests disturbs nobody whose candidates are
      within their TTL: all this can be told before the event. */
  lemma UncrowdedIsUndisturbing(cfg: Config, s: World, e: Event, sk: Digest)
    requires Inv(cfg, s) && !e.Reset? && Uncrowded(cfg, s.core, e)
    requires Subject(cfg, s.core, e) != sk && OwnUntouched(cfg, s.core, e, sk)
    ensures Undisturbing(cfg, s.core, e, sk)
  {
    OwnFlyOn(cfg, s, e, sk);
    if sk in Removes(cfg, s.core, e) {
      OnlyExpiryRemoves(cfg, s, e, sk);
    }
  }

  // ---- Runs ----

  /** Every event of the run leaves the session to itself. */
  ghost predicate Elsewhere(cfg: Config, s: World, es: seq<Event>, sk: Digest)
    decreases |es|
  {
    es == [] ||
    var front := es[..|es| - 1];
    Elsewhere(cfg, s, front, sk) && Undisturbing(cfg, Play(cfg, s, front).core, es[|es| - 1], sk)
  }

  lemma ClockAdvances(cfg: Config, s: World, e: Event)
    requires Enabled(cfg, s, e)
    ensures s.clock <= Tick(s, e) == Next(cfg, s, e).clock
  {
  }

  lemma {:induction false} ElsewhereKeeps(cfg: Config, s: World, es: seq<Event>, sk: Digest)
    requires Inv(cfg, s) && Playable(cfg, s, es) && Elsewhere(cfg, s, es, sk)
    ensures var w := Play(cfg, s, es);
            && Inv(cfg, w) && s.clock <= w.clock
            && OwnPending(w.core, sk) == OwnPending(s.core, sk)
            && KeptUntil(cfg, SessionAt(s.core, sk), SessionAt(w.core, sk), w.clock)
    decreases |es|
  {
    if es == [] {
    } else {
      var front, e := es[..|es| - 1], es[|es| - 1];
      var w := Play(cfg, s, front);
      ElsewhereKeeps(cfg, s, front, sk);
      EventKeepsInv(cfg, w, e);
      ClockAdvances(cfg, w, e);
      OwnPendingStays(cfg, w.core, e, sk);
      UndisturbedSession(cfg, w, e, sk);
      BlankIsExpired(cfg, w);
    }
  }

  lemma BlankIsExpired(cfg: Config, s: World)
    requires Inv(cfg, s)
    ensures Expired(cfg, BLANK.updatedAt, s.clock)
  {
  }
}
