// What every event keeps: bounded maps, well-formed barriers, stamps within the clock, and sequences that
// tell candidates and commits apart.
module Invariant {
  import opened Routes
  import opened Retirement
  import opened Protocol
  import opened Footprint
  import opened Events

  ghost predicate SessionOK(s: Session, sequence: nat, clock: Time) {
    && BarrierOK(s, sequence)
    && s.sequence <= sequence
    && (s.hasRoute <==> s.route != "")
    && s.updatedAt <= clock
    && (s.updatedAt == 0 ==> s == BLANK)
  }

  ghost predicate CandidateOK(p: Pending, sequence: nat, clock: Time) {
    && p.sessionKey != ""
    && (p.routeKnown <==> p.route != "")
    && 1 <= p.sequence <= sequence
    && 0 < p.observedAt <= clock
    && (p.canClearTaint ==> p.cleanStart && p.routeKnown)
    && |p.retired| <= MAX_RETIRED && "" !in p.retired
    && (p.overflow ==> p.retired == [])
    && (p.overflow || p.retired != [] || !p.routeKnown ==> p.cleanStart)
  }

  /** Everything but the cap on candidates, which trimming restores. */
  ghost predicate Sound(cfg: Config, c: Core, clock: Time) {
    && cfg.Valid() && cfg.ttl < clock
    && |c.sessions| <= cfg.maxSessions
    && "" !in c.sessions && "" !in c.pending
    && (forall k :: k in c.sessions ==> SessionOK(c.sessions[k], c.sequence, clock))
    && (forall k :: k in c.pending ==> CandidateOK(c.pending[k], c.sequence, clock))
    && (forall j, k :: j in c.pending && k in c.pending && j != k ==> c.pending[j].sequence != c.pending[k].sequence)
    && (forall k, o :: k in c.pending && o in c.sessions ==> c.pending[k].sequence != c.sessions[o].sequence)
  }

  ghost predicate Inv(cfg: Config, s: World) {
    Sound(cfg, s.core, s.clock) && |s.core.pending| <= cfg.maxPending
  }

  // ---- Steps ----

  lemma OlderIsOK(s: Session, n: nat, m: nat, t: Time, u: Time)
    requires SessionOK(s, n, t) && n <= m && t <= u
    ensures SessionOK(s, m, u)
  {
  }

  lemma SparedKeepsOK(c: Core, d: Core, removed: set<Digest>, clock: Time, at: Time, o: Digest)
    requires forall k :: k in c.pending ==> c.pending[k].sessionKey != ""
    requires "" !in c.sessions && d.sequence == c.sequence && clock <= at && 0 < at
    requires o in c.sessions ==> SessionOK(c.sessions[o], c.sequence, clock)
    requires o in d.sessions && Spared(c, d, removed, o)
    requires (o in c.sessions && d.sessions[o] == c.sessions[o]) || d.sessions[o].updatedAt == at
    ensures o != "" && SessionOK(d.sessions[o], d.sequence, at)
    ensures d.sessions[o].sequence == 0 || (o in c.sessions && d.sessions[o].sequence == c.sessions[o].sequence)
  {
  }

  lemma BackgroundKeepsSound(cfg: Config, c: Core, d: Core, removed: set<Digest>, clock: Time, at: Time)
    requires Sound(cfg, c, clock) && Background(c, d, removed) && Stamped(cfg, c, d, at) && clock <= at
    ensures Sound(cfg, d, at)
    ensures |d.pending| <= |c.pending|
  {
    CardSubset(d.pending.Keys, c.pending.Keys);
    forall k | k in c.pending
      ensures c.pending[k].sessionKey != "" && CandidateOK(c.pending[k], c.sequence, at)
    {
      assert CandidateOK(c.pending[k], c.sequence, clock);
    }
    forall o | o in d.sessions
      ensures o != "" && SessionOK(d.sessions[o], d.sequence, at)
      ensures d.sessions[o].sequence == 0 || (o in c.sessions && d.sessions[o].sequence == c.sessions[o].sequence)
    {
      SparedKeepsOK(c, d, removed, clock, at, o);
    }
  }

  lemma StoreKeepsSound(cfg: Config, c: Core, n: nat, sk: Digest, s: Session, clock: Time)
    requires Sound(cfg, c, clock) && c.sequence <= n && sk != "" && SessionOK(s, n, clock)
    requires forall k :: k in c.pending ==> c.pending[k].sequence != s.sequence
    ensures Sound(cfg, Put(cfg, c.(sequence := n), sk, s), clock)
  {
    var d := Put(cfg, c.(sequence := n), sk, s);
    forall o | o in d.sessions
      ensures o != "" && SessionOK(d.sessions[o], n, clock)
    {
      if o != sk {
        OlderIsOK(c.sessions[o], c.sequence, n, clock, clock);
      }
    }
    forall k | k in d.pending
      ensures CandidateOK(d.pending[k], n, clock)
    {
      assert CandidateOK(c.pending[k], c.sequence, clock);
    }
  }

  lemma EnterKeepsSound(cfg: Config, c: Core, pk: Digest, p: Pending, clock: Time)
    requires Sound(cfg, c, clock) && pk != "" && p.sequence == c.sequence + 1 && CandidateOK(p, p.sequence, clock)
    ensures Sound(cfg, Enter(c, pk, p), clock)
  {
    var d := Enter(c, pk, p);
    forall o | o in d.sessions
      ensures SessionOK(d.sessions[o], d.sequence, clock)
      ensures d.sessions[o].sequence < p.sequence
    {
      OlderIsOK(c.sessions[o], c.sequence, d.sequence, clock, clock);
    }
    forall k | k in d.pending && k != pk
      ensures CandidateOK(d.pending[k], d.sequence, clock) && d.pending[k].sequence < p.sequence
    {
      assert CandidateOK(c.pending[k], c.sequence, clock);
    }
  }

  lemma SessionAtOK(cfg: Config, c: Core, sk: Digest, clock: Time)
    requires Sound(cfg, c, clock)
    ensures SessionOK(SessionAt(c, sk), c.sequence, clock)
    ensures forall k :: k in c.pending ==> c.pending[k].sequence != SessionAt(c, sk).sequence
  {
  }

  lemma RegisterKeepsInv(cfg: Config, c: Core, w: Call, pk: Digest, s: Session, p: Pending)
    requires Sound(cfg, c, w.now) && w.now <= w.late && pk != ""
    requires SessionOK(s, c.sequence, w.now)
    requires forall k :: k in c.pending ==> c.pending[k].sequence != s.sequence
    requires p.sequence == c.sequence + 1 && CandidateOK(p, p.sequence, w.now)
    ensures Inv(cfg, World(Register(cfg, c, w, pk, s, p), w.late))
  {
    var t := s.(updatedAt := w.now);
    var f := Put(cfg, c, p.sessionKey, t);
    assert c.(sequence := c.sequence) == c;
    StoreKeepsSound(cfg, c, c.sequence, p.sessionKey, t, w.now);
    EnterKeepsSound(cfg, f, pk, p, w.now);
    TrimPendingIsBackground(cfg, Enter(f, pk, p), w.late);
    BackgroundKeepsSound(cfg, Enter(f, pk, p), Register(cfg, c, w, pk, s, p),
                         TrimPendingRemoves(cfg, Enter(f, pk, p), w.late), w.now, w.late);
  }

  lemma LaterIsSound(cfg: Config, c: Core, t: Time, u: Time)
    requires Sound(cfg, c, t) && t <= u
    ensures Sound(cfg, c, u)
  {
  }

  lemma GroundKeepsSound(cfg: Config, s: World, e: Event)
    requires Inv(cfg, s) && Enabled(cfg, s, e) && (e.Prepare? || e.Snapshot? || (e.Completion? && e.pk != ""))
    ensures Sound(cfg, Ground(cfg, s.core, e), e.w.now) && |Ground(cfg, s.core, e).pending| <= cfg.maxPending
  {
    var b := Ground(cfg, s.core, e);
    GroundIsBackground(cfg, s.core, e);
    PurgeIsBackground(cfg, s.core, e.w);
    BackgroundKeepsSound(cfg, s.core, b, EarlyRemoves(cfg, s.core, e), s.clock, e.w.now);
  }

  lemma EntrantOK(cfg: Config, s: World, e: Event)
    requires Inv(cfg, s) && Enabled(cfg, s, e) && Registers(cfg, s.core, e)
    ensures var b := Ground(cfg, s.core, e);
            && Entrant(cfg, s.core, e).sequence == b.sequence + 1
            && CandidateOK(Entrant(cfg, s.core, e), b.sequence + 1, e.w.now)
  {
  }

  lemma AdmittedOK(cfg: Config, s: World, e: Event)
    requires Inv(cfg, s) && Enabled(cfg, s, e) && Registers(cfg, s.core, e)
    ensures var b := Ground(cfg, s.core, e);
            && SessionOK(Admitted(cfg, s.core, e), b.sequence, e.w.now)
            && forall k :: k in b.pending ==> b.pending[k].sequence != Admitted(cfg, s.core, e).sequence
  {
    GroundKeepsSound(cfg, s, e);
    SessionAtOK(cfg, Ground(cfg, s.core, e), e.sk, e.w.now);
  }

  lemma RegisteringKeepsInv(cfg: Config, s: World, e: Event)
    requires Inv(cfg, s) && Enabled(cfg, s, e) && Registers(cfg, s.core, e)
    ensures Inv(cfg, World(Apply(cfg, s.core, e), e.w.late))
  {
    GroundKeepsSound(cfg, s, e);
    EntrantOK(cfg, s, e);
    AdmittedOK(cfg, s, e);
    RegistersBy(cfg, s.core, e);
    RegisterKeepsInv(cfg, Ground(cfg, s.core, e), e.w, e.pk, Admitted(cfg, s.core, e), Entrant(cfg, s.core, e));
  }

  lemma RejectingKeepsInv(cfg: Config, s: World, e: Event)
    requires Inv(cfg, s) && Enabled(cfg, s, e) && RejectsTracked(cfg, s.core, e)
    ensures Inv(cfg, World(Apply(cfg, s.core, e), e.w.late))
  {
    GroundKeepsSound(cfg, s, e);
    var b := Ground(cfg, s.core, e);
    SessionAtOK(cfg, b, e.sk, e.w.now);
    var j := Judged(b, e.sk, e.route, e.w.now);
    var (t, n) := Retire(j, b.sequence, e.signals.items, e.route, true, e.w.now);
    RetireSpec(j, b.sequence, e.signals.items, e.route, true, e.w.now);
    StoreKeepsSound(cfg, b, n, e.sk, t, e.w.now);
    LaterIsSound(cfg, Put(cfg, b.(sequence := n), e.sk, t), e.w.now, e.w.late);
  }

  lemma SettledOK(cfg: Config, b: Core, p: Pending, now: Time)
    requires Sound(cfg, b, now) && CandidateOK(p, b.sequence, now)
    ensures var (s, n) := Settled(b, p, now);
            b.sequence <= n && SessionOK(s, n, now) && s.sequence == SessionAt(b, p.sessionKey).sequence
  {
    var s := SessionAt(b, p.sessionKey);
    SessionAtOK(cfg, b, p.sessionKey, now);
    if p.retired != [] && !p.overflow {
      RetireSpec(s, b.sequence, p.retired, p.route, p.routeKnown, now);
    }
  }

  lemma CommitOK(s: Session, p: Pending, n: nat, now: Time)
    requires SessionOK(s, n, now) && CandidateOK(p, n, now) && 0 < now
    ensures SessionOK(Commit(s, p, now), n, now)
    ensures s.tainted && p.routeKnown && Applies(s, p) ==> SessionOK(Commit(s, p, now).(tainted := false), n, now)
  {
  }

  lemma FinishedOK(cfg: Config, b: Core, p: Pending, now: Time)
    requires Sound(cfg, b, now) && CandidateOK(p, b.sequence, now)
    requires forall k :: k in b.pending ==> b.pending[k].sequence != p.sequence
    ensures var n := Settled(b, p, now).1;
            && b.sequence <= n
            && SessionOK(Finished(b, p, now), n, now)
            && forall k :: k in b.pending ==> b.pending[k].sequence != Finished(b, p, now).sequence
  {
    var (s, n) := Settled(b, p, now);
    SettledOK(cfg, b, p, now);
    SessionAtOK(cfg, b, p.sessionKey, now);
    CommitOK(s, p, n, now);
    if s.tainted {
    } else {
      assert Commit(s, p, now).(tainted := false) == Commit(s, p, now);
    }
  }

  lemma SuccessKeepsSound(cfg: Config, b: Core, now: Time, p: Pending)
    requires Sound(cfg, b, now) && CandidateOK(p, b.sequence, now)
    requires forall k :: k in b.pending ==> b.pending[k].sequence != p.sequence
    ensures Sound(cfg, Conclude(cfg, b, now, p, Succeeded), now)
    ensures b.sequence <= Conclude(cfg, b, now, p, Succeeded).sequence
  {
    FinishedOK(cfg, b, p, now);
    StoreKeepsSound(cfg, b, Settled(b, p, now).1, p.sessionKey, Finished(b, p, now), now);
  }

  lemma InvalidateOK(s: Session, p: Pending, n: nat, now: Time)
    requires SessionOK(s, n, now) && CandidateOK(p, n, now) && 0 < now
    ensures SessionOK(Invalidate(s, p, now), n, now)
    ensures Invalidate(s, p, now).sequence in {s.sequence, p.sequence}
  {
  }

  lemma RefusalKeepsSound(cfg: Config, b: Core, now: Time, p: Pending)
    requires Sound(cfg, b, now) && CandidateOK(p, b.sequence, now)
    requires forall k :: k in b.pending ==> b.pending[k].sequence != p.sequence
    ensures Sound(cfg, Put(cfg, b, p.sessionKey, Invalidate(SessionAt(b, p.sessionKey), p, now)), now)
  {
    SessionAtOK(cfg, b, p.sessionKey, now);
    InvalidateOK(SessionAt(b, p.sessionKey), p, b.sequence, now);
    assert b.(sequence := b.sequence) == b;
    StoreKeepsSound(cfg, b, b.sequence, p.sessionKey, Invalidate(SessionAt(b, p.sessionKey), p, now), now);
  }

  lemma ConcludeKeepsSound(cfg: Config, b: Core, now: Time, p: Pending, outcome: Outcome)
    requires Sound(cfg, b, now) && CandidateOK(p, b.sequence, now)
    requires forall k :: k in b.pending ==> b.pending[k].sequence != p.sequence
    ensures Sound(cfg, Conclude(cfg, b, now, p, outcome), now)
    ensures b.sequence <= Conclude(cfg, b, now, p, outcome).sequence
    ensures Conclude(cfg, b, now, p, outcome).pending == b.pending
  {
    if outcome.Succeeded? {
      SuccessKeepsSound(cfg, b, now, p);
    } else {
      RefusalKeepsSound(cfg, b, now, p);
    }
  }

  lemma SettlingKeepsInv(cfg: Config, s: World, e: Event)
    requires Inv(cfg, s) && Enabled(cfg, s, e) && Settles(cfg, s.core, e)
    ensures Inv(cfg, World(Apply(cfg, s.core, e), e.w.late))
  {
    var b, p := Ground(cfg, s.core, e), Settling(cfg, s.core, e);
    GroundKeepsSound(cfg, s, e);
    SettlingOK(cfg, s, e);
    ConcludeKeepsSound(cfg, b, e.w.now, p, e.outcome);
    LaterIsSound(cfg, Conclude(cfg, b, e.w.now, p, e.outcome), e.w.now, e.w.late);
  }

  lemma SettlingOK(cfg: Config, s: World, e: Event)
    requires Inv(cfg, s) && Enabled(cfg, s, e) && Settles(cfg, s.core, e)
    ensures var p, b := Settling(cfg, s.core, e), Ground(cfg, s.core, e);
            && e.pk in s.core.pending && p == s.core.pending[e.pk]
            && CandidateOK(p, b.sequence, e.w.now)
            && forall k :: k in b.pending ==> b.pending[k].sequence != p.sequence
  {
    PurgeIsBackground(cfg, s.core, e.w);
    BackgroundKeepsSound(cfg, s.core, Purge(cfg, s.core, e.w), PurgeRemoves(cfg, s.core, e.w), s.clock, e.w.now);
  }

  /** Every event keeps the invariant. */
  lemma EventKeepsInv(cfg: Config, s: World, e: Event)
    requires Inv(cfg, s) && Enabled(cfg, s, e)
    ensures Inv(cfg, Next(cfg, s, e))
  {
    if e.Reset? {
    } else if Registers(cfg, s.core, e) {
      RegisteringKeepsInv(cfg, s, e);
    } else if RejectsTracked(cfg, s.core, e) {
      RejectingKeepsInv(cfg, s, e);
    } else if Settles(cfg, s.core, e) {
      SettlingKeepsInv(cfg, s, e);
    } else {
      GroundIsAll(cfg, s.core, e);
      if e.Prepare? || e.Snapshot? || (e.Completion? && e.pk != "") {
        GroundKeepsSound(cfg, s, e);
        LaterIsSound(cfg, Ground(cfg, s.core, e), e.w.now, e.w.late);
      } else if e.Discard? {
        DropIsBackground(s.core, e.pk);
        BackgroundKeepsSound(cfg, s.core, Drop(s.core, e.pk), {}, s.clock, s.clock);
      }
    }
  }

  lemma RejectionGrows(cfg: Config, s: World, e: Event)
    requires Inv(cfg, s) && Enabled(cfg, s, e) && RejectsTracked(cfg, s.core, e)
    ensures Ground(cfg, s.core, e).sequence <= Apply(cfg, s.core, e).sequence
  {
    var b := Ground(cfg, s.core, e);
    GroundKeepsSound(cfg, s, e);
    SessionAtOK(cfg, b, e.sk, e.w.now);
    RetireSpec(Judged(b, e.sk, e.route, e.w.now), b.sequence, e.signals.items, e.route, true, e.w.now);
  }

  lemma RegistrationGrows(cfg: Config, c: Core, e: Event)
    requires Registers(cfg, c, e)
    ensures Ground(cfg, c, e).sequence < Apply(cfg, c, e).sequence
  {
    RegistersBy(cfg, c, e);
    RegisterCandidates(cfg, Ground(cfg, c, e), e.w, e.pk, Admitted(cfg, c, e), Entrant(cfg, c, e));
  }

  /** Sequences are handed out upwards, and only a reset takes them back. */
  lemma SequenceGrows(cfg: Config, s: World, e: Event)
    requires Inv(cfg, s) && Enabled(cfg, s, e) && !e.Reset?
    ensures s.core.sequence <= Apply(cfg, s.core, e).sequence
  {
    GroundIsBackground(cfg, s.core, e);
    if Registers(cfg, s.core, e) {
      RegistrationGrows(cfg, s.core, e);
    } else if RejectsTracked(cfg, s.core, e) {
      RejectionGrows(cfg, s, e);
    } else if Settles(cfg, s.core, e) {
      GroundKeepsSound(cfg, s, e);
      SettlingOK(cfg, s, e);
      ConcludeKeepsSound(cfg, Ground(cfg, s.core, e), e.w.now, Settling(cfg, s.core, e), e.outcome);
    } else {
      GroundIsAll(cfg, s.core, e);
    }
  }
}
