// The effect of one event on every session and every candidate: the session it is about may change as the
// protocol says; all others are spared.
module Events {
  import opened Routes
  import opened Protocol
  import opened Footprint

  // ---- The shape of an event: background, one write, background ----

  /** The state the event acts in: swept, and without the candidate it replaces, settles or discards. */
  ghost function Ground(cfg: Config, c: Core, e: Event): Core {
    match e
    case Prepare(w, pk, _, _, _, _) => Base(cfg, c, w, pk)
    case Completion(w, pk, _) => if pk == "" then c else Drop(Purge(cfg, c, w), pk)
    case Discard(pk) => Drop(c, pk)
    case Snapshot(w) => Purge(cfg, c, w)
    case Reset => c
  }

  /** The candidate a completion settles. */
  ghost predicate Settles(cfg: Config, c: Core, e: Event) {
    e.Completion? && e.pk != "" && e.pk in Purge(cfg, c, e.w).pending
  }

  ghost function Settling(cfg: Config, c: Core, e: Event): Pending
    requires Settles(cfg, c, e)
  {
    Purge(cfg, c, e.w).pending[e.pk]
  }

  /** The session the event is about. */
  ghost function Subject(cfg: Config, c: Core, e: Event): Digest {
    if e.Prepare? then e.sk else if Settles(cfg, c, e) then Settling(cfg, c, e).sessionKey else ""
  }

  /** Does this prepare put its candidate in flight? */
  ghost predicate Registers(cfg: Config, c: Core, e: Event) {
    && e.Prepare? && e.pk != "" && e.sk != ""
    && var d := Answer(cfg, c, e);
       if e.known then !d.reject else d.strip
  }

  ghost predicate RejectsTracked(cfg: Config, c: Core, e: Event) {
    e.Prepare? && e.sk != "" && e.known && Answer(cfg, c, e).reject
  }

  ghost predicate Invalidates(cfg: Config, c: Core, e: Event) {
    Settles(cfg, c, e) && e.outcome.Unsuccessful? && InvalidEncryptedContent(e.outcome.error)
  }

  /** The session as the event itself leaves it, before trimming. */
  ghost function Own(cfg: Config, c: Core, e: Event): Session {
    var b := Ground(cfg, c, e);
    if Registers(cfg, c, e) then
      (if e.known then Judged(b, e.sk, e.route, e.w.now) else SessionAt(b, e.sk)).(updatedAt := e.w.now)
    else if RejectsTracked(cfg, c, e) then
      Retire(Judged(b, e.sk, e.route, e.w.now), b.sequence, e.signals.items, e.route, true, e.w.now).0
    else if Settles(cfg, c, e) && e.outcome.Succeeded? then Finished(b, Settling(cfg, c, e), e.w.now)
    else if Invalidates(cfg, c, e) then Invalidate(SessionAt(b, Subject(cfg, c, e)), Settling(cfg, c, e), e.w.now)
    else SessionAt(b, Subject(cfg, c, e))
  }

  lemma OwnOtherwise(cfg: Config, c: Core, e: Event)
    requires !Registers(cfg, c, e) && !RejectsTracked(cfg, c, e) && !Invalidates(cfg, c, e)
    requires !(Settles(cfg, c, e) && e.outcome.Succeeded?)
    ensures Own(cfg, c, e) == SessionAt(Ground(cfg, c, e), Subject(cfg, c, e))
  {
  }

  /** The candidate a registering prepare puts in flight. */
  ghost function Entrant(cfg: Config, c: Core, e: Event): Pending
    requires e.Prepare?
  {
    var b := Ground(cfg, c, e);
    if e.known then
      Candidate(b, e.sk, e.route, true, Judged(b, e.sk, e.route, e.w.now), e.signals, Answer(cfg, c, e).strip, e.w.now)
    else
      Candidate(b, e.sk, "", false, BLANK, e.signals, true, e.w.now)
  }

  // ---- What the steps after the ground state remove ----

  ghost function RegisterRemoves(cfg: Config, c: Core, w: Call, pk: Digest, s: Session, p: Pending): set<Digest> {
    var t := s.(updatedAt := w.now);
    StoreRemoves(cfg, c, p.sessionKey, t)
    + TrimPendingRemoves(cfg, Enter(Put(cfg, c, p.sessionKey, t), pk, p), w.late)
  }

  ghost function LateRemoves(cfg: Config, c: Core, e: Event): set<Digest> {
    var b := Ground(cfg, c, e);
    var sk := Subject(cfg, c, e);
    if Registers(cfg, c, e) then
      RegisterRemoves(cfg, b, e.w, e.pk, if e.known then Judged(b, sk, e.route, e.w.now) else SessionAt(b, sk),
                      Entrant(cfg, c, e))
    else if RejectsTracked(cfg, c, e) || Invalidates(cfg, c, e) || (Settles(cfg, c, e) && e.outcome.Succeeded?) then
      StoreRemoves(cfg, b, sk, Own(cfg, c, e))
    else {}
  }

  ghost function EarlyRemoves(cfg: Config, c: Core, e: Event): set<Digest> {
    if e.Prepare? || e.Snapshot? || (e.Completion? && e.pk != "") then PurgeRemoves(cfg, c, e.w) else {}
  }

  /** Every session some step of the event removed, even if a later step put it back. */
  ghost function Removes(cfg: Config, c: Core, e: Event): set<Digest> {
    if e.Reset? then c.sessions.Keys else EarlyRemoves(cfg, c, e) + LateRemoves(cfg, c, e)
  }

  // ---- The effect ----

  /** From b to d only `sk` was written, as `own`; trimming may have poisoned or removed it afterwards. */
  ghost predicate Effect(b: Core, d: Core, removed: set<Digest>, sk: Digest, own: Session) {
    && (forall o :: o in b.sessions && o !in removed ==> o in d.sessions)
    && (forall o :: o in d.sessions && o != sk ==> Spared(b, d, removed, o))
    && (sk !in d.sessions ==> sk in removed || own == BLANK)
    && (sk in d.sessions ==>
          || (sk !in removed && d.sessions[sk] == own)
          || Poisoned(d.sessions[sk], if sk in removed then BLANK else own))
  }

  lemma StoreEffect(cfg: Config, b: Core, n: nat, sk: Digest, s: Session)
    ensures Effect(b, Put(cfg, b.(sequence := n), sk, s), StoreRemoves(cfg, b, sk, s), sk, s)
  {
  }

  lemma SparedTrans(c: Core, d: Core, e: Core, r1: set<Digest>, r2: set<Digest>, o: Digest)
    requires o in d.sessions ==> Spared(c, d, r1, o)
    requires o in c.sessions && o !in r1 ==> o in d.sessions
    requires o in e.sessions && Spared(d, e, r2, o)
    requires forall k :: k in d.pending && d.pending[k].sessionKey == o ==>
               k in c.pending && d.pending[k] == c.pending[k]
    requires forall k :: k in e.pending && e.pending[k].sessionKey == o ==>
               k in d.pending && d.pending[k] == e.pending[k]
    ensures Spared(c, e, r1 + r2, o)
  {
  }

  lemma EffectThenBackground(b: Core, f: Core, d: Core, r1: set<Digest>, r2: set<Digest>, sk: Digest, own: Session)
    requires Effect(b, f, r1, sk, own) && Background(f, d, r2)
    requires forall k :: k in f.pending && f.pending[k].sessionKey != sk ==>
               k in b.pending && f.pending[k] == b.pending[k]
    ensures Effect(b, d, r1 + r2, sk, own)
  {
    forall o | o in d.sessions && o != sk
      ensures Spared(b, d, r1 + r2, o)
    {
      SparedTrans(b, f, d, r1, r2, o);
    }
    if sk in d.sessions {
      assert Spared(f, d, r2, sk);
    }
  }

  lemma EnterEffect(b: Core, f: Core, r: set<Digest>, sk: Digest, own: Session, pk: Digest, p: Pending)
    requires Effect(b, f, r, sk, own) && f.pending == b.pending && p.sessionKey == sk
    ensures Effect(b, Enter(f, pk, p), r, sk, own)
  {
  }

  lemma RegisterEffect(cfg: Config, b: Core, w: Call, pk: Digest, s: Session, p: Pending)
    ensures Effect(b, Register(cfg, b, w, pk, s, p), RegisterRemoves(cfg, b, w, pk, s, p), p.sessionKey,
                   s.(updatedAt := w.now))
  {
    var t := s.(updatedAt := w.now);
    var f := Put(cfg, b, p.sessionKey, t);
    StoreEffect(cfg, b, b.sequence, p.sessionKey, t);
    assert b.(sequence := b.sequence) == b;
    EnterEffect(b, f, StoreRemoves(cfg, b, p.sessionKey, t), p.sessionKey, t, pk, p);
    TrimPendingIsBackground(cfg, Enter(f, pk, p), w.late);
    EffectThenBackground(b, Enter(f, pk, p), Register(cfg, b, w, pk, s, p), StoreRemoves(cfg, b, p.sessionKey, t),
                         TrimPendingRemoves(cfg, Enter(f, pk, p), w.late), p.sessionKey, t);
  }

  lemma RegisterCandidates(cfg: Config, b: Core, w: Call, pk: Digest, s: Session, p: Pending)
    ensures var d := Register(cfg, b, w, pk, s, p);
            && d.sequence == p.sequence
            && forall k :: k in d.pending ==>
                 if k == pk then d.pending[k] == p else k in b.pending && d.pending[k] == b.pending[k]
  {
    TrimPendingIsBackground(cfg, Enter(Put(cfg, b, p.sessionKey, s.(updatedAt := w.now)), pk, p), w.late);
  }

  /** A registering prepare, seen as the one step it takes. */
  ghost function Admitted(cfg: Config, c: Core, e: Event): Session
    requires e.Prepare?
  {
    var b := Ground(cfg, c, e);
    if e.known then Judged(b, e.sk, e.route, e.w.now) else SessionAt(b, e.sk)
  }

  lemma RegistersBy(cfg: Config, c: Core, e: Event)
    requires Registers(cfg, c, e)
    ensures Apply(cfg, c, e) == Register(cfg, Ground(cfg, c, e), e.w, e.pk, Admitted(cfg, c, e), Entrant(cfg, c, e))
    ensures Entrant(cfg, c, e).sessionKey == e.sk
    ensures Own(cfg, c, e) == Admitted(cfg, c, e).(updatedAt := e.w.now)
    ensures LateRemoves(cfg, c, e)
            == RegisterRemoves(cfg, Ground(cfg, c, e), e.w, e.pk, Admitted(cfg, c, e), Entrant(cfg, c, e))
  {
  }

  /** From the ground state on, an event writes its own session and nothing else. */
  lemma EventEffect(cfg: Config, c: Core, e: Event)
    requires !e.Reset?
    ensures Effect(Ground(cfg, c, e), Apply(cfg, c, e), LateRemoves(cfg, c, e), Subject(cfg, c, e), Own(cfg, c, e))
  {
    var b := Ground(cfg, c, e);
    if Registers(cfg, c, e) {
      RegistersBy(cfg, c, e);
      RegisterEffect(cfg, b, e.w, e.pk, Admitted(cfg, c, e), Entrant(cfg, c, e));
    } else if RejectsTracked(cfg, c, e) {
      var n := Retire(Judged(b, e.sk, e.route, e.w.now), b.sequence, e.signals.items, e.route, true, e.w.now).1;
      StoreEffect(cfg, b, n, e.sk, Own(cfg, c, e));
    } else if Settles(cfg, c, e) && e.outcome.Succeeded? {
      StoreEffect(cfg, b, Settled(b, Settling(cfg, c, e), e.w.now).1, Subject(cfg, c, e), Own(cfg, c, e));
    } else if Invalidates(cfg, c, e) {
      StoreEffect(cfg, b, b.sequence, Subject(cfg, c, e), Own(cfg, c, e));
    } else {
      GroundIsAll(cfg, c, e);
    }
  }

  /** An event that registers, stores and settles nothing only reaches its ground state. */
  lemma GroundIsAll(cfg: Config, c: Core, e: Event)
    requires !e.Reset? && !Registers(cfg, c, e) && !RejectsTracked(cfg, c, e) && !Invalidates(cfg, c, e)
    requires !(Settles(cfg, c, e) && e.outcome.Succeeded?)
    ensures Apply(cfg, c, e) == Ground(cfg, c, e)
  {
  }

  lemma GroundIsBackground(cfg: Config, c: Core, e: Event)
    requires !e.Reset?
    ensures Background(c, Ground(cfg, c, e), EarlyRemoves(cfg, c, e))
  {
    match e
    case Prepare(w, pk, _, _, _, _) => BaseIsBackground(cfg, c, w, pk);
    case Completion(w, pk, _) =>
      if pk == "" {
        BackgroundRefl(c);
      } else {
        BaseIsBackground(cfg, c, w, pk);
      }
    case Discard(pk) => DropIsBackground(c, pk);
    case Snapshot(w) => PurgeIsBackground(cfg, c, w);
  }

  /** A candidate is in flight after an event only if the event registered it, or it was there before and
      the event was not about it. */
  lemma CandidatesAfter(cfg: Config, c: Core, e: Event, k: Digest)
    requires k in Apply(cfg, c, e).pending
    ensures var p := Apply(cfg, c, e).pending[k];
            if Registers(cfg, c, e) && k == e.pk then p == Entrant(cfg, c, e)
            else k in c.pending && p == c.pending[k] && k in Ground(cfg, c, e).pending && !About(e, k)
  {
    if !e.Reset? {
      GroundIsBackground(cfg, c, e);
      if k in Ground(cfg, c, e).pending {
        GroundForgets(cfg, c, e, k);
      }
      if Registers(cfg, c, e) {
        RegistersBy(cfg, c, e);
        RegisterCandidates(cfg, Ground(cfg, c, e), e.w, e.pk, Admitted(cfg, c, e), Entrant(cfg, c, e));
      } else {
        OnlyPreparesEnter(cfg, c, e);
      }
    }
  }

  /** Does the event replace, settle or discard whatever is in flight under the key? */
  predicate About(e: Event, k: Digest) {
    match e
    case Prepare(_, pk, _, _, _, _) => k == pk && k != ""
    case Completion(_, pk, _) => k == pk && k != ""
    case Discard(pk) => k == pk
    case Snapshot(_) => false
    case Reset => true
  }

  lemma GroundForgets(cfg: Config, c: Core, e: Event, k: Digest)
    requires !e.Reset? && k in Ground(cfg, c, e).pending
    ensures !About(e, k)
  {
  }

  lemma OnlyPreparesEnter(cfg: Config, c: Core, e: Event)
    requires !e.Reset? && !Registers(cfg, c, e)
    ensures Apply(cfg, c, e).pending == Ground(cfg, c, e).pending
  {
  }

  predicate Purges(e: Event) {
    e.Prepare? || e.Snapshot? || (e.Completion? && e.pk != "")
  }

  /** A sweep in this call finds a candidate of the session past its TTL. */
  ghost predicate ExpiresOwn(cfg: Config, c: Core, w: Call, o: Digest) {
    && w.swept
    && exists k :: k in c.pending && c.pending[k].sessionKey == o && Expired(cfg, c.pending[k].observedAt, w.now)
  }

  /** A candidate of the session expired in the event's sweep, or was trimmed to make room for the one the
      event put in flight. */
  ghost predicate LostToLimits(cfg: Config, c: Core, e: Event, o: Digest) {
    || (Purges(e) && ExpiresOwn(cfg, c, e.w, o))
    || (Registers(cfg, c, e) && LostOwn(Ground(cfg, c, e), Apply(cfg, c, e), o))
  }

  /** The session is as it was, or poisoned because a candidate of its own expired or was trimmed. */
  ghost predicate Isolated(cfg: Config, c: Core, e: Event, o: Digest)
    requires o in Apply(cfg, c, e).sessions
  {
    var t := Apply(cfg, c, e).sessions[o];
    || (o in c.sessions && o !in Removes(cfg, c, e) && t == c.sessions[o])
    || (LostToLimits(cfg, c, e, o) && Poisoned(t, Survivor(c, Removes(cfg, c, e), o)))
  }

  lemma PurgeSpares(cfg: Config, c: Core, e: Event, o: Digest)
    requires Purges(e) && o in Ground(cfg, c, e).sessions
    ensures Spared(c, Purge(cfg, c, e.w), EarlyRemoves(cfg, c, e), o)
    ensures Ground(cfg, c, e).sessions[o] == Purge(cfg, c, e.w).sessions[o]
    ensures LostOwn(c, Purge(cfg, c, e.w), o) ==> ExpiresOwn(cfg, c, e.w, o)
  {
    PurgeIsBackground(cfg, c, e.w);
    if LostOwn(c, Purge(cfg, c, e.w), o) {
      LostOwnExpired(cfg, c, e.w, o);
    }
  }

  lemma LostOwnExpired(cfg: Config, c: Core, w: Call, o: Digest)
    requires LostOwn(c, Purge(cfg, c, w), o)
    ensures ExpiresOwn(cfg, c, w, o)
  {
    var k :| k in c.pending && c.pending[k].sessionKey == o
      && (k !in Purge(cfg, c, w).pending || Purge(cfg, c, w).pending[k] != c.pending[k]);
    PurgeIsBackground(cfg, c, w);
    OnlyExpiredLeave(cfg, ExpireSessions(cfg, c, w.now), w.now, w.order, k);
  }

  lemma LateSpares(cfg: Config, c: Core, e: Event, o: Digest)
    requires !e.Reset? && o != Subject(cfg, c, e) && o in Apply(cfg, c, e).sessions
    ensures Spared(Ground(cfg, c, e), Apply(cfg, c, e), LateRemoves(cfg, c, e), o)
    ensures LostOwn(Ground(cfg, c, e), Apply(cfg, c, e), o) ==> Registers(cfg, c, e)
  {
    EventEffect(cfg, c, e);
    if !Registers(cfg, c, e) {
      OnlyPreparesEnter(cfg, c, e);
    }
  }

  /** Session isolation: after any event but a reset, a session the event is not about is as it was, gone, or
      poisoned because a candidate of its own expired or was trimmed. A discard touches no session. */
  lemma SessionIsolation(cfg: Config, c: Core, e: Event, o: Digest)
    requires !e.Reset? && o != Subject(cfg, c, e)
    ensures o in c.sessions && o !in Removes(cfg, c, e) ==> o in Apply(cfg, c, e).sessions
    ensures o in Apply(cfg, c, e).sessions ==> Isolated(cfg, c, e, o)
    ensures e.Discard? ==> Removes(cfg, c, e) == {} && Apply(cfg, c, e).sessions == c.sessions
  {
    GroundIsBackground(cfg, c, e);
    EventEffect(cfg, c, e);
    if o in Apply(cfg, c, e).sessions {
      LateSpares(cfg, c, e, o);
      if o in Ground(cfg, c, e).sessions && Purges(e) {
        PurgeSpares(cfg, c, e, o);
      }
      IsolatedByParts(cfg, c, e, o);
    }
  }

  lemma IsolatedByParts(cfg: Config, c: Core, e: Event, o: Digest)
    requires !e.Reset? && o in Apply(cfg, c, e).sessions
    requires Spared(Ground(cfg, c, e), Apply(cfg, c, e), LateRemoves(cfg, c, e), o)
    requires LostOwn(Ground(cfg, c, e), Apply(cfg, c, e), o) ==> Registers(cfg, c, e)
    requires o in Ground(cfg, c, e).sessions && Purges(e) ==>
               && Spared(c, Purge(cfg, c, e.w), EarlyRemoves(cfg, c, e), o)
               && Ground(cfg, c, e).sessions[o] == Purge(cfg, c, e.w).sessions[o]
               && (LostOwn(c, Purge(cfg, c, e.w), o) ==> ExpiresOwn(cfg, c, e.w, o))
    requires o in c.sessions && o !in EarlyRemoves(cfg, c, e) ==> o in Ground(cfg, c, e).sessions
    ensures Isolated(cfg, c, e, o)
  {
  }

  // ---- Exactly which candidates ----

  /** A completion settles a candidate exactly when its request id is not blank and has a candidate in flight
      that is still within its TTL. */
  lemma SettlesExactly(cfg: Config, s: World, e: Event)
    requires Enabled(cfg, s, e) && e.Completion?
    ensures Settles(cfg, s.core, e) <==>
              e.pk != "" && e.pk in s.core.pending && e.w.now - s.core.pending[e.pk].observedAt <= cfg.ttl
    ensures Settles(cfg, s.core, e) ==> Settling(cfg, s.core, e) == s.core.pending[e.pk]
  {
    if e.pk != "" {
      PurgeTakesExactly(cfg, s.core, s.clock, e.w);
    }
  }

  /** The candidate of a registering prepare, field by field: it names the session and, if known, the route, has the
      next sequence and the time of the call; it is a clean start if stripped or free of route-bound state, may clear
      a taint if it is one on a tainted session with nothing else in flight, and carries what was stripped. */
  ghost predicate EntersAs(cfg: Config, b: Core, e: Event, strip: bool, p: Pending)
    requires e.Prepare?
  {
    && p.sessionKey == e.sk && p.routeKnown == e.known && p.route == (if e.known then e.route else "")
    && p.sequence == b.sequence + 1 && p.observedAt == e.w.now
    && (p.cleanStart <==> strip || !(e.signals.hasReasoning || e.signals.hasCompaction
                                     || e.signals.hasPreviousResponse))
    && (p.canClearTaint <==> e.known && p.cleanStart && !InFlight(b, e.sk) && SessionAt(b, e.sk).tainted)
    && (p.overflow <==> strip && |e.signals.items| > 256)
    && forall f :: f in p.retired <==> strip && !p.overflow && f in e.signals.items && f != ""
  }

  lemma EntrantIsExact(cfg: Config, c: Core, e: Event)
    requires Registers(cfg, c, e)
    ensures EntersAs(cfg, Ground(cfg, c, e), e, Answer(cfg, c, e).strip, Entrant(cfg, c, e))
  {
    if RouteMismatch(Ground(cfg, c, e), e.sk, e.route) {
      assert InFlight(Ground(cfg, c, e), e.sk);
    }
  }

  /** It replaces whatever its request had in flight, and stays unless the cap is exceeded and it is the oldest. */
  lemma RegisteredEnters(cfg: Config, c: Core, e: Event)
    requires Registers(cfg, c, e)
    ensures var before := Ground(cfg, c, e).pending[e.pk := Entrant(cfg, c, e)];
            var after := Apply(cfg, c, e).pending;
            NewestOf(before, after) && |after| == if |before| <= cfg.maxPending then |before| else cfg.maxPending
    ensures Apply(cfg, c, e).sequence == Ground(cfg, c, e).sequence + 1
  {
    RegistersBy(cfg, c, e);
    var b, p := Ground(cfg, c, e), Entrant(cfg, c, e);
    var t := Put(cfg, b, p.sessionKey, Admitted(cfg, c, e).(updatedAt := e.w.now));
    TrimPendingKeepsNewest(cfg, Enter(t, e.pk, p), e.w.late);
    TrimPendingIsBackground(cfg, Enter(t, e.pk, p), e.w.late);
  }
}
