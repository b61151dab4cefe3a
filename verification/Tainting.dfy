// What taints a session: an upstream refusal, a conflicting request in flight, and losing a candidate to
// expiry or eviction.
module Tainting {
  import opened Routes
  import opened Retirement
  import opened Eviction
  import opened Protocol
  import opened Footprint
  import opened Events
  import opened Invariant
  import opened Runs

  // ---- Upstream refusal ----

  /** A refusal of encrypted content taints the session and leaves the refused route bound only by a later
      commit; a binding to another route, or a later one, stays as it was. */
  lemma RefusalUncommits(cfg: Config, s: World, e: Event)
    requires Inv(cfg, s) && Enabled(cfg, s, e) && Invalidates(cfg, s.core, e)
    requires Subject(cfg, s.core, e) in Apply(cfg, s.core, e).sessions
    ensures var p, was := Settling(cfg, s.core, e), SessionAt(Ground(cfg, s.core, e), Subject(cfg, s.core, e));
            var t := Apply(cfg, s.core, e).sessions[Subject(cfg, s.core, e)];
            && t.tainted
            && (t.hasRoute <==> was.hasRoute && (was.route != p.route || p.sequence < was.sequence))
            && (t.hasRoute ==> SameBinding(was, t))
            && (was.hasRoute && !t.hasRoute ==> t.sequence == p.sequence)
  {
    GroundKeepsSound(cfg, s, e);
    SettlingOK(cfg, s, e);
    SessionAtOK(cfg, Ground(cfg, s.core, e), Subject(cfg, s.core, e), e.w.now);
    RefusedSession(cfg, s.core, e);
  }

  lemma RefusedSession(cfg: Config, c: Core, e: Event)
    requires Invalidates(cfg, c, e) && Subject(cfg, c, e) in Apply(cfg, c, e).sessions
    ensures Apply(cfg, c, e).sessions[Subject(cfg, c, e)]
            == Invalidate(SessionAt(Ground(cfg, c, e), Subject(cfg, c, e)), Settling(cfg, c, e), e.w.now)
  {
  }

  /** The event is a failure for another reason than refused content. */
  ghost predicate FailsOtherwise(cfg: Config, c: Core, e: Event) {
    Settles(cfg, c, e) && e.outcome.Unsuccessful? && !InvalidEncryptedContent(e.outcome.error)
  }

  /** Any other failure is held against nobody: the session of the failed request, like every session, keeps
      its binding, its taint and its barrier, unless it was swept or a candidate of its own expired. */
  lemma OtherFailuresSpareSessions(cfg: Config, c: Core, e: Event, o: Digest)
    requires FailsOtherwise(cfg, c, e)
    ensures var d := Apply(cfg, c, e);
            && (o in c.sessions && o !in EarlyRemoves(cfg, c, e) ==> o in d.sessions)
            && (o in d.sessions ==>
                  || (o in c.sessions && o !in EarlyRemoves(cfg, c, e) && d.sessions[o] == c.sessions[o])
                  || (ExpiresOwn(cfg, c, e.w, o) && Poisoned(d.sessions[o], Survivor(c, EarlyRemoves(cfg, c, e), o))))
  {
    GroundIsAll(cfg, c, e);
    GroundIsBackground(cfg, c, e);
    if o in Apply(cfg, c, e).sessions {
      PurgeSpares(cfg, c, e, o);
    }
  }

  /** And only the failed candidate leaves: the others, unless expired, stay in flight as they are. */
  lemma OtherFailuresSpareCandidates(cfg: Config, c: Core, e: Event, k: Digest)
    requires FailsOtherwise(cfg, c, e)
    ensures var d := Apply(cfg, c, e);
            && d.sequence == c.sequence && e.pk !in d.pending
            && (k in d.pending ==> k in c.pending && d.pending[k] == c.pending[k])
            && (k in c.pending && k != e.pk && !Expired(cfg, c.pending[k].observedAt, e.w.now) ==> k in d.pending)
  {
    GroundIsAll(cfg, c, e);
    GroundIsBackground(cfg, c, e);
    if k in c.pending && k !in Purge(cfg, c, e.w).pending {
      OnlyExpiredLeave(cfg, ExpireSessions(cfg, c, e.w.now), e.w.now, e.w.order, k);
    }
  }

  // ---- Concurrency ----

  /** A tracked request that finds another of its session in flight on a different or unknown route is not let
      through, and leaves the session tainted exactly when it was, or the request has an id or is rejected: the
      verdict on a request with a blank id that is only stripped is not stored. */
  lemma ConcurrencyTaints(cfg: Config, s: World, e: Event)
    requires Inv(cfg, s) && Enabled(cfg, s, e) && e.Prepare? && e.known && e.sk != ""
    requires RouteMismatch(Ground(cfg, s.core, e), e.sk, e.route)
    requires e.sk in Apply(cfg, s.core, e).sessions
    ensures Apply(cfg, s.core, e).sessions[e.sk].tainted
            <==> e.pk != "" || Answer(cfg, s.core, e).reject || SessionAt(Ground(cfg, s.core, e), e.sk).tainted
    ensures !LetThrough(cfg, s.core, e)
  {
    if e.pk != "" || Answer(cfg, s.core, e).reject {
      ConflictIsStored(cfg, s, e);
    } else {
      GroundIsAll(cfg, s.core, e);
    }
    ConflictIsNotLetThrough(cfg, s, e);
  }

  lemma ConflictIsStored(cfg: Config, s: World, e: Event)
    requires Inv(cfg, s) && Enabled(cfg, s, e) && e.Prepare? && e.known && e.sk != ""
    requires RouteMismatch(Ground(cfg, s.core, e), e.sk, e.route)
    requires e.pk != "" || Answer(cfg, s.core, e).reject
    requires e.sk in Apply(cfg, s.core, e).sessions
    ensures Apply(cfg, s.core, e).sessions[e.sk].tainted
  {
    EventEffect(cfg, s.core, e);
    ConflictTaintsOwn(cfg, s, e);
  }

  lemma ConflictTaintsOwn(cfg: Config, s: World, e: Event)
    requires Inv(cfg, s) && Enabled(cfg, s, e) && e.Prepare? && e.known && e.sk != ""
    requires RouteMismatch(Ground(cfg, s.core, e), e.sk, e.route)
    requires e.pk != "" || Answer(cfg, s.core, e).reject
    ensures Own(cfg, s.core, e).tainted
  {
    JudgedReusable(Ground(cfg, s.core, e), e.sk, e.route, e.w.now);
    if Registers(cfg, s.core, e) {
      RegistersBy(cfg, s.core, e);
    } else {
      RejectedTaint(cfg, s, e);
    }
  }

  lemma RejectedTaint(cfg: Config, s: World, e: Event)
    requires Inv(cfg, s) && Enabled(cfg, s, e) && RejectsTracked(cfg, s.core, e)
    requires Judged(Ground(cfg, s.core, e), e.sk, e.route, e.w.now).tainted
    ensures Own(cfg, s.core, e).tainted
  {
    var b := Ground(cfg, s.core, e);
    GroundKeepsSound(cfg, s, e);
    SessionAtOK(cfg, b, e.sk, e.w.now);
    RetireSpec(Judged(b, e.sk, e.route, e.w.now), b.sequence, e.signals.items, e.route, true, e.w.now);
  }

  lemma ConflictIsNotLetThrough(cfg: Config, s: World, e: Event)
    requires Inv(cfg, s) && Enabled(cfg, s, e) && e.Prepare? && e.known && e.sk != ""
    requires RouteMismatch(Ground(cfg, s.core, e), e.sk, e.route)
    ensures !LetThrough(cfg, s.core, e)
  {
  }

  // ---- Lost candidates ----

  /** The candidate's session is tainted, unless it was evicted. */
  predicate OwnerTainted(c: Core, k: Digest, d: Core)
    requires k in c.pending
  {
    c.pending[k].sessionKey in d.sessions ==> d.sessions[c.pending[k].sessionKey].tainted
  }

  lemma TaintTaints(cfg: Config, c: Core, sk: Digest, now: Time)
    requires sk != ""
    ensures var d := Taint(cfg, c, sk, now); sk in d.sessions ==> d.sessions[sk].tainted
  {
  }

  lemma BackgroundKeepsTaint(c: Core, d: Core, removed: set<Digest>, o: Digest)
    requires Background(c, d, removed) && (o in c.sessions ==> c.sessions[o].tainted)
    ensures o in d.sessions ==> d.sessions[o].tainted
  {
  }

  /** Trimming a candidate out of flight taints its session. */
  lemma {:induction false} TrimmedOwnersAreTainted(cfg: Config, c: Core, late: Time, k: Digest)
    requires k in c.pending && k !in TrimPending(cfg, c, late).pending
    requires forall j :: j in c.pending ==> c.pending[j].sessionKey != ""
    ensures OwnerTainted(c, k, TrimPending(cfg, c, late))
    decreases |c.pending|
  {
    var first := Oldest(PendingRanks(c.pending));
    var rest := Drop(c, first);
    assert rest.pending.Keys == c.pending.Keys - {first};
    var sk := c.pending[first].sessionKey;
    var d := Taint(cfg, rest, sk, late);
    if k == first {
      TaintTaints(cfg, rest, sk, late);
      TrimPendingIsBackground(cfg, d, late);
      BackgroundKeepsTaint(d, TrimPending(cfg, d, late), TrimPendingRemoves(cfg, d, late), sk);
    } else {
      TrimmedOwnersAreTainted(cfg, d, late, k);
    }
  }

  lemma OneExpiryKeepsTaint(cfg: Config, d: Core, now: Time, k: Digest, o: Digest)
    requires o in d.sessions ==> d.sessions[o].tainted
    requires k in d.pending ==> d.pending[k].sessionKey != ""
    ensures var f := ExpireOne(cfg, d, now, k); o in f.sessions ==> f.sessions[o].tainted
  {
  }

  /** A sweep that finds a candidate past its TTL taints its session, whether or not the cap holds. */
  lemma {:induction false} ExpiredOwnersAreTainted(cfg: Config, c: Core, now: Time, order: seq<Digest>, k: Digest)
    requires k in c.pending && k !in ExpirePending(cfg, c, now, order).pending
    requires forall j :: j in c.pending ==> c.pending[j].sessionKey != ""
    ensures OwnerTainted(c, k, ExpirePending(cfg, c, now, order))
    decreases |order|
  {
    if order == [] {
    } else {
      var front, last := order[..|order| - 1], order[|order| - 1];
      var d := ExpirePending(cfg, c, now, front);
      ExpirePendingIsBackground(cfg, c, now, front);
      if k in d.pending {
        assert k == last;
        TaintTaints(cfg, Drop(d, k), c.pending[k].sessionKey, now);
      } else {
        ExpiredOwnersAreTainted(cfg, c, now, front, k);
        OneExpiryKeepsTaint(cfg, d, now, last, c.pending[k].sessionKey);
      }
    }
  }

  /** In every call that purges: whatever candidate the purge took, its session is tainted or gone. */
  lemma PurgedOwnersAreTainted(cfg: Config, s: World, w: Call, k: Digest)
    requires Inv(cfg, s) && k in s.core.pending && k !in Purge(cfg, s.core, w).pending
    ensures OwnerTainted(s.core, k, Purge(cfg, s.core, w))
  {
    ExpiredOwnersAreTainted(cfg, ExpireSessions(cfg, s.core, w.now), w.now, w.order, k);
  }

  /** And in every call that registers: whatever trimming took, its session is tainted or gone. */
  lemma RegisteringTaintsTrimmed(cfg: Config, s: World, e: Event, k: Digest)
    requires Inv(cfg, s) && Enabled(cfg, s, e) && Registers(cfg, s.core, e)
    requires k in Ground(cfg, s.core, e).pending && k !in Apply(cfg, s.core, e).pending
    ensures OwnerTainted(Ground(cfg, s.core, e), k, Apply(cfg, s.core, e))
  {
    var b, p := Ground(cfg, s.core, e), Entrant(cfg, s.core, e);
    GroundKeepsSound(cfg, s, e);
    RegistersBy(cfg, s.core, e);
    if k in b.pending {
      GroundForgets(cfg, s.core, e, k);
    }
    TrimmedOnEntry(cfg, b, e.w, e.pk, Admitted(cfg, s.core, e), p, k);
  }

  lemma TrimmedOnEntry(cfg: Config, b: Core, w: Call, pk: Digest, s: Session, p: Pending, k: Digest)
    requires k in b.pending && k != pk && k !in Register(cfg, b, w, pk, s, p).pending
    requires p.sessionKey != "" && forall j :: j in b.pending ==> b.pending[j].sessionKey != ""
    ensures OwnerTainted(b, k, Register(cfg, b, w, pk, s, p))
  {
    var f := Enter(Put(cfg, b, p.sessionKey, s.(updatedAt := w.now)), pk, p);
    assert f.pending[k] == b.pending[k];
    TrimmedOwnersAreTainted(cfg, f, w.late, k);
  }
}
