// The sweep: what it does in closed form, when skipping it changes nothing, and why a decision depends on
// nothing but the session it is about.
module Sweeping {
  import opened Routes
  import opened Retirement
  import opened Eviction
  import opened Protocol
  import opened Footprint
  import opened Events
  import opened Invariant

  // ---- Skipping ----

  ghost predicate NoBlank(c: Core) {
    forall o :: o in c.sessions ==> c.sessions[o].updatedAt != 0
  }

  lemma {:induction false} FreshPendingStays(cfg: Config, c: Core, now: Time, order: seq<Digest>)
    requires forall k :: k in c.pending ==> !Expired(cfg, c.pending[k].observedAt, now)
    ensures ExpirePending(cfg, c, now, order) == c
    decreases |order|
  {
    if order == [] {
    } else {
      FreshPendingStays(cfg, c, now, order[..|order| - 1]);
    }
  }

  /** A skipped sweep was not missed: where skipping is allowed, sweeping would have changed nothing,
      exactly when the store holds no blank session; otherwise it would have removed just those. */
  lemma SkippedSweepIsExact(cfg: Config, s: World, now: Time, order: seq<Digest>)
    requires Inv(cfg, s) && s.clock <= now && Fresh(cfg, s.core, now)
    ensures Sweep(cfg, s.core, now, order).pending == s.core.pending
    ensures Sweep(cfg, s.core, now, order) == s.core <==> NoBlank(s.core)
    ensures forall o :: o in s.core.sessions && o !in Sweep(cfg, s.core, now, order).sessions ==>
              s.core.sessions[o] == BLANK
  {
    var d := ExpireSessions(cfg, s.core, now);
    FreshPendingStays(cfg, d, now, order);
    forall o | o in s.core.sessions
      ensures o in d.sessions <==> s.core.sessions[o].updatedAt != 0
    {
      assert SessionOK(s.core.sessions[o], s.core.sequence, s.clock);
    }
    if NoBlank(s.core) {
      assert d.sessions == s.core.sessions;
    }
  }

  // ---- Closed form ----

  /** No sweep of this state can go over the session cap. */
  ghost predicate Roomy(cfg: Config, c: Core) {
    |c.sessions.Keys + Active(c.pending)| <= cfg.maxSessions
  }

  ghost predicate Overdue(cfg: Config, c: Core, now: Time, k: Digest) {
    k in c.pending && Expired(cfg, c.pending[k].observedAt, now)
  }

  /** The overdue candidates among those visited. */
  ghost function OverdueIn(cfg: Config, c: Core, now: Time, visited: seq<Digest>): set<Digest> {
    set k | k in visited && Overdue(cfg, c, now, k)
  }

  ghost function Owners(c: Core, gone: set<Digest>): set<Digest> {
    set k | k in gone && k in c.pending :: c.pending[k].sessionKey
  }

  ghost function SweptSessions(c: Core, now: Time, owners: set<Digest>): map<Digest, Session> {
    map o | o in c.sessions.Keys + owners ::
      if o in owners then SessionAt(c, o).(tainted := true, updatedAt := now) else SessionAt(c, o)
  }

  /** What losing the candidates `gone` makes of a state: they are no longer in flight, and their owners are
      tainted now. */
  ghost function Swept(c: Core, now: Time, gone: set<Digest>): Core {
    Core(SweptSessions(c, now, Owners(c, gone)), c.pending - gone, c.sequence)
  }

  lemma SweptNothing(c: Core, now: Time)
    ensures Swept(c, now, {}) == c
  {
  }

  lemma SweptSessionsGrow(c: Core, now: Time, owners: set<Digest>, sk: Digest)
    ensures var m := SweptSessions(c, now, owners);
            m[sk := (if sk in m then m[sk] else BLANK).(tainted := true, updatedAt := now)]
              == SweptSessions(c, now, owners + {sk})
  {
  }

  lemma TaintWithRoom(cfg: Config, d: Core, sk: Digest, now: Time, room: set<Digest>)
    requires sk != "" && d.sessions.Keys + {sk} <= room && |room| <= cfg.maxSessions
    ensures Taint(cfg, d, sk, now)
            == d.(sessions := d.sessions[sk := SessionAt(d, sk).(tainted := true, updatedAt := now)])
    ensures TaintRemoves(cfg, d, sk, now) == {}
  {
    var m := d.sessions[sk := SessionAt(d, sk).(tainted := true, updatedAt := now)];
    assert m.Keys == d.sessions.Keys + {sk};
    CardSubset(m.Keys, room);
  }

  lemma TaintSwept(cfg: Config, c: Core, now: Time, owners: set<Digest>, d: Core, sk: Digest)
    requires d == Core(SweptSessions(c, now, owners), d.pending, c.sequence)
    requires sk != "" && Roomy(cfg, c) && owners + {sk} <= Active(c.pending)
    ensures Taint(cfg, d, sk, now) == Core(SweptSessions(c, now, owners + {sk}), d.pending, c.sequence)
    ensures TaintRemoves(cfg, d, sk, now) == {}
  {
    SweptSessionsGrow(c, now, owners, sk);
    TaintWithRoom(cfg, d, sk, now, c.sessions.Keys + Active(c.pending));
  }

  lemma SweptGrows(c: Core, now: Time, gone: set<Digest>, k: Digest)
    requires k in c.pending && k !in gone
    ensures Swept(c, now, gone + {k})
            == Core(SweptSessions(c, now, Owners(c, gone) + {c.pending[k].sessionKey}), c.pending - gone - {k},
                    c.sequence)
    ensures Owners(c, gone) + {c.pending[k].sessionKey} <= Active(c.pending)
  {
  }

  lemma SweptOne(cfg: Config, c: Core, now: Time, gone: set<Digest>, k: Digest)
    requires Roomy(cfg, c) && k in c.pending && k !in gone && c.pending[k].sessionKey != ""
    ensures var sk := c.pending[k].sessionKey;
            Taint(cfg, Drop(Swept(c, now, gone), k), sk, now) == Swept(c, now, gone + {k})
  {
    SweptGrows(c, now, gone, k);
    TaintSwept(cfg, c, now, Owners(c, gone), Drop(Swept(c, now, gone), k), c.pending[k].sessionKey);
  }

  lemma SweptOneEvictsNobody(cfg: Config, c: Core, now: Time, gone: set<Digest>, k: Digest)
    requires Roomy(cfg, c) && k in c.pending && k !in gone && c.pending[k].sessionKey != ""
    ensures TaintRemoves(cfg, Drop(Swept(c, now, gone), k), c.pending[k].sessionKey, now) == {}
  {
    SweptGrows(c, now, gone, k);
    TaintSwept(cfg, c, now, Owners(c, gone), Drop(Swept(c, now, gone), k), c.pending[k].sessionKey);
  }

  lemma ExpireOverdue(cfg: Config, d: Core, now: Time, k: Digest)
    ensures if Overdue(cfg, d, now, k)
            then ExpireOne(cfg, d, now, k) == Taint(cfg, Drop(d, k), d.pending[k].sessionKey, now)
                 && ExpireOneRemoves(cfg, d, now, k) == TaintRemoves(cfg, Drop(d, k), d.pending[k].sessionKey, now)
            else ExpireOne(cfg, d, now, k) == d && ExpireOneRemoves(cfg, d, now, k) == {}
  {
  }

  /** Below the cap a sweep is its closed form, in whatever order it visits the candidates, and it evicts
      nobody. */
  lemma {:induction false} SweepClosedForm(cfg: Config, c: Core, now: Time, order: seq<Digest>)
    requires Roomy(cfg, c) && forall j :: j in c.pending ==> c.pending[j].sessionKey != ""
    ensures ExpirePending(cfg, c, now, order) == Swept(c, now, OverdueIn(cfg, c, now, order))
    ensures ExpirePendingRemoves(cfg, c, now, order) == {}
    decreases |order|
  {
    if order == [] {
      assert OverdueIn(cfg, c, now, order) == {};
      SweptNothing(c, now);
    } else {
      var front, last := order[..|order| - 1], order[|order| - 1];
      assert order == front + [last];
      SweepClosedForm(cfg, c, now, front);
      var gone := OverdueIn(cfg, c, now, front);
      VisitOne(cfg, c, now, front, last);
      if Overdue(cfg, c, now, last) && last !in gone {
        VisitOverdue(cfg, c, now, gone, last);
      } else {
        VisitOther(cfg, c, now, gone, last);
      }
    }
  }

  lemma VisitOne(cfg: Config, c: Core, now: Time, front: seq<Digest>, last: Digest)
    ensures var gone := OverdueIn(cfg, c, now, front);
            OverdueIn(cfg, c, now, front + [last])
            == if Overdue(cfg, c, now, last) && last !in gone then gone + {last} else gone
  {
  }

  lemma VisitOverdue(cfg: Config, c: Core, now: Time, gone: set<Digest>, k: Digest)
    requires Roomy(cfg, c) && forall j :: j in c.pending ==> c.pending[j].sessionKey != ""
    requires Overdue(cfg, c, now, k) && k !in gone
    ensures ExpireOne(cfg, Swept(c, now, gone), now, k) == Swept(c, now, gone + {k})
    ensures ExpireOneRemoves(cfg, Swept(c, now, gone), now, k) == {}
  {
    ExpireOverdue(cfg, Swept(c, now, gone), now, k);
    SweptOne(cfg, c, now, gone, k);
    SweptOneEvictsNobody(cfg, c, now, gone, k);
  }

  lemma VisitOther(cfg: Config, c: Core, now: Time, gone: set<Digest>, k: Digest)
    requires !Overdue(cfg, c, now, k) || k in gone
    ensures ExpireOne(cfg, Swept(c, now, gone), now, k) == Swept(c, now, gone)
    ensures ExpireOneRemoves(cfg, Swept(c, now, gone), now, k) == {}
  {
  }

  lemma ExpiryKeepsRoom(cfg: Config, c: Core, now: Time)
    requires Roomy(cfg, c)
    ensures Roomy(cfg, ExpireSessions(cfg, c, now))
  {
    CardSubset(ExpireSessions(cfg, c, now).sessions.Keys + Active(c.pending), c.sessions.Keys + Active(c.pending));
  }

  /** Below the cap the sweep does not depend on the order in which Go iterates the in-flight map. */
  lemma SweepOrderIsIrrelevant(cfg: Config, s: World, now: Time, order: seq<Digest>, other: seq<Digest>)
    requires Inv(cfg, s) && Roomy(cfg, s.core)
    requires forall k :: k in order <==> k in s.core.pending
    requires forall k :: k in other <==> k in s.core.pending
    ensures Sweep(cfg, s.core, now, order) == Sweep(cfg, s.core, now, other)
  {
    var d := ExpireSessions(cfg, s.core, now);
    ExpiryKeepsRoom(cfg, s.core, now);
    SweepClosedForm(cfg, d, now, order);
    SweepClosedForm(cfg, d, now, other);
    OverdueInAll(cfg, d, now, order, other);
  }

  lemma OverdueInAll(cfg: Config, c: Core, now: Time, order: seq<Digest>, other: seq<Digest>)
    requires forall k :: k in order <==> k in c.pending
    requires forall k :: k in other <==> k in c.pending
    ensures OverdueIn(cfg, c, now, order) == OverdueIn(cfg, c, now, other)
  {
  }

  /** A candidate of the session has been in flight longer than the TTL. */
  ghost predicate Overruns(cfg: Config, c: Core, now: Time, o: Digest) {
    exists k :: k in c.pending && c.pending[k].sessionKey == o && now - c.pending[k].observedAt > cfg.ttl
  }

  /** Was the session last touched within the TTL? */
  predicate Lives(cfg: Config, c: Core, now: Time, o: Digest) {
    o in c.sessions && now - c.sessions[o].updatedAt <= cfg.ttl
  }

  lemma OverrunsOwn(cfg: Config, c: Core, now: Time, order: seq<Digest>, o: Digest)
    requires forall k :: k in order <==> k in c.pending
    ensures var d := ExpireSessions(cfg, c, now);
            o in Owners(d, OverdueIn(cfg, d, now, order)) <==> Overruns(cfg, c, now, o)
  {
    var d := ExpireSessions(cfg, c, now);
    if k :| k in c.pending && c.pending[k].sessionKey == o && now - c.pending[k].observedAt > cfg.ttl {
      assert Overdue(cfg, d, now, k);
      assert k in OverdueIn(cfg, d, now, order);
    }
  }

  /** What a sweep owes a session: it is there exactly if it was touched within the TTL or loses a candidate of its
      own; then it is tainted now, and otherwise as it was. */
  ghost predicate SweptExactly(cfg: Config, c: Core, d: Core, now: Time, o: Digest) {
    && (o in d.sessions <==> Lives(cfg, c, now, o) || Overruns(cfg, c, now, o))
    && (o in d.sessions ==>
          var was := if Lives(cfg, c, now, o) then c.sessions[o] else BLANK;
          d.sessions[o] == if Overruns(cfg, c, now, o) then was.(tainted := true, updatedAt := now) else was)
  }

  lemma SweptByOwners(cfg: Config, c: Core, now: Time, gone: set<Digest>, o: Digest)
    requires var d := ExpireSessions(cfg, c, now); o in Owners(d, gone) <==> Overruns(cfg, c, now, o)
    ensures SweptExactly(cfg, c, Swept(ExpireSessions(cfg, c, now), now, gone), now, o)
  {
  }

  /** Below the cap a sweep does exactly that to every session. */
  lemma SweepIsExact(cfg: Config, s: World, now: Time, order: seq<Digest>, o: Digest)
    requires Inv(cfg, s) && Roomy(cfg, s.core) && forall k :: k in order <==> k in s.core.pending
    ensures SweptExactly(cfg, s.core, Sweep(cfg, s.core, now, order), now, o)
  {
    var d := ExpireSessions(cfg, s.core, now);
    ExpiryKeepsRoom(cfg, s.core, now);
    SweepClosedForm(cfg, d, now, order);
    OverrunsOwn(cfg, s.core, now, order, o);
    SweptByOwners(cfg, s.core, now, OverdueIn(cfg, d, now, order), o);
  }

  // ---- Locality ----

  /** The session's own candidates. */
  function OwnPending(c: Core, sk: Digest): map<Digest, Pending> {
    map k | k in c.pending && c.pending[k].sessionKey == sk :: c.pending[k]
  }

  /** What a sweep leaves of a session, from the session and its own candidates alone. */
  ghost function LocalSession(cfg: Config, s: Session, own: map<Digest, Pending>, now: Time): Session {
    var left := if Expired(cfg, s.updatedAt, now) then BLANK else s;
    if exists k :: k in own && Expired(cfg, own[k].observedAt, now)
    then left.(tainted := true, updatedAt := now) else left
  }

  ghost function LocalPending(cfg: Config, own: map<Digest, Pending>, now: Time, pk: Digest): map<Digest, Pending> {
    map k | k in own && k != pk && !Expired(cfg, own[k].observedAt, now) :: own[k]
  }

  lemma SweepIsLocal(cfg: Config, s: World, now: Time, order: seq<Digest>, sk: Digest)
    requires Inv(cfg, s) && Roomy(cfg, s.core)
    requires forall k :: k in order <==> k in s.core.pending
    ensures SessionAt(Sweep(cfg, s.core, now, order), sk)
            == LocalSession(cfg, SessionAt(s.core, sk), OwnPending(s.core, sk), now)
    ensures Sweep(cfg, s.core, now, order).pending
            == map k | k in s.core.pending && !Overdue(cfg, s.core, now, k) :: s.core.pending[k]
  {
    var d := ExpireSessions(cfg, s.core, now);
    var gone := OverdueIn(cfg, d, now, order);
    ExpiryKeepsRoom(cfg, s.core, now);
    SweepClosedForm(cfg, d, now, order);
    OwnersAreLocal(cfg, s.core, now, order, sk);
    SweptPending(cfg, s.core, now, order);
    SweptSession(d, now, gone, sk);
    ExpiredSession(cfg, s.core, now, sk);
  }

  lemma ExpiredSession(cfg: Config, c: Core, now: Time, sk: Digest)
    ensures SessionAt(ExpireSessions(cfg, c, now), sk)
            == if Expired(cfg, SessionAt(c, sk).updatedAt, now) then BLANK else SessionAt(c, sk)
  {
  }

  lemma SweptSession(d: Core, now: Time, gone: set<Digest>, sk: Digest)
    ensures SessionAt(Swept(d, now, gone), sk)
            == if sk in Owners(d, gone) then SessionAt(d, sk).(tainted := true, updatedAt := now) else SessionAt(d, sk)
  {
  }

  lemma SweptPending(cfg: Config, c: Core, now: Time, order: seq<Digest>)
    requires forall k :: k in order <==> k in c.pending
    ensures c.pending - OverdueIn(cfg, ExpireSessions(cfg, c, now), now, order)
            == map k | k in c.pending && !Overdue(cfg, c, now, k) :: c.pending[k]
  {
  }

  lemma OwnersAreLocal(cfg: Config, c: Core, now: Time, order: seq<Digest>, sk: Digest)
    requires forall k :: k in order <==> k in c.pending
    ensures var d, own := ExpireSessions(cfg, c, now), OwnPending(c, sk);
            sk in Owners(d, OverdueIn(cfg, d, now, order)) <==>
              exists k :: k in own && Expired(cfg, own[k].observedAt, now)
  {
    var own := OwnPending(c, sk);
    var d := ExpireSessions(cfg, c, now);
    if k :| k in own && Expired(cfg, own[k].observedAt, now) {
      assert Overdue(cfg, d, now, k);
      assert k in OverdueIn(cfg, d, now, order);
    }
    if sk in Owners(d, OverdueIn(cfg, d, now, order)) {
      var k :| k in OverdueIn(cfg, d, now, order) && d.pending[k].sessionKey == sk;
      assert k in own;
    }
  }

  lemma SkipIsLocal(cfg: Config, s: World, now: Time, sk: Digest)
    requires Inv(cfg, s) && s.clock <= now && Fresh(cfg, s.core, now)
    ensures SessionAt(s.core, sk) == LocalSession(cfg, SessionAt(s.core, sk), OwnPending(s.core, sk), now)
    ensures s.core.pending == map k | k in s.core.pending && !Overdue(cfg, s.core, now, k) :: s.core.pending[k]
  {
  }

  /** The ground state of a request shows its session and its other candidates as the local view has them. */
  lemma GroundIsLocal(cfg: Config, s: World, e: Event)
    requires Inv(cfg, s) && Roomy(cfg, s.core) && Enabled(cfg, s, e) && e.Prepare?
    ensures var b, own := Ground(cfg, s.core, e), OwnPending(s.core, e.sk);
            && SessionAt(b, e.sk) == LocalSession(cfg, SessionAt(s.core, e.sk), own, e.w.now)
            && OwnPending(b, e.sk) == LocalPending(cfg, own, e.w.now, e.pk)
  {
    if e.w.swept {
      SweepIsLocal(cfg, s, e.w.now, e.w.order, e.sk);
    } else {
      SkipIsLocal(cfg, s, e.w.now, e.sk);
    }
    OwnIsLocal(cfg, s.core, Purge(cfg, s.core, e.w), e.w.now, e.pk, e.sk);
    assert e.pk == "" ==> e.pk !in s.core.pending;
    assert SessionAt(Ground(cfg, s.core, e), e.sk) == SessionAt(Purge(cfg, s.core, e.w), e.sk);
  }

  lemma OwnIsLocal(cfg: Config, c: Core, p: Core, now: Time, pk: Digest, sk: Digest)
    requires p.pending == map k | k in c.pending && !Overdue(cfg, c, now, k) :: c.pending[k]
    ensures OwnPending(Drop(p, pk), sk) == LocalPending(cfg, OwnPending(c, sk), now, pk)
    ensures pk !in c.pending ==> OwnPending(p, sk) == LocalPending(cfg, OwnPending(c, sk), now, pk)
  {
  }

  lemma VerdictIsLocal(cfg: Config, b: Core, c: Core, now: Time, sk: Digest, route: Digest, known: bool,
                       signals: Signals)
    requires SessionAt(b, sk) == SessionAt(c, sk) && OwnPending(b, sk) == OwnPending(c, sk)
    ensures Verdict(cfg, b, now, sk, route, known, signals) == Verdict(cfg, c, now, sk, route, known, signals)
  {
    if RouteMismatch(b, sk, route) {
      var k :| k in b.pending && b.pending[k].sessionKey == sk && RouteKey(b.pending[k]) != route;
      assert k in OwnPending(c, sk);
    }
    if RouteMismatch(c, sk, route) {
      var k :| k in c.pending && c.pending[k].sessionKey == sk && RouteKey(c.pending[k]) != route;
      assert k in OwnPending(b, sk);
    }
  }

  /** Away from eviction a decision depends only on the session's entry and its own candidates: two stores
      that agree on these answer alike, whatever else they hold and whether or not they swept. */
  lemma DecisionIsLocal(cfg: Config, s: World, t: World, e: Event, f: Event)
    requires Inv(cfg, s) && Roomy(cfg, s.core) && Enabled(cfg, s, e)
    requires Inv(cfg, t) && Roomy(cfg, t.core) && Enabled(cfg, t, f)
    requires e.Prepare? && f.Prepare? && f == Prepare(f.w, e.pk, e.sk, e.route, e.known, e.signals)
             && f.w.now == e.w.now
    requires SessionAt(s.core, e.sk) == SessionAt(t.core, e.sk) && OwnPending(s.core, e.sk) == OwnPending(t.core, e.sk)
    ensures Answer(cfg, s.core, e) == Answer(cfg, t.core, f)
  {
    GroundIsLocal(cfg, s, e);
    GroundIsLocal(cfg, t, f);
    VerdictIsLocal(cfg, Ground(cfg, s.core, e), Ground(cfg, t.core, f), e.w.now, e.sk, e.route, e.known, e.signals);
  }
}
