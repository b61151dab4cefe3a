// The retirement barrier over runs: once an item is behind it, no Same-route request gets it through.
module Barrier {
  import opened Routes
  import opened Retirement
  import opened Protocol
  import opened Footprint
  import opened Events
  import opened Invariant
  import opened Runs

  /** The session will not let the item through on the route: it is barred there, or the barrier overflowed. */
  predicate Guarded(s: Session, item: Digest, route: Digest) {
    s.overflow || Barred(s, item, route)
  }

  /** The event retires the item of this session again, for another route. */
  ghost predicate Rescopes(cfg: Config, c: Core, e: Event, o: Digest, item: Digest, route: Digest) {
    || (RejectsTracked(cfg, c, e) && e.sk == o && item in e.signals.items && e.route != route)
    || (Settles(cfg, c, e) && e.outcome.Succeeded?
        && var p := Settling(cfg, c, e); p.sessionKey == o && item in p.retired && p.routeKnown && p.route != route)
  }

  /** Retiring the items makes the barrier overflow, or finds it overflowed: told from the session and the
      items alone. */
  predicate TooMany(s: Session, items: seq<Digest>) {
    s.overflow || |items| > MAX_RETIRED || |s.retiredItems.Keys + ItemSet(items)| > MAX_RETIRED
  }

  /** Does the event make the barrier of this session overflow, or find it overflowed? Told from the swept
      state in which the event acts. */
  ghost predicate Overflows(cfg: Config, c: Core, e: Event, o: Digest) {
    var was := SessionAt(Ground(cfg, c, e), o);
    if RejectsTracked(cfg, c, e) && e.sk == o then TooMany(was, e.signals.items)
    else if Settles(cfg, c, e) && e.outcome.Succeeded? && Settling(cfg, c, e).sessionKey == o then
      Settling(cfg, c, e).overflow || TooMany(was, Settling(cfg, c, e).retired)
    else was.overflow
  }

  lemma RetireKeepsGuard(s: Session, n: nat, items: seq<Digest>, to: Digest, known: bool, now: Time, item: Digest,
                         route: Digest)
    requires BarrierOK(s, n) && (known ==> to != "") && Guarded(s, item, route)
    ensures KeptGuard(Retire(s, n, items, to, known, now).0, item, route, item in items && known && to != route,
                      TooMany(s, items))
  {
    RetireSpec(s, n, items, to, known, now);
    BarredAfterRetire(s, n, items, to, known, now, item, route);
  }

  lemma RetireGuards(s: Session, n: nat, items: seq<Digest>, to: Digest, known: bool, now: Time, item: Digest,
                     route: Digest)
    requires BarrierOK(s, n) && (known ==> to != "") && item in items && item != "" && (known ==> to == route)
    ensures Guarded(Retire(s, n, items, to, known, now).0, item, route)
  {
    BarredAfterRetire(s, n, items, to, known, now, item, route);
  }

  /** An item that was guarded is so afterwards exactly when it was not re-scoped or the barrier overflows. */
  predicate KeptGuard(t: Session, item: Digest, route: Digest, rescoped: bool, overflows: bool) {
    && (t.overflow <==> overflows)
    && (Guarded(t, item, route) <==> !rescoped || overflows)
  }

  lemma RejectKeepsGuard(cfg: Config, s: World, e: Event, item: Digest, route: Digest)
    requires Inv(cfg, s) && Enabled(cfg, s, e) && RejectsTracked(cfg, s.core, e)
    requires Guarded(SessionAt(Ground(cfg, s.core, e), e.sk), item, route)
    ensures KeptGuard(Own(cfg, s.core, e), item, route, item in e.signals.items && e.route != route,
                      TooMany(SessionAt(Ground(cfg, s.core, e), e.sk), e.signals.items))
  {
    var b := Ground(cfg, s.core, e);
    GroundKeepsSound(cfg, s, e);
    SessionAtOK(cfg, b, e.sk, e.w.now);
    RetireKeepsGuard(Judged(b, e.sk, e.route, e.w.now), b.sequence, e.signals.items, e.route, true, e.w.now, item,
                     route);
  }

  lemma FinishedBarrier(b: Core, p: Pending, now: Time)
    ensures var s, t := Settled(b, p, now).0, Finished(b, p, now);
            t.retiredItems == s.retiredItems && t.retiredRoutes == s.retiredRoutes && t.overflow == s.overflow
  {
  }

  lemma NoneTooMany(s: Session, n: nat)
    requires BarrierOK(s, n)
    ensures TooMany(s, []) == s.overflow
  {
    assert s.retiredItems.Keys + ItemSet([]) == s.retiredItems.Keys;
  }

  lemma SettledKeepsGuard(cfg: Config, b: Core, p: Pending, now: Time, item: Digest, route: Digest)
    requires Sound(cfg, b, now) && CandidateOK(p, b.sequence, now)
    requires Guarded(SessionAt(b, p.sessionKey), item, route)
    ensures KeptGuard(Finished(b, p, now), item, route, item in p.retired && p.routeKnown && p.route != route,
                      p.overflow || TooMany(SessionAt(b, p.sessionKey), p.retired))
  {
    var s := SessionAt(b, p.sessionKey);
    SessionAtOK(cfg, b, p.sessionKey, now);
    FinishedBarrier(b, p, now);
    if p.overflow {
    } else if p.retired != [] {
      RetireKeepsGuard(s, b.sequence, p.retired, p.route, p.routeKnown, now, item, route);
    } else {
      NoneTooMany(s, b.sequence);
    }
  }

  lemma SuccessKeepsGuard(cfg: Config, s: World, e: Event, item: Digest, route: Digest)
    requires Inv(cfg, s) && Enabled(cfg, s, e) && Settles(cfg, s.core, e) && e.outcome.Succeeded?
    requires Guarded(SessionAt(Ground(cfg, s.core, e), Settling(cfg, s.core, e).sessionKey), item, route)
    ensures var b, p := Ground(cfg, s.core, e), Settling(cfg, s.core, e);
            KeptGuard(Finished(b, p, e.w.now), item, route, item in p.retired && p.routeKnown && p.route != route,
                      p.overflow || TooMany(SessionAt(b, p.sessionKey), p.retired))
  {
    GroundKeepsSound(cfg, s, e);
    SettlingOK(cfg, s, e);
    SettledKeepsGuard(cfg, Ground(cfg, s.core, e), Settling(cfg, s.core, e), e.w.now, item, route);
  }

  /** The event neither rejects nor settles with success: it leaves the barrier of its session alone. */
  lemma BarrierUntouched(cfg: Config, c: Core, e: Event)
    requires !e.Reset? && !RejectsTracked(cfg, c, e) && !(Settles(cfg, c, e) && e.outcome.Succeeded?)
    ensures var was, own := SessionAt(Ground(cfg, c, e), Subject(cfg, c, e)), Own(cfg, c, e);
            own.retiredItems == was.retiredItems && own.retiredRoutes == was.retiredRoutes
              && own.overflow == was.overflow
  {
    if Registers(cfg, c, e) {
      RegisteredSession(cfg, c, e);
    }
  }

  lemma OwnKeepsGuard(cfg: Config, s: World, e: Event, item: Digest, route: Digest)
    requires Inv(cfg, s) && Enabled(cfg, s, e) && !e.Reset?
    requires Guarded(SessionAt(Ground(cfg, s.core, e), Subject(cfg, s.core, e)), item, route)
    ensures var o := Subject(cfg, s.core, e);
            KeptGuard(Own(cfg, s.core, e), item, route, Rescopes(cfg, s.core, e, o, item, route),
                      Overflows(cfg, s.core, e, o))
  {
    if RejectsTracked(cfg, s.core, e) {
      RejectKeepsGuard(cfg, s, e, item, route);
    } else if Settles(cfg, s.core, e) && e.outcome.Succeeded? {
      SuccessKeepsGuard(cfg, s, e, item, route);
    } else {
      BarrierUntouched(cfg, s.core, e);
    }
  }

  /** Around the one session an event writes, sweeping and trimming leave its barrier alone. */
  lemma GuardPasses(c: Core, b: Core, d: Core, r1: set<Digest>, r2: set<Digest>, o: Digest, own: Session,
                    item: Digest, route: Digest, rescoped: bool, overflows: bool)
    requires Background(c, b, r1) && Effect(b, d, r2, o, own)
    requires o in c.sessions && o !in r1 + r2 && Guarded(c.sessions[o], item, route)
    requires Guarded(SessionAt(b, o), item, route) ==> KeptGuard(own, item, route, rescoped, overflows)
    ensures o in d.sessions && KeptGuard(d.sessions[o], item, route, rescoped, overflows)
    ensures c.sessions[o].overflow ==> SessionAt(b, o).overflow
  {
    assert Spared(c, b, r1, o);
  }

  lemma SubjectKeepsGuard(cfg: Config, s: World, e: Event, item: Digest, route: Digest)
    requires Inv(cfg, s) && Enabled(cfg, s, e) && !e.Reset?
    requires var o := Subject(cfg, s.core, e);
             o in s.core.sessions && o !in Removes(cfg, s.core, e) && Guarded(s.core.sessions[o], item, route)
    ensures var o, d := Subject(cfg, s.core, e), Apply(cfg, s.core, e);
            && o in d.sessions
            && KeptGuard(d.sessions[o], item, route, Rescopes(cfg, s.core, e, o, item, route),
                         Overflows(cfg, s.core, e, o))
            && (s.core.sessions[o].overflow ==> Overflows(cfg, s.core, e, o))
  {
    var c, o := s.core, Subject(cfg, s.core, e);
    EventEffect(cfg, c, e);
    GroundIsBackground(cfg, c, e);
    if Guarded(SessionAt(Ground(cfg, c, e), o), item, route) {
      OwnKeepsGuard(cfg, s, e, item, route);
    }
    GuardPasses(c, Ground(cfg, c, e), Apply(cfg, c, e), EarlyRemoves(cfg, c, e), LateRemoves(cfg, c, e), o,
                Own(cfg, c, e), item, route, Rescopes(cfg, c, e, o, item, route), Overflows(cfg, c, e, o));
  }

  lemma OthersBarrier(cfg: Config, c: Core, e: Event, o: Digest)
    requires !e.Reset? && o != Subject(cfg, c, e) && o in c.sessions && o !in Removes(cfg, c, e)
    ensures o in Apply(cfg, c, e).sessions
    ensures var s, t := c.sessions[o], Apply(cfg, c, e).sessions[o];
            t.retiredItems == s.retiredItems && t.retiredRoutes == s.retiredRoutes && t.overflow == s.overflow
  {
    SessionIsolation(cfg, c, e, o);
  }

  lemma OthersUnconcerned(cfg: Config, c: Core, e: Event, o: Digest, item: Digest, route: Digest)
    requires o != Subject(cfg, c, e)
    ensures !Rescopes(cfg, c, e, o, item, route)
    ensures Overflows(cfg, c, e, o) == SessionAt(Ground(cfg, c, e), o).overflow
  {
  }

  lemma GroundKeepsOverflow(cfg: Config, c: Core, e: Event, o: Digest)
    requires !e.Reset? && o in c.sessions && o !in EarlyRemoves(cfg, c, e)
    ensures SessionAt(Ground(cfg, c, e), o).overflow == c.sessions[o].overflow
  {
    GroundIsBackground(cfg, c, e);
    assert Spared(c, Ground(cfg, c, e), EarlyRemoves(cfg, c, e), o);
  }

  lemma OthersKeepGuard(cfg: Config, c: Core, e: Event, o: Digest, item: Digest, route: Digest)
    requires !e.Reset? && o != Subject(cfg, c, e)
    requires o in c.sessions && o !in Removes(cfg, c, e) && Guarded(c.sessions[o], item, route)
    ensures !Rescopes(cfg, c, e, o, item, route) && Overflows(cfg, c, e, o) == c.sessions[o].overflow
    ensures o in Apply(cfg, c, e).sessions
    ensures KeptGuard(Apply(cfg, c, e).sessions[o], item, route, false, c.sessions[o].overflow)
  {
    OthersBarrier(cfg, c, e, o);
    OthersUnconcerned(cfg, c, e, o, item, route);
    GroundKeepsOverflow(cfg, c, e, o);
  }

  /** Through any event that does not remove its session, an item stays behind the barrier exactly when it is
      not re-scoped or the barrier overflows, and the barrier is overflowed afterwards exactly when it was or
      there are too many items: all told before the event. An overflowed barrier stays overflowed. */
  lemma GuardHolds(cfg: Config, s: World, e: Event, o: Digest, item: Digest, route: Digest)
    requires Inv(cfg, s) && Enabled(cfg, s, e)
    requires o in s.core.sessions && o !in Removes(cfg, s.core, e) && Guarded(s.core.sessions[o], item, route)
    ensures var d := Apply(cfg, s.core, e);
            && o in d.sessions
            && KeptGuard(d.sessions[o], item, route, Rescopes(cfg, s.core, e, o, item, route),
                         Overflows(cfg, s.core, e, o))
            && (s.core.sessions[o].overflow ==> Overflows(cfg, s.core, e, o))
  {
    if o == Subject(cfg, s.core, e) {
      SubjectKeepsGuard(cfg, s, e, item, route);
    } else {
      OthersKeepGuard(cfg, s.core, e, o, item, route);
    }
  }

  /** The session stays in the store through every event, and none re-scopes the item. */
  ghost predicate Undisturbed(cfg: Config, s: World, es: seq<Event>, o: Digest, item: Digest, route: Digest)
    decreases |es|
  {
    es == [] ||
    var front, e := es[..|es| - 1], es[|es| - 1];
    && Undisturbed(cfg, s, front, o, item, route)
    && o !in Removes(cfg, Play(cfg, s, front).core, e)
    && !Rescopes(cfg, Play(cfg, s, front).core, e, o, item, route)
  }

  lemma {:induction false} GuardHoldsOverRuns(cfg: Config, s: World, es: seq<Event>, o: Digest, item: Digest,
                                              route: Digest)
    requires Inv(cfg, s) && Playable(cfg, s, es)
    requires o in s.core.sessions && Guarded(s.core.sessions[o], item, route)
    requires Undisturbed(cfg, s, es, o, item, route)
    ensures var d := Play(cfg, s, es).core; o in d.sessions && Guarded(d.sessions[o], item, route)
    decreases |es|
  {
    if es == [] {
    } else {
      var front, e := es[..|es| - 1], es[|es| - 1];
      GuardHoldsOverRuns(cfg, s, front, o, item, route);
      PlayKeepsInv(cfg, s, front);
      GuardHolds(cfg, Play(cfg, s, front), e, o, item, route);
    }
  }

  /** The request does not carry the item on: it is stripped, rejected, or the item is blocked. */
  ghost predicate KeepsOut(cfg: Config, c: Core, e: Event, item: Digest)
    requires e.Prepare?
  {
    var d := Answer(cfg, c, e);
    d.strip || d.reject || item in d.blocked
  }

  lemma GuardKeepsOut(cfg: Config, s: World, e: Event, item: Digest)
    requires Inv(cfg, s) && Enabled(cfg, s, e) && e.Prepare? && e.known && e.signals.Consistent()
             && item in e.signals.items
    requires e.sk in s.core.sessions && e.sk !in EarlyRemoves(cfg, s.core, e)
    requires Guarded(s.core.sessions[e.sk], item, e.route)
    ensures KeepsOut(cfg, s.core, e, item)
  {
    GroundKeepsGuard(cfg, s.core, e, item, e.route);
    GuardedVerdict(cfg, Judged(Ground(cfg, s.core, e), e.sk, e.route, e.w.now), e.route, e.signals, item);
  }

  lemma GroundKeepsGuard(cfg: Config, c: Core, e: Event, item: Digest, route: Digest)
    requires e.Prepare? && e.sk in c.sessions && e.sk !in EarlyRemoves(cfg, c, e)
             && Guarded(c.sessions[e.sk], item, route)
    ensures Guarded(SessionAt(Ground(cfg, c, e), e.sk), item, route)
  {
    GroundIsBackground(cfg, c, e);
    assert Spared(c, Ground(cfg, c, e), EarlyRemoves(cfg, c, e), e.sk);
  }

  lemma GuardedVerdict(cfg: Config, s: Session, route: Digest, signals: Signals, item: Digest)
    requires signals.Consistent() && item in signals.items && Guarded(s, item, route)
    ensures var d := Decide(cfg, s, route, signals); d.strip || d.reject || item in d.blocked
  {
  }

  /** Retirement barrier: once behind it, an item is kept out of every request on its route until its
      session is removed or the item is re-scoped. */
  lemma RetirementBarrier(cfg: Config, s: World, es: seq<Event>, e: Event, item: Digest)
    requires Inv(cfg, s) && Playable(cfg, s, es) && Enabled(cfg, Play(cfg, s, es), e)
    requires e.Prepare? && e.known && e.signals.Consistent() && item in e.signals.items
    requires e.sk in s.core.sessions && Guarded(s.core.sessions[e.sk], item, e.route)
    requires Undisturbed(cfg, s, es, e.sk, item, e.route) && e.sk !in EarlyRemoves(cfg, Play(cfg, s, es).core, e)
    ensures KeepsOut(cfg, Play(cfg, s, es).core, e, item)
  {
    GuardHoldsOverRuns(cfg, s, es, e.sk, item, e.route);
    PlayKeepsInv(cfg, s, es);
    GuardKeepsOut(cfg, Play(cfg, s, es), e, item);
  }

  // ---- How items get behind the barrier ----

  /** A rejected request's items are barred from the route it was rejected for. */
  lemma RejectionBars(cfg: Config, s: World, e: Event, item: Digest)
    requires Inv(cfg, s) && Enabled(cfg, s, e) && RejectsTracked(cfg, s.core, e)
    requires item in e.signals.items && item != "" && e.sk in Apply(cfg, s.core, e).sessions
    ensures Guarded(Apply(cfg, s.core, e).sessions[e.sk], item, e.route)
  {
    var b := Ground(cfg, s.core, e);
    GroundKeepsSound(cfg, s, e);
    SessionAtOK(cfg, b, e.sk, e.w.now);
    RetireGuards(Judged(b, e.sk, e.route, e.w.now), b.sequence, e.signals.items, e.route, true, e.w.now, item, e.route);
  }

  /** A stripped candidate carries every item it lost to its completion. */
  lemma StrippedItemsAreCarried(cfg: Config, c: Core, e: Event, item: Digest)
    requires Registers(cfg, c, e) && Answer(cfg, c, e).strip && item in e.signals.items && item != ""
    ensures Entrant(cfg, c, e).overflow || item in Entrant(cfg, c, e).retired
  {
  }

  /** When a stripped request succeeds, its items are barred from the route it succeeded on; from every
      route if that route is unknown. */
  lemma SuccessBars(cfg: Config, s: World, e: Event, item: Digest, route: Digest)
    requires Inv(cfg, s) && Enabled(cfg, s, e) && Settles(cfg, s.core, e) && e.outcome.Succeeded?
    requires var p := Settling(cfg, s.core, e);
             && (p.overflow || item in p.retired) && (p.routeKnown ==> p.route == route)
             && p.sessionKey in Apply(cfg, s.core, e).sessions
    ensures Guarded(Apply(cfg, s.core, e).sessions[Settling(cfg, s.core, e).sessionKey], item, route)
  {
    var b, p := Ground(cfg, s.core, e), Settling(cfg, s.core, e);
    GroundKeepsSound(cfg, s, e);
    SettlingOK(cfg, s, e);
    SessionAtOK(cfg, b, p.sessionKey, e.w.now);
    if !p.overflow {
      RetireGuards(SessionAt(b, p.sessionKey), b.sequence, p.retired, p.route, p.routeKnown, e.w.now, item, route);
    }
  }
}
