// The one way a reachable store holds a session its own validator refuses: when it arises, and a run in
// which it does.
module BlankSession {
  import opened Routes
  import opened Retirement
  import opened Eviction
  import opened Protocol
  import opened Footprint
  import opened Events
  import opened Invariant
  import opened Runs
  import opened Sweeping
  import opened Persistence
  import opened Witness

  // ---- When it arises ----

  /** Is there an idle session in the store? */
  ghost predicate AnyIdle(c: Core) {
    exists o :: o in c.sessions && !InFlight(c, o)
  }

  /** An unknown-route success with nothing to retire, for a session no longer in the store, which then has
      room for one session more, or holds an idle one while the returning session has another request in
      flight. All of it can be read off the store before the success is recorded. */
  ghost predicate LeavesBlank(cfg: Config, c: Core, e: Event) {
    && Settles(cfg, c, e) && e.outcome.Succeeded?
    && var p := Settling(cfg, c, e);
    && !p.routeKnown && !p.overflow && p.retired == []
    && var b := Ground(cfg, c, e);
    && p.sessionKey !in b.sessions
    && (|b.sessions| < cfg.maxSessions || (InFlight(b, p.sessionKey) && AnyIdle(b)))
  }

  /** A blank entry put into a full store is the oldest of its kind: it stays only if it is active and an
      idle session goes instead. */
  lemma BlankStays(max: nat, m: map<Digest, Session>, sk: Digest, active: set<Digest>)
    requires sk !in m && |m| <= max && forall o :: o in m ==> m[o].updatedAt != 0
    ensures sk in TrimSessions(max, m[sk := BLANK], active)
            <==> |m| < max || (sk in active && exists o :: o in m && o !in active)
  {
    CardReplace(m, sk, BLANK);
    if |m| == max {
      var next := m[sk := BLANK];
      OneEvicted(max, next, active);
      BlankIsOldest(m, sk, active);
      var ranks := SessionRanks(next, active);
      if IsOldest(ranks, sk) {
        OldestIsUnique(ranks, sk, Oldest(ranks));
      }
    }
  }

  lemma OneEvicted(max: nat, m: map<Digest, Session>, active: set<Digest>)
    requires |m| == max + 1
    ensures m.Keys != {} && TrimSessions(max, m, active) == m - {Oldest(SessionRanks(m, active))}
  {
    var k := Oldest(SessionRanks(m, active));
    assert (m - {k}).Keys == m.Keys - {k};
  }

  lemma BlankIsOldest(m: map<Digest, Session>, sk: Digest, active: set<Digest>)
    requires sk !in m && forall o :: o in m ==> m[o].updatedAt != 0
    ensures IsOldest(SessionRanks(m[sk := BLANK], active), sk) <==> sk !in active || forall o :: o in m ==> o in active
  {
    var ranks := SessionRanks(m[sk := BLANK], active);
    if sk !in active || forall o :: o in m ==> o in active {
      assert IsOldest(ranks, sk);
    } else {
      var o :| o in m && o !in active;
      RankIsAsymmetric(ranks[o], ranks[sk]);
    }
  }

  lemma ActiveIsInFlight(c: Core, sk: Digest)
    ensures sk in Active(c.pending) <==> InFlight(c, sk)
  {
  }

  /** The success of such a candidate leaves its blank entry in the store exactly when there is room. */
  lemma BlankEntryStays(cfg: Config, b: Core, n: nat, sk: Digest)
    requires NoBlank(b) && |b.sessions| <= cfg.maxSessions && sk !in b.sessions
    ensures sk in Put(cfg, b.(sequence := n), sk, BLANK).sessions
            <==> |b.sessions| < cfg.maxSessions || (InFlight(b, sk) && AnyIdle(b))
  {
    BlankStays(cfg.maxSessions, b.sessions, sk, Active(b.pending));
    forall o
      ensures o in Active(b.pending) <==> InFlight(b, o)
    {
      ActiveIsInFlight(b, o);
    }
  }

  lemma StampedKeepsNoBlank(cfg: Config, c: Core, d: Core, at: Time)
    requires NoBlank(c) && Stamped(cfg, c, d, at) && 0 < at
    ensures NoBlank(d)
  {
  }

  lemma StoreKeepsNoBlank(cfg: Config, c: Core, n: nat, sk: Digest, s: Session)
    requires NoBlank(c)
    ensures var d := Put(cfg, c.(sequence := n), sk, s);
            NoBlank(d) <==> !(s.updatedAt == 0 && sk in d.sessions)
  {
  }

  lemma GroundKeepsNoBlank(cfg: Config, s: World, e: Event)
    requires Inv(cfg, s) && Enabled(cfg, s, e) && NoBlank(s.core) && !e.Reset?
    ensures NoBlank(Ground(cfg, s.core, e))
  {
    match e
    case Prepare(w, pk, _, _, _, _) =>
      BaseIsBackground(cfg, s.core, w, pk);
      StampedKeepsNoBlank(cfg, s.core, Base(cfg, s.core, w, pk), w.now);
    case Completion(w, pk, _) =>
      if pk != "" {
        PurgeIsBackground(cfg, s.core, w);
        StampedKeepsNoBlank(cfg, s.core, Purge(cfg, s.core, w), w.now);
      }
    case Discard(_) =>
    case Snapshot(w) =>
      PurgeIsBackground(cfg, s.core, w);
      StampedKeepsNoBlank(cfg, s.core, Purge(cfg, s.core, w), w.now);
  }

  lemma RegisterKeepsNoBlank(cfg: Config, c: Core, w: Call, pk: Digest, s: Session, p: Pending)
    requires NoBlank(c) && 0 < w.now <= w.late
    ensures NoBlank(Register(cfg, c, w, pk, s, p))
  {
    var f := Enter(Put(cfg, c, p.sessionKey, s.(updatedAt := w.now)), pk, p);
    assert c.(sequence := c.sequence) == c;
    StoreKeepsNoBlank(cfg, c, c.sequence, p.sessionKey, s.(updatedAt := w.now));
    TrimPendingIsBackground(cfg, f, w.late);
    StampedKeepsNoBlank(cfg, f, Register(cfg, c, w, pk, s, p), w.late);
  }

  lemma FinishedBlank(cfg: Config, b: Core, p: Pending, now: Time)
    requires Sound(cfg, b, now) && NoBlank(b) && CandidateOK(p, b.sequence, now)
    ensures Finished(b, p, now).updatedAt == 0
            <==> !p.routeKnown && !p.overflow && p.retired == [] && p.sessionKey !in b.sessions
    ensures Finished(b, p, now).updatedAt == 0 ==> Finished(b, p, now) == BLANK
  {
    SessionAtOK(cfg, b, p.sessionKey, now);
    SettledStamp(SessionAt(b, p.sessionKey), b.sequence, p, now);
  }

  lemma SettledStamp(s: Session, n: nat, p: Pending, now: Time)
    requires BarrierOK(s, n) && (p.routeKnown ==> p.route != "")
    ensures var t := Retire(s, n, p.retired, p.route, p.routeKnown, now).0;
            t.updatedAt == now && t.hasRoute == s.hasRoute && t.sequence == s.sequence
  {
    RetireSpec(s, n, p.retired, p.route, p.routeKnown, now);
  }

  lemma SuccessBlank(cfg: Config, s: World, e: Event)
    requires Inv(cfg, s) && Enabled(cfg, s, e) && NoBlank(s.core) && Settles(cfg, s.core, e) && e.outcome.Succeeded?
    ensures NoBlank(Apply(cfg, s.core, e)) <==> !LeavesBlank(cfg, s.core, e)
  {
    var b, p := Ground(cfg, s.core, e), Settling(cfg, s.core, e);
    GroundKeepsNoBlank(cfg, s, e);
    GroundKeepsSound(cfg, s, e);
    SettlingOK(cfg, s, e);
    FinishedBlank(cfg, b, p, e.w.now);
    if p.sessionKey !in b.sessions {
      BlankEntryStays(cfg, b, Settled(b, p, e.w.now).1, p.sessionKey);
    }
    StoreKeepsNoBlank(cfg, b, Settled(b, p, e.w.now).1, p.sessionKey, Finished(b, p, e.w.now));
  }

  lemma RejectionKeepsNoBlank(cfg: Config, s: World, e: Event)
    requires Inv(cfg, s) && Enabled(cfg, s, e) && NoBlank(s.core) && RejectsTracked(cfg, s.core, e)
    ensures NoBlank(Apply(cfg, s.core, e))
  {
    var b := Ground(cfg, s.core, e);
    GroundKeepsNoBlank(cfg, s, e);
    GroundKeepsSound(cfg, s, e);
    SessionAtOK(cfg, b, e.sk, e.w.now);
    var j := Judged(b, e.sk, e.route, e.w.now);
    RetireSpec(j, b.sequence, e.signals.items, e.route, true, e.w.now);
    var (t, n) := Retire(j, b.sequence, e.signals.items, e.route, true, e.w.now);
    StoreKeepsNoBlank(cfg, b, n, e.sk, t);
  }

  lemma InvalidationKeepsNoBlank(cfg: Config, s: World, e: Event)
    requires Inv(cfg, s) && Enabled(cfg, s, e) && NoBlank(s.core) && Invalidates(cfg, s.core, e)
    ensures NoBlank(Apply(cfg, s.core, e))
  {
    var b, p := Ground(cfg, s.core, e), Settling(cfg, s.core, e);
    GroundKeepsNoBlank(cfg, s, e);
    assert b.(sequence := b.sequence) == b;
    StoreKeepsNoBlank(cfg, b, b.sequence, p.sessionKey, Invalidate(SessionAt(b, p.sessionKey), p, e.w.now));
  }

  /** A blank session arises in exactly one way, known before the call. */
  lemma BlankArisesExactly(cfg: Config, s: World, e: Event)
    requires Inv(cfg, s) && Enabled(cfg, s, e) && NoBlank(s.core)
    ensures NoBlank(Apply(cfg, s.core, e)) <==> !LeavesBlank(cfg, s.core, e)
  {
    if e.Reset? {
    } else if Registers(cfg, s.core, e) {
      GroundKeepsNoBlank(cfg, s, e);
      RegistersBy(cfg, s.core, e);
      RegisterKeepsNoBlank(cfg, Ground(cfg, s.core, e), e.w, e.pk, Admitted(cfg, s.core, e), Entrant(cfg, s.core, e));
    } else if RejectsTracked(cfg, s.core, e) {
      RejectionKeepsNoBlank(cfg, s, e);
    } else if Settles(cfg, s.core, e) && e.outcome.Succeeded? {
      SuccessBlank(cfg, s, e);
    } else if Invalidates(cfg, s.core, e) {
      InvalidationKeepsNoBlank(cfg, s, e);
    } else {
      GroundIsAll(cfg, s.core, e);
      GroundKeepsNoBlank(cfg, s, e);
    }
  }

  ghost predicate NeverLeavesBlank(cfg: Config, start: World, es: seq<Event>)
    decreases |es|
  {
    es == [] ||
    var front := es[..|es| - 1];
    NeverLeavesBlank(cfg, start, front) && !LeavesBlank(cfg, Play(cfg, start, front).core, es[|es| - 1])
  }

  /** A run of intercepted requests in which that never happens ends in a store that survives a restart. */
  lemma RunsWithoutBlankAreSaved(cfg: Config, start: World, es: seq<Event>, savedAt: Time, now: Time)
    requires IsRun(cfg, start, es) && Opaque(start.core) && (forall e :: e in es ==> OpaqueEvent(e))
    requires NoBlank(start.core) && NeverLeavesBlank(cfg, start, es)
    requires Play(cfg, start, es).clock <= savedAt <= now
    ensures Acceptable(Saved(Play(cfg, start, es).core, savedAt), cfg, now)
  {
    RunKeepsNoBlank(cfg, start, es);
    SnapshotClosure(cfg, start, es, savedAt, now);
  }

  lemma {:induction false} RunKeepsNoBlank(cfg: Config, start: World, es: seq<Event>)
    requires IsRun(cfg, start, es) && NoBlank(start.core) && NeverLeavesBlank(cfg, start, es)
    ensures NoBlank(Play(cfg, start, es).core)
    decreases |es|
  {
    if es == [] {
    } else {
      RunKeepsNoBlank(cfg, start, es[..|es| - 1]);
      RunKeepsInv(cfg, start, es[..|es| - 1]);
      BlankArisesExactly(cfg, Play(cfg, start, es[..|es| - 1]), es[|es| - 1]);
    }
  }

  // ---- A run in which it does ----

  const CLEAN := Signals(false, false, false, [])
  const CONTINUED := Signals(false, false, true, [])

  /** Bounds, identities and a start time for the run: room for one session only. */
  datatype Setting = Setting(cfg: Config, one: Digest, two: Digest, route: Digest, t: Time) {
    predicate Valid() {
      && cfg.Valid() && cfg.maxSessions == 1 && cfg.maxPending >= 2 && cfg.ttl < t
      && ValidDigest(one) && ValidDigest(two) && one != two && ValidDigest(route)
    }

    function Start(): World { World(EMPTY_CORE, t) }

    function End(): Time { t + cfg.ttl + 1 }

    /** A clean request on session one. */
    function E1(): Event { Prepare(At(t, []), "p1", one, route, true, CLEAN) }

    /** A continuation of session two on an unknown route: its session is evicted at once. */
    function E2(): Event { Prepare(At(t + 1, ["p1"]), "p2", two, "", false, CONTINUED) }

    /** The first request fails, so session one ages unrenewed. */
    function E3(): Event { Completion(At(t + 2, ["p1", "p2"]), "p1", Unsuccessful("")) }

    /** The second succeeds right after session one expired. */
    function E4(): Event { Completion(At(End(), ["p2"]), "p2", Succeeded) }

    function Run(): seq<Event> { [E1(), E2(), E3(), E4()] }

    function P1(): Pending { Pending(one, route, true, 1, t, true, false, false, []) }
    function P2(): Pending { Pending(two, "", false, 2, t + 1, true, false, false, []) }
    function S1(): Session { BLANK.(updatedAt := t) }

    function State1(): Core { Core(map[one := S1()], map["p1" := P1()], 1) }
    function State2(): Core { Core(map[one := S1()], map["p1" := P1(), "p2" := P2()], 2) }
    function State3(): Core { Core(map[one := S1()], map["p2" := P2()], 2) }
    function State4(): Core { Core(map[two := BLANK], map[], 2) }
  }

  lemma Step1(x: Setting)
    requires x.Valid()
    ensures Enabled(x.cfg, World(EMPTY_CORE, x.t), x.E1())
    ensures Apply(x.cfg, EMPTY_CORE, x.E1()) == x.State1()
  {
  }

  lemma OldestOfTwo(x: Setting)
    requires x.Valid()
    ensures TrimSessions(1, map[x.one := x.S1(), x.two := BLANK.(updatedAt := x.t + 1)], {x.one})
            == map[x.one := x.S1()]
  {
  }

  lemma Register2(x: Setting, w: Call)
    requires x.Valid() && w.now == x.t + 1
    ensures Register(x.cfg, x.State1(), w, "p2", BLANK, x.P2()) == x.State2()
  {
    var c := x.State1();
    assert c.pending["p1"].sessionKey == x.one;
    assert Active(c.pending) == {x.one};
    OldestOfTwo(x);
    assert Put(x.cfg, c, x.two, BLANK.(updatedAt := x.t + 1)) == c;
    assert c.pending["p2" := x.P2()] == x.State2().pending;
    assert x.State2().pending.Keys == {"p1", "p2"};
  }

  lemma Ground2(x: Setting)
    requires x.Valid()
    ensures Ground(x.cfg, x.State1(), x.E2()) == x.State1()
    ensures Enabled(x.cfg, World(x.State1(), x.t), x.E2())
  {
  }

  lemma Step2(x: Setting)
    requires x.Valid()
    ensures Enabled(x.cfg, World(x.State1(), x.t), x.E2())
    ensures Apply(x.cfg, x.State1(), x.E2()) == x.State2()
  {
    var b := x.State1();
    Ground2(x);
    assert Apply(x.cfg, b, x.E2()) == Admit(x.cfg, b, x.E2().w, "p2", x.two, "", false, CONTINUED);
    Admit2(x, b, x.E2().w);
    Register2(x, x.E2().w);
  }

  lemma Admit2(x: Setting, b: Core, w: Call)
    requires x.Valid() && w.now == x.t + 1 && x.two !in b.sessions && b.sequence == 1
    ensures Admit(x.cfg, b, w, "p2", x.two, "", false, CONTINUED) == Register(x.cfg, b, w, "p2", BLANK, x.P2())
  {
  }

  lemma Fresh2(x: Setting)
    requires x.Valid()
    ensures Fresh(x.cfg, x.State2(), x.t + 2) && NoBlank(x.State2())
  {
  }

  lemma Purge3(x: Setting)
    requires x.Valid()
    ensures Purge(x.cfg, x.State2(), x.E3().w) == x.State2()
  {
    Fresh2(x);
    PurgeFresh(x.cfg, x.State2(), x.E3().w);
  }

  lemma Step3(x: Setting)
    requires x.Valid()
    ensures Enabled(x.cfg, World(x.State2(), x.t + 1), x.E3())
    ensures Apply(x.cfg, x.State2(), x.E3()) == x.State3()
  {
    Purge3(x);
    assert !InvalidEncryptedContent("");
    assert x.State2().pending - {"p1"} == x.State3().pending;
  }

  lemma Step4(x: Setting)
    requires x.Valid()
    ensures Enabled(x.cfg, World(x.State3(), x.t + 2), x.E4())
    ensures Apply(x.cfg, x.State3(), x.E4()) == x.State4()
  {
  }

  /** The run leads the setting's empty store to the given state. */
  ghost predicate Leads(x: Setting, es: seq<Event>, to: Core, at: Time) {
    EndsIn(x.cfg, x.Start(), es, World(to, at))
  }

  lemma Extend(x: Setting, es: seq<Event>, from: World, e: Event, to: Core, at: Time)
    requires Leads(x, es, from.core, from.clock) && OpaqueEvent(e)
    requires Enabled(x.cfg, from, e) && Apply(x.cfg, from.core, e) == to && Tick(from, e) == at
    ensures Leads(x, es + [e], to, at)
  {
    OneMore(x.cfg, x.Start(), es, from, e, World(to, at));
  }

  lemma Extend1(x: Setting, es: seq<Event>)
    requires x.Valid() && Leads(x, es, EMPTY_CORE, x.t)
    ensures Leads(x, es + [x.E1()], x.State1(), x.t)
  {
    Step1(x);
    Extend(x, es, World(EMPTY_CORE, x.t), x.E1(), x.State1(), x.t);
  }

  lemma Extend2(x: Setting, es: seq<Event>)
    requires x.Valid() && Leads(x, es, x.State1(), x.t)
    ensures Leads(x, es + [x.E2()], x.State2(), x.t + 1)
  {
    Step2(x);
    Extend(x, es, World(x.State1(), x.t), x.E2(), x.State2(), x.t + 1);
  }

  lemma Extend3(x: Setting, es: seq<Event>)
    requires x.Valid() && Leads(x, es, x.State2(), x.t + 1)
    ensures Leads(x, es + [x.E3()], x.State3(), x.t + 2)
  {
    Step3(x);
    Extend(x, es, World(x.State2(), x.t + 1), x.E3(), x.State3(), x.t + 2);
  }

  lemma Extend4(x: Setting, es: seq<Event>)
    requires x.Valid() && Leads(x, es, x.State3(), x.t + 2)
    ensures Leads(x, es + [x.E4()], x.State4(), x.End())
  {
    Step4(x);
    Extend(x, es, World(x.State3(), x.t + 2), x.E4(), x.State4(), x.End());
  }

  lemma FirstHalf(x: Setting, es: seq<Event>)
    requires x.Valid() && Leads(x, es, EMPTY_CORE, x.t)
    ensures Leads(x, es + [x.E1()] + [x.E2()], x.State2(), x.t + 1)
  {
    Extend1(x, es);
    Extend2(x, es + [x.E1()]);
  }

  lemma SecondHalf(x: Setting, es: seq<Event>)
    requires x.Valid() && Leads(x, es, x.State2(), x.t + 1)
    ensures Leads(x, es + [x.E3()] + [x.E4()], x.State4(), x.End())
  {
    Extend3(x, es);
    Extend4(x, es + [x.E3()]);
  }

  lemma OneByOne(a: Event, b: Event, c: Event, d: Event)
    ensures [] + [a] + [b] + [c] + [d] == [a, b, c, d]
  {
  }

  lemma BlankRunReaches(x: Setting)
    requires x.Valid()
    ensures Leads(x, x.Run(), x.State4(), x.End())
  {
    StartLeads(x);
    WholeRun(x, []);
    OneByOne(x.E1(), x.E2(), x.E3(), x.E4());
  }

  lemma StartLeads(x: Setting)
    requires x.Valid()
    ensures Leads(x, [], EMPTY_CORE, x.t)
  {
    EmptyBegins(x.cfg, x.t);
  }

  lemma WholeRun(x: Setting, es: seq<Event>)
    requires x.Valid() && Leads(x, es, EMPTY_CORE, x.t)
    ensures Leads(x, es + [x.E1()] + [x.E2()] + [x.E3()] + [x.E4()], x.State4(), x.End())
  {
    FirstHalf(x, es);
    SecondHalf(x, es + [x.E1()] + [x.E2()]);
  }

  /** With room for a single session, whatever the TTL, the identities and the start time, this run of
      intercepted requests leaves a store whose snapshot cannot be loaded again. */
  lemma BlankIsReachable(x: Setting, savedAt: Time, now: Time)
    requires x.Valid() && x.End() <= savedAt <= now
    ensures IsRun(x.cfg, x.Start(), x.Run()) && forall e :: e in x.Run() ==> OpaqueEvent(e)
    ensures !Acceptable(Saved(Play(x.cfg, x.Start(), x.Run()).core, savedAt), x.cfg, now)
  {
    BlankRunReaches(x);
    assert x.two in Saved(x.State4(), savedAt).sessions;
  }
}
