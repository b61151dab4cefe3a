// Once barred is not always barred: an item retired again for another route is let through on the first one.
module ScopeOverwrite {
  import opened Routes
  import opened Retirement
  import opened Eviction
  import opened Protocol
  import opened Events
  import opened Invariant
  import opened Runs
  import opened Persistence
  import opened Barrier
  import opened Witness

  /** Bounds and identities for the run; everything happens at time t. */
  datatype Setting = Setting(cfg: Config, sk: Digest, first: Digest, other: Digest, item: Digest, t: Time) {
    predicate Valid() {
      && cfg.Valid() && cfg.policy == Block && cfg.ttl < t
      && ValidDigest(sk) && ValidDigest(first) && ValidDigest(other) && ValidDigest(item) && first != other
    }

    function Start(): World { World(EMPTY_CORE, t) }

    function Reasoning(): Signals { Signals(true, false, false, [item]) }
    function Compaction(): Signals { Signals(false, true, false, [item]) }

    /** A request with the item on the first route: nothing is known of the session, so it is stripped. */
    function E1(): Event { Prepare(At(t, []), "p1", sk, first, true, Reasoning()) }

    /** It succeeds: the route is bound, and the item retired for it. */
    function E2(): Event { Completion(At(t, ["p1"]), "p1", Succeeded) }

    /** A compaction request with the same item on the other route is rejected, and retires the item for it. */
    function E3(): Event { Prepare(At(t, []), "p2", sk, other, true, Compaction()) }

    /** The item on the first route again. */
    function Replay(): Event { Prepare(At(t, []), "p3", sk, first, true, Reasoning()) }

    function P1(): Pending { Pending(sk, first, true, 1, t, true, false, false, [item]) }
    function S2(): Session { Session(first, true, 1, t, false, map[item := 2], map[item := first], false) }
    function S3(): Session { Session(first, true, 1, t, false, map[item := 3], map[item := other], false) }

    function State1(): Core { Core(map[sk := BLANK.(updatedAt := t)], map["p1" := P1()], 1) }
    function State2(): Core { Core(map[sk := S2()], map[], 2) }
    function State3(): Core { Core(map[sk := S3()], map[], 3) }
  }

  lemma DistinctOne(item: Digest)
    requires item != ""
    ensures Distinct([item]) == [item]
  {
    assert [item][..0] == [];
  }

  /** What a call without candidates in flight acts on. */
  lemma IdleGround(x: Setting, c: Core, e: Event)
    requires e.Prepare? && e.w == At(x.t, []) && c.pending == map[]
    requires forall o :: o in c.sessions ==> c.sessions[o].updatedAt == x.t > 0
    ensures Ground(x.cfg, c, e) == c
    ensures e.known ==> e.route != "" ==> Enabled(x.cfg, World(c, x.t), e)
  {
    PurgeFresh(x.cfg, c, e.w);
    assert c.pending - {e.pk} == c.pending;
  }

  lemma FirstCandidate(x: Setting)
    requires x.Valid()
    ensures Decide(x.cfg, BLANK, x.first, x.Reasoning()) == Decision(Unknown, true, false, [])
    ensures Candidate(EMPTY_CORE, x.sk, x.first, true, BLANK, x.Reasoning(), true, x.t) == x.P1()
  {
    DistinctOne(x.item);
  }

  lemma Step1(x: Setting)
    requires x.Valid()
    ensures Enabled(x.cfg, x.Start(), x.E1())
    ensures Next(x.cfg, x.Start(), x.E1()) == World(x.State1(), x.t)
  {
    IdleGround(x, EMPTY_CORE, x.E1());
    FirstCandidate(x);
    RegistersBy(x.cfg, EMPTY_CORE, x.E1());
    assert |map[x.sk := BLANK.(updatedAt := x.t)]| == 1;
    assert |map["p1" := x.P1()]| == 1;
  }

  lemma RetireOneItem(s: Session, n: nat, item: Digest, route: Digest, now: Time)
    requires !s.overflow && item != "" && |s.retiredItems[item := n + 1]| <= MAX_RETIRED
    ensures Retire(s, n, [item], route, true, now)
            == (s.(retiredItems := s.retiredItems[item := n + 1], retiredRoutes := s.retiredRoutes[item := route],
                   updatedAt := now), n + 1)
  {
    var next := RetireOne(s, item, n + 1, route, true);
    assert RetireAll(next, n + 1, [item][1..], route, true, now) == (next.(updatedAt := now), n + 1);
  }

  lemma FirstSuccess(x: Setting, b: Core)
    requires x.Valid() && b == Core(x.State1().sessions, map[], 1)
    ensures Settled(b, x.P1(), x.t).1 == 2 && Finished(b, x.P1(), x.t) == x.S2()
  {
    assert |BLANK.retiredItems[x.item := 2]| == 1;
    RetireOneItem(BLANK.(updatedAt := x.t), 1, x.item, x.first, x.t);
    assert !x.P1().canClearTaint;
  }

  lemma Fresh1(x: Setting)
    requires x.Valid()
    ensures Purge(x.cfg, x.State1(), At(x.t, ["p1"])) == x.State1()
  {
    PurgeFresh(x.cfg, x.State1(), At(x.t, ["p1"]));
  }

  lemma PutSame(cfg: Config, b: Core, n: nat, sk: Digest, s: Session, t: Session)
    requires cfg.maxSessions >= 1 && b.sessions == map[sk := s]
    ensures Put(cfg, b.(sequence := n), sk, t) == Core(map[sk := t], b.pending, n)
  {
    assert b.sessions[sk := t] == map[sk := t];
    assert |map[sk := t]| == 1;
  }

  lemma Step2(x: Setting)
    requires x.Valid()
    ensures Enabled(x.cfg, World(x.State1(), x.t), x.E2())
    ensures Next(x.cfg, World(x.State1(), x.t), x.E2()) == World(x.State2(), x.t)
  {
    var b := Drop(x.State1(), "p1");
    Fresh1(x);
    assert b == Core(x.State1().sessions, map[], 1);
    FirstSuccess(x, b);
    PutSame(x.cfg, b, 2, x.sk, BLANK.(updatedAt := x.t), x.S2());
    assert Complete(x.cfg, x.State1(), x.E2().w, "p1", Succeeded) == Conclude(x.cfg, b, x.t, x.P1(), Succeeded);
  }

  lemma Rejected(x: Setting)
    requires x.Valid()
    ensures Judged(x.State2(), x.sk, x.other, x.t) == x.S2()
    ensures Decide(x.cfg, x.S2(), x.other, x.Compaction()) == Decision(Changed, false, true, [])
    ensures Retire(x.S2(), 2, [x.item], x.other, true, x.t) == (x.S3(), 3)
  {
    assert x.S2().retiredItems[x.item := 3] == map[x.item := 3];
    assert x.S2().retiredRoutes[x.item := x.other] == map[x.item := x.other];
    assert |map[x.item := 3]| == 1;
    RetireOneItem(x.S2(), 2, x.item, x.other, x.t);
  }

  lemma Step3(x: Setting)
    requires x.Valid()
    ensures Enabled(x.cfg, World(x.State2(), x.t), x.E3()) && RejectsTracked(x.cfg, x.State2(), x.E3())
    ensures Next(x.cfg, World(x.State2(), x.t), x.E3()) == World(x.State3(), x.t)
  {
    IdleGround(x, x.State2(), x.E3());
    Rejected(x);
    PutSame(x.cfg, x.State2(), 3, x.sk, x.S2(), x.S3());
  }

  lemma Matching(s: Session, item: Digest, route: Digest)
    ensures Matches(s, [item], route) == if Barred(s, item, route) then [item] else []
  {
    assert [item][..0] == [];
    assert Matches(s, [item][..0], route) == [];
  }

  lemma ReplayAnswer(x: Setting, c: Core, s: Session)
    requires x.Valid() && c == Core(map[x.sk := s], map[], c.sequence) && s.updatedAt == x.t
    requires s.hasRoute && s.route == x.first && !s.tainted && !s.overflow
    ensures Enabled(x.cfg, World(c, x.t), x.Replay())
    ensures Answer(x.cfg, c, x.Replay())
            == Decision(Same, false, false, if Barred(s, x.item, x.first) then [x.item] else [])
  {
    IdleGround(x, c, x.Replay());
    Matching(s, x.item, x.first);
  }

  lemma Extend1(x: Setting, es: seq<Event>)
    requires x.Valid() && EndsIn(x.cfg, x.Start(), es, x.Start())
    ensures EndsIn(x.cfg, x.Start(), es + [x.E1()], World(x.State1(), x.t))
  {
    Step1(x);
    OneMore(x.cfg, x.Start(), es, x.Start(), x.E1(), World(x.State1(), x.t));
  }

  lemma Extend2(x: Setting, es: seq<Event>)
    requires x.Valid() && EndsIn(x.cfg, x.Start(), es, World(x.State1(), x.t))
    ensures EndsIn(x.cfg, x.Start(), es + [x.E2()], World(x.State2(), x.t))
  {
    Step2(x);
    OneMore(x.cfg, x.Start(), es, World(x.State1(), x.t), x.E2(), World(x.State2(), x.t));
  }

  lemma Extend3(x: Setting, es: seq<Event>)
    requires x.Valid() && EndsIn(x.cfg, x.Start(), es, World(x.State2(), x.t))
    ensures EndsIn(x.cfg, x.Start(), es + [x.E3()], World(x.State3(), x.t))
  {
    Step3(x);
    OneMore(x.cfg, x.Start(), es, World(x.State2(), x.t), x.E3(), World(x.State3(), x.t));
  }

  lemma StartEnds(x: Setting)
    requires x.Valid()
    ensures EndsIn(x.cfg, x.Start(), [], x.Start())
  {
    EmptyBegins(x.cfg, x.t);
  }

  lemma OverwriteRun(x: Setting, es: seq<Event>)
    requires x.Valid() && EndsIn(x.cfg, x.Start(), es, x.Start())
    ensures EndsIn(x.cfg, x.Start(), es + [x.E1()] + [x.E2()], World(x.State2(), x.t))
    ensures EndsIn(x.cfg, x.Start(), es + [x.E1()] + [x.E2()] + [x.E3()], World(x.State3(), x.t))
  {
    Extend1(x, es);
    Extend2(x, es + [x.E1()]);
    Extend3(x, es + [x.E1()] + [x.E2()]);
  }

  lemma OneByOne(a: Event, b: Event, c: Event)
    ensures [] + [a] + [b] == [a, b] && [] + [a] + [b] + [c] == [a, b, c]
  {
  }

  /** The run is possible on every store with the block policy, whatever the identities. */
  lemma OverwriteIsReachable(x: Setting)
    requires x.Valid()
    ensures EndsIn(x.cfg, x.Start(), [x.E1(), x.E2()], World(x.State2(), x.t))
    ensures EndsIn(x.cfg, x.Start(), [x.E1(), x.E2(), x.E3()], World(x.State3(), x.t))
  {
    StartEnds(x);
    OverwriteRun(x, []);
    OneByOne(x.E1(), x.E2(), x.E3());
  }

  /** Scope overwrite: the item retired for a route is blocked there; after a request that carries it was
      rejected on another route, it is let through. */
  lemma ScopeOverwriteUnbars(x: Setting)
    requires x.Valid()
    ensures Guarded(x.State2().sessions[x.sk], x.item, x.first)
    ensures Answer(x.cfg, x.State2(), x.Replay()) == Decision(Same, false, false, [x.item])
    ensures Rescopes(x.cfg, x.State2(), x.E3(), x.sk, x.item, x.first)
    ensures Answer(x.cfg, x.State3(), x.Replay()) == Decision(Same, false, false, [])
    ensures LetThrough(x.cfg, x.State3(), x.Replay())
  {
    ReplayAnswer(x, x.State2(), x.S2());
    ReplayAnswer(x, x.State3(), x.S3());
    OverwriteRescopes(x);
  }

  lemma OverwriteRescopes(x: Setting)
    requires x.Valid()
    ensures Rescopes(x.cfg, x.State2(), x.E3(), x.sk, x.item, x.first)
  {
    Step3(x);
  }
}
