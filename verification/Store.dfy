// routeStateStore: the mutable store behind the plugin's mutex. Every public method is one event of the
// protocol, carried out with an index and an amortised sweep the protocol knows nothing about.
module Store {
  import opened Text
  import opened Routes
  import opened Retirement
  import Eviction
  import opened Protocol
  import opened Footprint
  import opened Events
  import opened Invariant
  import opened PendingIndex
  import opened Identity

  // ---- The sweep schedule ----

  /** The next sweep comes no later than the first moment any entry, blank sessions apart, is past its TTL. */
  ghost predicate Due(cfg: Config, nextPurge: Time, c: Core) {
    && (forall k :: k in c.sessions && c.sessions[k].updatedAt != 0 ==>
          nextPurge <= c.sessions[k].updatedAt + cfg.ttl + 1)
    && (forall k :: k in c.pending ==> nextPurge <= c.pending[k].observedAt + cfg.ttl + 1)
  }

  lemma NotYetDue(cfg: Config, nextPurge: Time, c: Core, now: Time)
    requires Due(cfg, nextPurge, c) && now < nextPurge
    ensures Fresh(cfg, c, now)
  {
  }

  lemma StampedKeepsDue(cfg: Config, nextPurge: Time, c: Core, d: Core, removed: set<Digest>, at: Time)
    requires Due(cfg, nextPurge, c) && Background(c, d, removed) && Stamped(cfg, c, d, at)
    requires nextPurge <= at + cfg.ttl + 1
    ensures Due(cfg, nextPurge, d)
  {
  }

  lemma StoreKeepsDue(cfg: Config, nextPurge: Time, c: Core, n: nat, sk: Digest, s: Session)
    requires Due(cfg, nextPurge, c) && (s.updatedAt != 0 ==> nextPurge <= s.updatedAt + cfg.ttl + 1)
    ensures Due(cfg, nextPurge, Put(cfg, c.(sequence := n), sk, s))
  {
  }

  lemma RegisterKeepsDue(cfg: Config, nextPurge: Time, c: Core, w: Call, pk: Digest, s: Session, p: Pending)
    requires Due(cfg, nextPurge, c) && nextPurge <= w.now + cfg.ttl + 1 && w.now <= w.late && p.observedAt == w.now
    ensures Due(cfg, nextPurge, Register(cfg, c, w, pk, s, p))
  {
    var f := Enter(Put(cfg, c, p.sessionKey, s.(updatedAt := w.now)), pk, p);
    assert c.(sequence := c.sequence) == c;
    StoreKeepsDue(cfg, nextPurge, c, c.sequence, p.sessionKey, s.(updatedAt := w.now));
    assert Due(cfg, nextPurge, f);
    TrimPendingIsBackground(cfg, f, w.late);
    StampedKeepsDue(cfg, nextPurge, f, Register(cfg, c, w, pk, s, p), TrimPendingRemoves(cfg, f, w.late), w.late);
  }

  lemma FinishedStamp(c: Core, p: Pending, now: Time)
    ensures var t := Finished(c, p, now); t.updatedAt == now || t.updatedAt == SessionAt(c, p.sessionKey).updatedAt
  {
    RetireAllStamp(SessionAt(c, p.sessionKey), c.sequence, p.retired, p.route, p.routeKnown, now);
  }

  lemma {:induction false} RetireAllStamp(s: Session, n: nat, items: seq<Digest>, route: Digest, known: bool, now: Time)
    ensures RetireAll(s, n, items, route, known, now).0.updatedAt == now
    decreases |items|
  {
    if items == [] {
    } else {
      if items[0] == "" {
        RetireAllStamp(s, n, items[1..], route, known, now);
      } else {
        RetireAllStamp(RetireOne(s, items[0], n + 1, route, known), n + 1, items[1..], route, known, now);
      }
    }
  }

  lemma ConcludeKeepsDue(cfg: Config, nextPurge: Time, c: Core, now: Time, p: Pending, outcome: Outcome)
    requires Due(cfg, nextPurge, c) && nextPurge <= now + cfg.ttl + 1
    ensures Due(cfg, nextPurge, Conclude(cfg, c, now, p, outcome))
  {
    if outcome.Succeeded? {
      FinishedStamp(c, p, now);
      StoreKeepsDue(cfg, nextPurge, c, Settled(c, p, now).1, p.sessionKey, Finished(c, p, now));
    } else {
      assert c.(sequence := c.sequence) == c;
      StoreKeepsDue(cfg, nextPurge, c, c.sequence, p.sessionKey, Invalidate(SessionAt(c, p.sessionKey), p, now));
    }
  }

  lemma AdmitKeepsDue(cfg: Config, nextPurge: Time, b: Core, w: Call, pk: Digest, sk: Digest, route: Digest,
                      known: bool, signals: Signals)
    requires Due(cfg, nextPurge, b) && nextPurge <= w.now + cfg.ttl + 1 && w.now <= w.late
    ensures Due(cfg, nextPurge, Admit(cfg, b, w, pk, sk, route, known, signals))
  {
    if sk == "" || !known {
      if FailClosed(signals, cfg.policy).strip && sk != "" && pk != "" {
        RegisterKeepsDue(cfg, nextPurge, b, w, pk, SessionAt(b, sk),
                         Candidate(b, sk, "", false, BLANK, signals, true, w.now));
      }
    } else {
      var s := Judged(b, sk, route, w.now);
      var d := Decide(cfg, s, route, signals);
      if d.reject {
        var (t, n) := Retire(s, b.sequence, signals.items, route, true, w.now);
        RetireAllStamp(s, b.sequence, signals.items, route, true, w.now);
        StoreKeepsDue(cfg, nextPurge, b, n, sk, t);
      } else if pk != "" {
        RegisterKeepsDue(cfg, nextPurge, b, w, pk, s, Candidate(b, sk, route, true, s, signals, d.strip, w.now));
      }
    }
  }

  lemma PurgeKeepsInv(cfg: Config, s: World, w: Call)
    requires Inv(cfg, s) && Admissible(cfg, s.core, s.clock, w)
    ensures Inv(cfg, World(Purge(cfg, s.core, w), w.now))
  {
    PurgeIsBackground(cfg, s.core, w);
    BackgroundKeepsSound(cfg, s.core, Purge(cfg, s.core, w), PurgeRemoves(cfg, s.core, w), s.clock, w.now);
  }

  /** The invariant of the protocol, with a sweep scheduled in time. */
  ghost predicate Good(cfg: Config, nextPurge: Time, s: World) {
    Inv(cfg, s) && Due(cfg, nextPurge, s.core) && nextPurge <= s.clock + cfg.ttl
  }

  lemma PrepareIsGood(cfg: Config, nextPurge: Time, s: World, w: Call, pk: Digest, sk: Digest, route: Digest,
                      known: bool, signals: Signals)
    requires Inv(cfg, s) && Admissible(cfg, s.core, s.clock, w) && (known ==> route != "")
    requires Due(cfg, nextPurge, Base(cfg, s.core, w, pk)) && nextPurge <= w.now + cfg.ttl
    ensures Good(cfg, nextPurge, World(Admit(cfg, Base(cfg, s.core, w, pk), w, pk, sk, route, known, signals), w.late))
  {
    AdmitKeepsDue(cfg, nextPurge, Base(cfg, s.core, w, pk), w, pk, sk, route, known, signals);
    EventKeepsInv(cfg, s, Prepare(w, pk, sk, route, known, signals));
  }

  lemma ConcludeIsGood(cfg: Config, nextPurge: Time, s: World, w: Call, pk: Digest, outcome: Outcome)
    requires Inv(cfg, s) && Admissible(cfg, s.core, s.clock, w) && pk != ""
    requires Due(cfg, nextPurge, Purge(cfg, s.core, w)) && nextPurge <= w.now + cfg.ttl
    ensures Good(cfg, nextPurge, World(Complete(cfg, s.core, w, pk, outcome), w.late))
  {
    var b := Purge(cfg, s.core, w);
    if pk in b.pending {
      ConcludeKeepsDue(cfg, nextPurge, Drop(b, pk), w.now, b.pending[pk], outcome);
    }
    EventKeepsInv(cfg, s, Completion(w, pk, outcome));
  }

  lemma SnapshotIsGood(cfg: Config, nextPurge: Time, s: World, w: Call)
    requires Inv(cfg, s) && Admissible(cfg, s.core, s.clock, w)
    requires Due(cfg, nextPurge, Purge(cfg, s.core, w)) && nextPurge <= w.now + cfg.ttl
    ensures Good(cfg, nextPurge, World(Purge(cfg, s.core, w), w.late))
  {
    EventKeepsInv(cfg, s, Snapshot(w));
  }

  lemma PrepareIsNext(cfg: Config, s: World, e: Event)
    requires e.Prepare? && Admissible(cfg, s.core, s.clock, e.w) && (e.known ==> e.route != "")
    ensures Enabled(cfg, s, e)
    ensures var b := Base(cfg, s.core, e.w, e.pk);
            && Next(cfg, s, e) == World(Admit(cfg, b, e.w, e.pk, e.sk, e.route, e.known, e.signals), e.w.late)
            && Answer(cfg, s.core, e) == Verdict(cfg, b, e.w.now, e.sk, e.route, e.known, e.signals)
  {
  }

  lemma CompletionIsNext(cfg: Config, s: World, e: Event)
    requires e.Completion? && e.pk != "" && Admissible(cfg, s.core, s.clock, e.w)
    ensures Enabled(cfg, s, e)
    ensures Next(cfg, s, e) == World(Complete(cfg, s.core, e.w, e.pk, e.outcome), e.w.late)
    ensures Settles(cfg, s.core, e) <==> e.pk in Purge(cfg, s.core, e.w).pending
  {
  }

  lemma DiscardIsGood(cfg: Config, nextPurge: Time, s: World, pk: Digest)
    requires Good(cfg, nextPurge, s)
    ensures Good(cfg, nextPurge, World(Drop(s.core, pk), s.clock))
  {
  }

  lemma LaterIsGood(cfg: Config, nextPurge: Time, s: World, t: Time)
    requires Good(cfg, nextPurge, s) && s.clock <= t
    ensures Good(cfg, nextPurge, World(s.core, t))
  {
  }

  /** A swept store in which a call can act. */
  ghost predicate Ready(cfg: Config, nextPurge: Time, c: Core) {
    && Due(cfg, nextPurge, c)
    && |c.pending| <= cfg.maxPending
    && "" !in c.sessions && "" !in c.pending
    && forall k :: k in c.pending ==> c.pending[k].sessionKey != ""
  }

  lemma GoodIsReady(cfg: Config, nextPurge: Time, s: World)
    requires Good(cfg, nextPurge, s)
    ensures Ready(cfg, nextPurge, s.core)
  {
  }

  lemma DropKeepsReady(cfg: Config, nextPurge: Time, c: Core, k: Digest)
    requires Ready(cfg, nextPurge, c)
    ensures Ready(cfg, nextPurge, Drop(c, k))
  {
    CardSubset(Drop(c, k).pending.Keys, c.pending.Keys);
  }

  lemma UnscheduledIsGood(cfg: Config, s: World)
    requires Inv(cfg, s)
    ensures Good(cfg, 0, s)
  {
  }

  lemma EmptyIsGood(cfg: Config, clock: Time)
    requires cfg.Valid() && cfg.ttl < clock
    ensures Good(cfg, 0, World(EMPTY_CORE, clock))
  {
  }

  lemma ExpireNext(cfg: Config, c: Core, now: Time, order: seq<Digest>, id: Digest)
    ensures ExpirePending(cfg, c, now, order + [id]) == ExpireOne(cfg, ExpirePending(cfg, c, now, order), now, id)
  {
    assert (order + [id])[..|order|] == order;
  }

  // ---- The store ----

  class RouteStateStore {
    const cfg: Config
    const digest: Digester
    var clock: Time
    var nextPurge: Time
    var sequence: nat
    var sessions: map<Digest, Session>
    var pending: map<Digest, Pending>
    var index: map<Digest, Counts>

    ghost function State(): Core
      reads this
    {
      Core(sessions, pending, sequence)
    }

    ghost function Here(): World
      reads this
    {
      World(State(), clock)
    }

    /** The index is exact and every key is usable: what the internal methods need. */
    ghost predicate Indexed()
      reads this
    {
      && Exact(pending, index)
      && "" !in sessions && "" !in pending
      && forall k :: k in pending ==> pending[k].sessionKey != ""
    }

    ghost predicate Valid()
      reads this
    {
      NeverEmpty(digest) && Exact(pending, index) && Good(cfg, nextPurge, Here())
    }

    constructor (cfg: Config, digest: Digester, start: Time)
      requires cfg.Valid() && cfg.ttl < start && NeverEmpty(digest)
      ensures Valid() && fresh(this)
      ensures Here() == World(EMPTY_CORE, start) && this.cfg == cfg && this.digest == digest
    {
      this.cfg, this.digest, clock := cfg, digest, start;
      nextPurge, sequence := 0, 0;
      sessions, pending, index := map[], map[], map[];
      new;
      EmptyIsGood(cfg, start);
    }

    /** A store that starts from what a load restored: nothing in flight, the next call sweeps. */
    constructor Restored(cfg: Config, digest: Digester, core: Core, now: Time)
      requires Inv(cfg, World(core, now)) && core.pending == map[] && NeverEmpty(digest)
      ensures Valid() && fresh(this)
      ensures Here() == World(core, now) && this.cfg == cfg && this.digest == digest
    {
      this.cfg, this.digest, clock := cfg, digest, now;
      nextPurge, sequence := 0, core.sequence;
      sessions, pending, index := core.sessions, map[], map[];
      new;
      assert State() == core;
      UnscheduledIsGood(cfg, World(core, now));
    }

    /** The wall clock: it never goes back. */
    method Now() returns (t: Time)
      modifies `clock
      ensures old(clock) <= t == clock
    {
      t :| clock <= t;
      clock := t;
    }

    /** The key a request is in flight under, "" for a blank id. */
    function KeyOf(requestID: string): Digest {
      InFlightKey(digest, requestID)
    }

    // ---- Pending index ----

    method RemovePendingIndex(sk: Digest, routeKey: Digest)
      modifies `index
      ensures index == Uncounted(old(index), sk, routeKey)
    {
      if sk !in index {
        return;
      }
      var counts := index[sk];
      var left := CountOf(counts.routeCounts, routeKey) - 1;
      var routeCounts := counts.routeCounts[routeKey := left];
      if left <= 0 {
        routeCounts := routeCounts - {routeKey};
        assert routeCounts == counts.routeCounts - {routeKey};
      }
      index := index[sk := Counts(counts.count - 1, routeCounts)];
      if counts.count - 1 <= 0 {
        index := index - {sk};
        assert index == old(index) - {sk};
      }
    }

    method DeletePending(key: Digest) returns (found: bool)
      requires Exact(pending, index)
      modifies `pending, `index
      ensures Exact(pending, index)
      ensures pending == old(pending) - {key} && found == (key in old(pending))
    {
      found := key in pending;
      if !found {
        assert pending == pending - {key};
        return;
      }
      var p := pending[key];
      UncountedIsExact(pending, index, key);
      pending := pending - {key};
      RemovePendingIndex(p.sessionKey, RouteKey(p));
    }

    method SetPending(key: Digest, p: Pending)
      requires Exact(pending, index)
      modifies `pending, `index
      ensures Exact(pending, index)
      ensures pending == old(pending)[key := p]
    {
      if key in pending {
        UncountedIsExact(pending, index, key);
        RemovePendingIndex(pending[key].sessionKey, RouteKey(pending[key]));
      } else {
        assert pending == pending - {key};
      }
      ghost var rest := pending - {key};
      assert pending[key := p] == rest[key := p];
      pending := pending[key := p];
      if p.sessionKey == "" {
        UncountableIsExact(rest, index, key, p);
        return;
      }
      CountedIsExact(rest, index, key, p);
      var counts := if p.sessionKey in index then index[p.sessionKey] else NO_COUNTS;
      index := index[p.sessionKey := CountedOnce(counts, RouteKey(p))];
    }

    method HasPending(sk: Digest) returns (r: bool)
      requires Exact(pending, index) && sk != ""
      ensures r == InFlight(State(), sk)
    {
      InFlightByCount(State(), index, sk);
      r := sk in index && index[sk].count > 0;
    }

    method HasConcurrentRouteMismatch(sk: Digest, route: Digest) returns (r: bool)
      requires Exact(pending, index) && sk != ""
      ensures r == RouteMismatch(State(), sk, route)
    {
      MismatchByCount(State(), index, sk, route);
      r := sk in index && index[sk].count > CountOf(index[sk].routeCounts, route);
    }

    // ---- Trimming ----

    /** The oldest session not to be skipped, "" if all are; the empty key is free to say so. */
    method OldestSession(skip: set<Digest>) returns (oldest: Digest)
      requires "" !in sessions
      ensures oldest == "" ==> sessions.Keys <= skip
      ensures oldest != "" ==>
        && oldest in sessions && oldest !in skip
        && forall k :: k in sessions && k !in skip && k != oldest ==>
             sessions[oldest].updatedAt < sessions[k].updatedAt
             || (sessions[oldest].updatedAt == sessions[k].updatedAt && Less(oldest, k))
    {
      oldest := "";
      var keys := sessions.Keys;
      while keys != {}
        invariant keys <= sessions.Keys
        invariant oldest == "" ==> sessions.Keys - keys <= skip
        invariant oldest != "" ==>
          && oldest in sessions && oldest !in skip
          && forall k :: k in sessions && k !in keys && k !in skip && k != oldest ==>
               sessions[oldest].updatedAt < sessions[k].updatedAt
               || (sessions[oldest].updatedAt == sessions[k].updatedAt && Less(oldest, k))
        decreases |keys|
      {
        var key :| key in keys;
        keys := keys - {key};
        if key !in skip {
          if oldest == "" || sessions[key].updatedAt < sessions[oldest].updatedAt
             || (sessions[key].updatedAt == sessions[oldest].updatedAt && Less(key, oldest)) {
            forall k | k in sessions && k !in keys && k !in skip && k != key
              ensures sessions[key].updatedAt < sessions[k].updatedAt
                      || (sessions[key].updatedAt == sessions[k].updatedAt && Less(key, k))
            {
              if oldest != "" && k != oldest && Less(key, oldest) && Less(oldest, k) {
                LessIsTransitive(key, oldest, k);
              }
            }
            oldest := key;
          } else {
            LessIsTotal(key, oldest);
          }
        }
      }
    }

    method TrimSessions()
      requires Indexed()
      modifies `sessions
      ensures sessions == Eviction.TrimSessions(cfg.maxSessions, old(sessions), Active(pending))
    {
      if |sessions| <= cfg.maxSessions {
        return;
      }
      IndexedAreActive(pending, index);
      var active := index.Keys;
      while |sessions| > cfg.maxSessions
        invariant "" !in sessions
        invariant Eviction.TrimSessions(cfg.maxSessions, sessions, active)
                  == Eviction.TrimSessions(cfg.maxSessions, old(sessions), active)
        decreases |sessions|
      {
        EvictSession(active);
      }
    }

    method EvictSession(active: set<Digest>)
      requires "" !in sessions && sessions.Keys != {}
      modifies `sessions
      ensures sessions == old(sessions) - {Eviction.Oldest(Eviction.SessionRanks(old(sessions), active))}
      ensures sessions.Keys < old(sessions).Keys && |sessions| == |old(sessions)| - 1
    {
      var oldest := OldestSession(active);
      if oldest == "" {
        oldest := OldestSession({});
        assert oldest != "";
      }
      ghost var ranks := Eviction.SessionRanks(sessions, active);
      assert Eviction.IsOldest(ranks, oldest);
      Eviction.OldestIsUnique(ranks, oldest, Eviction.Oldest(ranks));
      assert (sessions - {oldest}).Keys == sessions.Keys - {oldest};
      sessions := sessions - {oldest};
    }

    method TaintSession(sk: Digest, now: Time)
      requires Indexed()
      modifies `sessions
      ensures State() == Taint(cfg, old(State()), sk, now)
      ensures "" !in sessions
      ensures forall k :: k in sessions ==>
                (k in old(sessions) && sessions[k] == old(sessions)[k]) || sessions[k].updatedAt == now
    {
      if sk == "" {
        return;
      }
      var session := if sk in sessions then sessions[sk] else BLANK;
      sessions := sessions[sk := session.(tainted := true, updatedAt := now)];
      TrimSessions();
    }

    method OldestPending() returns (oldest: Digest)
      requires "" !in pending && pending.Keys != {}
      ensures Eviction.IsOldest(Eviction.PendingRanks(pending), oldest)
      ensures oldest in pending && forall k :: k in pending && k != oldest ==> Eviction.LeavesBefore(pending, oldest, k)
    {
      oldest := "";
      var keys := pending.Keys;
      while keys != {}
        invariant keys <= pending.Keys
        invariant oldest == "" ==> keys == pending.Keys
        invariant oldest != "" ==>
          && oldest in pending
          && forall k :: k in pending && k !in keys && k != oldest ==>
               pending[oldest].observedAt < pending[k].observedAt
               || (pending[oldest].observedAt == pending[k].observedAt && Less(oldest, k))
        decreases |keys|
      {
        var key :| key in keys;
        keys := keys - {key};
        if oldest == "" || pending[key].observedAt < pending[oldest].observedAt
           || (pending[key].observedAt == pending[oldest].observedAt && Less(key, oldest)) {
          forall k | k in pending && k !in keys && k != key
            ensures pending[key].observedAt < pending[k].observedAt
                    || (pending[key].observedAt == pending[k].observedAt && Less(key, k))
          {
            if oldest != "" && k != oldest && Less(key, oldest) && Less(oldest, k) {
              LessIsTransitive(key, oldest, k);
            }
          }
          oldest := key;
        } else {
          LessIsTotal(key, oldest);
        }
      }
    }

    /** Evicts the oldest candidate when one more than the cap is in flight, and taints its session. */
    method TrimPending()
      requires Indexed() && |pending| <= cfg.maxPending + 1
      modifies `pending, `index, `sessions, `clock
      ensures old(clock) <= clock
      ensures State() == Protocol.TrimPending(cfg, old(State()), clock)
      ensures Exact(pending, index)
    {
      while |pending| > cfg.maxPending
        invariant Indexed() && old(clock) <= clock && |pending| <= cfg.maxPending + 1
        invariant if |pending| > cfg.maxPending then State() == old(State())
                  else State() == Protocol.TrimPending(cfg, old(State()), clock)
        decreases |pending|
      {
        EvictPending();
      }
    }

    method EvictPending()
      requires Indexed() && pending.Keys != {}
      modifies `pending, `index, `sessions, `clock
      ensures old(clock) <= clock && Indexed() && |pending| == |old(pending)| - 1
      ensures var k := Eviction.Oldest(Eviction.PendingRanks(old(pending)));
              State() == Taint(cfg, Drop(old(State()), k), old(pending)[k].sessionKey, clock)
    {
      var oldest := OldestPending();
      ghost var ranks := Eviction.PendingRanks(pending);
      Eviction.OldestIsUnique(ranks, oldest, Eviction.Oldest(ranks));
      var late := Now();
      LoseCandidate(oldest, late);
      assert pending.Keys == old(pending).Keys - {oldest};
    }

    // ---- The amortised sweep ----

    /** Sweeps when the schedule says so. Skipped or not, nothing but blank sessions is left past its TTL. */
    method MaybePurgeExpired(now: Time) returns (ghost swept: bool, ghost order: seq<Digest>)
      requires Valid() && now == clock
      modifies `nextPurge, `sessions, `pending, `index
      ensures swept ==> State() == Sweep(cfg, old(State()), now, order) && forall k :: k in order <==> k in old(pending)
      ensures !swept ==> State() == old(State())
      ensures Fresh(cfg, State(), now)
      ensures Exact(pending, index) && Due(cfg, nextPurge, State()) && nextPurge <= clock + cfg.ttl
      ensures swept <==> old(nextPurge) == 0 || old(nextPurge) <= now
      ensures if swept then now < nextPurge <= now + 60_000_000_000 else nextPurge == old(nextPurge)
    {
      order := [];
      if nextPurge != 0 && now < nextPurge {
        swept := false;
        NotYetDue(cfg, nextPurge, State(), now);
        return;
      }
      swept := true;
      var interval := cfg.ttl / 16;
      if interval < SECOND {
        interval := SECOND;
      }
      if interval > MINUTE {
        interval := MINUTE;
      }
      nextPurge := now + interval;
      order := PurgeExpired(now);
      SweepIsFresh(cfg, old(State()), now, order);
    }

    method PurgeExpired(now: Time) returns (ghost order: seq<Digest>)
      requires Exact(pending, index) && Inv(cfg, Here()) && now == clock && nextPurge <= now + cfg.ttl
      modifies `nextPurge, `sessions, `pending, `index
      ensures State() == Sweep(cfg, old(State()), now, order) && forall k :: k in order <==> k in old(pending)
      ensures Exact(pending, index) && Due(cfg, nextPurge, State()) && nextPurge <= old(nextPurge)
      ensures now < old(nextPurge) ==> now < nextPurge
    {
      ExpireStaleSessions(now);
      order := ExpireStalePending(now);
    }

    /** Some entries are already scheduled: all sessions, and the candidates not in `ids`. */
    ghost predicate Scheduled(ids: set<Digest>)
      reads this
    {
      && (forall k :: k in sessions ==> nextPurge <= sessions[k].updatedAt + cfg.ttl + 1)
      && (forall k :: k in pending && k !in ids ==> nextPurge <= pending[k].observedAt + cfg.ttl + 1)
    }

    method ExpireStalePending(now: Time) returns (ghost order: seq<Digest>)
      requires Indexed() && nextPurge <= now + cfg.ttl && Scheduled(pending.Keys)
      modifies `nextPurge, `sessions, `pending, `index
      ensures State() == ExpirePending(cfg, old(State()), now, order) && forall k :: k in order <==> k in old(pending)
      ensures Exact(pending, index) && Scheduled({}) && nextPurge <= old(nextPurge)
      ensures now < old(nextPurge) ==> now < nextPurge
    {
      order := [];
      var ids := pending.Keys;
      while ids != {}
        invariant Indexed() && nextPurge <= old(nextPurge) && Scheduled(ids)
        invariant now < old(nextPurge) ==> now < nextPurge
        invariant ids <= pending.Keys <= old(pending).Keys
        invariant forall k :: k in order <==> k in old(pending) && k !in ids
        invariant State() == ExpirePending(cfg, old(State()), now, order)
        decreases |ids|
      {
        var id :| id in ids;
        ExpireNext(cfg, old(State()), now, order, id);
        VisitPending(id, now, ids);
        ids := ids - {id};
        order := order + [id];
      }
    }

    /** One candidate of the sweep: expired and its session tainted, or its expiry scheduled. */
    method VisitPending(id: Digest, now: Time, ghost ids: set<Digest>)
      requires Indexed() && id in pending && nextPurge <= now + cfg.ttl && Scheduled(ids)
      modifies `nextPurge, `sessions, `pending, `index
      ensures State() == ExpireOne(cfg, old(State()), now, id)
      ensures Indexed() && nextPurge <= old(nextPurge) && Scheduled(ids - {id})
      ensures now < old(nextPurge) ==> now < nextPurge
      ensures old(pending).Keys - {id} <= pending.Keys <= old(pending).Keys
    {
      if now - pending[id].observedAt > cfg.ttl {
        LoseCandidate(id, now);
      } else {
        ScheduleExpiry(pending[id].observedAt);
      }
    }

    /** Takes the candidate out of flight and taints its session. */
    method LoseCandidate(id: Digest, now: Time)
      requires Indexed() && id in pending
      modifies `sessions, `pending, `index
      ensures State() == Taint(cfg, Drop(old(State()), id), old(pending)[id].sessionKey, now)
      ensures Indexed() && pending == old(pending) - {id}
      ensures forall k :: k in sessions ==>
                (k in old(sessions) && sessions[k] == old(sessions)[k]) || sessions[k].updatedAt == now
    {
      var p := pending[id];
      var _ := DeletePending(id);
      TaintSession(p.sessionKey, now);
    }

    method ScheduleExpiry(stamp: Time)
      modifies `nextPurge
      ensures nextPurge == if stamp + cfg.ttl + 1 < old(nextPurge) then stamp + cfg.ttl + 1 else old(nextPurge)
    {
      var deadline := stamp + cfg.ttl + 1;
      if deadline < nextPurge {
        nextPurge := deadline;
      }
    }

    method ExpireStaleSessions(now: Time)
      modifies `nextPurge, `sessions
      ensures sessions == ExpireSessions(cfg, old(State()), now).sessions
      ensures nextPurge <= old(nextPurge) && (now < old(nextPurge) ==> now < nextPurge)
      ensures forall k :: k in sessions ==> nextPurge <= sessions[k].updatedAt + cfg.ttl + 1
    {
      var keys := sessions.Keys;
      while keys != {}
        invariant keys <= sessions.Keys
        invariant sessions == map k | k in old(sessions)
                  && (k in keys || !Expired(cfg, old(sessions)[k].updatedAt, now))
                                :: old(sessions)[k]
        invariant nextPurge <= old(nextPurge) && (now < old(nextPurge) ==> now < nextPurge)
        invariant forall k :: k in sessions && k !in keys ==> nextPurge <= sessions[k].updatedAt + cfg.ttl + 1
        decreases |keys|
      {
        var key :| key in keys;
        keys := keys - {key};
        if now - sessions[key].updatedAt > cfg.ttl {
          sessions := sessions - {key};
        } else {
          ScheduleExpiry(sessions[key].updatedAt);
        }
      }
    }

    // ---- Fingerprints ----

    /** boundedUniqueFingerprints. Its second overflow test never fires: with at most 256 fingerprints
        observed, fewer than 256 are collected when one more is considered. */
    static method BoundedUniqueFingerprints(fingerprints: seq<Digest>) returns (unique: seq<Digest>, overflow: bool)
      ensures (unique, overflow) == Bounded(fingerprints)
    {
      if |fingerprints| == 0 {
        return [], false;
      }
      if |fingerprints| > MAX_RETIRED {
        return [], true;
      }
      unique, overflow := [], false;
      var seen: set<Digest> := {};
      for i := 0 to |fingerprints|
        invariant unique == Distinct(fingerprints[..i]) && |unique| <= i
        invariant forall f :: f in seen <==> f in unique
      {
        assert fingerprints[..i + 1][..i] == fingerprints[..i];
        var f := fingerprints[i];
        if f != "" && f !in seen {
          assert |unique| < MAX_RETIRED;
          seen := seen + {f};
          unique := unique + [f];
        }
      }
      assert fingerprints[..|fingerprints|] == fingerprints;
    }

    static method RetiredItemMatches(session: Session, observed: seq<Digest>, route: Digest)
      returns (matches: seq<Digest>)
      ensures matches == Matches(session, observed, route)
    {
      matches := [];
      if |session.retiredItems| == 0 || |observed| == 0 {
        NothingRetired(session, observed, route);
        return;
      }
      var seen: set<Digest> := {};
      for i := 0 to |observed|
        invariant matches == Matches(session, observed[..i], route)
        invariant forall f :: f in seen <==> f in matches
      {
        assert observed[..i + 1][..i] == observed[..i];
        var f := observed[i];
        if f in session.retiredItems
           && (f in session.retiredRoutes ==> RouteEqual(session.retiredRoutes[f], route))
           && f !in seen {
          seen := seen + {f};
          matches := matches + [f];
        }
      }
      assert observed[..|observed|] == observed;
    }

    static lemma {:induction false} NothingRetired(session: Session, observed: seq<Digest>, route: Digest)
      requires |session.retiredItems| == 0 || |observed| == 0
      ensures Matches(session, observed, route) == []
      decreases |observed|
    {
      if observed == [] {
      } else {
        NothingRetired(session, observed[..|observed| - 1], route);
      }
    }

    method RetireItems(session: Session, items: seq<Digest>, route: Digest, known: bool, now: Time) returns (t: Session)
      modifies `sequence
      ensures (t, sequence) == Retire(session, old(sequence), items, route, known, now)
    {
      t := session;
      if session.overflow || |items| == 0 {
        t := t.(updatedAt := now);
        return;
      }
      if |items| > MAX_RETIRED {
        t := MarkOverflow(t, now);
        return;
      }
      for i := 0 to |items|
        invariant RetireAll(t, sequence, items[i..], route, known, now)
                  == RetireAll(session, old(sequence), items, route, known, now)
      {
        assert items[i..][1..] == items[i + 1..];
        var item := items[i];
        if item != "" {
          sequence := sequence + 1;
          t := t.(retiredItems := t.retiredItems[item := sequence]);
          if known {
            t := t.(retiredRoutes := t.retiredRoutes[item := route]);
          } else {
            t := t.(retiredRoutes := t.retiredRoutes - {item});
          }
          if |t.retiredItems| > MAX_RETIRED {
            t := MarkOverflow(t, now);
            return;
          }
        }
      }
      t := t.(updatedAt := now);
    }

    // ---- prepare ----

    /** The decision for a session the store may judge. */
    method DecideTracked(session: Session, route: Digest, signals: Signals) returns (decision: Decision)
      ensures decision == Decide(cfg, session, route, signals)
    {
      decision := Decision(Unknown, false, false, []);
      if session.hasRoute && !session.tainted {
        if RouteEqual(session.route, route) {
          decision := decision.(relation := Same);
          if session.overflow && (signals.hasReasoning || signals.hasCompaction) {
            decision := decision.(strip := true);
          } else {
            var matches := RetiredItemMatches(session, signals.items, route);
            decision := decision.(blocked := matches);
          }
        } else {
          decision := decision.(relation := Changed);
        }
      } else if session.hasRoute {
        decision := decision.(relation := Changed);
      }
      var unsafeState := signals.RouteBound() && (session.tainted || decision.relation != Same);
      if unsafeState && signals.hasCompaction && cfg.policy == Block {
        decision := decision.(reject := true);
      } else if unsafeState {
        decision := decision.(strip := true);
      }
    }

    method StoreSession(sk: Digest, session: Session)
      requires Indexed() && sk != ""
      modifies `sessions
      ensures State() == Put(cfg, old(State()), sk, session)
      ensures "" !in sessions
    {
      sessions := sessions[sk := session];
      TrimSessions();
    }

    method EnterCandidate(pk: Digest, p: Pending)
      requires Indexed() && pk != "" && p.sessionKey != "" && p.sequence == sequence + 1
      modifies `pending, `index, `sequence
      ensures Indexed() && State() == Enter(old(State()), pk, p)
    {
      sequence := sequence + 1;
      SetPending(pk, p);
    }

    method PlaceCandidate(pk: Digest, session: Session, p: Pending)
      requires Indexed() && pk != "" && p.sessionKey != "" && p.sequence == sequence + 1
      modifies `pending, `index, `sessions, `sequence
      ensures Indexed() && State() == Enter(Put(cfg, old(State()), p.sessionKey, session), pk, p)
      ensures |pending| <= |old(pending)| + 1
    {
      StoreSession(p.sessionKey, session);
      EnterCandidate(pk, p);
      CardReplace(old(pending), pk, p);
    }

    method RegisterCandidate(now: Time, pk: Digest, session: Session, p: Pending, ghost w: Call)
      requires Indexed() && pk != "" && p.sessionKey != "" && p.sequence == sequence + 1
      requires |pending| <= cfg.maxPending && w.now == now
      modifies `pending, `index, `sessions, `sequence, `clock
      ensures old(clock) <= clock && Exact(pending, index)
      ensures State() == Register(cfg, old(State()), w.(late := clock), pk, session, p)
    {
      PlaceCandidate(pk, session.(updatedAt := now), p);
      TrimPending();
    }

    method BuildUntracked(now: Time, sk: Digest, signals: Signals) returns (p: Pending)
      ensures p == Candidate(State(), sk, "", false, BLANK, signals, true, now)
    {
      var items, overflow := BoundedUniqueFingerprints(signals.items);
      p := Pending(sk, "", false, sequence + 1, now, true, false, overflow, items);
    }

    method AdmitUntracked(now: Time, pk: Digest, sk: Digest, signals: Signals, ghost w: Call)
      returns (decision: Decision)
      requires Indexed() && |pending| <= cfg.maxPending && w.now == now
      modifies `pending, `index, `sessions, `sequence, `clock
      ensures old(clock) <= clock && Exact(pending, index)
      ensures decision == FailClosed(signals, cfg.policy)
      ensures State() == if decision.strip && sk != "" && pk != ""
                         then Register(cfg, old(State()), w.(late := clock), pk, SessionAt(old(State()), sk),
                                       Candidate(old(State()), sk, "", false, BLANK, signals, true, now))
                         else old(State())
    {
      decision := FailClosed(signals, cfg.policy);
      if decision.strip && sk != "" && pk != "" {
        var p := BuildUntracked(now, sk, signals);
        var session := if sk in sessions then sessions[sk] else BLANK;
        RegisterCandidate(now, pk, session, p, w);
      }
    }

    /** The session as it is to be judged, and whether another of its requests is in flight. */
    method JudgeSession(now: Time, sk: Digest, route: Digest) returns (session: Session, hasOtherPending: bool)
      requires Exact(pending, index) && sk != ""
      ensures session == Judged(State(), sk, route, now) && hasOtherPending == InFlight(State(), sk)
    {
      session := if sk in sessions then sessions[sk] else BLANK;
      hasOtherPending := HasPending(sk);
      var mismatch := HasConcurrentRouteMismatch(sk, route);
      if mismatch {
        session := session.(tainted := true, updatedAt := now);
      }
    }

    method RejectTracked(now: Time, sk: Digest, session: Session, items: seq<Digest>, route: Digest)
      requires Indexed() && sk != ""
      modifies `sessions, `sequence
      ensures var (t, n) := Retire(session, old(sequence), items, route, true, now);
              State() == Put(cfg, old(State()).(sequence := n), sk, t)
    {
      var retired := RetireItems(session, items, route, true, now);
      StoreSession(sk, retired);
    }

    method RegisterTracked(now: Time, pk: Digest, sk: Digest, route: Digest, signals: Signals, session: Session,
                           strip: bool, hasOtherPending: bool, ghost w: Call)
      requires Indexed() && |pending| <= cfg.maxPending && w.now == now && sk != "" && pk != ""
      requires hasOtherPending == InFlight(State(), sk)
      modifies `pending, `index, `sessions, `sequence, `clock
      ensures old(clock) <= clock && Exact(pending, index)
      ensures State() == Register(cfg, old(State()), w.(late := clock), pk, session,
                                  Candidate(old(State()), sk, route, true, session, signals, strip, now))
    {
      var p := BuildCandidate(now, sk, route, signals, session, strip, hasOtherPending);
      RegisterCandidate(now, pk, session, p, w);
    }

    method BuildCandidate(now: Time, sk: Digest, route: Digest, signals: Signals, session: Session,
                          strip: bool, hasOtherPending: bool) returns (p: Pending)
      requires hasOtherPending == InFlight(State(), sk)
      ensures p == Candidate(State(), sk, route, true, session, signals, strip, now)
    {
      var cleanStart := strip || !signals.RouteBound();
      var items: seq<Digest>, overflow := [], false;
      if strip {
        items, overflow := BoundedUniqueFingerprints(signals.items);
      }
      p := Pending(sk, route, true, sequence + 1, now, cleanStart,
                   session.tainted && cleanStart && !hasOtherPending, overflow, items);
    }

    method AdmitTracked(now: Time, pk: Digest, sk: Digest, route: Digest, signals: Signals, ghost w: Call)
      returns (decision: Decision)
      requires Indexed() && |pending| <= cfg.maxPending && w.now == now && sk != "" && route != ""
      modifies `pending, `index, `sessions, `sequence, `clock
      ensures old(clock) <= clock && Exact(pending, index)
      ensures decision == Decide(cfg, Judged(old(State()), sk, route, now), route, signals)
      ensures State() == Admit(cfg, old(State()), w.(late := clock), pk, sk, route, true, signals)
    {
      var session, hasOtherPending := JudgeSession(now, sk, route);
      decision := DecideTracked(session, route, signals);
      if decision.reject {
        RejectTracked(now, sk, session, signals.items, route);
      } else if pk != "" {
        RegisterTracked(now, pk, sk, route, signals, session, decision.strip, hasOtherPending, w);
      }
    }

    /** What prepare and complete start with: read the clock, sweep, and forget the candidate under pk. */
    method Begin(pk: Digest) returns (now: Time, ghost w: Call)
      requires Valid()
      modifies `clock, `nextPurge, `sessions, `pending, `index
      ensures now == w.now == w.late == clock && Admissible(cfg, old(State()), old(clock), w)
      ensures State() == Base(cfg, old(State()), w, pk)
      ensures Exact(pending, index) && Ready(cfg, nextPurge, State()) && nextPurge <= clock + cfg.ttl
    {
      now, w := BeginSwept();
      if pk != "" {
        DropKeepsReady(cfg, nextPurge, State(), pk);
        Forget(pk);
      }
    }

    method BeginSwept() returns (now: Time, ghost w: Call)
      requires Valid()
      modifies `clock, `nextPurge, `sessions, `pending, `index
      ensures now == w.now == w.late == clock && Admissible(cfg, old(State()), old(clock), w)
      ensures State() == Purge(cfg, old(State()), w)
      ensures Exact(pending, index) && Ready(cfg, nextPurge, State()) && nextPurge <= clock + cfg.ttl
    {
      ghost var s := Here();
      now := Now();
      LaterIsGood(cfg, nextPurge, s, now);
      ghost var swept, order := MaybePurgeExpired(now);
      w := Call(now, now, swept, order);
      PurgeKeepsInv(cfg, s, w);
      assert State() == Purge(cfg, s.core, w);
      GoodIsReady(cfg, nextPurge, World(Purge(cfg, s.core, w), now));
    }

    /** The critical section of prepare. */
    method PrepareLocked(pk: Digest, sk: Digest, route: Digest, known: bool, signals: Signals)
      returns (decision: Decision, ghost w: Call)
      requires Valid() && (known ==> route != "")
      modifies this
      ensures Admissible(cfg, old(State()), old(clock), w) && w.late == clock && Exact(pending, index)
      ensures decision == Verdict(cfg, Base(cfg, old(State()), w, pk), w.now, sk, route, known, signals)
      ensures State() == Admit(cfg, Base(cfg, old(State()), w, pk), w, pk, sk, route, known, signals)
      ensures Due(cfg, nextPurge, Base(cfg, old(State()), w, pk)) && nextPurge <= w.now + cfg.ttl
    {
      var now;
      now, w := Begin(pk);
      if sk == "" || !known {
        decision := AdmitUntracked(now, pk, sk, signals, w);
      } else {
        decision := AdmitTracked(now, pk, sk, route, signals, w);
      }
      w := w.(late := clock);
    }

    method Prepare(requestID: string, sk: Digest, route: Digest, known: bool, signals: Signals)
      returns (decision: Decision, ghost e: Event)
      requires Valid() && (known ==> route != "")
      modifies this
      ensures Valid()
      ensures e.Prepare? && e == Protocol.Prepare(e.w, KeyOf(requestID), sk, route, known, signals)
      ensures KeyedBy(digest, requestID, e.pk)
      ensures Enabled(cfg, old(Here()), e) && Here() == Next(cfg, old(Here()), e)
      ensures decision == Answer(cfg, old(State()), e)
    {
      KeyIsExact(digest, requestID);
      ghost var s := Here();
      var pk := KeyOf(requestID);
      ghost var w;
      decision, w := PrepareLocked(pk, sk, route, known, signals);
      e := Protocol.Prepare(w, pk, sk, route, known, signals);
      PrepareIsGood(cfg, nextPurge, s, w, pk, sk, route, known, signals);
      PrepareIsNext(cfg, s, e);
      assert Here() == Next(cfg, s, e);
    }

    // ---- complete ----

    /** The critical section of complete. */
    method CompleteLocked(pk: Digest, outcome: Outcome) returns (tracked: bool, ghost w: Call)
      requires Valid() && pk != ""
      modifies this
      ensures Admissible(cfg, old(State()), old(clock), w) && w.late == clock && Exact(pending, index)
      ensures State() == Protocol.Complete(cfg, old(State()), w, pk, outcome)
      ensures tracked <==> pk in Purge(cfg, old(State()), w).pending
      ensures Due(cfg, nextPurge, Purge(cfg, old(State()), w)) && nextPurge <= w.now + cfg.ttl
    {
      var now;
      now, w := Begin("");
      tracked := SettlePending(now, pk, outcome);
    }

    method Complete(requestID: string, outcome: Outcome) returns (tracked: bool, ghost e: Event)
      requires Valid()
      modifies this
      ensures Valid()
      ensures e.Completion? && e == Completion(e.w, KeyOf(requestID), outcome)
      ensures KeyedBy(digest, requestID, e.pk)
      ensures Enabled(cfg, old(Here()), e) && Here() == Next(cfg, old(Here()), e)
      ensures tracked <==> Settles(cfg, old(State()), e)
      ensures tracked <==> e.pk != "" && e.pk in old(pending)
                           && e.w.now - old(pending)[e.pk].observedAt <= cfg.ttl
    {
      KeyIsExact(digest, requestID);
      ghost var s := Here();
      var pk := KeyOf(requestID);
      if pk == "" {
        e := Completion(Call(clock, clock, false, []), pk, outcome);
        return false, e;
      }
      ghost var w;
      tracked, w := CompleteLocked(pk, outcome);
      e := Completion(w, pk, outcome);
      ConcludeIsGood(cfg, nextPurge, s, w, pk, outcome);
      CompletionIsNext(cfg, s, e);
      SettlesExactly(cfg, s, e);
      assert Here() == Next(cfg, s, e);
    }

    method SettlePending(now: Time, pk: Digest, outcome: Outcome) returns (tracked: bool)
      requires Indexed()
      modifies `pending, `index, `sessions, `sequence
      ensures Exact(pending, index) && tracked == (pk in old(pending))
      ensures State()
              == if tracked then Conclude(cfg, Drop(old(State()), pk), now, old(pending)[pk], outcome) else old(State())
    {
      tracked := pk in pending;
      if tracked {
        var p := pending[pk];
        var _ := DeletePending(pk);
        Settle(now, p, outcome);
      }
    }

    /** The candidate is no longer in flight; its outcome decides what becomes of its session. */
    method Settle(now: Time, p: Pending, outcome: Outcome)
      requires Indexed() && p.sessionKey != ""
      modifies `sessions, `sequence
      ensures State() == Conclude(cfg, old(State()), now, p, outcome)
    {
      match outcome {
        case Succeeded =>
          var current := SettledSession(now, p);
          StoreSession(p.sessionKey, current);
        case Unsuccessful(error) =>
          if !InvalidEncryptedContent(error) {
            return;
          }
          var was := if p.sessionKey in sessions then sessions[p.sessionKey] else BLANK;
          var current := was.(tainted := true, updatedAt := now);
          if was.hasRoute && RouteEqual(was.route, p.route) && was.sequence <= p.sequence {
            current := current.(route := "", hasRoute := false, sequence := p.sequence);
          }
          StoreSession(p.sessionKey, current);
      }
    }

    method SettledSession(now: Time, p: Pending) returns (current: Session)
      requires Exact(pending, index) && p.sessionKey != ""
      modifies `sequence
      ensures current == Finished(old(State()), p, now) && sequence == Settled(old(State()), p, now).1
    {
      current := if p.sessionKey in sessions then sessions[p.sessionKey] else BLANK;
      if p.overflow {
        current := MarkOverflow(current, now);
      } else if |p.retired| > 0 {
        current := RetireItems(current, p.retired, p.route, p.routeKnown, now);
      }
      var applied := false;
      if !p.routeKnown {
        applied := true;
      } else if !current.hasRoute || p.sequence >= current.sequence {
        current := current.(route := p.route, hasRoute := true, sequence := p.sequence, updatedAt := now);
        applied := true;
      }
      var hasPending := HasPending(p.sessionKey);
      if p.routeKnown && p.canClearTaint && p.cleanStart && applied && !hasPending {
        current := current.(tainted := false);
      }
    }

    // ---- discard, reset, snapshot ----

    method DiscardPending(requestID: string) returns (ghost e: Event)
      requires Valid()
      modifies this
      ensures Valid()
      ensures e == Discard(KeyOf(requestID)) && Here() == Next(cfg, old(Here()), e)
      ensures KeyedBy(digest, requestID, e.pk)
    {
      KeyIsExact(digest, requestID);
      var pk := KeyOf(requestID);
      e := Discard(pk);
      DiscardIsGood(cfg, nextPurge, Here(), pk);
      Forget(pk);
      assert Here() == World(Drop(old(State()), pk), old(clock));
    }

    /** Takes whatever is in flight under the key, if anything, out of flight. */
    method Forget(pk: Digest)
      requires Exact(pending, index) && "" !in pending
      modifies `pending, `index
      ensures Exact(pending, index) && State() == Drop(old(State()), pk)
    {
      if pk == "" {
        assert pending == pending - {pk};
        return;
      }
      var _ := DeletePending(pk);
    }

    method ResetState() returns (ghost e: Event)
      requires Valid()
      modifies this
      ensures Valid()
      ensures e == Reset && Here() == Next(cfg, old(Here()), e)
      ensures sessions == map[] && pending == map[] && index == map[] && sequence == 0 && nextPurge == 0
    {
      e := Reset;
      EmptyIsGood(cfg, clock);
      sequence, nextPurge := 0, 0;
      sessions, pending, index := map[], map[], map[];
    }

    /** snapshot: sweeps, then counts sessions, candidates, tainted and overflowed sessions. */
    method TakeSnapshot() returns (live: nat, inFlight: nat, tainted: nat, overflowed: nat, ghost e: Event)
      requires Valid()
      modifies this
      ensures Valid()
      ensures e.Snapshot? && Enabled(cfg, old(Here()), e) && Here() == Next(cfg, old(Here()), e)
      ensures live == |sessions| && inFlight == |pending|
      ensures tainted == |set k | k in sessions && sessions[k].tainted|
      ensures overflowed == |set k | k in sessions && sessions[k].overflow|
    {
      ghost var s := Here();
      var now; ghost var w;
      now, w := Begin("");
      e := Snapshot(w);
      SnapshotIsGood(cfg, nextPurge, s, w);
      live, inFlight := |sessions|, |pending|;
      tainted, overflowed := CountSessions();
    }

    method CountSessions() returns (tainted: nat, overflowed: nat)
      ensures tainted == |set k | k in sessions && sessions[k].tainted|
      ensures overflowed == |set k | k in sessions && sessions[k].overflow|
    {
      tainted, overflowed := 0, 0;
      var keys := sessions.Keys;
      ghost var seenTainted: set<Digest>, seenOverflowed: set<Digest> := {}, {};
      while keys != {}
        invariant keys <= sessions.Keys
        invariant seenTainted == set k | k in sessions && k !in keys && sessions[k].tainted
        invariant seenOverflowed == set k | k in sessions && k !in keys && sessions[k].overflow
        invariant tainted == |seenTainted| && overflowed == |seenOverflowed|
        decreases |keys|
      {
        var key :| key in keys;
        keys := keys - {key};
        if sessions[key].tainted {
          tainted, seenTainted := tainted + 1, seenTainted + {key};
        }
        if sessions[key].overflow {
          overflowed, seenOverflowed := overflowed + 1, seenOverflowed + {key};
        }
      }
      assert seenTainted == set k | k in sessions && sessions[k].tainted;
      assert seenOverflowed == set k | k in sessions && sessions[k].overflow;
    }
  }
}
