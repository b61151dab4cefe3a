// What sweeping and trimming may do to sessions and candidates they were not asked about.
module Footprint {
  import opened Routes
  import opened Eviction
  import opened Protocol
  import opened Retirement

  /** The session a call finds after `removed` took what it took. */
  function Survivor(c: Core, removed: set<Digest>, o: Digest): Session {
    if o in removed then BLANK else SessionAt(c, o)
  }

  predicate Poisoned(s: Session, was: Session) {
    s == was.(tainted := true, updatedAt := s.updatedAt)
  }

  /** One of the session's own candidates left the store between c and d. */
  predicate LostOwn(c: Core, d: Core, o: Digest) {
    exists k | k in c.pending :: c.pending[k].sessionKey == o && (k !in d.pending || d.pending[k] != c.pending[k])
  }

  /** The session is as it was, or poisoned because a candidate of its own was lost. */
  ghost predicate Spared(c: Core, d: Core, removed: set<Digest>, o: Digest)
    requires o in d.sessions
  {
    || (o in c.sessions && o !in removed && d.sessions[o] == c.sessions[o])
    || (LostOwn(c, d, o) && Poisoned(d.sessions[o], Survivor(c, removed, o)))
  }

  /** d is c after sweeping or trimming that removed the sessions `removed`: candidates only leave, a
      session that was not removed stays, and one that is there was spared. */
  ghost predicate Background(c: Core, d: Core, removed: set<Digest>) {
    && d.sequence == c.sequence
    && (forall k :: k in d.pending ==> k in c.pending && d.pending[k] == c.pending[k])
    && (forall o :: o in c.sessions && o !in removed ==> o in d.sessions)
    && (forall o :: o in d.sessions ==> Spared(c, d, removed, o))
  }

  /** Every session whose stamp moved was stamped at `at`, and the caps still hold. */
  ghost predicate Stamped(cfg: Config, c: Core, d: Core, at: Time) {
    && (|c.sessions| <= cfg.maxSessions ==> |d.sessions| <= cfg.maxSessions)
    && (forall o :: o in d.sessions ==>
          (o in c.sessions && d.sessions[o] == c.sessions[o]) || d.sessions[o].updatedAt == at)
  }

  // ---- The sessions each micro step removes ----

  ghost function StoreRemoves(cfg: Config, c: Core, sk: Digest, s: Session): set<Digest> {
    c.sessions.Keys + {sk} - Put(cfg, c, sk, s).sessions.Keys
  }

  ghost function TaintRemoves(cfg: Config, c: Core, sk: Digest, now: Time): set<Digest> {
    c.sessions.Keys + {sk} - Taint(cfg, c, sk, now).sessions.Keys
  }

  ghost function ExpireOneRemoves(cfg: Config, c: Core, now: Time, k: Digest): set<Digest> {
    if k in c.pending && Expired(cfg, c.pending[k].observedAt, now)
    then TaintRemoves(cfg, Drop(c, k), c.pending[k].sessionKey, now)
    else {}
  }

  ghost function ExpirePendingRemoves(cfg: Config, c: Core, now: Time, order: seq<Digest>): set<Digest>
    decreases |order|
  {
    if order == [] then {}
    else
      var front, last := order[..|order| - 1], order[|order| - 1];
      ExpirePendingRemoves(cfg, c, now, front)
      + ExpireOneRemoves(cfg, ExpirePending(cfg, c, now, front), now, last)
  }

  ghost function PurgeRemoves(cfg: Config, c: Core, w: Call): set<Digest> {
    if w.swept then
      c.sessions.Keys - ExpireSessions(cfg, c, w.now).sessions.Keys
      + ExpirePendingRemoves(cfg, ExpireSessions(cfg, c, w.now), w.now, w.order)
    else {}
  }

  ghost function TrimPendingRemoves(cfg: Config, c: Core, late: Time): set<Digest>
    decreases |c.pending|
  {
    if |c.pending| <= cfg.maxPending then {}
    else
      var k := Oldest(PendingRanks(c.pending));
      var rest := Drop(c, k);
      assert rest.pending.Keys == c.pending.Keys - {k};
      TaintRemoves(cfg, rest, c.pending[k].sessionKey, late)
      + TrimPendingRemoves(cfg, Taint(cfg, rest, c.pending[k].sessionKey, late), late)
  }

  // ---- Each is background ----

  lemma BackgroundRefl(c: Core)
    ensures Background(c, c, {})
  {
  }

  lemma BackgroundTrans(c: Core, d: Core, e: Core, r1: set<Digest>, r2: set<Digest>)
    requires Background(c, d, r1) && Background(d, e, r2)
    ensures Background(c, e, r1 + r2)
  {
    forall o | o in e.sessions
      ensures Spared(c, e, r1 + r2, o)
    {
      assert Spared(d, e, r2, o);
      if LostOwn(d, e, o) {
        var k :| k in d.pending && d.pending[k].sessionKey == o && (k !in e.pending || e.pending[k] != d.pending[k]);
        assert k in c.pending;
        assert LostOwn(c, e, o);
      }
      if o in d.sessions {
        assert Spared(c, d, r1, o);
        if LostOwn(c, d, o) {
          var k :| k in c.pending && c.pending[k].sessionKey == o && (k !in d.pending || d.pending[k] != c.pending[k]);
          assert k !in e.pending;
          assert LostOwn(c, e, o);
        }
      }
    }
  }

  lemma DropIsBackground(c: Core, k: Digest)
    ensures Background(c, Drop(c, k), {})
  {
  }

  lemma TaintOwnerIsBackground(cfg: Config, c: Core, k: Digest, now: Time)
    requires k in c.pending
    ensures var sk := c.pending[k].sessionKey;
            && Background(c, Taint(cfg, Drop(c, k), sk, now), TaintRemoves(cfg, Drop(c, k), sk, now))
            && Stamped(cfg, c, Taint(cfg, Drop(c, k), sk, now), now)
  {
    var sk := c.pending[k].sessionKey;
    var d := Drop(c, k);
    var e := Taint(cfg, d, sk, now);
    assert LostOwn(c, e, sk);
    forall o | o in e.sessions
      ensures Spared(c, e, TaintRemoves(cfg, d, sk, now), o)
    {
      if o != sk {
        assert o in c.sessions;
      }
    }
  }

  lemma {:induction false} ExpirePendingIsBackground(cfg: Config, c: Core, now: Time, order: seq<Digest>)
    ensures Background(c, ExpirePending(cfg, c, now, order), ExpirePendingRemoves(cfg, c, now, order))
    ensures Stamped(cfg, c, ExpirePending(cfg, c, now, order), now)
    decreases |order|
  {
    if order == [] {
      BackgroundRefl(c);
    } else {
      var front, last := order[..|order| - 1], order[|order| - 1];
      var d := ExpirePending(cfg, c, now, front);
      ExpirePendingIsBackground(cfg, c, now, front);
      if last in d.pending && Expired(cfg, d.pending[last].observedAt, now) {
        TaintOwnerIsBackground(cfg, d, last, now);
      } else {
        BackgroundRefl(d);
      }
      BackgroundTrans(c, d, ExpireOne(cfg, d, now, last), ExpirePendingRemoves(cfg, c, now, front),
                      ExpireOneRemoves(cfg, d, now, last));
    }
  }

  /** A sweep takes a candidate out of flight only if it is past its TTL. */
  lemma {:induction false} OnlyExpiredLeave(cfg: Config, c: Core, now: Time, order: seq<Digest>, k: Digest)
    requires k in c.pending && k !in ExpirePending(cfg, c, now, order).pending
    ensures now - c.pending[k].observedAt > cfg.ttl
    decreases |order|
  {
    if order == [] {
    } else {
      var front := order[..|order| - 1];
      ExpirePendingIsBackground(cfg, c, now, front);
      if k !in ExpirePending(cfg, c, now, front).pending {
        OnlyExpiredLeave(cfg, c, now, front, k);
      }
    }
  }

  lemma OneVisit(cfg: Config, d: Core, now: Time, k: Digest)
    ensures forall j :: j in ExpireOne(cfg, d, now, k).pending ==>
              j in d.pending && ExpireOne(cfg, d, now, k).pending[j] == d.pending[j]
    ensures k in ExpireOne(cfg, d, now, k).pending ==> !Expired(cfg, d.pending[k].observedAt, now)
  {
  }

  /** A candidate that a sweep visited and left in flight is within its TTL. */
  lemma {:induction false} VisitedAreFresh(cfg: Config, c: Core, now: Time, order: seq<Digest>, k: Digest)
    requires k in ExpirePending(cfg, c, now, order).pending && k in order
    ensures k in c.pending && !Expired(cfg, c.pending[k].observedAt, now)
    decreases |order|
  {
    if order == [] {
    } else {
      var front, last := order[..|order| - 1], order[|order| - 1];
      assert order == front + [last];
      ExpirePendingIsBackground(cfg, c, now, front);
      OneVisit(cfg, ExpirePending(cfg, c, now, front), now, last);
      if k in front {
        VisitedAreFresh(cfg, c, now, front, k);
      }
    }
  }

  /** A sweep that visits every candidate leaves nothing past its TTL, blank sessions apart. */
  lemma SweepIsFresh(cfg: Config, c: Core, now: Time, order: seq<Digest>)
    requires forall k :: k in order <==> k in c.pending
    ensures Fresh(cfg, Sweep(cfg, c, now, order), now)
  {
    var d := ExpireSessions(cfg, c, now);
    ExpirePendingIsBackground(cfg, d, now, order);
    forall k | k in Sweep(cfg, c, now, order).pending
      ensures !Expired(cfg, Sweep(cfg, c, now, order).pending[k].observedAt, now)
    {
      VisitedAreFresh(cfg, d, now, order, k);
    }
  }

  /** Swept or skipped, a purge leaves nothing past its TTL, blank sessions apart. */
  lemma PurgeIsFresh(cfg: Config, c: Core, clock: Time, w: Call)
    requires Admissible(cfg, c, clock, w)
    ensures Fresh(cfg, Purge(cfg, c, w), w.now)
  {
    if w.swept {
      SweepIsFresh(cfg, c, w.now, w.order);
    }
  }

  /** What is in flight after the purge of any call is exactly what was and is within its TTL, to the nanosecond;
      and a session that is there unharmed was within its own, or is blank and was not looked at. */
  lemma PurgeTakesExactly(cfg: Config, c: Core, clock: Time, w: Call)
    requires Admissible(cfg, c, clock, w)
    ensures var d := Purge(cfg, c, w);
            && (forall k :: k in d.pending <==> k in c.pending && w.now - c.pending[k].observedAt <= cfg.ttl)
            && (forall k :: k in d.pending ==> d.pending[k] == c.pending[k])
            && (forall o :: o in d.sessions && d.sessions[o].updatedAt != 0 ==>
                  w.now - d.sessions[o].updatedAt <= cfg.ttl)
  {
    PurgeIsFresh(cfg, c, clock, w);
    PurgeIsBackground(cfg, c, w);
    forall k | k in c.pending && k !in Purge(cfg, c, w).pending
      ensures w.now - c.pending[k].observedAt > cfg.ttl
    {
      OnlyExpiredLeave(cfg, ExpireSessions(cfg, c, w.now), w.now, w.order, k);
    }
  }

  lemma PurgeIsBackground(cfg: Config, c: Core, w: Call)
    ensures Background(c, Purge(cfg, c, w), PurgeRemoves(cfg, c, w))
    ensures Stamped(cfg, c, Purge(cfg, c, w), w.now)
  {
    if w.swept {
      var d := ExpireSessions(cfg, c, w.now);
      var r := c.sessions.Keys - d.sessions.Keys;
      assert Background(c, d, r);
      CardSubset(d.sessions.Keys, c.sessions.Keys);
      ExpirePendingIsBackground(cfg, d, w.now, w.order);
      BackgroundTrans(c, d, Purge(cfg, c, w), r, ExpirePendingRemoves(cfg, d, w.now, w.order));
    } else {
      BackgroundRefl(c);
    }
  }

  lemma BaseIsBackground(cfg: Config, c: Core, w: Call, pk: Digest)
    ensures Background(c, Base(cfg, c, w, pk), PurgeRemoves(cfg, c, w))
    ensures Stamped(cfg, c, Base(cfg, c, w, pk), w.now)
  {
    PurgeIsBackground(cfg, c, w);
    if pk != "" {
      BackgroundThenDrop(cfg, c, Purge(cfg, c, w), PurgeRemoves(cfg, c, w), pk, w.now);
    }
  }

  lemma BackgroundThenDrop(cfg: Config, c: Core, d: Core, removed: set<Digest>, k: Digest, at: Time)
    requires Background(c, d, removed)
    ensures Background(c, Drop(d, k), removed)
    ensures Stamped(cfg, c, d, at) ==> Stamped(cfg, c, Drop(d, k), at)
  {
    forall o | o in d.sessions
      ensures Spared(c, Drop(d, k), removed, o)
    {
      assert Spared(c, d, removed, o);
      if LostOwn(c, d, o) {
        assert LostOwn(c, Drop(d, k), o);
      }
    }
  }

  /** What is left of the in-flight map is its newest candidates. */
  ghost predicate NewestOf(before: map<Digest, Pending>, r: map<Digest, Pending>) {
    && r.Keys <= before.Keys && (forall k :: k in r ==> r[k] == before[k])
    && forall out, kept :: out in before && out !in r && kept in r ==> LeavesBefore(before, out, kept)
  }

  lemma OldestGoneThenNewest(before: map<Digest, Pending>, r: map<Digest, Pending>)
    requires before.Keys != {} && NewestOf(before - {Oldest(PendingRanks(before))}, r)
    ensures NewestOf(before, r)
  {
    var k := Oldest(PendingRanks(before));
    forall out, kept | out in before && out !in r && kept in r
      ensures LeavesBefore(before, out, kept)
    {
      if out == k {
        OldestLeavesFirst(before, kept);
      } else {
        assert LeavesBefore(before - {k}, out, kept);
      }
    }
  }

  /** Trimming keeps exactly the newest candidates: the cap is filled, and whatever left goes before whatever
      was kept. */
  lemma {:induction false} TrimPendingKeepsNewest(cfg: Config, c: Core, late: Time)
    ensures var r := TrimPending(cfg, c, late).pending;
            && NewestOf(c.pending, r)
            && |r| == if |c.pending| <= cfg.maxPending then |c.pending| else cfg.maxPending
    decreases |c.pending|
  {
    if |c.pending| <= cfg.maxPending {
    } else {
      var k := Oldest(PendingRanks(c.pending));
      var rest := Drop(c, k);
      assert rest.pending.Keys == c.pending.Keys - {k};
      TrimPendingKeepsNewest(cfg, Taint(cfg, rest, c.pending[k].sessionKey, late), late);
      OldestGoneThenNewest(c.pending, TrimPending(cfg, c, late).pending);
    }
  }

  lemma {:induction false} TrimPendingIsBackground(cfg: Config, c: Core, late: Time)
    ensures Background(c, TrimPending(cfg, c, late), TrimPendingRemoves(cfg, c, late))
    ensures Stamped(cfg, c, TrimPending(cfg, c, late), late)
    decreases |c.pending|
  {
    if |c.pending| <= cfg.maxPending {
      BackgroundRefl(c);
    } else {
      var k := Oldest(PendingRanks(c.pending));
      var rest := Drop(c, k);
      assert rest.pending.Keys == c.pending.Keys - {k};
      var sk := c.pending[k].sessionKey;
      var d := Taint(cfg, rest, sk, late);
      TaintOwnerIsBackground(cfg, c, k, late);
      TrimPendingIsBackground(cfg, d, late);
      BackgroundTrans(c, d, TrimPending(cfg, d, late), TaintRemoves(cfg, rest, sk, late),
                      TrimPendingRemoves(cfg, d, late));
    }
  }
}
