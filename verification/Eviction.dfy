// The eviction order of trimSessionsLocked and trimPendingLocked: entries are ranked by activity, then
// stamp, then key, and the least is evicted until the cap holds.
module Eviction {
  import opened Text
  import opened Routes

  datatype Rank = Rank(active: bool, stamp: Time, key: Digest)

  predicate RankLess(a: Rank, b: Rank) {
    (!a.active && b.active)
    || (a.active == b.active && (a.stamp < b.stamp || (a.stamp == b.stamp && Less(a.key, b.key))))
  }

  /** A ranking names each entry by its own key. */
  ghost predicate Ranking(m: map<Digest, Rank>) {
    forall k :: k in m ==> m[k].key == k
  }

  ghost predicate IsOldest(m: map<Digest, Rank>, k: Digest) {
    k in m && forall j :: j in m && j != k ==> RankLess(m[k], m[j])
  }

  lemma RankIsTotal(a: Rank, b: Rank)
    ensures a == b || RankLess(a, b) || RankLess(b, a)
  {
    LessIsTotal(a.key, b.key);
  }

  lemma RankIsAsymmetric(a: Rank, b: Rank)
    requires RankLess(a, b)
    ensures !RankLess(b, a) && a != b
  {
    if Less(a.key, b.key) {
      LessIsAsymmetric(a.key, b.key);
    }
    if Less(b.key, a.key) {
      LessIsAsymmetric(b.key, a.key);
    }
  }

  lemma RankIsTransitive(a: Rank, b: Rank, c: Rank)
    requires RankLess(a, b) && RankLess(b, c)
    ensures RankLess(a, c)
  {
    if Less(a.key, b.key) && Less(b.key, c.key) {
      LessIsTransitive(a.key, b.key, c.key);
    }
  }

  lemma {:induction false} OldestExists(m: map<Digest, Rank>)
    requires Ranking(m) && m.Keys != {}
    ensures exists k :: IsOldest(m, k)
    decreases |m.Keys|
  {
    var x :| x in m.Keys;
    var rest := m - {x};
    assert rest.Keys == m.Keys - {x};
    if rest.Keys == {} {
      forall j | j in m
        ensures j == x
      {
        assert j !in rest.Keys;
      }
      assert IsOldest(m, x);
    } else {
      OldestExists(rest);
      var y :| IsOldest(rest, y);
      RankIsTotal(m[x], m[y]);
      if RankLess(m[x], m[y]) {
        forall j | j in m && j != x
          ensures RankLess(m[x], m[j])
        {
          if j != y {
            assert j in rest;
            RankIsTransitive(m[x], m[y], m[j]);
          }
        }
        assert IsOldest(m, x);
      } else {
        forall j | j in m && j != y
          ensures RankLess(m[y], m[j])
        {
          assert j == x || j in rest;
        }
        assert IsOldest(m, y);
      }
    }
  }

  lemma OldestIsUnique(m: map<Digest, Rank>, a: Digest, b: Digest)
    requires IsOldest(m, a) && IsOldest(m, b)
    ensures a == b
  {
    if a != b {
      RankIsAsymmetric(m[a], m[b]);
    }
  }

  ghost function Oldest(m: map<Digest, Rank>): (k: Digest)
    requires Ranking(m) && m.Keys != {}
    ensures IsOldest(m, k)
  {
    OldestExists(m);
    var k :| IsOldest(m, k);
    k
  }

  ghost function SessionRanks(sessions: map<Digest, Session>, active: set<Digest>): (m: map<Digest, Rank>)
    ensures Ranking(m) && m.Keys == sessions.Keys
  {
    map k | k in sessions :: Rank(k in active, sessions[k].updatedAt, k)
  }

  ghost function PendingRanks(pending: map<Digest, Pending>): (m: map<Digest, Rank>)
    ensures Ranking(m) && m.Keys == pending.Keys
  {
    map k | k in pending :: Rank(false, pending[k].observedAt, k)
  }

  ghost function TrimSessions(max: nat, sessions: map<Digest, Session>, active: set<Digest>): (r: map<Digest, Session>)
    ensures |r| <= max
    ensures r.Keys <= sessions.Keys
    ensures forall k :: k in r ==> r[k] == sessions[k]
    ensures |sessions| <= max ==> r == sessions
    decreases |sessions|
  {
    if |sessions| <= max then sessions
    else
      var k := Oldest(SessionRanks(sessions, active));
      var rest := sessions - {k};
      assert rest.Keys == sessions.Keys - {k};
      TrimSessions(max, rest, active)
  }

  /** Session a goes before session b: idle before active, then by the older stamp, then by the smaller key. */
  predicate GoesBefore(sessions: map<Digest, Session>, active: set<Digest>, a: Digest, b: Digest)
    requires a in sessions && b in sessions
  {
    if a !in active && b in active then true
    else if a in active && b !in active then false
    else
      || sessions[a].updatedAt < sessions[b].updatedAt
      || (sessions[a].updatedAt == sessions[b].updatedAt && Less(a, b))
  }

  lemma OldestGoesFirst(sessions: map<Digest, Session>, active: set<Digest>, k: Digest)
    requires sessions.Keys != {} && k in sessions && k != Oldest(SessionRanks(sessions, active))
    ensures GoesBefore(sessions, active, Oldest(SessionRanks(sessions, active)), k)
  {
    var ranks := SessionRanks(sessions, active);
    assert RankLess(ranks[Oldest(ranks)], ranks[k]);
  }

  /** Whatever was evicted goes before whatever was kept. */
  ghost predicate NewestSessions(before: map<Digest, Session>, active: set<Digest>, r: map<Digest, Session>) {
    && r.Keys <= before.Keys
    && forall out, kept :: out in before && out !in r && kept in r ==> GoesBefore(before, active, out, kept)
  }

  lemma OldestThenNewest(before: map<Digest, Session>, active: set<Digest>, r: map<Digest, Session>)
    requires before.Keys != {} && NewestSessions(before - {Oldest(SessionRanks(before, active))}, active, r)
    ensures NewestSessions(before, active, r)
  {
    var k := Oldest(SessionRanks(before, active));
    forall out, kept | out in before && out !in r && kept in r
      ensures GoesBefore(before, active, out, kept)
    {
      if out == k {
        OldestGoesFirst(before, active, kept);
      } else {
        assert GoesBefore(before - {k}, active, out, kept);
      }
    }
  }

  /** Trimming keeps exactly the newest entries: the cap is filled, and whatever was evicted goes before
      whatever was kept. */
  lemma {:induction false} TrimKeepsNewest(max: nat, sessions: map<Digest, Session>, active: set<Digest>)
    ensures var r := TrimSessions(max, sessions, active);
            && |r| == (if |sessions| <= max then |sessions| else max)
            && NewestSessions(sessions, active, r)
    decreases |sessions|
  {
    if |sessions| <= max {
    } else {
      var k := Oldest(SessionRanks(sessions, active));
      var rest := sessions - {k};
      assert rest.Keys == sessions.Keys - {k};
      TrimKeepsNewest(max, rest, active);
      OldestThenNewest(sessions, active, TrimSessions(max, sessions, active));
    }
  }

  /** An idle session is only kept, and an active one only evicted, once every idle one is gone. */
  lemma TrimPrefersIdle(max: nat, sessions: map<Digest, Session>, active: set<Digest>, out: Digest, kept: Digest)
    requires var r := TrimSessions(max, sessions, active); out in sessions && out !in r && kept in r
    requires out in active
    ensures kept in active
  {
    TrimKeepsNewest(max, sessions, active);
    assert GoesBefore(sessions, active, out, kept);
  }

  /** Candidate a goes before candidate b: by the older observation, then by the smaller key. */
  predicate LeavesBefore(pending: map<Digest, Pending>, a: Digest, b: Digest)
    requires a in pending && b in pending
  {
    || pending[a].observedAt < pending[b].observedAt
    || (pending[a].observedAt == pending[b].observedAt && Less(a, b))
  }

  lemma OldestLeavesFirst(pending: map<Digest, Pending>, k: Digest)
    requires pending.Keys != {} && k in pending && k != Oldest(PendingRanks(pending))
    ensures LeavesBefore(pending, Oldest(PendingRanks(pending)), k)
  {
    var ranks := PendingRanks(pending);
    assert RankLess(ranks[Oldest(ranks)], ranks[k]);
  }
}
