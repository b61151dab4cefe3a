// The per-session counters that replace a scan of the in-flight map.
module PendingIndex {
  import opened Routes
  import opened Retirement
  import opened Protocol

  /** pendingSessionIndex: how many candidates a session has, in all and per route. */
  datatype Counts = Counts(count: int, routeCounts: map<Digest, int>)

  const NO_COUNTS := Counts(0, map[])

  function CountsAt(index: map<Digest, Counts>, sk: Digest): Counts {
    if sk in index then index[sk] else NO_COUNTS
  }

  function CountOf(counts: map<Digest, int>, r: Digest): int {
    if r in counts then counts[r] else 0
  }

  // ---- What a scan would count; a candidate without a session counts for none ----

  ghost function OwnKeys(pending: map<Digest, Pending>, sk: Digest): set<Digest> {
    set k | k in pending && sk != "" && pending[k].sessionKey == sk
  }

  ghost function RouteKeys(pending: map<Digest, Pending>, sk: Digest, route: Digest): set<Digest> {
    set k | k in pending && sk != "" && pending[k].sessionKey == sk && RouteKey(pending[k]) == route
  }

  ghost function OwnCount(pending: map<Digest, Pending>, sk: Digest): nat {
    |OwnKeys(pending, sk)|
  }

  ghost function RouteCount(pending: map<Digest, Pending>, sk: Digest, route: Digest): nat {
    |RouteKeys(pending, sk, route)|
  }

  /** The counters of one session are the counts of a scan, with no zero entry left. */
  ghost predicate ExactFor(pending: map<Digest, Pending>, counts: Counts, sk: Digest) {
    && counts.count == OwnCount(pending, sk)
    && (forall r :: CountOf(counts.routeCounts, r) == RouteCount(pending, sk, r))
    && (forall r :: r in counts.routeCounts ==> counts.routeCounts[r] > 0)
  }

  /** Every session is indexed exactly, and only sessions with candidates are. A candidate without a session
      is not counted. */
  ghost predicate Exact(pending: map<Digest, Pending>, index: map<Digest, Counts>) {
    && (forall sk :: ExactFor(pending, CountsAt(index, sk), sk))
    && (forall sk :: sk in index ==> index[sk].count > 0)
  }

  /** Exactness leaves the index no freedom. */
  lemma ExactIsUnique(pending: map<Digest, Pending>, a: map<Digest, Counts>, b: map<Digest, Counts>)
    requires Exact(pending, a) && Exact(pending, b)
    ensures a == b
  {
    forall sk
      ensures CountsAt(a, sk) == CountsAt(b, sk)
    {
      assert ExactFor(pending, CountsAt(a, sk), sk) && ExactFor(pending, CountsAt(b, sk), sk);
      SameCounts(CountsAt(a, sk).routeCounts, CountsAt(b, sk).routeCounts);
    }
    assert forall sk :: sk in a <==> CountsAt(a, sk).count > 0;
    assert forall sk :: sk in b <==> CountsAt(b, sk).count > 0;
  }

  lemma SameCounts(x: map<Digest, int>, y: map<Digest, int>)
    requires forall r :: CountOf(x, r) == CountOf(y, r)
    requires (forall r :: r in x ==> x[r] > 0) && (forall r :: r in y ==> y[r] > 0)
    ensures x == y
  {
    forall r
      ensures r in x <==> r in y
      ensures r in x ==> x[r] == y[r]
    {
      assert CountOf(x, r) == CountOf(y, r);
    }
  }

  // ---- One candidate more ----

  lemma OwnKeysAfterAdd(pending: map<Digest, Pending>, k: Digest, p: Pending, sk: Digest)
    requires k !in pending
    ensures OwnKeys(pending[k := p], sk) == OwnKeys(pending, sk) + if sk != "" && p.sessionKey == sk then {k} else {}
    ensures k !in OwnKeys(pending, sk)
  {
  }

  lemma RouteKeysAfterAdd(pending: map<Digest, Pending>, k: Digest, p: Pending, sk: Digest, r: Digest)
    requires k !in pending
    ensures RouteKeys(pending[k := p], sk, r)
            == RouteKeys(pending, sk, r) + if sk != "" && p.sessionKey == sk && RouteKey(p) == r then {k} else {}
    ensures k !in RouteKeys(pending, sk, r)
  {
  }

  lemma ScanAfterAdd(pending: map<Digest, Pending>, k: Digest, p: Pending, sk: Digest, r: Digest)
    requires k !in pending
    ensures OwnCount(pending[k := p], sk) == OwnCount(pending, sk) + if sk != "" && p.sessionKey == sk then 1 else 0
    ensures RouteCount(pending[k := p], sk, r)
            == RouteCount(pending, sk, r) + if sk != "" && p.sessionKey == sk && RouteKey(p) == r then 1 else 0
  {
    OwnKeysAfterAdd(pending, k, p, sk);
    RouteKeysAfterAdd(pending, k, p, sk, r);
  }

  function CountedOnce(was: Counts, r: Digest): Counts {
    Counts(was.count + 1, was.routeCounts[r := CountOf(was.routeCounts, r) + 1])
  }

  lemma CountedIsExact(pending: map<Digest, Pending>, index: map<Digest, Counts>, k: Digest, p: Pending)
    requires Exact(pending, index) && k !in pending && p.sessionKey != ""
    ensures Exact(pending[k := p], index[p.sessionKey := CountedOnce(CountsAt(index, p.sessionKey), RouteKey(p))])
  {
    var next := pending[k := p];
    var counted := index[p.sessionKey := CountedOnce(CountsAt(index, p.sessionKey), RouteKey(p))];
    forall sk
      ensures ExactFor(next, CountsAt(counted, sk), sk)
    {
      assert ExactFor(pending, CountsAt(index, sk), sk);
      ScanAfterAdd(pending, k, p, sk, "");
      forall r
        ensures CountOf(CountsAt(counted, sk).routeCounts, r) == RouteCount(next, sk, r)
      {
        ScanAfterAdd(pending, k, p, sk, r);
      }
    }
    assert ExactFor(pending, CountsAt(index, p.sessionKey), p.sessionKey);
  }

  lemma UncountableIsExact(pending: map<Digest, Pending>, index: map<Digest, Counts>, k: Digest, p: Pending)
    requires Exact(pending, index) && k !in pending && p.sessionKey == ""
    ensures Exact(pending[k := p], index)
  {
    var next := pending[k := p];
    forall sk
      ensures ExactFor(next, CountsAt(index, sk), sk)
    {
      assert ExactFor(pending, CountsAt(index, sk), sk);
      ScanAfterAdd(pending, k, p, sk, "");
      forall r
        ensures RouteCount(next, sk, r) == RouteCount(pending, sk, r)
      {
        ScanAfterAdd(pending, k, p, sk, r);
      }
    }
  }

  // ---- One candidate less ----

  lemma ScanAfterRemove(pending: map<Digest, Pending>, k: Digest, sk: Digest, r: Digest)
    requires k in pending
    ensures OwnCount(pending - {k}, sk)
            == OwnCount(pending, sk) - if sk != "" && pending[k].sessionKey == sk then 1 else 0
    ensures RouteCount(pending - {k}, sk, r)
            == RouteCount(pending, sk, r)
               - if sk != "" && pending[k].sessionKey == sk && RouteKey(pending[k]) == r then 1 else 0
  {
    assert OwnKeys(pending - {k}, sk) == OwnKeys(pending, sk) - {k};
    assert RouteKeys(pending - {k}, sk, r) == RouteKeys(pending, sk, r) - {k};
    assert k in OwnKeys(pending, sk) <==> sk != "" && pending[k].sessionKey == sk;
    assert k in RouteKeys(pending, sk, r) <==> sk != "" && pending[k].sessionKey == sk && RouteKey(pending[k]) == r;
  }

  function UncountedOnce(was: Counts, r: Digest): Counts {
    var left := CountOf(was.routeCounts, r) - 1;
    Counts(was.count - 1, if left <= 0 then was.routeCounts - {r} else was.routeCounts[r := left])
  }

  /** The index after one candidate of this session and route less. */
  function Uncounted(index: map<Digest, Counts>, sk: Digest, r: Digest): map<Digest, Counts> {
    if sk !in index then index
    else
      var next := UncountedOnce(index[sk], r);
      if next.count <= 0 then index - {sk} else index[sk := next]
  }

  lemma NoneLeft(pending: map<Digest, Pending>, sk: Digest, r: Digest)
    ensures RouteCount(pending, sk, r) <= OwnCount(pending, sk)
  {
    CardSubset(RouteKeys(pending, sk, r), OwnKeys(pending, sk));
  }

  lemma UncountedForOwner(pending: map<Digest, Pending>, was: Counts, k: Digest)
    requires k in pending && pending[k].sessionKey != "" && ExactFor(pending, was, pending[k].sessionKey)
    ensures was.count > 0
    ensures var next := UncountedOnce(was, RouteKey(pending[k]));
            ExactFor(pending - {k}, if next.count <= 0 then NO_COUNTS else next, pending[k].sessionKey)
  {
    var sk, rk := pending[k].sessionKey, RouteKey(pending[k]);
    var next := UncountedOnce(was, rk);
    ScanAfterRemove(pending, k, sk, "");
    forall r
      ensures CountOf(next.routeCounts, r) == RouteCount(pending - {k}, sk, r) <= OwnCount(pending - {k}, sk)
    {
      ScanAfterRemove(pending, k, sk, r);
      NoneLeft(pending - {k}, sk, r);
    }
  }

  lemma UncountedIsExact(pending: map<Digest, Pending>, index: map<Digest, Counts>, k: Digest)
    requires Exact(pending, index) && k in pending
    ensures Exact(pending - {k}, Uncounted(index, pending[k].sessionKey, RouteKey(pending[k])))
  {
    var p := pending[k];
    var left := Uncounted(index, p.sessionKey, RouteKey(p));
    assert ExactFor(pending, CountsAt(index, p.sessionKey), p.sessionKey);
    if p.sessionKey != "" {
      UncountedForOwner(pending, CountsAt(index, p.sessionKey), k);
    }
    forall sk
      ensures ExactFor(pending - {k}, CountsAt(left, sk), sk)
    {
      assert ExactFor(pending, CountsAt(index, sk), sk);
      if sk == "" || sk != p.sessionKey {
        ScanAfterRemove(pending, k, sk, "");
        forall r
          ensures RouteCount(pending - {k}, sk, r) == RouteCount(pending, sk, r)
        {
          ScanAfterRemove(pending, k, sk, r);
        }
      }
    }
  }

  // ---- The constant-time tests ----

  lemma InFlightByCount(c: Core, index: map<Digest, Counts>, sk: Digest)
    requires Exact(c.pending, index) && sk != ""
    ensures InFlight(c, sk) <==> CountsAt(index, sk).count > 0
  {
    assert ExactFor(c.pending, CountsAt(index, sk), sk);
    if InFlight(c, sk) {
      var k :| k in c.pending && c.pending[k].sessionKey == sk;
      assert k in OwnKeys(c.pending, sk);
    }
    if OwnKeys(c.pending, sk) != {} {
      var k :| k in OwnKeys(c.pending, sk);
      assert InFlight(c, sk);
    }
  }

  /** The constant-time mismatch test is the scan it replaces. */
  lemma MismatchByCount(c: Core, index: map<Digest, Counts>, sk: Digest, route: Digest)
    requires Exact(c.pending, index) && sk != ""
    ensures RouteMismatch(c, sk, route) <==> CountsAt(index, sk).count > CountOf(CountsAt(index, sk).routeCounts, route)
  {
    assert ExactFor(c.pending, CountsAt(index, sk), sk);
    var all, same := OwnKeys(c.pending, sk), RouteKeys(c.pending, sk, route);
    CardSubset(same, all);
    if RouteMismatch(c, sk, route) {
      var k :| k in c.pending && c.pending[k].sessionKey == sk && RouteKey(c.pending[k]) != route;
      assert k in all && k !in same;
      CardSubset(same, all - {k});
    } else {
      assert forall k :: k in all ==> k in same;
      assert all == same;
    }
  }

  lemma IndexedAreActive(pending: map<Digest, Pending>, index: map<Digest, Counts>)
    requires Exact(pending, index) && forall k :: k in pending ==> pending[k].sessionKey != ""
    ensures index.Keys == Active(pending)
  {
    forall sk
      ensures sk in index <==> sk in Active(pending)
    {
      assert ExactFor(pending, CountsAt(index, sk), sk);
      if sk != "" {
        InFlightByCount(Core(map[], pending, 0), index, sk);
      }
      assert sk in Active(pending) <==> InFlight(Core(map[], pending, 0), sk);
    }
  }
}
