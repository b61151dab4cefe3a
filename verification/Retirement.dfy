// The retirement barrier of one session, said without its loop: which items are behind it afterwards, for
// which routes, and exactly when it overflows.
module Retirement {
  import opened Routes

  function ItemSet(items: seq<Digest>): set<Digest> {
    set f | f in items && f != ""
  }

  /** Bounded, every scope belongs to a retired item, and an overflowed barrier remembers nothing. */
  ghost predicate BarrierOK(s: Session, sequence: nat) {
    && |s.retiredItems| <= MAX_RETIRED
    && s.retiredRoutes.Keys <= s.retiredItems.Keys
    && (s.overflow ==> s.retiredItems == map[] && s.retiredRoutes == map[])
    && "" !in s.retiredItems
    && (forall f :: f in s.retiredItems ==> s.retiredItems[f] <= sequence)
    && (forall f :: f in s.retiredRoutes ==> s.retiredRoutes[f] != "")
  }

  /** t is s with only its barrier and its stamp changed. */
  predicate OnlyBarrier(s: Session, t: Session, now: Time) {
    t == s.(retiredItems := t.retiredItems, retiredRoutes := t.retiredRoutes, overflow := t.overflow, updatedAt := now)
  }

  /** Every item of `items`, and nothing else, was retired anew: given a sequence above n, and the route as
      its scope, or no scope when the route is unknown. */
  ghost predicate RetiredAnew(s: Session, t: Session, items: set<Digest>, n: nat, m: nat, route: Digest, known: bool) {
    && t.retiredItems.Keys == s.retiredItems.Keys + items
    && (forall f :: f in items ==> n < t.retiredItems[f] <= m)
    && (forall f :: f in s.retiredItems && f !in items ==> t.retiredItems[f] == s.retiredItems[f])
    && (forall f :: f in items ==>
          if known then f in t.retiredRoutes && t.retiredRoutes[f] == route else f !in t.retiredRoutes)
    && (forall f :: f !in items ==> (f in t.retiredRoutes <==> f in s.retiredRoutes))
    && (forall f :: f !in items && f in s.retiredRoutes ==> t.retiredRoutes[f] == s.retiredRoutes[f])
  }

  lemma CardSubset<T>(a: set<T>, b: set<T>)
    requires a <= b
    ensures |a| <= |b|
  {
    assert b == a + (b - a);
  }

  lemma CardReplace<K, V>(m: map<K, V>, k: K, v: V)
    ensures |m[k := v]| == if k in m then |m| else |m| + 1
  {
  }

  lemma RetireOneSpec(s: Session, item: Digest, n: nat, route: Digest, known: bool)
    requires BarrierOK(s, n) && !s.overflow && item != "" && (known ==> route != "")
    ensures var t := RetireOne(s, item, n + 1, route, known);
            && RetiredAnew(s, t, {item}, n, n + 1, route, known)
            && (|t.retiredItems| <= MAX_RETIRED ==> BarrierOK(t, n + 1))
  {
  }

  lemma RetiredAnewTrans(s: Session, t: Session, u: Session, a: set<Digest>, b: set<Digest>,
                         n: nat, m: nat, k: nat, route: Digest, known: bool)
    requires n <= m <= k
    requires RetiredAnew(s, t, a, n, m, route, known) && RetiredAnew(t, u, b, m, k, route, known)
    ensures RetiredAnew(s, u, a + b, n, k, route, known)
  {
  }

  /** What retiring `items` one by one makes of the session s. */
  ghost predicate Retires(s: Session, n: nat, items: set<Digest>, t: Session, m: nat, route: Digest, known: bool,
                          now: Time) {
    && n <= m && OnlyBarrier(s, t, now) && BarrierOK(t, m)
    && (t.overflow <==> |s.retiredItems.Keys + items| > MAX_RETIRED)
    && (!t.overflow ==> RetiredAnew(s, t, items, n, m, route, known))
  }

  lemma RetiresNothing(s: Session, n: nat, route: Digest, known: bool, now: Time)
    requires BarrierOK(s, n) && !s.overflow
    ensures Retires(s, n, {}, s.(updatedAt := now), n, route, known, now)
  {
  }

  lemma RetiresExtends(s: Session, next: Session, t: Session, n: nat, m: nat, head: Digest, tail: set<Digest>,
                       route: Digest, known: bool, now: Time)
    requires next == RetireOne(s, head, n + 1, route, known)
    requires RetiredAnew(s, next, {head}, n, n + 1, route, known)
    requires Retires(next, n + 1, tail, t, m, route, known, now)
    ensures Retires(s, n, {head} + tail, t, m, route, known, now)
  {
    assert next.retiredItems.Keys + tail == s.retiredItems.Keys + ({head} + tail);
    if !t.overflow {
      RetiredAnewTrans(s, next, t, {head}, tail, n, n + 1, m, route, known);
    }
  }

  lemma RetiresOverflows(s: Session, next: Session, n: nat, head: Digest, tail: set<Digest>, route: Digest,
                         known: bool, now: Time)
    requires next == RetireOne(s, head, n + 1, route, known) && |next.retiredItems| > MAX_RETIRED
    ensures Retires(s, n, {head} + tail, MarkOverflow(next, now), n + 1, route, known, now)
  {
    CardSubset(next.retiredItems.Keys, s.retiredItems.Keys + ({head} + tail));
  }

  lemma {:induction false} RetireAllSpec(s: Session, n: nat, items: seq<Digest>, route: Digest, known: bool, now: Time)
    requires BarrierOK(s, n) && !s.overflow && (known ==> route != "")
    ensures var (t, m) := RetireAll(s, n, items, route, known, now);
            Retires(s, n, ItemSet(items), t, m, route, known, now)
    decreases |items|
  {
    if items == [] {
      assert ItemSet(items) == {};
      RetiresNothing(s, n, route, known, now);
    } else {
      var head, tail := items[0], items[1..];
      assert items == [head] + tail;
      if head == "" {
        assert ItemSet(items) == ItemSet(tail);
        RetireAllSpec(s, n, tail, route, known, now);
      } else {
        assert ItemSet(items) == {head} + ItemSet(tail);
        var next := RetireOne(s, head, n + 1, route, known);
        RetireOneSpec(s, head, n, route, known);
        if |next.retiredItems| > MAX_RETIRED {
          RetiresOverflows(s, next, n, head, ItemSet(tail), route, known, now);
        } else {
          RetireAllSpec(next, n + 1, tail, route, known, now);
          var (t, m) := RetireAll(next, n + 1, tail, route, known, now);
          RetiresExtends(s, next, t, n, m, head, ItemSet(tail), route, known, now);
        }
      }
    }
  }

  /** Retirement: an overflowed barrier stays overflowed; otherwise it overflows exactly when too many items
      were observed or would be remembered, and if not, the observed items join it under the given scope. */
  lemma RetireSpec(s: Session, n: nat, items: seq<Digest>, route: Digest, known: bool, now: Time)
    requires BarrierOK(s, n) && (known ==> route != "")
    ensures var (t, m) := Retire(s, n, items, route, known, now);
            && n <= m && OnlyBarrier(s, t, now) && BarrierOK(t, m)
            && (t.overflow <==>
                  s.overflow || |items| > MAX_RETIRED || |s.retiredItems.Keys + ItemSet(items)| > MAX_RETIRED)
            && (!t.overflow ==> RetiredAnew(s, t, ItemSet(items), n, m, route, known))
  {
    if !s.overflow {
      if items == [] {
        assert ItemSet(items) == {};
        RetiresNothing(s, n, route, known, now);
      } else if |items| <= MAX_RETIRED {
        RetireAllSpec(s, n, items, route, known, now);
      }
    }
  }

  /** What the barrier does to one item on one route: it is barred afterwards exactly when the barrier now
      overflows, it was just retired for that route or for none, or it was barred and not re-scoped. */
  lemma BarredAfterRetire(s: Session, n: nat, items: seq<Digest>, route: Digest, known: bool, now: Time, item: Digest,
                          on: Digest)
    requires BarrierOK(s, n) && (known ==> route != "")
    ensures var t := Retire(s, n, items, route, known, now).0;
            !t.overflow ==>
              (Barred(t, item, on) <==> if item in ItemSet(items) then !known || on == route else Barred(s, item, on))
  {
    RetireSpec(s, n, items, route, known, now);
  }
}
