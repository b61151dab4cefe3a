// The values of state.go: route-bound signals, decisions, sessions and in-flight candidates, and the
// pure rules that read them.
module Routes {
  import opened Text

  /** An opaque fingerprint: a session key, a route, an item or an in-flight request key. */
  type Digest = string

  /** Nanoseconds; 0 is Go's zero time. */
  type Time = nat

  const SECOND: nat := 1_000_000_000
  const MINUTE: nat := 60 * SECOND
  const MAX_RETIRED: nat := 256

  datatype Option<+T> = None | Some(value: T)

  datatype Policy = Block | StripState

  datatype Config = Config(ttl: nat, maxSessions: nat, maxPending: nat, policy: Policy) {
    predicate Valid() {
      ttl >= MINUTE && maxSessions >= 1 && maxPending >= 1
    }
  }

  datatype Signals = Signals(hasReasoning: bool, hasCompaction: bool, hasPreviousResponse: bool, items: seq<Digest>) {
    predicate RouteBound() {
      hasReasoning || hasCompaction || hasPreviousResponse
    }

    /** What an inspection always reports: a fingerprint comes from a reasoning or compaction item. */
    predicate Consistent() {
      items != [] <==> hasReasoning || hasCompaction
    }
  }

  datatype Relation = Unknown | Same | Changed

  datatype Decision = Decision(relation: Relation, strip: bool, reject: bool, blocked: seq<Digest>)

  datatype Session = Session(
    route: Digest, hasRoute: bool, sequence: nat, updatedAt: Time, tainted: bool,
    retiredItems: map<Digest, nat>, retiredRoutes: map<Digest, Digest>, overflow: bool)

  /** Go's zero session, which reading an absent key yields. */
  const BLANK := Session("", false, 0, 0, false, map[], map[], false)

  datatype Pending = Pending(
    sessionKey: Digest, route: Digest, routeKnown: bool, sequence: nat, observedAt: Time,
    cleanStart: bool, canClearTaint: bool, overflow: bool, retired: seq<Digest>)

  datatype Outcome = Succeeded | Unsuccessful(error: string)

  /** Route equality: an empty digest equals nothing. */
  predicate RouteEqual(a: Digest, b: Digest) {
    a != "" && a == b
  }

  /** The key under which an in-flight candidate is counted. */
  function RouteKey(p: Pending): Digest {
    if p.routeKnown then p.route else ""
  }

  function FailClosed(signals: Signals, policy: Policy): Decision {
    if !signals.RouteBound() then Decision(Unknown, false, false, [])
    else if signals.hasCompaction && policy == Block then Decision(Unknown, false, true, [])
    else Decision(Unknown, true, false, [])
  }

  predicate InvalidEncryptedContent(message: string) {
    var lower := ToLower(message);
    Contains(lower, "invalid_encrypted_content") || Contains(lower, "thinking_signature_invalid")
    || Contains(lower, "encrypted content could not be decrypted")
  }

  /** Which upstream messages count as a refusal of encrypted content. */
  lemma RefusalIsExact(message: string)
    ensures InvalidEncryptedContent(message) <==>
              || Mentions(message, "invalid_encrypted_content")
              || Mentions(message, "thinking_signature_invalid")
              || Mentions(message, "encrypted content could not be decrypted")
  {
    MentionIsExact(message, "invalid_encrypted_content");
    MentionIsExact(message, "thinking_signature_invalid");
    MentionIsExact(message, "encrypted content could not be decrypted");
  }

  // ---- Observed fingerprints ----

  /** The non-empty fingerprints, each once, in order of first appearance. */
  function Distinct(fingerprints: seq<Digest>): (r: seq<Digest>)
    ensures forall f :: f in r <==> f in fingerprints && f != ""
    ensures forall i, j :: 0 <= i < j < |r| ==> r[i] != r[j]
    ensures |r| <= |fingerprints|
    decreases |fingerprints|
  {
    if fingerprints == [] then []
    else
      var front, last := fingerprints[..|fingerprints| - 1], fingerprints[|fingerprints| - 1];
      assert fingerprints == front + [last];
      var r := Distinct(front);
      if last == "" || last in r then r else r + [last]
  }

  /** What a stripped candidate carries to its completion: its items, or only the fact that there were too many. */
  function Bounded(fingerprints: seq<Digest>): (r: (seq<Digest>, bool))
    ensures r.1 <==> |fingerprints| > 256
    ensures r.1 ==> r.0 == []
    ensures |r.0| <= 256 && "" !in r.0
    ensures !r.1 ==> forall f :: f in r.0 <==> f in fingerprints && f != ""
  {
    if |fingerprints| > MAX_RETIRED then ([], true) else (Distinct(fingerprints), false)
  }

  /** An item is barred from a route when it was retired for that route or without any scope. */
  predicate Barred(s: Session, item: Digest, route: Digest) {
    item in s.retiredItems && (item in s.retiredRoutes ==> RouteEqual(s.retiredRoutes[item], route))
  }

  /** The observed fingerprints barred from the route, each once, in order of first appearance. */
  function Matches(s: Session, observed: seq<Digest>, route: Digest): (r: seq<Digest>)
    ensures forall f :: f in r <==> f in observed && Barred(s, f, route)
    ensures forall i, j :: 0 <= i < j < |r| ==> r[i] != r[j]
    decreases |observed|
  {
    if observed == [] then []
    else
      var front, last := observed[..|observed| - 1], observed[|observed| - 1];
      assert observed == front + [last];
      var r := Matches(s, front, route);
      if !Barred(s, last, route) || last in r then r else r + [last]
  }

  /** The earlier fingerprint appears before any appearance of the later one. */
  predicate SeenBefore(observed: seq<Digest>, earlier: Digest, later: Digest) {
    exists p | 0 <= p < |observed| :: observed[p] == earlier && later !in observed[..p + 1]
  }

  /** The fingerprints are in order of first appearance. */
  ghost predicate InOrder(r: seq<Digest>, observed: seq<Digest>) {
    forall i, j :: 0 <= i < j < |r| ==> SeenBefore(observed, r[i], r[j])
  }

  lemma OneMoreInOrder(r: seq<Digest>, front: seq<Digest>, last: Digest)
    requires InOrder(r, front) && forall f :: f in r ==> f in front
    ensures InOrder(r, front + [last])
    ensures last !in front ==> InOrder(r + [last], front + [last])
  {
    var observed := front + [last];
    forall i, j | 0 <= i < j < |r|
      ensures SeenBefore(observed, r[i], r[j])
    {
      var p :| 0 <= p < |front| && front[p] == r[i] && r[j] !in front[..p + 1];
      assert observed[..p + 1] == front[..p + 1];
    }
    if last !in front {
      forall i | 0 <= i < |r|
        ensures SeenBefore(observed, r[i], last)
      {
        assert r[i] in front;
        var p :| 0 <= p < |front| && front[p] == r[i];
        assert observed[..p + 1] == front[..p + 1];
      }
    }
  }

  /** The distinct fingerprints come in order of first appearance. */
  lemma {:induction false} DistinctInOrder(fingerprints: seq<Digest>)
    ensures InOrder(Distinct(fingerprints), fingerprints)
    decreases |fingerprints|
  {
    if fingerprints == [] {
    } else {
      var front, last := fingerprints[..|fingerprints| - 1], fingerprints[|fingerprints| - 1];
      assert fingerprints == front + [last];
      DistinctInOrder(front);
      OneMoreInOrder(Distinct(front), front, last);
    }
  }

  /** And so do the barred ones. */
  lemma {:induction false} MatchesInOrder(s: Session, observed: seq<Digest>, route: Digest)
    ensures InOrder(Matches(s, observed, route), observed)
    decreases |observed|
  {
    if observed == [] {
    } else {
      var front, last := observed[..|observed| - 1], observed[|observed| - 1];
      assert observed == front + [last];
      MatchesInOrder(s, front, route);
      OneMoreInOrder(Matches(s, front, route), front, last);
    }
  }

  // ---- Retirement ----

  function MarkOverflow(s: Session, now: Time): Session {
    s.(overflow := true, retiredItems := map[], retiredRoutes := map[], updatedAt := now)
  }

  /** One more retired item: its sequence, and its route when that is known. */
  function RetireOne(s: Session, item: Digest, sequence: nat, route: Digest, known: bool): Session {
    s.(retiredItems := s.retiredItems[item := sequence],
       retiredRoutes := if known then s.retiredRoutes[item := route] else s.retiredRoutes - {item})
  }

  /** Retires the items in order, giving each the next sequence, until one is too many. */
  function RetireAll(s: Session, sequence: nat, items: seq<Digest>, route: Digest, known: bool,
                     now: Time): (Session, nat)
    decreases |items|
  {
    if items == [] then (s.(updatedAt := now), sequence)
    else if items[0] == "" then RetireAll(s, sequence, items[1..], route, known, now)
    else
      var next := RetireOne(s, items[0], sequence + 1, route, known);
      if |next.retiredItems| > MAX_RETIRED then (MarkOverflow(next, now), sequence + 1)
      else RetireAll(next, sequence + 1, items[1..], route, known, now)
  }

  function Retire(s: Session, sequence: nat, items: seq<Digest>, route: Digest, known: bool,
                  now: Time): (Session, nat) {
    if s.overflow || items == [] then (s.(updatedAt := now), sequence)
    else if |items| > MAX_RETIRED then (MarkOverflow(s, now), sequence)
    else RetireAll(s, sequence, items, route, known, now)
  }

  // ---- Commit and invalidation ----

  /** A success commits its route unless a later request already committed one. */
  predicate Applies(s: Session, p: Pending) {
    p.routeKnown ==> !s.hasRoute || p.sequence >= s.sequence
  }

  function Commit(s: Session, p: Pending, now: Time): Session {
    if p.routeKnown && Applies(s, p)
    then s.(route := p.route, hasRoute := true, sequence := p.sequence, updatedAt := now)
    else s
  }

  /** The upstream refused route-bound state: taint, and drop a binding this candidate relied on. */
  function Invalidate(s: Session, p: Pending, now: Time): Session {
    var t := s.(tainted := true, updatedAt := now);
    if s.hasRoute && RouteEqual(s.route, p.route) && s.sequence <= p.sequence
    then t.(route := "", hasRoute := false, sequence := p.sequence)
    else t
  }
}
