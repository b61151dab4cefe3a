// persistence.go: what is saved, what is accepted on load, and what a restart changes.
module Persistence {
  import opened Routes
  import opened Retirement
  import opened Protocol
  import opened Footprint
  import opened Events
  import opened Invariant
  import opened Runs
  import opened Sweeping

  const VERSION: nat := 1
  const CLOCK_SKEW: nat := 5 * MINUTE
  const DIGEST_LENGTH: nat := 64

  /** persistentStateBody. */
  datatype Body = Body(version: nat, savedAt: Time, sequence: nat, sessions: map<Digest, Session>)

  /** The state file: a body and whether its integrity tag matches. */
  datatype Document = Document(body: Body, intact: bool)

  /** What persistNow writes. */
  function Saved(c: Core, now: Time): Body {
    Body(VERSION, now, c.sequence, c.sessions)
  }

  // ---- Validation ----

  predicate IsHex(c: char) {
    '0' <= c <= '9' || 'a' <= c <= 'f' || 'A' <= c <= 'F'
  }

  predicate ValidDigest(d: Digest) {
    |d| == DIGEST_LENGTH && forall c | c in d :: IsHex(c)
  }

  predicate AcceptableSession(key: Digest, s: Session, sequence: nat, now: Time) {
    && ValidDigest(key)
    && s.updatedAt != 0 && s.updatedAt <= now + CLOCK_SKEW
    && s.sequence <= sequence
    && (if s.hasRoute then ValidDigest(s.route) else s.route == "")
    && |s.retiredItems| <= MAX_RETIRED && |s.retiredRoutes| <= MAX_RETIRED
    && (forall f | f in s.retiredItems :: ValidDigest(f) && s.retiredItems[f] <= sequence)
    && (forall f | f in s.retiredRoutes :: f in s.retiredItems && ValidDigest(s.retiredRoutes[f]))
  }

  predicate Acceptable(body: Body, cfg: Config, now: Time) {
    && body.version == VERSION
    && body.savedAt != 0 && body.savedAt <= now + CLOCK_SKEW
    && |body.sessions| <= cfg.maxSessions
    && forall k | k in body.sessions :: AcceptableSession(k, body.sessions[k], body.sequence, now)
  }

  /** 64 hexadecimal digits, in either case. */
  ghost predicate Hexadecimal(d: Digest) {
    |d| == 64 && forall c :: c in d ==> c in "0123456789abcdefABCDEF"
  }

  /** A saved session that may be restored: stamped no later than five minutes ahead, bound exactly if committed,
      with at most 256 retired items, a scope only for an item, and no sequence beyond the file's. */
  ghost predicate RestorableSession(key: Digest, s: Session, sequence: nat, now: Time) {
    && Hexadecimal(key)
    && 0 < s.updatedAt <= now + 300_000_000_000
    && s.sequence <= sequence
    && (s.hasRoute ==> Hexadecimal(s.route)) && (!s.hasRoute ==> s.route == "")
    && |s.retiredItems| <= 256 && s.retiredRoutes.Keys <= s.retiredItems.Keys
    && (forall f :: f in s.retiredItems ==> Hexadecimal(f) && s.retiredItems[f] <= sequence)
    && (forall f :: f in s.retiredRoutes ==> Hexadecimal(s.retiredRoutes[f]))
  }

  /** A file that may be restored: of version 1, saved no later than five minutes ahead, within the session cap. */
  ghost predicate Restorable(body: Body, cfg: Config, now: Time) {
    && body.version == 1 && 0 < body.savedAt <= now + 300_000_000_000
    && |body.sessions| <= cfg.maxSessions
    && forall k :: k in body.sessions ==> RestorableSession(k, body.sessions[k], body.sequence, now)
  }

  lemma DigestsAreHexadecimal(d: Digest)
    ensures ValidDigest(d) <==> Hexadecimal(d)
  {
    forall c | c in d
      ensures IsHex(c) <==> c in "0123456789abcdefABCDEF"
    {
    }
  }

  lemma SessionIsRestorable(key: Digest, s: Session, sequence: nat, now: Time)
    ensures AcceptableSession(key, s, sequence, now) <==> RestorableSession(key, s, sequence, now)
  {
    DigestsAreHexadecimal(key);
    DigestsAreHexadecimal(s.route);
    forall f | f in s.retiredItems
      ensures ValidDigest(f) <==> Hexadecimal(f)
    {
      DigestsAreHexadecimal(f);
    }
    forall f | f in s.retiredRoutes
      ensures ValidDigest(s.retiredRoutes[f]) <==> Hexadecimal(s.retiredRoutes[f])
    {
      DigestsAreHexadecimal(s.retiredRoutes[f]);
    }
    if s.retiredRoutes.Keys <= s.retiredItems.Keys {
      CardSubset(s.retiredRoutes.Keys, s.retiredItems.Keys);
    }
  }

  /** What the validator accepts of any file, whoever wrote it: exactly what may be restored. */
  lemma AcceptedIsRestorable(body: Body, cfg: Config, now: Time)
    ensures Acceptable(body, cfg, now) <==> Restorable(body, cfg, now)
  {
    forall k | k in body.sessions
      ensures AcceptableSession(k, body.sessions[k], body.sequence, now)
              <==> RestorableSession(k, body.sessions[k], body.sequence, now)
    {
      SessionIsRestorable(k, body.sessions[k], body.sequence, now);
    }
  }

  datatype LoadError =
    | UnsupportedVersion | InvalidSavedAt | TooManySessions | InvalidSessionKey | InvalidUpdatedAt
    | SequenceExceeded | InvalidRoute | RouteWithoutCommit | TooManyRetired | InvalidRetiredItem
    | RetiredSequenceExceeded | OrphanedScope | InvalidScope | NotExist | IntegrityFailed

  method ValidateSession(key: Digest, s: Session, sequence: nat, now: Time) returns (err: Option<LoadError>)
    ensures err.None? <==> AcceptableSession(key, s, sequence, now)
    ensures err.None? <==> RestorableSession(key, s, sequence, now)
  {
    SessionIsRestorable(key, s, sequence, now);
    if !ValidDigest(key) {
      return Some(InvalidSessionKey);
    }
    if s.updatedAt == 0 || s.updatedAt > now + CLOCK_SKEW {
      return Some(InvalidUpdatedAt);
    }
    if s.sequence > sequence {
      return Some(SequenceExceeded);
    }
    if s.hasRoute {
      if !ValidDigest(s.route) {
        return Some(InvalidRoute);
      }
    } else if s.route != "" {
      return Some(RouteWithoutCommit);
    }
    if |s.retiredItems| > MAX_RETIRED || |s.retiredRoutes| > MAX_RETIRED {
      return Some(TooManyRetired);
    }
    err := ValidateRetired(s, sequence);
  }

  method ValidateRetired(s: Session, sequence: nat) returns (err: Option<LoadError>)
    ensures err.None? <==>
              && (forall f | f in s.retiredItems :: ValidDigest(f) && s.retiredItems[f] <= sequence)
              && (forall f | f in s.retiredRoutes :: f in s.retiredItems && ValidDigest(s.retiredRoutes[f]))
  {
    var items := s.retiredItems.Keys;
    while items != {}
      invariant items <= s.retiredItems.Keys
      invariant forall f | f in s.retiredItems && f !in items :: ValidDigest(f) && s.retiredItems[f] <= sequence
      decreases |items|
    {
      var f :| f in items;
      items := items - {f};
      if !ValidDigest(f) {
        return Some(InvalidRetiredItem);
      }
      if s.retiredItems[f] > sequence {
        return Some(RetiredSequenceExceeded);
      }
    }
    var scopes := s.retiredRoutes.Keys;
    while scopes != {}
      invariant scopes <= s.retiredRoutes.Keys
      invariant forall f | f in s.retiredRoutes && f !in scopes ::
                  f in s.retiredItems && ValidDigest(s.retiredRoutes[f])
      decreases |scopes|
    {
      var f :| f in scopes;
      scopes := scopes - {f};
      if f !in s.retiredItems {
        return Some(OrphanedScope);
      }
      if !ValidDigest(s.retiredRoutes[f]) {
        return Some(InvalidScope);
      }
    }
    err := None;
  }

  /** validatePersistentState: which error it reports depends on map iteration, whether it reports one does not. */
  method Validate(body: Body, cfg: Config, now: Time) returns (err: Option<LoadError>)
    ensures err.None? <==> Acceptable(body, cfg, now)
    ensures err.None? <==> Restorable(body, cfg, now)
  {
    AcceptedIsRestorable(body, cfg, now);
    if body.version != VERSION {
      return Some(UnsupportedVersion);
    }
    if body.savedAt == 0 || body.savedAt > now + CLOCK_SKEW {
      return Some(InvalidSavedAt);
    }
    if |body.sessions| > cfg.maxSessions {
      return Some(TooManySessions);
    }
    var keys := body.sessions.Keys;
    while keys != {}
      invariant keys <= body.sessions.Keys
      invariant forall k | k in body.sessions && k !in keys ::
                  AcceptableSession(k, body.sessions[k], body.sequence, now)
      decreases |keys|
    {
      var k :| k in keys;
      keys := keys - {k};
      err := ValidateSession(k, body.sessions[k], body.sequence, now);
      if err.Some? {
        return;
      }
    }
    err := None;
  }

  // ---- Load ----

  datatype Loaded = Restored(core: Core, savedAt: Time) | Refused(error: LoadError)

  /** The sessions a load keeps: those within their TTL. */
  function Unexpired(cfg: Config, sessions: map<Digest, Session>, now: Time): map<Digest, Session> {
    map k | k in sessions && !Expired(cfg, sessions[k].updatedAt, now) :: sessions[k]
  }

  /** Exactly the sessions last touched within the TTL are kept, as they are. */
  ghost predicate KeepsUnexpired(cfg: Config, saved: map<Digest, Session>, kept: map<Digest, Session>, now: Time) {
    && (forall k :: k in kept <==> k in saved && now - saved[k].updatedAt <= cfg.ttl)
    && (forall k :: k in kept ==> kept[k] == saved[k])
  }

  /** What a load restores, if anything. */
  function LoadOf(file: Option<Document>, cfg: Config, now: Time): Option<Core> {
    if file.Some? && Acceptable(file.value.body, cfg, now) && file.value.intact
    then Some(Core(Unexpired(cfg, file.value.body.sessions, now), map[], file.value.body.sequence))
    else None
  }

  /** The store a start makes of a file: what was restored, or an empty one. */
  function Started(file: Option<Document>, cfg: Config, now: Time): World {
    var restored := LoadOf(file, cfg, now);
    World(if restored.Some? then restored.value else EMPTY_CORE, now)
  }

  method Load(file: Option<Document>, cfg: Config, now: Time) returns (r: Loaded)
    ensures r.Restored? <==> file.Some? && Restorable(file.value.body, cfg, now) && file.value.intact
    ensures r.Restored? ==>
              && r.core.pending == map[] && r.core.sequence == file.value.body.sequence
              && r.savedAt == file.value.body.savedAt
              && KeepsUnexpired(cfg, file.value.body.sessions, r.core.sessions, now)
    ensures LoadOf(file, cfg, now) == if r.Restored? then Some(r.core) else None
  {
    if file.Some? {
      AcceptedIsRestorable(file.value.body, cfg, now);
    }
    if file.None? {
      return Refused(NotExist);
    }
    var body := file.value.body;
    var err := Validate(body, cfg, now);
    if err.Some? {
      return Refused(err.value);
    }
    if !file.value.intact {
      return Refused(IntegrityFailed);
    }
    var sessions := ExpireOnLoad(body.sessions, cfg, now);
    r := Restored(Core(sessions, map[], body.sequence), body.savedAt);
  }

  method ExpireOnLoad(saved: map<Digest, Session>, cfg: Config, now: Time) returns (sessions: map<Digest, Session>)
    ensures sessions == Unexpired(cfg, saved, now) && KeepsUnexpired(cfg, saved, sessions, now)
  {
    sessions := saved;
    var keys := saved.Keys;
    while keys != {}
      invariant keys <= sessions.Keys <= saved.Keys
      invariant forall k :: k in saved ==> (k in sessions <==> k in keys || !Expired(cfg, saved[k].updatedAt, now))
      invariant forall k :: k in sessions ==> sessions[k] == saved[k]
      decreases |keys|
    {
      var k :| k in keys;
      keys := keys - {k};
      if now - sessions[k].updatedAt > cfg.ttl {
        sessions := sessions - {k};
      }
    }
  }

  // ---- What a store may hold ----

  predicate OpaqueSession(s: Session) {
    && (s.hasRoute ==> ValidDigest(s.route))
    && (forall f | f in s.retiredItems :: ValidDigest(f))
    && (forall f | f in s.retiredRoutes :: ValidDigest(s.retiredRoutes[f]))
  }

  predicate OpaqueCandidate(p: Pending) {
    && ValidDigest(p.sessionKey)
    && (p.routeKnown ==> ValidDigest(p.route))
    && (forall f | f in p.retired :: ValidDigest(f))
  }

  /** Every identity in the store is a digest. */
  predicate Opaque(c: Core) {
    && (forall o | o in c.sessions :: ValidDigest(o) && OpaqueSession(c.sessions[o]))
    && (forall k | k in c.pending :: OpaqueCandidate(c.pending[k]))
  }

  /** A request as the interceptor makes it: every identity it names is a digest. */
  predicate OpaqueEvent(e: Event) {
    e.Prepare? ==>
      && (e.sk == "" || ValidDigest(e.sk))
      && (e.known ==> ValidDigest(e.route))
      && forall f | f in e.signals.items :: ValidDigest(f)
  }

  lemma BackgroundKeepsOpaque(c: Core, d: Core, removed: set<Digest>)
    requires Opaque(c) && Background(c, d, removed)
    ensures Opaque(d)
  {
  }

  lemma EffectKeepsOpaque(b: Core, d: Core, removed: set<Digest>, sk: Digest, own: Session)
    requires Opaque(b) && Effect(b, d, removed, sk, own)
    requires sk in d.sessions ==> ValidDigest(sk) && OpaqueSession(own)
    requires forall k :: k in d.pending ==> OpaqueCandidate(d.pending[k])
    ensures Opaque(d)
  {
  }

  lemma RetireKeepsOpaque(s: Session, n: nat, items: seq<Digest>, route: Digest, known: bool, now: Time)
    requires OpaqueSession(s) && BarrierOK(s, n) && (known ==> ValidDigest(route))
    requires forall f :: f in items ==> ValidDigest(f)
    ensures OpaqueSession(Retire(s, n, items, route, known, now).0)
  {
    RetireSpec(s, n, items, route, known, now);
  }

  lemma FinishedKeepsOpaque(cfg: Config, b: Core, p: Pending, now: Time)
    requires Opaque(b) && OpaqueCandidate(p) && Sound(cfg, b, now) && CandidateOK(p, b.sequence, now)
    ensures OpaqueSession(Finished(b, p, now))
  {
    var s := SessionAt(b, p.sessionKey);
    SessionAtOK(cfg, b, p.sessionKey, now);
    RetireKeepsOpaque(s, b.sequence, p.retired, p.route, p.routeKnown, now);
  }

  lemma RejectedIsOpaque(cfg: Config, s: World, e: Event)
    requires Inv(cfg, s) && Enabled(cfg, s, e) && OpaqueEvent(e) && RejectsTracked(cfg, s.core, e)
    requires Opaque(Ground(cfg, s.core, e))
    ensures OpaqueSession(Own(cfg, s.core, e))
  {
    var b := Ground(cfg, s.core, e);
    GroundKeepsSound(cfg, s, e);
    SessionAtOK(cfg, b, e.sk, e.w.now);
    RetireKeepsOpaque(Judged(b, e.sk, e.route, e.w.now), b.sequence, e.signals.items, e.route, true, e.w.now);
  }

  lemma InvalidatedIsOpaque(cfg: Config, c: Core, e: Event)
    requires Invalidates(cfg, c, e) && OpaqueSession(SessionAt(Ground(cfg, c, e), Subject(cfg, c, e)))
    ensures OpaqueSession(Own(cfg, c, e))
  {
  }

  lemma RegisteredIsOpaque(cfg: Config, c: Core, e: Event)
    requires Registers(cfg, c, e) && OpaqueSession(SessionAt(Ground(cfg, c, e), e.sk))
    ensures OpaqueSession(Own(cfg, c, e))
  {
  }

  lemma OwnIsOpaque(cfg: Config, s: World, e: Event)
    requires Inv(cfg, s) && Enabled(cfg, s, e) && OpaqueEvent(e) && Opaque(s.core) && !e.Reset?
    requires Opaque(Ground(cfg, s.core, e))
    ensures OpaqueSession(Own(cfg, s.core, e))
  {
    if Registers(cfg, s.core, e) {
      RegisteredIsOpaque(cfg, s.core, e);
    } else if RejectsTracked(cfg, s.core, e) {
      RejectedIsOpaque(cfg, s, e);
    } else if Invalidates(cfg, s.core, e) {
      InvalidatedIsOpaque(cfg, s.core, e);
    } else if Settles(cfg, s.core, e) && e.outcome.Succeeded? {
      FinishedIsOpaque(cfg, s, e);
    } else {
      OwnOtherwise(cfg, s.core, e);
    }
  }

  lemma FinishedIsOpaque(cfg: Config, s: World, e: Event)
    requires Inv(cfg, s) && Enabled(cfg, s, e) && Opaque(s.core) && Opaque(Ground(cfg, s.core, e))
    requires Settles(cfg, s.core, e) && e.outcome.Succeeded?
    ensures OpaqueSession(Finished(Ground(cfg, s.core, e), Settling(cfg, s.core, e), e.w.now))
  {
    GroundKeepsSound(cfg, s, e);
    SettlingOK(cfg, s, e);
    FinishedKeepsOpaque(cfg, Ground(cfg, s.core, e), Settling(cfg, s.core, e), e.w.now);
  }

  lemma EntrantIsOpaque(cfg: Config, c: Core, e: Event)
    requires OpaqueEvent(e) && Registers(cfg, c, e)
    ensures OpaqueCandidate(Entrant(cfg, c, e))
  {
  }

  lemma SubjectIsOpaque(cfg: Config, s: World, e: Event)
    requires Inv(cfg, s) && Enabled(cfg, s, e) && OpaqueEvent(e) && Opaque(s.core) && !e.Reset?
    requires Subject(cfg, s.core, e) in Apply(cfg, s.core, e).sessions
    ensures ValidDigest(Subject(cfg, s.core, e))
  {
    EventKeepsInv(cfg, s, e);
    if Settles(cfg, s.core, e) {
      SettlingOK(cfg, s, e);
    }
  }

  lemma EventKeepsOpaque(cfg: Config, s: World, e: Event)
    requires Inv(cfg, s) && Enabled(cfg, s, e) && OpaqueEvent(e) && Opaque(s.core)
    ensures Opaque(Apply(cfg, s.core, e))
  {
    if !e.Reset? {
      var b, d := Ground(cfg, s.core, e), Apply(cfg, s.core, e);
      GroundIsBackground(cfg, s.core, e);
      BackgroundKeepsOpaque(s.core, b, EarlyRemoves(cfg, s.core, e));
      EventEffect(cfg, s.core, e);
      OwnIsOpaque(cfg, s, e);
      if Subject(cfg, s.core, e) in d.sessions {
        SubjectIsOpaque(cfg, s, e);
      }
      forall k | k in d.pending
        ensures OpaqueCandidate(d.pending[k])
      {
        CandidatesAfter(cfg, s.core, e, k);
        if Registers(cfg, s.core, e) {
          EntrantIsOpaque(cfg, s.core, e);
        }
      }
      EffectKeepsOpaque(b, d, LateRemoves(cfg, s.core, e), Subject(cfg, s.core, e), Own(cfg, s.core, e));
    }
  }

  lemma {:induction false} RunKeepsOpaque(cfg: Config, start: World, es: seq<Event>)
    requires IsRun(cfg, start, es) && Opaque(start.core) && forall e :: e in es ==> OpaqueEvent(e)
    ensures Opaque(Play(cfg, start, es).core)
    decreases |es|
  {
    if es == [] {
    } else {
      var front, last := es[..|es| - 1], es[|es| - 1];
      assert es == front + [last];
      RunKeepsOpaque(cfg, start, front);
      RunKeepsInv(cfg, start, front);
      EventKeepsOpaque(cfg, Play(cfg, start, front), last);
    }
  }

  // ---- Snapshot closure ----

  /** What a store saves, the validator accepts: exactly when the store holds no blank session. */
  lemma SavedIsAcceptable(cfg: Config, s: World, savedAt: Time, now: Time)
    requires Inv(cfg, s) && Opaque(s.core) && s.clock <= savedAt <= now
    ensures Acceptable(Saved(s.core, savedAt), cfg, now) <==> NoBlank(s.core)
  {
    forall k | k in s.core.sessions
      ensures AcceptableSession(k, s.core.sessions[k], s.core.sequence, now) <==> s.core.sessions[k].updatedAt != 0
    {
      var t := s.core.sessions[k];
      assert SessionOK(t, s.core.sequence, s.clock);
      CardSubset(t.retiredRoutes.Keys, t.retiredItems.Keys);
    }
  }

  /** Snapshot closure over runs: whatever a run of intercepted requests reaches can be saved and loaded
      again, unless it left a blank session. */
  lemma SnapshotClosure(cfg: Config, start: World, es: seq<Event>, savedAt: Time, now: Time)
    requires IsRun(cfg, start, es) && Opaque(start.core) && (forall e :: e in es ==> OpaqueEvent(e))
    requires Play(cfg, start, es).clock <= savedAt <= now
    ensures Acceptable(Saved(Play(cfg, start, es).core, savedAt), cfg, now) <==> NoBlank(Play(cfg, start, es).core)
  {
    RunKeepsInv(cfg, start, es);
    RunKeepsOpaque(cfg, start, es);
    SavedIsAcceptable(cfg, Play(cfg, start, es), savedAt, now);
  }

  // ---- Restart ----

  /** The store after a restart from a snapshot of s. */
  function Restart(cfg: Config, s: World, now: Time): World {
    World(Core(Unexpired(cfg, s.core.sessions, now), map[], s.core.sequence), now)
  }

  /** Round trip: what a sound store saves is restored exactly when it holds no blank session, and then it is
      the same sequence and the unexpired sessions; otherwise the next start is from an empty store. */
  lemma RoundTrip(cfg: Config, s: World, savedAt: Time, now: Time)
    requires Inv(cfg, s) && Opaque(s.core) && s.clock <= savedAt <= now
    ensures var file := Some(Document(Saved(s.core, savedAt), true));
            && (LoadOf(file, cfg, now).Some? <==> NoBlank(s.core))
            && Started(file, cfg, now) == if NoBlank(s.core) then Restart(cfg, s, now) else World(EMPTY_CORE, now)
  {
    SavedIsAcceptable(cfg, s, savedAt, now);
  }

  /** Stamped in the past, and with no items remembered beside an overflow. */
  predicate Orderly(s: Session, now: Time) {
    s.updatedAt <= now && (s.overflow ==> s.retiredItems == map[])
  }

  /** Any intact file that loads, whoever wrote it, restores a store a run can begin with, every identity in it a
      digest: exactly when no session it keeps is stamped ahead of the clock or remembers items beside an overflow,
      which the validator does not look at. */
  lemma LoadedBegins(file: Option<Document>, cfg: Config, now: Time)
    requires cfg.Valid() && cfg.ttl < now && LoadOf(file, cfg, now).Some?
    ensures var w := Started(file, cfg, now);
            && (Begins(cfg, w) <==> forall k :: k in w.core.sessions ==> Orderly(w.core.sessions[k], now))
            && Opaque(w.core)
  {
    var body, c := file.value.body, Started(file, cfg, now).core;
    CardSubset(c.sessions.Keys, body.sessions.Keys);
    forall k | k in c.sessions
      ensures k != "" && ValidDigest(k) && OpaqueSession(c.sessions[k])
      ensures SessionOK(c.sessions[k], c.sequence, now) <==> Orderly(c.sessions[k], now)
    {
      assert c.sessions[k] == body.sessions[k];
      AcceptableIsOK(k, body.sessions[k], body.sequence, now);
    }
    BeginsIfOrderly(cfg, c, now);
  }

  lemma BeginsIfOrderly(cfg: Config, c: Core, now: Time)
    requires cfg.Valid() && cfg.ttl < now && c.pending == map[] && |c.sessions| <= cfg.maxSessions
    requires forall k :: k in c.sessions ==>
               k != "" && (SessionOK(c.sessions[k], c.sequence, now) <==> Orderly(c.sessions[k], now))
    ensures Begins(cfg, World(c, now)) <==> forall k :: k in c.sessions ==> Orderly(c.sessions[k], now)
  {
  }

  /** A file with one session, stamped just ahead of the clock. */
  function AheadFile(now: Time): Document {
    var key := seq(DIGEST_LENGTH, _ => '0');
    Document(Body(VERSION, now, 0, map[key := BLANK.(updatedAt := now + 1)]), true)
  }

  /** It loads, and no run can begin with what it restores. */
  lemma AheadFileLoads(cfg: Config, now: Time)
    requires cfg.Valid() && cfg.ttl < now
    ensures LoadOf(Some(AheadFile(now)), cfg, now).Some?
    ensures !Begins(cfg, Started(Some(AheadFile(now)), cfg, now))
  {
    var key := seq(DIGEST_LENGTH, _ => '0');
    var file := AheadFile(now);
    assert file.body.sessions.Keys == {key};
    assert AcceptableSession(key, file.body.sessions[key], 0, now);
    assert Acceptable(file.body, cfg, now);
    LoadedBegins(Some(file), cfg, now);
    assert key in Started(Some(file), cfg, now).core.sessions;
  }

  lemma AcceptableIsOK(key: Digest, s: Session, sequence: nat, now: Time)
    requires AcceptableSession(key, s, sequence, now)
    ensures key != "" && OpaqueSession(s)
    ensures SessionOK(s, sequence, now) <==> Orderly(s, now)
  {
    assert forall f :: f in s.retiredItems ==> |f| == DIGEST_LENGTH;
    assert forall f :: f in s.retiredRoutes ==> |s.retiredRoutes[f]| == DIGEST_LENGTH;
    if s.retiredItems == map[] {
      assert s.retiredRoutes == map[];
    }
  }

  lemma RestartIsSound(cfg: Config, s: World, now: Time)
    requires Inv(cfg, s) && s.clock <= now
    ensures Inv(cfg, Restart(cfg, s, now))
  {
    var d := Restart(cfg, s, now).core;
    CardSubset(d.sessions.Keys, s.core.sessions.Keys);
    forall o | o in d.sessions
      ensures SessionOK(d.sessions[o], d.sequence, now)
    {
      OlderIsOK(s.core.sessions[o], s.core.sequence, d.sequence, s.clock, now);
    }
  }

  lemma SweepWithoutCandidates(cfg: Config, c: Core, now: Time, order: seq<Digest>)
    requires c.pending == map[]
    ensures Sweep(cfg, c, now, order) == ExpireSessions(cfg, c, now)
  {
    FreshPendingStays(cfg, ExpireSessions(cfg, c, now), now, order);
  }

  /** With nothing in flight and no blank session a purge leaves the unexpired sessions, swept or not. */
  lemma IdlePurge(cfg: Config, s: World, w: Call)
    requires Inv(cfg, s) && s.core.pending == map[] && NoBlank(s.core) && Admissible(cfg, s.core, s.clock, w)
    ensures Purge(cfg, s.core, w) == Core(Unexpired(cfg, s.core.sessions, w.now), map[], s.core.sequence)
  {
    if w.swept {
      SweepWithoutCandidates(cfg, s.core, w.now, w.order);
    } else {
      assert Unexpired(cfg, s.core.sessions, w.now) == s.core.sessions;
    }
  }

  lemma RestartedPurge(cfg: Config, s: World, at: Time, v: Call, w: Call)
    requires Inv(cfg, s) && s.core.pending == map[] && NoBlank(s.core) && s.clock <= at
    requires Admissible(cfg, s.core, s.clock, v) && Admissible(cfg, Restart(cfg, s, at).core, at, w) && v.now == w.now
    ensures Purge(cfg, s.core, v) == Purge(cfg, Restart(cfg, s, at).core, w)
  {
    RestartIsSound(cfg, s, at);
    IdlePurge(cfg, s, v);
    IdlePurge(cfg, Restart(cfg, s, at), w);
    UnexpiredTwice(cfg, s.core.sessions, at, w.now);
  }

  lemma UnexpiredTwice(cfg: Config, sessions: map<Digest, Session>, at: Time, now: Time)
    requires at <= now
    ensures Unexpired(cfg, Unexpired(cfg, sessions, at), now) == Unexpired(cfg, sessions, now)
  {
  }

  /** The same event, with other readings of its surroundings. */
  predicate SameRequest(e: Event, f: Event) {
    match e
    case Prepare(w, pk, sk, route, known, signals) =>
      f.Prepare? && f == Prepare(f.w, pk, sk, route, known, signals) && f.w.now == w.now && f.w.late == w.late
    case Completion(w, pk, outcome) =>
      f.Completion? && f == Completion(f.w, pk, outcome) && f.w.now == w.now && f.w.late == w.late
    case Snapshot(w) => f.Snapshot? && f.w.now == w.now && f.w.late == w.late
    case Discard(_) => false
    case Reset => false
  }

  /** The first call that reads the clock is answered after an idle restart as it would have been without it,
      and leaves the very same state. */
  lemma IdleRestartIsInvisible(cfg: Config, s: World, at: Time, e: Event, f: Event)
    requires Inv(cfg, s) && s.core.pending == map[] && NoBlank(s.core) && s.clock <= at
    requires Enabled(cfg, s, e) && Enabled(cfg, Restart(cfg, s, at), f) && SameRequest(e, f)
    requires e.Completion? ==> e.pk != ""
    ensures Next(cfg, s, e) == Next(cfg, Restart(cfg, s, at), f)
    ensures e.Prepare? ==> Answer(cfg, s.core, e) == Answer(cfg, Restart(cfg, s, at).core, f)
  {
    RestartedPurge(cfg, s, at, e.w, f.w);
  }

  /** Calls that do not read the clock (a discard, a reset, a completion with a blank id) do to a restarted
      idle store what they do to the other, which stays idle. */
  lemma {:induction false} ClocklessCallsCommute(cfg: Config, s: World, at: Time, es: seq<Event>)
    requires Inv(cfg, s) && s.core.pending == map[] && NoBlank(s.core) && forall e :: e in es ==> !Purges(e)
    ensures Playable(cfg, s, es) && Playable(cfg, Restart(cfg, s, at), es)
    ensures var w := Play(cfg, s, es);
            && Inv(cfg, w) && w.core.pending == map[] && NoBlank(w.core) && w.clock == s.clock
            && Play(cfg, Restart(cfg, s, at), es) == Restart(cfg, w, at)
    decreases |es|
  {
    if es == [] {
    } else {
      var front, e := es[..|es| - 1], es[|es| - 1];
      assert es == front + [e];
      ClocklessCallsCommute(cfg, s, at, front);
      assert e in es;
      ClocklessStep(cfg, Play(cfg, s, front), at, e);
    }
  }

  lemma ClocklessStep(cfg: Config, s: World, at: Time, e: Event)
    requires Inv(cfg, s) && s.core.pending == map[] && NoBlank(s.core) && !Purges(e)
    ensures Enabled(cfg, s, e) && Enabled(cfg, Restart(cfg, s, at), e)
    ensures var w := Next(cfg, s, e);
            && Inv(cfg, w) && w.core.pending == map[] && NoBlank(w.core) && w.clock == s.clock
            && Next(cfg, Restart(cfg, s, at), e) == Restart(cfg, w, at)
  {
    assert Enabled(cfg, s, e);
    EventKeepsInv(cfg, s, e);
  }

  /** An idle restart is invisible: whatever calls come first, the first one that reads the clock is answered
      as it would have been without the restart, and leaves the very same state, so nothing later can tell. */
  lemma IdleRestartLeavesNoTrace(cfg: Config, s: World, at: Time, es: seq<Event>, e: Event, f: Event)
    requires Inv(cfg, s) && s.core.pending == map[] && NoBlank(s.core) && s.clock <= at
    requires (forall x :: x in es ==> !Purges(x)) && Purges(e) && SameRequest(e, f)
    requires Enabled(cfg, Play(cfg, s, es), e) && Enabled(cfg, Play(cfg, Restart(cfg, s, at), es), f)
    ensures Next(cfg, Play(cfg, s, es), e) == Next(cfg, Play(cfg, Restart(cfg, s, at), es), f)
    ensures e.Prepare? ==>
              Answer(cfg, Play(cfg, s, es).core, e) == Answer(cfg, Play(cfg, Restart(cfg, s, at), es).core, f)
  {
    ClocklessCallsCommute(cfg, s, at, es);
    IdleRestartIsInvisible(cfg, Play(cfg, s, es), at, e, f);
  }

  lemma RestartedView(cfg: Config, s: World, at: Time, sk: Digest, now: Time)
    requires at <= now
    ensures LocalSession(cfg, SessionAt(s.core, sk), map[], now)
            == LocalSession(cfg, SessionAt(Restart(cfg, s, at).core, sk), map[], now)
  {
  }
}
