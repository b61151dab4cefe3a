// The amortised sweep where blank sessions arise: below the caps a store that skips sweeps and one that sweeps
// on every call differ in nothing but blank entries.
module EagerTwin {
  import opened Routes
  import opened Retirement
  import opened Protocol
  import opened Footprint
  import opened Events
  import opened Invariant
  import opened Runs
  import opened Sweeping
  import opened Meanwhile
  import opened Amortised

  /** The stores agree on everything but blank entries, of which d holds no more than c: absent and blank read
      the same. */
  ghost predicate Alike(c: Core, d: Core) {
    && c.pending == d.pending && c.sequence == d.sequence
    && d.sessions.Keys <= c.sessions.Keys
    && forall o :: SessionAt(c, o) == SessionAt(d, o)
  }

  lemma AlikeIsRoomy(cfg: Config, c: Core, d: Core)
    requires Alike(c, d) && Roomy(cfg, c)
    ensures Roomy(cfg, d)
  {
    CardSubset(d.sessions.Keys + Active(d.pending), c.sessions.Keys + Active(c.pending));
  }

  lemma SweptHasNoBlank(cfg: Config, s: World, now: Time, order: seq<Digest>)
    requires Inv(cfg, s) && Roomy(cfg, s.core) && s.clock <= now
    ensures NoBlank(Sweep(cfg, s.core, now, order))
  {
    ExpiryKeepsRoom(cfg, s.core, now);
    SweepClosedForm(cfg, ExpireSessions(cfg, s.core, now), now, order);
  }

  /** The candidates within their TTL. */
  function InTime(cfg: Config, pending: map<Digest, Pending>, now: Time): map<Digest, Pending> {
    map k | k in pending && !Expired(cfg, pending[k].observedAt, now) :: pending[k]
  }

  lemma PurgedPending(cfg: Config, s: World, w: Call)
    requires Inv(cfg, s) && Roomy(cfg, s.core) && Admissible(cfg, s.core, s.clock, w)
    ensures Purge(cfg, s.core, w).pending == InTime(cfg, s.core.pending, w.now)
  {
    if w.swept {
      SweepIsLocal(cfg, s, w.now, w.order, "");
    } else {
      SkipIsLocal(cfg, s, w.now, "");
    }
  }

  lemma PurgedSession(cfg: Config, s: World, w: Call, o: Digest)
    requires Inv(cfg, s) && Roomy(cfg, s.core) && Admissible(cfg, s.core, s.clock, w)
    ensures SessionAt(Purge(cfg, s.core, w), o) == LocalSession(cfg, SessionAt(s.core, o), OwnPending(s.core, o), w.now)
  {
    if w.swept {
      SweepIsLocal(cfg, s, w.now, w.order, o);
    } else {
      SkipIsLocal(cfg, s, w.now, o);
    }
  }

  lemma SameOwn(c: Core, d: Core, o: Digest)
    requires c.pending == d.pending
    ensures OwnPending(c, o) == OwnPending(d, o)
  {
  }

  lemma PurgedSessionsAgree(cfg: Config, s: World, t: World, w: Call, v: Call, o: Digest)
    requires Inv(cfg, s) && Inv(cfg, t) && Roomy(cfg, s.core) && Roomy(cfg, t.core)
    requires s.core.pending == t.core.pending && SessionAt(s.core, o) == SessionAt(t.core, o)
    requires Admissible(cfg, s.core, s.clock, w) && Admissible(cfg, t.core, t.clock, v) && v.now == w.now
    ensures SessionAt(Purge(cfg, s.core, w), o) == SessionAt(Purge(cfg, t.core, v), o)
  {
    PurgedSession(cfg, s, w, o);
    PurgedSession(cfg, t, v, o);
    SameOwn(s.core, t.core, o);
  }

  /** Stores that read the same are alike, if one of them holds no blank entry. */
  lemma AlikeByReading(b: Core, d: Core)
    requires b.pending == d.pending && b.sequence == d.sequence && NoBlank(d)
    requires forall o :: SessionAt(b, o) == SessionAt(d, o)
    ensures Alike(b, d)
  {
    forall o | o in d.sessions
      ensures o in b.sessions
    {
      assert SessionAt(b, o) == SessionAt(d, o);
    }
  }

  lemma PurgesReadAlike(cfg: Config, s: World, t: World, w: Call, v: Call)
    requires Inv(cfg, s) && Inv(cfg, t) && Roomy(cfg, s.core) && Roomy(cfg, t.core) && Alike(s.core, t.core)
    requires Admissible(cfg, s.core, s.clock, w) && Admissible(cfg, t.core, t.clock, v) && v.now == w.now
    ensures forall o :: SessionAt(Purge(cfg, s.core, w), o) == SessionAt(Purge(cfg, t.core, v), o)
  {
    forall o
      ensures SessionAt(Purge(cfg, s.core, w), o) == SessionAt(Purge(cfg, t.core, v), o)
    {
      assert SessionAt(s.core, o) == SessionAt(t.core, o);
      PurgedSessionsAgree(cfg, s, t, w, v, o);
    }
  }

  lemma EagerlyAdmissible(cfg: Config, s: World, t: World, w: Call)
    requires Alike(s.core, t.core) && s.clock == t.clock && Admissible(cfg, s.core, s.clock, w)
    ensures Admissible(cfg, t.core, t.clock, EagerCall(t.core, w)) && EagerCall(t.core, w).swept
  {
  }

  lemma PurgeAlike(cfg: Config, s: World, t: World, w: Call)
    requires Inv(cfg, s) && Inv(cfg, t) && Roomy(cfg, s.core) && Alike(s.core, t.core) && s.clock == t.clock
    requires Admissible(cfg, s.core, s.clock, w)
    ensures Admissible(cfg, t.core, t.clock, EagerCall(t.core, w))
    ensures Alike(Purge(cfg, s.core, w), Purge(cfg, t.core, EagerCall(t.core, w)))
  {
    var v := EagerCall(t.core, w);
    AlikeIsRoomy(cfg, s.core, t.core);
    EagerlyAdmissible(cfg, s, t, w);
    PurgesReadAlike(cfg, s, t, w, v);
    PurgedPending(cfg, s, w);
    PurgedPending(cfg, t, v);
    PurgeKeepsSequence(cfg, s.core, w);
    PurgeKeepsSequence(cfg, t.core, v);
    SweptHasNoBlank(cfg, t, v.now, v.order);
    AlikeByReading(Purge(cfg, s.core, w), Purge(cfg, t.core, v));
  }

  lemma PurgeKeepsSequence(cfg: Config, c: Core, w: Call)
    ensures Purge(cfg, c, w).sequence == c.sequence
  {
    PurgeIsBackground(cfg, c, w);
  }

  lemma WriteAlike(b: Core, d: Core, sk: Digest, s: Session, pending: map<Digest, Pending>, n: nat)
    requires Alike(b, d)
    ensures Alike(Core(b.sessions[sk := s], pending, n), Core(d.sessions[sk := s], pending, n))
  {
    var x, y := Core(b.sessions[sk := s], pending, n), Core(d.sessions[sk := s], pending, n);
    forall o
      ensures SessionAt(x, o) == SessionAt(y, o)
    {
      assert SessionAt(b, o) == SessionAt(d, o);
    }
  }

  lemma PutAlike(cfg: Config, b: Core, d: Core, n: nat, sk: Digest, s: Session, room: set<Digest>)
    requires Alike(b, d) && b.sessions.Keys + {sk} <= room && |room| <= cfg.maxSessions
    ensures Alike(Put(cfg, b.(sequence := n), sk, s), Put(cfg, d.(sequence := n), sk, s))
  {
    PutWithRoom(cfg, b, n, sk, s, room);
    PutWithRoom(cfg, d, n, sk, s, room);
    WriteAlike(b, d, sk, s, b.pending, n);
  }

  lemma RegisterAlike(cfg: Config, b: Core, d: Core, v: Call, w: Call, pk: Digest, s: Session, p: Pending,
                      room: set<Digest>)
    requires Alike(b, d) && b.sessions.Keys + {p.sessionKey} <= room && |room| <= cfg.maxSessions
    requires |b.pending| < cfg.maxPending && v.now == w.now
    ensures Alike(Register(cfg, b, v, pk, s, p), Register(cfg, d, w, pk, s, p))
  {
    RegisterWithRoom(cfg, b, v, pk, s, p, room);
    RegisterWithRoom(cfg, d, w, pk, s, p, room);
    WriteAlike(b, d, p.sessionKey, s.(updatedAt := w.now), b.pending[pk := p], p.sequence);
  }

  // ---- The calls ----

  lemma SameReading(b: Core, d: Core, sk: Digest, route: Digest, now: Time)
    requires Alike(b, d)
    ensures Judged(b, sk, route, now) == Judged(d, sk, route, now)
    ensures InFlight(b, sk) <==> InFlight(d, sk)
  {
    assert SessionAt(b, sk) == SessionAt(d, sk);
  }

  lemma SameVerdict(cfg: Config, b: Core, d: Core, now: Time, sk: Digest, route: Digest, known: bool, signals: Signals)
    requires Alike(b, d)
    ensures Verdict(cfg, b, now, sk, route, known, signals) == Verdict(cfg, d, now, sk, route, known, signals)
  {
    SameOwn(b, d, sk);
    VerdictIsLocal(cfg, b, d, now, sk, route, known, signals);
  }

  lemma UntrackedAlike(cfg: Config, b: Core, d: Core, v: Call, w: Call, pk: Digest, sk: Digest, route: Digest,
                       known: bool, signals: Signals, room: set<Digest>)
    requires Alike(b, d) && (sk == "" || !known) && v.now == w.now
    requires b.sessions.Keys + {sk} <= room && |room| <= cfg.maxSessions && |b.pending| < cfg.maxPending
    ensures Alike(Admit(cfg, b, v, pk, sk, route, known, signals), Admit(cfg, d, w, pk, sk, route, known, signals))
  {
    if FailClosed(signals, cfg.policy).strip && sk != "" && pk != "" {
      assert SessionAt(b, sk) == SessionAt(d, sk);
      var p := Candidate(b, sk, "", false, BLANK, signals, true, w.now);
      assert p == Candidate(d, sk, "", false, BLANK, signals, true, w.now);
      RegisterAlike(cfg, b, d, v, w, pk, SessionAt(b, sk), p, room);
    }
  }

  lemma TrackedAlike(cfg: Config, b: Core, d: Core, v: Call, w: Call, pk: Digest, sk: Digest, route: Digest,
                     signals: Signals, room: set<Digest>)
    requires Alike(b, d) && sk != "" && v.now == w.now
    requires b.sessions.Keys + {sk} <= room && |room| <= cfg.maxSessions && |b.pending| < cfg.maxPending
    ensures Alike(Admit(cfg, b, v, pk, sk, route, true, signals), Admit(cfg, d, w, pk, sk, route, true, signals))
  {
    var s := Judged(b, sk, route, w.now);
    var dec := Decide(cfg, s, route, signals);
    SameReading(b, d, sk, route, w.now);
    if dec.reject {
      var (t, n) := Retire(s, b.sequence, signals.items, route, true, w.now);
      PutAlike(cfg, b, d, n, sk, t, room);
    } else if pk != "" {
      var p := Candidate(b, sk, route, true, s, signals, dec.strip, w.now);
      assert p == Candidate(d, sk, route, true, s, signals, dec.strip, w.now);
      RegisterAlike(cfg, b, d, v, w, pk, s, p, room);
    }
  }

  lemma ConcludeAlike(cfg: Config, b: Core, d: Core, now: Time, p: Pending, outcome: Outcome, room: set<Digest>)
    requires Alike(b, d) && b.sessions.Keys + {p.sessionKey} <= room && |room| <= cfg.maxSessions
    ensures Alike(Conclude(cfg, b, now, p, outcome), Conclude(cfg, d, now, p, outcome))
  {
    var sk := p.sessionKey;
    SameReading(b, d, sk, "", now);
    assert SessionAt(b, sk) == SessionAt(d, sk);
    match outcome
    case Succeeded =>
      assert Settled(b, p, now) == Settled(d, p, now);
      PutAlike(cfg, b, d, Settled(b, p, now).1, sk, Finished(b, p, now), room);
    case Unsuccessful(error) =>
      assert b.(sequence := b.sequence) == b && d.(sequence := d.sequence) == d;
      PutAlike(cfg, b, d, b.sequence, sk, Invalidate(SessionAt(b, sk), p, now), room);
  }

  lemma DropAlike(b: Core, d: Core, k: Digest)
    requires Alike(b, d)
    ensures Alike(Drop(b, k), Drop(d, k))
  {
    forall o
      ensures SessionAt(Drop(b, k), o) == SessionAt(Drop(d, k), o)
    {
      assert SessionAt(b, o) == SessionAt(d, o);
    }
  }

  // ---- One event ----

  ghost predicate Twins(cfg: Config, s: World, t: World) {
    Inv(cfg, s) && Inv(cfg, t) && Alike(s.core, t.core) && s.clock == t.clock
  }

  /** The event meets no cap, or is a reset. */
  ghost predicate Fits(cfg: Config, c: Core, e: Event) {
    e.Reset? || Uncrowded(cfg, c, e)
  }

  lemma FitsIsRoomy(cfg: Config, c: Core, e: Event)
    requires Uncrowded(cfg, c, e)
    ensures Roomy(cfg, c)
  {
    CardSubset(c.sessions.Keys + Active(c.pending), c.sessions.Keys + Active(c.pending) + {Subject(cfg, c, e)});
  }

  lemma BaseAlike(cfg: Config, s: World, t: World, w: Call, pk: Digest)
    requires Twins(cfg, s, t) && Roomy(cfg, s.core) && Admissible(cfg, s.core, s.clock, w)
    ensures Admissible(cfg, t.core, t.clock, EagerCall(t.core, w))
    ensures Alike(Base(cfg, s.core, w, pk), Base(cfg, t.core, EagerCall(t.core, w), pk))
  {
    PurgeAlike(cfg, s, t, w);
    DropAlike(Purge(cfg, s.core, w), Purge(cfg, t.core, EagerCall(t.core, w)), pk);
  }

  lemma PrepareTwins(cfg: Config, s: World, t: World, e: Event)
    requires Twins(cfg, s, t) && Enabled(cfg, s, e) && e.Prepare? && Uncrowded(cfg, s.core, e)
    ensures var f := Eager(t.core, e);
            && Enabled(cfg, t, f) && Alike(Apply(cfg, s.core, e), Apply(cfg, t.core, f))
            && Answer(cfg, s.core, e) == Answer(cfg, t.core, f)
  {
    var v := EagerCall(t.core, e.w);
    var b, d := Base(cfg, s.core, e.w, e.pk), Base(cfg, t.core, v, e.pk);
    var room := s.core.sessions.Keys + Active(s.core.pending) + {Subject(cfg, s.core, e)};
    FitsIsRoomy(cfg, s.core, e);
    BaseAlike(cfg, s, t, e.w, e.pk);
    GroundFits(cfg, s.core, e);
    CardSubset(b.pending.Keys, s.core.pending.Keys);
    SameVerdict(cfg, b, d, e.w.now, e.sk, e.route, e.known, e.signals);
    if e.sk == "" || !e.known {
      UntrackedAlike(cfg, b, d, e.w, v, e.pk, e.sk, e.route, e.known, e.signals, room);
    } else {
      TrackedAlike(cfg, b, d, e.w, v, e.pk, e.sk, e.route, e.signals, room);
    }
  }

  lemma CompletionTwins(cfg: Config, s: World, t: World, e: Event)
    requires Twins(cfg, s, t) && Enabled(cfg, s, e) && e.Completion? && e.pk != "" && Uncrowded(cfg, s.core, e)
    ensures var f := Eager(t.core, e);
            Enabled(cfg, t, f) && Alike(Apply(cfg, s.core, e), Apply(cfg, t.core, f))
  {
    var v := EagerCall(t.core, e.w);
    var b, d := Purge(cfg, s.core, e.w), Purge(cfg, t.core, v);
    FitsIsRoomy(cfg, s.core, e);
    PurgeAlike(cfg, s, t, e.w);
    if e.pk in b.pending {
      GroundFits(cfg, s.core, e);
      DropAlike(b, d, e.pk);
      ConcludeAlike(cfg, Drop(b, e.pk), Drop(d, e.pk), e.w.now, b.pending[e.pk], e.outcome,
                    s.core.sessions.Keys + Active(s.core.pending) + {Subject(cfg, s.core, e)});
    }
  }

  lemma OtherTwins(cfg: Config, s: World, t: World, e: Event)
    requires Twins(cfg, s, t) && Enabled(cfg, s, e) && Fits(cfg, s.core, e)
    requires !e.Prepare? && (e.Completion? ==> e.pk == "")
    ensures var f := Eager(t.core, e);
            Enabled(cfg, t, f) && Alike(Apply(cfg, s.core, e), Apply(cfg, t.core, f))
  {
    match e
    case Completion(_, _, _) =>
    case Snapshot(w) =>
      FitsIsRoomy(cfg, s.core, e);
      PurgeAlike(cfg, s, t, w);
    case Discard(pk) => DropAlike(s.core, t.core, pk);
    case Reset =>
  }

  /** One event below the caps: the twins stay twins, and a request is answered alike. */
  lemma TwinStep(cfg: Config, s: World, t: World, e: Event)
    requires Twins(cfg, s, t) && Enabled(cfg, s, e) && Fits(cfg, s.core, e)
    ensures Enabled(cfg, t, Eager(t.core, e)) && Twins(cfg, Next(cfg, s, e), Next(cfg, t, Eager(t.core, e)))
    ensures e.Prepare? ==> Answer(cfg, s.core, e) == Answer(cfg, t.core, Eager(t.core, e))
  {
    if e.Prepare? {
      PrepareTwins(cfg, s, t, e);
    } else if e.Completion? && e.pk != "" {
      CompletionTwins(cfg, s, t, e);
    } else {
      OtherTwins(cfg, s, t, e);
    }
    EventKeepsInv(cfg, s, e);
    EventKeepsInv(cfg, t, Eager(t.core, e));
    SameTick(s, t, e);
  }

  lemma SameTick(s: World, t: World, e: Event)
    requires s.clock == t.clock
    ensures Tick(s, e) == Tick(t, Eager(t.core, e))
  {
  }

  // ---- Runs ----

  /** The run of the store that sweeps on every call, on the same requests. */
  ghost function TwinRun(cfg: Config, start: World, es: seq<Event>): (fs: seq<Event>)
    ensures |fs| == |es|
    decreases |es|
  {
    if es == [] then []
    else
      var fs := TwinRun(cfg, start, es[..|es| - 1]);
      fs + [Eager(Play(cfg, start, fs).core, es[|es| - 1])]
  }

  /** Every event of the run meets no cap. */
  ghost predicate NeverCrowded(cfg: Config, start: World, es: seq<Event>)
    decreases |es|
  {
    es == [] ||
    var front := es[..|es| - 1];
    NeverCrowded(cfg, start, front) && Fits(cfg, Play(cfg, start, front).core, es[|es| - 1])
  }

  /** The amortised sweep refines the eager one below the caps, blank sessions or not: the store that sweeps on
      every call can follow every run, and the two differ in nothing but blank entries. */
  lemma {:induction false} AmortisedAgreesUpToBlanks(cfg: Config, start: World, es: seq<Event>)
    requires IsRun(cfg, start, es) && NeverCrowded(cfg, start, es)
    ensures IsRun(cfg, start, TwinRun(cfg, start, es))
    ensures forall e :: e in TwinRun(cfg, start, es) ==> SweepsIfItMay(e)
    ensures Twins(cfg, Play(cfg, start, es), Play(cfg, start, TwinRun(cfg, start, es)))
    decreases |es|
  {
    if es == [] {
    } else {
      var front, e := es[..|es| - 1], es[|es| - 1];
      var fs := TwinRun(cfg, start, front);
      var t := Play(cfg, start, fs);
      AmortisedAgreesUpToBlanks(cfg, start, front);
      TwinStep(cfg, Play(cfg, start, front), t, e);
      EagerSweeps(t.core, e);
      RunExtends(cfg, start, fs, Eager(t.core, e));
    }
  }

  /** And every request below the caps is answered alike. */
  lemma TwinAnswers(cfg: Config, start: World, es: seq<Event>, e: Event)
    requires IsRun(cfg, start, es + [e]) && NeverCrowded(cfg, start, es + [e]) && e.Prepare?
    ensures var t := Play(cfg, start, TwinRun(cfg, start, es));
            Answer(cfg, Play(cfg, start, es).core, e) == Answer(cfg, t.core, Eager(t.core, e))
  {
    assert (es + [e])[..|es|] == es;
    RunExtends(cfg, start, es, e);
    AmortisedAgreesUpToBlanks(cfg, start, es);
    TwinStep(cfg, Play(cfg, start, es), Play(cfg, start, TwinRun(cfg, start, es)), e);
  }
}
