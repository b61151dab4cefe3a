// How bindings and taints move: no rollback, order-independent commits, and when a taint is cleared.
module Discipline {
  import opened Routes
  import opened Retirement
  import opened Protocol
  import opened Footprint
  import opened Events
  import opened Invariant
  import opened Runs
  import opened Sweeping
  import opened Meanwhile

  // ---- No rollback ----

  /** From s to t a binding, if kept, is not rolled back. */
  predicate NotRolledBack(s: Session, t: Session) {
    t.hasRoute ==> s.sequence <= t.sequence
  }

  lemma BindingPasses(c: Core, b: Core, d: Core, r1: set<Digest>, r2: set<Digest>, o: Digest, own: Session)
    requires Background(c, b, r1) && Effect(b, d, r2, o, own)
    requires o in c.sessions && o !in r1 + r2 && c.sessions[o].hasRoute
    ensures o in d.sessions && SameBinding(own, d.sessions[o])
    ensures SameBinding(c.sessions[o], SessionAt(b, o))
  {
    assert Spared(c, b, r1, o);
  }

  lemma OwnIsNotRolledBack(cfg: Config, s: World, e: Event)
    requires Inv(cfg, s) && Enabled(cfg, s, e) && !e.Reset?
    requires SessionAt(Ground(cfg, s.core, e), Subject(cfg, s.core, e)).hasRoute
    ensures NotRolledBack(SessionAt(Ground(cfg, s.core, e), Subject(cfg, s.core, e)), Own(cfg, s.core, e))
  {
    OwnBinding(cfg, s, e);
  }

  /** While a session stays in the store and keeps a route, its committed sequence never decreases. */
  lemma NoRollback(cfg: Config, s: World, e: Event, o: Digest)
    requires Inv(cfg, s) && Enabled(cfg, s, e)
    requires o in s.core.sessions && o !in Removes(cfg, s.core, e) && s.core.sessions[o].hasRoute
    ensures o in Apply(cfg, s.core, e).sessions && NotRolledBack(s.core.sessions[o], Apply(cfg, s.core, e).sessions[o])
  {
    if o == Subject(cfg, s.core, e) {
      EventEffect(cfg, s.core, e);
      GroundIsBackground(cfg, s.core, e);
      BindingPasses(s.core, Ground(cfg, s.core, e), Apply(cfg, s.core, e), EarlyRemoves(cfg, s.core, e),
                    LateRemoves(cfg, s.core, e), o, Own(cfg, s.core, e));
      OwnIsNotRolledBack(cfg, s, e);
    } else {
      SessionIsolation(cfg, s.core, e, o);
    }
  }

  // ---- Commit order confluence ----

  /** The success of a known-route candidate of the session, which loses neither its entry nor any other of its
      candidates on the way. */
  ghost predicate OwnSuccess(cfg: Config, c: Core, e: Event, sk: Digest) {
    && Settles(cfg, c, e) && e.outcome.Succeeded?
    && Settling(cfg, c, e).sessionKey == sk && Settling(cfg, c, e).routeKnown
    && sk !in Removes(cfg, c, e)
    && forall k :: k in OwnPending(c, sk) && k != e.pk ==> k in Apply(cfg, c, e).pending
  }

  /** An event of such a run: a success of the session's own, or anything that leaves the session to itself. */
  ghost predicate Quiet(cfg: Config, s: World, e: Event, sk: Digest) {
    && Enabled(cfg, s, e)
    && (OwnSuccess(cfg, s.core, e, sk) || (Undisturbing(cfg, s.core, e, sk) && sk !in Removes(cfg, s.core, e)))
  }

  ghost predicate QuietRun(cfg: Config, s: World, es: seq<Event>, sk: Digest)
    decreases |es|
  {
    es == [] || (QuietRun(cfg, s, es[..|es| - 1], sk) && Quiet(cfg, Play(cfg, s, es[..|es| - 1]), es[|es| - 1], sk))
  }

  /** The requests the events complete. */
  ghost function Completed(es: seq<Event>): set<Digest> {
    set e | e in es && e.Completion? :: e.pk
  }

  /** Those of the session that were in flight at the beginning. */
  ghost function Won(c: Core, sk: Digest, es: seq<Event>): set<Digest> {
    Completed(es) * OwnPending(c, sk).Keys
  }

  /** t carries the binding with the largest sequence among the one already committed and the candidates. */
  ghost predicate Wins(c: Core, sk: Digest, keys: set<Digest>, t: Session)
    requires keys <= c.pending.Keys
  {
    var s := SessionAt(c, sk);
    && t.hasRoute
    && (|| (s.hasRoute && SameBinding(s, t))
        || exists k :: k in keys && t.route == c.pending[k].route && t.sequence == c.pending[k].sequence)
    && (s.hasRoute ==> s.sequence <= t.sequence)
    && forall k :: k in keys ==> c.pending[k].sequence <= t.sequence
  }

  /** From s to t the candidate succeeded: t is bound to its route unless a later one is committed. */
  predicate Advances(s: Session, p: Pending, t: Session) {
    && t.hasRoute
    && if s.hasRoute && p.sequence < s.sequence then SameBinding(s, t)
       else t.route == p.route && t.sequence == p.sequence
  }

  lemma FinishedAdvances(cfg: Config, b: Core, p: Pending, now: Time)
    requires Sound(cfg, b, now) && CandidateOK(p, b.sequence, now) && p.routeKnown
    ensures Advances(SessionAt(b, p.sessionKey), p, Finished(b, p, now))
  {
    SettledBinding(cfg, b, p, now);
  }

  /** Around the success, sweeping and trimming leave the binding alone. */
  lemma AdvancePasses(c: Core, b: Core, d: Core, r1: set<Digest>, r2: set<Digest>, sk: Digest, p: Pending, own: Session)
    requires Background(c, b, r1) && Effect(b, d, r2, sk, own) && sk !in r1 + r2
    requires Advances(SessionAt(b, sk), p, own)
    ensures sk in d.sessions && Advances(SessionAt(c, sk), p, d.sessions[sk])
  {
    if sk in b.sessions {
      assert Spared(c, b, r1, sk);
    }
  }

  lemma SuccessAdvances(cfg: Config, s: World, e: Event, sk: Digest)
    requires Inv(cfg, s) && Enabled(cfg, s, e) && OwnSuccess(cfg, s.core, e, sk)
    ensures e.pk in OwnPending(s.core, sk) && sk in Apply(cfg, s.core, e).sessions
    ensures Advances(SessionAt(s.core, sk), s.core.pending[e.pk], Apply(cfg, s.core, e).sessions[sk])
  {
    GroundKeepsSound(cfg, s, e);
    SettlingOK(cfg, s, e);
    GroundIsBackground(cfg, s.core, e);
    EventEffect(cfg, s.core, e);
    FinishedAdvances(cfg, Ground(cfg, s.core, e), Settling(cfg, s.core, e), e.w.now);
    AdvancePasses(s.core, Ground(cfg, s.core, e), Apply(cfg, s.core, e), EarlyRemoves(cfg, s.core, e),
                  LateRemoves(cfg, s.core, e), sk, Settling(cfg, s.core, e), Own(cfg, s.core, e));
  }

  lemma SuccessOnlyTakes(cfg: Config, c: Core, e: Event, sk: Digest, k: Digest)
    requires OwnSuccess(cfg, c, e, sk) && k in Apply(cfg, c, e).pending
    ensures k in c.pending && k != e.pk && Apply(cfg, c, e).pending[k] == c.pending[k]
  {
    CandidatesAfter(cfg, c, e, k);
  }

  lemma SuccessTakesOne(cfg: Config, c: Core, e: Event, sk: Digest)
    requires OwnSuccess(cfg, c, e, sk)
    ensures OwnPending(Apply(cfg, c, e), sk) == OwnPending(c, sk) - {e.pk}
  {
    var d := Apply(cfg, c, e);
    forall k | k in d.pending
      ensures k in c.pending && k != e.pk && d.pending[k] == c.pending[k]
    {
      SuccessOnlyTakes(cfg, c, e, sk, k);
    }
    OwnTakesOne(c, d, sk, e.pk);
  }

  lemma OwnTakesOne(c: Core, d: Core, sk: Digest, pk: Digest)
    requires forall k :: k in d.pending ==> k in c.pending && k != pk && d.pending[k] == c.pending[k]
    requires forall k :: k in OwnPending(c, sk) && k != pk ==> k in d.pending
    ensures OwnPending(d, sk) == OwnPending(c, sk) - {pk}
  {
  }

  lemma QuietSession(cfg: Config, s: World, e: Event, sk: Digest)
    requires Inv(cfg, s) && Enabled(cfg, s, e)
    requires Undisturbing(cfg, s.core, e, sk) && sk !in Removes(cfg, s.core, e)
    ensures SessionAt(Apply(cfg, s.core, e), sk) == SessionAt(s.core, sk)
    ensures OwnPending(Apply(cfg, s.core, e), sk) == OwnPending(s.core, sk)
    ensures e.Completion? ==> e.pk !in OwnPending(s.core, sk)
  {
    NothingLost(cfg, s, e, sk);
    SessionIsolation(cfg, s.core, e, sk);
    OwnPendingStays(cfg, s.core, e, sk);
    if e.Completion? && e.pk in OwnPending(s.core, sk) {
      CandidatesAfter(cfg, s.core, e, e.pk);
    }
  }

  /** What a quiet run has made of the session so far: its candidates that succeeded are gone, and it is bound
      to the one of the largest sequence. */
  ghost predicate BoundByLargest(c: Core, d: Core, sk: Digest, keys: set<Digest>)
    requires keys <= OwnPending(c, sk).Keys
  {
    && OwnPending(d, sk) == OwnPending(c, sk) - keys
    && if keys == {} then SessionAt(d, sk) == SessionAt(c, sk) else Wins(c, sk, keys, SessionAt(d, sk))
  }

  lemma OneMoreSuccess(c: Core, m: Core, d: Core, sk: Digest, keys: set<Digest>, pk: Digest)
    requires keys <= OwnPending(c, sk).Keys && BoundByLargest(c, m, sk, keys)
    requires pk in OwnPending(m, sk) && sk in d.sessions && OwnPending(d, sk) == OwnPending(m, sk) - {pk}
    requires Advances(SessionAt(m, sk), m.pending[pk], d.sessions[sk])
    ensures pk in OwnPending(c, sk) && BoundByLargest(c, d, sk, keys + {pk})
  {
    assert OwnPending(m, sk)[pk] == OwnPending(c, sk)[pk];
    assert OwnPending(c, sk) - keys - {pk} == OwnPending(c, sk) - (keys + {pk});
    var s, t, u := SessionAt(c, sk), SessionAt(m, sk), d.sessions[sk];
    if t.hasRoute && m.pending[pk].sequence < t.sequence {
      if keys != {} && !(s.hasRoute && SameBinding(s, t)) {
        var j :| j in keys && t.route == c.pending[j].route && t.sequence == c.pending[j].sequence;
        assert j in keys + {pk};
      }
    } else {
      assert pk in keys + {pk};
    }
  }

  lemma WonGrows(c: Core, sk: Digest, es: seq<Event>)
    requires es != []
    ensures var front, e := es[..|es| - 1], es[|es| - 1];
            Won(c, sk, es) == WithWinner(c, sk, Won(c, sk, front), e)
  {
    var front, e := es[..|es| - 1], es[|es| - 1];
    assert es == front + [e];
    assert forall x :: x in es <==> x in front || x == e;
  }

  /** The successes so far, with the one this event may be. */
  ghost function WithWinner(c: Core, sk: Digest, keys: set<Digest>, e: Event): (more: set<Digest>)
    requires keys <= OwnPending(c, sk).Keys
    ensures more <= OwnPending(c, sk).Keys
  {
    if e.Completion? && e.pk in OwnPending(c, sk) then keys + {e.pk} else keys
  }

  lemma QuietSuccess(cfg: Config, c: Core, s: World, e: Event, sk: Digest, keys: set<Digest>)
    requires Inv(cfg, s) && Enabled(cfg, s, e) && OwnSuccess(cfg, s.core, e, sk)
    requires keys <= OwnPending(c, sk).Keys && BoundByLargest(c, s.core, sk, keys)
    ensures BoundByLargest(c, Apply(cfg, s.core, e), sk, WithWinner(c, sk, keys, e))
  {
    SuccessAdvances(cfg, s, e, sk);
    SuccessTakesOne(cfg, s.core, e, sk);
    OneMoreSuccess(c, s.core, Apply(cfg, s.core, e), sk, keys, e.pk);
  }

  lemma QuietOther(c: Core, m: Core, d: Core, sk: Digest, keys: set<Digest>, e: Event)
    requires keys <= OwnPending(c, sk).Keys && BoundByLargest(c, m, sk, keys)
    requires SessionAt(d, sk) == SessionAt(m, sk) && OwnPending(d, sk) == OwnPending(m, sk)
    requires e.Completion? ==> e.pk !in OwnPending(m, sk)
    ensures BoundByLargest(c, d, sk, WithWinner(c, sk, keys, e))
  {
    assert WithWinner(c, sk, keys, e) == keys;
  }

  lemma QuietStep(cfg: Config, c: Core, s: World, e: Event, sk: Digest, keys: set<Digest>)
    requires Inv(cfg, s) && Quiet(cfg, s, e, sk)
    requires keys <= OwnPending(c, sk).Keys && BoundByLargest(c, s.core, sk, keys)
    ensures BoundByLargest(c, Apply(cfg, s.core, e), sk, WithWinner(c, sk, keys, e))
  {
    if OwnSuccess(cfg, s.core, e, sk) {
      QuietSuccess(cfg, c, s, e, sk, keys);
    } else {
      QuietSession(cfg, s, e, sk);
      QuietOther(c, s.core, Apply(cfg, s.core, e), sk, keys, e);
    }
  }

  lemma NoneWon(c: Core, sk: Digest)
    ensures Won(c, sk, []) == {} && BoundByLargest(c, c, sk, {})
  {
    assert OwnPending(c, sk) - {} == OwnPending(c, sk);
  }

  /** Succeeding candidates of one session, in whatever order and whatever the store does in between for other
      sessions, leave the route with the largest sequence. */
  lemma {:induction false} LargestSequenceWins(cfg: Config, s: World, es: seq<Event>, sk: Digest)
    requires Inv(cfg, s) && QuietRun(cfg, s, es, sk)
    ensures Playable(cfg, s, es) && Inv(cfg, Play(cfg, s, es))
    ensures BoundByLargest(s.core, Play(cfg, s, es).core, sk, Won(s.core, sk, es))
    decreases |es|
  {
    if es == [] {
      NoneWon(s.core, sk);
    } else {
      var front, e := es[..|es| - 1], es[|es| - 1];
      LargestSequenceWins(cfg, s, front, sk);
      EventKeepsInv(cfg, Play(cfg, s, front), e);
      QuietStep(cfg, s.core, Play(cfg, s, front), e, sk, Won(s.core, sk, front));
      WonGrows(s.core, sk, es);
    }
  }

  /** Commit order confluence: any two orders of the same successes leave the same binding. */
  lemma CommitOrderConfluence(cfg: Config, s: World, es: seq<Event>, fs: seq<Event>, sk: Digest)
    requires Inv(cfg, s) && QuietRun(cfg, s, es, sk) && QuietRun(cfg, s, fs, sk)
    requires Won(s.core, sk, es) == Won(s.core, sk, fs)
    ensures SameBinding(SessionAt(Play(cfg, s, es).core, sk), SessionAt(Play(cfg, s, fs).core, sk))
  {
    LargestSequenceWins(cfg, s, es, sk);
    LargestSequenceWins(cfg, s, fs, sk);
    if Won(s.core, sk, es) != {} {
      LargestIsUnique(cfg, s, sk, Won(s.core, sk, es), SessionAt(Play(cfg, s, es).core, sk),
                      SessionAt(Play(cfg, s, fs).core, sk));
    }
  }

  lemma LargestIsUnique(cfg: Config, s: World, sk: Digest, keys: set<Digest>, t: Session, u: Session)
    requires Inv(cfg, s) && keys <= s.core.pending.Keys && Wins(s.core, sk, keys, t) && Wins(s.core, sk, keys, u)
    ensures SameBinding(t, u)
  {
    assert t.sequence == u.sequence;
    SessionAtOK(cfg, s.core, sk, s.clock);
  }

  // ---- Taint discipline ----

  /** The event is the success of the session's own clean, exclusive candidate, and its route is now bound. */
  ghost predicate CleanRestart(cfg: Config, c: Core, e: Event, o: Digest) {
    && Settles(cfg, c, e) && e.outcome.Succeeded?
    && var p, d := Settling(cfg, c, e), Apply(cfg, c, e);
    && p.sessionKey == o && p.routeKnown && p.cleanStart && p.canClearTaint
    && !InFlight(d, o)
    && o in d.sessions && d.sessions[o].hasRoute && d.sessions[o].route == p.route
      && d.sessions[o].sequence == p.sequence
  }

  lemma FinishedTaint(cfg: Config, b: Core, p: Pending, now: Time)
    requires Sound(cfg, b, now) && CandidateOK(p, b.sequence, now)
    requires SessionAt(b, p.sessionKey).tainted && !Finished(b, p, now).tainted
    ensures p.routeKnown && p.cleanStart && p.canClearTaint && !InFlight(b, p.sessionKey)
    ensures var own := Finished(b, p, now); own.hasRoute && own.route == p.route && own.sequence == p.sequence
  {
    SettledBinding(cfg, b, p, now);
  }

  lemma InvalidatedIsTainted(cfg: Config, c: Core, e: Event)
    requires Invalidates(cfg, c, e)
    ensures Own(cfg, c, e).tainted
  {
  }

  lemma OnlySuccessClears(cfg: Config, s: World, e: Event)
    requires Inv(cfg, s) && Enabled(cfg, s, e) && !e.Reset?
    requires SessionAt(Ground(cfg, s.core, e), Subject(cfg, s.core, e)).tainted && !Own(cfg, s.core, e).tainted
    ensures Settles(cfg, s.core, e) && e.outcome.Succeeded?
  {
    if Registers(cfg, s.core, e) {
      RegisteredSession(cfg, s.core, e);
    } else if RejectsTracked(cfg, s.core, e) {
      RejectedBinding(cfg, s, e);
    } else if Invalidates(cfg, s.core, e) {
      InvalidatedIsTainted(cfg, s.core, e);
    } else if !(Settles(cfg, s.core, e) && e.outcome.Succeeded?) {
      OwnOtherwise(cfg, s.core, e);
    }
  }

  lemma OwnTaint(cfg: Config, s: World, e: Event)
    requires Inv(cfg, s) && Enabled(cfg, s, e) && !e.Reset?
    requires SessionAt(Ground(cfg, s.core, e), Subject(cfg, s.core, e)).tainted && !Own(cfg, s.core, e).tainted
    ensures Settles(cfg, s.core, e) && e.outcome.Succeeded?
    ensures var p, own := Settling(cfg, s.core, e), Own(cfg, s.core, e);
            && p.routeKnown && p.cleanStart && p.canClearTaint && !InFlight(Ground(cfg, s.core, e), p.sessionKey)
            && own.hasRoute && own.route == p.route && own.sequence == p.sequence
  {
    OnlySuccessClears(cfg, s, e);
    GroundKeepsSound(cfg, s, e);
    SettlingOK(cfg, s, e);
    FinishedTaint(cfg, Ground(cfg, s.core, e), Settling(cfg, s.core, e), e.w.now);
  }

  lemma CleanRestartClears(cfg: Config, s: World, e: Event, o: Digest)
    requires Inv(cfg, s) && Enabled(cfg, s, e) && CleanRestart(cfg, s.core, e, o)
    ensures !Apply(cfg, s.core, e).sessions[o].tainted
  {
  }

  /** A session that stays in the store loses its taint in a clean restart, and only there. */
  lemma TaintClearsExactly(cfg: Config, s: World, e: Event, o: Digest)
    requires Inv(cfg, s) && Enabled(cfg, s, e)
    requires o in s.core.sessions && o !in Removes(cfg, s.core, e) && s.core.sessions[o].tainted
    ensures var d := Apply(cfg, s.core, e);
            o in d.sessions && (!d.sessions[o].tainted <==> CleanRestart(cfg, s.core, e, o))
  {
    if CleanRestart(cfg, s.core, e, o) {
      CleanRestartClears(cfg, s, e, o);
    }
    TaintClearsOnlyByRestart(cfg, s, e, o);
  }

  lemma TaintClearsOnlyByRestart(cfg: Config, s: World, e: Event, o: Digest)
    requires Inv(cfg, s) && Enabled(cfg, s, e)
    requires o in s.core.sessions && o !in Removes(cfg, s.core, e) && s.core.sessions[o].tainted
    ensures var d := Apply(cfg, s.core, e);
            o in d.sessions && (!d.sessions[o].tainted ==> CleanRestart(cfg, s.core, e, o))
  {
    if o == Subject(cfg, s.core, e) {
      SubjectClearsOnlyByRestart(cfg, s, e);
    } else {
      SessionIsolation(cfg, s.core, e, o);
    }
  }

  lemma TaintReaches(c: Core, b: Core, d: Core, r1: set<Digest>, r2: set<Digest>, o: Digest, own: Session)
    requires Background(c, b, r1) && Effect(b, d, r2, o, own)
    requires o in c.sessions && o !in r1 + r2 && c.sessions[o].tainted
    ensures SessionAt(b, o).tainted && o in d.sessions && (!d.sessions[o].tainted ==> d.sessions[o] == own)
  {
  }

  lemma SubjectClearsOnlyByRestart(cfg: Config, s: World, e: Event)
    requires Inv(cfg, s) && Enabled(cfg, s, e)
    requires var o := Subject(cfg, s.core, e);
             o in s.core.sessions && o !in Removes(cfg, s.core, e) && s.core.sessions[o].tainted
    ensures var o, d := Subject(cfg, s.core, e), Apply(cfg, s.core, e);
            o in d.sessions && (!d.sessions[o].tainted ==> CleanRestart(cfg, s.core, e, o))
  {
    var c, o, d := s.core, Subject(cfg, s.core, e), Apply(cfg, s.core, e);
    EventEffect(cfg, c, e);
    GroundIsBackground(cfg, c, e);
    TaintReaches(c, Ground(cfg, c, e), d, EarlyRemoves(cfg, c, e), LateRemoves(cfg, c, e), o, Own(cfg, c, e));
    if !d.sessions[o].tainted {
      OwnTaint(cfg, s, e);
    }
  }

  ghost predicate StartsClean(cfg: Config, start: World, es: seq<Event>, i: nat)
    requires i < |es| && es[i].Prepare?
  {
    var c := Before(cfg, start, es, i);
    var b := Ground(cfg, c, es[i]);
    && (Answer(cfg, c, es[i]).strip || !es[i].signals.RouteBound())
    && !InFlight(b, es[i].sk)
    && Judged(b, es[i].sk, es[i].route, es[i].w.now).tainted
  }

  /** The candidate was prepared clean, on a session judged tainted, with no other request of the session in
      flight, and was never replaced since. */
  ghost predicate PreparedToClear(cfg: Config, start: World, es: seq<Event>, pk: Digest, p: Pending) {
    exists i: nat :: RegisteredBy(cfg, start, es, i, pk, p) && es[i].sk == p.sessionKey
      && StartsClean(cfg, start, es, i)
  }

  lemma SettledWasPreparedToClear(cfg: Config, start: World, es: seq<Event>, e: Event)
    requires IsRun(cfg, start, es) && Enabled(cfg, Play(cfg, start, es), e)
             && Settles(cfg, Play(cfg, start, es).core, e)
    requires Settling(cfg, Play(cfg, start, es).core, e).canClearTaint
    ensures PreparedToClear(cfg, start, es, e.pk, Settling(cfg, Play(cfg, start, es).core, e))
  {
    SettledOrigin(cfg, start, es, e);
    var p := Settling(cfg, Play(cfg, start, es).core, e);
    var i :| RegisteredBy(cfg, start, es, i, e.pk, p);
    ClearersStartClean(cfg, start, es, i, e.pk, p);
  }

  /** The session stayed in the store and lost its taint. */
  ghost predicate LosesTaint(cfg: Config, c: Core, e: Event, o: Digest) {
    && o in c.sessions && o !in Removes(cfg, c, e) && c.sessions[o].tainted
    && o in Apply(cfg, c, e).sessions && !Apply(cfg, c, e).sessions[o].tainted
  }

  /** Taint discipline over runs: only a clean restart, prepared as one, clears a taint. */
  lemma TaintDiscipline(cfg: Config, start: World, es: seq<Event>, e: Event, o: Digest)
    requires IsRun(cfg, start, es) && Enabled(cfg, Play(cfg, start, es), e)
    requires LosesTaint(cfg, Play(cfg, start, es).core, e, o)
    ensures CleanRestart(cfg, Play(cfg, start, es).core, e, o)
    ensures PreparedToClear(cfg, start, es, e.pk, Settling(cfg, Play(cfg, start, es).core, e))
  {
    RunKeepsInv(cfg, start, es);
    TaintClearsExactly(cfg, Play(cfg, start, es), e, o);
    SettledWasPreparedToClear(cfg, start, es, e);
  }

  lemma ClearersStartClean(cfg: Config, start: World, es: seq<Event>, i: nat, pk: Digest, p: Pending)
    requires RegisteredBy(cfg, start, es, i, pk, p) && p.canClearTaint
    ensures es[i].sk == p.sessionKey && StartsClean(cfg, start, es, i)
  {
  }

  /** While a session is tainted, no route-bound request on it passes whole: it is stripped or rejected. */
  lemma TaintContains(cfg: Config, c: Core, e: Event)
    requires e.Prepare? && SessionAt(Ground(cfg, c, e), e.sk).tainted
    ensures !LetThrough(cfg, c, e)
    ensures e.signals.RouteBound() ==> (Answer(cfg, c, e).reject <==> e.signals.hasCompaction && cfg.policy == Block)
  {
  }
}
