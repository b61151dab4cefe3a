// The amortised sweep over whole runs: a store that skips sweeps behaves as one that sweeps on every call.
module Amortised {
  import opened Routes
  import opened Protocol
  import opened Invariant
  import opened Runs
  import opened Sweeping
  import opened BlankSession

  /** The keys in some order. */
  ghost function Enumerated(keys: set<Digest>): (order: seq<Digest>)
    ensures forall k :: k in order <==> k in keys
    decreases |keys|
  {
    if keys == {} then []
    else
      var k :| k in keys;
      Enumerated(keys - {k}) + [k]
  }

  ghost function EagerCall(c: Core, w: Call): Call {
    if w.swept then w else w.(swept := true, order := Enumerated(c.pending.Keys))
  }

  /** The same event in a store that sweeps on every call. */
  ghost function Eager(c: Core, e: Event): Event {
    match e
    case Prepare(w, pk, sk, route, known, signals) => Prepare(EagerCall(c, w), pk, sk, route, known, signals)
    case Completion(w, pk, outcome) => Completion(EagerCall(c, w), pk, outcome)
    case Snapshot(w) => Snapshot(EagerCall(c, w))
    case Discard(_) => e
    case Reset => e
  }

  predicate SweepsIfItMay(e: Event) {
    match e
    case Prepare(w, _, _, _, _, _) => w.swept
    case Completion(w, _, _) => w.swept
    case Snapshot(w) => w.swept
    case Discard(_) => true
    case Reset => true
  }

  lemma EagerPurge(cfg: Config, s: World, w: Call)
    requires Inv(cfg, s) && NoBlank(s.core) && Admissible(cfg, s.core, s.clock, w)
    ensures Admissible(cfg, s.core, s.clock, EagerCall(s.core, w))
    ensures Purge(cfg, s.core, EagerCall(s.core, w)) == Purge(cfg, s.core, w)
  {
    if !w.swept {
      SkippedSweepIsExact(cfg, s, w.now, Enumerated(s.core.pending.Keys));
    }
  }

  lemma AdmitReadsTheClock(cfg: Config, b: Core, v: Call, w: Call, pk: Digest, sk: Digest, route: Digest, known: bool,
                           signals: Signals)
    requires v.now == w.now && v.late == w.late
    ensures Admit(cfg, b, v, pk, sk, route, known, signals) == Admit(cfg, b, w, pk, sk, route, known, signals)
  {
  }

  lemma EagerPrepare(cfg: Config, s: World, e: Event)
    requires Inv(cfg, s) && NoBlank(s.core) && Enabled(cfg, s, e) && e.Prepare?
    ensures Enabled(cfg, s, Eager(s.core, e)) && Next(cfg, s, Eager(s.core, e)) == Next(cfg, s, e)
    ensures Answer(cfg, s.core, Eager(s.core, e)) == Answer(cfg, s.core, e)
  {
    var v := EagerCall(s.core, e.w);
    EagerPurge(cfg, s, e.w);
    assert Base(cfg, s.core, v, e.pk) == Base(cfg, s.core, e.w, e.pk);
    AdmitReadsTheClock(cfg, Base(cfg, s.core, v, e.pk), v, e.w, e.pk, e.sk, e.route, e.known, e.signals);
  }

  lemma EagerCompletion(cfg: Config, s: World, e: Event)
    requires Inv(cfg, s) && NoBlank(s.core) && Enabled(cfg, s, e) && e.Completion?
    ensures Enabled(cfg, s, Eager(s.core, e)) && Next(cfg, s, Eager(s.core, e)) == Next(cfg, s, e)
  {
    if e.pk != "" {
      EagerPurge(cfg, s, e.w);
    }
  }

  /** One event: sweeping where the store would skip changes neither the answer nor the state. */
  lemma EagerStep(cfg: Config, s: World, e: Event)
    requires Inv(cfg, s) && NoBlank(s.core) && Enabled(cfg, s, e)
    ensures Enabled(cfg, s, Eager(s.core, e)) && Next(cfg, s, Eager(s.core, e)) == Next(cfg, s, e)
    ensures e.Prepare? ==> Answer(cfg, s.core, Eager(s.core, e)) == Answer(cfg, s.core, e)
  {
    if e.Prepare? {
      EagerPrepare(cfg, s, e);
    } else if e.Completion? {
      EagerCompletion(cfg, s, e);
    } else if e.Snapshot? {
      EagerPurge(cfg, s, e.w);
    }
  }

  lemma EagerSweeps(c: Core, e: Event)
    ensures SweepsIfItMay(Eager(c, e))
  {
  }

  ghost function EagerRun(cfg: Config, start: World, es: seq<Event>): (fs: seq<Event>)
    ensures |fs| == |es|
    decreases |es|
  {
    if es == [] then []
    else
      var front := es[..|es| - 1];
      EagerRun(cfg, start, front) + [Eager(Play(cfg, start, front).core, es[|es| - 1])]
  }

  /** The amortised sweep refines the eager one: every run in which no blank session arises is matched, event
      by event, by a run that sweeps on every call and ends in the same state. */
  lemma {:induction false} AmortisedRefinesEager(cfg: Config, start: World, es: seq<Event>)
    requires IsRun(cfg, start, es) && NoBlank(start.core) && NeverLeavesBlank(cfg, start, es)
    ensures IsRun(cfg, start, EagerRun(cfg, start, es))
    ensures Play(cfg, start, EagerRun(cfg, start, es)) == Play(cfg, start, es)
    ensures forall e :: e in EagerRun(cfg, start, es) ==> SweepsIfItMay(e)
    decreases |es|
  {
    if es == [] {
    } else {
      var front, e := es[..|es| - 1], es[|es| - 1];
      var s := Play(cfg, start, front);
      AmortisedRefinesEager(cfg, start, front);
      RunKeepsInv(cfg, start, front);
      RunKeepsNoBlank(cfg, start, front);
      EagerStep(cfg, s, e);
      EagerSweeps(s.core, e);
      RunExtends(cfg, start, EagerRun(cfg, start, front), Eager(s.core, e));
    }
  }

  /** And every answer along the way is the eager one. */
  lemma EagerAnswers(cfg: Config, start: World, es: seq<Event>, e: Event)
    requires IsRun(cfg, start, es + [e]) && NoBlank(start.core) && NeverLeavesBlank(cfg, start, es) && e.Prepare?
    ensures var c, eager := Play(cfg, start, es).core, Play(cfg, start, EagerRun(cfg, start, es)).core;
            Answer(cfg, eager, Eager(eager, e)) == Answer(cfg, c, e)
  {
    RunExtends(cfg, start, es, e);
    AmortisedRefinesEager(cfg, start, es);
    RunKeepsInv(cfg, start, es);
    RunKeepsNoBlank(cfg, start, es);
    EagerStep(cfg, Play(cfg, start, es), e);
  }
}
