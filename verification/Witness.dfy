// What concrete runs are built from: calls that find nothing to sweep, and runs extended one event at a time.
module Witness {
  import opened Routes
  import opened Protocol
  import opened Runs
  import opened Sweeping
  import opened Persistence

  /** A call that sweeps at time t, visiting the candidates in this order. */
  function At(t: Time, order: seq<Digest>): Call {
    Call(t, t, true, order)
  }

  lemma SweepFresh(cfg: Config, c: Core, now: Time, order: seq<Digest>)
    requires Fresh(cfg, c, now) && NoBlank(c)
    ensures Sweep(cfg, c, now, order) == c
  {
    assert ExpireSessions(cfg, c, now) == c;
    FreshPendingStays(cfg, c, now, order);
  }

  lemma PurgeFresh(cfg: Config, c: Core, w: Call)
    requires Fresh(cfg, c, w.now) && NoBlank(c)
    ensures Purge(cfg, c, w) == c
  {
    if w.swept {
      SweepFresh(cfg, c, w.now, w.order);
    }
  }

  /** The run of intercepted requests ends in the given state. */
  ghost predicate EndsIn(cfg: Config, start: World, es: seq<Event>, to: World) {
    && IsRun(cfg, start, es) && Play(cfg, start, es) == to
    && forall e :: e in es ==> OpaqueEvent(e)
  }

  lemma OneMore(cfg: Config, start: World, es: seq<Event>, from: World, e: Event, to: World)
    requires EndsIn(cfg, start, es, from) && OpaqueEvent(e)
    requires Enabled(cfg, from, e) && Next(cfg, from, e) == to
    ensures EndsIn(cfg, start, es + [e], to)
  {
    RunExtends(cfg, start, es, e);
  }
}
