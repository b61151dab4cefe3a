// Safety in terms of the intercepted requests themselves: which credential, model, caller and identity a request
// must share with the one whose success its route-bound state is trusted for.
module Requests {
  import opened Text
  import opened Routes
  import opened Identity
  import opened Protocol
  import opened Events
  import opened Invariant
  import opened Runs
  import opened Interceptor
  import S = Sanitize

  /** The two requests name one credential and one model. */
  predicate SameRoute(a: Request, b: Request) {
    Normalize(a.authID) == Normalize(b.authID) && Normalize(a.model) == Normalize(b.model)
  }

  /** The two requests belong to one caller and one identity of one kind. */
  predicate SameConversation(a: Request, b: Request) {
    && Normalize(a.callerScope) == Normalize(b.callerScope)
    && a.kind == b.kind && Normalize(a.identity) == Normalize(b.identity)
  }

  /** The digests of the two requests do not collide, and their kinds, which the plugin chooses, hold no NUL. */
  ghost predicate ToldApart(digest: Digester, a: Request, b: Request) {
    && NoCollision(digest, RouteFrame(a), RouteFrame(b)) && NoCollision(digest, SessionFrame(a), SessionFrame(b))
    && NUL !in a.kind && NUL !in b.kind
  }

  lemma RouteFrames(r: Request)
    ensures Frame(RouteV1.Name(), [Normalize(r.authID), Normalize(r.model), "codex"]) == RouteFrame(r)
  {
    ThreeParts(RouteV1.Name(), Normalize(r.authID), Normalize(r.model), "codex");
  }

  lemma SessionFrames(r: Request)
    ensures Frame(SessionV1.Name(), SessionParts(r)) == SessionFrame(r)
  {
    ThreeParts(SessionV1.Name(), Normalize(r.callerScope), r.kind, Normalize(r.identity));
  }

  lemma RouteFramesAgree(a: Request, b: Request)
    ensures RouteFrame(a) == RouteFrame(b) <==> SameRoute(a, b)
  {
    if RouteFrame(a) == RouteFrame(b) {
      var p := [Normalize(a.authID), Normalize(a.model), "codex"];
      var q := [Normalize(b.authID), Normalize(b.model), "codex"];
      RouteFrames(a);
      RouteFrames(b);
      FramingIsInjective(RouteV1, p, RouteV1, q);
      assert p[0] == q[0] && p[1] == q[1];
    }
  }

  lemma SessionFramesAgree(a: Request, b: Request)
    requires NUL !in a.kind && NUL !in b.kind
    ensures SessionFrame(a) == SessionFrame(b) <==> SameConversation(a, b)
  {
    if SessionFrame(a) == SessionFrame(b) {
      var p, q := SessionParts(a), SessionParts(b);
      SessionFrames(a);
      SessionFrames(b);
      FramingIsInjective(SessionV1, p, SessionV1, q);
      assert p[0] == q[0] && p[1] == q[1] && p[2] == q[2];
    }
  }

  /** What two intercepted requests share: a route is known exactly for a usable credential and model on a Codex
      target, and two known routes are one exactly when credential and model agree; a session is known exactly
      for a usable identity, and two known sessions are one exactly when caller, kind and identity agree. */
  lemma RequestsAreTold(digest: Digester, e: Event, a: Request, ra: S.Root, f: Event, b: Request, rb: S.Root)
    requires NeverEmpty(digest) && ToldApart(digest, a, b) && MadeFrom(digest, e, a, ra) && MadeFrom(digest, f, b, rb)
    ensures e.known <==> Normalize(a.authID) != "" && Normalize(a.model) != "" && TargetsCodex(a)
    ensures e.known && f.known ==> (e.route == f.route <==> SameRoute(a, b))
    ensures e.sk == "" <==> Normalize(a.identity) == ""
    ensures e.sk != "" && f.sk != "" ==> (e.sk == f.sk <==> SameConversation(a, b))
  {
    RouteFramesAgree(a, b);
    SessionFramesAgree(a, b);
  }

  // ---- Runs of requests ----

  /** A request as it reached the plugin: its fields and its body. */
  datatype Intercepted = Intercepted(request: Request, root: S.Root)

  /** Event number i of the run is what the plugin made of request or completion number i. */
  ghost predicate Serves(digest: Digester, es: seq<Event>, rs: seq<Intercepted>) {
    && |rs| == |es|
    && (forall i :: 0 <= i < |es| && es[i].Prepare? ==> MadeFrom(digest, es[i], rs[i].request, rs[i].root))
    && (forall i :: 0 <= i < |es| && es[i].Completion? ==> KeyedBy(digest, rs[i].request.requestID, es[i].pk))
  }

  /** Request number i was for this credential, model and conversation, and completion number j, of the same
      request id, reported its success. */
  ghost predicate SucceededFor(es: seq<Event>, rs: seq<Intercepted>, i: nat, j: nat, r: Request)
    requires |rs| == |es|
  {
    && i < j < |es| && es[i].Prepare? && es[j].Completion? && es[j].outcome.Succeeded?
    && SameRoute(rs[i].request, r) && SameConversation(rs[i].request, r)
    && TrimSpace(rs[i].request.requestID) == TrimSpace(rs[j].request.requestID) != ""
    && forall m :: i < m < j ==> !About(es[m], es[i].pk)
  }

  lemma CommitIsOfRequest(cfg: Config, start: World, es: seq<Event>, i: nat, j: nat, sk: Digest, route: Digest,
                          n: nat)
    requires CommittedBy(cfg, start, es, i, j, sk, route, n)
    ensures es[i].Prepare? && es[i].known && es[i].route == route && es[i].sk == sk
    ensures es[i].pk == es[j].pk != ""
    ensures es[j].Completion? && es[j].outcome.Succeeded? && forall m :: i < m < j ==> !About(es[m], es[i].pk)
  {
    var prefix := es[..j];
    var p := Settling(cfg, Before(cfg, start, es, j), es[j]);
    assert EntersAfter(cfg, start, prefix[..i], prefix[i], es[j].pk, p);
    assert prefix[i] == es[i];
    forall m | i < m < j
      ensures !About(es[m], es[i].pk)
    {
      assert prefix[m] == es[m];
    }
  }

  /** No digest of the request collides with one of the run's, and no two request ids of the run collide. */
  ghost predicate Collisionless(digest: Digester, rs: seq<Intercepted>, r: Request) {
    && (forall i :: 0 <= i < |rs| ==> ToldApart(digest, rs[i].request, r))
    && (forall i, j :: 0 <= i < |rs| && 0 <= j < |rs| ==> IdsApart(digest, rs[i].request, rs[j].request))
  }

  ghost predicate IdsApart(digest: Digester, a: Request, b: Request) {
    NoCollision(digest, "codex-switch-safe" + [NUL] + "pending-v1" + [NUL] + TrimSpace(a.requestID),
                "codex-switch-safe" + [NUL] + "pending-v1" + [NUL] + TrimSpace(b.requestID))
  }

  lemma SameKeySameId(digest: Digester, a: Request, b: Request, pk: Digest)
    requires IdsApart(digest, a, b) && pk != ""
    requires KeyedBy(digest, a.requestID, pk) && KeyedBy(digest, b.requestID, pk)
    ensures TrimSpace(a.requestID) == TrimSpace(b.requestID) != ""
  {
    var head := "codex-switch-safe" + [NUL] + "pending-v1" + [NUL];
    var x, y := TrimSpace(a.requestID), TrimSpace(b.requestID);
    assert (head + x)[|head|..] == x && (head + y)[|head|..] == y;
  }

  lemma CommitSucceededFor(cfg: Config, digest: Digester, start: World, es: seq<Event>, rs: seq<Intercepted>,
                           i: nat, j: nat, e: Event, r: Request, root: S.Root, n: nat)
    requires NeverEmpty(digest) && Serves(digest, es, rs) && MadeFrom(digest, e, r, root)
    requires Collisionless(digest, rs, r) && e.known && e.sk != ""
    requires CommittedBy(cfg, start, es, i, j, e.sk, e.route, n)
    ensures SucceededFor(es, rs, i, j, r)
  {
    CommitIsOfRequest(cfg, start, es, i, j, e.sk, e.route, n);
    var a := rs[i].request;
    assert ToldApart(digest, a, r) && IdsApart(digest, a, rs[j].request);
    RequestsAreTold(digest, es[i], a, rs[i].root, e, r, root);
    SameKeySameId(digest, a, rs[j].request, es[i].pk);
  }

  /** Whatever body is sent upstream with route-bound state in it, for any request of any run of intercepted
      requests: an earlier request with the same credential and model, in the same conversation, succeeded; unless
      the store was restored with that route already bound. */
  lemma SentStateHasItsRoute(cfg: Config, digest: Digester, start: World, es: seq<Event>, rs: seq<Intercepted>,
                             e: Event, r: Request, root: S.Root)
    requires IsRun(cfg, start, es + [e]) && NeverEmpty(digest)
    requires Serves(digest, es, rs) && MadeFrom(digest, e, r, root) && e.signals == S.SignalsOf(digest, root)
    requires Collisionless(digest, rs, r)
    requires var d := Answer(cfg, Play(cfg, start, es).core, e);
             !d.reject && S.SignalsOf(digest, Outgoing(digest, root, d)).RouteBound()
    ensures HasRoute(r) && Normalize(r.identity) != ""
    ensures || (exists i, j :: SucceededFor(es, rs, i, j, r))
            || exists n :: BoundAtStart(start, e.sk, e.route, n)
    ensures start.core == EMPTY_CORE ==> exists i, j :: SucceededFor(es, rs, i, j, r)
  {
    var w := Play(cfg, start, es);
    assert (es + [e])[..|es|] == es;
    RunKeepsInv(cfg, start, es);
    SentIsLetThrough(cfg, digest, w, e, root);
    RunSafety(cfg, start, es, e);
    assert e.known && e.sk in Ground(cfg, w.core, e).sessions && e.sk != "";
    var n := Ground(cfg, w.core, e).sessions[e.sk].sequence;
    if !BoundAtStart(start, e.sk, e.route, n) {
      var i, j :| CommittedBy(cfg, start, es, i, j, e.sk, e.route, n);
      CommitSucceededFor(cfg, digest, start, es, rs, i, j, e, r, root, n);
    }
  }

  lemma SentIsLetThrough(cfg: Config, digest: Digester, s: World, e: Event, root: S.Root)
    requires Inv(cfg, s) && Enabled(cfg, s, e) && e.Prepare? && e.signals == S.SignalsOf(digest, root)
    requires !Answer(cfg, s.core, e).reject
    requires S.SignalsOf(digest, Outgoing(digest, root, Answer(cfg, s.core, e))).RouteBound()
    ensures LetThrough(cfg, s.core, e) && e.sk != ""
  {
    var d := Answer(cfg, s.core, e);
    if d.strip {
      S.FullStripIsClean(digest, root);
    } else {
      SelectedSignals(digest, root, set f | f in d.blocked);
    }
  }
}
