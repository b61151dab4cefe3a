// interceptor.go: one request through inspection, decision and stripping, and what is sent upstream.
module Interceptor {
  import opened Text
  import opened Routes
  import opened Identity
  import opened Protocol
  import opened Events
  import opened Invariant
  import opened Runs
  import Store
  import S = Sanitize

  const BAD_REQUEST: nat := 400
  const CONFLICT: nat := 409

  datatype Response = PassThrough | Forward(body: S.RawBody, stats: S.Stats) | Terminate(status: nat)

  predicate IsCodexTarget(r: Request) {
    ToLower(TrimSpace(r.toFormat)) == "codex"
  }

  /** Does an unparseable body mention route-bound state anywhere? */
  predicate LikelyContainsRouteBoundState(text: string) {
    var lower := ToLower(text);
    Contains(lower, "\"previous_response_id\"") || Contains(lower, "\"reasoning\"") || Contains(lower, "\"compaction\"")
  }

  /** The prepare a request amounts to. */
  function PrepareOf(digest: Digester, pk: Digest, r: Request, root: S.Root, w: Call): Event {
    var route := RouteOf(digest, r);
    Prepare(w, pk, SessionKeyOf(digest, r), if route.Some? then route.value else "", route.Some?,
            S.SignalsOf(digest, root))
  }

  /** The target format is "codex", in any case and with white space around it. */
  predicate TargetsCodex(r: Request) {
    |TrimSpace(r.toFormat)| == 5 && StandsAt(TrimSpace(r.toFormat), "codex", 0)
  }

  lemma TargetIsExact(r: Request)
    ensures IsCodexTarget(r) <==> TargetsCodex(r)
    ensures ToLower(TrimSpace(r.toFormat)) == "codex" <==> TargetsCodex(r)
  {
    var t := TrimSpace(r.toFormat);
    if TargetsCodex(r) {
      forall i | 0 <= i < 5
        ensures ToLower(t)[i] == "codex"[i]
      {
        assert LowerChar(t[0 + i]) == "codex"[i];
      }
    }
    if ToLower(t) == "codex" {
      forall i | 0 <= i < 5
        ensures LowerChar(t[0 + i]) == "codex"[i]
      {
        assert ToLower(t)[i] == LowerChar(t[i]);
      }
    }
  }

  /** The text mentions a member or type of route-bound state in quotes, in any case. */
  ghost predicate MentionsState(text: string) {
    || Mentions(text, "\"previous_response_id\"")
    || Mentions(text, "\"reasoning\"")
    || Mentions(text, "\"compaction\"")
  }

  lemma LikelihoodIsExact(text: string)
    ensures LikelyContainsRouteBoundState(text) <==> MentionsState(text)
  {
    MentionIsExact(text, "\"previous_response_id\"");
    MentionIsExact(text, "\"reasoning\"");
    MentionIsExact(text, "\"compaction\"");
  }

  /** The request has a usable credential and model, and a Codex target. */
  predicate HasRoute(r: Request) {
    Normalize(r.authID) != "" && Normalize(r.model) != "" && TargetsCodex(r)
  }

  /** What the route and session fingerprints of a request are digests of. */
  function RouteFrame(r: Request): string {
    "codex-switch-safe" + [NUL] + "route-v1" + [NUL] + Normalize(r.authID) + [NUL] + Normalize(r.model)
    + [NUL] + "codex"
  }

  function RouteDigest(digest: Digester, r: Request): Digest {
    digest(RouteFrame(r))
  }

  function SessionFrame(r: Request): string {
    "codex-switch-safe" + [NUL] + "session-v1" + [NUL] + Normalize(r.callerScope) + [NUL] + r.kind
    + [NUL] + Normalize(r.identity)
  }

  function SessionDigest(digest: Digester, r: Request): Digest {
    digest(SessionFrame(r))
  }

  /** The event is the prepare of this request: in flight under the request's id, judged on the route of the
      request's own credential and model and in the session of its own caller and identity, for what its body
      holds. */
  ghost predicate MadeFrom(digest: Digester, e: Event, r: Request, root: S.Root) {
    && e.Prepare? && KeyedBy(digest, r.requestID, e.pk)
    && (e.known <==> HasRoute(r))
    && e.route == (if e.known then RouteDigest(digest, r) else "")
    && e.sk == (if Normalize(r.identity) == "" then "" else SessionDigest(digest, r))
    && S.Reports(digest, root, e.signals)
  }

  /** The prepare of an intercepted request is made from that request. */
  lemma PrepareIsExact(digest: Digester, r: Request, root: S.Root, w: Call)
    requires NeverEmpty(digest)
    ensures MadeFrom(digest, PrepareOf(digest, InFlightKey(digest, r.requestID), r, root, w), r, root)
  {
    KeyIsExact(digest, r.requestID);
    TargetIsExact(r);
    RouteIsExact(digest, r);
    SessionKeyIsExact(digest, r);
    S.InspectionIsExact(digest, root);
  }

  /** The body a decision that does not reject lets upstream. */
  function Outgoing(digest: Digester, root: S.Root, d: Decision): S.Root {
    if d.strip then S.Stripped(root)
    else if d.blocked != [] then S.Selected(digest, root, set f | f in d.blocked)
    else root
  }

  /** No listed fingerprint is the item's. */
  ghost function NotIn(digest: Digester, blocked: seq<Digest>): S.Item -> bool {
    (item: S.Item) => forall f :: f in blocked ==> S.Fingerprint(digest, item) != Some(f)
  }

  /** What is sent: the body as it is; or without any reasoning, compaction and previous response, everything
      else kept; or without the blocked items, everything else kept. */
  lemma SentBodyIsExact(digest: Digester, root: S.Root, d: Decision)
    ensures var sent := Outgoing(digest, root, d);
            var before, after := S.InputOf(root), S.InputOf(sent);
            && (!d.strip && d.blocked == [] ==> sent == root)
            && (d.strip ==> S.KeptInOrder(before, after, S.Plain()) && "previous_response_id" !in sent)
            && (!d.strip ==> S.KeptInOrder(before, after, NotIn(digest, d.blocked)))
            && (!d.strip ==> ("previous_response_id" in sent <==> "previous_response_id" in root))
            && (forall k :: k != "input" && k != "previous_response_id" ==> (k in sent <==> k in root))
            && (forall k :: k != "input" && k in sent ==> sent[k] == root[k])
  {
    var blocked := set f | f in d.blocked;
    if d.strip {
      S.FullStripIsClean(digest, root);
    } else {
      S.SelectiveStripIsExact(digest, root, blocked);
      S.KeepAlike(S.InputOf(root), S.Unblocked(digest, blocked), NotIn(digest, d.blocked));
      S.KeepKeepsOrder(S.InputOf(root), NotIn(digest, d.blocked));
      if d.blocked == [] {
        S.KeepAll(S.InputOf(root), NotIn(digest, d.blocked));
      }
    }
  }

  // ---- Soundness of what is sent ----

  /** No item of the body is barred from the route. */
  ghost predicate NothingBarred(digest: Digester, root: S.Root, s: Session, route: Digest) {
    forall f :: f in S.SignalsOf(digest, root).items ==> !Barred(s, f, route)
  }

  /** Interceptor soundness: a body sent upstream carries route-bound state only for a session that is bound
      to the selected route, untainted and unexpired with no conflicting request in flight, and then no item
      in it is barred from that route. */
  lemma SentStateIsTrusted(cfg: Config, digest: Digester, s: World, e: Event, root: S.Root)
    requires Inv(cfg, s) && Enabled(cfg, s, e) && e.Prepare? && e.signals == S.SignalsOf(digest, root)
             && NeverEmpty(digest)
    requires !Answer(cfg, s.core, e).reject
    ensures var d := Answer(cfg, s.core, e);
            var sent, b := Outgoing(digest, root, d), Ground(cfg, s.core, e);
            S.SignalsOf(digest, sent).RouteBound() ==>
              && Trusted(cfg, b, e, d.blocked)
              && NothingBarred(digest, sent, b.sessions[e.sk], e.route)
  {
    var d := Answer(cfg, s.core, e);
    var sent, b := Outgoing(digest, root, d), Ground(cfg, s.core, e);
    if d.strip {
      S.FullStripIsClean(digest, root);
    } else if S.SignalsOf(digest, sent).RouteBound() {
      if d.blocked != [] {
        S.SelectiveStripIsExact(digest, root, set f | f in d.blocked);
        SelectedSignals(digest, root, set f | f in d.blocked);
      }
      LetThroughIsTrusted(cfg, s, e);
    }
  }

  lemma SelectedSignals(digest: Digester, root: S.Root, blocked: set<Digest>)
    ensures S.SignalsOf(digest, S.Selected(digest, root, blocked)).RouteBound()
            ==> S.SignalsOf(digest, root).RouteBound()
  {
  }

  /** On a changed, unknown or tainted route nothing route-bound is sent. */
  lemma UntrustedRouteSendsNothing(cfg: Config, digest: Digester, s: World, e: Event, root: S.Root)
    requires Inv(cfg, s) && Enabled(cfg, s, e) && e.Prepare? && e.signals == S.SignalsOf(digest, root)
             && NeverEmpty(digest)
    requires !Answer(cfg, s.core, e).reject
    requires Answer(cfg, s.core, e).relation != Same || SessionAt(Ground(cfg, s.core, e), e.sk).tainted
    ensures !S.SignalsOf(digest, Outgoing(digest, root, Answer(cfg, s.core, e))).RouteBound()
  {
    S.FullStripIsClean(digest, root);
    UntrustedIsUnblocked(cfg, s, e);
  }

  lemma UntrustedIsUnblocked(cfg: Config, s: World, e: Event)
    requires e.Prepare?
    requires Answer(cfg, s.core, e).relation != Same || SessionAt(Ground(cfg, s.core, e), e.sk).tainted
    ensures Answer(cfg, s.core, e).blocked == []
    ensures e.signals.RouteBound() ==> Answer(cfg, s.core, e).strip || Answer(cfg, s.core, e).reject
  {
  }

  /** The body has no item that the full strip would call reasoning or compaction. */
  ghost predicate NoStateByKind(root: S.Root) {
    forall item :: item in S.InputOf(root) ==> S.KindOf(item).Neither?
  }

  /** An item whose id does not decode: the detector passes over it, the full strip does not. */
  predicate Hidden(item: S.Item) {
    item.Entry? && item.id.Other? && !S.KindOf(item).Neither?
  }

  /** On a changed or unknown route the body sent is free of reasoning and compaction even by the strip's own
      decoding, exactly when something detectable made the store strip it or it had no hidden item. */
  lemma HiddenItemsPassAlone(cfg: Config, digest: Digester, s: World, e: Event, root: S.Root)
    requires e.Prepare? && e.signals == S.SignalsOf(digest, root)
    requires !Answer(cfg, s.core, e).reject && Answer(cfg, s.core, e).relation != Same
    ensures NoStateByKind(Outgoing(digest, root, Answer(cfg, s.core, e)))
            <==> e.signals.RouteBound() || forall item :: item in S.InputOf(root) ==> !Hidden(item)
  {
    UntrustedIsUnblocked(cfg, s, e);
    BlockedAreObserved(cfg, s, e);
    UndetectedItems(digest, root);
  }

  lemma UndetectedItems(digest: Digester, root: S.Root)
    ensures NoStateByKind(S.Stripped(root))
    ensures !S.SignalsOf(digest, root).RouteBound() ==>
              (NoStateByKind(root) <==> forall item :: item in S.InputOf(root) ==> !Hidden(item))
  {
    if !S.SignalsOf(digest, root).RouteBound() {
      forall item | item in S.InputOf(root)
        ensures S.KindOf(item).Neither? <==> !Hidden(item)
      {
        S.StripCoversDetector(item);
        assert S.DetectedKind(item).Neither?;
      }
    }
  }

  /** A body whose only item is a reasoning item with an id that is no string. */
  function HiddenBody(text: string): S.Root {
    map[S.INPUT := S.JArray([S.Entry(S.Str("reasoning"), S.Other, S.Absent, text)])]
  }

  lemma HiddenBodyHoldsReasoning(text: string)
    ensures S.InputOf(HiddenBody(text)) == [S.Entry(S.Str("reasoning"), S.Other, S.Absent, text)]
    ensures S.KindOf(S.InputOf(HiddenBody(text))[0]) == S.Reasoning
  {
    assert ToLower("reasoning") == "reasoning";
  }

  lemma HiddenBodyIsHidden(digest: Digester, text: string)
    ensures !S.SignalsOf(digest, HiddenBody(text)).RouteBound()
    ensures !NoStateByKind(HiddenBody(text))
  {
    HiddenBodyHoldsReasoning(text);
    assert S.InputOf(HiddenBody(text))[0] in S.InputOf(HiddenBody(text));
  }

  /** Such a body is passed on whole, whatever the route: nothing in it is detected. */
  lemma HiddenItemIsPassedOn(cfg: Config, digest: Digester, s: World, e: Event, text: string)
    requires e.Prepare? && e.signals == S.SignalsOf(digest, HiddenBody(text))
    ensures var d := Answer(cfg, s.core, e);
            && !d.reject && Outgoing(digest, HiddenBody(text), d) == HiddenBody(text)
            && !NoStateByKind(Outgoing(digest, HiddenBody(text), d))
  {
    HiddenBodyIsHidden(digest, text);
    BlockedAreObserved(cfg, s, e);
    NothingToObserve(digest, text);
  }

  lemma NothingToObserve(digest: Digester, text: string)
    ensures S.SignalsOf(digest, HiddenBody(text)).items == []
  {
    var items := S.InputOf(HiddenBody(text));
    assert items[..0] == [];
    assert S.Fingerprints(digest, items[..0]) == [];
    assert S.Fingerprint(digest, items[0]) == None;
  }

  /** The sanitizers do what the decision needs: a strip the store asks for always removes something. */
  lemma DecidedStripsChange(cfg: Config, digest: Digester, s: World, e: Event, root: S.Root)
    requires e.Prepare? && e.signals == S.SignalsOf(digest, root) && !Answer(cfg, s.core, e).reject
    ensures var d := Answer(cfg, s.core, e);
            && (d.strip ==> e.signals.RouteBound() && S.FullStats(root).Changed())
            && (!d.strip && d.blocked != [] ==> S.SelectiveStats(digest, root, set f | f in d.blocked).Changed())
  {
    var d := Answer(cfg, s.core, e);
    S.FullStatsAreExact(digest, root);
    BlockedAreObserved(cfg, s, e);
    if d.blocked != [] {
      S.SelectiveStatsAreExact(digest, root, set f | f in d.blocked);
      assert d.blocked[0] in d.blocked;
    }
  }

  lemma BlockedAreObserved(cfg: Config, s: World, e: Event)
    requires e.Prepare?
    ensures forall f :: f in Answer(cfg, s.core, e).blocked ==> f in e.signals.items
    ensures Answer(cfg, s.core, e).strip ==> e.signals.RouteBound()
  {
  }

  // ---- The plugin ----

  class Plugin {
    const enabled: bool
    const store: Store.RouteStateStore
    const codec: S.Codec

    ghost predicate Valid()
      reads this, store
    {
      store.Valid() && codec.RoundTrips()
    }

    constructor (enabled: bool, store: Store.RouteStateStore, codec: S.Codec)
      requires store.Valid() && codec.RoundTrips()
      ensures Valid() && this.store == store && this.enabled == enabled && this.codec == codec
    {
      this.enabled, this.store, this.codec := enabled, store, codec;
    }

    /** Does JSON encoding fail on the body a decision lets upstream? */
    ghost predicate EncodingFails(root: S.Root, d: Decision) {
      var sent := Outgoing(store.digest, root, d);
      codec.encodeRoot(sent).None? || codec.encodeInput(S.InputOf(sent)).None?
    }

    /** InterceptRequestAfterAuth. The events say what happened to the store: nothing for a request the plugin
        leaves alone or cannot parse, one prepare otherwise, and a discard after it if encoding failed. */
    method InterceptRequestAfterAuth(r: Request, body: S.RawBody) returns (response: Response, ghost es: seq<Event>)
      requires Valid()
      modifies store
      ensures Valid()
      ensures Playable(store.cfg, old(store.Here()), es) && store.Here() == Play(store.cfg, old(store.Here()), es)
      ensures !enabled || !TargetsCodex(r) ==> response == PassThrough && es == []
      ensures enabled && TargetsCodex(r) && body.root.None? ==>
                && es == []
                && response == if MentionsState(body.text) then Terminate(400) else PassThrough
      ensures enabled && TargetsCodex(r) && body.root.Some? ==>
                && es != [] && es[0].Prepare?
                && MadeFrom(store.digest, es[0], r, body.root.value)
                && es[0] == PrepareOf(store.digest, store.KeyOf(r.requestID), r, body.root.value, es[0].w)
                && Handled(body.root.value, Answer(store.cfg, old(store.State()), es[0]), response, es[1..],
                           store.KeyOf(r.requestID))
    {
      TargetIsExact(r);
      LikelihoodIsExact(body.text);
      es := [];
      if !enabled || !IsCodexTarget(r) {
        return PassThrough, es;
      }
      var inspection := S.PayloadInspection.Inspect(body, store.digest);
      if inspection.None? {
        if LikelyContainsRouteBoundState(body.text) {
          return Terminate(BAD_REQUEST), es;
        }
        return PassThrough, es;
      }
      response, es := InterceptInspected(r, inspection.value);
      PrepareIsExact(store.digest, r, body.root.value, es[0].w);
    }

    /** The part of the hook that follows the inspection. */
    method InterceptInspected(r: Request, p: S.PayloadInspection) returns (response: Response, ghost es: seq<Event>)
      requires Valid() && p.Fresh() && p.digest == store.digest
      modifies store, p
      ensures Valid()
      ensures Playable(store.cfg, old(store.Here()), es) && store.Here() == Play(store.cfg, old(store.Here()), es)
      ensures es != [] && es[0].Prepare?
              && es[0] == PrepareOf(store.digest, store.KeyOf(r.requestID), r, old(p.root), es[0].w)
      ensures Handled(old(p.root), Answer(store.cfg, old(store.State()), es[0]), response, es[1..],
                      store.KeyOf(r.requestID))
    {
      ghost var s, root := store.Here(), p.root;
      var decision;
      ghost var e, fs;
      decision, e := PrepareFor(r, p);
      if !decision.reject {
        DecidedStripsChange(store.cfg, store.digest, s, e, root);
      }
      response, fs := RespondTo(r.requestID, p, decision);
      es := [e] + fs;
      PlayPrepared(store.cfg, s, e, fs);
      assert es[1..] == fs;
    }

    method PrepareFor(r: Request, p: S.PayloadInspection) returns (decision: Decision, ghost e: Event)
      requires Valid() && p.Fresh() && p.digest == store.digest
      modifies store
      ensures Valid() && p.Fresh() && p.root == old(p.root)
      ensures e.Prepare? && e == PrepareOf(store.digest, store.KeyOf(r.requestID), r, p.root, e.w)
      ensures Enabled(store.cfg, old(store.Here()), e) && store.Here() == Next(store.cfg, old(store.Here()), e)
      ensures decision == Answer(store.cfg, old(store.State()), e)
    {
      var route := RouteOf(store.digest, r);
      decision, e := store.Prepare(r.requestID, SessionKeyOf(store.digest, r),
                                   if route.Some? then route.value else "", route.Some?, p.signals);
    }

    /** What a decision makes of the response, and the events after the prepare. */
    ghost predicate Handled(root: S.Root, d: Decision, response: Response, fs: seq<Event>, pk: Digest) {
      if d.reject then response == Terminate(409) && fs == []
      else if !d.strip && d.blocked == [] then response == PassThrough && fs == []
      else
        || (response.Forward? && response.body.root == Some(Outgoing(store.digest, root, d))
            && response.stats.Changed() && fs == [])
        || (response == Terminate(409) && EncodingFails(root, d) && fs == [Discard(pk)])
    }

    /** Acts on the decision; a body that cannot be sanitized takes the candidate back. */
    method RespondTo(requestID: string, p: S.PayloadInspection, decision: Decision)
      returns (response: Response, ghost fs: seq<Event>)
      requires Valid() && p.Fresh() && p.digest == store.digest
      requires decision.strip && !decision.reject ==> p.signals.RouteBound() && S.FullStats(p.root).Changed()
      requires !decision.strip && !decision.reject && decision.blocked != [] ==>
                 S.SelectiveStats(store.digest, p.root, set f | f in decision.blocked).Changed()
      modifies store, p
      ensures Valid() && |fs| <= 1
      ensures Handled(old(p.root), decision, response, fs, store.KeyOf(requestID))
      ensures fs == [] ==> store.Here() == old(store.Here())
      ensures fs != [] ==> Enabled(store.cfg, old(store.Here()), fs[0])
      ensures fs != [] ==> store.Here() == Next(store.cfg, old(store.Here()), fs[0])
    {
      if decision.reject {
        return Terminate(CONFLICT), [];
      }
      if !decision.strip && decision.blocked == [] {
        return PassThrough, [];
      }
      response, fs := SanitizeOrDiscard(requestID, p, decision);
    }

    method SanitizeOrDiscard(requestID: string, p: S.PayloadInspection, decision: Decision)
      returns (response: Response, ghost fs: seq<Event>)
      requires Valid() && p.Fresh() && p.digest == store.digest
      requires !decision.reject && (decision.strip || decision.blocked != [])
      requires decision.strip ==> p.signals.RouteBound() && S.FullStats(p.root).Changed()
      requires !decision.strip ==> S.SelectiveStats(store.digest, p.root, set f | f in decision.blocked).Changed()
      modifies store, p
      ensures Valid() && |fs| <= 1
      ensures Handled(old(p.root), decision, response, fs, store.KeyOf(requestID))
      ensures fs == [] ==> store.Here() == old(store.Here())
      ensures fs != [] ==> Enabled(store.cfg, old(store.Here()), fs[0])
      ensures fs != [] ==> store.Here() == Next(store.cfg, old(store.Here()), fs[0])
    {
      var outcome := Sanitize(p, decision);
      if outcome.EncodingFailed? || !outcome.stats.Changed() {
        ghost var f := store.DiscardPending(requestID);
        return Terminate(CONFLICT), [f];
      }
      return Forward(outcome.body, outcome.stats), [];
    }

    /** The strip the decision calls for. */
    method Sanitize(p: S.PayloadInspection, decision: Decision) returns (outcome: S.Sanitized)
      requires p.Fresh() && codec.RoundTrips() && NeverEmpty(p.digest) && p.digest == store.digest
      requires decision.strip || decision.blocked != []
      requires decision.strip ==> p.signals.RouteBound()
      modifies p
      ensures outcome.Encoded? ==>
                && outcome.body.root == Some(Outgoing(store.digest, old(p.root), decision))
                && outcome.stats == if decision.strip then S.FullStats(old(p.root))
                                    else S.SelectiveStats(store.digest, old(p.root), set f | f in decision.blocked)
      ensures outcome.EncodingFailed? ==> EncodingFails(old(p.root), decision)
    {
      if decision.strip {
        outcome := p.StripRouteBoundState(codec);
      } else {
        outcome := p.StripRetiredItems(decision.blocked, codec);
      }
    }

    /** HandleRequestComplete. */
    method HandleRequestComplete(requestID: string, outcome: Routes.Outcome) returns (ghost es: seq<Event>)
      requires Valid()
      modifies store
      ensures Valid()
      ensures Playable(store.cfg, old(store.Here()), es) && store.Here() == Play(store.cfg, old(store.Here()), es)
      ensures if enabled
              then |es| == 1 && es[0].Completion? && es[0] == Completion(es[0].w, store.KeyOf(requestID), outcome)
                   && KeyedBy(store.digest, requestID, es[0].pk)
              else es == []
    {
      es := [];
      if !enabled {
        return;
      }
      ghost var s := store.Here();
      var tracked;
      ghost var e;
      tracked, e := store.Complete(requestID, outcome);
      es := [e];
      PlayOne(store.cfg, s, e);
    }
  }

  lemma PlayOne(cfg: Config, s: World, e: Event)
    requires Enabled(cfg, s, e)
    ensures Playable(cfg, s, [e]) && Play(cfg, s, [e]) == Next(cfg, s, e)
  {
    assert [e][..0] == [];
  }

  /** A prepare and at most one event after it. */
  lemma PlayPrepared(cfg: Config, s: World, e: Event, fs: seq<Event>)
    requires Enabled(cfg, s, e) && |fs| <= 1 && (fs != [] ==> Enabled(cfg, Next(cfg, s, e), fs[0]))
    ensures Playable(cfg, s, [e] + fs)
    ensures Play(cfg, s, [e] + fs) == if fs == [] then Next(cfg, s, e) else Next(cfg, Next(cfg, s, e), fs[0])
  {
    PlayOne(cfg, s, e);
    if fs == [] {
      assert [e] + fs == [e];
    } else {
      assert ([e] + fs)[..1] == [e];
    }
  }
}
