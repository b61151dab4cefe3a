// Identities: which normalised components a fingerprint stands for. Digests are taken over a NUL-separated
// frame; the frame determines every component.
module Identity {
  import opened Text
  import opened Routes

  const PLUGIN_ID := "codex-switch-safe"
  const NUL: char := '\U{0000}'
  const MAX_IDENTIFIER_LENGTH: nat := 256

  /** Trims, and refuses what is empty, too long or holds a control character. */
  function Normalize(raw: string): (r: string)
    ensures r == "" || (r == TrimSpace(raw) && Utf8Length(r) <= MAX_IDENTIFIER_LENGTH
                        && forall c :: c in r ==> !IsControl(c))
    ensures NUL !in r
    ensures r == "" <==> TrimSpace(raw) == "" || Utf8Length(TrimSpace(raw)) > MAX_IDENTIFIER_LENGTH
                         || exists c :: c in TrimSpace(raw) && IsControl(c)
  {
    var trimmed := TrimSpace(raw);
    if trimmed == "" || Utf8Length(trimmed) > MAX_IDENTIFIER_LENGTH || exists c | c in trimmed :: IsControl(c) then ""
    else trimmed
  }

  /** Which identifiers are refused: blank ones, those over 256 bytes, and those with a C0 or C1 control
      character or DEL after trimming. Any other is trimmed. */
  lemma NormalizeIsExact(raw: string)
    ensures var id := TrimSpace(raw);
            var usable := id != "" && Utf8Length(id) <= 256
                          && forall c :: c in id ==> 32 <= c as int < 127 || 160 <= c as int;
            Normalize(raw) == if usable then id else ""
  {
    var id := TrimSpace(raw);
    forall c | c in id
      ensures IsControl(c) <==> !(32 <= c as int < 127 || 160 <= c as int)
    {
    }
  }

  // ---- Framing ----

  function Tail(parts: seq<string>): string {
    if parts == [] then "" else [NUL] + parts[0] + Tail(parts[1..])
  }

  /** What the digest is computed over. */
  function Frame(namespace: string, parts: seq<string>): string {
    PLUGIN_ID + [NUL] + namespace + Tail(parts)
  }

  /** Every part but the last is free of NUL. */
  ghost predicate Framable(parts: seq<string>) {
    forall i :: 0 <= i < |parts| - 1 ==> NUL !in parts[i]
  }

  /** A NUL-free head followed by nothing, or by a NUL, can be told from its rest. */
  lemma {:induction false} HeadIsDetermined(a: string, b: string, r: string, t: string)
    requires NUL !in a && NUL !in b && a + r == b + t
    requires (r == "" || r[0] == NUL) && (t == "" || t[0] == NUL)
    ensures a == b && r == t
    decreases |a|
  {
    if a == "" {
      assert a + r == r && (b == "" ==> b + t == t);
    } else if b != "" {
      assert a[0] == (a + r)[0] == (b + t)[0] == b[0];
      assert a[1..] + r == (a + r)[1..];
      assert b[1..] + t == (b + t)[1..];
      HeadIsDetermined(a[1..], b[1..], r, t);
      assert a == [a[0]] + a[1..] && b == [b[0]] + b[1..];
    }
  }

  lemma {:induction false} TailIsInjective(a: seq<string>, b: seq<string>)
    requires |a| == |b| && Framable(a) && Framable(b) && Tail(a) == Tail(b)
    ensures a == b
    decreases |a|
  {
    if a == [] {
    } else {
      assert Tail(a) == [NUL] + (a[0] + Tail(a[1..]));
      assert Tail(b) == [NUL] + (b[0] + Tail(b[1..]));
      assert a[0] + Tail(a[1..]) == Tail(a)[1..] == Tail(b)[1..] == b[0] + Tail(b[1..]);
      if |a| == 1 {
        assert a[0] + Tail(a[1..]) == a[0] && b[0] + Tail(b[1..]) == b[0];
      } else {
        assert NUL !in a[0] && NUL !in b[0];
        HeadIsDetermined(a[0], b[0], Tail(a[1..]), Tail(b[1..]));
        assert forall i :: 0 <= i < |a[1..]| - 1 ==> a[1..][i] == a[i + 1] && b[1..][i] == b[i + 1];
        TailIsInjective(a[1..], b[1..]);
      }
      assert a == [a[0]] + a[1..] && b == [b[0]] + b[1..];
    }
  }

  /** The namespaces in use, each with the number of parts it always has. */
  datatype Namespace = RouteV1 | SessionV1 | ConversationV1 | PendingV1 | ItemV1 {
    function Name(): (r: string)
      ensures NUL !in r
    {
      match this
      case RouteV1 => "route-v1"
      case SessionV1 => "session-v1"
      case ConversationV1 => "codex-conversation-v1"
      case PendingV1 => "pending-v1"
      case ItemV1 => "route-bound-item-v1"
    }

    function Arity(): nat {
      match this
      case RouteV1 => 3
      case SessionV1 => 3
      case ConversationV1 => 2
      case PendingV1 => 1
      case ItemV1 => 3
    }
  }

  lemma NamesDiffer(a: Namespace, b: Namespace)
    requires a.Name() == b.Name()
    ensures a == b
  {
  }

  lemma FrameBody(namespace: string, parts: seq<string>)
    ensures Frame(namespace, parts)[|PLUGIN_ID| + 1..] == namespace + Tail(parts)
  {
    assert Frame(namespace, parts) == (PLUGIN_ID + [NUL]) + (namespace + Tail(parts));
  }

  lemma TailStartsWithNul(parts: seq<string>)
    ensures Tail(parts) == "" || Tail(parts)[0] == NUL
  {
  }

  /** Injective framing: across all namespaces, equal frames have equal namespaces and equal parts. */
  lemma FramingIsInjective(n: Namespace, a: seq<string>, m: Namespace, b: seq<string>)
    requires |a| == n.Arity() && |b| == m.Arity() && Framable(a) && Framable(b)
    requires Frame(n.Name(), a) == Frame(m.Name(), b)
    ensures n == m && a == b
  {
    FrameBody(n.Name(), a);
    FrameBody(m.Name(), b);
    TailStartsWithNul(a);
    TailStartsWithNul(b);
    HeadIsDetermined(n.Name(), m.Name(), Tail(a), Tail(b));
    NamesDiffer(n, m);
    TailIsInjective(a, b);
  }

  // ---- Digests ----

  /** The keyed hash with its hexadecimal encoding; its output is never empty. */
  type Digester = string -> Digest

  ghost predicate NeverEmpty(digest: Digester) {
    forall s :: digest(s) != ""
  }

  function DigestOf(digest: Digester, n: Namespace, parts: seq<string>): Digest {
    digest(Frame(n.Name(), parts))
  }

  /** The hash does not collide on these two inputs. */
  predicate NoCollision(digest: Digester, a: string, b: string) {
    digest(a) == digest(b) ==> a == b
  }

  function PendingKey(digest: Digester, requestID: string): Digest {
    DigestOf(digest, PendingV1, [TrimSpace(requestID)])
  }

  /** The key a request is in flight under, "" for a blank id. */
  function InFlightKey(digest: Digester, requestID: string): Digest {
    if TrimSpace(requestID) == "" then "" else PendingKey(digest, requestID)
  }

  /** The key is the one of this request id: none exactly when the id is blank, and otherwise the digest of
      the trimmed id. */
  ghost predicate KeyedBy(digest: Digester, requestID: string, pk: Digest) {
    && (pk == "" <==> TrimSpace(requestID) == "")
    && (pk != "" ==> pk == digest("codex-switch-safe" + [NUL] + "pending-v1" + [NUL] + TrimSpace(requestID)))
  }

  /** The fields of a request that route and session fingerprints are taken from. `kind` and `identity` are
      what the header, payload and metadata precedence selected, with a blank identity for none. */
  datatype Request = Request(requestID: string, toFormat: string, authID: string, model: string,
                             callerScope: string, kind: string, identity: string)

  function RouteParts(r: Request): seq<string> {
    [Normalize(r.authID), Normalize(r.model), ToLower(TrimSpace(r.toFormat))]
  }

  function RouteOf(digest: Digester, r: Request): Option<Digest> {
    var parts := RouteParts(r);
    if parts[0] == "" || parts[1] == "" || parts[2] != "codex" then None
    else Some(DigestOf(digest, RouteV1, parts))
  }

  function SessionParts(r: Request): seq<string> {
    [Normalize(r.callerScope), r.kind, Normalize(r.identity)]
  }

  function SessionKeyOf(digest: Digester, r: Request): Digest {
    if Normalize(r.identity) == "" then "" else DigestOf(digest, SessionV1, SessionParts(r))
  }

  function ConversationIdentity(digest: Digester, sessionID: string, threadID: string): string {
    var s, t := Normalize(sessionID), Normalize(threadID);
    if s == "" && t == "" then "" else DigestOf(digest, ConversationV1, [s, t])
  }

  /** Two requests share a route fingerprint only if they agree on credential, model and format. */
  lemma RouteIdentity(digest: Digester, a: Request, b: Request)
    requires RouteOf(digest, a).Some? && RouteOf(digest, b).Some?
    requires NoCollision(digest, Frame(RouteV1.Name(), RouteParts(a)), Frame(RouteV1.Name(), RouteParts(b)))
    ensures RouteOf(digest, a) == RouteOf(digest, b)
            <==> Normalize(a.authID) == Normalize(b.authID) && Normalize(a.model) == Normalize(b.model)
  {
    if RouteOf(digest, a) == RouteOf(digest, b) {
      FramingIsInjective(RouteV1, RouteParts(a), RouteV1, RouteParts(b));
      assert RouteParts(a)[0] == RouteParts(b)[0] && RouteParts(a)[1] == RouteParts(b)[1];
    }
  }

  /** Two requests share a session key only if they agree on caller scope, kind of identity and identity. */
  lemma SessionIdentity(digest: Digester, a: Request, b: Request)
    requires NUL !in a.kind && NUL !in b.kind
    requires SessionKeyOf(digest, a) != "" && SessionKeyOf(digest, b) != ""
    requires NoCollision(digest, Frame(SessionV1.Name(), SessionParts(a)), Frame(SessionV1.Name(), SessionParts(b)))
    ensures SessionKeyOf(digest, a) == SessionKeyOf(digest, b) <==>
              && Normalize(a.callerScope) == Normalize(b.callerScope)
              && a.kind == b.kind
              && Normalize(a.identity) == Normalize(b.identity)
  {
    if SessionKeyOf(digest, a) == SessionKeyOf(digest, b) {
      FramingIsInjective(SessionV1, SessionParts(a), SessionV1, SessionParts(b));
      assert SessionParts(a)[0] == SessionParts(b)[0];
      assert SessionParts(a)[1] == SessionParts(b)[1];
      assert SessionParts(a)[2] == SessionParts(b)[2];
    }
  }

  /** A session and thread pair has its own conversation identity. */
  lemma ConversationIdentityIsInjective(digest: Digester, s: string, t: string, u: string, v: string)
    requires NeverEmpty(digest)
    requires NoCollision(digest, Frame(ConversationV1.Name(), [Normalize(s), Normalize(t)]),
                         Frame(ConversationV1.Name(), [Normalize(u), Normalize(v)]))
    ensures ConversationIdentity(digest, s, t) == ConversationIdentity(digest, u, v)
            <==> Normalize(s) == Normalize(u) && Normalize(t) == Normalize(v)
  {
    if ConversationIdentity(digest, s, t) == ConversationIdentity(digest, u, v) != "" {
      FramingIsInjective(ConversationV1, [Normalize(s), Normalize(t)], ConversationV1, [Normalize(u), Normalize(v)]);
    }
  }

  /** Fingerprints of different namespaces never coincide. */
  lemma NamespacesAreApart(digest: Digester, n: Namespace, a: seq<string>, m: Namespace, b: seq<string>)
    requires n != m && |a| == n.Arity() && |b| == m.Arity() && Framable(a) && Framable(b)
    requires NoCollision(digest, Frame(n.Name(), a), Frame(m.Name(), b))
    ensures DigestOf(digest, n, a) != DigestOf(digest, m, b)
  {
    if DigestOf(digest, n, a) == DigestOf(digest, m, b) {
      FramingIsInjective(n, a, m, b);
    }
  }

  /** A retry finds its candidate, and no other request does: in-flight keys agree exactly when the trimmed
      ids do. */
  lemma PendingIdentity(digest: Digester, a: string, b: string)
    requires NoCollision(digest, Frame(PendingV1.Name(), [TrimSpace(a)]), Frame(PendingV1.Name(), [TrimSpace(b)]))
    ensures PendingKey(digest, a) == PendingKey(digest, b) <==> TrimSpace(a) == TrimSpace(b)
  {
    if PendingKey(digest, a) == PendingKey(digest, b) {
      FramingIsInjective(PendingV1, [TrimSpace(a)], PendingV1, [TrimSpace(b)]);
    }
  }

  lemma OnePart(namespace: string, a: string)
    ensures Frame(namespace, [a]) == PLUGIN_ID + [NUL] + namespace + [NUL] + a
  {
    assert Tail([a]) == [NUL] + a;
  }

  lemma TwoParts(namespace: string, a: string, b: string)
    ensures Frame(namespace, [a, b]) == PLUGIN_ID + [NUL] + namespace + [NUL] + a + [NUL] + b
  {
    assert [a, b][1..] == [b];
    assert Tail([b]) == [NUL] + b;
    assert Tail([a, b]) == [NUL] + a + Tail([b]);
  }

  lemma ThreeParts(namespace: string, a: string, b: string, c: string)
    ensures Frame(namespace, [a, b, c]) == PLUGIN_ID + [NUL] + namespace + [NUL] + a + [NUL] + b + [NUL] + c
  {
    assert [a, b, c][1..] == [b, c];
    TwoParts(namespace, b, c);
    assert Tail([a, b, c]) == [NUL] + a + Tail([b, c]);
    assert Tail([b, c]) == [NUL] + b + [NUL] + c by {
      assert [b, c][1..] == [c];
      assert Tail([c]) == [NUL] + c;
      assert Tail([b, c]) == [NUL] + b + Tail([c]);
    }
  }

  /** A request has an in-flight key exactly when its id is not blank; a retry finds its candidate under it, and
      no other request does. */
  lemma InFlightIdentity(digest: Digester, a: string, b: string)
    requires NeverEmpty(digest)
    requires NoCollision(digest, "codex-switch-safe" + [NUL] + "pending-v1" + [NUL] + TrimSpace(a),
                         "codex-switch-safe" + [NUL] + "pending-v1" + [NUL] + TrimSpace(b))
    ensures KeyedBy(digest, a, InFlightKey(digest, a)) && KeyedBy(digest, b, InFlightKey(digest, b))
    ensures InFlightKey(digest, a) == InFlightKey(digest, b) <==> TrimSpace(a) == TrimSpace(b)
  {
    KeyIsExact(digest, a);
    KeyIsExact(digest, b);
    PendingFrame(a);
    PendingFrame(b);
    PendingIdentity(digest, a, b);
  }

  lemma PendingFrame(requestID: string)
    ensures Frame(PendingV1.Name(), [TrimSpace(requestID)])
            == "codex-switch-safe" + [NUL] + "pending-v1" + [NUL] + TrimSpace(requestID)
  {
    OnePart(PendingV1.Name(), TrimSpace(requestID));
  }

  lemma KeyIsExact(digest: Digester, requestID: string)
    requires NeverEmpty(digest)
    ensures KeyedBy(digest, requestID, InFlightKey(digest, requestID))
  {
    PendingFrame(requestID);
  }

  /** A route is known exactly for a usable credential and model on a Codex target, and is the digest of the two. */
  lemma RouteIsExact(digest: Digester, r: Request)
    ensures var auth, model := Normalize(r.authID), Normalize(r.model);
            RouteOf(digest, r)
            == if auth == "" || model == "" || ToLower(TrimSpace(r.toFormat)) != "codex" then None
               else Some(digest("codex-switch-safe" + [NUL] + "route-v1" + [NUL] + auth + [NUL] + model
                                + [NUL] + "codex"))
  {
    var auth, model := Normalize(r.authID), Normalize(r.model);
    if RouteOf(digest, r).Some? {
      assert RouteParts(r) == [auth, model, "codex"];
      ThreeParts(RouteV1.Name(), auth, model, "codex");
    }
  }

  /** A session is known exactly for a usable identity, and is the digest of caller, kind and identity. */
  lemma SessionKeyIsExact(digest: Digester, r: Request)
    ensures var scope, id := Normalize(r.callerScope), Normalize(r.identity);
            SessionKeyOf(digest, r)
            == if id == "" then ""
               else digest("codex-switch-safe" + [NUL] + "session-v1" + [NUL] + scope + [NUL] + r.kind + [NUL] + id)
  {
    ThreeParts(SessionV1.Name(), Normalize(r.callerScope), r.kind, Normalize(r.identity));
  }

  /** A session and thread pair is identified exactly when one of the two is usable, by the digest of both. */
  lemma ConversationIsExact(digest: Digester, sessionID: string, threadID: string)
    ensures var s, t := Normalize(sessionID), Normalize(threadID);
            ConversationIdentity(digest, sessionID, threadID)
            == if s == "" && t == "" then ""
               else digest("codex-switch-safe" + [NUL] + "codex-conversation-v1" + [NUL] + s + [NUL] + t)
  {
    TwoParts(ConversationV1.Name(), Normalize(sessionID), Normalize(threadID));
  }
}
