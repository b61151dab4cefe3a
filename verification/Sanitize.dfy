// The request sanitizer of sanitize.go over decoded JSON: the detector that reports route-bound state, the
// full strip and the selective strip.
module Sanitize {
  import opened Text
  import opened Routes
  import opened Identity

  // ---- Decoded JSON ----

  /** What decoding one member of an item into a Go string yields; Other stands for a decode error. */
  datatype Member = Absent | Null | Str(value: string) | Other {
    function Text(): string {
      if Str? then value else ""
    }
  }

  /** An element of the input array: an object with the members the plugin looks at and its canonical
      encoding, or a value no struct decodes from. A JSON null decodes like an object with no members. */
  datatype Item = Foreign(text: string) | Entry(typ: Member, id: Member, encrypted: Member, canonical: string)

  datatype Value = JNull | JArray(items: seq<Item>) | JOther(text: string)

  type Root = map<string, Value>

  /** A request body: its text, and its top-level object unless it is empty, malformed or no object. */
  datatype RawBody = RawBody(text: string, root: Option<Root>)

  /** JSON encoding, which may fail. */
  datatype Codec = Codec(encodeInput: seq<Item> -> Option<Value>, encodeRoot: Root -> Option<RawBody>) {
    /** What was encoded decodes to what it was. */
    ghost predicate RoundTrips() {
      && (forall items :: encodeInput(items).Some? ==> encodeInput(items).value == JArray(items))
      && (forall root :: encodeRoot(root).Some? ==> encodeRoot(root).value.root == Some(root))
    }
  }

  const PREVIOUS := "previous_response_id"
  const INPUT := "input"

  // ---- The detector ----

  datatype Kind = Reasoning | Compaction | Neither {
    function Name(): string {
      match this
      case Reasoning => "reasoning"
      case Compaction => "compaction"
      case Neither => ""
    }
  }

  /** The kind a type member names, after trimming and lower-casing. */
  function ParseKind(typ: string): Kind {
    var lower := ToLower(TrimSpace(typ));
    if lower == "reasoning" then Reasoning else if lower == "compaction" then Compaction else Neither
  }

  /** The kind a struct with only a type member decodes: none if that member does not decode. */
  function KindOf(item: Item): Kind {
    if item.Entry? && !item.typ.Other? then ParseKind(item.typ.Text()) else Neither
  }

  /** The kind the detector sees: its struct also decodes an id, and fails with it. */
  function DetectedKind(item: Item): Kind {
    if item.Entry? && !item.id.Other? then KindOf(item) else Neither
  }

  predicate Has(items: seq<Item>, kind: Kind) {
    exists item | item in items :: DetectedKind(item) == kind
  }

  /** The parts an item is fingerprinted by: its id, else its encrypted content, else all of it. */
  function ItemParts(kind: Kind, item: Item): seq<string>
    requires item.Entry?
  {
    if TrimSpace(item.id.Text()) != "" then [kind.Name(), "id", TrimSpace(item.id.Text())]
    else if item.encrypted.Text() != "" then [kind.Name(), "encrypted-content", item.encrypted.Text()]
    else [kind.Name(), "canonical-item", item.canonical]
  }

  function Fingerprint(digest: Digester, item: Item): Option<Digest> {
    var kind := DetectedKind(item);
    if kind.Neither? then None else Some(DigestOf(digest, ItemV1, ItemParts(kind, item)))
  }

  lemma ItemPartsFrame(kind: Kind, item: Item)
    requires item.Entry?
    ensures |ItemParts(kind, item)| == ItemV1.Arity() && Framable(ItemParts(kind, item))
  {
  }

  lemma PartsDecide(digest: Digester, a: Item, b: Item)
    requires !DetectedKind(a).Neither? && !DetectedKind(b).Neither?
    requires NoCollision(digest, Frame(ItemV1.Name(), ItemParts(DetectedKind(a), a)),
                         Frame(ItemV1.Name(), ItemParts(DetectedKind(b), b)))
    ensures Fingerprint(digest, a) == Fingerprint(digest, b)
            <==> ItemParts(DetectedKind(a), a) == ItemParts(DetectedKind(b), b)
  {
    ItemPartsFrame(DetectedKind(a), a);
    ItemPartsFrame(DetectedKind(b), b);
    if Fingerprint(digest, a) == Fingerprint(digest, b) {
      FramingIsInjective(ItemV1, ItemParts(DetectedKind(a), a), ItemV1, ItemParts(DetectedKind(b), b));
    }
  }

  // ---- What identifies an item ----

  /** The type member is this word, in any case and with white space around it. */
  predicate TypeIs(item: Item, word: string) {
    && item.Entry? && item.typ.Str?
    && |TrimSpace(item.typ.value)| == |word| && StandsAt(TrimSpace(item.typ.value), word, 0)
  }

  lemma TypeByLower(item: Item, word: string)
    requires item.Entry? && item.typ.Str?
    ensures TypeIs(item, word) <==> ToLower(TrimSpace(item.typ.value)) == word
  {
    var t := TrimSpace(item.typ.value);
    if TypeIs(item, word) {
      forall i | 0 <= i < |word|
        ensures ToLower(t)[i] == word[i]
      {
        assert LowerChar(t[0 + i]) == word[i];
      }
    }
    if ToLower(t) == word {
      forall i | 0 <= i < |word|
        ensures LowerChar(t[0 + i]) == word[i]
      {
        assert ToLower(t)[i] == LowerChar(t[i]);
      }
    }
  }

  /** Which items are reasoning and compaction, to the full strip and to the detector. */
  lemma KindIsExact(item: Item)
    ensures KindOf(item) == Reasoning <==> TypeIs(item, "reasoning")
    ensures KindOf(item) == Compaction <==> TypeIs(item, "compaction")
    ensures DetectedKind(item) == Reasoning <==> TypeIs(item, "reasoning") && !item.id.Other?
    ensures DetectedKind(item) == Compaction <==> TypeIs(item, "compaction") && !item.id.Other?
  {
    if item.Entry? && item.typ.Str? {
      TypeByLower(item, "reasoning");
      TypeByLower(item, "compaction");
    }
  }

  /** The item has an id that is not blank. */
  predicate Named(item: Item) {
    item.Entry? && item.id.Str? && TrimSpace(item.id.value) != ""
  }

  /** The item has encrypted content, and no id that comes before it. */
  predicate Sealed(item: Item) {
    item.Entry? && !Named(item) && item.encrypted.Str? && item.encrypted.value != ""
  }

  /** Which member identifies a detected item, and what it holds: its id if it has one, else its encrypted
      content, else the whole item. */
  function Identifier(item: Item): (string, string)
    requires item.Entry?
  {
    if Named(item) then ("id", TrimSpace(item.id.value))
    else if Sealed(item) then ("encrypted-content", item.encrypted.value)
    else ("canonical-item", item.canonical)
  }

  lemma PartsAreExact(item: Item)
    requires item.Entry? && !DetectedKind(item).Neither?
    ensures var word := if TypeIs(item, "reasoning") then "reasoning" else "compaction";
            ItemParts(DetectedKind(item), item) == [word, Identifier(item).0, Identifier(item).1]
    ensures TypeIs(item, "reasoning") <==> !TypeIs(item, "compaction")
  {
    KindIsExact(item);
  }

  /** What the fingerprint of a detected item is the digest of. */
  lemma FingerprintIsExact(digest: Digester, item: Item)
    requires item.Entry? && !DetectedKind(item).Neither?
    ensures var word := if TypeIs(item, "reasoning") then "reasoning" else "compaction";
            var (source, content) := Identifier(item);
            Fingerprint(digest, item)
            == Some(digest("codex-switch-safe" + [NUL] + "route-bound-item-v1" + [NUL] + word + [NUL] + source
                           + [NUL] + content))
  {
    PartsAreExact(item);
    var word := if TypeIs(item, "reasoning") then "reasoning" else "compaction";
    ThreeParts(ItemV1.Name(), word, Identifier(item).0, Identifier(item).1);
  }

  /** The two items are of one kind, are identified by the same source, and agree on it. */
  predicate SameItem(a: Item, b: Item)
    requires a.Entry? && b.Entry?
  {
    && (TypeIs(a, "reasoning") <==> TypeIs(b, "reasoning"))
    && (TypeIs(a, "compaction") <==> TypeIs(b, "compaction"))
    && (Named(a) <==> Named(b)) && (Sealed(a) <==> Sealed(b))
    && (Named(a) && Named(b) ==> TrimSpace(a.id.value) == TrimSpace(b.id.value))
    && (Sealed(a) && Sealed(b) ==> a.encrypted.value == b.encrypted.value)
    && (!Named(a) && !Sealed(a) ==> a.canonical == b.canonical)
  }

  lemma IdentifiersAgree(a: Item, b: Item)
    requires a.Entry? && b.Entry? && Identifier(a) == Identifier(b)
    ensures (Named(a) <==> Named(b)) && (Sealed(a) <==> Sealed(b))
  {
    assert |"id"| == 2 && |"encrypted-content"| == 17 && |"canonical-item"| == 14;
  }

  lemma PartsAgree(a: Item, b: Item)
    requires !DetectedKind(a).Neither? && !DetectedKind(b).Neither?
    ensures ItemParts(DetectedKind(a), a) == ItemParts(DetectedKind(b), b) <==> SameItem(a, b)
  {
    PartsAreExact(a);
    PartsAreExact(b);
    var p, q := ItemParts(DetectedKind(a), a), ItemParts(DetectedKind(b), b);
    if p == q {
      assert p[0] == q[0] && p[1] == q[1] && p[2] == q[2];
      assert |"reasoning"| == 9 && |"compaction"| == 10;
      IdentifiersAgree(a, b);
    }
  }

  /** Two detected items share a fingerprint exactly when they are of one kind and have the same id; or, neither
      having an id, the same encrypted content; or, neither having that either, the same canonical text. */
  lemma ItemIdentity(digest: Digester, a: Item, b: Item)
    requires !DetectedKind(a).Neither? && !DetectedKind(b).Neither?
    requires NoCollision(digest, Frame(ItemV1.Name(), ItemParts(DetectedKind(a), a)),
                         Frame(ItemV1.Name(), ItemParts(DetectedKind(b), b)))
    ensures Fingerprint(digest, a) == Fingerprint(digest, b) <==> SameItem(a, b)
  {
    PartsDecide(digest, a, b);
    PartsAgree(a, b);
  }

  function InputOf(root: Root): seq<Item> {
    if INPUT in root && root[INPUT].JArray? then root[INPUT].items else []
  }

  predicate IsArray(root: Root) {
    INPUT in root && root[INPUT].JArray?
  }

  /** The fingerprints of the detected items, in order. */
  function Fingerprints(digest: Digester, items: seq<Item>): seq<Digest>
    decreases |items|
  {
    if items == [] then []
    else
      var front, last := Fingerprints(digest, items[..|items| - 1]), Fingerprint(digest, items[|items| - 1]);
      if last.Some? then front + [last.value] else front
  }

  /** What an inspection reports of a body. */
  function SignalsOf(digest: Digester, root: Root): Signals {
    var items := InputOf(root);
    Signals(Has(items, Reasoning), Has(items, Compaction), PREVIOUS in root, Fingerprints(digest, items))
  }

  /** Is the item reasoning or compaction to the detector? */
  function Detected(): Item -> bool {
    (item: Item) => (TypeIs(item, "reasoning") || TypeIs(item, "compaction")) && !item.id.Other?
  }

  /** What an inspection reports, member by member. */
  ghost predicate Reports(digest: Digester, root: Root, signals: Signals) {
    var items := if "input" in root && root["input"].JArray? then root["input"].items else [];
    && (signals.hasReasoning <==> exists item :: item in items && TypeIs(item, "reasoning") && !item.id.Other?)
    && (signals.hasCompaction <==> exists item :: item in items && TypeIs(item, "compaction") && !item.id.Other?)
    && (signals.hasPreviousResponse <==> "previous_response_id" in root)
    && exists flagged: seq<Item> ::
         && KeptInOrder(items, flagged, Detected()) && |signals.items| == |flagged|
         && forall i :: 0 <= i < |flagged| ==> Fingerprint(digest, flagged[i]) == Some(signals.items[i])
  }

  lemma {:induction false} FingerprintsInOrder(digest: Digester, items: seq<Item>)
    ensures |Fingerprints(digest, items)| == |Keep(items, Detected())|
    ensures forall i :: 0 <= i < |Fingerprints(digest, items)| ==>
              Fingerprint(digest, Keep(items, Detected())[i]) == Some(Fingerprints(digest, items)[i])
    decreases |items|
  {
    if items == [] {
    } else {
      FingerprintsInOrder(digest, items[..|items| - 1]);
      KindIsExact(items[|items| - 1]);
    }
  }

  /** An inspection reports which kinds the input array holds, whether there is a previous response, and the
      fingerprints of the detected items in their order. */
  lemma InspectionIsExact(digest: Digester, root: Root)
    ensures Reports(digest, root, SignalsOf(digest, root))
  {
    var items := InputOf(root);
    forall item | item in items
      ensures DetectedKind(item) == Reasoning <==> TypeIs(item, "reasoning") && !item.id.Other?
      ensures DetectedKind(item) == Compaction <==> TypeIs(item, "compaction") && !item.id.Other?
    {
      KindIsExact(item);
    }
    FingerprintsInOrder(digest, items);
    KeepKeepsOrder(items, Detected());
    var flagged := Keep(items, Detected());
    assert KeptInOrder(items, flagged, Detected()) && |SignalsOf(digest, root).items| == |flagged|;
  }

  lemma {:induction false} FingerprintsOfItems(digest: Digester, items: seq<Item>)
    ensures forall f :: f in Fingerprints(digest, items) <==>
                          exists item :: item in items && Fingerprint(digest, item) == Some(f)
    decreases |items|
  {
    if items == [] {
    } else {
      var front, last := items[..|items| - 1], items[|items| - 1];
      assert items == front + [last];
      FingerprintsOfItems(digest, front);
    }
  }

  /** An inspection reports fingerprints exactly when it reports reasoning or compaction, and none is empty. */
  lemma SignalsAreConsistent(digest: Digester, root: Root)
    requires NeverEmpty(digest)
    ensures SignalsOf(digest, root).Consistent() && "" !in SignalsOf(digest, root).items
  {
    var items := InputOf(root);
    FingerprintsOfItems(digest, items);
    if Fingerprints(digest, items) != [] {
      var f := Fingerprints(digest, items)[0];
      var item :| item in items && Fingerprint(digest, item) == Some(f);
      assert !DetectedKind(item).Neither?;
    }
    if Has(items, Reasoning) || Has(items, Compaction) {
      var item :| item in items && !DetectedKind(item).Neither?;
      assert Fingerprint(digest, item).value in Fingerprints(digest, items);
    }
  }

  // ---- Filtering ----

  /** The items that stay, in order. */
  function Keep(items: seq<Item>, stays: Item -> bool): (r: seq<Item>)
    ensures forall item :: item in r <==> item in items && stays(item)
    ensures |r| <= |items|
    decreases |items|
  {
    if items == [] then []
    else
      var front, last := items[..|items| - 1], items[|items| - 1];
      assert items == front + [last];
      Keep(front, stays) + if stays(last) then [last] else []
  }

  /** The items at the positions `at`, in increasing order, are `kept`; and these are the positions of the
      items that stay. */
  ghost predicate Picks(at: seq<nat>, items: seq<Item>, kept: seq<Item>, stays: Item -> bool) {
    && |at| == |kept|
    && (forall i :: 0 <= i < |at| ==> at[i] < |items| && kept[i] == items[at[i]])
    && (forall i, j :: 0 <= i < j < |at| ==> at[i] < at[j])
    && (forall n: nat :: n in at <==> n < |items| && stays(items[n]))
  }

  /** Exactly the items that stay are kept, as they are and in their order. */
  ghost predicate KeptInOrder(items: seq<Item>, kept: seq<Item>, stays: Item -> bool) {
    exists at: seq<nat> :: Picks(at, items, kept, stays)
  }

  lemma {:induction false} KeepKeepsOrder(items: seq<Item>, stays: Item -> bool)
    ensures KeptInOrder(items, Keep(items, stays), stays)
    decreases |items|
  {
    if items == [] {
      PickNothing(stays);
    } else {
      var front, last := items[..|items| - 1], items[|items| - 1];
      KeepKeepsOrder(front, stays);
      PickOneMore(front, last, Keep(front, stays), stays);
      assert items == front + [last];
    }
  }

  lemma PickNothing(stays: Item -> bool)
    ensures KeptInOrder([], [], stays)
  {
    assert Picks([], [], [], stays);
  }

  lemma PickOneMore(front: seq<Item>, last: Item, kept: seq<Item>, stays: Item -> bool)
    requires KeptInOrder(front, kept, stays)
    ensures KeptInOrder(front + [last], kept + if stays(last) then [last] else [], stays)
  {
    var at: seq<nat> :| Picks(at, front, kept, stays);
    if stays(last) {
      PickLast(at, front, last, kept, stays);
    } else {
      assert kept + [] == kept;
      assert Picks(at, front + [last], kept, stays);
    }
  }

  lemma PickLast(at: seq<nat>, front: seq<Item>, last: Item, kept: seq<Item>, stays: Item -> bool)
    requires Picks(at, front, kept, stays) && stays(last)
    ensures Picks(at + [|front|], front + [last], kept + [last], stays)
  {
    var more: seq<nat> := at + [|front|];
    forall i | 0 <= i < |at|
      ensures more[i] < |front|
    {
      assert at[i] in at;
    }
    forall n: nat
      ensures n in more <==> n in at || n == |front|
    {
    }
  }

  function Count(items: seq<Item>, counted: Item -> bool): nat
    decreases |items|
  {
    if items == [] then 0
    else Count(items[..|items| - 1], counted) + if counted(items[|items| - 1]) then 1 else 0
  }

  /** The positions of the items counted. */
  function Positions(items: seq<Item>, counted: Item -> bool): set<int> {
    set i | 0 <= i < |items| && counted(items[i])
  }

  lemma {:induction false} CountIsCardinality(items: seq<Item>, counted: Item -> bool)
    ensures Count(items, counted) == |Positions(items, counted)|
    decreases |items|
  {
    if items == [] {
      assert Positions(items, counted) == {};
    } else {
      var front, last := items[..|items| - 1], |items| - 1;
      CountIsCardinality(front, counted);
      assert Positions(items, counted) == Positions(front, counted) + if counted(items[last]) then {last} else {};
    }
  }

  lemma {:induction false} CountPositive(items: seq<Item>, counted: Item -> bool)
    ensures Count(items, counted) > 0 <==> exists item :: item in items && counted(item)
    decreases |items|
  {
    if items == [] {
    } else {
      var front, last := items[..|items| - 1], items[|items| - 1];
      assert items == front + [last];
      CountPositive(front, counted);
    }
  }

  /** Kept and removed items add up. */
  lemma {:induction false} CountsAddUp(items: seq<Item>, stays: Item -> bool, a: Item -> bool, b: Item -> bool)
    requires forall item :: item in items ==>
               (if stays(item) then 0 else 1) == (if a(item) then 1 else 0) + (if b(item) then 1 else 0)
    ensures |Keep(items, stays)| + Count(items, a) + Count(items, b) == |items|
    decreases |items|
  {
    if items == [] {
    } else {
      var front, last := items[..|items| - 1], items[|items| - 1];
      assert items == front + [last];
      CountsAddUp(front, stays, a, b);
    }
  }

  lemma {:induction false} KeepAll(items: seq<Item>, stays: Item -> bool)
    requires forall item :: item in items ==> stays(item)
    ensures Keep(items, stays) == items
    decreases |items|
  {
    if items == [] {
    } else {
      var front, last := items[..|items| - 1], items[|items| - 1];
      assert items == front + [last];
      KeepAll(front, stays);
    }
  }

  // ---- Stripping ----

  /** The full strip keeps what its own decoding does not call reasoning or compaction. */
  function Harmless(): Item -> bool {
    (item: Item) => KindOf(item).Neither?
  }

  /** The full strip drops exactly the items the detector flags and those whose id alone made it look away. */
  lemma StripCoversDetector(item: Item)
    ensures !Harmless()(item) <==>
              !DetectedKind(item).Neither? || (item.Entry? && item.id.Other? && !KindOf(item).Neither?)
    ensures !DetectedKind(item).Neither? ==> DetectedKind(item) == KindOf(item)
  {
  }

  /** A body after the full strip. */
  function Stripped(root: Root): Root {
    var rest := root - {PREVIOUS};
    if IsArray(root) then rest[INPUT := JArray(Keep(root[INPUT].items, Harmless()))] else rest
  }

  /** The selective strip keeps the items without a blocked fingerprint. */
  function Unblocked(digest: Digester, blocked: set<Digest>): Item -> bool {
    (item: Item) => Fingerprint(digest, item).None? || Fingerprint(digest, item).value !in blocked
  }

  function Selected(digest: Digester, root: Root, blocked: set<Digest>): Root {
    if IsArray(root) then root[INPUT := JArray(Keep(root[INPUT].items, Unblocked(digest, blocked)))] else root
  }

  lemma FullStripRestInspects(digest: Digester, root: Root)
    ensures !SignalsOf(digest, Stripped(root)).RouteBound()
  {
  }

  /** Neither reasoning nor compaction. */
  function Plain(): Item -> bool {
    (item: Item) => !TypeIs(item, "reasoning") && !TypeIs(item, "compaction")
  }

  lemma {:induction false} KeepAlike(items: seq<Item>, stays: Item -> bool, alike: Item -> bool)
    requires forall item :: item in items ==> stays(item) == alike(item)
    ensures Keep(items, stays) == Keep(items, alike)
    decreases |items|
  {
    if items == [] {
    } else {
      KeepAlike(items[..|items| - 1], stays, alike);
    }
  }

  lemma FullStripKeepsOrder(root: Root)
    ensures KeptInOrder(InputOf(root), InputOf(Stripped(root)), Plain())
  {
    forall item | item in InputOf(root)
      ensures Harmless()(item) == Plain()(item)
    {
      KindIsExact(item);
    }
    KeepAlike(InputOf(root), Harmless(), Plain());
    KeepKeepsOrder(InputOf(root), Plain());
    assert InputOf(Stripped(root)) == Keep(InputOf(root), Plain());
  }

  lemma FullStripSparesMembers(root: Root)
    ensures forall k :: k != PREVIOUS && k != INPUT ==> (k in Stripped(root) <==> k in root)
    ensures forall k :: k != PREVIOUS && k != INPUT && k in root ==> Stripped(root)[k] == root[k]
    ensures IsArray(Stripped(root)) <==> IsArray(root)
    ensures !IsArray(root) ==> Stripped(root) == root - {PREVIOUS}
  {
  }

  /** Full strip: the result carries no route-bound state, the items that are neither reasoning nor compaction
      are kept as they are and in order, and every other member of the body is untouched. */
  lemma FullStripIsClean(digest: Digester, root: Root)
    ensures !SignalsOf(digest, Stripped(root)).RouteBound()
    ensures KeptInOrder(InputOf(root), InputOf(Stripped(root)), Plain())
    ensures forall k :: k != PREVIOUS && k != INPUT ==> (k in Stripped(root) <==> k in root)
    ensures forall k :: k != PREVIOUS && k != INPUT && k in root ==> Stripped(root)[k] == root[k]
    ensures IsArray(Stripped(root)) <==> IsArray(root)
    ensures !IsArray(root) ==> Stripped(root) == root - {PREVIOUS}
  {
    FullStripKeepsOrder(root);
    FullStripRestInspects(digest, root);
    FullStripSparesMembers(root);
  }

  /** Stripping again changes nothing. */
  lemma FullStripIsIdempotent(root: Root)
    ensures Stripped(Stripped(root)) == Stripped(root)
  {
    if IsArray(root) {
      KeepAll(InputOf(Stripped(root)), Harmless());
    }
  }

  /** Selective strip: no blocked fingerprint is left; every item without one is kept as it is and in order,
      and so is every other member of the body. */
  lemma SelectiveStripIsExact(digest: Digester, root: Root, blocked: set<Digest>)
    ensures forall f :: f in SignalsOf(digest, Selected(digest, root, blocked)).items <==>
                        f in SignalsOf(digest, root).items && f !in blocked
    ensures KeptInOrder(InputOf(root), InputOf(Selected(digest, root, blocked)), Unblocked(digest, blocked))
    ensures PREVIOUS in Selected(digest, root, blocked) <==> PREVIOUS in root
    ensures forall k :: k != INPUT ==> (k in Selected(digest, root, blocked) <==> k in root)
    ensures forall k :: k != INPUT && k in root ==> Selected(digest, root, blocked)[k] == root[k]
    ensures !IsArray(root) ==> Selected(digest, root, blocked) == root
  {
    KeepKeepsOrder(InputOf(root), Unblocked(digest, blocked));
    SelectedFingerprints(digest, root, blocked);
  }

  lemma SelectedFingerprints(digest: Digester, root: Root, blocked: set<Digest>)
    ensures forall f :: f in SignalsOf(digest, Selected(digest, root, blocked)).items <==>
                        f in SignalsOf(digest, root).items && f !in blocked
  {
    var before, after := InputOf(root), InputOf(Selected(digest, root, blocked));
    FingerprintsOfItems(digest, before);
    FingerprintsOfItems(digest, after);
    forall f
      ensures f in Fingerprints(digest, after) <==> f in Fingerprints(digest, before) && f !in blocked
    {
      if f in Fingerprints(digest, before) && f !in blocked {
        var item :| item in before && Fingerprint(digest, item) == Some(f);
        assert item in after;
      }
      if f in Fingerprints(digest, after) {
        var item :| item in after && Fingerprint(digest, item) == Some(f);
        assert item in before;
      }
    }
  }

  // ---- Statistics ----

  datatype Stats = Stats(reasoning: nat, compaction: nat, previous: bool) {
    predicate Changed() {
      reasoning > 0 || compaction > 0 || previous
    }
  }

  const NO_STATS := Stats(0, 0, false)

  datatype Sanitized = Encoded(body: RawBody, stats: Stats) | EncodingFailed

  function IsKind(kind: Kind): Item -> bool {
    (item: Item) => KindOf(item) == kind
  }

  function IsBlocked(digest: Digester, blocked: set<Digest>, kind: Kind): Item -> bool {
    (item: Item) => DetectedKind(item) == kind && Fingerprint(digest, item).Some?
      && Fingerprint(digest, item).value in blocked
  }

  function FullStats(root: Root): Stats {
    Stats(Count(InputOf(root), IsKind(Reasoning)), Count(InputOf(root), IsKind(Compaction)), PREVIOUS in root)
  }

  function SelectiveStats(digest: Digester, root: Root, blocked: set<Digest>): Stats {
    Stats(Count(InputOf(root), IsBlocked(digest, blocked, Reasoning)),
          Count(InputOf(root), IsBlocked(digest, blocked, Compaction)), false)
  }

  lemma FullStripChanges(digest: Digester, root: Root)
    requires SignalsOf(digest, root).RouteBound()
    ensures FullStats(root).Changed()
  {
    var items := InputOf(root);
    CountPositive(items, IsKind(Reasoning));
    CountPositive(items, IsKind(Compaction));
    if item :| item in items && DetectedKind(item) == Reasoning {
      assert IsKind(Reasoning)(item);
    }
    if item :| item in items && DetectedKind(item) == Compaction {
      assert IsKind(Compaction)(item);
    }
  }

  /** The items of a kind are counted, and whether there was a previous response. */
  lemma FullCountsAreExact(root: Root)
    ensures var items, stats := InputOf(root), FullStats(root);
            && stats.reasoning == |set i | 0 <= i < |items| && TypeIs(items[i], "reasoning")|
            && stats.compaction == |set i | 0 <= i < |items| && TypeIs(items[i], "compaction")|
            && (stats.previous <==> "previous_response_id" in root)
  {
    var items := InputOf(root);
    CountIsCardinality(items, IsKind(Reasoning));
    CountIsCardinality(items, IsKind(Compaction));
    forall i | 0 <= i < |items|
      ensures IsKind(Reasoning)(items[i]) <==> TypeIs(items[i], "reasoning")
      ensures IsKind(Compaction)(items[i]) <==> TypeIs(items[i], "compaction")
    {
      KindIsExact(items[i]);
    }
    assert Positions(items, IsKind(Reasoning)) == set i | 0 <= i < |items| && TypeIs(items[i], "reasoning");
    assert Positions(items, IsKind(Compaction)) == set i | 0 <= i < |items| && TypeIs(items[i], "compaction");
  }

  /** The item's fingerprint is in the blocked set. */
  predicate Blocks(digest: Digester, blocked: set<Digest>, item: Item) {
    Fingerprint(digest, item).Some? && Fingerprint(digest, item).value in blocked
  }

  /** The blocked items of a kind are counted; a previous response stays. */
  lemma SelectiveCountsAreExact(digest: Digester, root: Root, blocked: set<Digest>)
    ensures var items, stats := InputOf(root), SelectiveStats(digest, root, blocked);
            && stats.reasoning
               == |set i | 0 <= i < |items| && TypeIs(items[i], "reasoning") && Blocks(digest, blocked, items[i])|
            && stats.compaction
               == |set i | 0 <= i < |items| && TypeIs(items[i], "compaction") && Blocks(digest, blocked, items[i])|
            && !stats.previous
  {
    var items := InputOf(root);
    var r, c := IsBlocked(digest, blocked, Reasoning), IsBlocked(digest, blocked, Compaction);
    CountIsCardinality(items, r);
    CountIsCardinality(items, c);
    forall i | 0 <= i < |items|
      ensures r(items[i]) <==> TypeIs(items[i], "reasoning") && Blocks(digest, blocked, items[i])
      ensures c(items[i]) <==> TypeIs(items[i], "compaction") && Blocks(digest, blocked, items[i])
    {
      KindIsExact(items[i]);
    }
    assert Positions(items, r)
        == set i | 0 <= i < |items| && TypeIs(items[i], "reasoning") && Blocks(digest, blocked, items[i]);
    assert Positions(items, c)
        == set i | 0 <= i < |items| && TypeIs(items[i], "compaction") && Blocks(digest, blocked, items[i]);
  }

  /** Whatever a full strip removes it counts, and one that was called for removes something. */
  lemma FullStatsAreExact(digest: Digester, root: Root)
    ensures |InputOf(Stripped(root))| + FullStats(root).reasoning + FullStats(root).compaction == |InputOf(root)|
    ensures SignalsOf(digest, root).RouteBound() ==> FullStats(root).Changed()
  {
    CountsAddUp(InputOf(root), Harmless(), IsKind(Reasoning), IsKind(Compaction));
    if SignalsOf(digest, root).RouteBound() {
      FullStripChanges(digest, root);
    }
  }

  lemma SelectiveStatsAddUp(digest: Digester, root: Root, blocked: set<Digest>)
    ensures var stats := SelectiveStats(digest, root, blocked);
            |InputOf(Selected(digest, root, blocked))| + stats.reasoning + stats.compaction == |InputOf(root)|
  {
    CountsAddUp(InputOf(root), Unblocked(digest, blocked), IsBlocked(digest, blocked, Reasoning),
                IsBlocked(digest, blocked, Compaction));
  }

  lemma SelectiveStripChanges(digest: Digester, root: Root, blocked: set<Digest>)
    ensures SelectiveStats(digest, root, blocked).Changed()
            <==> exists f :: f in blocked && f in SignalsOf(digest, root).items
  {
    var items := InputOf(root);
    var r, c := IsBlocked(digest, blocked, Reasoning), IsBlocked(digest, blocked, Compaction);
    CountPositive(items, r);
    CountPositive(items, c);
    FingerprintsOfItems(digest, items);
    if f :| f in blocked && f in SignalsOf(digest, root).items {
      var item :| item in items && Fingerprint(digest, item) == Some(f);
      assert r(item) || c(item);
    }
    if item :| item in items && (r(item) || c(item)) {
      assert Fingerprint(digest, item).value in Fingerprints(digest, items);
    }
  }

  /** A selective strip counts what it removes, and removes something exactly when a blocked item is there. */
  lemma SelectiveStatsAreExact(digest: Digester, root: Root, blocked: set<Digest>)
    ensures var stats := SelectiveStats(digest, root, blocked);
            && |InputOf(Selected(digest, root, blocked))| + stats.reasoning + stats.compaction == |InputOf(root)|
            && (stats.Changed() <==> exists f :: f in blocked && f in SignalsOf(digest, root).items)
  {
    SelectiveStatsAddUp(digest, root, blocked);
    SelectiveStripChanges(digest, root, blocked);
  }

  // ---- Inspection ----

  /** payloadInspection: the decoded body, whose root object the strips edit in place. */
  class PayloadInspection {
    const raw: RawBody
    const digest: Digester
    const items: seq<Item>
    const inputArray: bool
    const signals: Signals
    var root: Root

    /** The inspection reports its body, which no strip has edited yet. */
    ghost predicate Fresh()
      reads this
    {
      && raw.root == Some(root)
      && inputArray == IsArray(root) && items == InputOf(root)
      && signals == SignalsOf(digest, root)
    }

    constructor (raw: RawBody, digest: Digester, items: seq<Item>, inputArray: bool, signals: Signals)
      requires raw.root.Some?
      requires inputArray == IsArray(raw.root.value) && items == InputOf(raw.root.value)
      requires signals == SignalsOf(digest, raw.root.value)
      ensures Fresh() && this.raw == raw && this.digest == digest && root == raw.root.value
    {
      this.raw, this.digest, this.items, this.inputArray, this.signals := raw, digest, items, inputArray, signals;
      root := raw.root.value;
    }

    /** inspectPayload: fails on a body without a top-level object, and reports its signals otherwise. */
    static method Inspect(raw: RawBody, digest: Digester) returns (r: Option<PayloadInspection>)
      ensures r.Some? <==> raw.root.Some?
      ensures r.Some? ==> fresh(r.value) && r.value.Fresh() && r.value.raw == raw && r.value.digest == digest
      ensures r.Some? ==> Reports(digest, raw.root.value, r.value.signals)
    {
      if raw.root.None? {
        return None;
      }
      InspectionIsExact(digest, raw.root.value);
      var root := raw.root.value;
      var inputArray := INPUT in root && root[INPUT].JArray?;
      var items := if inputArray then root[INPUT].items else [];
      var reasoning, compaction, fingerprints := Scan(digest, items);
      var p := new PayloadInspection(raw, digest, items, inputArray,
                                     Signals(reasoning, compaction, PREVIOUS in root, fingerprints));
      r := Some(p);
    }

    static method Scan(digest: Digester, items: seq<Item>)
      returns (reasoning: bool, compaction: bool, fingerprints: seq<Digest>)
      ensures reasoning == Has(items, Reasoning)
      ensures compaction == Has(items, Compaction)
      ensures fingerprints == Fingerprints(digest, items)
    {
      reasoning, compaction, fingerprints := false, false, [];
      for i := 0 to |items|
        invariant reasoning == Has(items[..i], Reasoning)
        invariant compaction == Has(items[..i], Compaction)
        invariant fingerprints == Fingerprints(digest, items[..i])
      {
        assert items[..i + 1] == items[..i] + [items[i]];
        var kind := DetectedKind(items[i]);
        if !kind.Neither? {
          if kind.Reasoning? {
            reasoning := true;
          } else {
            compaction := true;
          }
          fingerprints := fingerprints + [Fingerprint(digest, items[i]).value];
        }
      }
      assert items[..|items|] == items;
    }

    /** stripRouteBoundStateWithStats. */
    method StripRouteBoundState(codec: Codec) returns (r: Sanitized)
      requires Fresh() && codec.RoundTrips()
      modifies this
      ensures !signals.RouteBound() ==> r == Encoded(raw, NO_STATS)
      ensures signals.RouteBound() && r.Encoded? ==>
                && r.body.root == Some(Stripped(old(root)))
                && r.stats == FullStats(old(root))
      ensures r.EncodingFailed? ==> codec.encodeRoot(Stripped(old(root))).None?
                                    || (IsArray(old(root)) && codec.encodeInput(InputOf(Stripped(old(root)))).None?)
    {
      FullStatsAreExact(digest, root);
      if !signals.RouteBound() {
        return Encoded(raw, NO_STATS);
      }
      var stats := NO_STATS;
      if PREVIOUS in root {
        root := root - {PREVIOUS};
        stats := stats.(previous := true);
      } else {
        assert root - {PREVIOUS} == root;
      }
      if inputArray {
        var filtered, reasoning, compaction := KeepHarmless();
        stats := stats.(reasoning := reasoning, compaction := compaction);
        if stats.Changed() {
          var input := codec.encodeInput(filtered);
          if input.None? {
            return EncodingFailed;
          }
          root := root[INPUT := input.value];
        }
      }
      if !stats.Changed() {
        return Encoded(raw, stats);
      }
      assert root == Stripped(old(root));
      var updated := codec.encodeRoot(root);
      if updated.None? {
        return EncodingFailed;
      }
      r := Encoded(updated.value, stats);
    }

    method KeepHarmless() returns (filtered: seq<Item>, reasoning: nat, compaction: nat)
      ensures filtered == Keep(items, Harmless())
      ensures reasoning == Count(items, IsKind(Reasoning)) && compaction == Count(items, IsKind(Compaction))
    {
      filtered, reasoning, compaction := [], 0, 0;
      for i := 0 to |items|
        invariant filtered == Keep(items[..i], Harmless())
        invariant reasoning == Count(items[..i], IsKind(Reasoning))
                  && compaction == Count(items[..i], IsKind(Compaction))
      {
        assert items[..i + 1][..i] == items[..i];
        var kind := KindOf(items[i]);
        if kind.Reasoning? {
          reasoning := reasoning + 1;
        } else if kind.Compaction? {
          compaction := compaction + 1;
        } else {
          filtered := filtered + [items[i]];
        }
      }
      assert items[..|items|] == items;
    }

    /** stripRetiredRouteBoundItemsWithStats. */
    method StripRetiredItems(fingerprints: seq<Digest>, codec: Codec) returns (r: Sanitized)
      requires Fresh() && codec.RoundTrips() && NeverEmpty(digest)
      modifies this
      ensures r.Encoded? ==>
                && r.body.root == Some(Selected(digest, old(root), set f | f in fingerprints))
                && r.stats == SelectiveStats(digest, old(root), set f | f in fingerprints)
      ensures r.EncodingFailed? ==>
                var selected := Selected(digest, old(root), set f | f in fingerprints);
                codec.encodeRoot(selected).None? || codec.encodeInput(InputOf(selected)).None?
    {
      ghost var all := set f | f in fingerprints;
      SelectiveStatsAreExact(digest, root, all);
      NothingSelected(digest, root, all);
      if !inputArray || |fingerprints| == 0 {
        return Encoded(raw, NO_STATS);
      }
      var blocked := set f | f in fingerprints && f != "";
      EmptyNeverBlocks(digest, items, all, blocked);
      if blocked == {} {
        NothingSelected(digest, root, blocked);
        return Encoded(raw, NO_STATS);
      }
      var filtered, reasoning, compaction := KeepUnblocked(blocked);
      var stats := Stats(reasoning, compaction, false);
      if !stats.Changed() {
        return Encoded(raw, stats);
      }
      var input := codec.encodeInput(filtered);
      if input.None? {
        return EncodingFailed;
      }
      root := root[INPUT := input.value];
      var updated := codec.encodeRoot(root);
      if updated.None? {
        return EncodingFailed;
      }
      r := Encoded(updated.value, stats);
    }

    method KeepUnblocked(blocked: set<Digest>) returns (filtered: seq<Item>, reasoning: nat, compaction: nat)
      ensures filtered == Keep(items, Unblocked(digest, blocked))
      ensures reasoning == Count(items, IsBlocked(digest, blocked, Reasoning))
      ensures compaction == Count(items, IsBlocked(digest, blocked, Compaction))
    {
      filtered, reasoning, compaction := [], 0, 0;
      for i := 0 to |items|
        invariant filtered == Keep(items[..i], Unblocked(digest, blocked))
        invariant reasoning == Count(items[..i], IsBlocked(digest, blocked, Reasoning))
        invariant compaction == Count(items[..i], IsBlocked(digest, blocked, Compaction))
      {
        assert items[..i + 1][..i] == items[..i];
        var fingerprint := Fingerprint(digest, items[i]);
        if fingerprint.Some? && fingerprint.value in blocked {
          if DetectedKind(items[i]).Reasoning? {
            reasoning := reasoning + 1;
          } else {
            compaction := compaction + 1;
          }
        } else {
          filtered := filtered + [items[i]];
        }
      }
      assert items[..|items|] == items;
    }
  }

  /** No item has the empty fingerprint, so leaving it out of the blocked set changes nothing. */
  lemma EmptyNeverBlocks(digest: Digester, items: seq<Item>, all: set<Digest>, blocked: set<Digest>)
    requires NeverEmpty(digest) && blocked == all - {""}
    ensures Keep(items, Unblocked(digest, all)) == Keep(items, Unblocked(digest, blocked))
    ensures forall kind :: Count(items, IsBlocked(digest, all, kind)) == Count(items, IsBlocked(digest, blocked, kind))
  {
  }

  /** When nothing blocked is observed, the selective strip is the identity. */
  lemma NothingSelected(digest: Digester, root: Root, blocked: set<Digest>)
    ensures !SelectiveStats(digest, root, blocked).Changed() ==> Selected(digest, root, blocked) == root
    ensures blocked == {} || !IsArray(root) ==> SelectiveStats(digest, root, blocked) == NO_STATS
  {
    SelectiveStatsAreExact(digest, root, blocked);
    FingerprintsOfItems(digest, InputOf(root));
    if !SelectiveStats(digest, root, blocked).Changed() && IsArray(root) {
      forall item | item in InputOf(root)
        ensures Unblocked(digest, blocked)(item)
      {
        if Fingerprint(digest, item).Some? {
          assert Fingerprint(digest, item).value in SignalsOf(digest, root).items;
        }
      }
      KeepAll(InputOf(root), Unblocked(digest, blocked));
    }
  }
}
