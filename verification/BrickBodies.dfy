/** Definition Brick bodies, their schema checks and their normalization. */
module BrickBodies {
  import opened Options
  import opened Utf16Text
  import opened JsonValues

  datatype BrickKind = SysPrompt | Prompt | Backend | Toolset | RuntimeConfig

  datatype PromptBody = TextPrompt(text: Text) | CompositePrompt(parts: seq<PromptBody>)

  datatype ToolProvider = ToolProvider(providerId: Text, config: Json)

  datatype Body =
    | SysPromptBody(text: Text)
    | PromptBrickBody(prompt: PromptBody)
    | BackendBody(adapterId: Text, modelId: Text, config: Json)
    | ToolsetBody(providers: seq<ToolProvider>)
    | RuntimeConfigBody(rootId: Text, relativeDirectory: Text)

  // ---------------------------------------------------------------- schemas

  /** A schema string with `minLength: 1`, after the kernel's surrogate scan. */
  predicate ValidText(t: Text) {
    t != [] && PassesSurrogateScan(t)
  }

  predicate ValidPrompt(p: PromptBody)
    decreases p
  {
    match p
    case TextPrompt(t) => ValidText(t)
    case CompositePrompt(parts) => parts != [] && ValidParts(p, parts)
  }

  predicate ValidParts(parent: PromptBody, parts: seq<PromptBody>)
    requires forall i | 0 <= i < |parts| :: parts[i] < parent
    decreases parent, |parts|
  {
    parts == [] || (ValidPrompt(parts[0]) && ValidParts(parent, parts[1..]))
  }

  predicate ValidBody(body: Body) {
    match body
    case SysPromptBody(t) => ValidText(t)
    case PromptBrickBody(p) => ValidPrompt(p)
    case BackendBody(a, m, _) => ValidText(a) && ValidText(m)
    case ToolsetBody(ps) => forall i | 0 <= i < |ps| :: ValidText(ps[i].providerId)
    case RuntimeConfigBody(root, dir) => ValidText(root) && ValidText(dir)
  }

  predicate KindAccepts(kind: BrickKind, body: Body) {
    match kind
    case SysPrompt => body.SysPromptBody?
    case Prompt => body.PromptBrickBody?
    case Backend => body.BackendBody?
    case Toolset => body.ToolsetBody?
    case RuntimeConfig => body.RuntimeConfigBody?
  }

  // ---------------------------------------------------------------- normalization

  function NormalizePrompt(p: PromptBody): PromptBody
    decreases p
  {
    match p
    case TextPrompt(t) => TextPrompt(CanonicalizeText(t))
    case CompositePrompt(parts) => CompositePrompt(NormalizeParts(p, parts))
  }

  function NormalizeParts(parent: PromptBody, parts: seq<PromptBody>): (r: seq<PromptBody>)
    requires forall i | 0 <= i < |parts| :: parts[i] < parent
    ensures |r| == |parts|
    ensures forall i | 0 <= i < |parts| :: r[i] == NormalizePrompt(parts[i])
    decreases parent, |parts|
  {
    if parts == [] then [] else [NormalizePrompt(parts[0])] + NormalizeParts(parent, parts[1..])
  }

  function NormalizeBody(body: Body): Body {
    match body
    case PromptBrickBody(p) => PromptBrickBody(NormalizePrompt(p))
    case SysPromptBody(t) => SysPromptBody(CanonicalizeText(t))
    case _ => body
  }

  /** `canonicalDefinitionBrickBody`: the kind's own schema first, then normalization. */
  function CanonicalBody(kind: BrickKind, body: Body): Option<Body> {
    if KindAccepts(kind, body) && ValidBody(body) then Some(NormalizeBody(body)) else None
  }

  // ---------------------------------------------------------------- leaves and shape

  /** The text leaves in reading order. */
  function PromptLeaves(p: PromptBody): seq<Text>
    decreases p
  {
    match p
    case TextPrompt(t) => [t]
    case CompositePrompt(parts) => PartsLeaves(p, parts)
  }

  function PartsLeaves(parent: PromptBody, parts: seq<PromptBody>): seq<Text>
    requires forall i | 0 <= i < |parts| :: parts[i] < parent
    decreases parent, |parts|
  {
    if parts == [] then [] else PromptLeaves(parts[0]) + PartsLeaves(parent, parts[1..])
  }

  function Leaves(body: Body): seq<Text> {
    match body
    case SysPromptBody(t) => [t]
    case PromptBrickBody(p) => PromptLeaves(p)
    case _ => []
  }

  /** Same nesting and same number of parts everywhere; texts may differ. */
  predicate SameShape(p: PromptBody, q: PromptBody) {
    match (p, q)
    case (TextPrompt(_), TextPrompt(_)) => true
    case (CompositePrompt(ps), CompositePrompt(qs)) =>
      |ps| == |qs| && forall i | 0 <= i < |ps| :: SameShape(ps[i], qs[i])
    case _ => false
  }

  predicate AllLeaves(body: Body, good: Text -> bool) {
    forall i | 0 <= i < |Leaves(body)| :: good(Leaves(body)[i])
  }

  function CanonicalizeAll(ts: seq<Text>): (r: seq<Text>)
    ensures |r| == |ts| && forall i | 0 <= i < |ts| :: r[i] == CanonicalizeText(ts[i])
  {
    seq(|ts|, i requires 0 <= i < |ts| => CanonicalizeText(ts[i]))
  }

  /** Normalization keeps the tree and canonicalizes its leaves in place, in order. */
  lemma {:induction false} NormalizePromptMapsLeaves(p: PromptBody)
    ensures SameShape(p, NormalizePrompt(p))
    ensures PromptLeaves(NormalizePrompt(p)) == CanonicalizeAll(PromptLeaves(p))
    decreases p
  {
    match p
    case TextPrompt(t) =>
    case CompositePrompt(parts) =>
      NormalizePartsMapLeaves(p, parts, NormalizePrompt(p));
  }

  lemma {:induction false} NormalizePartsMapLeaves(parent: PromptBody, parts: seq<PromptBody>, image: PromptBody)
    requires forall i | 0 <= i < |parts| :: parts[i] < parent
    requires forall i | 0 <= i < |parts| :: NormalizeParts(parent, parts)[i] < image
    ensures forall i | 0 <= i < |parts| :: SameShape(parts[i], NormalizeParts(parent, parts)[i])
    ensures PartsLeaves(image, NormalizeParts(parent, parts)) == CanonicalizeAll(PartsLeaves(parent, parts))
    decreases parent, |parts|
  {
    if parts != [] {
      var all, rest := NormalizeParts(parent, parts), NormalizeParts(parent, parts[1..]);
      assert all[1..] == rest;
      forall i | 0 <= i < |rest| ensures rest[i] < image { assert rest[i] == all[i + 1]; }
      NormalizePromptMapsLeaves(parts[0]);
      NormalizePartsMapLeaves(parent, parts[1..], image);
      CanonicalizeAllConcat(PromptLeaves(parts[0]), PartsLeaves(parent, parts[1..]));
      forall i | 1 <= i < |parts| ensures SameShape(parts[i], all[i]) {
        assert parts[1..][i - 1] == parts[i] && rest[i - 1] == all[i];
      }
    }
  }

  lemma CanonicalizeAllConcat(a: seq<Text>, b: seq<Text>)
    ensures CanonicalizeAll(a + b) == CanonicalizeAll(a) + CanonicalizeAll(b)
  {
    forall i | 0 <= i < |a + b|
      ensures CanonicalizeAll(a + b)[i] == (CanonicalizeAll(a) + CanonicalizeAll(b))[i]
    {}
  }

  /** A tree is determined by its shape and its leaves. */
  lemma {:induction false} ShapeAndLeavesDetermine(p: PromptBody, q: PromptBody)
    requires SameShape(p, q) && PromptLeaves(p) == PromptLeaves(q)
    ensures p == q
    decreases p
  {
    match (p, q)
    case (TextPrompt(s), TextPrompt(t)) => assert PromptLeaves(p)[0] == PromptLeaves(q)[0];
    case (CompositePrompt(ps), CompositePrompt(qs)) => PartsDetermine(p, ps, q, qs);
  }

  lemma {:induction false} PartsDetermine(p: PromptBody, ps: seq<PromptBody>, q: PromptBody, qs: seq<PromptBody>)
    requires forall i | 0 <= i < |ps| :: ps[i] < p
    requires forall i | 0 <= i < |qs| :: qs[i] < q
    requires |ps| == |qs| && forall i | 0 <= i < |ps| :: SameShape(ps[i], qs[i])
    requires PartsLeaves(p, ps) == PartsLeaves(q, qs)
    ensures ps == qs
    decreases p, |ps|
  {
    if ps != [] {
      SameShapeSameCount(ps[0], qs[0]);
      var n := |PromptLeaves(ps[0])|;
      assert PartsLeaves(p, ps)[..n] == PromptLeaves(ps[0]) && PartsLeaves(q, qs)[..n] == PromptLeaves(qs[0]);
      assert PartsLeaves(p, ps)[n..] == PartsLeaves(p, ps[1..]) && PartsLeaves(q, qs)[n..] == PartsLeaves(q, qs[1..]);
      ShapeAndLeavesDetermine(ps[0], qs[0]);
      PartsDetermine(p, ps[1..], q, qs[1..]);
    }
  }

  lemma {:induction false} SameShapeSameCount(p: PromptBody, q: PromptBody)
    requires SameShape(p, q)
    ensures |PromptLeaves(p)| == |PromptLeaves(q)|
    decreases p
  {
    if p.CompositePrompt? {
      PartsSameCount(p, p.parts, q, q.parts);
    }
  }

  lemma {:induction false} PartsSameCount(p: PromptBody, ps: seq<PromptBody>, q: PromptBody, qs: seq<PromptBody>)
    requires forall i | 0 <= i < |ps| :: ps[i] < p
    requires forall i | 0 <= i < |qs| :: qs[i] < q
    requires |ps| == |qs| && forall i | 0 <= i < |ps| :: SameShape(ps[i], qs[i])
    ensures |PartsLeaves(p, ps)| == |PartsLeaves(q, qs)|
    decreases p, |ps|
  {
    if ps != [] {
      SameShapeSameCount(ps[0], qs[0]);
      PartsSameCount(p, ps[1..], q, qs[1..]);
    }
  }

  /** A body is its own normal form exactly when every leaf is its own canonical form. */
  lemma NormalBodyIff(body: Body)
    ensures NormalizeBody(body) == body <==> AllLeaves(body, IsCanonical)
  {
    match body
    case PromptBrickBody(p) =>
      NormalizePromptMapsLeaves(p);
      var leaves := PromptLeaves(p);
      if AllLeaves(body, IsCanonical) {
        assert forall i | 0 <= i < |leaves| :: CanonicalizeText(Leaves(body)[i]) == leaves[i];
        assert PromptLeaves(NormalizePrompt(p)) == leaves;
        ShapeAndLeavesDetermine(p, NormalizePrompt(p));
      } else {
        var i :| 0 <= i < |leaves| && CanonicalizeText(leaves[i]) != leaves[i];
        assert PromptLeaves(NormalizePrompt(p))[i] != leaves[i];
      }
    case SysPromptBody(t) =>
      assert Leaves(body)[0] == t;
    case _ =>
  }

  lemma NormalizedLeaves(body: Body)
    ensures Leaves(NormalizeBody(body)) == CanonicalizeAll(Leaves(body))
  {
    if body.PromptBrickBody? {
      NormalizePromptMapsLeaves(body.prompt);
    }
  }

  /** Normalizing again changes nothing exactly when no leaf of the first input led with two BOMs. */
  lemma RenormalizeIff(body: Body)
    ensures NormalizeBody(NormalizeBody(body)) == NormalizeBody(body)
            <==> AllLeaves(body, NotLedByTwoBoms)
  {
    var once := NormalizeBody(body);
    NormalBodyIff(once);
    NormalizedLeaves(body);
    forall i | 0 <= i < |Leaves(body)|
      ensures CanonicalizeText(Leaves(once)[i]) == Leaves(once)[i] <==> !StartsWithTwoBoms(Leaves(body)[i])
    {
      CanonicalTextIdempotentIff(Leaves(body)[i]);
    }
    if AllLeaves(body, NotLedByTwoBoms) {
      assert forall i | 0 <= i < |Leaves(once)| :: CanonicalizeText(Leaves(once)[i]) == Leaves(once)[i];
    } else {
      var i :| 0 <= i < |Leaves(body)| && StartsWithTwoBoms(Leaves(body)[i]);
      assert CanonicalizeText(Leaves(once)[i]) != Leaves(once)[i];
    }
  }

  /** For a normalized body the same test reads: no leaf of it starts with a BOM. */
  lemma NormalizedBodyFixedIff(body: Body)
    ensures NormalizeBody(NormalizeBody(body)) == NormalizeBody(body)
            <==> AllLeaves(NormalizeBody(body), NotLedByBom)
  {
    RenormalizeIff(body);
    NormalizedLeaves(body);
    forall i | 0 <= i < |Leaves(body)|
      ensures StartsWithBom(Leaves(NormalizeBody(body))[i]) <==> StartsWithTwoBoms(Leaves(body)[i])
    {
      CanonicalTextShape(Leaves(body)[i]);
    }
  }

  /** Normalizing a schema-valid body can only break the schema by emptying a leaf, which happens
      exactly to a leaf that is a lone BOM. */
  lemma NormalizedBodyValidIff(body: Body)
    requires ValidBody(body)
    ensures ValidBody(NormalizeBody(body)) <==> AllLeaves(body, NotLoneBom)
  {
    match body
    case SysPromptBody(t) =>
      ValidTextNormalizes(t);
      assert Leaves(body)[0] == t;
    case PromptBrickBody(p) =>
      NormalizedPromptValidIff(p);
      var leaves := PromptLeaves(p);
      forall t | t in leaves && AllLeaves(body, NotLoneBom) ensures NotLoneBom(t) {
        var i :| 0 <= i < |leaves| && leaves[i] == t;
        assert NotLoneBom(Leaves(body)[i]);
      }
    case _ =>
  }

  lemma ValidTextNormalizes(t: Text)
    requires ValidText(t)
    ensures ValidText(CanonicalizeText(t)) <==> NotLoneBom(t)
  {
    CanonicalTextPassesScan(t);
    CanonicalTextShape(t);
  }

  lemma {:induction false} NormalizedPromptValidIff(p: PromptBody)
    requires ValidPrompt(p)
    ensures ValidPrompt(NormalizePrompt(p)) <==> forall t | t in PromptLeaves(p) :: NotLoneBom(t)
    decreases p
  {
    match p
    case TextPrompt(t) => ValidTextNormalizes(t);
    case CompositePrompt(parts) => NormalizedPartsValidIff(p, parts, NormalizePrompt(p));
  }

  lemma {:induction false} NormalizedPartsValidIff(parent: PromptBody, parts: seq<PromptBody>, image: PromptBody)
    requires forall i | 0 <= i < |parts| :: parts[i] < parent
    requires forall i | 0 <= i < |parts| :: NormalizeParts(parent, parts)[i] < image
    requires ValidParts(parent, parts)
    ensures ValidParts(image, NormalizeParts(parent, parts)) <==> forall t | t in PartsLeaves(parent, parts) :: NotLoneBom(t)
    decreases parent, |parts|
  {
    if parts != [] {
      NormalizedPromptValidIff(parts[0]);
      var all, rest := NormalizeParts(parent, parts), NormalizeParts(parent, parts[1..]);
      assert all[1..] == rest;
      forall i | 0 <= i < |rest| ensures rest[i] < image { assert rest[i] == all[i + 1]; }
      NormalizedPartsValidIff(parent, parts[1..], image);
    }
  }
}
