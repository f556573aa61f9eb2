/** `compileActorTemplate`: a resolved candidate becomes a configuration snapshot. */
module TemplateCompiler {
  import opened Options
  import opened Utf16Text
  import opened BrickBodies
  import opened ProjectTables
  import opened ProjectService
  import opened TemplateValidation
  import opened TemplateCandidates
  import opened TemplateRevisions

  datatype SourceTemplate = SourceTemplate(templateUid: Uid, templateId: int, revision: int, revisionDigest: Digest)

  datatype SourceBrick = SourceBrick(slot: BrickKind, order: Option<nat>, revisionUid: Uid, digest: Digest)

  datatype Snapshot = Snapshot(
    snapshotId: Uid, project: ProjectId, source: SourceTemplate, configDigest: Digest, createdAt: Timestamp,
    sourceBricks: seq<SourceBrick>, resolved: ConfigMaterial)

  /** The provided snapshot id and time, and whether they and the template's identity satisfy the schemas. */
  datatype CompileEnv = CompileEnv(snapshotId: Uid, createdAt: Timestamp, wellFormed: bool)

  // ---------------------------------------------------------------- prompts

  /** `normalizedPrompt`, which decodes every part again on the way down. */
  function NormalizedPrompt(p: PromptBody): Option<PromptBody>
    decreases p
  {
    if !ValidPrompt(p) then None
    else match p
         case TextPrompt(t) => Some(TextPrompt(CanonicalizeText(t)))
         case CompositePrompt(parts) =>
           match NormalizedParts(p, parts)
           case None => None
           case Some(normalized) => Some(CompositePrompt(normalized))
  }

  function NormalizedParts(parent: PromptBody, parts: seq<PromptBody>): Option<seq<PromptBody>>
    requires forall i | 0 <= i < |parts| :: parts[i] < parent
    decreases parent, |parts|
  {
    if parts == [] then Some([])
    else match (NormalizedPrompt(parts[0]), NormalizedParts(parent, parts[1..]))
         case (Some(first), Some(rest)) => Some([first] + rest)
         case _ => None
  }

  /** Decoding the parts again changes nothing: a prompt that decodes is normalized as a whole. */
  lemma {:induction false} NormalizedPromptIff(p: PromptBody)
    ensures NormalizedPrompt(p) == if ValidPrompt(p) then Some(NormalizePrompt(p)) else None
    decreases p
  {
    if ValidPrompt(p) && p.CompositePrompt? { NormalizedPartsIff(p, p.parts); }
  }

  lemma {:induction false} NormalizedPartsIff(parent: PromptBody, parts: seq<PromptBody>)
    requires forall i | 0 <= i < |parts| :: parts[i] < parent
    requires ValidParts(parent, parts)
    ensures NormalizedParts(parent, parts) == Some(NormalizeParts(parent, parts))
    decreases parent, |parts|
  {
    if parts != [] {
      NormalizedPromptIff(parts[0]);
      NormalizedPartsIff(parent, parts[1..]);
    }
  }

  // ---------------------------------------------------------------- consistency

  /** `validRevision` */
  predicate RevisionConsistent(h: DigestFunction, project: ProjectId, e: Resolved, kind: BrickKind) {
    && e.authored.number >= 1
    && e.authored.brick == e.revision.brick && e.authored.number == e.revision.revision
    && e.revision.project == project && e.revision.kind == kind
    && ValidRevision(e.revision)
    && ComputeDigest(h, e.revision.kind, e.revision.body) == e.revision.digest
  }

  /** `inputIsConsistent` */
  predicate InputConsistent(h: DigestFunction, c: Candidate, env: CompileEnv) {
    && env.wellFormed && c.workingDirectory != []
    && RevisionConsistent(h, c.project, c.backend, Backend)
    && RevisionConsistent(h, c.project, c.toolset, Toolset)
    && RevisionConsistent(h, c.project, c.runtimeConfig, RuntimeConfig)
    && (forall i | 0 <= i < |c.systemPrompts| :: RevisionConsistent(h, c.project, c.systemPrompts[i], SysPrompt))
    && (forall i | 0 <= i < |c.initialPrompts| :: RevisionConsistent(h, c.project, c.initialPrompts[i], Prompt))
  }

  predicate ProviderIdsDiffer(ps: seq<ToolProvider>) {
    forall i, j | 0 <= i < j < |ps| :: ps[i].providerId != ps[j].providerId
  }

  /** `ActorConfigSnapshotSchema` on what the compiler put together. */
  predicate ValidMaterial(m: ConfigMaterial) {
    && (forall i | 0 <= i < |m.systemPrompts| :: ValidText(m.systemPrompts[i]))
    && (forall i | 0 <= i < |m.initialPrompts| :: ValidPrompt(m.initialPrompts[i]))
    && IsBackendBody(m.backend) && IsToolsetBody(ToolsetBody(m.providers)) && ValidText(m.workingDirectory)
  }

  function OrderedBricks(bs: seq<Bound>, slot: BrickKind): (r: seq<SourceBrick>)
    ensures |r| == |bs| && forall i | 0 <= i < |bs| :: r[i] == SourceBrick(slot, Some(i), bs[i].uid, bs[i].digest)
  {
    seq(|bs|, i requires 0 <= i < |bs| => SourceBrick(slot, Some(i), bs[i].uid, bs[i].digest))
  }

  /** The ordered brick provenance of a spec's bindings. */
  function SourceBricks(s: ViewSpec): seq<SourceBrick> {
    OrderedBricks(s.systemPrompts, SysPrompt) + OrderedBricks(s.initialPrompts, Prompt)
    + [SourceBrick(Backend, None, s.backend.uid, s.backend.digest),
       SourceBrick(Toolset, None, s.toolset.uid, s.toolset.digest),
       SourceBrick(RuntimeConfig, None, s.runtimeConfig.uid, s.runtimeConfig.digest)]
  }

  function BoundSpec(c: Candidate): ViewSpec {
    ViewSpec(BoundEntries(c.systemPrompts), BoundEntries(c.initialPrompts), BoundEntry(c.backend), BoundEntry(c.toolset), BoundEntry(c.runtimeConfig))
  }

  function NormalizedInitial(c: Candidate): (r: seq<Option<PromptBody>>)
    requires BodiesDecode(c)
    ensures |r| == |c.initialPrompts|
    ensures forall i | 0 <= i < |r| :: r[i] == NormalizedPrompt(InitialBodies(c)[i])
  {
    seq(|c.initialPrompts|, i requires 0 <= i < |c.initialPrompts| => NormalizedPrompt(InitialBodies(c)[i]))
  }

  function Values(os: seq<Option<PromptBody>>): (r: seq<PromptBody>)
    requires forall i | 0 <= i < |os| :: os[i].Some?
    ensures |r| == |os| && forall i | 0 <= i < |os| :: r[i] == os[i].value
  {
    seq(|os|, i requires 0 <= i < |os| => os[i].value)
  }

  /** `compileActorTemplate`; None is its one failure. */
  function Compile(h: DigestFunction, d: TemplateDigests, source: SourceTemplate, c: Candidate, env: CompileEnv): Option<Snapshot> {
    if !InputConsistent(h, c, env) || !BodiesDecode(c) then None
    else
      var initial := NormalizedInitial(c);
      var providers := c.toolset.revision.body.providers;
      if (exists i | 0 <= i < |initial| :: initial[i].None?) || !ProviderIdsDiffer(providers) then None
      else
        var material := ConfigMaterial(CanonicalizeAll(SystemTexts(c)), Values(initial), c.backend.revision.body, providers, c.workingDirectory);
        if !ValidMaterial(material) then None
        else Some(Snapshot(env.snapshotId, c.project, source, ComputeConfigDigest(d, material), env.createdAt,
                           SourceBricks(BoundSpec(c)), material))
  }

  // ---------------------------------------------------------------- the two digest paths agree

  /** No prompt text of the candidate starts with a BOM, as the store guarantees for what it reads. */
  predicate NoPromptStartsWithBom(c: Candidate) {
    && (forall i | 0 <= i < |c.systemPrompts| :: AllLeaves(c.systemPrompts[i].revision.body, NotLedByBom))
    && (forall i | 0 <= i < |c.initialPrompts| :: AllLeaves(c.initialPrompts[i].revision.body, NotLedByBom))
  }

  lemma LeafTwiceIsOnce(b: Body)
    requires AllLeaves(b, NotLedByBom)
    ensures NormalizeBody(NormalizeBody(b)) == NormalizeBody(b)
  {
    forall i | 0 <= i < |Leaves(b)| ensures NotLedByTwoBoms(Leaves(b)[i]) {
      assert NotLedByBom(Leaves(b)[i]);
    }
    RenormalizeIff(b);
  }

  /** The compiler's normalized prompts, as plain maps. */
  lemma NormalizedInitialAre(c: Candidate)
    requires BodiesDecode(c)
    ensures forall i | 0 <= i < |NormalizedInitial(c)| :: NormalizedInitial(c)[i] == Some(NormalizePrompt(InitialBodies(c)[i]))
  {
    forall i | 0 <= i < |c.initialPrompts| ensures NormalizedInitial(c)[i] == Some(NormalizePrompt(InitialBodies(c)[i])) {
      NormalizedPromptIff(InitialBodies(c)[i]);
    }
  }

  /** Normalizing the compiler's material once more changes nothing. */
  lemma MaterialIsNormal(c: Candidate, m: ConfigMaterial)
    requires BodiesDecode(c) && NoPromptStartsWithBom(c)
    requires m.systemPrompts == CanonicalizeAll(SystemTexts(c)) && m.initialPrompts == NormalizeAll(InitialBodies(c))
    ensures BuildMaterial(m) == m
  {
    forall i | 0 <= i < |m.systemPrompts| ensures CanonicalizeText(m.systemPrompts[i]) == m.systemPrompts[i] {
      LeafTwiceIsOnce(c.systemPrompts[i].revision.body);
    }
    forall i | 0 <= i < |m.initialPrompts| ensures NormalizePrompt(m.initialPrompts[i]) == m.initialPrompts[i] {
      LeafTwiceIsOnce(c.initialPrompts[i].revision.body);
    }
  }

  /** The digest a compilation computes from normalized bodies is the one creation computed from the
      stored bodies. */
  lemma CompileAgreesWithView(h: DigestFunction, d: TemplateDigests, source: SourceTemplate, c: Candidate, env: CompileEnv)
    requires Compile(h, d, source, c, env).Some? && NoPromptStartsWithBom(c)
    ensures ConfigurationDigestFor(d, c) == Some(Compile(h, d, source, c, env).value.configDigest)
  {
    NormalizedInitialAre(c);
    var m := Compile(h, d, source, c, env).value.resolved;
    assert m.initialPrompts == NormalizeAll(InitialBodies(c));
    MaterialIsNormal(c, m);
    var raw := ConfigMaterial(SystemTexts(c), InitialBodies(c), c.backend.revision.body, c.toolset.revision.body.providers, c.workingDirectory);
    assert BuildMaterial(raw) == m;
  }

  /** A body that decodes and whose texts do not start with a BOM still decodes once normalized. */
  lemma NormalizedStillValid(b: Body)
    requires ValidBody(b) && AllLeaves(b, NotLedByBom)
    ensures ValidBody(NormalizeBody(b))
  {
    forall i | 0 <= i < |Leaves(b)| ensures NotLoneBom(Leaves(b)[i]) {
      assert NotLedByBom(Leaves(b)[i]);
    }
    NormalizedBodyValidIff(b);
  }

  /** When compiling succeeds. */
  lemma CompilesWhen(h: DigestFunction, d: TemplateDigests, source: SourceTemplate, c: Candidate, env: CompileEnv)
    requires InputConsistent(h, c, env) && BodiesDecode(c) && NoPromptStartsWithBom(c)
    requires ProviderIdsDiffer(c.toolset.revision.body.providers) && ValidText(c.workingDirectory)
    ensures Compile(h, d, source, c, env).Some?
  {
    NormalizedInitialAre(c);
    var m := ConfigMaterial(CanonicalizeAll(SystemTexts(c)), Values(NormalizedInitial(c)), c.backend.revision.body,
                            c.toolset.revision.body.providers, c.workingDirectory);
    forall i | 0 <= i < |m.systemPrompts| ensures ValidText(m.systemPrompts[i]) {
      NormalizedStillValid(c.systemPrompts[i].revision.body);
    }
    forall i | 0 <= i < |m.initialPrompts| ensures ValidPrompt(m.initialPrompts[i]) {
      NormalizedStillValid(c.initialPrompts[i].revision.body);
    }
    assert c.toolset.revision.body == ToolsetBody(m.providers);
  }
}
