/** Stored template revisions: what a view keeps of a candidate, and what is rebuilt from it. */
module TemplateRevisions {
  import opened Options
  import opened Utf16Text
  import opened BrickBodies
  import opened ProjectTables
  import opened ProjectService
  import opened IssuePaths
  import opened TemplateIssues
  import opened TemplateValidation
  import opened TemplateCandidates

  /** A reference with the revision uid and digest it was resolved to. */
  datatype Bound = Bound(ref: Ref, uid: Uid, digest: Digest)

  datatype ViewSpec = ViewSpec(
    systemPrompts: seq<Bound>, initialPrompts: seq<Bound>, backend: Bound, toolset: Bound, runtimeConfig: Bound)

  /** `ActorTemplateRevisionView` */
  datatype View = View(
    templateUid: Uid, templateId: int, project: ProjectId, revision: int, revisionDigest: Digest, configDigest: Digest,
    metadata: Metadata, spec: ViewSpec, status: Status, createdAt: Timestamp)

  datatype ConfigMaterial = ConfigMaterial(
    systemPrompts: seq<Text>, initialPrompts: seq<PromptBody>, backend: Body, providers: seq<ToolProvider>, workingDirectory: Text)

  /** Canonical JSON and SHA-256 of the two kinds of digest material. */
  datatype TemplateDigests = TemplateDigests(template: (Metadata, Spec) -> Digest, config: ConfigMaterial -> Digest)

  function NormalizeAll(ps: seq<PromptBody>): (r: seq<PromptBody>)
    ensures |r| == |ps| && forall i | 0 <= i < |ps| :: r[i] == NormalizePrompt(ps[i])
  {
    seq(|ps|, i requires 0 <= i < |ps| => NormalizePrompt(ps[i]))
  }

  /** `buildConfigurationDigestMaterial` */
  function BuildMaterial(m: ConfigMaterial): ConfigMaterial {
    m.(systemPrompts := CanonicalizeAll(m.systemPrompts), initialPrompts := NormalizeAll(m.initialPrompts))
  }

  function ComputeConfigDigest(d: TemplateDigests, m: ConfigMaterial): Digest {
    d.config(BuildMaterial(m))
  }

  // ---------------------------------------------------------------- from a candidate to a view

  /** The bodies of a candidate all decode as their slots ask. */
  predicate BodiesDecode(c: Candidate) {
    && (forall i | 0 <= i < |c.systemPrompts| :: IsSystemBody(c.systemPrompts[i].revision.body))
    && (forall i | 0 <= i < |c.initialPrompts| :: IsPromptBody(c.initialPrompts[i].revision.body))
    && IsBackendBody(c.backend.revision.body) && IsToolsetBody(c.toolset.revision.body) && IsRuntimeBody(c.runtimeConfig.revision.body)
  }

  function SystemTexts(c: Candidate): (r: seq<Text>)
    requires BodiesDecode(c)
    ensures |r| == |c.systemPrompts| && forall i | 0 <= i < |r| :: r[i] == c.systemPrompts[i].revision.body.text
  {
    seq(|c.systemPrompts|, i requires 0 <= i < |c.systemPrompts| => c.systemPrompts[i].revision.body.text)
  }

  function InitialBodies(c: Candidate): (r: seq<PromptBody>)
    requires BodiesDecode(c)
    ensures |r| == |c.initialPrompts| && forall i | 0 <= i < |r| :: r[i] == c.initialPrompts[i].revision.body.prompt
  {
    seq(|c.initialPrompts|, i requires 0 <= i < |c.initialPrompts| => c.initialPrompts[i].revision.body.prompt)
  }

  /** `configurationDigestFor` */
  function ConfigurationDigestFor(d: TemplateDigests, c: Candidate): Option<Digest> {
    if !BodiesDecode(c) then None
    else Some(ComputeConfigDigest(d, ConfigMaterial(
           SystemTexts(c), InitialBodies(c), c.backend.revision.body, c.toolset.revision.body.providers, c.workingDirectory)))
  }

  function BoundEntry(e: Resolved): Bound {
    Bound(e.authored, e.revision.revisionUid, e.revision.digest)
  }

  function BoundEntries(es: seq<Resolved>): (r: seq<Bound>)
    ensures |r| == |es| && forall i | 0 <= i < |es| :: r[i] == BoundEntry(es[i])
  {
    seq(|es|, i requires 0 <= i < |es| => BoundEntry(es[i]))
  }

  /** `revisionView` */
  function RevisionView(d: TemplateDigests, templateUid: Uid, templateId: int, metadata: Metadata, spec: Spec, c: Candidate,
                        revision: int, createdAt: Timestamp): Option<View> {
    match ConfigurationDigestFor(d, c)
    case None => None
    case Some(config) =>
      Some(View(templateUid, templateId, c.project, revision, d.template(metadata, spec), config, metadata,
                ViewSpec(BoundEntries(c.systemPrompts), BoundEntries(c.initialPrompts),
                         BoundEntry(c.backend), BoundEntry(c.toolset), BoundEntry(c.runtimeConfig)),
                Active, createdAt))
  }

  // ---------------------------------------------------------------- back from a view

  function Refs(bs: seq<Bound>): (r: seq<Ref>)
    ensures |r| == |bs| && forall i | 0 <= i < |bs| :: r[i] == bs[i].ref
  {
    seq(|bs|, i requires 0 <= i < |bs| => bs[i].ref)
  }

  /** `authoredSpecFromRevision` */
  function AuthoredSpec(v: View): Spec {
    Spec(Refs(v.spec.systemPrompts), Refs(v.spec.initialPrompts), v.spec.backend.ref, v.spec.toolset.ref, v.spec.runtimeConfig.ref)
  }

  /** `templateRevisionDigestMatches` */
  predicate RevisionDigestMatches(d: TemplateDigests, v: View) {
    d.template(v.metadata, AuthoredSpec(v)) == v.revisionDigest
  }

  /** Rebuilding the authored spec from a stored view gives back the original spec, so the stored
      template digest always matches. */
  lemma AuthoredSpecRoundTrips(d: TemplateDigests, ports: Ports, uid: Uid, id: int, metadata: Metadata, spec: Spec, c: Candidate,
                               revision: int, createdAt: Timestamp, project: ProjectId)
    requires CandidateFits(ports, project, spec, c)
    requires RevisionView(d, uid, id, metadata, spec, c, revision, createdAt).Some?
    ensures var v := RevisionView(d, uid, id, metadata, spec, c, revision, createdAt).value;
            AuthoredSpec(v) == spec && RevisionDigestMatches(d, v)
  {
    var v := RevisionView(d, uid, id, metadata, spec, c, revision, createdAt).value;
    assert Refs(v.spec.systemPrompts) == spec.systemPrompts;
    assert Refs(v.spec.initialPrompts) == spec.initialPrompts;
  }

  // ---------------------------------------------------------------- persisted provenance

  function ProvenanceOf(v: View, b: Bound, kind: BrickKind): Provenance {
    Provenance(v.project, b.ref.brick, b.ref.number, kind, b.uid, b.digest)
  }

  datatype Keyed = Keyed(path: Text, provenance: Provenance)

  function SystemProvenance(v: View): (r: seq<Keyed>)
    ensures |r| == |v.spec.systemPrompts|
    ensures forall i | 0 <= i < |r| :: r[i] == Keyed(SystemPath(i), ProvenanceOf(v, v.spec.systemPrompts[i], SysPrompt))
  {
    seq(|v.spec.systemPrompts|, i requires 0 <= i < |v.spec.systemPrompts| =>
      Keyed(SystemPath(i), ProvenanceOf(v, v.spec.systemPrompts[i], SysPrompt)))
  }

  function InitialProvenance(v: View): (r: seq<Keyed>)
    ensures |r| == |v.spec.initialPrompts|
    ensures forall i | 0 <= i < |r| :: r[i] == Keyed(InitialPath(i), ProvenanceOf(v, v.spec.initialPrompts[i], Prompt))
  {
    seq(|v.spec.initialPrompts|, i requires 0 <= i < |v.spec.initialPrompts| =>
      Keyed(InitialPath(i), ProvenanceOf(v, v.spec.initialPrompts[i], Prompt)))
  }

  function SingleProvenance(v: View): seq<Keyed> {
    [Keyed(BackendPath(), ProvenanceOf(v, v.spec.backend, Backend)),
     Keyed(ToolsetPath(), ProvenanceOf(v, v.spec.toolset, Toolset)),
     Keyed(RuntimePath(), ProvenanceOf(v, v.spec.runtimeConfig, RuntimeConfig))]
  }

  /** The calls of `add`, in order. */
  function ProvenanceList(v: View): seq<Keyed> {
    SystemProvenance(v) + InitialProvenance(v) + SingleProvenance(v)
  }

  function MapOf(ks: seq<Keyed>): map<Text, Provenance> {
    if ks == [] then map[] else MapOf(ks[..|ks| - 1])[ks[|ks| - 1].path := ks[|ks| - 1].provenance]
  }

  lemma MapOfSnoc(ks: seq<Keyed>, k: Keyed)
    ensures MapOf(ks + [k]) == MapOf(ks)[k.path := k.provenance]
  {
    assert (ks + [k])[..|ks|] == ks;
  }

  method AddAll(provenance: map<Text, Provenance>, ks: seq<Keyed>, ghost before: seq<Keyed>) returns (r: map<Text, Provenance>)
    requires provenance == MapOf(before)
    ensures r == MapOf(before + ks)
  {
    r := provenance;
    assert before + ks[..0] == before;
    for i := 0 to |ks|
      invariant r == MapOf(before + ks[..i])
    {
      MapOfSnoc(before + ks[..i], ks[i]);
      assert before + ks[..i + 1] == (before + ks[..i]) + [ks[i]];
      r := r[ks[i].path := ks[i].provenance];
    }
    assert ks[..|ks|] == ks;
  }

  lemma EmptyInFront<T>(a: seq<T>, b: seq<T>, c: seq<T>)
    ensures [] + a + b + c == a + b + c
  {
    assert [] + a == a;
  }

  /** `persistedProvenanceFromRevision` */
  method PersistedProvenance(v: View) returns (provenance: map<Text, Provenance>)
    ensures provenance == MapOf(ProvenanceList(v))
  {
    provenance := AddAll(map[], SystemProvenance(v), []);
    provenance := AddAll(provenance, InitialProvenance(v), [] + SystemProvenance(v));
    provenance := AddAll(provenance, SingleProvenance(v), [] + SystemProvenance(v) + InitialProvenance(v));
    EmptyInFront(SystemProvenance(v), InitialProvenance(v), SingleProvenance(v));
  }

  /** A persisted entry sits where its descriptor does, and names what its descriptor names. */
  ghost predicate PersistedAs(k: Keyed, d: Descriptor, project: ProjectId) {
    && k.path == d.path && k.provenance.kind == d.expectedKind && k.provenance.project == project
    && k.provenance.brick == d.ref.brick && k.provenance.number == d.ref.number
  }

  lemma SystemPathsMatch(v: View, i: nat)
    requires i < |SystemProvenance(v)|
    ensures i < |SystemDescriptors(AuthoredSpec(v).systemPrompts)|
    ensures PersistedAs(SystemProvenance(v)[i], SystemDescriptors(AuthoredSpec(v).systemPrompts)[i], v.project)
  {}

  lemma InitialPathsMatch(v: View, i: nat)
    requires i < |InitialProvenance(v)|
    ensures i < |InitialDescriptors(AuthoredSpec(v).initialPrompts)|
    ensures PersistedAs(InitialProvenance(v)[i], InitialDescriptors(AuthoredSpec(v).initialPrompts)[i], v.project)
  {}

  lemma PathMatches(v: View, i: nat)
    requires i < |ProvenanceList(v)|
    ensures i < |Descriptors(AuthoredSpec(v))| && PersistedAs(ProvenanceList(v)[i], Descriptors(AuthoredSpec(v))[i], v.project)
  {
    var spec := AuthoredSpec(v);
    var m, n := |SystemProvenance(v)|, |InitialProvenance(v)|;
    PartOfThree(SystemProvenance(v), InitialProvenance(v), SingleProvenance(v), i);
    PartOfThree(SystemDescriptors(spec.systemPrompts), InitialDescriptors(spec.initialPrompts), SingleDescriptors(spec), i);
    if i < m { SystemPathsMatch(v, i); }
    else if i < m + n { InitialPathsMatch(v, i - m); }
    else { SinglePathsMatch(v, i - m - n); }
  }

  lemma SinglePathsMatch(v: View, i: nat)
    requires i < |SingleProvenance(v)|
    ensures i < |SingleDescriptors(AuthoredSpec(v))| && PersistedAs(SingleProvenance(v)[i], SingleDescriptors(AuthoredSpec(v))[i], v.project)
  {}

  /** The persisted paths are those of the descriptors, one for one. */
  lemma ProvenancePathsAreDescriptorPaths(v: View)
    ensures |ProvenanceList(v)| == |Descriptors(AuthoredSpec(v))|
    ensures forall i | 0 <= i < |ProvenanceList(v)| :: PersistedAs(ProvenanceList(v)[i], Descriptors(AuthoredSpec(v))[i], v.project)
  {
    forall i | 0 <= i < |ProvenanceList(v)| ensures PersistedAs(ProvenanceList(v)[i], Descriptors(AuthoredSpec(v))[i], v.project) {
      PathMatches(v, i);
    }
  }

  // ---------------------------------------------------------------- looking provenance up by path

  /** The second code unit of a reference path tells its slot. */
  function Initial(slot: Slot): CodeUnit {
    match slot
    case SystemSlot => 's' as int as CodeUnit
    case InitialSlot => 'i' as int as CodeUnit
    case BackendSlot => 'b' as int as CodeUnit
    case ToolsetSlot => 't' as int as CodeUnit
    case RuntimeSlot => 'r' as int as CodeUnit
  }

  lemma PromptPathStarts(n: nat)
    ensures |SystemPath(n)| > 1 && SystemPath(n)[1] == Initial(SystemSlot)
    ensures |InitialPath(n)| > 1 && InitialPath(n)[1] == Initial(InitialSlot)
  {}

  lemma SinglePathStarts()
    ensures |BackendPath()| > 1 && BackendPath()[1] == Initial(BackendSlot)
    ensures |ToolsetPath()| > 1 && ToolsetPath()[1] == Initial(ToolsetSlot)
    ensures |RuntimePath()| > 1 && RuntimePath()[1] == Initial(RuntimeSlot)
  {}

  /** Where descriptor `i` of a spec with `m` system and `n` initial prompts has its path. */
  ghost predicate PathAt(d: Descriptor, i: nat, m: nat, n: nat) {
    && |d.path| > 1 && d.path[1] == Initial(d.slot)
    && (d.slot == SystemSlot ==> d.path == SystemPath(i))
    && (d.slot == InitialSlot ==> i >= m && d.path == InitialPath(i - m))
    && (IsPromptSlot(d.slot) || i == m + n + SingleIndex(d.slot))
  }

  lemma DescriptorPathStarts(spec: Spec, i: nat)
    requires i < |Descriptors(spec)|
    ensures PathAt(Descriptors(spec)[i], i, |spec.systemPrompts|, |spec.initialPrompts|)
  {
    PromptPathStarts(i);
    if i >= |spec.systemPrompts| { PromptPathStarts(i - |spec.systemPrompts|); }
    SinglePathStarts();
  }

  function SingleIndex(slot: Slot): nat {
    if slot == ToolsetSlot then 1 else if slot == RuntimeSlot then 2 else 0
  }

  lemma PromptPathsDiffer(m: nat, n: nat)
    ensures SystemPath(m) == SystemPath(n) ==> m == n
    ensures InitialPath(m) == InitialPath(n) ==> m == n
  {
    if SystemPath(m) == SystemPath(n) { NumberedPathsDiffer(Ascii("/system_prompt/bricks/"), Ascii("/ref"), m, n); }
    if InitialPath(m) == InitialPath(n) { NumberedPathsDiffer(Ascii("/initial_prompt/bricks/"), Ascii("/ref"), m, n); }
  }

  /** No two descriptors of a spec share a path. */
  lemma DescriptorPathsDiffer(spec: Spec, ds: seq<Descriptor>, i: nat, j: nat)
    requires ds == Descriptors(spec) && i < |ds| && j < |ds| && ds[i].path == ds[j].path
    ensures i == j
  {
    DescriptorPathStarts(spec, i);
    DescriptorPathStarts(spec, j);
    assert PathAt(ds[i], i, |spec.systemPrompts|, |spec.initialPrompts|) && PathAt(ds[j], j, |spec.systemPrompts|, |spec.initialPrompts|);
    SamePathSameIndex(ds[i], ds[j], i, j, |spec.systemPrompts|, |spec.initialPrompts|);
  }

  lemma SamePathSameIndex(d: Descriptor, e: Descriptor, i: nat, j: nat, m: nat, n: nat)
    requires d.path == e.path && PathAt(d, i, m, n) && PathAt(e, j, m, n)
    ensures i == j
  {
    assert d.slot == e.slot;
    if d.slot == SystemSlot { PromptPathsDiffer(i, j); }
    if d.slot == InitialSlot { PromptPathsDiffer(i - m, j - m); }
  }

  lemma {:induction false} MapOfDistinct(ks: seq<Keyed>, i: nat)
    requires i < |ks| && forall j, k | 0 <= j < k < |ks| :: ks[j].path != ks[k].path
    ensures ks[i].path in MapOf(ks) && MapOf(ks)[ks[i].path] == ks[i].provenance
  {
    if i < |ks| - 1 { MapOfDistinct(ks[..|ks| - 1], i); }
  }

  /** Under a descriptor's path, the persisted provenance holds that descriptor's binding. */
  lemma ProvenanceAtDescriptor(v: View, i: nat)
    requires i < |ProvenanceList(v)|
    ensures |ProvenanceList(v)| == |Descriptors(AuthoredSpec(v))|
    ensures var path := Descriptors(AuthoredSpec(v))[i].path;
            path in MapOf(ProvenanceList(v)) && MapOf(ProvenanceList(v))[path] == ProvenanceList(v)[i].provenance
  {
    ProvenancePathsAreDescriptorPaths(v);
    var ks := ProvenanceList(v);
    forall j, k | 0 <= j < k < |ks| ensures ks[j].path != ks[k].path {
      if ks[j].path == ks[k].path { DescriptorPathsDiffer(AuthoredSpec(v), Descriptors(AuthoredSpec(v)), j, k); }
    }
    MapOfDistinct(ks, i);
  }
}
