/** Resolution and validation of an Actor template candidate. */
module TemplateValidation {
  import opened Options
  import opened Utf16Text
  import opened BrickBodies
  import opened ProjectTables
  import opened ProjectService
  import opened IssuePaths
  import opened TemplateIssues

  type Metadata = int

  /** `ExactBrickRef` */
  datatype Ref = Ref(brick: BrickId, number: int)

  datatype Spec = Spec(systemPrompts: seq<Ref>, initialPrompts: seq<Ref>, backend: Ref, toolset: Ref, runtimeConfig: Ref)

  datatype Slot = SystemSlot | InitialSlot | BackendSlot | ToolsetSlot | RuntimeSlot

  datatype Descriptor = Descriptor(slot: Slot, path: Text, expectedKind: BrickKind, ref: Ref)

  /** A reference and the revision it resolved to. */
  datatype Resolved = Resolved(authored: Ref, revision: Revision)

  datatype Candidate = Candidate(
    project: ProjectId, systemPrompts: seq<Resolved>, initialPrompts: seq<Resolved>,
    backend: Resolved, toolset: Resolved, runtimeConfig: Resolved, workingDirectory: Text)

  datatype Provenance = Provenance(project: ProjectId, brick: BrickId, number: int, kind: BrickKind, revisionUid: Uid, digest: Digest)

  datatype Resolution = FoundRevision(revision: Revision) | AbsentRevision | ResolverFails

  datatype Workspace = WorkspaceAt(directory: Text) | RootNotFound | PathEscape

  /** The ports of one validation. `resolve(i, ..)` answers its i-th read: each read is awaited on its own
      and sees the store as it is by then. The validators are deterministic; a registry answers with the
      number of findings, or None when it knows no validator. */
  datatype Ports = Ports(
    digest: DigestFunction,
    resolve: (nat, ProjectId, Ref) -> Resolution,
    backendFindings: Body -> Option<nat>,
    providerFindings: ToolProvider -> Option<nat>,
    compatibilityFindings: (Body, Body) -> nat,
    workspace: (ProjectId, Text, Text) -> Workspace)

  // ---------------------------------------------------------------- reference paths

  function SystemPath(n: nat): Text { Ascii("/system_prompt/bricks/") + Decimal(n) + Ascii("/ref") }
  function InitialPath(n: nat): Text { Ascii("/initial_prompt/bricks/") + Decimal(n) + Ascii("/ref") }
  function BackendPath(): Text { Ascii("/backend/ref") }
  function ToolsetPath(): Text { Ascii("/toolset/ref") }
  function RuntimePath(): Text { Ascii("/runtime_config/ref") }

  lemma NumberedPathsDiffer(prefix: Text, suffix: Text, m: nat, n: nat)
    requires prefix + Decimal(m) + suffix == prefix + Decimal(n) + suffix
    ensures m == n
  {
    var a, b := prefix + Decimal(m) + suffix, prefix + Decimal(n) + suffix;
    assert Decimal(m) == a[|prefix|..|a| - |suffix|];
    assert Decimal(n) == b[|prefix|..|b| - |suffix|];
    DecimalIsInjective(m, n);
  }

  // ---------------------------------------------------------------- descriptors

  function SystemDescriptors(refs: seq<Ref>): (r: seq<Descriptor>)
    ensures |r| == |refs| && forall i | 0 <= i < |refs| :: r[i] == Descriptor(SystemSlot, SystemPath(i), SysPrompt, refs[i])
  {
    seq(|refs|, i requires 0 <= i < |refs| => Descriptor(SystemSlot, SystemPath(i), SysPrompt, refs[i]))
  }

  function InitialDescriptors(refs: seq<Ref>): (r: seq<Descriptor>)
    ensures |r| == |refs| && forall i | 0 <= i < |refs| :: r[i] == Descriptor(InitialSlot, InitialPath(i), Prompt, refs[i])
  {
    seq(|refs|, i requires 0 <= i < |refs| => Descriptor(InitialSlot, InitialPath(i), Prompt, refs[i]))
  }

  function SingleDescriptors(spec: Spec): seq<Descriptor> {
    [Descriptor(BackendSlot, BackendPath(), Backend, spec.backend),
     Descriptor(ToolsetSlot, ToolsetPath(), Toolset, spec.toolset),
     Descriptor(RuntimeSlot, RuntimePath(), RuntimeConfig, spec.runtimeConfig)]
  }

  function Descriptors(spec: Spec): seq<Descriptor> {
    SystemDescriptors(spec.systemPrompts) + InitialDescriptors(spec.initialPrompts) + SingleDescriptors(spec)
  }

  /** Where an index of three lists in a row lands. */
  lemma PartOfThree<T>(a: seq<T>, b: seq<T>, c: seq<T>, i: nat)
    requires i < |a| + |b| + |c|
    ensures (a + b + c)[i] == if i < |a| then a[i] else if i < |a| + |b| then b[i - |a|] else c[i - |a| - |b|]
  {}

  /** `descriptorsFor` */
  method DescriptorsFor(spec: Spec) returns (descriptors: seq<Descriptor>)
    ensures descriptors == Descriptors(spec)
  {
    descriptors := [];
    for order := 0 to |spec.systemPrompts|
      invariant descriptors == SystemDescriptors(spec.systemPrompts)[..order]
    {
      descriptors := descriptors + [Descriptor(SystemSlot, SystemPath(order), SysPrompt, spec.systemPrompts[order])];
    }
    ghost var system := descriptors;
    for order := 0 to |spec.initialPrompts|
      invariant descriptors == system + InitialDescriptors(spec.initialPrompts)[..order]
    {
      descriptors := descriptors + [Descriptor(InitialSlot, InitialPath(order), Prompt, spec.initialPrompts[order])];
    }
    descriptors := descriptors + [Descriptor(BackendSlot, BackendPath(), Backend, spec.backend),
                                  Descriptor(ToolsetSlot, ToolsetPath(), Toolset, spec.toolset),
                                  Descriptor(RuntimeSlot, RuntimePath(), RuntimeConfig, spec.runtimeConfig)];
  }

  predicate IsPromptSlot(s: Slot) { s == SystemSlot || s == InitialSlot }

  /** A prompt slot already refers to the same revision. */
  predicate Repeats(ds: seq<Descriptor>, i: nat)
    requires i < |ds|
  {
    IsPromptSlot(ds[i].slot) && SeenBefore(ds, i, ds[i].slot, ds[i].ref)
  }

  predicate SeenBefore(ds: seq<Descriptor>, n: nat, slot: Slot, ref: Ref)
    requires n <= |ds|
  {
    exists j | 0 <= j < n :: ds[j].slot == slot && ds[j].ref == ref
  }

  function DuplicateIssue(d: Descriptor): PublicIssue {
    PublicIssue(DuplicateBrickRef, d.path, Some(d.ref.brick), Some(d.ref.number), None, None, None)
  }

  function DuplicateIssues(ds: seq<Descriptor>, n: nat): seq<PublicIssue>
    requires n <= |ds|
  {
    if n == 0 then [] else DuplicateIssues(ds, n - 1) + (if Repeats(ds, n - 1) then [DuplicateIssue(ds[n - 1])] else [])
  }

  function KeysOf(seen: map<Slot, set<Ref>>, slot: Slot): set<Ref> {
    if slot in seen then seen[slot] else {}
  }

  ghost predicate Remembers(seen: map<Slot, set<Ref>>, ds: seq<Descriptor>, n: nat)
    requires n <= |ds|
  {
    forall s, r | IsPromptSlot(s) :: r in KeysOf(seen, s) <==> SeenBefore(ds, n, s, r)
  }

  lemma RemembersOneMore(seen: map<Slot, set<Ref>>, seen': map<Slot, set<Ref>>, ds: seq<Descriptor>, n: nat)
    requires n < |ds| && Remembers(seen, ds, n)
    requires seen' == if IsPromptSlot(ds[n].slot) then seen[ds[n].slot := KeysOf(seen, ds[n].slot) + {ds[n].ref}] else seen
    ensures Remembers(seen', ds, n + 1)
  {
    var d := ds[n];
    forall s, r | IsPromptSlot(s) ensures r in KeysOf(seen', s) <==> SeenBefore(ds, n + 1, s, r) {
      if d.slot == s && d.ref == r { assert ds[n] == d; }
      assert r in KeysOf(seen, s) <==> SeenBefore(ds, n, s, r);
    }
  }

  /** `duplicatePromptIssues` */
  method DuplicatePromptIssues(ds: seq<Descriptor>) returns (issues: seq<PublicIssue>)
    ensures issues == DuplicateIssues(ds, |ds|)
  {
    issues := [];
    var seen: map<Slot, set<Ref>> := map[];
    for n := 0 to |ds|
      invariant issues == DuplicateIssues(ds, n)
      invariant Remembers(seen, ds, n)
    {
      var d := ds[n];
      ghost var before := seen;
      if IsPromptSlot(d.slot) {
        var keys := KeysOf(seen, d.slot);
        if d.ref in keys { issues := issues + [DuplicateIssue(d)]; }
        seen := seen[d.slot := keys + {d.ref}];
      }
      RemembersOneMore(before, seen, ds, n);
    }
  }

  // ---------------------------------------------------------------- one reference

  /** `DefinitionBrickRevisionSchema` on typed data: any body kind, whatever the kind says. */
  predicate ValidRevision(r: Revision) {
    ValidBody(r.body) && r.revision >= 1
  }

  /** `bindDefinitionBrickRef` */
  predicate Binds(project: ProjectId, ref: Ref, r: Revision) {
    r.project == project && r.brick == ref.brick && r.revision == ref.number
  }

  predicate ProvenanceMatches(r: Revision, expected: Provenance) {
    r.project == expected.project && r.brick == expected.brick && r.revision == expected.number
    && r.kind == expected.kind && r.revisionUid == expected.revisionUid && r.digest == expected.digest
  }

  datatype Examination = Rejected(issue: PublicIssue) | Accepted(revision: Revision) | Throws

  /** The `i`-th turn of the resolution loop. */
  function Examine(ports: Ports, project: ProjectId, i: nat, d: Descriptor, provenance: map<Text, Provenance>): Examination {
    match ports.resolve(i, project, d.ref)
    case ResolverFails => Throws
    case AbsentRevision => Rejected(PublicIssue(RefNotFound, d.path, Some(d.ref.brick), Some(d.ref.number), None, None, None))
    case FoundRevision(r) =>
      if !Binds(project, d.ref, r) then Rejected(PublicIssue(RefNotFound, d.path, Some(d.ref.brick), Some(d.ref.number), None, None, None))
      else if r.kind != d.expectedKind then Rejected(PublicIssue(BrickKindMismatch, d.path, None, None, Some(d.expectedKind), Some(r.kind), None))
      else if !ValidRevision(r) then Throws
      else if ComputeDigest(ports.digest, r.kind, r.body) != r.digest then Throws
      else if d.path in provenance && !ProvenanceMatches(r, provenance[d.path]) then Throws
      else Accepted(r)
  }

  datatype Placed = Placed(slot: Slot, entry: Resolved)
  datatype Collected = Collected(issues: seq<PublicIssue>, found: seq<Placed>)

  /** What the loop over the first `n` descriptors yields; None when it throws. */
  function Collect(ports: Ports, project: ProjectId, ds: seq<Descriptor>, provenance: map<Text, Provenance>, n: nat): Option<Collected>
    requires n <= |ds|
  {
    if n == 0 then Some(Collected([], []))
    else match Collect(ports, project, ds, provenance, n - 1)
         case None => None
         case Some(c) =>
           match Examine(ports, project, n - 1, ds[n - 1], provenance)
           case Throws => None
           case Rejected(issue) => Some(c.(issues := c.issues + [issue]))
           case Accepted(r) => Some(c.(found := c.found + [Placed(ds[n - 1].slot, Resolved(ds[n - 1].ref, r))]))
  }

  /** The entries one slot collected, in order. */
  function InSlot(found: seq<Placed>, slot: Slot): seq<Resolved> {
    if found == [] then []
    else
      var last := found[|found| - 1];
      InSlot(found[..|found| - 1], slot) + (if last.slot == slot then [last.entry] else [])
  }

  datatype ResolvedSlots = ResolvedSlots(issues: seq<PublicIssue>, slots: map<Slot, seq<Resolved>>)

  function EntriesFor(slots: map<Slot, seq<Resolved>>, slot: Slot): seq<Resolved> {
    if slot in slots then slots[slot] else []
  }

  ghost predicate Places(slots: map<Slot, seq<Resolved>>, found: seq<Placed>) {
    forall s :: EntriesFor(slots, s) == InSlot(found, s)
  }

  lemma PlacesOneMore(slots: map<Slot, seq<Resolved>>, found: seq<Placed>, p: Placed)
    requires Places(slots, found)
    ensures Places(slots[p.slot := EntriesFor(slots, p.slot) + [p.entry]], found + [p])
  {
    assert (found + [p])[..|found|] == found;
    var slots' := slots[p.slot := EntriesFor(slots, p.slot) + [p.entry]];
    forall s ensures EntriesFor(slots', s) == InSlot(found + [p], s) {
      assert EntriesFor(slots, s) == InSlot(found, s);
    }
  }

  /** The resolution loop of `resolveCandidate`, with its map from slots to entries. */
  method ResolveReferences(ports: Ports, project: ProjectId, ds: seq<Descriptor>, provenance: map<Text, Provenance>)
    returns (r: Option<ResolvedSlots>)
    ensures r.None? <==> Collect(ports, project, ds, provenance, |ds|).None?
    ensures r.Some? ==>
              && r.value.issues == Collect(ports, project, ds, provenance, |ds|).value.issues
              && Places(r.value.slots, Collect(ports, project, ds, provenance, |ds|).value.found)
  {
    var issues: seq<PublicIssue> := [];
    var slots: map<Slot, seq<Resolved>> := map[];
    ghost var found: seq<Placed> := [];
    for n := 0 to |ds|
      invariant Collect(ports, project, ds, provenance, n) == Some(Collected(issues, found))
      invariant Places(slots, found)
    {
      var d := ds[n];
      var examined := Examine(ports, project, n, d, provenance);
      if examined.Throws? {
        CollectThrows(ports, project, ds, provenance, n + 1, |ds|);
        return None;
      }
      if examined.Rejected? {
        issues := issues + [examined.issue];
        continue;
      }
      var entry := Resolved(d.ref, examined.revision);
      PlacesOneMore(slots, found, Placed(d.slot, entry));
      var entries := EntriesFor(slots, d.slot);
      slots := slots[d.slot := entries + [entry]];
      found := found + [Placed(d.slot, entry)];
    }
    return Some(ResolvedSlots(issues, slots));
  }

  lemma {:induction false} CollectThrows(ports: Ports, project: ProjectId, ds: seq<Descriptor>, provenance: map<Text, Provenance>, m: nat, n: nat)
    requires m <= n <= |ds| && Collect(ports, project, ds, provenance, m).None?
    ensures Collect(ports, project, ds, provenance, n).None?
  {
    if m < n { CollectThrows(ports, project, ds, provenance, m, n - 1); }
  }
}
