/** The checks of `resolveCandidate` after resolution, its outcome, and what a valid outcome means. */
module TemplateCandidates {
  import opened Options
  import opened Utf16Text
  import opened BrickBodies
  import opened ProjectTables
  import opened ProjectService
  import opened IssuePaths
  import opened TemplateIssues
  import opened TemplateValidation

  function Copies(issue: PublicIssue, n: nat): (r: seq<PublicIssue>)
    ensures |r| == n && forall i | 0 <= i < n :: r[i] == issue
  {
    seq(n, _ => issue)
  }

  function First(entries: seq<Resolved>): Option<Resolved> {
    if entries == [] then None else Some(entries[0])
  }

  predicate IsSystemBody(b: Body) { b.SysPromptBody? && ValidBody(b) }
  predicate IsPromptBody(b: Body) { b.PromptBrickBody? && ValidBody(b) }
  predicate IsBackendBody(b: Body) { b.BackendBody? && ValidBody(b) }
  predicate IsToolsetBody(b: Body) { b.ToolsetBody? && ValidBody(b) }
  predicate IsRuntimeBody(b: Body) { b.RuntimeConfigBody? && ValidBody(b) }

  /** One issue at the slot for each entry whose body does not decode. */
  function BodyIssues(entries: seq<Resolved>, decodes: Body -> bool, path: Text): seq<PublicIssue> {
    if entries == [] then []
    else
      BodyIssues(entries[..|entries| - 1], decodes, path)
      + (if decodes(entries[|entries| - 1].revision.body) then [] else [Plain(SchemaInvalid, path)])
  }

  function BackendIssues(ports: Ports, backend: Option<Resolved>): seq<PublicIssue> {
    if backend.None? then []
    else if !IsBackendBody(backend.value.revision.body) then [Plain(BackendConfigInvalid, BackendPath())]
    else match ports.backendFindings(backend.value.revision.body)
         case None => [Plain(BackendConfigInvalid, BackendPath())]
         case Some(n) => Copies(Plain(BackendConfigInvalid, BackendPath()), n)
  }

  function ProviderIssue(p: ToolProvider): PublicIssue {
    PublicIssue(ToolProviderInvalid, ToolsetPath(), None, None, None, None, Some(p.providerId))
  }

  predicate ProviderRepeats(ps: seq<ToolProvider>, i: nat)
    requires i < |ps|
  {
    exists j | 0 <= j < i :: ps[j].providerId == ps[i].providerId
  }

  function ProviderIssues(ports: Ports, ps: seq<ToolProvider>, n: nat): seq<PublicIssue>
    requires n <= |ps|
  {
    if n == 0 then []
    else
      var p := ps[n - 1];
      ProviderIssues(ports, ps, n - 1)
      + (if ProviderRepeats(ps, n - 1) then [ProviderIssue(p)]
         else match ports.providerFindings(p)
              case None => [ProviderIssue(p)]
              case Some(k) => Copies(ProviderIssue(p), k))
  }

  function ToolsetIssues(ports: Ports, toolset: Option<Resolved>): seq<PublicIssue> {
    if toolset.None? then []
    else if !IsToolsetBody(toolset.value.revision.body) then [Plain(ToolProviderInvalid, ToolsetPath())]
    else ProviderIssues(ports, toolset.value.revision.body.providers, |toolset.value.revision.body.providers|)
  }

  function CompatibilityIssues(ports: Ports, backend: Option<Resolved>, toolset: Option<Resolved>): seq<PublicIssue> {
    if backend.Some? && IsBackendBody(backend.value.revision.body) && toolset.Some? && IsToolsetBody(toolset.value.revision.body)
    then Copies(Plain(BackendToolsetIncompatible, ToolsetPath()),
                ports.compatibilityFindings(backend.value.revision.body, toolset.value.revision.body))
    else []
  }

  function RuntimeCheck(ports: Ports, project: ProjectId, runtime: Option<Resolved>): (seq<PublicIssue>, Option<Text>) {
    if runtime.None? then ([], None)
    else if !IsRuntimeBody(runtime.value.revision.body) then ([Plain(SchemaInvalid, RuntimePath())], None)
    else
      var body := runtime.value.revision.body;
      match ports.workspace(project, body.rootId, body.relativeDirectory)
      case RootNotFound => ([Plain(WorkspaceRootNotFound, RuntimePath())], None)
      case PathEscape => ([Plain(WorkspacePathEscape, RuntimePath())], None)
      case WorkspaceAt(directory) => ([], Some(directory))
  }

  function SystemSlotPath(): Text { Ascii("/system_prompt") }
  function InitialSlotPath(): Text { Ascii("/initial_prompt") }

  // ---------------------------------------------------------------- the outcome

  /** A report is valid exactly when it has no issues. */
  datatype ValidationOutcome = ValidationThrew | Reported(issues: seq<PublicIssue>, resolved: Option<Candidate>)

  function Checks(ports: Ports, project: ProjectId, ds: seq<Descriptor>, c: Collected): seq<PublicIssue> {
    var system, initial := InSlot(c.found, SystemSlot), InSlot(c.found, InitialSlot);
    var backend, toolset := First(InSlot(c.found, BackendSlot)), First(InSlot(c.found, ToolsetSlot));
    var runtime := First(InSlot(c.found, RuntimeSlot));
    DuplicateIssues(ds, |ds|) + c.issues
    + BodyIssues(system, IsSystemBody, SystemSlotPath()) + BodyIssues(initial, IsPromptBody, InitialSlotPath())
    + BackendIssues(ports, backend) + ToolsetIssues(ports, toolset) + CompatibilityIssues(ports, backend, toolset)
    + RuntimeCheck(ports, project, runtime).0
  }

  function Conclude(ports: Ports, project: ProjectId, c: Collected, issues: seq<PublicIssue>): ValidationOutcome {
    var backend, toolset := First(InSlot(c.found, BackendSlot)), First(InSlot(c.found, ToolsetSlot));
    var runtime := First(InSlot(c.found, RuntimeSlot));
    var directory := RuntimeCheck(ports, project, runtime).1;
    if issues != [] || backend.None? || toolset.None? || runtime.None? || directory.None? then Reported(issues, None)
    else Reported(issues, Some(Candidate(project, InSlot(c.found, SystemSlot), InSlot(c.found, InitialSlot),
                                         backend.value, toolset.value, runtime.value, directory.value)))
  }

  function Validate(ports: Ports, project: ProjectId, spec: Spec, provenance: map<Text, Provenance>): ValidationOutcome {
    var ds := Descriptors(spec);
    match Collect(ports, project, ds, provenance, |ds|)
    case None => ValidationThrew
    case Some(c) => Conclude(ports, project, c, ReportIssues(Checks(ports, project, ds, c)))
  }

  /** The provider loop of `resolveCandidate`. */
  method CheckProviders(ports: Ports, providers: seq<ToolProvider>) returns (issues: seq<PublicIssue>)
    ensures issues == ProviderIssues(ports, providers, |providers|)
  {
    issues := [];
    var providerIds: set<Text> := {};
    for n := 0 to |providers|
      invariant issues == ProviderIssues(ports, providers, n)
      invariant forall id :: id in providerIds <==> exists j | 0 <= j < n :: providers[j].providerId == id
    {
      var p := providers[n];
      if p.providerId in providerIds {
        issues := issues + [ProviderIssue(p)];
        continue;
      }
      providerIds := providerIds + {p.providerId};
      var findings := ports.providerFindings(p);
      issues := issues + if findings.None? then [ProviderIssue(p)] else Copies(ProviderIssue(p), findings.value);
    }
  }

  method CheckBodies(entries: seq<Resolved>, decodes: Body -> bool, path: Text) returns (issues: seq<PublicIssue>)
    ensures issues == BodyIssues(entries, decodes, path)
  {
    issues := [];
    for n := 0 to |entries|
      invariant issues == BodyIssues(entries[..n], decodes, path)
    {
      assert entries[..n + 1][..n] == entries[..n];
      if !decodes(entries[n].revision.body) { issues := issues + [Plain(SchemaInvalid, path)]; }
    }
    assert entries[..|entries|] == entries;
  }

  /** `resolveCandidate` */
  method ResolveCandidate(ports: Ports, project: ProjectId, spec: Spec, provenance: map<Text, Provenance>) returns (outcome: ValidationOutcome)
    ensures outcome == Validate(ports, project, spec, provenance)
  {
    var descriptors := DescriptorsFor(spec);
    var issues := DuplicatePromptIssues(descriptors);
    var resolved := ResolveReferences(ports, project, descriptors, provenance);
    if resolved.None? { return ValidationThrew; }
    issues := issues + resolved.value.issues;
    var slots := resolved.value.slots;
    var system, initial := EntriesFor(slots, SystemSlot), EntriesFor(slots, InitialSlot);
    var backend, toolset := First(EntriesFor(slots, BackendSlot)), First(EntriesFor(slots, ToolsetSlot));
    var runtime := First(EntriesFor(slots, RuntimeSlot));
    var systemIssues := CheckBodies(system, IsSystemBody, SystemSlotPath());
    var initialIssues := CheckBodies(initial, IsPromptBody, InitialSlotPath());
    issues := issues + systemIssues + initialIssues + BackendIssues(ports, backend);
    var toolsetIssues := ToolsetIssues(ports, toolset);
    if toolset.Some? && IsToolsetBody(toolset.value.revision.body) {
      toolsetIssues := CheckProviders(ports, toolset.value.revision.body.providers);
    }
    issues := issues + toolsetIssues + CompatibilityIssues(ports, backend, toolset);
    var (runtimeIssues, directory) := RuntimeCheck(ports, project, runtime);
    issues := issues + runtimeIssues;
    var report := SortAndDeduplicateIssues(issues);
    if report != [] || backend.None? || toolset.None? || runtime.None? || directory.None? { return Reported(report, None); }
    return Reported(report, Some(Candidate(project, system, initial, backend.value, toolset.value, runtime.value, directory.value)));
  }

  // ---------------------------------------------------------------- what a valid report means

  /** The entry is the authored reference and the revision read `i` found for it, of the kind the slot
      wants. */
  predicate EntryFits(ports: Ports, project: ProjectId, i: nat, kind: BrickKind, ref: Ref, e: Resolved) {
    && e.authored == ref && ports.resolve(i, project, ref) == FoundRevision(e.revision)
    && Binds(project, ref, e.revision) && e.revision.kind == kind && ValidRevision(e.revision)
    && ComputeDigest(ports.digest, e.revision.kind, e.revision.body) == e.revision.digest
  }

  predicate EntriesFit(ports: Ports, project: ProjectId, from: nat, kind: BrickKind, refs: seq<Ref>, entries: seq<Resolved>) {
    |entries| == |refs| && forall i | 0 <= i < |refs| :: EntryFits(ports, project, from + i, kind, refs[i], entries[i])
  }

  /** The references are read slot by slot, in order. */
  predicate CandidateFits(ports: Ports, project: ProjectId, spec: Spec, c: Candidate) {
    var m, n := |spec.systemPrompts|, |spec.initialPrompts|;
    && c.project == project
    && EntriesFit(ports, project, 0, SysPrompt, spec.systemPrompts, c.systemPrompts)
    && EntriesFit(ports, project, m, Prompt, spec.initialPrompts, c.initialPrompts)
    && EntryFits(ports, project, m + n, Backend, spec.backend, c.backend)
    && EntryFits(ports, project, m + n + 1, Toolset, spec.toolset, c.toolset)
    && EntryFits(ports, project, m + n + 2, RuntimeConfig, spec.runtimeConfig, c.runtimeConfig)
  }

  /** With no issue, every descriptor was accepted, in order. */
  lemma {:induction false} AllAccepted(ports: Ports, project: ProjectId, ds: seq<Descriptor>, provenance: map<Text, Provenance>, n: nat)
    requires n <= |ds| && Collect(ports, project, ds, provenance, n).Some?
    requires Collect(ports, project, ds, provenance, n).value.issues == []
    ensures var found := Collect(ports, project, ds, provenance, n).value.found;
            && |found| == n
            && forall i | 0 <= i < n ::
                 Examine(ports, project, i, ds[i], provenance) == Accepted(found[i].entry.revision)
                 && found[i] == Placed(ds[i].slot, Resolved(ds[i].ref, found[i].entry.revision))
  {
    if n > 0 { AllAccepted(ports, project, ds, provenance, n - 1); }
  }

  lemma {:induction false} InSlotConcat(a: seq<Placed>, b: seq<Placed>, slot: Slot)
    ensures InSlot(a + b, slot) == InSlot(a, slot) + InSlot(b, slot)
  {
    if b == [] {
      assert a + b == a;
    } else {
      assert (a + b)[..|a + b| - 1] == a + b[..|b| - 1];
      InSlotConcat(a, b[..|b| - 1], slot);
    }
  }

  lemma {:induction false} InSlotUniform(a: seq<Placed>, of: Slot, slot: Slot)
    requires forall i | 0 <= i < |a| :: a[i].slot == of
    ensures of == slot ==> InSlot(a, slot) == Entries(a)
    ensures of != slot ==> InSlot(a, slot) == []
  {
    if a != [] { InSlotUniform(a[..|a| - 1], of, slot); }
  }

  function Entries(found: seq<Placed>): (r: seq<Resolved>)
    ensures |r| == |found| && forall i | 0 <= i < |r| :: r[i] == found[i].entry
  {
    seq(|found|, i requires 0 <= i < |found| => found[i].entry)
  }

  /** The slots of the descriptors of a spec with `m` system and `n` initial prompts. */
  ghost predicate SlotsInOrder(found: seq<Placed>, m: nat, n: nat) {
    && |found| == m + n + 3
    && (forall i | 0 <= i < m :: found[i].slot == SystemSlot)
    && (forall i | m <= i < m + n :: found[i].slot == InitialSlot)
    && found[m + n].slot == BackendSlot && found[m + n + 1].slot == ToolsetSlot && found[m + n + 2].slot == RuntimeSlot
  }

  /** The entries of each slot, when all descriptors of a spec were accepted. */
  lemma SlotOfAll(found: seq<Placed>, m: nat, n: nat, slot: Slot)
    requires SlotsInOrder(found, m, n)
    ensures InSlot(found, slot) == match slot
                                   case SystemSlot => Entries(found[..m])
                                   case InitialSlot => Entries(found[m..m + n])
                                   case BackendSlot => [found[m + n].entry]
                                   case ToolsetSlot => [found[m + n + 1].entry]
                                   case RuntimeSlot => [found[m + n + 2].entry]
  {
    var system, initial, singles := found[..m], found[m..m + n], found[m + n..];
    assert found == system + (initial + singles);
    SlotOfParts(system, initial, singles, slot);
  }

  lemma SlotOfParts(system: seq<Placed>, initial: seq<Placed>, singles: seq<Placed>, slot: Slot)
    requires (forall i | 0 <= i < |system| :: system[i].slot == SystemSlot) && (forall i | 0 <= i < |initial| :: initial[i].slot == InitialSlot)
    requires |singles| == 3 && singles[0].slot == BackendSlot && singles[1].slot == ToolsetSlot && singles[2].slot == RuntimeSlot
    ensures InSlot(system + (initial + singles), slot) == match slot
                                                          case SystemSlot => Entries(system)
                                                          case InitialSlot => Entries(initial)
                                                          case BackendSlot => [singles[0].entry]
                                                          case ToolsetSlot => [singles[1].entry]
                                                          case RuntimeSlot => [singles[2].entry]
  {
    InSlotConcat(system, initial + singles, slot);
    InSlotConcat(initial, singles, slot);
    InSlotUniform(system, SystemSlot, slot);
    InSlotUniform(initial, InitialSlot, slot);
    SlotOfThree(singles, slot);
  }

  lemma SlotOfThree(tail: seq<Placed>, slot: Slot)
    requires |tail| == 3 && tail[0].slot == BackendSlot && tail[1].slot == ToolsetSlot && tail[2].slot == RuntimeSlot
    ensures InSlot(tail, slot) == match slot
                                  case BackendSlot => [tail[0].entry]
                                  case ToolsetSlot => [tail[1].entry]
                                  case RuntimeSlot => [tail[2].entry]
                                  case _ => []
  {
    assert tail[..2][..1] == tail[..1] && tail[..1][..0] == [];
    assert InSlot(tail[..1], slot) == if slot == BackendSlot then [tail[0].entry] else [];
    assert InSlot(tail[..2], slot) == InSlot(tail[..1], slot) + (if slot == ToolsetSlot then [tail[1].entry] else []);
  }

  /** `ds` asks for the references of `spec`, slot by slot, in order. */
  ghost predicate AsksFor(ds: seq<Descriptor>, spec: Spec) {
    var m, n := |spec.systemPrompts|, |spec.initialPrompts|;
    && |ds| == m + n + 3
    && (forall i | 0 <= i < m :: Asks(ds[i], SystemSlot, SysPrompt, spec.systemPrompts[i]))
    && (forall i | 0 <= i < n :: Asks(ds[m + i], InitialSlot, Prompt, spec.initialPrompts[i]))
    && Asks(ds[m + n], BackendSlot, Backend, spec.backend)
    && Asks(ds[m + n + 1], ToolsetSlot, Toolset, spec.toolset)
    && Asks(ds[m + n + 2], RuntimeSlot, RuntimeConfig, spec.runtimeConfig)
  }

  predicate Asks(d: Descriptor, slot: Slot, kind: BrickKind, ref: Ref) {
    d.slot == slot && d.expectedKind == kind && d.ref == ref
  }

  lemma DescriptorsAsk(spec: Spec)
    ensures AsksFor(Descriptors(spec), spec)
  {
    var a, b, c := SystemDescriptors(spec.systemPrompts), InitialDescriptors(spec.initialPrompts), SingleDescriptors(spec);
    var m, n, ds := |spec.systemPrompts|, |spec.initialPrompts|, Descriptors(spec);
    forall i | 0 <= i < m ensures Asks(ds[i], SystemSlot, SysPrompt, spec.systemPrompts[i]) { PartOfThree(a, b, c, i); }
    forall i | 0 <= i < n ensures Asks(ds[m + i], InitialSlot, Prompt, spec.initialPrompts[i]) { PartOfThree(a, b, c, m + i); }
    PartOfThree(a, b, c, m + n);
    PartOfThree(a, b, c, m + n + 1);
    PartOfThree(a, b, c, m + n + 2);
  }

  lemma NoIssues(issues: seq<PublicIssue>)
    ensures ReportIssues(issues) == [] <==> issues == []
  {
    ReportHoldsEachOnce(issues);
    assert issues != [] ==> issues[0] in issues;
    assert ReportIssues(issues) != [] ==> ReportIssues(issues)[0] in ReportIssues(issues);
  }

  lemma ExaminedFits(ports: Ports, project: ProjectId, i: nat, d: Descriptor, provenance: map<Text, Provenance>, r: Revision)
    requires Examine(ports, project, i, d, provenance) == Accepted(r)
    ensures EntryFits(ports, project, i, d.expectedKind, d.ref, Resolved(d.ref, r))
  {}

  ghost predicate FitsAt(ports: Ports, project: ProjectId, i: nat, d: Descriptor, p: Placed) {
    p.slot == d.slot && EntryFits(ports, project, i, d.expectedKind, d.ref, p.entry)
  }

  /** Each found entry sits in its descriptor's slot. */
  ghost predicate AllFit(ports: Ports, project: ProjectId, ds: seq<Descriptor>, found: seq<Placed>) {
    |found| == |ds| && forall i | 0 <= i < |ds| :: FitsAt(ports, project, i, ds[i], found[i])
  }

  lemma CollectedFitEach(ports: Ports, project: ProjectId, ds: seq<Descriptor>, provenance: map<Text, Provenance>, c: Collected)
    requires Collect(ports, project, ds, provenance, |ds|) == Some(c) && c.issues == []
    ensures AllFit(ports, project, ds, c.found)
  {
    AllAccepted(ports, project, ds, provenance, |ds|);
    forall i | 0 <= i < |ds| ensures FitsAt(ports, project, i, ds[i], c.found[i]) {
      ExaminedFits(ports, project, i, ds[i], provenance, c.found[i].entry.revision);
    }
  }

  lemma FitsAsked(ports: Ports, project: ProjectId, ds: seq<Descriptor>, found: seq<Placed>, i: nat, slot: Slot, kind: BrickKind, ref: Ref)
    requires AllFit(ports, project, ds, found) && i < |ds| && Asks(ds[i], slot, kind, ref)
    ensures found[i].slot == slot && EntryFits(ports, project, i, kind, ref, found[i].entry)
  {
    assert FitsAt(ports, project, i, ds[i], found[i]);
  }

  lemma SlotsAgree(ports: Ports, project: ProjectId, ds: seq<Descriptor>, found: seq<Placed>)
    requires AllFit(ports, project, ds, found)
    ensures forall i | 0 <= i < |ds| :: found[i].slot == ds[i].slot
  {
    forall i | 0 <= i < |ds| ensures found[i].slot == ds[i].slot { assert FitsAt(ports, project, i, ds[i], found[i]); }
  }

  lemma PlacedInOrder(spec: Spec, ds: seq<Descriptor>, found: seq<Placed>)
    requires AsksFor(ds, spec) && |found| == |ds| && forall i | 0 <= i < |ds| :: found[i].slot == ds[i].slot
    ensures SlotsInOrder(found, |spec.systemPrompts|, |spec.initialPrompts|)
  {
    var m, n := |spec.systemPrompts|, |spec.initialPrompts|;
    forall i | m <= i < m + n ensures found[i].slot == InitialSlot {
      assert Asks(ds[m + (i - m)], InitialSlot, Prompt, spec.initialPrompts[i - m]);
    }
    forall i | 0 <= i < m ensures found[i].slot == SystemSlot {
      assert Asks(ds[i], SystemSlot, SysPrompt, spec.systemPrompts[i]);
    }
  }

  /** What each slot holds, when every descriptor of the spec was accepted. */
  lemma SlotsHold(found: seq<Placed>, m: nat, n: nat)
    requires SlotsInOrder(found, m, n)
    ensures InSlot(found, SystemSlot) == Entries(found[..m]) && InSlot(found, InitialSlot) == Entries(found[m..m + n])
    ensures First(InSlot(found, BackendSlot)) == Some(found[m + n].entry)
    ensures First(InSlot(found, ToolsetSlot)) == Some(found[m + n + 1].entry)
    ensures First(InSlot(found, RuntimeSlot)) == Some(found[m + n + 2].entry)
  {
    SlotOfAll(found, m, n, SystemSlot);
    SlotOfAll(found, m, n, InitialSlot);
    SlotOfAll(found, m, n, BackendSlot);
    SlotOfAll(found, m, n, ToolsetSlot);
    SlotOfAll(found, m, n, RuntimeSlot);
  }

  /** The entry found `i` places after `from` fits the `i`-th of the references. */
  ghost predicate FitsFrom(ports: Ports, project: ProjectId, from: nat, kind: BrickKind, refs: seq<Ref>, found: seq<Placed>, i: nat)
    requires i < |refs| && from + |refs| <= |found|
  {
    EntryFits(ports, project, from + i, kind, refs[i], found[from + i].entry)
  }

  lemma RangeFits(ports: Ports, project: ProjectId, from: nat, kind: BrickKind, refs: seq<Ref>, found: seq<Placed>)
    requires from + |refs| <= |found|
    requires forall i | 0 <= i < |refs| :: FitsFrom(ports, project, from, kind, refs, found, i)
    ensures EntriesFit(ports, project, from, kind, refs, Entries(found[from..from + |refs|]))
  {
    var entries := Entries(found[from..from + |refs|]);
    forall i | 0 <= i < |refs| ensures EntryFits(ports, project, from + i, kind, refs[i], entries[i]) {
      assert FitsFrom(ports, project, from, kind, refs, found, i) && entries[i] == found[from + i].entry;
    }
  }

  lemma SystemRangeFits(ports: Ports, project: ProjectId, spec: Spec, ds: seq<Descriptor>, found: seq<Placed>)
    requires AsksFor(ds, spec) && AllFit(ports, project, ds, found)
    ensures EntriesFit(ports, project, 0, SysPrompt, spec.systemPrompts, Entries(found[..|spec.systemPrompts|]))
  {
    forall i | 0 <= i < |spec.systemPrompts| ensures FitsFrom(ports, project, 0, SysPrompt, spec.systemPrompts, found, i) {
      SystemAtFits(ports, project, spec, ds, found, i);
    }
    RangeFits(ports, project, 0, SysPrompt, spec.systemPrompts, found);
    assert found[0..|spec.systemPrompts|] == found[..|spec.systemPrompts|];
  }

  lemma SystemAtFits(ports: Ports, project: ProjectId, spec: Spec, ds: seq<Descriptor>, found: seq<Placed>, i: nat)
    requires AsksFor(ds, spec) && AllFit(ports, project, ds, found) && i < |spec.systemPrompts|
    ensures FitsFrom(ports, project, 0, SysPrompt, spec.systemPrompts, found, i)
  {
    FitsAsked(ports, project, ds, found, i, SystemSlot, SysPrompt, spec.systemPrompts[i]);
  }

  lemma InitialRangeFits(ports: Ports, project: ProjectId, spec: Spec, ds: seq<Descriptor>, found: seq<Placed>)
    requires AsksFor(ds, spec) && AllFit(ports, project, ds, found)
    ensures EntriesFit(ports, project, |spec.systemPrompts|, Prompt, spec.initialPrompts,
                       Entries(found[|spec.systemPrompts|..|spec.systemPrompts| + |spec.initialPrompts|]))
  {
    forall i | 0 <= i < |spec.initialPrompts| ensures FitsFrom(ports, project, |spec.systemPrompts|, Prompt, spec.initialPrompts, found, i) {
      InitialAtFits(ports, project, spec, ds, found, i);
    }
    RangeFits(ports, project, |spec.systemPrompts|, Prompt, spec.initialPrompts, found);
  }

  lemma InitialAtFits(ports: Ports, project: ProjectId, spec: Spec, ds: seq<Descriptor>, found: seq<Placed>, i: nat)
    requires AsksFor(ds, spec) && AllFit(ports, project, ds, found) && i < |spec.initialPrompts|
    ensures FitsFrom(ports, project, |spec.systemPrompts|, Prompt, spec.initialPrompts, found, i)
  {
    assert Asks(ds[|spec.systemPrompts| + i], InitialSlot, Prompt, spec.initialPrompts[i]);
    FitsAsked(ports, project, ds, found, |spec.systemPrompts| + i, InitialSlot, Prompt, spec.initialPrompts[i]);
  }

  lemma SinglesFit(ports: Ports, project: ProjectId, spec: Spec, ds: seq<Descriptor>, found: seq<Placed>)
    requires AsksFor(ds, spec) && AllFit(ports, project, ds, found)
    ensures var k := |spec.systemPrompts| + |spec.initialPrompts|;
            && EntryFits(ports, project, k, Backend, spec.backend, found[k].entry)
            && EntryFits(ports, project, k + 1, Toolset, spec.toolset, found[k + 1].entry)
            && EntryFits(ports, project, k + 2, RuntimeConfig, spec.runtimeConfig, found[k + 2].entry)
  {
    var k := |spec.systemPrompts| + |spec.initialPrompts|;
    FitsAsked(ports, project, ds, found, k, BackendSlot, Backend, spec.backend);
    FitsAsked(ports, project, ds, found, k + 1, ToolsetSlot, Toolset, spec.toolset);
    FitsAsked(ports, project, ds, found, k + 2, RuntimeSlot, RuntimeConfig, spec.runtimeConfig);
  }

  /** Concluding without issues puts the slots together. */
  lemma ConcludesWithSlots(ports: Ports, project: ProjectId, c: Collected)
    requires First(InSlot(c.found, BackendSlot)).Some? && First(InSlot(c.found, ToolsetSlot)).Some? && First(InSlot(c.found, RuntimeSlot)).Some?
    requires RuntimeCheck(ports, project, First(InSlot(c.found, RuntimeSlot))).0 == []
    ensures var o := Conclude(ports, project, c, []);
            && o.Reported? && o.resolved.Some?
            && o.resolved.value == Candidate(project, InSlot(c.found, SystemSlot), InSlot(c.found, InitialSlot),
                                             First(InSlot(c.found, BackendSlot)).value, First(InSlot(c.found, ToolsetSlot)).value,
                                             First(InSlot(c.found, RuntimeSlot)).value, o.resolved.value.workingDirectory)
  {}

  /** Concluding without issues yields a candidate that fits. */
  lemma ConcludesWithCandidate(ports: Ports, project: ProjectId, spec: Spec, ds: seq<Descriptor>, c: Collected)
    requires AsksFor(ds, spec) && AllFit(ports, project, ds, c.found)
    requires RuntimeCheck(ports, project, First(InSlot(c.found, RuntimeSlot))).0 == []
    ensures var o := Conclude(ports, project, c, []);
            o.Reported? && o.resolved.Some? && CandidateFits(ports, project, spec, o.resolved.value)
  {
    FoundInOrder(ports, project, spec, ds, c.found);
    SystemRangeFits(ports, project, spec, ds, c.found);
    InitialRangeFits(ports, project, spec, ds, c.found);
    SinglesFit(ports, project, spec, ds, c.found);
    FittingSlotsConclude(ports, project, spec, c);
  }

  lemma FoundInOrder(ports: Ports, project: ProjectId, spec: Spec, ds: seq<Descriptor>, found: seq<Placed>)
    requires AsksFor(ds, spec) && AllFit(ports, project, ds, found)
    ensures SlotsInOrder(found, |spec.systemPrompts|, |spec.initialPrompts|)
  {
    SlotsAgree(ports, project, ds, found);
    PlacedInOrder(spec, ds, found);
  }

  /** Slots that fit one by one make a candidate that fits. */
  lemma FittingSlotsConclude(ports: Ports, project: ProjectId, spec: Spec, c: Collected)
    requires var m, n := |spec.systemPrompts|, |spec.initialPrompts|;
             && SlotsInOrder(c.found, m, n)
             && EntriesFit(ports, project, 0, SysPrompt, spec.systemPrompts, Entries(c.found[..m]))
             && EntriesFit(ports, project, m, Prompt, spec.initialPrompts, Entries(c.found[m..m + n]))
             && EntryFits(ports, project, m + n, Backend, spec.backend, c.found[m + n].entry)
             && EntryFits(ports, project, m + n + 1, Toolset, spec.toolset, c.found[m + n + 1].entry)
             && EntryFits(ports, project, m + n + 2, RuntimeConfig, spec.runtimeConfig, c.found[m + n + 2].entry)
    requires RuntimeCheck(ports, project, First(InSlot(c.found, RuntimeSlot))).0 == []
    ensures var o := Conclude(ports, project, c, []);
            o.Reported? && o.resolved.Some? && CandidateFits(ports, project, spec, o.resolved.value)
  {
    SlotsHold(c.found, |spec.systemPrompts|, |spec.initialPrompts|);
    ConcludesWithSlots(ports, project, c);
  }

  lemma NoCheckFailed(ports: Ports, project: ProjectId, ds: seq<Descriptor>, c: Collected)
    requires Checks(ports, project, ds, c) == []
    ensures c.issues == [] && RuntimeCheck(ports, project, First(InSlot(c.found, RuntimeSlot))).0 == []
  {}

  /** A valid report comes with a candidate, and its lists are the authored references, in length and
      order, each with the revision it names. */
  lemma ValidResolvesEverything(ports: Ports, project: ProjectId, spec: Spec, provenance: map<Text, Provenance>)
    requires Validate(ports, project, spec, provenance).Reported? && Validate(ports, project, spec, provenance).issues == []
    ensures var o := Validate(ports, project, spec, provenance);
            o.resolved.Some? && CandidateFits(ports, project, spec, o.resolved.value)
  {
    var ds := Descriptors(spec);
    var c := Collect(ports, project, ds, provenance, |ds|).value;
    NoIssues(Checks(ports, project, ds, c));
    NoCheckFailed(ports, project, ds, c);
    CollectedFitEach(ports, project, ds, provenance, c);
    DescriptorsAsk(spec);
    ConcludesWithCandidate(ports, project, spec, ds, c);
  }

  /** The directory of a candidate is one the workspace resolved to. */
  lemma DirectoryFromWorkspace(ports: Ports, project: ProjectId, spec: Spec, provenance: map<Text, Provenance>) returns (root: Text, dir: Text)
    requires Validate(ports, project, spec, provenance).Reported? && Validate(ports, project, spec, provenance).resolved.Some?
    ensures ports.workspace(project, root, dir) == WorkspaceAt(Validate(ports, project, spec, provenance).resolved.value.workingDirectory)
  {
    var ds := Descriptors(spec);
    var c := Collect(ports, project, ds, provenance, |ds|).value;
    root, dir := ConcludedDirectory(ports, project, c, ReportIssues(Checks(ports, project, ds, c)));
  }

  lemma ConcludedDirectory(ports: Ports, project: ProjectId, c: Collected, issues: seq<PublicIssue>) returns (root: Text, dir: Text)
    requires Conclude(ports, project, c, issues).resolved.Some?
    ensures ports.workspace(project, root, dir) == WorkspaceAt(Conclude(ports, project, c, issues).resolved.value.workingDirectory)
  {
    var body := First(InSlot(c.found, RuntimeSlot)).value.revision.body;
    root, dir := body.rootId, body.relativeDirectory;
  }
}
