/** Templates over the Project store: what was created once compiles to the same configuration in
    every later state of the store. */
module TemplateRuns {
  import opened Options
  import opened Utf16Text
  import opened BrickBodies
  import opened ProjectTables
  import opened ProjectService
  import opened ProjectLogs
  import opened ProjectRuns
  import opened TemplateIssues
  import opened TemplateValidation
  import opened TemplateCandidates
  import opened TemplateRevisions
  import opened TemplateCompiler

  // ---------------------------------------------------------------- the resolver over the store

  /** `createProjectDefinitionBrickResolver`: a read becomes a resolution, an absence, or a failure. */
  function ResolveExact(h: DigestFunction, t: Tables, env: Env, project: ProjectId, ref: Ref): Resolution {
    match ReadExact(h, t, Key(project, ref.brick), ref.number, env)
    case Ok(w) =>
      if w.brick.project != project || w.brick.brick != ref.brick || w.brick.kind != w.revision.kind
         || w.revision.project != project || w.revision.brick != ref.brick || w.revision.revision != ref.number
      then ResolverFails else FoundRevision(w.revision)
    case Err(ProjectNotFound) => AbsentRevision
    case Err(BrickNotFound) => AbsentRevision
    case Err(RevisionNotFound) => AbsentRevision
    case Err(_) => ResolverFails
  }

  /** The deterministic validators and the workspace. */
  datatype Validators = Validators(
    digest: DigestFunction,
    backendFindings: Body -> Option<nat>,
    providerFindings: ToolProvider -> Option<nat>,
    compatibilityFindings: (Body, Body) -> nat,
    workspace: (ProjectId, Text, Text) -> Workspace)

  /** What one read finds: the store at that moment, and whether its transaction begins and commits. */
  datatype Read = Read(tables: Tables, env: Env)

  /** The ports of a validation whose reads found the store as `seen` says, one after another. */
  function PortsOver(v: Validators, seen: seq<Read>): Ports {
    Ports(v.digest,
          (i: nat, project: ProjectId, ref: Ref) =>
            if i < |seen| then ResolveExact(v.digest, seen[i].tables, seen[i].env, project, ref) else ResolverFails,
          v.backendFindings, v.providerFindings, v.compatibilityFindings, v.workspace)
  }

  predicate Reads(env: Env) { env.beginOk && env.commitOk }

  /** What resolved once resolves to the same revision in every later store, and its texts do not
      start with a BOM. */
  lemma ResolvesLater(h: DigestFunction, t: Tables, t': Tables, env: Env, env': Env, project: ProjectId, ref: Ref, r: Revision)
    requires Consistent(h, t) && Consistent(h, t') && Extends(Logs(t), Logs(t')) && Countable(t') && Reads(env') && ref.number >= 1
    requires ResolveExact(h, t, env, project, ref) == FoundRevision(r)
    ensures ResolveExact(h, t', env', project, ref) == FoundRevision(r)
    ensures NoLeafStartsWithBom(r.body)
  {
    var key := Key(project, ref.brick);
    ReadExactRefines(h, t, key, ref.number, env);
    ReadExactRefines(h, t', key, ref.number, env');
    var log, log' := Logs(t).logs[key], Logs(t').logs[key];
    assert LogExtends(log, log');
    assert log'.entries[ref.number - 1] == log.entries[ref.number - 1];
    assert key in t'.aggregates && AggregateOk(t', key);
  }

  // ---------------------------------------------------------------- validating the same spec again

  /** Every reference of the spec resolves over `ports'` as it did over `ports`. */
  ghost predicate ResolvesAlike(ports: Ports, ports': Ports, project: ProjectId, ds: seq<Descriptor>) {
    && ports' == ports.(resolve := ports'.resolve)
    && forall i | 0 <= i < |ds| :: ports'.resolve(i, project, ds[i].ref) == ports.resolve(i, project, ds[i].ref)
  }

  /** The provenance asks for nothing but what was accepted. */
  ghost predicate ProvenanceFits(ports: Ports, project: ProjectId, ds: seq<Descriptor>, provenance: map<Text, Provenance>) {
    forall i | 0 <= i < |ds| && ds[i].path in provenance ::
      var e := Examine(ports, project, i, ds[i], map[]);
      e.Accepted? && ProvenanceMatches(e.revision, provenance[ds[i].path])
  }

  lemma {:induction false} CollectsAlike(ports: Ports, ports': Ports, project: ProjectId, ds: seq<Descriptor>,
                                         provenance: map<Text, Provenance>, n: nat)
    requires n <= |ds| && ResolvesAlike(ports, ports', project, ds) && ProvenanceFits(ports, project, ds, provenance)
    ensures Collect(ports', project, ds, provenance, n) == Collect(ports, project, ds, map[], n)
  {
    if n > 0 {
      CollectsAlike(ports, ports', project, ds, provenance, n - 1);
      assert Examine(ports', project, n - 1, ds[n - 1], provenance) == Examine(ports, project, n - 1, ds[n - 1], map[]);
    }
  }

  /** Validation over the later store, with the persisted provenance, has the same outcome. */
  lemma ValidatesAlike(ports: Ports, ports': Ports, project: ProjectId, spec: Spec, provenance: map<Text, Provenance>)
    requires ResolvesAlike(ports, ports', project, Descriptors(spec))
    requires ProvenanceFits(ports, project, Descriptors(spec), provenance)
    ensures Validate(ports', project, spec, provenance) == Validate(ports, project, spec, map[])
  {
    var ds := Descriptors(spec);
    CollectsAlike(ports, ports', project, ds, provenance, |ds|);
    var collected := Collect(ports, project, ds, map[], |ds|);
    if collected.Some? { ChecksAlike(ports, ports', project, ds, collected.value); }
  }

  lemma {:induction false} ProvidersAlike(ports: Ports, ports': Ports, ps: seq<ToolProvider>, n: nat)
    requires n <= |ps| && ports'.providerFindings == ports.providerFindings
    ensures ProviderIssues(ports', ps, n) == ProviderIssues(ports, ps, n)
  {
    if n > 0 { ProvidersAlike(ports, ports', ps, n - 1); }
  }

  lemma ToolsetAlike(ports: Ports, ports': Ports, toolset: Option<Resolved>)
    requires ports' == ports.(resolve := ports'.resolve)
    ensures ToolsetIssues(ports', toolset) == ToolsetIssues(ports, toolset)
  {
    if toolset.Some? && IsToolsetBody(toolset.value.revision.body) {
      var ps := toolset.value.revision.body.providers;
      ProvidersAlike(ports, ports', ps, |ps|);
    }
  }

  lemma OthersAlike(ports: Ports, ports': Ports, project: ProjectId, backend: Option<Resolved>, toolset: Option<Resolved>, runtime: Option<Resolved>)
    requires ports' == ports.(resolve := ports'.resolve)
    ensures BackendIssues(ports', backend) == BackendIssues(ports, backend)
    ensures CompatibilityIssues(ports', backend, toolset) == CompatibilityIssues(ports, backend, toolset)
    ensures RuntimeCheck(ports', project, runtime) == RuntimeCheck(ports, project, runtime)
  {}

  lemma ChecksAlike(ports: Ports, ports': Ports, project: ProjectId, ds: seq<Descriptor>, c: Collected)
    requires ports' == ports.(resolve := ports'.resolve)
    ensures Checks(ports', project, ds, c) == Checks(ports, project, ds, c)
    ensures forall issues :: Conclude(ports', project, c, issues) == Conclude(ports, project, c, issues)
  {
    var backend, toolset := First(InSlot(c.found, BackendSlot)), First(InSlot(c.found, ToolsetSlot));
    ToolsetAlike(ports, ports', toolset);
    OthersAlike(ports, ports', project, backend, toolset, First(InSlot(c.found, RuntimeSlot)));
  }

  // ---------------------------------------------------------------- a stored view

  /** What the template repository returns for a revision: the view it was given, but for its status. */
  predicate StoredAs(stored: View, created: View) {
    stored == created.(status := stored.status)
  }

  lemma EntryAt(ports: Ports, project: ProjectId, from: nat, kind: BrickKind, refs: seq<Ref>, entries: seq<Resolved>, i: nat)
    requires EntriesFit(ports, project, from, kind, refs, entries) && i < |refs|
    ensures EntryFits(ports, project, from + i, kind, refs[i], entries[i])
  {}

  /** An accepted entry matches its own binding. */
  lemma EntryMatchesBinding(ports: Ports, project: ProjectId, i: nat, d: Descriptor, slot: Slot, kind: BrickKind, ref: Ref, e: Resolved, v: View)
    requires EntryFits(ports, project, i, kind, ref, e) && Asks(d, slot, kind, ref) && v.project == project
    ensures Examine(ports, project, i, d, map[]) == Accepted(e.revision)
    ensures ProvenanceMatches(e.revision, ProvenanceOf(v, BoundEntry(e), kind))
  {}

  /** The i-th binding of a view, as provenance. */
  function BindingAt(v: View, i: nat): Provenance {
    var m, n := |v.spec.systemPrompts|, |v.spec.initialPrompts|;
    if i < m then ProvenanceOf(v, v.spec.systemPrompts[i], SysPrompt)
    else if i < m + n then ProvenanceOf(v, v.spec.initialPrompts[i - m], Prompt)
    else if i == m + n then ProvenanceOf(v, v.spec.backend, Backend)
    else if i == m + n + 1 then ProvenanceOf(v, v.spec.toolset, Toolset)
    else ProvenanceOf(v, v.spec.runtimeConfig, RuntimeConfig)
  }

  /** `provenance` holds the i-th binding under the path of the i-th descriptor. */
  ghost predicate Persists(v: View, ds: seq<Descriptor>, provenance: map<Text, Provenance>) {
    forall i | 0 <= i < |ds| :: ds[i].path in provenance && provenance[ds[i].path] == BindingAt(v, i)
  }

  lemma ListedAt(v: View, i: nat)
    requires i < |ProvenanceList(v)|
    ensures ProvenanceList(v)[i].provenance == BindingAt(v, i)
  {}

  lemma ViewPersists(v: View)
    ensures Persists(v, Descriptors(AuthoredSpec(v)), MapOf(ProvenanceList(v)))
  {
    ProvenancePathsAreDescriptorPaths(v);
    forall i | 0 <= i < |Descriptors(AuthoredSpec(v))|
      ensures var path := Descriptors(AuthoredSpec(v))[i].path;
              path in MapOf(ProvenanceList(v)) && MapOf(ProvenanceList(v))[path] == BindingAt(v, i)
    {
      ProvenanceAtDescriptor(v, i);
      ListedAt(v, i);
    }
  }

  /** The revision descriptor `i` is accepted with matches `binding`. */
  ghost predicate AcceptedAs(ports: Ports, project: ProjectId, i: nat, d: Descriptor, binding: Provenance) {
    var e := Examine(ports, project, i, d, map[]);
    e.Accepted? && ProvenanceMatches(e.revision, binding)
  }

  lemma EntriesMatchBindings(ports: Ports, project: ProjectId, from: nat, d: Descriptor, slot: Slot, kind: BrickKind, refs: seq<Ref>,
                             entries: seq<Resolved>, i: nat, v: View)
    requires EntriesFit(ports, project, from, kind, refs, entries) && i < |refs| && Asks(d, slot, kind, refs[i]) && v.project == project
    ensures AcceptedAs(ports, project, from + i, d, ProvenanceOf(v, BoundEntry(entries[i]), kind))
  {
    EntryAt(ports, project, from, kind, refs, entries, i);
    EntryMatchesBinding(ports, project, from + i, d, slot, kind, refs[i], entries[i], v);
  }

  /** The binding of the view's i-th reference is the revision its descriptor is accepted with. */
  lemma BindingFits(ports: Ports, project: ProjectId, spec: Spec, ds: seq<Descriptor>, c: Candidate, v: View, i: nat)
    requires CandidateFits(ports, project, spec, c) && v.project == project && v.spec == BoundSpec(c) && AsksFor(ds, spec) && i < |ds|
    ensures AcceptedAs(ports, project, i, ds[i], BindingAt(v, i))
  {
    var m, n := |spec.systemPrompts|, |spec.initialPrompts|;
    if i < m + n {
      PromptBindingFits(ports, project, spec, ds, c, v, i);
    } else {
      SingleBindingFits(ports, project, spec, ds, c, v, i);
    }
  }

  lemma PromptBindingFits(ports: Ports, project: ProjectId, spec: Spec, ds: seq<Descriptor>, c: Candidate, v: View, i: nat)
    requires EntriesFit(ports, project, 0, SysPrompt, spec.systemPrompts, c.systemPrompts)
    requires EntriesFit(ports, project, |spec.systemPrompts|, Prompt, spec.initialPrompts, c.initialPrompts)
    requires v.project == project && v.spec == BoundSpec(c) && AsksFor(ds, spec) && i < |spec.systemPrompts| + |spec.initialPrompts|
    ensures AcceptedAs(ports, project, i, ds[i], BindingAt(v, i))
  {
    var m := |spec.systemPrompts|;
    if i < m {
      assert Asks(ds[i], SystemSlot, SysPrompt, spec.systemPrompts[i]);
      EntriesMatchBindings(ports, project, 0, ds[i], SystemSlot, SysPrompt, spec.systemPrompts, c.systemPrompts, i, v);
    } else {
      assert Asks(ds[m + (i - m)], InitialSlot, Prompt, spec.initialPrompts[i - m]);
      EntriesMatchBindings(ports, project, m, ds[i], InitialSlot, Prompt, spec.initialPrompts, c.initialPrompts, i - m, v);
    }
  }

  lemma SingleBindingFits(ports: Ports, project: ProjectId, spec: Spec, ds: seq<Descriptor>, c: Candidate, v: View, i: nat)
    requires CandidateFits(ports, project, spec, c) && v.project == project && v.spec == BoundSpec(c) && AsksFor(ds, spec)
    requires |spec.systemPrompts| + |spec.initialPrompts| <= i < |ds|
    ensures AcceptedAs(ports, project, i, ds[i], BindingAt(v, i))
  {
    var k := |spec.systemPrompts| + |spec.initialPrompts|;
    if i == k {
      EntryMatchesBinding(ports, project, i, ds[i], BackendSlot, Backend, spec.backend, c.backend, v);
    } else if i == k + 1 {
      EntryMatchesBinding(ports, project, i, ds[i], ToolsetSlot, Toolset, spec.toolset, c.toolset, v);
    } else {
      EntryMatchesBinding(ports, project, i, ds[i], RuntimeSlot, RuntimeConfig, spec.runtimeConfig, c.runtimeConfig, v);
    }
  }

  /** A view's persisted provenance asks for nothing but what its descriptors are accepted with. */
  lemma ViewProvenanceFits(ports: Ports, project: ProjectId, spec: Spec, ds: seq<Descriptor>, c: Candidate, v: View,
                           provenance: map<Text, Provenance>)
    requires CandidateFits(ports, project, spec, c) && v.project == project && v.spec == BoundSpec(c)
    requires Persists(v, ds, provenance) && AsksFor(ds, spec)
    ensures ProvenanceFits(ports, project, ds, provenance)
  {
    forall i | 0 <= i < |ds|
      ensures var e := Examine(ports, project, i, ds[i], map[]);
              e.Accepted? && ProvenanceMatches(e.revision, provenance[ds[i].path])
    {
      BindingFits(ports, project, spec, ds, c, v, i);
      assert AcceptedAs(ports, project, i, ds[i], provenance[ds[i].path]);
    }
  }

  // ---------------------------------------------------------------- compiling a stored revision

  datatype CompileResult = Compiled(snapshot: Snapshot) | OperationFailed | ValidationFailed(issues: seq<PublicIssue>) | CompilationFailed

  function SourceOf(v: View): SourceTemplate {
    SourceTemplate(v.templateUid, v.templateId, v.revision, v.revisionDigest)
  }

  /** `compileAndPersist` once the outcome of validation is known; `saved` is whether the snapshot was new. */
  function CompileOutcome(h: DigestFunction, d: TemplateDigests, v: View, outcome: ValidationOutcome, env: CompileEnv, saved: bool): CompileResult {
    match outcome
    case ValidationThrew => OperationFailed
    case Reported(issues, resolved) =>
      if issues != [] || resolved.None? then ValidationFailed(issues)
      else match Compile(h, d, SourceOf(v), resolved.value, env)
           case None => CompilationFailed
           case Some(snapshot) => if saved then Compiled(snapshot) else OperationFailed
  }

  /** `compileAndPersist` for the view the repository returned. */
  function CompileStored(ports: Ports, d: TemplateDigests, v: View, env: CompileEnv, saved: bool): CompileResult {
    if !RevisionDigestMatches(d, v) then OperationFailed
    else CompileOutcome(ports.digest, d, v, Validate(ports, v.project, AuthoredSpec(v), MapOf(ProvenanceList(v))), env, saved)
  }

  /** Provider ids of a toolset differ when its providers raised no issue. */
  lemma {:induction false} NoIssueNoRepeat(ports: Ports, ps: seq<ToolProvider>, n: nat)
    requires n <= |ps| && ProviderIssues(ports, ps, n) == []
    ensures forall i, j | 0 <= i < j < n :: ps[i].providerId != ps[j].providerId
  {
    if n > 0 {
      NoIssueNoRepeat(ports, ps, n - 1);
      assert !ProviderRepeats(ps, n - 1);
    }
  }

  lemma {:induction false} NoIssueAllDecode(entries: seq<Resolved>, decodes: Body -> bool, path: Text)
    requires BodyIssues(entries, decodes, path) == []
    ensures forall i | 0 <= i < |entries| :: decodes(entries[i].revision.body)
  {
    if entries != [] { NoIssueAllDecode(entries[..|entries| - 1], decodes, path); }
  }

  /** A candidate of a valid report decodes in every slot, and its providers differ. */
  lemma ValidDecodes(ports: Ports, project: ProjectId, spec: Spec, provenance: map<Text, Provenance>)
    requires Validate(ports, project, spec, provenance).Reported? && Validate(ports, project, spec, provenance).issues == []
    requires Validate(ports, project, spec, provenance).resolved.Some?
    ensures var c := Validate(ports, project, spec, provenance).resolved.value;
            BodiesDecode(c) && ProviderIdsDiffer(c.toolset.revision.body.providers)
  {
    var ds := Descriptors(spec);
    var collected := Collect(ports, project, ds, provenance, |ds|).value;
    NoIssues(Checks(ports, project, ds, collected));
    ChecklessDecodes(ports, project, ds, collected);
  }

  lemma ChecklessDecodes(ports: Ports, project: ProjectId, ds: seq<Descriptor>, k: Collected)
    requires Checks(ports, project, ds, k) == [] && Conclude(ports, project, k, []).resolved.Some?
    ensures var c := Conclude(ports, project, k, []).resolved.value;
            BodiesDecode(c) && ProviderIdsDiffer(c.toolset.revision.body.providers)
  {
    var c := Conclude(ports, project, k, []).resolved.value;
    EachCheckEmpty(ports, project, ds, k);
    NoIssueAllDecode(c.systemPrompts, IsSystemBody, SystemSlotPath());
    NoIssueAllDecode(c.initialPrompts, IsPromptBody, InitialSlotPath());
    var ps := c.toolset.revision.body.providers;
    NoIssueNoRepeat(ports, ps, |ps|);
  }

  lemma EachCheckEmpty(ports: Ports, project: ProjectId, ds: seq<Descriptor>, k: Collected)
    requires Checks(ports, project, ds, k) == [] && Conclude(ports, project, k, []).resolved.Some?
    ensures var c := Conclude(ports, project, k, []).resolved.value;
            && BodyIssues(c.systemPrompts, IsSystemBody, SystemSlotPath()) == []
            && BodyIssues(c.initialPrompts, IsPromptBody, InitialSlotPath()) == []
            && IsBackendBody(c.backend.revision.body) && IsToolsetBody(c.toolset.revision.body) && IsRuntimeBody(c.runtimeConfig.revision.body)
            && ProviderIssues(ports, c.toolset.revision.body.providers, |c.toolset.revision.body.providers|) == []
  {}

  // ---------------------------------------------------------------- end to end

  /** One read before another in a run, the later one readable. */
  ghost predicate LaterRead(h: DigestFunction, r: Read, r': Read) {
    Consistent(h, r.tables) && Consistent(h, r'.tables) && Extends(Logs(r.tables), Logs(r'.tables))
    && Countable(r'.tables) && Reads(r'.env)
  }

  /** Each read of one validation before the same read of another. */
  ghost predicate Later(h: DigestFunction, seen: seq<Read>, later: seq<Read>) {
    |seen| <= |later| && forall i | 0 <= i < |seen| :: LaterRead(h, seen[i], later[i])
  }

  lemma EntryResolvesLater(v: Validators, seen: seq<Read>, later: seq<Read>, project: ProjectId, i: nat, kind: BrickKind, ref: Ref, e: Resolved)
    requires Later(v.digest, seen, later) && EntryFits(PortsOver(v, seen), project, i, kind, ref, e)
    ensures PortsOver(v, later).resolve(i, project, ref) == PortsOver(v, seen).resolve(i, project, ref)
    ensures NoLeafStartsWithBom(e.revision.body)
  {
    assert LaterRead(v.digest, seen[i], later[i]);
    ResolvesLater(v.digest, seen[i].tables, later[i].tables, seen[i].env, later[i].env, project, ref, e.revision);
  }

  lemma EntryOfDescriptor(ports: Ports, project: ProjectId, spec: Spec, ds: seq<Descriptor>, c: Candidate, i: nat) returns (e: Resolved)
    requires CandidateFits(ports, project, spec, c) && AsksFor(ds, spec) && i < |ds|
    ensures EntryFits(ports, project, i, ds[i].expectedKind, ds[i].ref, e)
  {
    var m, n := |spec.systemPrompts|, |spec.initialPrompts|;
    if i < m {
      assert Asks(ds[i], SystemSlot, SysPrompt, spec.systemPrompts[i]);
      EntryAt(ports, project, 0, SysPrompt, spec.systemPrompts, c.systemPrompts, i);
      return c.systemPrompts[i];
    } else if i < m + n {
      assert Asks(ds[m + (i - m)], InitialSlot, Prompt, spec.initialPrompts[i - m]);
      EntryAt(ports, project, m, Prompt, spec.initialPrompts, c.initialPrompts, i - m);
      return c.initialPrompts[i - m];
    } else if i == m + n {
      return c.backend;
    } else if i == m + n + 1 {
      return c.toolset;
    } else {
      return c.runtimeConfig;
    }
  }

  lemma ReferenceResolvesLater(v: Validators, seen: seq<Read>, later: seq<Read>, project: ProjectId, spec: Spec,
                               ds: seq<Descriptor>, c: Candidate, i: nat)
    requires Later(v.digest, seen, later) && CandidateFits(PortsOver(v, seen), project, spec, c) && AsksFor(ds, spec) && i < |ds|
    ensures PortsOver(v, later).resolve(i, project, ds[i].ref) == PortsOver(v, seen).resolve(i, project, ds[i].ref)
  {
    var e := EntryOfDescriptor(PortsOver(v, seen), project, spec, ds, c, i);
    EntryResolvesLater(v, seen, later, project, i, ds[i].expectedKind, ds[i].ref, e);
  }

  lemma EntriesReadNoBom(v: Validators, seen: seq<Read>, later: seq<Read>, project: ProjectId, from: nat, kind: BrickKind,
                         refs: seq<Ref>, entries: seq<Resolved>)
    requires Later(v.digest, seen, later) && EntriesFit(PortsOver(v, seen), project, from, kind, refs, entries)
    ensures forall i | 0 <= i < |entries| :: NoLeafStartsWithBom(entries[i].revision.body)
  {
    forall i | 0 <= i < |entries| ensures NoLeafStartsWithBom(entries[i].revision.body) {
      EntryAt(PortsOver(v, seen), project, from, kind, refs, entries, i);
      EntryResolvesLater(v, seen, later, project, from + i, kind, refs[i], entries[i]);
    }
  }

  lemma CandidateReadsNoBom(v: Validators, seen: seq<Read>, later: seq<Read>, project: ProjectId, spec: Spec, c: Candidate)
    requires Later(v.digest, seen, later) && CandidateFits(PortsOver(v, seen), project, spec, c)
    ensures NoPromptStartsWithBom(c)
  {
    EntriesReadNoBom(v, seen, later, project, 0, SysPrompt, spec.systemPrompts, c.systemPrompts);
    EntriesReadNoBom(v, seen, later, project, |spec.systemPrompts|, Prompt, spec.initialPrompts, c.initialPrompts);
  }

  /** Validation of the stored view over later reads yields the candidate of its creation. */
  lemma RevalidatesLater(v: Validators, d: TemplateDigests, seen: seq<Read>, later: seq<Read>, spec: Spec, c: Candidate, stored: View)
    requires Later(v.digest, seen, later)
    requires Validate(PortsOver(v, seen), stored.project, spec, map[]) == Reported([], Some(c))
    requires AuthoredSpec(stored) == spec && stored.spec == BoundSpec(c)
    ensures CandidateFits(PortsOver(v, seen), stored.project, spec, c) && NoPromptStartsWithBom(c)
    ensures Validate(PortsOver(v, later), stored.project, spec, MapOf(ProvenanceList(stored))) == Reported([], Some(c))
  {
    var ports, ports' := PortsOver(v, seen), PortsOver(v, later);
    var provenance := MapOf(ProvenanceList(stored));
    ValidResolvesEverything(ports, stored.project, spec, map[]);
    DescriptorsAsk(spec);
    CandidateReadsNoBom(v, seen, later, stored.project, spec, c);
    var ds := Descriptors(spec);
    forall i | 0 <= i < |ds| ensures ports'.resolve(i, stored.project, ds[i].ref) == ports.resolve(i, stored.project, ds[i].ref) {
      ReferenceResolvesLater(v, seen, later, stored.project, spec, ds, c, i);
    }
    ViewPersists(stored);
    ViewProvenanceFits(ports, stored.project, spec, Descriptors(spec), c, stored, provenance);
    ValidatesAlike(ports, ports', stored.project, spec, provenance);
  }

  lemma FittingIsConsistent(ports: Ports, project: ProjectId, spec: Spec, c: Candidate, env: CompileEnv)
    requires CandidateFits(ports, project, spec, c) && env.wellFormed && c.workingDirectory != []
    ensures InputConsistent(ports.digest, c, env)
  {
    forall i | 0 <= i < |c.systemPrompts| ensures RevisionConsistent(ports.digest, c.project, c.systemPrompts[i], SysPrompt) {
      assert EntryFits(ports, project, 0 + i, SysPrompt, spec.systemPrompts[i], c.systemPrompts[i]);
    }
    forall i | 0 <= i < |c.initialPrompts| ensures RevisionConsistent(ports.digest, c.project, c.initialPrompts[i], Prompt) {
      assert EntryFits(ports, project, |spec.systemPrompts| + i, Prompt, spec.initialPrompts[i], c.initialPrompts[i]);
    }
  }

  /** Compiling a stored view whose validation yields the candidate of its creation. */
  lemma CompilesFromCandidate(h: DigestFunction, d: TemplateDigests, stored: View, c: Candidate, cenv: CompileEnv)
    requires stored.spec == BoundSpec(c) && ConfigurationDigestFor(d, c) == Some(stored.configDigest)
    requires InputConsistent(h, c, cenv) && BodiesDecode(c) && NoPromptStartsWithBom(c)
    requires ProviderIdsDiffer(c.toolset.revision.body.providers) && ValidText(c.workingDirectory)
    ensures var r := CompileOutcome(h, d, stored, Reported([], Some(c)), cenv, true);
            && r.Compiled?
            && r.snapshot.configDigest == stored.configDigest
            && r.snapshot.sourceBricks == SourceBricks(stored.spec)
            && r.snapshot.source == SourceOf(stored)
  {
    CompilesToStored(h, d, SourceOf(stored), c, cenv, stored.configDigest);
  }

  lemma CompilesToStored(h: DigestFunction, d: TemplateDigests, source: SourceTemplate, c: Candidate, cenv: CompileEnv, config: Digest)
    requires ConfigurationDigestFor(d, c) == Some(config)
    requires InputConsistent(h, c, cenv) && BodiesDecode(c) && NoPromptStartsWithBom(c)
    requires ProviderIdsDiffer(c.toolset.revision.body.providers) && ValidText(c.workingDirectory)
    ensures var r := Compile(h, d, source, c, cenv);
            r.Some? && r.value.configDigest == config && r.value.sourceBricks == SourceBricks(BoundSpec(c)) && r.value.source == source
  {
    CompilesWhen(h, d, source, c, cenv);
    CompileAgreesWithView(h, d, source, c, cenv);
  }

  /** A template revision created over one sequence of reads compiles over every later one, to the
      configuration digest it was stored with and the same ordered brick provenance. */
  lemma CompilesLater(v: Validators, d: TemplateDigests, seen: seq<Read>, later: seq<Read>,
                      uid: Uid, id: int, metadata: Metadata, spec: Spec, c: Candidate, revision: int, createdAt: Timestamp,
                      stored: View, cenv: CompileEnv)
    requires Later(v.digest, seen, later)
    requires Validate(PortsOver(v, seen), c.project, spec, map[]) == Reported([], Some(c))
    requires RevisionView(d, uid, id, metadata, spec, c, revision, createdAt).Some?
    requires StoredAs(stored, RevisionView(d, uid, id, metadata, spec, c, revision, createdAt).value)
    requires ValidText(c.workingDirectory) && cenv.wellFormed
    ensures var r := CompileStored(PortsOver(v, later), d, stored, cenv, true);
            && r.Compiled?
            && r.snapshot.configDigest == stored.configDigest
            && r.snapshot.sourceBricks == SourceBricks(stored.spec)
            && r.snapshot.source == SourceTemplate(uid, id, revision, stored.revisionDigest)
  {
    var ports := PortsOver(v, seen);
    ValidResolvesEverything(ports, c.project, spec, map[]);
    StoredViewMeans(d, ports, uid, id, metadata, spec, c, revision, createdAt, stored);
    RevalidatesLater(v, d, seen, later, spec, c, stored);
    ValidDecodes(ports, c.project, spec, map[]);
    FittingIsConsistent(ports, c.project, spec, c, cenv);
    CompilesFromCandidate(v.digest, d, stored, c, cenv);
  }

  lemma StoredViewMeans(d: TemplateDigests, ports: Ports, uid: Uid, id: int, metadata: Metadata, spec: Spec, c: Candidate,
                        revision: int, createdAt: Timestamp, stored: View)
    requires CandidateFits(ports, c.project, spec, c)
    requires RevisionView(d, uid, id, metadata, spec, c, revision, createdAt).Some?
    requires StoredAs(stored, RevisionView(d, uid, id, metadata, spec, c, revision, createdAt).value)
    ensures AuthoredSpec(stored) == spec && RevisionDigestMatches(d, stored) && stored.spec == BoundSpec(c)
    ensures ConfigurationDigestFor(d, c) == Some(stored.configDigest)
    ensures stored.project == c.project && stored.templateUid == uid && stored.templateId == id && stored.revision == revision
  {
    AuthoredSpecRoundTrips(d, ports, uid, id, metadata, spec, c, revision, createdAt, c.project);
  }
}
