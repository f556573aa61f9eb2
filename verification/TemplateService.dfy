/** `ActorTemplateApplicationService` over the Project store and a unit of work that keeps templates as
    append-only lists of revision views. */
module TemplateService {
  import opened Options
  import opened Utf16Text
  import opened BrickBodies
  import opened ProjectTables
  import P = ProjectService
  import opened ProjectLogs
  import opened ProjectRuns
  import opened TemplateIssues
  import opened TemplateValidation
  import opened TemplateCandidates
  import opened TemplateRevisions
  import opened TemplateCompiler
  import opened TemplateRuns

  datatype TemplateKey = TemplateKey(project: ProjectId, templateId: int)

  /** What the repository port keeps of one template: revision n is view n - 1. */
  datatype Template = Template(uid: Uid, status: Status, views: seq<View>)

  datatype Store = Store(projects: set<ProjectId>, templates: map<TemplateKey, Template>, snapshots: map<Uid, Snapshot>)

  datatype TemplateError =
    | ProjectMissing | ResourceIdConflict | TemplateMissing | TemplateIsArchived | BaseRevisionConflict
    | Invalid(issues: seq<PublicIssue>) | NotCompiled | OperationDidFail

  datatype Answer<+T> = Done(value: T) | Aborted(error: TemplateError)

  datatype CreateTemplate = CreateTemplate(key: TemplateKey, metadata: Metadata, spec: Spec)
  datatype ReviseTemplate = ReviseTemplate(key: TemplateKey, base: int, metadata: Metadata, spec: Spec)

  /** Whether the unit of work begins and commits, and what the identity provider and clock supply. */
  datatype UnitEnv = UnitEnv(runs: bool, uid: Uid, now: Timestamp)

  // ---------------------------------------------------------------- commands as functions on the store

  /** Candidates that validation lets through, or the error to answer with. */
  function Admitted(outcome: ValidationOutcome): Answer<Candidate> {
    match outcome
    case ValidationThrew => Aborted(OperationDidFail)
    case Reported(issues, resolved) =>
      if issues != [] || resolved.None? then Aborted(Invalid(issues)) else Done(resolved.value)
  }

  function CreateOn(ports: Ports, d: TemplateDigests, s: Store, cmd: CreateTemplate, env: UnitEnv): (Store, Answer<View>) {
    CreateAdmitted(d, s, cmd, Admitted(Validate(ports, cmd.key.project, cmd.spec, map[])), env)
  }

  function CreateAdmitted(d: TemplateDigests, s: Store, cmd: CreateTemplate, admitted: Answer<Candidate>, env: UnitEnv): (Store, Answer<View>) {
    match admitted
    case Aborted(e) => (s, Aborted(e))
    case Done(c) =>
      if !env.runs then (s, Aborted(OperationDidFail))
      else if cmd.key.project !in s.projects then (s, Aborted(ProjectMissing))
      else if cmd.key in s.templates then (s, Aborted(ResourceIdConflict))
      else match RevisionView(d, env.uid, cmd.key.templateId, cmd.metadata, cmd.spec, c, 1, env.now)
           case None => (s, Aborted(OperationDidFail))
           case Some(view) => (s.(templates := s.templates[cmd.key := Template(env.uid, Active, [view])]), Done(view))
  }

  function ReviseOn(ports: Ports, d: TemplateDigests, s: Store, cmd: ReviseTemplate, env: UnitEnv): (Store, Answer<View>) {
    ReviseAdmitted(d, s, cmd, Admitted(Validate(ports, cmd.key.project, cmd.spec, map[])), env)
  }

  function ReviseAdmitted(d: TemplateDigests, s: Store, cmd: ReviseTemplate, admitted: Answer<Candidate>, env: UnitEnv): (Store, Answer<View>) {
    match admitted
    case Aborted(e) => (s, Aborted(e))
    case Done(c) =>
      if !env.runs then (s, Aborted(OperationDidFail))
      else if cmd.key !in s.templates then (s, Aborted(TemplateMissing))
      else
        var current := s.templates[cmd.key];
        if current.status == Archived then (s, Aborted(TemplateIsArchived))
        else if |current.views| != cmd.base then (s, Aborted(BaseRevisionConflict))
        else match RevisionView(d, current.uid, cmd.key.templateId, cmd.metadata, cmd.spec, c, cmd.base + 1, env.now)
             case None => (s, Aborted(OperationDidFail))
             case Some(view) => (s.(templates := s.templates[cmd.key := current.(views := current.views + [view])]), Done(view))
  }

  function ArchiveOn(s: Store, key: TemplateKey, expected: Option<int>, env: UnitEnv): (Store, Answer<Template>) {
    if !env.runs then (s, Aborted(OperationDidFail))
    else if key !in s.templates then (s, Aborted(TemplateMissing))
    else
      var current := s.templates[key];
      if current.status == Archived then (s, Done(current))
      else if expected.Some? && expected.value != |current.views| then (s, Aborted(BaseRevisionConflict))
      else
        var archived := current.(status := Archived);
        (s.(templates := s.templates[key := archived]), Done(archived))
  }

  /** `findRevision`: the view as it was given, under the template's present status. */
  function FindView(s: Store, key: TemplateKey, number: int): Option<View> {
    if key in s.templates && 1 <= number <= |s.templates[key].views|
    then Some(s.templates[key].views[number - 1].(status := s.templates[key].status)) else None
  }

  /** A compiled snapshot is stored under its id; anything else aborts. */
  function Save(s: Store, result: CompileResult): (Store, Answer<Snapshot>) {
    match result
    case Compiled(snapshot) => (s.(snapshots := s.snapshots[snapshot.snapshotId := snapshot]), Done(snapshot))
    case OperationFailed => (s, Aborted(OperationDidFail))
    case ValidationFailed(issues) => (s, Aborted(Invalid(issues)))
    case CompilationFailed => (s, Aborted(NotCompiled))
  }

  /** `compileAndPersist` up to its validation. */
  function CompileBegun(d: TemplateDigests, s: Store, key: TemplateKey, number: int): Answer<View> {
    match FindView(s, key, number)
    case None => Aborted(TemplateMissing)
    case Some(view) => if RevisionDigestMatches(d, view) then Done(view) else Aborted(OperationDidFail)
  }

  /** And from its validation on. */
  function CompileValidatedOn(h: P.DigestFunction, d: TemplateDigests, s: Store, view: View, outcome: ValidationOutcome, cenv: CompileEnv)
    : (Store, Answer<Snapshot>)
  {
    Save(s, CompileOutcome(h, d, view, outcome, cenv, cenv.snapshotId !in s.snapshots))
  }

  function CompileOn(ports: Ports, d: TemplateDigests, s: Store, key: TemplateKey, number: int, cenv: CompileEnv, runs: bool): (Store, Answer<Snapshot>) {
    if !runs then (s, Aborted(OperationDidFail))
    else match CompileBegun(d, s, key, number)
         case Aborted(e) => (s, Aborted(e))
         case Done(view) => CompileValidatedOn(ports.digest, d, s, view, Revalidation(ports, view), cenv)
  }

  /** The authoritative validation of a stored view, against its persisted provenance. */
  function Revalidation(ports: Ports, view: View): ValidationOutcome {
    Validate(ports, view.project, AuthoredSpec(view), MapOf(ProvenanceList(view)))
  }

  // ---------------------------------------------------------------- the service object

  /** The service over one unit of work. A command that aborts leaves the store as it was. */
  class ActorTemplateApplicationService {
    const digests: TemplateDigests
    var store: Store

    constructor (digests: TemplateDigests, projects: set<ProjectId>)
      ensures this.digests == digests && store == Store(projects, map[], map[])
    {
      this.digests := digests;
      store := Store(projects, map[], map[]);
    }

    /** Validation first, on its own; then the transaction. */
    method Create(ports: Ports, cmd: CreateTemplate, env: UnitEnv) returns (r: Answer<View>)
      modifies this
      ensures (store, r) == CreateOn(ports, digests, old(store), cmd, env)
    {
      var outcome := ResolveCandidate(ports, cmd.key.project, cmd.spec, map[]);
      r := CreateValidated(cmd, outcome, env);
    }

    method CreateValidated(cmd: CreateTemplate, outcome: ValidationOutcome, env: UnitEnv) returns (r: Answer<View>)
      modifies this
      ensures (store, r) == CreateAdmitted(digests, old(store), cmd, Admitted(outcome), env)
    {
      var admitted := Admitted(outcome);
      if admitted.Aborted? { return Aborted(admitted.error); }
      if !env.runs { return Aborted(OperationDidFail); }
      if cmd.key.project !in store.projects { return Aborted(ProjectMissing); }
      if cmd.key in store.templates { return Aborted(ResourceIdConflict); }
      var view := RevisionView(digests, env.uid, cmd.key.templateId, cmd.metadata, cmd.spec, admitted.value, 1, env.now);
      if view.None? { return Aborted(OperationDidFail); }
      store := store.(templates := store.templates[cmd.key := Template(env.uid, Active, [view.value])]);
      return Done(view.value);
    }

    method Revise(ports: Ports, cmd: ReviseTemplate, env: UnitEnv) returns (r: Answer<View>)
      modifies this
      ensures (store, r) == ReviseOn(ports, digests, old(store), cmd, env)
    {
      var outcome := ResolveCandidate(ports, cmd.key.project, cmd.spec, map[]);
      r := ReviseValidated(cmd, outcome, env);
    }

    method ReviseValidated(cmd: ReviseTemplate, outcome: ValidationOutcome, env: UnitEnv) returns (r: Answer<View>)
      modifies this
      ensures (store, r) == ReviseAdmitted(digests, old(store), cmd, Admitted(outcome), env)
    {
      var admitted := Admitted(outcome);
      if admitted.Aborted? { return Aborted(admitted.error); }
      if !env.runs { return Aborted(OperationDidFail); }
      if cmd.key !in store.templates { return Aborted(TemplateMissing); }
      var current := store.templates[cmd.key];
      if current.status == Archived { return Aborted(TemplateIsArchived); }
      if |current.views| != cmd.base { return Aborted(BaseRevisionConflict); }
      var view := RevisionView(digests, current.uid, cmd.key.templateId, cmd.metadata, cmd.spec, admitted.value, cmd.base + 1, env.now);
      if view.None? { return Aborted(OperationDidFail); }
      store := store.(templates := store.templates[cmd.key := current.(views := current.views + [view.value])]);
      return Done(view.value);
    }

    method Archive(key: TemplateKey, expected: Option<int>, env: UnitEnv) returns (r: Answer<Template>)
      modifies this
      ensures (store, r) == ArchiveOn(old(store), key, expected, env)
    {
      if !env.runs { return Aborted(OperationDidFail); }
      if key !in store.templates { return Aborted(TemplateMissing); }
      var current := store.templates[key];
      if current.status == Archived { return Done(current); }
      if expected.Some? && expected.value != |current.views| { return Aborted(BaseRevisionConflict); }
      var archived := current.(status := Archived);
      store := store.(templates := store.templates[key := archived]);
      return Done(archived);
    }

    method CompileAndPersist(ports: Ports, key: TemplateKey, number: int, cenv: CompileEnv, runs: bool) returns (r: Answer<Snapshot>)
      modifies this
      ensures (store, r) == CompileOn(ports, digests, old(store), key, number, cenv, runs)
    {
      if !runs { return Aborted(OperationDidFail); }
      var found := FindView(store, key, number);
      if found.None? { return Aborted(TemplateMissing); }
      var view := found.value;
      if !RevisionDigestMatches(digests, view) { return Aborted(OperationDidFail); }
      var outcome := Revalidate(ports, view);
      r := CompileValidated(ports.digest, view, outcome, cenv);
    }

    method Revalidate(ports: Ports, view: View) returns (outcome: ValidationOutcome)
      ensures outcome == Revalidation(ports, view)
    {
      var provenance := PersistedProvenance(view);
      outcome := ResolveCandidate(ports, view.project, AuthoredSpec(view), provenance);
    }

    method CompileValidated(h: P.DigestFunction, view: View, outcome: ValidationOutcome, cenv: CompileEnv) returns (r: Answer<Snapshot>)
      modifies this
      ensures (store, r) == CompileValidatedOn(h, digests, old(store), view, outcome, cenv)
    {
      var admitted := Admitted(outcome);
      if admitted.Aborted? { return Aborted(admitted.error); }
      var compiled := Compile(h, digests, SourceOf(view), admitted.value, cenv);
      if compiled.None? { return Aborted(NotCompiled); }
      if cenv.snapshotId in store.snapshots { return Aborted(OperationDidFail); }
      store := store.(snapshots := store.snapshots[cenv.snapshotId := compiled.value]);
      return Done(compiled.value);
    }
  }
}
