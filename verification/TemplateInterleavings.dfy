/** Template commands in flight at the same time as each other and as commands on Definition Bricks:
    between any two reads of a validation, and between a validation and the transaction that follows it,
    anything may happen. */
module TemplateInterleavings {
  import opened Options
  import opened Utf16Text
  import opened BrickBodies
  import opened ProjectTables
  import P = ProjectService
  import opened ProjectLogs
  import opened ProjectRuns
  import opened TemplateValidation
  import opened TemplateCandidates
  import opened TemplateRevisions
  import opened TemplateCompiler
  import opened TemplateRuns
  import TS = TemplateService
  import opened TemplateService

  /** What a command on its way is after. A compilation knows the view it found and the tables when it
      found it. */
  datatype Request =
    | Creating(create: CreateTemplate)
    | Revising(revise: ReviseTemplate)
    | Compiling(key: TemplateKey, number: int, view: View, since: Tables)

  /** A command on its way, or over, with what its reads found so far. */
  datatype Flight = Flight(request: Request, seen: seq<Read>, landed: bool)

  datatype World = World(tables: Tables, store: Store, flights: seq<Flight>)

  datatype Event =
    | Brick(command: Command)
    | BeginCreate(create: CreateTemplate)
    | BeginRevise(revise: ReviseTemplate)
    | BeginCompile(key: TemplateKey, number: int, runs: bool)
    | ReadReference(flight: nat, readEnv: P.Env)                    // one awaited `resolveExact`
    | Finish(flight: nat, env: UnitEnv, cenv: CompileEnv)           // the workspace, then the transaction
    | ArchiveTemplate(key: TemplateKey, expected: Option<int>, env: UnitEnv)

  function Fresh(projects: set<ProjectId>): World {
    World(EMPTY, Store(projects, map[], map[]), [])
  }

  // ---------------------------------------------------------------- one flight

  function ProjectOf(r: Request): ProjectId {
    match r
    case Creating(cmd) => cmd.key.project
    case Revising(cmd) => cmd.key.project
    case Compiling(_, _, view, _) => view.project
  }

  function SpecOf(r: Request): Spec {
    match r
    case Creating(cmd) => cmd.spec
    case Revising(cmd) => cmd.spec
    case Compiling(_, _, view, _) => AuthoredSpec(view)
  }

  function ProvenanceFor(r: Request): map<Text, Provenance> {
    if r.Compiling? then MapOf(ProvenanceList(r.view)) else map[]
  }

  /** A reference is left, and no read so far made the validation throw. */
  predicate StillReading(v: Validators, f: Flight) {
    var r := f.request;
    && |f.seen| < |Descriptors(SpecOf(r))|
    && Collect(PortsOver(v, f.seen), ProjectOf(r), Descriptors(SpecOf(r)), ProvenanceFor(r), |f.seen|).Some?
  }

  /** What the validation of a request reports over what its reads found. */
  function OutcomeOf(v: Validators, r: Request, seen: seq<Read>): ValidationOutcome {
    Validate(PortsOver(v, seen), ProjectOf(r), SpecOf(r), ProvenanceFor(r))
  }

  // ---------------------------------------------------------------- steps

  predicate Enabled(v: Validators, w: World, e: Event) {
    match e
    case ReadReference(i, _) => i < |w.flights| && !w.flights[i].landed && StillReading(v, w.flights[i])
    case Finish(i, _, _) => i < |w.flights| && !w.flights[i].landed && !StillReading(v, w.flights[i])
    case _ => true
  }

  /** The end of a compilation. */
  function FinishCompile(v: Validators, d: TemplateDigests, s: Store, r: Request, seen: seq<Read>, cenv: CompileEnv): (Store, TS.Answer<Snapshot>)
    requires r.Compiling?
  {
    CompileValidatedOn(v.digest, d, s, r.view, OutcomeOf(v, r, seen), cenv)
  }

  /** The store after the transaction of a flight. */
  function Finished(v: Validators, d: TemplateDigests, s: Store, f: Flight, env: UnitEnv, cenv: CompileEnv): Store {
    match f.request
    case Creating(cmd) => CreateAdmitted(d, s, cmd, Admitted(OutcomeOf(v, f.request, f.seen)), env).0
    case Revising(cmd) => ReviseAdmitted(d, s, cmd, Admitted(OutcomeOf(v, f.request, f.seen)), env).0
    case Compiling(_, _, _, _) => if env.runs then FinishCompile(v, d, s, f.request, f.seen, cenv).0 else s
  }

  function Take(w: World, r: Request): World {
    w.(flights := w.flights + [Flight(r, [], false)])
  }

  function Step(v: Validators, d: TemplateDigests, w: World, e: Event): World
    requires Enabled(v, w, e)
  {
    match e
    case Brick(c) => w.(tables := ProjectRuns.Step(v.digest, w.tables, c).0)
    case BeginCreate(cmd) => Take(w, Creating(cmd))
    case BeginRevise(cmd) => Take(w, Revising(cmd))
    case BeginCompile(key, number, runs) =>
      var begun := CompileBegun(d, w.store, key, number);
      if runs && begun.Done? then Take(w, Compiling(key, number, begun.value, w.tables)) else w
    case ReadReference(i, env) => w.(flights := w.flights[i := w.flights[i].(seen := w.flights[i].seen + [Read(w.tables, env)])])
    case Finish(i, env, cenv) =>
      w.(store := Finished(v, d, w.store, w.flights[i], env, cenv), flights := w.flights[i := w.flights[i].(landed := true)])
    case ArchiveTemplate(key, expected, env) => w.(store := ArchiveOn(w.store, key, expected, env).0)
  }

  // ---------------------------------------------------------------- where stored views come from

  /** What the reads found was a consistent store that the present one extends. */
  ghost predicate ReadsOk(h: P.DigestFunction, seen: seq<Read>, t: Tables) {
    forall i | 0 <= i < |seen| :: Consistent(h, seen[i].tables) && Extends(Logs(seen[i].tables), Logs(t))
  }

  /** The reads and the candidate a stored view was made from. */
  datatype Birth = Birth(seen: seq<Read>, spec: Spec, candidate: Candidate)

  ghost predicate BornOf(v: Validators, d: TemplateDigests, t: Tables, view: View, b: Birth) {
    && ReadsOk(v.digest, b.seen, t) && |b.seen| == |Descriptors(b.spec)|
    && b.candidate.project == view.project
    && Validate(PortsOver(v, b.seen), view.project, b.spec, map[]) == Reported([], Some(b.candidate))
    && RevisionView(d, view.templateUid, view.templateId, view.metadata, b.spec, b.candidate, view.revision, view.createdAt) == Some(view)
  }

  ghost predicate Born(v: Validators, d: TemplateDigests, t: Tables, view: View) {
    exists b :: BornOf(v, d, t, view, b)
  }

  /** Revisions are 1, 2, .. of one uid, and each view is `good`. */
  ghost predicate TemplateOk(good: View -> bool, key: TemplateKey, template: Template) {
    template.views != [] && forall i | 0 <= i < |template.views| :: ViewOk(good, key, template, i)
  }

  ghost predicate ViewOk(good: View -> bool, key: TemplateKey, template: Template, i: nat)
    requires i < |template.views|
  {
    && template.views[i].revision == i + 1 && template.views[i].templateUid == template.uid
    && template.views[i].templateId == key.templateId && template.views[i].project == key.project
    && good(template.views[i])
  }

  ghost predicate StoreOk(good: View -> bool, s: Store) {
    forall key | key in s.templates :: TemplateOk(good, key, s.templates[key])
  }

  ghost function BornIn(v: Validators, d: TemplateDigests, t: Tables): View -> bool {
    view => Born(v, d, t, view)
  }

  /** `view` is revision `number` of the template at `key`, but for its status. */
  predicate HasView(s: Store, key: TemplateKey, number: int, view: View) {
    && key in s.templates && 1 <= number <= |s.templates[key].views| && StoredAs(view, s.templates[key].views[number - 1])
  }

  ghost predicate FlightOk(v: Validators, d: TemplateDigests, w: World, f: Flight) {
    && ReadsOk(v.digest, f.seen, w.tables) && |f.seen| <= |Descriptors(SpecOf(f.request))|
    && (f.request.Compiling? ==>
          CompilationOk(BornIn(v, d, f.request.since), w, f.request) && ReadsSince(f.request.since, f.seen))
  }

  /** A compilation's view is stored and is `good`: it was born before the compilation began. */
  ghost predicate CompilationOk(good: View -> bool, w: World, r: Request)
    requires r.Compiling?
  {
    && HasView(w.store, r.key, r.number, r.view) && good(w.store.templates[r.key].views[r.number - 1])
    && Extends(Logs(r.since), Logs(w.tables))
  }

  ghost predicate ReadsSince(since: Tables, seen: seq<Read>) {
    forall i | 0 <= i < |seen| :: Extends(Logs(since), Logs(seen[i].tables))
  }

  ghost predicate WorldOk(v: Validators, d: TemplateDigests, w: World) {
    && Consistent(v.digest, w.tables) && StoreOk(BornIn(v, d, w.tables), w.store)
    && forall i | 0 <= i < |w.flights| :: FlightOk(v, d, w, w.flights[i])
  }

  /** Stored revisions stay where they are. */
  ghost predicate StoreGrows(s: Store, s': Store) {
    forall key | key in s.templates :: key in s'.templates && s.templates[key].views <= s'.templates[key].views
  }

  // ---------------------------------------------------------------- events on bricks

  lemma ReadsStayOk(h: P.DigestFunction, seen: seq<Read>, t: Tables, t': Tables)
    requires ReadsOk(h, seen, t) && Extends(Logs(t), Logs(t'))
    ensures ReadsOk(h, seen, t')
  {
    forall i | 0 <= i < |seen| ensures Extends(Logs(seen[i].tables), Logs(t')) {
      ExtendsTransitive(Logs(seen[i].tables), Logs(t), Logs(t'));
    }
  }

  lemma BornStays(v: Validators, d: TemplateDigests, t: Tables, t': Tables, view: View)
    requires Born(v, d, t, view) && Extends(Logs(t), Logs(t'))
    ensures Born(v, d, t', view)
  {
    var b :| BornOf(v, d, t, view, b);
    ReadsStayOk(v.digest, b.seen, t, t');
    assert BornOf(v, d, t', view, b);
  }

  lemma BetterStore(good: View -> bool, better: View -> bool, s: Store)
    requires StoreOk(good, s) && forall view :: good(view) ==> better(view)
    ensures StoreOk(better, s)
  {
    forall key | key in s.templates ensures TemplateOk(better, key, s.templates[key]) {
      assert TemplateOk(good, key, s.templates[key]);
      forall i | 0 <= i < |s.templates[key].views| ensures ViewOk(better, key, s.templates[key], i) {
        assert ViewOk(good, key, s.templates[key], i);
      }
    }
  }

  lemma CompilationStaysOk(good: View -> bool, w: World, w': World, r: Request)
    requires r.Compiling? && CompilationOk(good, w, r) && Extends(Logs(w.tables), Logs(w'.tables)) && StoreGrows(w.store, w'.store)
    ensures CompilationOk(good, w', r)
  {
    ExtendsTransitive(Logs(r.since), Logs(w.tables), Logs(w'.tables));
  }

  /** A flight stays in order while tables and store only grow. */
  lemma FlightStaysOk(v: Validators, d: TemplateDigests, w: World, w': World, f: Flight)
    requires FlightOk(v, d, w, f) && Extends(Logs(w.tables), Logs(w'.tables)) && StoreGrows(w.store, w'.store)
    ensures FlightOk(v, d, w', f)
  {
    ReadsStayOk(v.digest, f.seen, w.tables, w'.tables);
    if f.request.Compiling? { CompilationStaysOk(BornIn(v, d, f.request.since), w, w', f.request); }
  }

  lemma BrickKeeps(v: Validators, d: TemplateDigests, w: World, c: Command)
    requires WorldOk(v, d, w)
    ensures WorldOk(v, d, Step(v, d, w, Brick(c)))
  {
    var w' := Step(v, d, w, Brick(c));
    StepKeeps(v.digest, w.tables, c);
    forall view | BornIn(v, d, w.tables)(view) ensures BornIn(v, d, w'.tables)(view) { BornStays(v, d, w.tables, w'.tables, view); }
    BetterStore(BornIn(v, d, w.tables), BornIn(v, d, w'.tables), w.store);
    forall i | 0 <= i < |w'.flights| ensures FlightOk(v, d, w', w'.flights[i]) { FlightStaysOk(v, d, w, w', w.flights[i]); }
  }

  // ---------------------------------------------------------------- beginning and reading

  lemma BegunViewIsStored(d: TemplateDigests, s: Store, key: TemplateKey, number: int)
    requires CompileBegun(d, s, key, number).Done?
    ensures HasView(s, key, number, CompileBegun(d, s, key, number).value)
  {}

  lemma StoredViewIsGood(good: View -> bool, s: Store, key: TemplateKey, number: int)
    requires StoreOk(good, s) && key in s.templates && 1 <= number <= |s.templates[key].views|
    ensures good(s.templates[key].views[number - 1])
  {
    assert TemplateOk(good, key, s.templates[key]);
    assert ViewOk(good, key, s.templates[key], number - 1);
  }

  lemma BegunCompilationIsOk(good: View -> bool, w: World, key: TemplateKey, number: int, view: View)
    requires StoreOk(good, w.store) && HasView(w.store, key, number, view)
    ensures CompilationOk(good, w, Compiling(key, number, view, w.tables))
  {
    StoredViewIsGood(good, w.store, key, number);
    SameExtends(Logs(w.tables));
  }

  lemma TakeKeeps(v: Validators, d: TemplateDigests, w: World, r: Request)
    requires WorldOk(v, d, w) && (r.Compiling? ==> CompilationOk(BornIn(v, d, r.since), w, r))
    ensures WorldOk(v, d, Take(w, r))
  {
    var w' := Take(w, r);
    OtherFlights(v, d, w, w');
    assert FlightOk(v, d, w, Flight(r, [], false));
    forall i | 0 <= i < |w'.flights| ensures FlightOk(v, d, w', w'.flights[i]) {
      if i < |w.flights| { assert FlightOk(v, d, w, w.flights[i]); }
    }
  }

  /** Flights do not depend on each other. */
  lemma OtherFlights(v: Validators, d: TemplateDigests, w: World, w': World)
    requires w'.tables == w.tables && w'.store == w.store
    ensures forall f :: FlightOk(v, d, w, f) ==> FlightOk(v, d, w', f)
  {}

  lemma BeginKeeps(v: Validators, d: TemplateDigests, w: World, e: Event)
    requires WorldOk(v, d, w) && (e.BeginCreate? || e.BeginRevise? || e.BeginCompile?)
    ensures WorldOk(v, d, Step(v, d, w, e))
  {
    match e
    case BeginCreate(cmd) => TakeKeeps(v, d, w, Creating(cmd));
    case BeginRevise(cmd) => TakeKeeps(v, d, w, Revising(cmd));
    case BeginCompile(key, number, runs) =>
      var begun := CompileBegun(d, w.store, key, number);
      if runs && begun.Done? {
        BegunViewIsStored(d, w.store, key, number);
        BegunCompilationIsOk(BornIn(v, d, w.tables), w, key, number, begun.value);
        TakeKeeps(v, d, w, Compiling(key, number, begun.value, w.tables));
      }
  }

  lemma OneMoreRead(h: P.DigestFunction, seen: seq<Read>, t: Tables, env: P.Env)
    requires ReadsOk(h, seen, t) && Consistent(h, t)
    ensures ReadsOk(h, seen + [Read(t, env)], t)
  {
    SameExtends(Logs(t));
  }

  lemma ReadStaysOk(v: Validators, d: TemplateDigests, w: World, f: Flight, env: P.Env)
    requires Consistent(v.digest, w.tables) && FlightOk(v, d, w, f) && |f.seen| < |Descriptors(SpecOf(f.request))|
    ensures FlightOk(v, d, w, f.(seen := f.seen + [Read(w.tables, env)]))
  {
    OneMoreRead(v.digest, f.seen, w.tables, env);
  }

  lemma ReadKeeps(v: Validators, d: TemplateDigests, w: World, i: nat, env: P.Env)
    requires WorldOk(v, d, w) && Enabled(v, w, ReadReference(i, env))
    ensures WorldOk(v, d, Step(v, d, w, ReadReference(i, env)))
  {
    var w' := Step(v, d, w, ReadReference(i, env));
    ReadStaysOk(v, d, w, w.flights[i], env);
    OtherFlights(v, d, w, w');
    forall k | 0 <= k < |w'.flights| ensures FlightOk(v, d, w', w'.flights[k]) { assert FlightOk(v, d, w, w.flights[k]); }
  }

  // ---------------------------------------------------------------- finishing

  /** Whatever view is made from candidate `c` for `key` is good. */
  ghost predicate Begets(good: View -> bool, d: TemplateDigests, key: TemplateKey, spec: Spec, c: Candidate) {
    forall uid, metadata, revision, now ::
      var made := RevisionView(d, uid, key.templateId, metadata, spec, c, revision, now);
      made.Some? ==> made.value.project == key.project && good(made.value)
  }

  lemma CreateKeeps(good: View -> bool, d: TemplateDigests, s: Store, cmd: CreateTemplate, admitted: TS.Answer<Candidate>, env: UnitEnv)
    requires StoreOk(good, s) && (admitted.Done? ==> Begets(good, d, cmd.key, cmd.spec, admitted.value))
    ensures StoreOk(good, CreateAdmitted(d, s, cmd, admitted, env).0) && StoreGrows(s, CreateAdmitted(d, s, cmd, admitted, env).0)
  {
    var s' := CreateAdmitted(d, s, cmd, admitted, env).0;
    if s' != s { assert ViewOk(good, cmd.key, s'.templates[cmd.key], 0); }
  }

  lemma ReviseKeeps(good: View -> bool, d: TemplateDigests, s: Store, cmd: ReviseTemplate, admitted: TS.Answer<Candidate>, env: UnitEnv)
    requires StoreOk(good, s) && (admitted.Done? ==> Begets(good, d, cmd.key, cmd.spec, admitted.value))
    ensures StoreOk(good, ReviseAdmitted(d, s, cmd, admitted, env).0) && StoreGrows(s, ReviseAdmitted(d, s, cmd, admitted, env).0)
  {
    var s' := ReviseAdmitted(d, s, cmd, admitted, env).0;
    if s' != s {
      var t := s.templates[cmd.key];
      assert TemplateOk(good, cmd.key, t) && ViewOk(good, cmd.key, t, 0);
      forall i | 0 <= i < |s'.templates[cmd.key].views| ensures ViewOk(good, cmd.key, s'.templates[cmd.key], i) {
        if i < |t.views| { assert ViewOk(good, cmd.key, t, i); }
      }
    }
  }

  lemma ArchiveKeeps(good: View -> bool, s: Store, key: TemplateKey, expected: Option<int>, env: UnitEnv)
    requires StoreOk(good, s)
    ensures StoreOk(good, ArchiveOn(s, key, expected, env).0) && StoreGrows(s, ArchiveOn(s, key, expected, env).0)
  {
    if key in s.templates {
      var t, t' := s.templates[key], s.templates[key].(status := Archived);
      assert TemplateOk(good, key, t);
      forall i | 0 <= i < |t.views| ensures ViewOk(good, key, t', i) { assert ViewOk(good, key, t, i); }
      assert TemplateOk(good, key, t');
    }
  }

  /** A validation that admits a candidate made every read. */
  lemma AdmittedReadAll(v: Validators, f: Flight)
    requires !StillReading(v, f) && Admitted(OutcomeOf(v, f.request, f.seen)).Done?
    ensures |f.seen| >= |Descriptors(SpecOf(f.request))|
  {
    var r := f.request;
    var ds := Descriptors(SpecOf(r));
    if |f.seen| < |ds| { CollectThrows(PortsOver(v, f.seen), ProjectOf(r), ds, ProvenanceFor(r), |f.seen|, |ds|); }
  }

  /** A view made from an admitted candidate is born now. */
  lemma MadeIsBorn(v: Validators, d: TemplateDigests, t: Tables, seen: seq<Read>, key: TemplateKey, spec: Spec, c: Candidate,
                   uid: Uid, metadata: Metadata, revision: int, now: Timestamp)
    requires ReadsOk(v.digest, seen, t) && |seen| == |Descriptors(spec)|
    requires Admitted(Validate(PortsOver(v, seen), key.project, spec, map[])) == Done(c)
    requires RevisionView(d, uid, key.templateId, metadata, spec, c, revision, now).Some?
    ensures var view := RevisionView(d, uid, key.templateId, metadata, spec, c, revision, now).value;
            view.project == key.project && Born(v, d, t, view)
  {
    var view := RevisionView(d, uid, key.templateId, metadata, spec, c, revision, now).value;
    ValidResolvesEverything(PortsOver(v, seen), key.project, spec, map[]);
    assert BornOf(v, d, t, view, Birth(seen, spec, c));
  }

  lemma AdmittedBegets(v: Validators, d: TemplateDigests, t: Tables, seen: seq<Read>, key: TemplateKey, spec: Spec, c: Candidate)
    requires ReadsOk(v.digest, seen, t) && |seen| == |Descriptors(spec)|
    requires Admitted(Validate(PortsOver(v, seen), key.project, spec, map[])) == Done(c)
    ensures Begets(BornIn(v, d, t), d, key, spec, c)
  {
    forall uid, metadata, revision, now | RevisionView(d, uid, key.templateId, metadata, spec, c, revision, now).Some?
      ensures var view := RevisionView(d, uid, key.templateId, metadata, spec, c, revision, now).value;
              view.project == key.project && BornIn(v, d, t)(view)
    {
      MadeIsBorn(v, d, t, seen, key, spec, c, uid, metadata, revision, now);
    }
  }

  lemma FinishedCreateKeeps(v: Validators, d: TemplateDigests, w: World, f: Flight, env: UnitEnv)
    requires StoreOk(BornIn(v, d, w.tables), w.store) && FlightOk(v, d, w, f) && f.request.Creating? && !StillReading(v, f)
    ensures var s' := CreateAdmitted(d, w.store, f.request.create, Admitted(OutcomeOf(v, f.request, f.seen)), env).0;
            StoreOk(BornIn(v, d, w.tables), s') && StoreGrows(w.store, s')
  {
    var cmd, admitted := f.request.create, Admitted(OutcomeOf(v, f.request, f.seen));
    if admitted.Done? {
      AdmittedReadAll(v, f);
      AdmittedBegets(v, d, w.tables, f.seen, cmd.key, cmd.spec, admitted.value);
    }
    CreateKeeps(BornIn(v, d, w.tables), d, w.store, cmd, admitted, env);
  }

  lemma FinishedReviseKeeps(v: Validators, d: TemplateDigests, w: World, f: Flight, env: UnitEnv)
    requires StoreOk(BornIn(v, d, w.tables), w.store) && FlightOk(v, d, w, f) && f.request.Revising? && !StillReading(v, f)
    ensures var s' := ReviseAdmitted(d, w.store, f.request.revise, Admitted(OutcomeOf(v, f.request, f.seen)), env).0;
            StoreOk(BornIn(v, d, w.tables), s') && StoreGrows(w.store, s')
  {
    var cmd, admitted := f.request.revise, Admitted(OutcomeOf(v, f.request, f.seen));
    if admitted.Done? {
      AdmittedReadAll(v, f);
      AdmittedBegets(v, d, w.tables, f.seen, cmd.key, cmd.spec, admitted.value);
    }
    ReviseKeeps(BornIn(v, d, w.tables), d, w.store, cmd, admitted, env);
  }

  lemma SavedKeepsTemplates(v: Validators, d: TemplateDigests, s: Store, view: View, outcome: ValidationOutcome, cenv: CompileEnv)
    ensures CompileValidatedOn(v.digest, d, s, view, outcome, cenv).0.templates == s.templates
  {}

  lemma FinishedKeeps(v: Validators, d: TemplateDigests, w: World, f: Flight, env: UnitEnv, cenv: CompileEnv)
    requires StoreOk(BornIn(v, d, w.tables), w.store) && FlightOk(v, d, w, f) && !StillReading(v, f)
    ensures StoreOk(BornIn(v, d, w.tables), Finished(v, d, w.store, f, env, cenv))
    ensures StoreGrows(w.store, Finished(v, d, w.store, f, env, cenv))
  {
    match f.request
    case Creating(_) => FinishedCreateKeeps(v, d, w, f, env);
    case Revising(_) => FinishedReviseKeeps(v, d, w, f, env);
    case Compiling(_, _, view, _) => SavedKeepsTemplates(v, d, w.store, view, OutcomeOf(v, f.request, f.seen), cenv);
  }

  /** With the same tables and a grown store every flight stays in order. */
  lemma GrownStoreKeeps(v: Validators, d: TemplateDigests, w: World, w': World)
    requires WorldOk(v, d, w) && w'.tables == w.tables
    requires StoreOk(BornIn(v, d, w.tables), w'.store) && StoreGrows(w.store, w'.store)
    requires |w'.flights| == |w.flights|
    requires forall i | 0 <= i < |w.flights| :: w'.flights[i] == w.flights[i].(landed := w'.flights[i].landed)
    ensures WorldOk(v, d, w')
  {
    SameExtends(Logs(w.tables));
    forall i | 0 <= i < |w'.flights| ensures FlightOk(v, d, w', w'.flights[i]) {
      FlightStaysOk(v, d, w, w', w.flights[i]);
    }
  }

  lemma StepStaysOk(v: Validators, d: TemplateDigests, w: World, e: Event)
    requires WorldOk(v, d, w) && Enabled(v, w, e)
    ensures WorldOk(v, d, Step(v, d, w, e))
  {
    match e
    case Brick(c) => BrickKeeps(v, d, w, c);
    case ReadReference(i, env) => ReadKeeps(v, d, w, i, env);
    case Finish(i, env, cenv) =>
      FinishedKeeps(v, d, w, w.flights[i], env, cenv);
      GrownStoreKeeps(v, d, w, Step(v, d, w, e));
    case ArchiveTemplate(key, expected, env) =>
      ArchiveKeeps(BornIn(v, d, w.tables), w.store, key, expected, env);
      GrownStoreKeeps(v, d, w, Step(v, d, w, e));
    case _ => BeginKeeps(v, d, w, e);
  }

  // ---------------------------------------------------------------- whole runs

  /** `worlds` are the states a run passes through, one more than its events. */
  ghost predicate IsRun(v: Validators, d: TemplateDigests, projects: set<ProjectId>, events: seq<Event>, worlds: seq<World>) {
    && |worlds| == |events| + 1 && worlds[0] == Fresh(projects)
    && forall i | 0 <= i < |events| :: Enabled(v, worlds[i], events[i]) && worlds[i + 1] == Step(v, d, worlds[i], events[i])
  }

  lemma {:induction false} EveryWorldIsOk(v: Validators, d: TemplateDigests, projects: set<ProjectId>, events: seq<Event>, worlds: seq<World>, n: nat)
    requires IsRun(v, d, projects, events, worlds) && n < |worlds|
    ensures WorldOk(v, d, worlds[n])
  {
    if n > 0 {
      EveryWorldIsOk(v, d, projects, events, worlds, n - 1);
      StepStaysOk(v, d, worlds[n - 1], events[n - 1]);
    }
  }

  /** The workspace only ever resolves to non-empty, well-formed directories. */
  ghost predicate SoundWorkspace(v: Validators) {
    forall p, root, dir :: v.workspace(p, root, dir).WorkspaceAt? ==> ValidText(v.workspace(p, root, dir).directory)
  }

  lemma DirectoryIsSound(v: Validators, b: Birth, project: ProjectId)
    requires SoundWorkspace(v) && Validate(PortsOver(v, b.seen), project, b.spec, map[]) == Reported([], Some(b.candidate))
    ensures ValidText(b.candidate.workingDirectory)
  {
    var root, dir := DirectoryFromWorkspace(PortsOver(v, b.seen), project, b.spec, map[]);
  }

  /** A stored revision can always begin to compile: its template digest matches, in every reached state. */
  lemma StoredRevisionsBegin(v: Validators, d: TemplateDigests, projects: set<ProjectId>, events: seq<Event>, worlds: seq<World>, n: nat,
                             key: TemplateKey, number: int)
    requires IsRun(v, d, projects, events, worlds) && n < |worlds|
    requires key in worlds[n].store.templates && 1 <= number <= |worlds[n].store.templates[key].views|
    ensures CompileBegun(d, worlds[n].store, key, number) == Done(FindView(worlds[n].store, key, number).value)
    ensures HasView(worlds[n].store, key, number, FindView(worlds[n].store, key, number).value)
  {
    var w := worlds[n];
    EveryWorldIsOk(v, d, projects, events, worlds, n);
    StoredViewIsGood(BornIn(v, d, w.tables), w.store, key, number);
    BornDigestMatches(v, d, w.tables, w.store.templates[key].views[number - 1], FindView(w.store, key, number).value);
  }

  lemma BornDigestMatches(v: Validators, d: TemplateDigests, t: Tables, view: View, stored: View)
    requires Born(v, d, t, view) && StoredAs(stored, view)
    ensures RevisionDigestMatches(d, stored)
  {
    var b :| BornOf(v, d, t, view, b);
    var ports := PortsOver(v, b.seen);
    ValidResolvesEverything(ports, view.project, b.spec, map[]);
    StoredViewMeans(d, ports, view.templateUid, view.templateId, view.metadata, b.spec, b.candidate, view.revision, view.createdAt, stored);
  }

  /** Every read found a countable store, in a transaction that began and committed. */
  ghost predicate AllRead(view: View, seen: seq<Read>) {
    |seen| == |Descriptors(AuthoredSpec(view))| && forall i | 0 <= i < |seen| :: Reads(seen[i].env) && Countable(seen[i].tables)
  }

  /** End to end. In every run, however brick commands and other template commands come between the
      reads of a creation, between its validation and its transaction, and between the reads of a later
      compilation: a compilation that made its reads ends with a snapshot of the configuration digest
      its revision was stored with and the revision's own ordered brick provenance. */
  lemma StoredRevisionsCompile(v: Validators, d: TemplateDigests, projects: set<ProjectId>, events: seq<Event>, worlds: seq<World>, n: nat,
                               i: nat, cenv: CompileEnv)
    requires IsRun(v, d, projects, events, worlds) && n < |worlds| && i < |worlds[n].flights| && worlds[n].flights[i].request.Compiling?
    requires AllRead(worlds[n].flights[i].request.view, worlds[n].flights[i].seen)
    requires SoundWorkspace(v) && cenv.wellFormed && cenv.snapshotId !in worlds[n].store.snapshots
    ensures Recompiles(v, d, worlds[n].store, worlds[n].flights[i].request, worlds[n].flights[i].seen, cenv)
  {
    EveryWorldIsOk(v, d, projects, events, worlds, n);
    var f := worlds[n].flights[i];
    assert FlightOk(v, d, worlds[n], f);
    FlightCompiles(v, d, worlds[n], f.request, f.seen, cenv);
  }

  /** The compilation finds the revision still stored, and its snapshot repeats the revision's
      configuration digest and bricks. */
  predicate Recompiles(v: Validators, d: TemplateDigests, s: Store, r: Request, seen: seq<Read>, cenv: CompileEnv)
    requires r.Compiling?
  {
    && HasView(s, r.key, r.number, r.view)
    && Repeats(s.templates[r.key].views[r.number - 1], s, cenv, FinishCompile(v, d, s, r, seen, cenv))
  }

  /** A snapshot of the view's configuration was saved and answered. */
  predicate Repeats(view: View, s: Store, cenv: CompileEnv, end: (Store, TS.Answer<Snapshot>)) {
    && end.1.Done? && end.1.value.configDigest == view.configDigest && end.1.value.sourceBricks == SourceBricks(view.spec)
    && end.0 == s.(snapshots := s.snapshots[cenv.snapshotId := end.1.value])
  }

  lemma FlightCompiles(v: Validators, d: TemplateDigests, w: World, r: Request, seen: seq<Read>, cenv: CompileEnv)
    requires r.Compiling? && CompilationOk(BornIn(v, d, r.since), w, r) && AllRead(r.view, seen)
    requires ReadsSince(r.since, seen) && (forall i | 0 <= i < |seen| :: Consistent(v.digest, seen[i].tables))
    requires SoundWorkspace(v) && cenv.wellFormed && cenv.snapshotId !in w.store.snapshots
    ensures Recompiles(v, d, w.store, r, seen, cenv)
  {
    var result := CompilationYields(v, d, w, r, seen, cenv);
    SnapshotIsSaved(v, d, w.store, r, seen, cenv, result);
  }

  lemma CompilationYields(v: Validators, d: TemplateDigests, w: World, r: Request, seen: seq<Read>, cenv: CompileEnv) returns (result: CompileResult)
    requires r.Compiling? && CompilationOk(BornIn(v, d, r.since), w, r) && AllRead(r.view, seen)
    requires ReadsSince(r.since, seen) && (forall i | 0 <= i < |seen| :: Consistent(v.digest, seen[i].tables))
    requires SoundWorkspace(v) && cenv.wellFormed
    ensures HasView(w.store, r.key, r.number, r.view)
    ensures result == CompileOutcome(v.digest, d, r.view, OutcomeOf(v, r, seen), cenv, true)
    ensures Yields(result, w.store.templates[r.key].views[r.number - 1], cenv)
  {
    result := CompileOutcome(v.digest, d, r.view, OutcomeOf(v, r, seen), cenv, true);
    ViewOfCompilation(BornIn(v, d, r.since), w, r);
    BornViewCompiles(v, d, r.since, w.store.templates[r.key].views[r.number - 1], r.view, seen, cenv);
  }

  lemma ViewOfCompilation(good: View -> bool, w: World, r: Request)
    requires r.Compiling? && CompilationOk(good, w, r)
    ensures HasView(w.store, r.key, r.number, r.view) && good(w.store.templates[r.key].views[r.number - 1])
  {}

  /** What the compilation yields of a view that was born before its reads. */
  ghost predicate Yields(result: CompileResult, view: View, cenv: CompileEnv) {
    && result.Compiled? && result.snapshot.configDigest == view.configDigest
    && result.snapshot.sourceBricks == SourceBricks(view.spec) && result.snapshot.snapshotId == cenv.snapshotId
  }

  lemma SnapshotIsSaved(v: Validators, d: TemplateDigests, s: Store, r: Request, seen: seq<Read>, cenv: CompileEnv, result: CompileResult)
    requires r.Compiling? && HasView(s, r.key, r.number, r.view) && cenv.snapshotId !in s.snapshots
    requires result == CompileOutcome(v.digest, d, r.view, OutcomeOf(v, r, seen), cenv, true)
    requires Yields(result, s.templates[r.key].views[r.number - 1], cenv)
    ensures Recompiles(v, d, s, r, seen, cenv)
  {}

  lemma BornViewCompiles(v: Validators, d: TemplateDigests, since: Tables, view: View, stored: View, seen: seq<Read>, cenv: CompileEnv)
    requires BornIn(v, d, since)(view) && StoredAs(stored, view) && AllRead(stored, seen)
    requires ReadsSince(since, seen) && (forall i | 0 <= i < |seen| :: Consistent(v.digest, seen[i].tables))
    requires SoundWorkspace(v) && cenv.wellFormed
    ensures Yields(CompileOutcome(v.digest, d, stored, Revalidation(PortsOver(v, seen), stored), cenv, true), view, cenv)
  {
    var b :| BornOf(v, d, since, view, b);
    BirthReadsLess(v, d, since, view, stored, b);
    BirthIsLater(v, since, b, stored, seen);
    BirthCompiles(v, d, since, view, stored, b, seen, cenv);
  }

  lemma BirthCompiles(v: Validators, d: TemplateDigests, since: Tables, view: View, stored: View, b: Birth, seen: seq<Read>, cenv: CompileEnv)
    requires BornOf(v, d, since, view, b) && StoredAs(stored, view) && Later(v.digest, b.seen, seen)
    requires SoundWorkspace(v) && cenv.wellFormed
    ensures Yields(CompileOutcome(v.digest, d, stored, Revalidation(PortsOver(v, seen), stored), cenv, true), view, cenv)
  {
    DirectoryIsSound(v, b, view.project);
    CompilesLater(v, d, b.seen, seen, view.templateUid, view.templateId, view.metadata, b.spec, b.candidate,
                  view.revision, view.createdAt, stored, cenv);
  }

  lemma BirthReadsLess(v: Validators, d: TemplateDigests, since: Tables, view: View, stored: View, b: Birth)
    requires BornOf(v, d, since, view, b) && StoredAs(stored, view)
    ensures |b.seen| == |Descriptors(AuthoredSpec(stored))|
  {
    var ports := PortsOver(v, b.seen);
    ValidResolvesEverything(ports, view.project, b.spec, map[]);
    StoredViewMeans(d, ports, view.templateUid, view.templateId, view.metadata, b.spec, b.candidate, view.revision, view.createdAt, stored);
  }

  lemma BirthIsLater(v: Validators, since: Tables, b: Birth, stored: View, seen: seq<Read>)
    requires ReadsOk(v.digest, b.seen, since) && |b.seen| == |Descriptors(AuthoredSpec(stored))| && AllRead(stored, seen)
    requires ReadsSince(since, seen) && (forall i | 0 <= i < |seen| :: Consistent(v.digest, seen[i].tables))
    ensures Later(v.digest, b.seen, seen)
  {
    forall i | 0 <= i < |b.seen| ensures LaterRead(v.digest, b.seen[i], seen[i]) {
      ExtendsTransitive(Logs(b.seen[i].tables), Logs(since), Logs(seen[i].tables));
    }
  }
}
