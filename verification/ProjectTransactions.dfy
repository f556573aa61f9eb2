/** The work inside one Project transaction, from one await to the next, and why it amounts to the
    command as a whole while nobody else writes. */
module ProjectTransactions {
  import opened Options
  import opened BrickBodies
  import opened ProjectTables
  import opened ProjectService
  import opened ProjectRuns

  /** Where the work stands: what its last await returned. */
  datatype Stage =
    | Begun
    | ProjectSeen
    | SummarySeen(current: Summary)
    | StoredSeen(expected: Summary, stored: Lookup<Summary>)     // the repository's own look before it writes
    | Answered(answer: Answer)

  function EnvOf(c: Command): Env {
    match c
    case NewProject(_, env) => env
    case NewBrick(_, env) => env
    case ReviseBrick(_, env) => env
    case ArchiveBrick(_, env) => env
    case ReadBrick(_, _, env) => env
    case ListBrick(_, env) => env
  }

  function ErrorAnswer(c: Command, e: Error): Answer {
    match c
    case NewProject(_, _) => ProjectAnswer(Err(e))
    case NewBrick(_, _) => WriteAnswer(Err(e))
    case ReviseBrick(_, _) => WriteAnswer(Err(e))
    case ArchiveBrick(_, _) => ArchiveAnswer(Err(e))
    case ReadBrick(_, _, _) => ReadAnswer(Err(e))
    case ListBrick(_, _) => HistoryAnswer(Err(e))
  }

  /** A command the service turns away before it asks for a transaction. */
  predicate Refused(c: Command) {
    match c
    case NewBrick(cmd, _) => CanonicalBody(cmd.kind, cmd.body).None?
    case ReviseBrick(cmd, _) => CanonicalBody(cmd.kind, cmd.body).None?
    case ReadBrick(_, number, _) => number < 1
    case _ => false
  }

  function KeyFor(c: Command): Key {
    match c
    case NewProject(p, _) => Key(p, 0)
    case NewBrick(cmd, _) => Key(cmd.project, cmd.brick)
    case ReviseBrick(cmd, _) => Key(cmd.project, cmd.brick)
    case ArchiveBrick(key, _) => key
    case ReadBrick(key, _, _) => key
    case ListBrick(key, _) => key
  }

  /** What the whole work does to the tables. */
  function Work(h: DigestFunction, t: Tables, c: Command): (Tables, Answer)
    requires !Refused(c)
  {
    match c
    case NewProject(p, env) => CreateProjectWork(t, p, env)
    case NewBrick(cmd, env) =>
      var body := CanonicalBody(cmd.kind, cmd.body).value;
      var (t', r) := CreateWork(t, cmd, body, ComputeDigest(h, cmd.kind, body), env); (t', WriteAnswer(r))
    case ReviseBrick(cmd, env) =>
      var body := CanonicalBody(cmd.kind, cmd.body).value;
      var (t', r) := ReviseWork(t, cmd, body, ComputeDigest(h, cmd.kind, body), env); (t', WriteAnswer(r))
    case ArchiveBrick(key, env) => var (t', r) := ArchiveWork(t, key); (t', ArchiveAnswer(r))
    case ReadBrick(key, number, env) => (t, ReadAnswer(ReadExactWork(h, t, key, number)))
    case ListBrick(key, env) => (t, HistoryAnswer(ReadHistoryWork(h, t, key)))
  }

  function CreateProjectWork(t: Tables, p: ProjectId, env: Env): (Tables, Answer) {
    if !env.wellFormed || p in t.projects then (t, ProjectAnswer(Err(PersistenceFailure)))
    else (t.(projects := t.projects[p := env.now]), ProjectAnswer(Ok(p)))
  }

  // ---------------------------------------------------------------- one await at a time

  function Advance(h: DigestFunction, t: Tables, c: Command, stage: Stage): (Tables, Stage)
    requires !Refused(c)
  {
    match stage
    case Begun =>
      if c.NewProject? then var (t', a) := CreateProjectWork(t, c.project, c.env); (t', Answered(a))
      else (t, if KeyFor(c).project in t.projects then ProjectSeen else Answered(ErrorAnswer(c, ProjectNotFound)))
    case ProjectSeen =>
      if c.NewBrick? then Insert(h, t, c) else (t, LookUp(t, c))
    case SummarySeen(current) => (t, Decide(h, t, c, current))
    case StoredSeen(expected, stored) => Update(h, t, c, expected, stored)
    case Answered(_) => (t, stage)
  }

  /** Build the records and insert them: one synchronous call of the repository. */
  function Insert(h: DigestFunction, t: Tables, c: Command): (Tables, Stage)
    requires c.NewBrick? && !Refused(c)
  {
    var cmd, env := c.create, c.env;
    var body := CanonicalBody(cmd.kind, cmd.body).value;
    var brick := Summary(env.brickUid, cmd.project, cmd.brick, cmd.kind, 1, Active, env.now);
    var revision := NewRevision(brick, 1, body, ComputeDigest(h, cmd.kind, body), env);
    if !env.wellFormed || !ValidBody(body) then (t, Answered(ErrorAnswer(c, PersistenceFailure)))
    else match CreateBrickIn(t, brick, revision)
         case (t', Returned(Created)) => (t', Answered(WriteAnswer(Ok(Written(brick, revision)))))
         case (t', Returned(AlreadyExists)) => (t', Answered(ErrorAnswer(c, BrickAlreadyExists)))
         case (t', Threw) => (t', Answered(ErrorAnswer(c, PersistenceFailure)))
  }

  /** `requireSummary` */
  function LookUp(t: Tables, c: Command): Stage {
    match FindSummary(t, KeyFor(c))
    case Missing => Answered(ErrorAnswer(c, BrickNotFound))
    case Malformed => Answered(ErrorAnswer(c, IntegrityError))
    case Found(s) =>
      if s.project == KeyFor(c).project && s.brick == KeyFor(c).brick then SummarySeen(s) else Answered(ErrorAnswer(c, IntegrityError))
  }

  /** A read answers; a write checks the summary it was given, and its repository looks again. */
  function Decide(h: DigestFunction, t: Tables, c: Command, current: Summary): Stage
    requires !Refused(c)
  {
    match c
    case ReviseBrick(cmd, env) =>
      if current.kind != cmd.kind then Answered(ErrorAnswer(c, InvalidCandidate))
      else if current.status == Archived then Answered(ErrorAnswer(c, BrickArchived))
      else if current.current != cmd.base then Answered(ErrorAnswer(c, RevisionConflict))
      else if !env.wellFormed || !ValidBody(CanonicalBody(cmd.kind, cmd.body).value) then Answered(ErrorAnswer(c, PersistenceFailure))
      else StoredSeen(current, FindSummary(t, KeyFor(c)))
    case ArchiveBrick(key, _) =>
      if current.status == Archived then Answered(ArchiveAnswer(Ok(current))) else StoredSeen(current, FindSummary(t, key))
    case ReadBrick(key, number, _) => Answered(ReadAnswer(ExactOf(h, t, key, number, current)))
    case ListBrick(key, _) => Answered(HistoryAnswer(HistoryOf(h, t, key, current)))
    case _ => Answered(ErrorAnswer(c, PersistenceFailure))
  }

  /** The guarded UPDATE matches the aggregate as it is now. */
  predicate StillAt(t: Tables, key: Key, kind: BrickKind, expected: int) {
    key in t.aggregates && t.aggregates[key].kind == kind && t.aggregates[key].status == Active && t.aggregates[key].current == expected
  }

  /** The repository writes, trusting its own look only as far as the guard of its UPDATE. */
  function Update(h: DigestFunction, t: Tables, c: Command, current: Summary, stored: Lookup<Summary>): (Tables, Stage)
    requires !Refused(c)
  {
    match c
    case ReviseBrick(cmd, env) =>
      var body := CanonicalBody(cmd.kind, cmd.body).value;
      var revision := NewRevision(current, current.current + 1, body, ComputeDigest(h, cmd.kind, body), env);
      if stored.Missing? then (t, Answered(ErrorAnswer(c, BrickNotFound)))
      else if stored.Malformed? || stored.value.kind != revision.kind then (t, Answered(ErrorAnswer(c, InvalidCandidate)))
      else if stored.value.status == Archived then (t, Answered(ErrorAnswer(c, BrickArchived)))
      else if stored.value.current != cmd.base then (t, Answered(ErrorAnswer(c, RevisionConflict)))
      else if revision.revision != cmd.base + 1 then (t, Answered(ErrorAnswer(c, PersistenceFailure)))
      else if !StillAt(t, KeyFor(c), revision.kind, cmd.base) then (t, Answered(ErrorAnswer(c, RevisionConflict)))
      else
        var t1 := t.(aggregates := t.aggregates[KeyFor(c) := t.aggregates[KeyFor(c)].(current := revision.revision)]);
        var row := Row(stored.value.brickUid, revision);
        if !RevisionInsertable(t1, row) then (t1, Answered(ErrorAnswer(c, PersistenceFailure)))
        else (t1.(revisions := t1.revisions + [row]), Answered(WriteAnswer(Ok(Written(current.(current := revision.revision), revision)))))
    case ArchiveBrick(key, _) =>
      if stored.Missing? then (t, Answered(ErrorAnswer(c, BrickNotFound)))
      else if stored.Malformed? || stored.value.current != current.current then (t, Answered(ErrorAnswer(c, RevisionConflict)))
      else if key !in t.aggregates || t.aggregates[key].current != current.current then (t, Answered(ErrorAnswer(c, RevisionConflict)))
      else (t.(aggregates := t.aggregates[key := t.aggregates[key].(status := Archived)]),
            Answered(ArchiveAnswer(Ok(current.(status := Archived)))))
    case _ => (t, Answered(ErrorAnswer(c, PersistenceFailure)))
  }

  // ---------------------------------------------------------------- undisturbed, it is the whole work

  /** What holds at each stage of work that began over `t0` and was never disturbed. */
  ghost predicate StageOk(h: DigestFunction, t0: Tables, t: Tables, c: Command, stage: Stage)
    requires !Refused(c)
  {
    match stage
    case Begun => t == t0
    case ProjectSeen => t == t0 && !c.NewProject? && KeyFor(c).project in t0.projects
    case SummarySeen(current) => t == t0 && !c.NewProject? && !c.NewBrick? && RequireSummary(t0, KeyFor(c)) == Ok(current)
    case StoredSeen(current, stored) =>
      && t == t0 && (c.ReviseBrick? || c.ArchiveBrick?) && RequireSummary(t0, KeyFor(c)) == Ok(current)
      && stored == FindSummary(t0, KeyFor(c)) && current.status == Active
      && (c.ReviseBrick? ==>
            && current.kind == c.revise.kind && current.current == c.revise.base
            && c.env.wellFormed && ValidBody(CanonicalBody(c.revise.kind, c.revise.body).value))
    case Answered(answer) => (t, answer) == Work(h, t0, c)
  }

  lemma AdvanceKeeps(h: DigestFunction, t0: Tables, t: Tables, c: Command, stage: Stage)
    requires !Refused(c) && StageOk(h, t0, t, c, stage)
    ensures var (t', stage') := Advance(h, t, c, stage); StageOk(h, t0, t', c, stage')
  {
    match stage
    case Begun =>
    case ProjectSeen => if !c.NewBrick? { LookedUp(h, t0, c); }
    case SummarySeen(current) => Decided(h, t0, c, current);
    case StoredSeen(current, stored) => Updated(h, t0, c, current, stored);
    case Answered(_) =>
  }

  lemma LookedUp(h: DigestFunction, t: Tables, c: Command)
    requires !Refused(c) && StageOk(h, t, t, c, ProjectSeen) && !c.NewBrick?
    ensures StageOk(h, t, t, c, LookUp(t, c))
  {}

  lemma Decided(h: DigestFunction, t: Tables, c: Command, current: Summary)
    requires !Refused(c) && StageOk(h, t, t, c, SummarySeen(current))
    ensures StageOk(h, t, t, c, Decide(h, t, c, current))
  {}

  lemma Updated(h: DigestFunction, t: Tables, c: Command, current: Summary, stored: Lookup<Summary>)
    requires !Refused(c) && StageOk(h, t, t, c, StoredSeen(current, stored))
    ensures var (t', stage') := Update(h, t, c, current, stored); StageOk(h, t, t', c, stage')
  {
    if c.ReviseBrick? { RevisedAsAWhole(h, t, c, current, stored); }
  }

  lemma RevisedAsAWhole(h: DigestFunction, t: Tables, c: Command, current: Summary, stored: Lookup<Summary>)
    requires !Refused(c) && c.ReviseBrick? && StageOk(h, t, t, c, StoredSeen(current, stored))
    ensures var (t', stage') := Update(h, t, c, current, stored); stage'.Answered? && (t', stage'.answer) == Work(h, t, c)
  {
    assert stored == Found(current);
  }

  // ---------------------------------------------------------------- how a transaction ends

  /** COMMIT when the work succeeded and the database agrees; ROLLBACK to `t0` otherwise. */
  function Ended(t0: Tables, t: Tables, c: Command, answer: Answer): (Tables, Answer) {
    if Failed(answer) then (t0, answer)
    else if !EnvOf(c).commitOk then (t0, ErrorAnswer(c, PersistenceFailure))
    else (t, answer)
  }

  /** Undisturbed work, once ended, is the command as one step. */
  lemma EndedIsTheStep(h: DigestFunction, t0: Tables, t: Tables, c: Command, answer: Answer)
    requires !Refused(c) && EnvOf(c).beginOk && (t, answer) == Work(h, t0, c)
    ensures Ended(t0, t, c, answer) == Step(h, t0, c)
  {}

  lemma FailedBeginIsTheStep(h: DigestFunction, t: Tables, c: Command)
    requires !Refused(c) && !EnvOf(c).beginOk
    ensures Step(h, t, c) == (t, ErrorAnswer(c, PersistenceFailure))
  {}

  /** A refused command changes nothing, whatever the tables. */
  lemma RefusedChangesNothing(h: DigestFunction, t: Tables, c: Command)
    requires Refused(c)
    ensures Step(h, t, c) == (t, ErrorAnswer(c, InvalidCandidate))
  {}
}
