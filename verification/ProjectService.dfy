/** `ProjectApplicationService`: Definition Brick commands as transactions on the tables. */
module ProjectService {
  import opened Options
  import opened BrickBodies
  import opened ProjectTables
  import opened Sorting

  datatype Error =
    | ProjectNotFound | BrickAlreadyExists | BrickNotFound | RevisionNotFound | RevisionConflict
    | BrickArchived | InvalidCandidate | IntegrityError | PersistenceFailure

  datatype Result<+T> = Ok(value: T) | Err(error: Error)

  /** Canonical JSON and SHA-256, as one deterministic function of kind and body. */
  type DigestFunction = (BrickKind, Body) -> Digest

  /** `computeDefinitionBrickDigest`, which normalizes the body it is given. */
  function ComputeDigest(h: DigestFunction, kind: BrickKind, body: Body): Digest {
    h(kind, NormalizeBody(body))
  }

  /** What the outside supplies to one write: whether BEGIN and COMMIT succeed, the provided
      identifiers and timestamp, and whether those satisfy the contract schemas. */
  datatype Env = Env(beginOk: bool, commitOk: bool, brickUid: Uid, revisionUid: Uid, now: Timestamp, wellFormed: bool)

  datatype CreateCommand = CreateCommand(project: ProjectId, brick: BrickId, kind: BrickKind, body: Body)
  datatype ReviseCommand = ReviseCommand(project: ProjectId, brick: BrickId, base: int, kind: BrickKind, body: Body)

  datatype Written = Written(brick: Summary, revision: Revision)
  datatype History = History(brick: Summary, revisions: seq<Revision>)

  // ---------------------------------------------------------------- shared steps

  /** `runInTransaction`: any failure, abort or throw, leaves the tables as they were. */
  function Transact<T>(t: Tables, env: Env, done: (Tables, Result<T>)): (Tables, Result<T>) {
    if !env.beginOk then (t, Err(PersistenceFailure))
    else if done.1.Err? then (t, done.1)
    else if !env.commitOk then (t, Err(PersistenceFailure))
    else done
  }

  function RequireSummary(t: Tables, key: Key): Result<Summary> {
    if key.project !in t.projects then Err(ProjectNotFound)
    else match FindSummary(t, key)
         case Missing => Err(BrickNotFound)
         case Malformed => Err(IntegrityError)
         case Found(s) => if s.project == key.project && s.brick == key.brick then Ok(s) else Err(IntegrityError)
  }

  function NewRevision(brick: Summary, number: int, body: Body, digest: Digest, env: Env): Revision {
    Revision(env.revisionUid, brick.project, brick.brick, brick.kind, number, body, digest, env.now)
  }

  /** `requireRevisionIntegrity` */
  function RequireIntegrity(h: DigestFunction, stored: Lookup<Revision>, brick: Summary, expected: Option<int>): Result<Revision> {
    match stored
    case Found(r) =>
      if !ValidBody(r.body) || r.project != brick.project || r.brick != brick.brick || r.kind != brick.kind
         || r.revision > brick.current || (expected.Some? && r.revision != expected.value) then Err(IntegrityError)
      else if CanonicalBody(r.kind, r.body) != Some(r.body) then Err(IntegrityError)
      else if ComputeDigest(h, r.kind, r.body) != r.digest then Err(IntegrityError)
      else Ok(r)
    case _ => Err(IntegrityError)
  }

  // ---------------------------------------------------------------- commands as functions on tables

  function CreateProjectOn(t: Tables, project: ProjectId, env: Env): (Tables, Result<ProjectId>) {
    Transact(t, env,
      if !env.wellFormed || project in t.projects then (t, Err(PersistenceFailure))
      else (t.(projects := t.projects[project := env.now]), Ok(project)))
  }

  function CreateOn(h: DigestFunction, t: Tables, cmd: CreateCommand, env: Env): (Tables, Result<Written>) {
    match CanonicalBody(cmd.kind, cmd.body)
    case None => (t, Err(InvalidCandidate))
    case Some(body) => Transact(t, env, CreateWork(t, cmd, body, ComputeDigest(h, cmd.kind, body), env))
  }

  function CreateWork(t: Tables, cmd: CreateCommand, body: Body, digest: Digest, env: Env): (Tables, Result<Written>) {
    var brick := Summary(env.brickUid, cmd.project, cmd.brick, cmd.kind, 1, Active, env.now);
    var revision := NewRevision(brick, 1, body, digest, env);
    if cmd.project !in t.projects then (t, Err(ProjectNotFound))
    else if !env.wellFormed || !ValidBody(body) then (t, Err(PersistenceFailure))
    else match CreateBrickIn(t, brick, revision)
         case (t', Returned(Created)) => (t', Ok(Written(brick, revision)))
         case (t', Returned(AlreadyExists)) => (t', Err(BrickAlreadyExists))
         case (t', Threw) => (t', Err(PersistenceFailure))
  }

  function ReviseOn(h: DigestFunction, t: Tables, cmd: ReviseCommand, env: Env): (Tables, Result<Written>) {
    match CanonicalBody(cmd.kind, cmd.body)
    case None => (t, Err(InvalidCandidate))
    case Some(body) => Transact(t, env, ReviseWork(t, cmd, body, ComputeDigest(h, cmd.kind, body), env))
  }

  function ReviseWork(t: Tables, cmd: ReviseCommand, body: Body, digest: Digest, env: Env): (Tables, Result<Written>) {
    match RequireSummary(t, Key(cmd.project, cmd.brick))
    case Err(e) => (t, Err(e))
    case Ok(current) =>
      if current.kind != cmd.kind then (t, Err(InvalidCandidate))
      else if current.status == Archived then (t, Err(BrickArchived))
      else if current.current != cmd.base then (t, Err(RevisionConflict))
      else
        var next := current.current + 1;
        var revision := NewRevision(current, next, body, digest, env);
        if !env.wellFormed || !ValidBody(body) then (t, Err(PersistenceFailure))
        else match AppendRevisionIn(t, revision, cmd.base)
             case (t', Returned(Appended)) => (t', Ok(Written(current.(current := next), revision)))
             case (t', Returned(AppendNotFound)) => (t', Err(BrickNotFound))
             case (t', Returned(AppendArchived)) => (t', Err(BrickArchived))
             case (t', Returned(KindMismatch)) => (t', Err(InvalidCandidate))
             case (t', Returned(AppendConflict)) => (t', Err(RevisionConflict))
             case (t', Threw) => (t', Err(PersistenceFailure))
  }

  function ArchiveOn(t: Tables, key: Key, env: Env): (Tables, Result<Summary>) {
    Transact(t, env, ArchiveWork(t, key))
  }

  function ArchiveWork(t: Tables, key: Key): (Tables, Result<Summary>) {
    match RequireSummary(t, key)
    case Err(e) => (t, Err(e))
    case Ok(current) =>
      if current.status == Archived then (t, Ok(current))
      else match ArchiveBrickIn(t, key, current.current)
           case (t', Returned(ArchiveDone)) => (t', Ok(current.(status := Archived)))
           case (t', Returned(ArchiveNotFound)) => (t', Err(BrickNotFound))
           case (t', Returned(ArchiveConflict)) => (t', Err(RevisionConflict))
           case (t', Threw) => (t', Err(PersistenceFailure))
  }

  function ReadExact(h: DigestFunction, t: Tables, key: Key, number: int, env: Env): Result<Written> {
    Transact(t, env, (t, ReadExactWork(h, t, key, number))).1
  }

  function ReadExactWork(h: DigestFunction, t: Tables, key: Key, number: int): Result<Written> {
    match RequireSummary(t, key)
    case Err(e) => Err(e)
    case Ok(brick) => ExactOf(h, t, key, number, brick)
  }

  function ExactOf(h: DigestFunction, t: Tables, key: Key, number: int, brick: Summary): Result<Written> {
    match FindRevision(t, key, number)
    case Missing => Err(if number <= brick.current then IntegrityError else RevisionNotFound)
    case stored =>
      match RequireIntegrity(h, stored, brick, Some(number))
      case Err(e) => Err(e)
      case Ok(revision) => Ok(Written(brick, revision))
  }

  function ReadHistory(h: DigestFunction, t: Tables, key: Key, env: Env): Result<History> {
    Transact(t, env, (t, ReadHistoryWork(h, t, key))).1
  }

  function ReadHistoryWork(h: DigestFunction, t: Tables, key: Key): Result<History> {
    match RequireSummary(t, key)
    case Err(e) => Err(e)
    case Ok(brick) => HistoryOf(h, t, key, brick)
  }

  function HistoryOf(h: DigestFunction, t: Tables, key: Key, brick: Summary): Result<History> {
    match RequireEach(h, SortByNumber(RowNumber, RowsOf(t.revisions, key)), brick)
    case Err(e) => Err(e)
    case Ok(unsorted) =>
      var revisions := SortByNumber(RevisionNumber, unsorted);
      if |revisions| != brick.current || exists i | 0 <= i < |revisions| :: revisions[i].revision != i + 1
      then Err(IntegrityError) else Ok(History(brick, revisions))
  }

  /** The integrity check of each row in turn; the first failure is the answer. */
  function RequireEach(h: DigestFunction, rows: seq<Row>, brick: Summary): Result<seq<Revision>> {
    AllOrFirst(seq(|rows|, i requires 0 <= i < |rows| => RequireIntegrity(h, RevisionFromRow(rows[i], brick.brickUid), brick, None)))
  }

  function AllOrFirst<T>(answers: seq<Result<T>>): Result<seq<T>> {
    if answers == [] then Ok([])
    else match (answers[0], AllOrFirst(answers[1..]))
         case (Err(e), _) => Err(e)
         case (_, Err(e)) => Err(e)
         case (Ok(first), Ok(rest)) => Ok([first] + rest)
  }

  /** ORDER BY revision, and the stable sort by revision that follows it. */
  function RowNumber(row: Row): int { row.revision.revision }
  function RevisionNumber(r: Revision): int { r.revision }

  // ---------------------------------------------------------------- the service object

  /** The service over one open database; every command starts and ends outside a transaction. */
  class ProjectApplicationService {
    const db: Database
    const digest: DigestFunction

    constructor (db: Database, digest: DigestFunction)
      ensures this.db == db && this.digest == digest
    {
      this.db := db;
      this.digest := digest;
    }

    method CreateProject(project: ProjectId, env: Env) returns (r: Result<ProjectId>)
      requires db.saved == None
      modifies db
      ensures db.saved == None && (db.tables, r) == CreateProjectOn(old(db.tables), project, env)
    {
      var begun := db.Begin(env.beginOk);
      if !begun { db.Rollback(); return Err(PersistenceFailure); }
      if !env.wellFormed || project in db.tables.projects { db.Rollback(); return Err(PersistenceFailure); }
      db.tables := db.tables.(projects := db.tables.projects[project := env.now]);
      r := Finish(Ok(project), env);
    }

    method CreateDefinitionBrick(cmd: CreateCommand, env: Env) returns (r: Result<Written>)
      requires db.saved == None
      modifies db
      ensures db.saved == None && (db.tables, r) == CreateOn(digest, old(db.tables), cmd, env)
    {
      var canonical := CanonicalBody(cmd.kind, cmd.body);
      if canonical.None? { return Err(InvalidCandidate); }
      var body := canonical.value;
      var computed := ComputeDigest(digest, cmd.kind, body);
      var begun := db.Begin(env.beginOk);
      if !begun { db.Rollback(); return Err(PersistenceFailure); }
      if cmd.project !in db.tables.projects { r := Finish(Err(ProjectNotFound), env); return; }
      var brick := Summary(env.brickUid, cmd.project, cmd.brick, cmd.kind, 1, Active, env.now);
      var revision := NewRevision(brick, 1, body, computed, env);
      if !env.wellFormed || !ValidBody(body) { r := Finish(Err(PersistenceFailure), env); return; }
      var outcome := db.CreateBrick(brick, revision);
      var result := match outcome
        case Returned(Created) => Ok(Written(brick, revision))
        case Returned(AlreadyExists) => Err(BrickAlreadyExists)
        case Threw => Err(PersistenceFailure);
      r := Finish(result, env);
    }

    method ReviseDefinitionBrick(cmd: ReviseCommand, env: Env) returns (r: Result<Written>)
      requires db.saved == None
      modifies db
      ensures db.saved == None && (db.tables, r) == ReviseOn(digest, old(db.tables), cmd, env)
    {
      var canonical := CanonicalBody(cmd.kind, cmd.body);
      if canonical.None? { return Err(InvalidCandidate); }
      var body := canonical.value;
      var computed := ComputeDigest(digest, cmd.kind, body);
      var begun := db.Begin(env.beginOk);
      if !begun { db.Rollback(); return Err(PersistenceFailure); }
      var required := RequireSummary(db.tables, Key(cmd.project, cmd.brick));
      if required.Err? { r := Finish(Err(required.error), env); return; }
      var current := required.value;
      if current.kind != cmd.kind { r := Finish(Err(InvalidCandidate), env); return; }
      if current.status == Archived { r := Finish(Err(BrickArchived), env); return; }
      if current.current != cmd.base { r := Finish(Err(RevisionConflict), env); return; }
      var next := current.current + 1;
      var revision := NewRevision(current, next, body, computed, env);
      if !env.wellFormed || !ValidBody(body) { r := Finish(Err(PersistenceFailure), env); return; }
      var outcome := db.AppendRevision(revision, cmd.base);
      var result := match outcome
        case Returned(Appended) => Ok(Written(current.(current := next), revision))
        case Returned(AppendNotFound) => Err(BrickNotFound)
        case Returned(AppendArchived) => Err(BrickArchived)
        case Returned(KindMismatch) => Err(InvalidCandidate)
        case Returned(AppendConflict) => Err(RevisionConflict)
        case Threw => Err(PersistenceFailure);
      r := Finish(result, env);
    }

    method ArchiveDefinitionBrick(project: ProjectId, brick: BrickId, env: Env) returns (r: Result<Summary>)
      requires db.saved == None
      modifies db
      ensures db.saved == None && (db.tables, r) == ArchiveOn(old(db.tables), Key(project, brick), env)
    {
      var begun := db.Begin(env.beginOk);
      if !begun { db.Rollback(); return Err(PersistenceFailure); }
      var required := RequireSummary(db.tables, Key(project, brick));
      if required.Err? { r := Finish(Err(required.error), env); return; }
      var current := required.value;
      if current.status == Archived { r := Finish(Ok(current), env); return; }
      var outcome := db.ArchiveBrick(Key(project, brick), current.current);
      var result := match outcome
        case Returned(ArchiveDone) => Ok(current.(status := Archived))
        case Returned(ArchiveNotFound) => Err(BrickNotFound)
        case Returned(ArchiveConflict) => Err(RevisionConflict)
        case Threw => Err(PersistenceFailure);
      r := Finish(result, env);
    }

    method ReadExactDefinitionBrickRevision(project: ProjectId, brick: BrickId, number: int, env: Env)
      returns (r: Result<Written>)
      requires db.saved == None
      modifies db
      ensures db.saved == None && db.tables == old(db.tables)
      ensures r == ReadExact(digest, old(db.tables), Key(project, brick), number, env)
    {
      var begun := db.Begin(env.beginOk);
      if !begun { db.Rollback(); return Err(PersistenceFailure); }
      var required := RequireSummary(db.tables, Key(project, brick));
      if required.Err? { r := Finish(Err(required.error), env); return; }
      var summary := required.value;
      var stored := FindRevision(db.tables, Key(project, brick), number);
      if stored.Missing? {
        r := Finish(Err(if number <= summary.current then IntegrityError else RevisionNotFound), env);
        return;
      }
      var revision := RequireIntegrity(digest, stored, summary, Some(number));
      if revision.Err? { r := Finish(Err(revision.error), env); return; }
      r := Finish(Ok(Written(summary, revision.value)), env);
    }

    method ListDefinitionBrickHistory(project: ProjectId, brick: BrickId, env: Env) returns (r: Result<History>)
      requires db.saved == None
      modifies db
      ensures db.saved == None && db.tables == old(db.tables)
      ensures r == ReadHistory(digest, old(db.tables), Key(project, brick), env)
    {
      var begun := db.Begin(env.beginOk);
      if !begun { db.Rollback(); return Err(PersistenceFailure); }
      var required := RequireSummary(db.tables, Key(project, brick));
      if required.Err? { r := Finish(Err(required.error), env); return; }
      var summary := required.value;
      var each := RequireEach(digest, SortByNumber(RowNumber, RowsOf(db.tables.revisions, Key(project, brick))), summary);
      if each.Err? { r := Finish(Err(each.error), env); return; }
      var revisions := SortByNumber(RevisionNumber, each.value);
      if |revisions| != summary.current || exists i | 0 <= i < |revisions| :: revisions[i].revision != i + 1 {
        r := Finish(Err(IntegrityError), env);
        return;
      }
      r := Finish(Ok(History(summary, revisions)), env);
    }

    /** The end of `runInTransaction` for work that returned a value. */
    method Finish<T>(result: Result<T>, env: Env) returns (r: Result<T>)
      requires db.saved.Some?
      modifies db
      ensures db.saved == None
      ensures result.Ok? && env.commitOk ==> r == result && db.tables == old(db.tables)
      ensures result.Ok? && !env.commitOk ==> r == Err(PersistenceFailure) && db.tables == old(db.saved).value
      ensures result.Err? ==> r == result && db.tables == old(db.saved).value
    {
      if result.Err? {
        db.Rollback();
        return result;
      }
      var committed := db.Commit(env.commitOk);
      if !committed {
        db.Rollback();
        return Err(PersistenceFailure);
      }
      return result;
    }
  }
}
