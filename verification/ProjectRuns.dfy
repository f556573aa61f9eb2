/** Reads of the Definition Brick store, and its whole runs from the empty database: sequences of
    commands, each with what its environment supplied. `ProjectConcurrency` shows that concurrent
    commands amount to such a sequence. */
module ProjectRuns {
  import opened Options
  import opened Utf16Text
  import opened BrickBodies
  import opened ProjectTables
  import opened Sorting
  import opened ProjectService
  import opened ProjectLogs

  // ---------------------------------------------------------------- reads refine

  /** The rows of a brick sit at their numbers: row i carries revision i + 1. */
  lemma {:induction false} FirstWithNumberIsIndexed(rows: seq<Row>, offset: nat, number: int)
    requires forall i | 0 <= i < |rows| :: rows[i].revision.revision == offset + i + 1
    ensures FirstWithNumber(rows, number) ==
            if offset < number <= offset + |rows| then Some(rows[number - offset - 1]) else None
  {
    if rows != [] && rows[0].revision.revision != number {
      forall i | 0 <= i < |rows[1..]| ensures rows[1..][i].revision.revision == offset + 1 + i + 1 {
        assert rows[1..][i] == rows[i + 1];
      }
      FirstWithNumberIsIndexed(rows[1..], offset + 1, number);
    }
  }

  lemma RowAt(h: DigestFunction, t: Tables, key: Key, i: nat)
    requires Consistent(h, t) && key in t.aggregates && i < |RowsOf(t.revisions, key)|
    ensures var row := RowsOf(t.revisions, key)[i];
            && row.brickUid == t.aggregates[key].brickUid
            && row.revision == RevisionOf(key, LogAt(t, key), i)
            && RowSound(h, row)
  {
    var rows := RowsOf(t.revisions, key);
    assert AggregateOk(t, key);
    RowsOfSelects(t.revisions, key);
    assert rows[i] in rows;
    assert RowLinked(t, rows[i]);
    EntriesOfEach(rows);
  }

  /** For a CR-free body, being canonical means that no leaf starts with a BOM. */
  lemma CanonicalIffNoBom(kind: BrickKind, body: Body)
    requires KindAccepts(kind, body) && ValidBody(body) && AllLeaves(body, CrFree)
    ensures CanonicalBody(kind, body) == Some(body) <==> NoLeafStartsWithBom(body)
  {
    NormalBodyIff(body);
    forall i | 0 <= i < |Leaves(body)| ensures IsCanonical(Leaves(body)[i]) <==> NotLedByBom(Leaves(body)[i]) {
      CanonicalTextFixedIff(Leaves(body)[i]);
      assert CrFree(Leaves(body)[i]);
    }
  }

  /** The integrity check of one stored revision: the digest always matches, so only a leaf that
      would normalize again can fail it. */
  lemma IntegrityIff(h: DigestFunction, t: Tables, key: Key, i: nat, expected: Option<int>)
    requires Consistent(h, t) && key in t.aggregates && i < |RowsOf(t.revisions, key)|
    requires t.aggregates[key].current <= MAX_SAFE_INTEGER
    requires expected.Some? ==> expected.value == i + 1
    ensures var row := RowsOf(t.revisions, key)[i];
            RequireIntegrity(h, RevisionFromRow(row, t.aggregates[key].brickUid), t.aggregates[key], expected)
            == if NoLeafStartsWithBom(row.revision.body) then Ok(row.revision) else Err(IntegrityError)
  {
    RowAt(h, t, key, i);
    assert AggregateOk(t, key);
    var r := RowsOf(t.revisions, key)[i].revision;
    CanonicalIffNoBom(r.kind, r.body);
  }

  /** What the work inside an exact read answers for an existing brick. */
  lemma ReadExactWorkAgrees(h: DigestFunction, t: Tables, key: Key, number: int)
    requires Consistent(h, t) && key in t.aggregates && number >= 1
    requires t.aggregates[key].current <= MAX_SAFE_INTEGER
    ensures var log := LogAt(t, key);
            ReadExactWork(h, t, key, number)
            == if number > |log.entries| then Err(RevisionNotFound)
               else if !NoLeafStartsWithBom(log.entries[number - 1].body) then Err(IntegrityError)
               else Ok(Written(SummaryOf(key, log), RevisionOf(key, log, number - 1)))
  {
    SummaryAgrees(h, t, key);
    var rows := RowsOf(t.revisions, key);
    assert AggregateOk(t, key);
    FirstWithNumberIsIndexed(rows, 0, number);
    if number <= |rows| {
      RowAt(h, t, key, number - 1);
      IntegrityIff(h, t, key, number - 1, Some(number));
      EntriesOfEach(rows);
    }
  }

  lemma ReadExactRefines(h: DigestFunction, t: Tables, key: Key, number: int, env: Env)
    requires Consistent(h, t) && number >= 1
    ensures ReadExact(h, t, key, number, env) == LogReadExact(Logs(t), key, number, env)
  {
    if key in t.aggregates {
      SummaryAgrees(h, t, key);
      assert AggregateOk(t, key);
      assert Logs(t).logs[key] == LogAt(t, key);
      if t.aggregates[key].current <= MAX_SAFE_INTEGER {
        ReadExactWorkAgrees(h, t, key, number);
      }
    }
  }

  function RowRevisions(rows: seq<Row>): (r: seq<Revision>)
    ensures |r| == |rows| && forall i | 0 <= i < |rows| :: r[i] == rows[i].revision
  {
    seq(|rows|, i requires 0 <= i < |rows| => rows[i].revision)
  }

  predicate Readable(row: Row) {
    NoLeafStartsWithBom(row.revision.body)
  }

  /** The integrity check of one row fails exactly when the row is not readable. */
  predicate ChecksOnlyText(h: DigestFunction, row: Row, brick: Summary) {
    RequireIntegrity(h, RevisionFromRow(row, brick.brickUid), brick, None)
    == if Readable(row) then Ok(row.revision) else Err(IntegrityError)
  }

  /** Answers that are either the given values or one and the same error. */
  lemma {:induction false} AllOrFirstOf<T>(answers: seq<Result<T>>, values: seq<T>, e: Error)
    requires |answers| == |values| && forall i | 0 <= i < |answers| :: answers[i] == Ok(values[i]) || answers[i] == Err(e)
    ensures AllOrFirst(answers) == if forall i | 0 <= i < |answers| :: answers[i].Ok? then Ok(values) else Err(e)
  {
    if answers != [] {
      AllOrFirstOf(answers[1..], values[1..], e);
      assert values == [values[0]] + values[1..];
      assert forall i | 1 <= i < |answers| :: answers[i] == answers[1..][i - 1];
    }
  }

  lemma RequireEachOf(h: DigestFunction, rows: seq<Row>, brick: Summary)
    requires forall row | row in rows :: ChecksOnlyText(h, row, brick)
    ensures RequireEach(h, rows, brick) == if forall row | row in rows :: Readable(row) then Ok(RowRevisions(rows)) else Err(IntegrityError)
  {
    var answers := seq(|rows|, i requires 0 <= i < |rows| => RequireIntegrity(h, RevisionFromRow(rows[i], brick.brickUid), brick, None));
    forall i | 0 <= i < |rows| ensures answers[i] == if Readable(rows[i]) then Ok(rows[i].revision) else Err(IntegrityError) {
      assert ChecksOnlyText(h, rows[i], brick);
    }
    AllOrFirstOf(answers, RowRevisions(rows), IntegrityError);
    forall i | 0 <= i < |rows| ensures rows[i] in rows {}
  }

  lemma RowsCheckOnlyText(h: DigestFunction, t: Tables, key: Key)
    requires Consistent(h, t) && key in t.aggregates && t.aggregates[key].current <= MAX_SAFE_INTEGER
    ensures forall row | row in RowsOf(t.revisions, key) :: ChecksOnlyText(h, row, t.aggregates[key])
  {
    var rows := RowsOf(t.revisions, key);
    forall row | row in rows ensures ChecksOnlyText(h, row, t.aggregates[key]) {
      var i :| 0 <= i < |rows| && rows[i] == row;
      IntegrityIff(h, t, key, i, None);
    }
  }

  lemma RowRevisionsAreLogged(h: DigestFunction, t: Tables, key: Key)
    requires Consistent(h, t) && key in t.aggregates
    ensures RowRevisions(RowsOf(t.revisions, key)) == Revisions(key, LogAt(t, key))
    ensures AllReadable(LogAt(t, key)) <==> forall row | row in RowsOf(t.revisions, key) :: Readable(row)
  {
    var rows := RowsOf(t.revisions, key);
    EntriesOfEach(rows);
    forall i | 0 <= i < |rows| ensures rows[i].revision == RevisionOf(key, LogAt(t, key), i) { RowAt(h, t, key, i); }
    assert forall i | 0 <= i < |rows| :: LogAt(t, key).entries[i].body == rows[i].revision.body && rows[i] in rows;
  }

  lemma RequireAllRows(h: DigestFunction, t: Tables, key: Key)
    requires Consistent(h, t) && key in t.aggregates && t.aggregates[key].current <= MAX_SAFE_INTEGER
    ensures var log := LogAt(t, key);
            RequireEach(h, RowsOf(t.revisions, key), t.aggregates[key])
            == if AllReadable(log) then Ok(Revisions(key, log)) else Err(IntegrityError)
  {
    RowsCheckOnlyText(h, t, key);
    RequireEachOf(h, RowsOf(t.revisions, key), t.aggregates[key]);
    RowRevisionsAreLogged(h, t, key);
  }

  /** Revisions numbered 1 .. length in order pass the sort and the final recount. */
  lemma NumberedHistoryPasses(h: DigestFunction, t: Tables, key: Key, brick: Summary, rs: seq<Revision>)
    requires RequireSummary(t, key) == Ok(brick) && brick.current == |rs|
    requires RequireEach(h, SortByNumber(RowNumber, RowsOf(t.revisions, key)), brick) == Ok(rs)
    requires forall i | 0 <= i < |rs| :: rs[i].revision == i + 1
    ensures ReadHistoryWork(h, t, key) == Ok(History(brick, rs))
  {
    SortKeepsNumbered(RevisionNumber, rs);
  }

  /** The work inside a history transaction, once the summary and the integrity checks have answered. */
  lemma HistoryWorkFrom(h: DigestFunction, t: Tables, key: Key, brick: Summary, rs: seq<Revision>, readable: bool)
    requires RequireSummary(t, key) == Ok(brick) && brick.current == |rs|
    requires RequireEach(h, SortByNumber(RowNumber, RowsOf(t.revisions, key)), brick) == if readable then Ok(rs) else Err(IntegrityError)
    requires forall i | 0 <= i < |rs| :: rs[i].revision == i + 1
    ensures ReadHistoryWork(h, t, key) == if readable then Ok(History(brick, rs)) else Err(IntegrityError)
  {
    if readable { NumberedHistoryPasses(h, t, key, brick, rs); }
  }

  /** What it answers for an existing brick. */
  lemma HistoryWorkAgrees(h: DigestFunction, t: Tables, key: Key, log: Log)
    requires Consistent(h, t) && key in t.aggregates && log == LogAt(t, key)
    ensures ReadHistoryWork(h, t, key)
            == if |log.entries| > MAX_SAFE_INTEGER || !AllReadable(log) then Err(IntegrityError)
               else Ok(History(SummaryOf(key, log), Revisions(key, log)))
  {
    SummaryAgrees(h, t, key);
    if t.aggregates[key].current <= MAX_SAFE_INTEGER {
      SortRowsAscending(h, t, key);
      RequireAllRows(h, t, key);
      HistoryWorkFrom(h, t, key, SummaryOf(key, log), Revisions(key, log), AllReadable(log));
    }
  }

  lemma SortRowsAscending(h: DigestFunction, t: Tables, key: Key)
    requires Consistent(h, t) && key in t.aggregates
    ensures SortByNumber(RowNumber, RowsOf(t.revisions, key)) == RowsOf(t.revisions, key)
  {
    assert AggregateOk(t, key);
    SortKeepsNumbered(RowNumber, RowsOf(t.revisions, key));
  }

  lemma HistoryRefines(h: DigestFunction, t: Tables, key: Key, env: Env)
    requires Consistent(h, t)
    ensures ReadHistory(h, t, key, env) == LogHistory(Logs(t), key, env)
  {
    if key in t.aggregates {
      assert AggregateOk(t, key);
      var log := LogAt(t, key);
      HistoryWorkAgrees(h, t, key, log);
      assert Logs(t).logs[key] == log;
    }
  }

  // ---------------------------------------------------------------- runs

  datatype Command =
    | NewProject(project: ProjectId, env: Env)
    | NewBrick(create: CreateCommand, env: Env)
    | ReviseBrick(revise: ReviseCommand, env: Env)
    | ArchiveBrick(key: Key, env: Env)
    | ReadBrick(key: Key, number: int, env: Env)
    | ListBrick(key: Key, env: Env)

  datatype Answer =
    | ProjectAnswer(project: Result<ProjectId>)
    | WriteAnswer(written: Result<Written>)
    | ArchiveAnswer(archived: Result<Summary>)
    | ReadAnswer(read: Result<Written>)
    | HistoryAnswer(history: Result<History>)

  function Step(h: DigestFunction, t: Tables, c: Command): (Tables, Answer) {
    match c
    case NewProject(p, env) => var (t', r) := CreateProjectOn(t, p, env); (t', ProjectAnswer(r))
    case NewBrick(cmd, env) => var (t', r) := CreateOn(h, t, cmd, env); (t', WriteAnswer(r))
    case ReviseBrick(cmd, env) => var (t', r) := ReviseOn(h, t, cmd, env); (t', WriteAnswer(r))
    case ArchiveBrick(key, env) => var (t', r) := ArchiveOn(t, key, env); (t', ArchiveAnswer(r))
    case ReadBrick(key, number, env) =>
      (t, ReadAnswer(if number < 1 then Err(InvalidCandidate) else ReadExact(h, t, key, number, env)))
    case ListBrick(key, env) => (t, HistoryAnswer(ReadHistory(h, t, key, env)))
  }

  /** The tables after the first `n` commands of a run from the empty database. */
  function After(h: DigestFunction, run: seq<Command>, n: nat): Tables
    requires n <= |run|
  {
    if n == 0 then EMPTY else Step(h, After(h, run, n - 1), run[n - 1]).0
  }

  function AnswerTo(h: DigestFunction, run: seq<Command>, n: nat): Answer
    requires n < |run|
  {
    Step(h, After(h, run, n), run[n]).1
  }

  function ErrorOf(a: Answer): Option<Error> {
    match a
    case ProjectAnswer(Err(e)) => Some(e)
    case WriteAnswer(Err(e)) => Some(e)
    case ArchiveAnswer(Err(e)) => Some(e)
    case ReadAnswer(Err(e)) => Some(e)
    case HistoryAnswer(Err(e)) => Some(e)
    case _ => None
  }

  predicate Failed(a: Answer) {
    ErrorOf(a).Some?
  }

  /** Revision `w` is its brick's log entry number `w.revision`. */
  ghost predicate Logged(s: LogStore, w: Revision) {
    && KeyOf(w) in s.logs
    && 1 <= w.revision <= |s.logs[KeyOf(w)].entries|
    && RevisionOf(KeyOf(w), s.logs[KeyOf(w)], w.revision - 1) == w
  }

  /** Logs only grow at their end, identity fixed; an archived log changes no more. */
  ghost predicate Extends(s: LogStore, s': LogStore) {
    && s.projects.Keys <= s'.projects.Keys
    && (forall key | key in s.logs :: key in s'.logs && LogExtends(s.logs[key], s'.logs[key]))
  }

  ghost predicate LogExtends(log: Log, log': Log) {
    && log'.brickUid == log.brickUid && log'.kind == log.kind && log'.createdAt == log.createdAt
    && log.entries <= log'.entries
    && (log.status == Archived ==> log' == log)
  }

  lemma CreateExtends(h: DigestFunction, s: LogStore, cmd: CreateCommand, env: Env)
    ensures Extends(s, LogCreate(h, s, cmd, env).0)
    ensures LogCreate(h, s, cmd, env).1.Ok? ==> Logged(LogCreate(h, s, cmd, env).0, LogCreate(h, s, cmd, env).1.value.revision)
  {}

  lemma ReviseExtends(h: DigestFunction, s: LogStore, cmd: ReviseCommand, env: Env)
    ensures Extends(s, LogRevise(h, s, cmd, env).0)
    ensures LogRevise(h, s, cmd, env).1.Ok? ==>
              && Logged(LogRevise(h, s, cmd, env).0, LogRevise(h, s, cmd, env).1.value.revision)
              && Key(cmd.project, cmd.brick) in s.logs
              && |s.logs[Key(cmd.project, cmd.brick)].entries| == cmd.base
              && KeyOf(LogRevise(h, s, cmd, env).1.value.revision) == Key(cmd.project, cmd.brick)
              && LogRevise(h, s, cmd, env).1.value.revision.revision == cmd.base + 1
  {}

  lemma ArchiveExtends(s: LogStore, key: Key, env: Env)
    ensures Extends(s, LogArchive(s, key, env).0)
  {}

  lemma NewProjectKeeps(h: DigestFunction, t: Tables, project: ProjectId, env: Env)
    requires Consistent(h, t)
    ensures Continues(h, t, CreateProjectOn(t, project, env).0)
    ensures CreateProjectOn(t, project, env).1.Err? ==> CreateProjectOn(t, project, env).0 == t
  {
    var t' := CreateProjectOn(t, project, env).0;
    assert AggregatesOk(t') by {
      forall k | k in t'.aggregates ensures AggregateOk(t', k) { assert AggregateOk(t, k); }
    }
    assert RowsLinked(t') by {
      forall row | row in t'.revisions ensures RowLinked(t', row) { assert RowLinked(t, row); }
    }
    assert forall k | k in t.aggregates :: LogAt(t', k) == LogAt(t, k);
  }

  /** `t'` is a consistent store that extends `t`. */
  ghost predicate Continues(h: DigestFunction, t: Tables, t': Tables) {
    Consistent(h, t') && Extends(Logs(t), Logs(t'))
  }

  lemma CreateContinues(h: DigestFunction, t: Tables, cmd: CreateCommand, env: Env)
    requires Consistent(h, t)
    ensures Continues(h, t, CreateOn(h, t, cmd, env).0)
    ensures CreateOn(h, t, cmd, env).1.Err? ==> CreateOn(h, t, cmd, env).0 == t
  {
    CreateRefines(h, t, cmd, env);
    CreateExtends(h, Logs(t), cmd, env);
    CreateChange(h, t, cmd, env);
  }

  lemma ReviseContinues(h: DigestFunction, t: Tables, cmd: ReviseCommand, env: Env)
    requires Consistent(h, t)
    ensures Continues(h, t, ReviseOn(h, t, cmd, env).0)
    ensures ReviseOn(h, t, cmd, env).1.Err? ==> ReviseOn(h, t, cmd, env).0 == t
  {
    ReviseRefines(h, t, cmd, env);
    ReviseExtends(h, Logs(t), cmd, env);
    ReviseChange(h, t, cmd, env);
  }

  lemma ArchiveContinues(h: DigestFunction, t: Tables, key: Key, env: Env)
    requires Consistent(h, t)
    ensures Continues(h, t, ArchiveOn(t, key, env).0)
    ensures ArchiveOn(t, key, env).1.Err? ==> ArchiveOn(t, key, env).0 == t
  {
    ArchiveRefines(h, t, key, env);
    ArchiveExtends(Logs(t), key, env);
  }

  lemma SameStoreContinues(h: DigestFunction, t: Tables)
    requires Consistent(h, t)
    ensures Continues(h, t, t)
  {}

  lemma StepContinues(h: DigestFunction, t: Tables, c: Command)
    requires Consistent(h, t)
    ensures Continues(h, t, Step(h, t, c).0)
    ensures Failed(Step(h, t, c).1) ==> Step(h, t, c).0 == t
  {
    match c
    case NewProject(p, env) => NewProjectKeeps(h, t, p, env);
    case NewBrick(cmd, env) => CreateContinues(h, t, cmd, env);
    case ReviseBrick(cmd, env) => ReviseContinues(h, t, cmd, env);
    case ArchiveBrick(key, env) => ArchiveContinues(h, t, key, env);
    case ReadBrick(_, _, _) => SameStoreContinues(h, t);
    case ListBrick(_, _) => SameStoreContinues(h, t);
  }

  lemma StepKeeps(h: DigestFunction, t: Tables, c: Command)
    requires Consistent(h, t)
    ensures Consistent(h, Step(h, t, c).0)
    ensures Extends(Logs(t), Logs(Step(h, t, c).0))
    ensures Failed(Step(h, t, c).1) ==> Step(h, t, c).0 == t
  {
    StepContinues(h, t, c);
  }

  /** Every state of every run keeps the tables consistent: revisions are exactly 1 .. current, all of
      one kind and one brick uid. */
  lemma {:induction false} RunsAreConsistent(h: DigestFunction, run: seq<Command>, n: nat)
    requires n <= |run|
    ensures Consistent(h, After(h, run, n))
  {
    if n > 0 {
      RunsAreConsistent(h, run, n - 1);
      StepKeeps(h, After(h, run, n - 1), run[n - 1]);
    }
  }

  lemma NextExtends(h: DigestFunction, run: seq<Command>, n: nat)
    requires 0 < n <= |run|
    ensures Extends(Logs(After(h, run, n - 1)), Logs(After(h, run, n)))
  {
    RunsAreConsistent(h, run, n - 1);
    StepKeeps(h, After(h, run, n - 1), run[n - 1]);
  }

  lemma SameExtends(s: LogStore)
    ensures Extends(s, s)
  {}

  lemma {:induction false} RunsExtend(h: DigestFunction, run: seq<Command>, m: nat, n: nat)
    requires m <= n <= |run|
    ensures Extends(Logs(After(h, run, m)), Logs(After(h, run, n)))
  {
    if m < n {
      RunsExtend(h, run, m, n - 1);
      NextExtends(h, run, n);
      ExtendsTransitive(Logs(After(h, run, m)), Logs(After(h, run, n - 1)), Logs(After(h, run, n)));
    }
  }

  lemma ExtendsTransitive(a: LogStore, b: LogStore, c: LogStore)
    requires Extends(a, b) && Extends(b, c)
    ensures Extends(a, c)
  {
    forall key | key in a.logs ensures key in c.logs && LogExtends(a.logs[key], c.logs[key]) {
      assert LogExtends(a.logs[key], b.logs[key]) && LogExtends(b.logs[key], c.logs[key]);
    }
  }

  lemma FailuresLeaveTheStore(h: DigestFunction, run: seq<Command>, n: nat)
    requires n < |run| && Failed(AnswerTo(h, run, n))
    ensures After(h, run, n + 1) == After(h, run, n)
  {
    RunsAreConsistent(h, run, n);
    StepKeeps(h, After(h, run, n), run[n]);
  }

  predicate Succeeded(h: DigestFunction, run: seq<Command>, n: nat)
    requires n < |run|
  {
    AnswerTo(h, run, n).WriteAnswer? && AnswerTo(h, run, n).written.Ok?
  }

  lemma WriteIsLogged(h: DigestFunction, t: Tables, c: Command)
    requires Consistent(h, t) && Step(h, t, c).1.WriteAnswer? && Step(h, t, c).1.written.Ok?
    ensures Logged(Logs(Step(h, t, c).0), Step(h, t, c).1.written.value.revision)
  {
    if c.NewBrick? {
      CreateRefines(h, t, c.create, c.env);
      CreateExtends(h, Logs(t), c.create, c.env);
    } else {
      ReviseRefines(h, t, c.revise, c.env);
      ReviseExtends(h, Logs(t), c.revise, c.env);
    }
  }

  lemma WrittenIsLoggedNext(h: DigestFunction, run: seq<Command>, m: nat)
    requires m < |run| && Succeeded(h, run, m)
    ensures Logged(Logs(After(h, run, m + 1)), AnswerTo(h, run, m).written.value.revision)
  {
    RunsAreConsistent(h, run, m);
    WriteIsLogged(h, After(h, run, m), run[m]);
  }

  lemma StaysLogged(h: DigestFunction, run: seq<Command>, m: nat, n: nat, w: Revision)
    requires m <= n <= |run| && Logged(Logs(After(h, run, m)), w)
    ensures Logged(Logs(After(h, run, n)), w)
  {
    RunsExtend(h, run, m, n);
    LoggedStays(Logs(After(h, run, m)), Logs(After(h, run, n)), w);
  }

  /** A successful write's revision is in the log from then on. */
  lemma WrittenIsLogged(h: DigestFunction, run: seq<Command>, m: nat, n: nat)
    requires m < n <= |run| && Succeeded(h, run, m)
    ensures Logged(Logs(After(h, run, n)), AnswerTo(h, run, m).written.value.revision)
  {
    var w := AnswerTo(h, run, m).written.value.revision;
    WrittenIsLoggedNext(h, run, m);
    StaysLogged(h, run, m + 1, n, w);
  }

  lemma LoggedStays(s: LogStore, s': LogStore, w: Revision)
    requires Extends(s, s') && Logged(s, w)
    ensures Logged(s', w)
  {
    assert LogExtends(s.logs[KeyOf(w)], s'.logs[KeyOf(w)]);
  }

  /** The body a write command asks to store. */
  function BodyOf(c: Command): Option<Body> {
    match c
    case NewBrick(cmd, _) => Some(cmd.body)
    case ReviseBrick(cmd, _) => Some(cmd.body)
    case _ => None
  }

  /** No leaf of the body a command writes begins with two BOMs. */
  predicate IsClean(c: Command) {
    BodyOf(c).Some? ==> AllLeaves(BodyOf(c).value, NotLedByTwoBoms)
  }

  /** What is stored starts with a BOM somewhere exactly when the command's body began with two. */
  lemma StoredCleanIff(body: Body)
    ensures NoLeafStartsWithBom(NormalizeBody(body)) <==> AllLeaves(body, NotLedByTwoBoms)
  {
    RenormalizeIff(body);
    NormalizedBodyFixedIff(body);
  }

  lemma WriteStoresNormalForm(h: DigestFunction, t: Tables, c: Command)
    requires Consistent(h, t) && Step(h, t, c).1.WriteAnswer? && Step(h, t, c).1.written.Ok?
    ensures BodyOf(c).Some? && Step(h, t, c).1.written.value.revision.body == NormalizeBody(BodyOf(c).value)
  {
    if c.NewBrick? { CreateStoresNormalForm(h, t, c.create, c.env); } else { ReviseStoresNormalForm(h, t, c.revise, c.env); }
  }

  lemma CreateStoresNormalForm(h: DigestFunction, t: Tables, cmd: CreateCommand, env: Env)
    requires Consistent(h, t) && CreateOn(h, t, cmd, env).1.Ok?
    ensures CreateOn(h, t, cmd, env).1.value.revision.body == NormalizeBody(cmd.body)
  {
    CreateRefines(h, t, cmd, env);
  }

  lemma ReviseStoresNormalForm(h: DigestFunction, t: Tables, cmd: ReviseCommand, env: Env)
    requires Consistent(h, t) && ReviseOn(h, t, cmd, env).1.Ok?
    ensures ReviseOn(h, t, cmd, env).1.value.revision.body == NormalizeBody(cmd.body)
  {
    ReviseRefines(h, t, cmd, env);
  }

  /** What was written reads back unchanged in every later state exactly when no leaf of the body that
      the command handed over begins with two BOMs, while the brick has not outgrown safe integers. */
  lemma WrittenReadsBackIff(h: DigestFunction, run: seq<Command>, m: nat, n: nat, env: Env)
    requires m < n <= |run| && Succeeded(h, run, m) && env.beginOk && env.commitOk
    ensures var w := AnswerTo(h, run, m).written.value.revision;
            var t := After(h, run, n);
            && KeyOf(w) in t.aggregates
            && var r := ReadExact(h, t, KeyOf(w), w.revision, env);
               if IsClean(run[m]) && t.aggregates[KeyOf(w)].current <= MAX_SAFE_INTEGER
               then r.Ok? && r.value.revision == w
               else r == Err(IntegrityError)
  {
    var w := AnswerTo(h, run, m).written.value.revision;
    RunsAreConsistent(h, run, m);
    WriteStoresNormalForm(h, After(h, run, m), run[m]);
    StoredCleanIff(BodyOf(run[m]).value);
    WrittenIsLogged(h, run, m, n);
    RunsAreConsistent(h, run, n);
    LoggedReadsBackIff(h, After(h, run, n), w, env);
  }

  lemma LoggedReadsBackIff(h: DigestFunction, t: Tables, w: Revision, env: Env)
    requires Consistent(h, t) && Logged(Logs(t), w) && env.beginOk && env.commitOk
    ensures KeyOf(w) in t.aggregates
    ensures var r := ReadExact(h, t, KeyOf(w), w.revision, env);
            if NoLeafStartsWithBom(w.body) && t.aggregates[KeyOf(w)].current <= MAX_SAFE_INTEGER
            then r.Ok? && r.value.revision == w
            else r == Err(IntegrityError)
  {
    assert AggregateOk(t, KeyOf(w));
    ReadExactRefines(h, t, KeyOf(w), w.revision, env);
    assert Logs(t).logs[KeyOf(w)] == LogAt(t, KeyOf(w));
  }

  // ---------------------------------------------------------------- integrity errors

  /** No brick has outgrown the safe integers. */
  ghost predicate Countable(t: Tables) {
    forall key | key in t.aggregates :: t.aggregates[key].current <= MAX_SAFE_INTEGER
  }

  ghost predicate AllLogsReadable(s: LogStore) {
    forall key | key in s.logs :: AllReadable(s.logs[key])
  }

  lemma CreateStaysReadable(h: DigestFunction, t: Tables, cmd: CreateCommand, env: Env)
    requires Consistent(h, t) && AllLogsReadable(Logs(t)) && AllLeaves(cmd.body, NotLedByTwoBoms)
    ensures AllLogsReadable(Logs(CreateOn(h, t, cmd, env).0))
  {
    StoredCleanIff(cmd.body);
    CreateRefines(h, t, cmd, env);
    LoggedCreateIsReadable(h, Logs(t), cmd, env);
  }

  lemma LoggedCreateIsReadable(h: DigestFunction, s: LogStore, cmd: CreateCommand, env: Env)
    requires AllLogsReadable(s) && NoLeafStartsWithBom(NormalizeBody(cmd.body))
    ensures AllLogsReadable(LogCreate(h, s, cmd, env).0)
  {}

  lemma ReviseStaysReadable(h: DigestFunction, t: Tables, cmd: ReviseCommand, env: Env)
    requires Consistent(h, t) && AllLogsReadable(Logs(t)) && AllLeaves(cmd.body, NotLedByTwoBoms)
    ensures AllLogsReadable(Logs(ReviseOn(h, t, cmd, env).0))
  {
    StoredCleanIff(cmd.body);
    ReviseRefines(h, t, cmd, env);
    LoggedReviseIsReadable(h, Logs(t), cmd, env);
  }

  lemma LoggedReviseIsReadable(h: DigestFunction, s: LogStore, cmd: ReviseCommand, env: Env)
    requires AllLogsReadable(s) && NoLeafStartsWithBom(NormalizeBody(cmd.body))
    ensures AllLogsReadable(LogRevise(h, s, cmd, env).0)
  {
    if Key(cmd.project, cmd.brick) in s.logs { assert AllReadable(s.logs[Key(cmd.project, cmd.brick)]); }
  }

  lemma ArchiveStaysReadable(h: DigestFunction, t: Tables, key: Key, env: Env)
    requires Consistent(h, t) && AllLogsReadable(Logs(t))
    ensures AllLogsReadable(Logs(ArchiveOn(t, key, env).0))
  {
    ArchiveRefines(h, t, key, env);
    if key in Logs(t).logs { assert AllReadable(Logs(t).logs[key]); }
  }

  lemma NewProjectStaysReadable(h: DigestFunction, t: Tables, project: ProjectId, env: Env)
    requires AllLogsReadable(Logs(t))
    ensures AllLogsReadable(Logs(CreateProjectOn(t, project, env).0))
  {
    var t' := CreateProjectOn(t, project, env).0;
    assert forall k | k in t.aggregates :: LogAt(t', k) == LogAt(t, k);
    assert Logs(t').logs == Logs(t).logs;
  }

  lemma CleanStepStaysReadable(h: DigestFunction, t: Tables, c: Command)
    requires Consistent(h, t) && AllLogsReadable(Logs(t)) && IsClean(c)
    ensures AllLogsReadable(Logs(Step(h, t, c).0))
  {
    match c
    case NewProject(p, env) => NewProjectStaysReadable(h, t, p, env);
    case NewBrick(cmd, env) => CreateStaysReadable(h, t, cmd, env);
    case ReviseBrick(cmd, env) => ReviseStaysReadable(h, t, cmd, env);
    case ArchiveBrick(key, env) => ArchiveStaysReadable(h, t, key, env);
    case ReadBrick(_, _, _) =>
    case ListBrick(_, _) =>
  }

  lemma {:induction false} CleanRunsAreReadable(h: DigestFunction, run: seq<Command>, n: nat)
    requires n <= |run| && forall i | 0 <= i < n :: IsClean(run[i])
    ensures AllLogsReadable(Logs(After(h, run, n)))
  {
    if n > 0 {
      CleanRunsAreReadable(h, run, n - 1);
      RunsAreConsistent(h, run, n - 1);
      CleanStepStaysReadable(h, After(h, run, n - 1), run[n - 1]);
    }
  }

  /** Over readable, countable tables no command answers with an integrity error. */
  lemma ReadableStepHasNoIntegrityError(h: DigestFunction, t: Tables, c: Command)
    requires Consistent(h, t) && AllLogsReadable(Logs(t)) && Countable(t)
    ensures ErrorOf(Step(h, t, c).1) != Some(IntegrityError)
  {
    LogsAreCountable(h, t);
    match c
    case NewProject(p, env) =>
    case NewBrick(cmd, env) => CreateHasNoIntegrityError(h, t, cmd, env);
    case ReviseBrick(cmd, env) => ReviseHasNoIntegrityError(h, t, cmd, env);
    case ArchiveBrick(key, env) => ArchiveHasNoIntegrityError(h, t, key, env);
    case ReadBrick(key, number, env) => if number >= 1 { ReadHasNoIntegrityError(h, t, key, number, env); }
    case ListBrick(key, env) => HistoryHasNoIntegrityError(h, t, key, env);
  }

  ghost predicate LogsCountable(s: LogStore) {
    forall key | key in s.logs :: |s.logs[key].entries| <= MAX_SAFE_INTEGER
  }

  lemma CreateHasNoIntegrityError(h: DigestFunction, t: Tables, cmd: CreateCommand, env: Env)
    requires Consistent(h, t)
    ensures CreateOn(h, t, cmd, env).1 != Err(IntegrityError)
  {
    CreateRefines(h, t, cmd, env);
  }

  lemma ReviseHasNoIntegrityError(h: DigestFunction, t: Tables, cmd: ReviseCommand, env: Env)
    requires Consistent(h, t) && LogsCountable(Logs(t))
    ensures ReviseOn(h, t, cmd, env).1 != Err(IntegrityError)
  {
    ReviseRefines(h, t, cmd, env);
  }

  lemma ArchiveHasNoIntegrityError(h: DigestFunction, t: Tables, key: Key, env: Env)
    requires Consistent(h, t) && LogsCountable(Logs(t))
    ensures ArchiveOn(t, key, env).1 != Err(IntegrityError)
  {
    ArchiveRefines(h, t, key, env);
  }

  lemma ReadHasNoIntegrityError(h: DigestFunction, t: Tables, key: Key, number: int, env: Env)
    requires Consistent(h, t) && LogsCountable(Logs(t)) && AllLogsReadable(Logs(t)) && number >= 1
    ensures ReadExact(h, t, key, number, env) != Err(IntegrityError)
  {
    ReadExactRefines(h, t, key, number, env);
  }

  lemma HistoryHasNoIntegrityError(h: DigestFunction, t: Tables, key: Key, env: Env)
    requires Consistent(h, t) && LogsCountable(Logs(t)) && AllLogsReadable(Logs(t))
    ensures ReadHistory(h, t, key, env) != Err(IntegrityError)
  {
    HistoryRefines(h, t, key, env);
  }

  lemma LogsAreCountable(h: DigestFunction, t: Tables)
    requires Consistent(h, t) && Countable(t)
    ensures LogsCountable(Logs(t))
  {
    forall key | key in Logs(t).logs ensures |Logs(t).logs[key].entries| <= MAX_SAFE_INTEGER { SummaryAgrees(h, t, key); }
  }

  /** In a run whose writes hand over no body with a leaf led by two BOMs, no read and no write ever
      answers with an integrity error while every brick's revisions are safe integers. */
  lemma IntegrityErrorIsUnreachable(h: DigestFunction, run: seq<Command>, n: nat)
    requires n < |run| && (forall i | 0 <= i < n :: IsClean(run[i])) && Countable(After(h, run, n))
    ensures ErrorOf(AnswerTo(h, run, n)) != Some(IntegrityError)
  {
    RunsAreConsistent(h, run, n);
    CleanRunsAreReadable(h, run, n);
    ReadableStepHasNoIntegrityError(h, After(h, run, n), run[n]);
  }

  /** A brick has at most as many revisions as there were commands, so no run of fewer than 2^53
      commands can outgrow the safe integers. */
  lemma {:induction false} RevisionsAreCommands(h: DigestFunction, run: seq<Command>, n: nat)
    requires n <= |run|
    ensures forall key | key in After(h, run, n).aggregates :: After(h, run, n).aggregates[key].current <= n
    ensures n <= MAX_SAFE_INTEGER ==> Countable(After(h, run, n))
  {
    if n > 0 {
      RevisionsAreCommands(h, run, n - 1);
      RunsAreConsistent(h, run, n - 1);
      StepAddsOneRevision(h, After(h, run, n - 1), run[n - 1]);
    }
  }

  /** `t'` has at most one revision more of any brick. */
  ghost predicate AddsAtMostOne(t: Tables, t': Tables) {
    forall key | key in t'.aggregates :: t'.aggregates[key].current <= (if key in t.aggregates then t.aggregates[key].current else 0) + 1
  }

  lemma StepAddsOneRevision(h: DigestFunction, t: Tables, c: Command)
    requires Consistent(h, t)
    ensures AddsAtMostOne(t, Step(h, t, c).0)
  {
    match c
    case NewProject(p, env) =>
    case NewBrick(cmd, env) => CreateChange(h, t, cmd, env);
    case ReviseBrick(cmd, env) => ReviseChange(h, t, cmd, env);
    case ArchiveBrick(key, env) => ArchiveAddsNone(t, key, env);
    case ReadBrick(_, _, _) =>
    case ListBrick(_, _) =>
  }

  lemma ArchiveAddsNone(t: Tables, key: Key, env: Env)
    ensures AddsAtMostOne(t, ArchiveOn(t, key, env).0)
  {}

  const TWO_BOMS: Text := [BOM, BOM, 0x41]

  lemma TwoBomsNormalizeToOne()
    ensures CanonicalizeText(TWO_BOMS) == [BOM, 0x41] && ValidText(TWO_BOMS) && ValidText([BOM, 0x41])
  {
    var text := TWO_BOMS;
    assert text[1..] == [BOM, 0x41];
    NewlinesFixCrFreeText([BOM, 0x41]);
    assert WellFormedUtf16(text[3..]) && text[1..][1..] == text[2..] && text[2..][1..] == text[3..];
    assert WellFormedUtf16(text[1..]);
  }

  /** A brick whose text led with two BOMs is created, and can then never be read. */
  lemma TwoBomsAreWrittenButNotRead(h: DigestFunction, env: Env)
    requires env == Env(true, true, 1, 2, 3, true)
    ensures var run := [NewProject(7, env), NewBrick(CreateCommand(7, 8, SysPrompt, SysPromptBody(TWO_BOMS)), env)];
            Succeeded(h, run, 1) && ReadExact(h, After(h, run, 2), Key(7, 8), 1, env) == Err(IntegrityError)
  {
    var cmd := CreateCommand(7, 8, SysPrompt, SysPromptBody(TWO_BOMS));
    var run := [NewProject(7, env), NewBrick(cmd, env)];
    var t := EMPTY.(projects := map[7 := 3]);
    assert After(h, run, 0) == EMPTY;
    assert After(h, run, 1) == t;
    RunsAreConsistent(h, run, 1);
    TwoBomsAreCreated(h, t, cmd, env);
    assert Leaves(cmd.body)[0] == TWO_BOMS && !NotLedByTwoBoms(TWO_BOMS);
    assert !IsClean(run[1]);
    WrittenReadsBackIff(h, run, 1, 2, env);
  }

  lemma TwoBomsAreCreated(h: DigestFunction, t: Tables, cmd: CreateCommand, env: Env)
    requires env == Env(true, true, 1, 2, 3, true) && cmd == CreateCommand(7, 8, SysPrompt, SysPromptBody(TWO_BOMS))
    requires t == EMPTY.(projects := map[7 := 3]) && Consistent(h, t)
    ensures CreateOn(h, t, cmd, env).1.Ok? && KeyOf(CreateOn(h, t, cmd, env).1.value.revision) == Key(7, 8)
    ensures CreateOn(h, t, cmd, env).1.value.revision.revision == 1
  {
    TwoBomsNormalizeToOne();
    assert ValidBody(NormalizeBody(cmd.body));
    CreateRefines(h, t, cmd, env);
  }

  /** A read past the current revision says exactly that. */
  lemma ReadPastCurrent(h: DigestFunction, run: seq<Command>, n: nat, key: Key, number: int, env: Env)
    requires n <= |run| && env.beginOk
    requires key in After(h, run, n).aggregates && After(h, run, n).aggregates[key].current <= MAX_SAFE_INTEGER
    requires number > After(h, run, n).aggregates[key].current
    ensures ReadExact(h, After(h, run, n), key, number, env) == Err(RevisionNotFound)
  {
    var t := After(h, run, n);
    RunsAreConsistent(h, run, n);
    assert AggregateOk(t, key);
    ReadExactRefines(h, t, key, number, env);
    assert Logs(t).logs[key] == LogAt(t, key);
  }

  /** Over any run, each base revision of a brick is consumed by at most one successful revise. */
  lemma EachBaseIsConsumedOnce(h: DigestFunction, run: seq<Command>, m: nat, n: nat)
    requires m < n < |run| && run[m].ReviseBrick? && run[n].ReviseBrick?
    requires Succeeded(h, run, m) && Succeeded(h, run, n)
    requires Key(run[m].revise.project, run[m].revise.brick) == Key(run[n].revise.project, run[n].revise.brick)
    ensures run[m].revise.base < run[n].revise.base
  {
    RunsAreConsistent(h, run, m);
    RunsAreConsistent(h, run, n);
    WrittenIsLogged(h, run, m, n);
    ReviseRefines(h, After(h, run, m), run[m].revise, run[m].env);
    ReviseExtends(h, Logs(After(h, run, m)), run[m].revise, run[m].env);
    ReviseRefines(h, After(h, run, n), run[n].revise, run[n].env);
    ReviseExtends(h, Logs(After(h, run, n)), run[n].revise, run[n].env);
  }
}
