/** The Definition Brick store as a map of append-only logs, and what every run of it keeps. */
module ProjectLogs {
  import opened Utf16Text
  import opened BrickBodies
  import opened ProjectTables
  import opened ProjectService

  datatype Entry = Entry(revisionUid: Uid, body: Body, digest: Digest, createdAt: Timestamp)

  datatype Log = Log(brickUid: Uid, kind: BrickKind, status: Status, createdAt: Timestamp, entries: seq<Entry>)

  /** Revision n of a brick is entry n - 1 of its log; the current revision is the log's length. */
  datatype LogStore = LogStore(projects: map<ProjectId, Timestamp>, logs: map<Key, Log>)

  // ---------------------------------------------------------------- the simple form of each command

  function SummaryOf(key: Key, log: Log): Summary {
    Summary(log.brickUid, key.project, key.brick, log.kind, |log.entries|, log.status, log.createdAt)
  }

  function RevisionOf(key: Key, log: Log, i: nat): Revision
    requires i < |log.entries|
  {
    var e := log.entries[i];
    Revision(e.revisionUid, key.project, key.brick, log.kind, i + 1, e.body, e.digest, e.createdAt)
  }

  /** The revisions a log stands for, in order. */
  function Revisions(key: Key, log: Log): seq<Revision> {
    seq(|log.entries|, i requires 0 <= i < |log.entries| => RevisionOf(key, log, i))
  }

  predicate LogBrickUidTaken(s: LogStore, uid: Uid) {
    exists k | k in s.logs :: s.logs[k].brickUid == uid
  }

  predicate LogRevisionUidTaken(s: LogStore, uid: Uid) {
    exists k | k in s.logs :: exists i | 0 <= i < |s.logs[k].entries| :: s.logs[k].entries[i].revisionUid == uid
  }

  predicate Acceptable(kind: BrickKind, body: Body) {
    KindAccepts(kind, body) && ValidBody(body)
  }

  function NewEntry(h: DigestFunction, kind: BrickKind, body: Body, env: Env): Entry {
    var normal := NormalizeBody(body);
    Entry(env.revisionUid, normal, ComputeDigest(h, kind, normal), env.now)
  }

  function LogCreate(h: DigestFunction, s: LogStore, cmd: CreateCommand, env: Env): (LogStore, Result<Written>) {
    var key := Key(cmd.project, cmd.brick);
    if !Acceptable(cmd.kind, cmd.body) then (s, Err(InvalidCandidate))
    else if !env.beginOk then (s, Err(PersistenceFailure))
    else if cmd.project !in s.projects then (s, Err(ProjectNotFound))
    else if !env.wellFormed || !ValidBody(NormalizeBody(cmd.body)) then (s, Err(PersistenceFailure))
    else if key in s.logs then (s, Err(BrickAlreadyExists))
    else if LogBrickUidTaken(s, env.brickUid) || LogRevisionUidTaken(s, env.revisionUid) || !env.commitOk
    then (s, Err(PersistenceFailure))
    else
      var log := Log(env.brickUid, cmd.kind, Active, env.now, [NewEntry(h, cmd.kind, cmd.body, env)]);
      (s.(logs := s.logs[key := log]), Ok(Written(SummaryOf(key, log), RevisionOf(key, log, 0))))
  }

  function LogRevise(h: DigestFunction, s: LogStore, cmd: ReviseCommand, env: Env): (LogStore, Result<Written>) {
    var key := Key(cmd.project, cmd.brick);
    if !Acceptable(cmd.kind, cmd.body) then (s, Err(InvalidCandidate))
    else if !env.beginOk then (s, Err(PersistenceFailure))
    else if cmd.project !in s.projects then (s, Err(ProjectNotFound))
    else if key !in s.logs then (s, Err(BrickNotFound))
    else
      var log := s.logs[key];
      if |log.entries| > MAX_SAFE_INTEGER then (s, Err(IntegrityError))
      else if log.kind != cmd.kind then (s, Err(InvalidCandidate))
      else if log.status == Archived then (s, Err(BrickArchived))
      else if |log.entries| != cmd.base then (s, Err(RevisionConflict))
      else if !env.wellFormed || !ValidBody(NormalizeBody(cmd.body)) || LogRevisionUidTaken(s, env.revisionUid) || !env.commitOk
      then (s, Err(PersistenceFailure))
      else
        var longer := log.(entries := log.entries + [NewEntry(h, cmd.kind, cmd.body, env)]);
        (s.(logs := s.logs[key := longer]), Ok(Written(SummaryOf(key, longer), RevisionOf(key, longer, cmd.base))))
  }

  function LogArchive(s: LogStore, key: Key, env: Env): (LogStore, Result<Summary>) {
    if !env.beginOk then (s, Err(PersistenceFailure))
    else if key.project !in s.projects then (s, Err(ProjectNotFound))
    else if key !in s.logs then (s, Err(BrickNotFound))
    else
      var archived := s.logs[key].(status := Archived);
      if |archived.entries| > MAX_SAFE_INTEGER then (s, Err(IntegrityError))
      else if !env.commitOk then (s, Err(PersistenceFailure))
      else (s.(logs := s.logs[key := archived]), Ok(SummaryOf(key, archived)))
  }

  predicate NoLeafStartsWithBom(body: Body) {
    AllLeaves(body, NotLedByBom)
  }

  /** A read looks the revision up. Integrity fails exactly on a body that would normalize again, and
      on a log longer than a safe integer can count. */
  function LogReadExact(s: LogStore, key: Key, number: int, env: Env): Result<Written>
    requires number >= 1
  {
    if !env.beginOk then Err(PersistenceFailure)
    else if key.project !in s.projects then Err(ProjectNotFound)
    else if key !in s.logs then Err(BrickNotFound)
    else
      var log := s.logs[key];
      if |log.entries| > MAX_SAFE_INTEGER then Err(IntegrityError)
      else if number > |log.entries| then Err(RevisionNotFound)
      else if !NoLeafStartsWithBom(log.entries[number - 1].body) then Err(IntegrityError)
      else if !env.commitOk then Err(PersistenceFailure)
      else Ok(Written(SummaryOf(key, log), RevisionOf(key, log, number - 1)))
  }

  predicate AllReadable(log: Log) {
    forall i | 0 <= i < |log.entries| :: NoLeafStartsWithBom(log.entries[i].body)
  }

  function LogHistory(s: LogStore, key: Key, env: Env): Result<History> {
    if !env.beginOk then Err(PersistenceFailure)
    else if key.project !in s.projects then Err(ProjectNotFound)
    else if key !in s.logs then Err(BrickNotFound)
    else
      var log := s.logs[key];
      if |log.entries| > MAX_SAFE_INTEGER || !AllReadable(log) then Err(IntegrityError)
      else if !env.commitOk then Err(PersistenceFailure)
      else Ok(History(SummaryOf(key, log), Revisions(key, log)))
  }

  // ---------------------------------------------------------------- tables as logs

  function EntryOf(row: Row): Entry {
    Entry(row.revision.revisionUid, row.revision.body, row.revision.digest, row.revision.createdAt)
  }

  function EntriesOf(rows: seq<Row>): (r: seq<Entry>)
    ensures |r| == |rows|
  {
    if rows == [] then [] else EntriesOf(rows[..|rows| - 1]) + [EntryOf(rows[|rows| - 1])]
  }

  lemma {:induction false} EntriesOfEach(rows: seq<Row>)
    ensures forall i | 0 <= i < |rows| :: EntriesOf(rows)[i] == EntryOf(rows[i])
  {
    if rows != [] {
      EntriesOfEach(rows[..|rows| - 1]);
    }
  }

  function LogAt(t: Tables, key: Key): Log
    requires key in t.aggregates
  {
    var a := t.aggregates[key];
    Log(a.brickUid, a.kind, a.status, a.createdAt, EntriesOf(RowsOf(t.revisions, key)))
  }

  function Logs(t: Tables): LogStore {
    LogStore(t.projects, map key | key in t.aggregates :: LogAt(t, key))
  }

  // ---------------------------------------------------------------- the invariant of the tables

  ghost predicate AggregateOk(t: Tables, key: Key)
    requires key in t.aggregates
  {
    var a := t.aggregates[key];
    var rows := RowsOf(t.revisions, key);
    && Key(a.project, a.brick) == key
    && key.project in t.projects
    && |rows| == a.current >= 1
    && (forall i | 0 <= i < |rows| :: rows[i].revision.revision == i + 1)
  }

  /** The foreign key of a row holds. */
  ghost predicate RowLinked(t: Tables, row: Row) {
    var key := KeyOf(row.revision);
    && key in t.aggregates
    && t.aggregates[key].brickUid == row.brickUid
    && t.aggregates[key].kind == row.revision.kind
  }

  ghost predicate RowSound(h: DigestFunction, row: Row) {
    var r := row.revision;
    && KindAccepts(r.kind, r.body) && ValidBody(r.body)
    && AllLeaves(r.body, CrFree)
    && r.digest == ComputeDigest(h, r.kind, r.body)
  }

  ghost predicate AggregatesOk(t: Tables) {
    forall key | key in t.aggregates :: AggregateOk(t, key)
  }

  ghost predicate BrickUidsDistinct(t: Tables) {
    forall k1, k2 | k1 in t.aggregates && k2 in t.aggregates :: t.aggregates[k1].brickUid == t.aggregates[k2].brickUid ==> k1 == k2
  }

  ghost predicate RowsLinked(t: Tables) {
    forall row | row in t.revisions :: RowLinked(t, row)
  }

  ghost predicate RowsSound(h: DigestFunction, t: Tables) {
    forall row | row in t.revisions :: RowSound(h, row)
  }

  ghost predicate Consistent(h: DigestFunction, t: Tables) {
    AggregatesOk(t) && BrickUidsDistinct(t) && RowsLinked(t) && RowsSound(h, t)
  }

  lemma RowsOfSnoc(rows: seq<Row>, row: Row, key: Key)
    ensures RowsOf(rows + [row], key) == RowsOf(rows, key) + (if KeyOf(row.revision) == key then [row] else [])
  {
    assert (rows + [row])[..|rows|] == rows;
  }

  lemma {:induction false} RowsOfSelects(rows: seq<Row>, key: Key)
    ensures forall row :: row in RowsOf(rows, key) <==> row in rows && KeyOf(row.revision) == key
  {
    if rows != [] {
      var front, last := rows[..|rows| - 1], rows[|rows| - 1];
      RowsOfSelects(front, key);
      assert rows == front + [last];
    }
  }

  lemma BrickUidTakenAgrees(t: Tables, uid: Uid)
    ensures LogBrickUidTaken(Logs(t), uid) <==> BrickUidTaken(t, uid)
  {
    forall k | k in t.aggregates ensures Logs(t).logs[k].brickUid == t.aggregates[k].brickUid {}
  }

  lemma LoggedUidIsARow(t: Tables, key: Key, uid: Uid)
    requires key in t.aggregates
    ensures (exists i | 0 <= i < |LogAt(t, key).entries| :: LogAt(t, key).entries[i].revisionUid == uid)
            <==> (exists row | row in RowsOf(t.revisions, key) :: row.revision.revisionUid == uid)
  {
    var rows := RowsOf(t.revisions, key);
    EntriesOfEach(rows);
    if i :| 0 <= i < |rows| && EntriesOf(rows)[i].revisionUid == uid {
      assert rows[i] in rows;
    }
    if row :| row in rows && row.revision.revisionUid == uid {
      var i :| 0 <= i < |rows| && rows[i] == row;
      assert LogAt(t, key).entries[i].revisionUid == uid;
    }
  }

  lemma RevisionUidTakenAgrees(t: Tables, uid: Uid)
    requires RowsLinked(t)
    ensures LogRevisionUidTaken(Logs(t), uid) <==> RevisionUidTaken(t, uid)
  {
    if LogRevisionUidTaken(Logs(t), uid) {
      var k :| k in Logs(t).logs && exists i | 0 <= i < |Logs(t).logs[k].entries| :: Logs(t).logs[k].entries[i].revisionUid == uid;
      LoggedUidIsARow(t, k, uid);
      RowsOfSelects(t.revisions, k);
    }
    if RevisionUidTaken(t, uid) {
      var j :| 0 <= j < |t.revisions| && t.revisions[j].revision.revisionUid == uid;
      var row := t.revisions[j];
      assert RowLinked(t, row);
      RowsOfSelects(t.revisions, KeyOf(row.revision));
      LoggedUidIsARow(t, KeyOf(row.revision), uid);
      assert Logs(t).logs[KeyOf(row.revision)] == LogAt(t, KeyOf(row.revision));
    }
  }

  // ---------------------------------------------------------------- writes refine

  /** Looking a brick up in the tables and in the logs agree. */
  lemma SummaryAgrees(h: DigestFunction, t: Tables, key: Key)
    requires Consistent(h, t) && key in t.aggregates
    ensures |LogAt(t, key).entries| == t.aggregates[key].current
    ensures SummaryOf(key, LogAt(t, key)) == t.aggregates[key]
    ensures RequireSummary(t, key)
            == if t.aggregates[key].current > MAX_SAFE_INTEGER then Err(IntegrityError) else Ok(t.aggregates[key])
  {
    assert AggregateOk(t, key);
  }

  /** A normalized body is CR-free in every leaf. */
  lemma NormalizedBodyIsCrFree(body: Body)
    ensures AllLeaves(NormalizeBody(body), CrFree)
  {
    NormalizedLeaves(body);
    forall i | 0 <= i < |Leaves(body)| ensures CR !in Leaves(NormalizeBody(body))[i] {
      CanonicalTextShape(Leaves(body)[i]);
    }
  }

  /** `t'` adds `row` to `t` and counts it in the one aggregate of `key`, old or new. */
  ghost predicate Grown(t: Tables, t': Tables, key: Key, row: Row) {
    && t'.projects == t.projects && t'.revisions == t.revisions + [row]
    && key in t'.aggregates && t'.aggregates == t.aggregates[key := t'.aggregates[key]]
    && key == Key(t'.aggregates[key].project, t'.aggregates[key].brick) && key == KeyOf(row.revision) && key.project in t.projects
    && (key in t.aggregates ==> t'.aggregates[key] == t.aggregates[key].(current := t.aggregates[key].current + 1))
    && (key !in t.aggregates ==> t'.aggregates[key].current == 1 && !BrickUidTaken(t, t'.aggregates[key].brickUid))
    && row.revision.revision == t'.aggregates[key].current
    && RowLinked(t', row)
  }

  lemma RowsOfGrown(t: Tables, t': Tables, key: Key, row: Row)
    requires RowsLinked(t) && Grown(t, t', key, row)
    ensures forall k | k != key :: RowsOf(t'.revisions, k) == RowsOf(t.revisions, k)
    ensures RowsOf(t'.revisions, key) == RowsOf(t.revisions, key) + [row]
    ensures key !in t.aggregates ==> RowsOf(t.revisions, key) == []
  {
    RowsOfSnoc(t.revisions, row, key);
    forall k | k != key ensures RowsOf(t'.revisions, k) == RowsOf(t.revisions, k) {
      RowsOfSnoc(t.revisions, row, k);
    }
    RowsOfSelects(t.revisions, key);
    assert RowsOf(t.revisions, key) != [] ==> RowsOf(t.revisions, key)[0] in t.revisions;
  }

  lemma GrownAggregatesOk(t: Tables, t': Tables, key: Key, row: Row)
    requires AggregatesOk(t) && RowsLinked(t) && Grown(t, t', key, row)
    ensures AggregatesOk(t')
  {
    RowsOfGrown(t, t', key, row);
    forall k | k in t'.aggregates ensures AggregateOk(t', k) {
      if k in t.aggregates { assert AggregateOk(t, k); }
    }
  }

  lemma GrownRowsLinked(t: Tables, t': Tables, key: Key, row: Row)
    requires RowsLinked(t) && Grown(t, t', key, row)
    ensures RowsLinked(t')
  {
    forall x | x in t'.revisions ensures RowLinked(t', x) {
      if x != row { assert x in t.revisions; }
    }
  }

  lemma GrownStaysConsistent(h: DigestFunction, t: Tables, t': Tables, key: Key, row: Row)
    requires Consistent(h, t) && Grown(t, t', key, row) && RowSound(h, row)
    ensures Consistent(h, t')
  {
    GrownAggregatesOk(t, t', key, row);
    GrownRowsLinked(t, t', key, row);
    assert BrickUidsDistinct(t');
  }

  lemma GrownExtendsOneLog(t: Tables, t': Tables, key: Key, row: Row)
    requires RowsLinked(t) && Grown(t, t', key, row)
    ensures Logs(t') == Logs(t).(logs := Logs(t).logs[key := LogAt(t', key)])
    ensures LogAt(t', key).entries == (if key in t.aggregates then LogAt(t, key).entries else []) + [EntryOf(row)]
  {
    RowsOfGrown(t, t', key, row);
    forall k | k in t.aggregates && k != key ensures LogAt(t', k) == LogAt(t, k) {}
    OtherLogsUnchanged(t, t', key);
    var before := RowsOf(t.revisions, key);
    assert (before + [row])[..|before|] == before;
  }

  lemma OtherLogsUnchanged(t: Tables, t': Tables, key: Key)
    requires t'.projects == t.projects && t'.aggregates.Keys == t.aggregates.Keys + {key}
    requires forall k | k in t.aggregates && k != key :: LogAt(t', k) == LogAt(t, k)
    ensures Logs(t') == Logs(t).(logs := Logs(t).logs[key := LogAt(t', key)])
  {
    var logs, logs' := Logs(t).logs[key := LogAt(t', key)], Logs(t').logs;
    assert logs'.Keys == logs.Keys;
    forall k | k in logs' ensures logs'[k] == logs[k] {}
    assert logs' == logs;
  }

  function NewRow(h: DigestFunction, cmd: CreateCommand, env: Env): Row {
    var body := NormalizeBody(cmd.body);
    Row(env.brickUid, Revision(env.revisionUid, cmd.project, cmd.brick, cmd.kind, 1, body, ComputeDigest(h, cmd.kind, body), env.now))
  }

  lemma NewRowInsertable(h: DigestFunction, t: Tables, cmd: CreateCommand, env: Env)
    requires Consistent(h, t) && !BrickUidTaken(t, env.brickUid) && Key(cmd.project, cmd.brick) !in t.aggregates
    ensures var brick := Summary(env.brickUid, cmd.project, cmd.brick, cmd.kind, 1, Active, env.now);
            RevisionInsertable(t.(aggregates := t.aggregates[Key(cmd.project, cmd.brick) := brick]), NewRow(h, cmd, env))
            <==> !RevisionUidTaken(t, env.revisionUid)
  {
    forall i | 0 <= i < |t.revisions| ensures t.revisions[i].brickUid != env.brickUid {
      assert RowLinked(t, t.revisions[i]);
    }
  }

  /** The tables and the log give a create the same answer. */
  lemma CreateAnswersAgree(h: DigestFunction, t: Tables, cmd: CreateCommand, env: Env)
    requires Consistent(h, t)
    ensures CreateOn(h, t, cmd, env).1 == LogCreate(h, Logs(t), cmd, env).1
  {
    BrickUidTakenAgrees(t, env.brickUid);
    RevisionUidTakenAgrees(t, env.revisionUid);
    if !BrickUidTaken(t, env.brickUid) && Key(cmd.project, cmd.brick) !in t.aggregates {
      NewRowInsertable(h, t, cmd, env);
    }
  }

  /** An error leaves the tables alone; a success adds one row and one aggregate. */
  lemma CreateChange(h: DigestFunction, t: Tables, cmd: CreateCommand, env: Env)
    ensures CreateOn(h, t, cmd, env).1.Err? ==> CreateOn(h, t, cmd, env).0 == t
    ensures CreateOn(h, t, cmd, env).1.Ok? ==>
              Grown(t, CreateOn(h, t, cmd, env).0, Key(cmd.project, cmd.brick), NewRow(h, cmd, env))
              && CreateOn(h, t, cmd, env).0.aggregates[Key(cmd.project, cmd.brick)] == CreateOn(h, t, cmd, env).1.value.brick
  {}

  lemma CreateRefines(h: DigestFunction, t: Tables, cmd: CreateCommand, env: Env)
    requires Consistent(h, t)
    ensures Consistent(h, CreateOn(h, t, cmd, env).0)
    ensures LogCreate(h, Logs(t), cmd, env) == (Logs(CreateOn(h, t, cmd, env).0), CreateOn(h, t, cmd, env).1)
  {
    var (t', r) := CreateOn(h, t, cmd, env);
    CreateAnswersAgree(h, t, cmd, env);
    CreateChange(h, t, cmd, env);
    if r.Ok? {
      var key, row := Key(cmd.project, cmd.brick), NewRow(h, cmd, env);
      NormalizedBodyIsCrFree(cmd.body);
      GrownStaysConsistent(h, t, t', key, row);
      GrownExtendsOneLog(t, t', key, row);
      assert LogAt(t', key).entries == [NewEntry(h, cmd.kind, cmd.body, env)];
    }
  }

  function NextRow(h: DigestFunction, t: Tables, cmd: ReviseCommand, env: Env): Row
    requires Key(cmd.project, cmd.brick) in t.aggregates
  {
    var body := NormalizeBody(cmd.body);
    Row(t.aggregates[Key(cmd.project, cmd.brick)].brickUid,
        Revision(env.revisionUid, cmd.project, cmd.brick, cmd.kind, cmd.base + 1, body, ComputeDigest(h, cmd.kind, body), env.now))
  }

  lemma NextRowInsertable(h: DigestFunction, t: Tables, cmd: ReviseCommand, env: Env)
    requires Consistent(h, t) && Key(cmd.project, cmd.brick) in t.aggregates
    requires var a := t.aggregates[Key(cmd.project, cmd.brick)]; a.current == cmd.base && a.kind == cmd.kind
    ensures var key := Key(cmd.project, cmd.brick);
            RevisionInsertable(t.(aggregates := t.aggregates[key := t.aggregates[key].(current := cmd.base + 1)]), NextRow(h, t, cmd, env))
            <==> !RevisionUidTaken(t, env.revisionUid)
  {
    var key := Key(cmd.project, cmd.brick);
    RowsOfSelects(t.revisions, key);
    assert AggregateOk(t, key);
    forall i | 0 <= i < |t.revisions| && t.revisions[i].brickUid == t.aggregates[key].brickUid
      ensures t.revisions[i].revision.revision != cmd.base + 1
    {
      assert RowLinked(t, t.revisions[i]);
      assert t.revisions[i] in RowsOf(t.revisions, key);
    }
  }

  /** What the work inside a revise transaction answers for an existing brick. */
  lemma ReviseWorkAnswers(h: DigestFunction, t: Tables, cmd: ReviseCommand, env: Env)
    requires Consistent(h, t) && Key(cmd.project, cmd.brick) in t.aggregates
    requires t.aggregates[Key(cmd.project, cmd.brick)].current <= MAX_SAFE_INTEGER
    ensures var a := t.aggregates[Key(cmd.project, cmd.brick)];
            var body := NormalizeBody(cmd.body);
            ReviseWork(t, cmd, body, ComputeDigest(h, cmd.kind, body), env).1
            == if a.kind != cmd.kind then Err(InvalidCandidate)
               else if a.status == Archived then Err(BrickArchived)
               else if a.current != cmd.base then Err(RevisionConflict)
               else if !env.wellFormed || !ValidBody(body) || RevisionUidTaken(t, env.revisionUid) then Err(PersistenceFailure)
               else Ok(Written(a.(current := cmd.base + 1), NextRow(h, t, cmd, env).revision))
  {
    var key := Key(cmd.project, cmd.brick);
    SummaryAgrees(h, t, key);
    assert AggregateOk(t, key);
    if t.aggregates[key].current == cmd.base && t.aggregates[key].kind == cmd.kind {
      NextRowInsertable(h, t, cmd, env);
    }
  }

  lemma ReviseAnswersAgree(h: DigestFunction, t: Tables, cmd: ReviseCommand, env: Env)
    requires Consistent(h, t)
    ensures ReviseOn(h, t, cmd, env).1 == LogRevise(h, Logs(t), cmd, env).1
  {
    RevisionUidTakenAgrees(t, env.revisionUid);
    var key := Key(cmd.project, cmd.brick);
    if key in t.aggregates {
      SummaryAgrees(h, t, key);
      assert AggregateOk(t, key);
      assert Logs(t).logs[key] == LogAt(t, key);
      if t.aggregates[key].current <= MAX_SAFE_INTEGER { ReviseWorkAnswers(h, t, cmd, env); }
    }
  }

  lemma ReviseChange(h: DigestFunction, t: Tables, cmd: ReviseCommand, env: Env)
    requires AggregatesOk(t)
    ensures ReviseOn(h, t, cmd, env).1.Err? ==> ReviseOn(h, t, cmd, env).0 == t
    ensures ReviseOn(h, t, cmd, env).1.Ok? ==>
              Key(cmd.project, cmd.brick) in t.aggregates
              && Grown(t, ReviseOn(h, t, cmd, env).0, Key(cmd.project, cmd.brick), NextRow(h, t, cmd, env))
  {
    if Key(cmd.project, cmd.brick) in t.aggregates {
      assert AggregateOk(t, Key(cmd.project, cmd.brick));
    }
  }

  lemma ReviseRefines(h: DigestFunction, t: Tables, cmd: ReviseCommand, env: Env)
    requires Consistent(h, t)
    ensures Consistent(h, ReviseOn(h, t, cmd, env).0)
    ensures LogRevise(h, Logs(t), cmd, env) == (Logs(ReviseOn(h, t, cmd, env).0), ReviseOn(h, t, cmd, env).1)
  {
    var (t', r) := ReviseOn(h, t, cmd, env);
    ReviseAnswersAgree(h, t, cmd, env);
    ReviseChange(h, t, cmd, env);
    if r.Ok? {
      var key, row := Key(cmd.project, cmd.brick), NextRow(h, t, cmd, env);
      NormalizedBodyIsCrFree(cmd.body);
      GrownStaysConsistent(h, t, t', key, row);
      GrownExtendsOneLog(t, t', key, row);
      assert EntryOf(row) == NewEntry(h, cmd.kind, cmd.body, env);
    }
  }

  lemma ArchiveRefines(h: DigestFunction, t: Tables, key: Key, env: Env)
    requires Consistent(h, t)
    ensures Consistent(h, ArchiveOn(t, key, env).0)
    ensures LogArchive(Logs(t), key, env) == (Logs(ArchiveOn(t, key, env).0), ArchiveOn(t, key, env).1)
  {
    var (t', r) := ArchiveOn(t, key, env);
    if key in t.aggregates {
      assert AggregateOk(t, key);
      if r.Ok? {
        var archived := t.aggregates[key].(status := Archived);
        assert t' == t.(aggregates := t.aggregates[key := archived]);
        ArchivedStaysConsistent(h, t, t', key);
        OtherLogsUnchanged(t, t', key);
      }
    }
  }

  lemma ArchivedStaysConsistent(h: DigestFunction, t: Tables, t': Tables, key: Key)
    requires Consistent(h, t) && key in t.aggregates
    requires t' == t.(aggregates := t.aggregates[key := t.aggregates[key].(status := Archived)])
    ensures Consistent(h, t')
  {
    assert AggregatesOk(t') by {
      forall k | k in t'.aggregates ensures AggregateOk(t', k) { assert AggregateOk(t, k); }
    }
    assert RowsLinked(t') by {
      forall row | row in t'.revisions ensures RowLinked(t', row) { assert RowLinked(t, row); }
    }
  }
}
