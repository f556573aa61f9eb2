/** The Project module's SQLite tables, their constraints, and the repository operations on them. */
module ProjectTables {
  import opened Options
  import opened BrickBodies

  // Identifiers, timestamps and digests are only ever compared for equality here.
  type ProjectId = int
  type BrickId = int
  type Uid = int
  type Timestamp = int
  type Digest = int

  const MAX_SAFE_INTEGER: int := 0x1F_FFFF_FFFF_FFFF

  datatype Status = Active | Archived

  /** A row of `definition_brick_aggregates`. */
  datatype Summary = Summary(
    brickUid: Uid, project: ProjectId, brick: BrickId, kind: BrickKind,
    current: int, status: Status, createdAt: Timestamp)

  datatype Revision = Revision(
    revisionUid: Uid, project: ProjectId, brick: BrickId, kind: BrickKind,
    revision: int, body: Body, digest: Digest, createdAt: Timestamp)

  /** A row of `definition_brick_revisions`: the record and the uid of its aggregate. */
  datatype Row = Row(brickUid: Uid, revision: Revision)

  datatype Key = Key(project: ProjectId, brick: BrickId)

  /** Aggregates are indexed by their unique (project, brick) pair; revisions are kept in row order. */
  datatype Tables = Tables(projects: map<ProjectId, Timestamp>, aggregates: map<Key, Summary>, revisions: seq<Row>)

  const EMPTY := Tables(map[], map[], [])

  function KeyOf(r: Revision): Key {
    Key(r.project, r.brick)
  }

  // ---------------------------------------------------------------- constrained statements

  predicate BrickUidTaken(t: Tables, uid: Uid) {
    exists k | k in t.aggregates :: t.aggregates[k].brickUid == uid
  }

  predicate RevisionUidTaken(t: Tables, uid: Uid) {
    exists i | 0 <= i < |t.revisions| :: t.revisions[i].revision.revisionUid == uid
  }

  predicate AggregateInsertable(t: Tables, s: Summary) {
    && !BrickUidTaken(t, s.brickUid)              // PRIMARY KEY
    && Key(s.project, s.brick) !in t.aggregates      // UNIQUE(project_id, brick_id)
    && s.project in t.projects                    // FOREIGN KEY
    && s.current >= 1                             // CHECK
  }

  predicate RevisionInsertable(t: Tables, row: Row) {
    var r := row.revision;
    && !RevisionUidTaken(t, r.revisionUid)        // PRIMARY KEY
    && KeyOf(r) in t.aggregates                   // FOREIGN KEY to the whole aggregate identity
    && t.aggregates[KeyOf(r)].brickUid == row.brickUid
    && t.aggregates[KeyOf(r)].kind == r.kind
    && r.revision >= 1                            // CHECK
    && (forall i | 0 <= i < |t.revisions| ::      // UNIQUE(brick_uid, revision)
          t.revisions[i].brickUid != row.brickUid || t.revisions[i].revision.revision != r.revision)
  }

  function RowsOf(rows: seq<Row>, key: Key): seq<Row> {
    if rows == [] then []
    else
      var last := rows[|rows| - 1];
      RowsOf(rows[..|rows| - 1], key) + (if KeyOf(last.revision) == key then [last] else [])
  }

  // ---------------------------------------------------------------- row decoding

  datatype Lookup<+T> = Missing | Malformed | Found(value: T)

  function SummaryFromRow(s: Summary): Lookup<Summary> {
    if 1 <= s.current <= MAX_SAFE_INTEGER then Found(s) else Malformed
  }

  function RevisionFromRow(row: Row, expectedBrickUid: Uid): Lookup<Revision> {
    if row.brickUid == expectedBrickUid && 1 <= row.revision.revision <= MAX_SAFE_INTEGER
    then Found(row.revision) else Malformed
  }

  function FindSummary(t: Tables, key: Key): Lookup<Summary> {
    if key in t.aggregates then SummaryFromRow(t.aggregates[key]) else Missing
  }

  function FirstWithNumber(rows: seq<Row>, revision: int): Option<Row> {
    if rows == [] then None
    else if rows[0].revision.revision == revision then Some(rows[0])
    else FirstWithNumber(rows[1..], revision)
  }

  function FindRevision(t: Tables, key: Key, revision: int): Lookup<Revision> {
    match FirstWithNumber(RowsOf(t.revisions, key), revision)
    case None => Missing
    case Some(row) => if key in t.aggregates then RevisionFromRow(row, t.aggregates[key].brickUid) else Malformed
  }

  // ---------------------------------------------------------------- repository operations

  datatype Outcome<+T> = Returned(value: T) | Threw

  datatype CreateWrite = Created | AlreadyExists
  datatype AppendWrite = Appended | AppendNotFound | AppendArchived | KindMismatch | AppendConflict
  datatype ArchiveWrite = ArchiveDone | ArchiveNotFound | ArchiveConflict

  function CreateBrickIn(t: Tables, summary: Summary, revision: Revision): (Tables, Outcome<CreateWrite>) {
    var key := Key(summary.project, summary.brick);
    if key in t.aggregates then (t, Returned(AlreadyExists))
    else if !AggregateInsertable(t, summary) then (t, Threw)
    else
      var t1 := t.(aggregates := t.aggregates[key := summary]);
      var row := Row(summary.brickUid, revision);
      if !RevisionInsertable(t1, row) then (t1, Threw)
      else (t1.(revisions := t1.revisions + [row]), Returned(Created))
  }

  function AppendRevisionIn(t: Tables, revision: Revision, expected: int): (Tables, Outcome<AppendWrite>) {
    var key := KeyOf(revision);
    match FindSummary(t, key)
    case Missing => (t, Returned(AppendNotFound))
    case Malformed => (t, Returned(KindMismatch))       // an invalid row has no kind
    case Found(stored) =>
      if stored.kind != revision.kind then (t, Returned(KindMismatch))
      else if stored.status == Archived then (t, Returned(AppendArchived))
      else if stored.current != expected then (t, Returned(AppendConflict))
      else if revision.revision != expected + 1 then (t, Threw)
      else
        var t1 := t.(aggregates := t.aggregates[key := stored.(current := revision.revision)]);
        var row := Row(stored.brickUid, revision);
        if !RevisionInsertable(t1, row) then (t1, Threw)
        else (t1.(revisions := t1.revisions + [row]), Returned(Appended))
  }

  function ArchiveBrickIn(t: Tables, key: Key, expected: int): (Tables, Outcome<ArchiveWrite>) {
    match FindSummary(t, key)
    case Missing => (t, Returned(ArchiveNotFound))
    case Malformed => (t, Returned(ArchiveConflict))
    case Found(stored) =>
      if stored.current != expected then (t, Returned(ArchiveConflict))
      else (t.(aggregates := t.aggregates[key := stored.(status := Archived)]), Returned(ArchiveDone))
  }

  // ---------------------------------------------------------------- the database connection

  /** One open database: its tables and, inside a transaction, what a rollback restores. */
  class Database {
    var tables: Tables
    var saved: Option<Tables>

    constructor ()
      ensures tables == EMPTY && saved == None
    {
      tables := EMPTY;
      saved := None;
    }

    /** BEGIN IMMEDIATE. `granted` is false when the lock cannot be had. */
    method Begin(granted: bool) returns (ok: bool)
      requires saved == None
      modifies this
      ensures ok == granted && tables == old(tables)
      ensures saved == if granted then Some(old(tables)) else None
    {
      if granted { saved := Some(tables); }
      ok := granted;
    }

    method Commit(granted: bool) returns (ok: bool)
      requires saved.Some?
      modifies this
      ensures ok == granted && tables == old(tables)
      ensures saved == if granted then None else old(saved)
    {
      if granted { saved := None; }
      ok := granted;
    }

    /** ROLLBACK; its own failure outside a transaction is swallowed by the caller. */
    method Rollback()
      modifies this
      ensures saved == None
      ensures tables == if old(saved).Some? then old(saved).value else old(tables)
    {
      if saved.Some? { tables := saved.value; }
      saved := None;
    }

    method CreateBrick(summary: Summary, revision: Revision) returns (r: Outcome<CreateWrite>)
      modifies `tables
      ensures (tables, r) == CreateBrickIn(old(tables), summary, revision)
    {
      var key := Key(summary.project, summary.brick);
      if key in tables.aggregates { return Returned(AlreadyExists); }
      if !AggregateInsertable(tables, summary) { return Threw; }
      tables := tables.(aggregates := tables.aggregates[key := summary]);
      r := InsertRevisionRecord(revision, summary.brickUid, Created);
    }

    method InsertRevisionRecord<T>(revision: Revision, brickUid: Uid, done: T) returns (r: Outcome<T>)
      modifies `tables
      ensures RevisionInsertable(old(tables), Row(brickUid, revision)) ==>
                r == Returned(done) && tables == old(tables).(revisions := old(tables).revisions + [Row(brickUid, revision)])
      ensures !RevisionInsertable(old(tables), Row(brickUid, revision)) ==> r == Threw && tables == old(tables)
    {
      if !RevisionInsertable(tables, Row(brickUid, revision)) { return Threw; }
      tables := tables.(revisions := tables.revisions + [Row(brickUid, revision)]);
      return Returned(done);
    }

    method AppendRevision(revision: Revision, expected: int) returns (r: Outcome<AppendWrite>)
      modifies `tables
      ensures (tables, r) == AppendRevisionIn(old(tables), revision, expected)
    {
      var key := KeyOf(revision);
      var lookup := FindSummary(tables, key);
      if lookup.Missing? { return Returned(AppendNotFound); }
      if lookup.Malformed? || lookup.value.kind != revision.kind { return Returned(KindMismatch); }
      var stored := lookup.value;
      if stored.status == Archived { return Returned(AppendArchived); }
      if stored.current != expected { return Returned(AppendConflict); }
      if revision.revision != expected + 1 { return Threw; }
      var advanced := AdvanceAggregate(key, revision.kind, expected, revision.revision);
      if !advanced { return Returned(AppendConflict); }
      r := InsertRevisionRecord(revision, stored.brickUid, Appended);
    }

    /** UPDATE .. SET current_revision .. WHERE kind, active and the expected revision still match. */
    method AdvanceAggregate(key: Key, kind: BrickKind, expected: int, next: int) returns (changedOne: bool)
      modifies `tables
      ensures changedOne <==>
                && key in old(tables).aggregates && old(tables).aggregates[key].kind == kind
                && old(tables).aggregates[key].status == Active && old(tables).aggregates[key].current == expected
      ensures changedOne ==>
                tables == old(tables).(aggregates := old(tables).aggregates[key := old(tables).aggregates[key].(current := next)])
      ensures !changedOne ==> tables == old(tables)
    {
      changedOne := key in tables.aggregates && tables.aggregates[key].kind == kind
        && tables.aggregates[key].status == Active && tables.aggregates[key].current == expected;
      if changedOne {
        tables := tables.(aggregates := tables.aggregates[key := tables.aggregates[key].(current := next)]);
      }
    }

    method ArchiveBrick(key: Key, expected: int) returns (r: Outcome<ArchiveWrite>)
      modifies `tables
      ensures (tables, r) == ArchiveBrickIn(old(tables), key, expected)
    {
      var lookup := FindSummary(tables, key);
      if lookup.Missing? { return Returned(ArchiveNotFound); }
      if lookup.Malformed? || lookup.value.current != expected { return Returned(ArchiveConflict); }
      tables := tables.(aggregates := tables.aggregates[key := lookup.value.(status := Archived)]);
      return Returned(ArchiveDone);
    }
  }
}
