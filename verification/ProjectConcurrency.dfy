/** Any number of handles on one database file, their mutexes, and the commands they run at the same
    time. The tables are shared and a transaction only remembers what a rollback restores: that no two
    transactions mix is owed to the mutexes alone. */
module ProjectConcurrency {
  import opened Options
  import opened ProjectTables
  import opened ProjectService
  import opened ProjectLogs
  import opened ProjectRuns
  import opened ProjectTransactions
  import M = DatabaseMutexes

  /** A turn on one of the mutexes. */
  datatype TurnId = TurnId(registration: nat, turn: nat)

  datatype Progress = Queued | BeginFailed | Working(stage: Stage) | Settled(answer: Answer)

  datatype Job = Job(command: Command, progress: Progress)

  /** The database file: its tables and, inside a transaction, what a rollback restores. */
  datatype File = File(tables: Tables, saved: Option<Tables>)

  /** A transaction that ended, by COMMIT, ROLLBACK or a failing BEGIN. */
  datatype Ending = Ending(id: TurnId, command: Command, answer: Answer)

  /** The file at `path`, every mutex and handle of the process, and the jobs on that file. */
  datatype System = System(path: M.Path, mutexes: M.State, file: File, jobs: map<TurnId, Job>, order: seq<Ending>)

  datatype Event =
    | Around(event: M.Event)                       // opening, closing, promises, work on other files
    | Submit(handle: nat, command: Command)        // `run` is called
    | Begin(id: TurnId)                            // its await resumes: BEGIN, unless the handle was closed
    | Continue(id: TurnId)                         // the work runs on to its next await
    | End(id: TurnId)                              // COMMIT or ROLLBACK, and the mutex is released

  function Booted(path: M.Path): System {
    System(path, M.INITIAL, File(EMPTY, None), map[], [])
  }

  // ---------------------------------------------------------------- steps

  predicate OnFile(s: System, r: nat) {
    r < |s.mutexes.registrations| && s.mutexes.registrations[r].path == s.path
  }

  /** A turn taken by `run` on a handle of this file. */
  predicate IsWork(s: System, id: TurnId) {
    M.IsTurn(s.mutexes, id.registration, id.turn) && OnFile(s, id.registration)
    && M.TurnAt(s.mutexes, id.registration, id.turn).purpose == M.Work
  }

  /** Mutex events other than work on this file. */
  predicate Elsewhere(s: System, e: M.Event) {
    match e
    case Call(h, purpose) => purpose == M.Work ==> h < |s.mutexes.handles| && !OnFile(s, s.mutexes.handles[h].registration)
    case Start(r, k) => !IsWork(s, TurnId(r, k))
    case Settle(r, k) => !IsWork(s, TurnId(r, k))
    case _ => true
  }

  predicate Enabled(s: System, e: Event) {
    match e
    case Around(me) => M.Enabled(s.mutexes, me) && Elsewhere(s, me)
    case Submit(h, c) => M.Enabled(s.mutexes, M.Call(h, M.Work)) && OnFile(s, s.mutexes.handles[h].registration) && !Refused(c)
    case Begin(id) => M.Enabled(s.mutexes, M.Start(id.registration, id.turn)) && IsWork(s, id) && id in s.jobs
    case Continue(id) =>
      id in s.jobs && !Refused(s.jobs[id].command) && s.jobs[id].progress.Working? && !s.jobs[id].progress.stage.Answered?
    case End(id) =>
      && M.Enabled(s.mutexes, M.Settle(id.registration, id.turn)) && IsWork(s, id) && id in s.jobs
      && (s.jobs[id].progress.BeginFailed? || (s.jobs[id].progress.Working? && s.jobs[id].progress.stage.Answered?))
  }

  function WithProgress(s: System, id: TurnId, progress: Progress): System
    requires id in s.jobs
  {
    s.(jobs := s.jobs[id := s.jobs[id].(progress := progress)])
  }

  /** The turn that the next call on a handle takes. */
  function NextTurn(s: System, handle: nat): TurnId
    requires M.Enabled(s.mutexes, M.Call(handle, M.Work))
  {
    var r := s.mutexes.handles[handle].registration;
    TurnId(r, |s.mutexes.registrations[r].mutex.turns|)
  }

  function SubmitStep(s: System, handle: nat, c: Command): System
    requires Enabled(s, Submit(handle, c))
  {
    s.(mutexes := M.Step(s.mutexes, M.Call(handle, M.Work)), jobs := s.jobs[NextTurn(s, handle) := Job(c, Queued)])
  }

  predicate HandleClosed(s: System, id: TurnId)
    requires M.IsTurn(s.mutexes, id.registration, id.turn)
    requires M.TurnAt(s.mutexes, id.registration, id.turn).handle < |s.mutexes.handles|
  {
    s.mutexes.handles[M.TurnAt(s.mutexes, id.registration, id.turn).handle].closed
  }

  /** Without a BEGIN nothing happens to the file; a BEGIN remembers the tables. */
  function BeginStep(s: System, id: TurnId): System
    requires Enabled(s, Begin(id))
  {
    var started := s.(mutexes := M.Step(s.mutexes, M.Start(id.registration, id.turn)));
    var c := s.jobs[id].command;
    if HandleClosed(s, id) then WithProgress(started, id, Settled(ErrorAnswer(c, PersistenceFailure)))
    else if !EnvOf(c).beginOk then WithProgress(started, id, BeginFailed)
    else WithProgress(started.(file := File(s.file.tables, Some(s.file.tables))), id, Working(Begun))
  }

  function ContinueStep(h: DigestFunction, s: System, id: TurnId): System
    requires Enabled(s, Continue(id))
  {
    var (t, stage) := Advance(h, s.file.tables, s.jobs[id].command, s.jobs[id].progress.stage);
    WithProgress(s.(file := s.file.(tables := t)), id, Working(stage))
  }

  function EndStep(s: System, id: TurnId): System
    requires Enabled(s, End(id))
  {
    var released := s.(mutexes := M.Step(s.mutexes, M.Settle(id.registration, id.turn)));
    var (file, answer) := EndedFile(s.file, s.jobs[id]);
    WithProgress(released.(file := file, order := s.order + [Ending(id, s.jobs[id].command, answer)]), id, Settled(answer))
  }

  function Step(h: DigestFunction, s: System, e: Event): System
    requires Enabled(s, e)
  {
    match e
    case Around(me) => s.(mutexes := M.Step(s.mutexes, me))
    case Submit(handle, c) => SubmitStep(s, handle, c)
    case Begin(id) => BeginStep(s, id)
    case Continue(id) => ContinueStep(h, s, id)
    case End(id) => EndStep(s, id)
  }

  /** COMMIT or ROLLBACK on the file, and what the caller is told. */
  function EndedFile(file: File, job: Job): (File, Answer)
    requires job.progress.BeginFailed? || (job.progress.Working? && job.progress.stage.Answered?)
  {
    if job.progress.BeginFailed? then (file, ErrorAnswer(job.command, PersistenceFailure))
    else
      var (t, answer) := Ended(if file.saved.Some? then file.saved.value else file.tables, file.tables, job.command, job.progress.stage.answer);
      (File(t, None), answer)
  }

  // ---------------------------------------------------------------- what every step keeps

  function Commands(order: seq<Ending>): (r: seq<Command>)
    ensures |r| == |order| && forall i | 0 <= i < |order| :: r[i] == order[i].command
  {
    seq(|order|, i requires 0 <= i < |order| => order[i].command)
  }

  /** The tables after the transactions that ended so far, one whole command at a time. */
  function Committed(h: DigestFunction, s: System): Tables {
    After(h, Commands(s.order), |s.order|)
  }

  predicate PhaseFits(phase: M.Phase, progress: Progress) {
    match phase
    case Waiting => progress.Queued?
    case InTransaction => progress.BeginFailed? || progress.Working?
    case Released => progress.Settled?
  }

  ghost predicate JobFits(s: System, id: TurnId)
    requires IsWork(s, id)
  {
    id in s.jobs && !Refused(s.jobs[id].command)
    && PhaseFits(M.TurnAt(s.mutexes, id.registration, id.turn).phase, s.jobs[id].progress)
  }

  /** The jobs are the turns of work on this file. */
  ghost predicate JobsOk(s: System) {
    && (forall id | IsWork(s, id) :: JobFits(s, id))
    && (forall id | id in s.jobs :: IsWork(s, id))
  }

  /** What ended is recorded once, with the answer of the command run alone in that order. */
  ghost predicate OrderOk(h: DigestFunction, s: System) {
    && (forall i | 0 <= i < |s.order| :: EndingOk(h, s, i))
    && (forall i, k | 0 <= i < k < |s.order| :: s.order[i].id != s.order[k].id)
    && (forall id | HasSucceeded(s, id) :: HasEnded(s, id))
  }

  ghost predicate EndingOk(h: DigestFunction, s: System, i: nat)
    requires i < |s.order|
  {
    && s.order[i].id in s.jobs && s.jobs[s.order[i].id] == Job(s.order[i].command, Settled(s.order[i].answer))
    && s.order[i].answer == AnswerTo(h, Commands(s.order), i)
  }

  predicate HasSucceeded(s: System, id: TurnId) {
    id in s.jobs && s.jobs[id].progress.Settled? && !Failed(s.jobs[id].progress.answer)
  }

  ghost predicate HasEnded(s: System, id: TurnId) {
    exists i | 0 <= i < |s.order| :: s.order[i].id == id
  }

  ghost predicate AtWork(s: System, id: TurnId) {
    id in s.jobs && (s.jobs[id].progress.BeginFailed? || s.jobs[id].progress.Working?)
  }

  /** The one transaction on the file, undisturbed since its BEGIN. */
  ghost predicate FileFits(h: DigestFunction, s: System, job: Job)
    requires !Refused(job.command)
  {
    match job.progress
    case BeginFailed => s.file == File(Committed(h, s), None) && !EnvOf(job.command).beginOk
    case Working(stage) =>
      && s.file.saved == Some(Committed(h, s)) && EnvOf(job.command).beginOk
      && StageOk(h, Committed(h, s), s.file.tables, job.command, stage)
    case _ => true
  }

  ghost predicate FileOk(h: DigestFunction, s: System) {
    && (forall id | AtWork(s, id) :: !Refused(s.jobs[id].command) && FileFits(h, s, s.jobs[id]))
    && ((forall id | id in s.jobs :: !AtWork(s, id)) ==> s.file == File(Committed(h, s), None))
  }

  ghost predicate Sound(h: DigestFunction, s: System) {
    M.Invariant(s.mutexes) && JobsOk(s) && OrderOk(h, s) && FileOk(h, s)
  }

  /** The mutexes let one job at a time work on the file. */
  lemma OneAtWork(s: System, a: TurnId, b: TurnId)
    requires M.Invariant(s.mutexes) && JobsOk(s) && AtWork(s, a) && AtWork(s, b)
    ensures a == b
  {
    assert IsWork(s, a) && JobFits(s, a) && IsWork(s, b) && JobFits(s, b);
    M.TransactionsOfAPathCoincide(s.mutexes, a.registration, a.turn, b.registration, b.turn);
  }

  /** A job about to begin finds the file at rest. */
  lemma NoneAtWorkBefore(s: System, id: TurnId)
    requires M.Invariant(s.mutexes) && JobsOk(s) && IsWork(s, id) && M.Enabled(s.mutexes, M.Start(id.registration, id.turn))
    requires !HandleClosed(s, id)
    ensures forall other | other in s.jobs :: !AtWork(s, other)
  {
    forall other | other in s.jobs ensures !AtWork(s, other) {
      assert IsWork(s, other) && JobFits(s, other);
      M.NoneTransactsBefore(s.mutexes, id.registration, id.turn, other.registration, other.turn);
    }
  }

  // ---------------------------------------------------------------- events elsewhere

  /** The work on this file is the same, turn by turn. */
  ghost predicate SameWork(s: System, s': System) {
    && s' == s.(mutexes := s'.mutexes)
    && (forall id :: IsWork(s', id) <==> IsWork(s, id))
    && (forall id | IsWork(s, id) ::
          M.TurnAt(s'.mutexes, id.registration, id.turn) == M.TurnAt(s.mutexes, id.registration, id.turn))
  }

  lemma SameWorkStaysSound(h: DigestFunction, s: System, s': System)
    requires Sound(h, s) && SameWork(s, s') && M.Invariant(s'.mutexes)
    ensures Sound(h, s')
  {
    forall id | IsWork(s', id) ensures JobFits(s', id) { assert JobFits(s, id); }
    forall i | 0 <= i < |s'.order| ensures EndingOk(h, s', i) { assert EndingOk(h, s, i); }
    forall id | HasSucceeded(s', id) ensures HasEnded(s', id) {
      assert HasSucceeded(s, id) && HasEnded(s, id);
    }
    forall id | AtWork(s', id) ensures !Refused(s'.jobs[id].command) && FileFits(h, s', s'.jobs[id]) { assert AtWork(s, id); }
    if forall id | id in s'.jobs :: !AtWork(s', id) {
      forall id | id in s.jobs ensures !AtWork(s, id) { assert !AtWork(s', id); }
    }
  }

  /** Mutexes that keep their paths, and keep their turns but for one that is no work on this file. */
  lemma OtherTurnsOnly(s: System, s': System, r: nat, k: nat)
    requires s' == s.(mutexes := s'.mutexes) && |s.mutexes.registrations| <= |s'.mutexes.registrations|
    requires forall i | 0 <= i < |s.mutexes.registrations| :: s'.mutexes.registrations[i].path == s.mutexes.registrations[i].path
    requires forall i | |s.mutexes.registrations| <= i < |s'.mutexes.registrations| :: s'.mutexes.registrations[i].mutex.turns == []
    requires forall id: TurnId | id != TurnId(r, k) ::
               && M.IsTurn(s'.mutexes, id.registration, id.turn) == M.IsTurn(s.mutexes, id.registration, id.turn)
               && (M.IsTurn(s.mutexes, id.registration, id.turn) ==>
                     M.TurnAt(s'.mutexes, id.registration, id.turn) == M.TurnAt(s.mutexes, id.registration, id.turn))
    requires !IsWork(s, TurnId(r, k)) && !IsWork(s', TurnId(r, k))
    ensures SameWork(s, s')
  {
    forall id ensures IsWork(s', id) <==> IsWork(s, id) {
      if id != TurnId(r, k) && M.IsTurn(s.mutexes, id.registration, id.turn) { assert OnFile(s', id.registration) == OnFile(s, id.registration); }
    }
  }

  lemma CallIsElsewhere(s: System, handle: nat, purpose: M.Purpose)
    requires M.Enabled(s.mutexes, M.Call(handle, purpose)) && Elsewhere(s, M.Call(handle, purpose))
    ensures SameWork(s, s.(mutexes := M.Step(s.mutexes, M.Call(handle, purpose))))
  {
    var r := s.mutexes.handles[handle].registration;
    OtherTurnsOnly(s, s.(mutexes := M.Step(s.mutexes, M.Call(handle, purpose))), r, |s.mutexes.registrations[r].mutex.turns|);
  }

  /** Opening, closing and resolving promises change no turn. */
  lemma NoTurnChanges(s: System, me: M.Event)
    requires M.Enabled(s.mutexes, me) && (me.Open? || me.OpenFails? || me.TailResolves? || me.CloseSettled?)
    ensures SameWork(s, s.(mutexes := M.Step(s.mutexes, me)))
  {
    var s' := s.(mutexes := M.Step(s.mutexes, me));
    OtherTurnsOnly(s, s', |s'.mutexes.registrations|, 0);
  }

  lemma AroundIsElsewhere(s: System, me: M.Event)
    requires M.Enabled(s.mutexes, me) && Elsewhere(s, me)
    ensures SameWork(s, s.(mutexes := M.Step(s.mutexes, me)))
  {
    match me
    case Call(handle, purpose) => CallIsElsewhere(s, handle, purpose);
    case Start(r, k) => OtherTurnsOnly(s, s.(mutexes := M.Step(s.mutexes, me)), r, k);
    case Settle(r, k) => OtherTurnsOnly(s, s.(mutexes := M.Step(s.mutexes, me)), r, k);
    case _ => NoTurnChanges(s, me);
  }

  lemma AroundKeeps(h: DigestFunction, s: System, me: M.Event)
    requires Sound(h, s) && Enabled(s, Around(me))
    ensures Sound(h, Step(h, s, Around(me)))
  {
    M.StepKeeps(s.mutexes, me);
    AroundIsElsewhere(s, me);
    SameWorkStaysSound(h, s, Step(h, s, Around(me)));
  }

  // ---------------------------------------------------------------- events of one job

  /** Only turn `id` of the work on this file changed, or is new. */
  ghost predicate OthersSame(s: System, s': System, id: TurnId) {
    forall other | other != id ::
      && (IsWork(s', other) <==> IsWork(s, other))
      && (IsWork(s, other) ==>
            M.TurnAt(s'.mutexes, other.registration, other.turn) == M.TurnAt(s.mutexes, other.registration, other.turn))
  }

  lemma JobsStayOk(s: System, s': System, id: TurnId, job: Job)
    requires JobsOk(s) && OthersSame(s, s', id) && s'.jobs == s.jobs[id := job] && IsWork(s', id)
    requires !Refused(job.command) && PhaseFits(M.TurnAt(s'.mutexes, id.registration, id.turn).phase, job.progress)
    ensures JobsOk(s')
  {
    forall other | IsWork(s', other) ensures JobFits(s', other) {
      if other != id { assert JobFits(s, other); }
    }
  }

  lemma OrderStays(h: DigestFunction, s: System, s': System, id: TurnId, job: Job)
    requires OrderOk(h, s) && s'.order == s.order && s'.jobs == s.jobs[id := job]
    requires id in s.jobs ==> !s.jobs[id].progress.Settled?
    requires job.progress.Settled? ==> Failed(job.progress.answer)
    ensures OrderOk(h, s')
  {
    forall i | 0 <= i < |s'.order| ensures EndingOk(h, s', i) { assert EndingOk(h, s, i); }
    forall other | HasSucceeded(s', other) ensures HasEnded(s', other) {
      assert HasSucceeded(s, other) && HasEnded(s, other);
    }
  }

  /** A job that is not at work and does not get to work leaves the file in order. */
  lemma FileStays(h: DigestFunction, s: System, s': System, id: TurnId, job: Job)
    requires FileOk(h, s) && s'.order == s.order && s'.file == s.file && s'.jobs == s.jobs[id := job]
    requires !AtWork(s, id) && !AtWork(s', id)
    ensures FileOk(h, s')
  {
    forall other | AtWork(s', other) ensures !Refused(s'.jobs[other].command) && FileFits(h, s', s'.jobs[other]) { assert AtWork(s, other); }
    if forall other | other in s'.jobs :: !AtWork(s', other) {
      forall other | other in s.jobs ensures !AtWork(s, other) {
        if other != id { assert other in s'.jobs && !AtWork(s', other); }
      }
    }
  }

  /** A job alone at work, whose file fits. */
  lemma FileOfOne(h: DigestFunction, s: System, id: TurnId)
    requires AtWork(s, id) && !Refused(s.jobs[id].command) && FileFits(h, s, s.jobs[id])
    requires forall other | other in s.jobs && other != id :: !AtWork(s, other)
    ensures FileOk(h, s)
  {}

  lemma SubmitTurns(s: System, handle: nat, c: Command)
    requires JobsOk(s) && Enabled(s, Submit(handle, c))
    ensures var id, s' := NextTurn(s, handle), SubmitStep(s, handle, c);
            && id !in s.jobs && OthersSame(s, s', id) && IsWork(s', id) && !AtWork(s', id)
            && M.TurnAt(s'.mutexes, id.registration, id.turn).phase == M.Waiting
  {
    assert !IsWork(s, NextTurn(s, handle));
  }

  lemma SubmitKeeps(h: DigestFunction, s: System, handle: nat, c: Command)
    requires Sound(h, s) && Enabled(s, Submit(handle, c))
    ensures Sound(h, SubmitStep(s, handle, c))
  {
    var id, s' := NextTurn(s, handle), SubmitStep(s, handle, c);
    M.StepKeeps(s.mutexes, M.Call(handle, M.Work));
    SubmitTurns(s, handle, c);
    JobsStayOk(s, s', id, Job(c, Queued));
    OrderStays(h, s, s', id, Job(c, Queued));
    FileStays(h, s, s', id, Job(c, Queued));
  }

  /** What a turn that starts does to the turns of the work on this file. */
  lemma StartTurns(s: System, s': System, id: TurnId)
    requires IsWork(s, id) && M.Enabled(s.mutexes, M.Start(id.registration, id.turn))
    requires s'.path == s.path && s'.mutexes == M.Step(s.mutexes, M.Start(id.registration, id.turn))
    ensures OthersSame(s, s', id) && IsWork(s', id)
    ensures M.TurnAt(s.mutexes, id.registration, id.turn).phase == M.Waiting
    ensures M.TurnAt(s'.mutexes, id.registration, id.turn).phase
            == if HandleClosed(s, id) then M.Released else M.InTransaction
  {}

  lemma BeginJobs(s: System, id: TurnId)
    requires JobsOk(s) && Enabled(s, Begin(id))
    ensures JobsOk(BeginStep(s, id)) && s.jobs[id].progress.Queued?
  {
    var s' := BeginStep(s, id);
    assert JobFits(s, id);
    StartTurns(s, s', id);
    JobsStayOk(s, s', id, s'.jobs[id]);
  }

  lemma BeginFile(h: DigestFunction, s: System, id: TurnId)
    requires M.Invariant(s.mutexes) && JobsOk(s) && FileOk(h, s) && Enabled(s, Begin(id)) && s.jobs[id].progress.Queued?
    ensures FileOk(h, BeginStep(s, id))
  {
    if HandleClosed(s, id) { UnbegunFileOk(h, s, id); } else { BegunFileOk(h, s, id); }
  }

  lemma UnbegunFileOk(h: DigestFunction, s: System, id: TurnId)
    requires FileOk(h, s) && Enabled(s, Begin(id)) && s.jobs[id].progress.Queued? && HandleClosed(s, id)
    ensures FileOk(h, BeginStep(s, id))
  {
    var job := s.jobs[id].(progress := Settled(ErrorAnswer(s.jobs[id].command, PersistenceFailure)));
    FileStays(h, s, BeginStep(s, id), id, job);
  }

  lemma BegunFileOk(h: DigestFunction, s: System, id: TurnId)
    requires M.Invariant(s.mutexes) && JobsOk(s) && FileOk(h, s) && Enabled(s, Begin(id)) && !HandleClosed(s, id)
    ensures FileOk(h, BeginStep(s, id))
  {
    NoneAtWorkBefore(s, id);
    BeginsAlone(s, id);
    assert JobFits(s, id);
    BegunFits(h, s, id);
    FileOfOne(h, BeginStep(s, id), id);
  }

  lemma BeginsAlone(s: System, id: TurnId)
    requires Enabled(s, Begin(id)) && !HandleClosed(s, id) && forall other | other in s.jobs :: !AtWork(s, other)
    ensures var s' := BeginStep(s, id);
            AtWork(s', id) && forall other | other in s'.jobs && other != id :: !AtWork(s', other)
  {
    var s' := BeginStep(s, id);
    forall other | other in s'.jobs && other != id ensures !AtWork(s', other) { assert !AtWork(s, other); }
  }

  lemma BegunFits(h: DigestFunction, s: System, id: TurnId)
    requires s.file == File(Committed(h, s), None) && Enabled(s, Begin(id)) && !HandleClosed(s, id) && !Refused(s.jobs[id].command)
    ensures FileFits(h, BeginStep(s, id), BeginStep(s, id).jobs[id])
  {}

  lemma BeginOrder(h: DigestFunction, s: System, id: TurnId)
    requires OrderOk(h, s) && Enabled(s, Begin(id)) && s.jobs[id].progress.Queued?
    ensures OrderOk(h, BeginStep(s, id))
  {
    OrderStays(h, s, BeginStep(s, id), id, BeginStep(s, id).jobs[id]);
  }

  lemma BeginKeeps(h: DigestFunction, s: System, id: TurnId)
    requires Sound(h, s) && Enabled(s, Begin(id))
    ensures Sound(h, BeginStep(s, id))
  {
    BeginMutexes(s, id);
    BeginJobs(s, id);
    BeginOrder(h, s, id);
    BeginFile(h, s, id);
  }

  lemma BeginMutexes(s: System, id: TurnId)
    requires M.Invariant(s.mutexes) && Enabled(s, Begin(id))
    ensures M.Invariant(BeginStep(s, id).mutexes)
  {
    M.StepKeeps(s.mutexes, M.Start(id.registration, id.turn));
  }

  lemma ContinueJobs(h: DigestFunction, s: System, id: TurnId)
    requires JobsOk(s) && Enabled(s, Continue(id))
    ensures JobsOk(ContinueStep(h, s, id))
  {
    var s' := ContinueStep(h, s, id);
    assert IsWork(s, id) && JobFits(s, id);
    JobsStayOk(s, s', id, s'.jobs[id]);
  }

  lemma ContinuedFits(h: DigestFunction, s: System, id: TurnId)
    requires Enabled(s, Continue(id)) && FileFits(h, s, s.jobs[id])
    ensures FileFits(h, ContinueStep(h, s, id), ContinueStep(h, s, id).jobs[id])
  {
    AdvanceKeeps(h, Committed(h, s), s.file.tables, s.jobs[id].command, s.jobs[id].progress.stage);
  }

  lemma ContinuesAlone(h: DigestFunction, s: System, id: TurnId)
    requires M.Invariant(s.mutexes) && JobsOk(s) && Enabled(s, Continue(id))
    ensures var s' := ContinueStep(h, s, id);
            AtWork(s', id) && forall other | other in s'.jobs && other != id :: !AtWork(s', other)
  {
    var s' := ContinueStep(h, s, id);
    assert AtWork(s, id);
    forall other | other in s'.jobs && other != id ensures !AtWork(s', other) {
      if AtWork(s, other) { OneAtWork(s, id, other); }
    }
  }

  lemma ContinueFile(h: DigestFunction, s: System, id: TurnId)
    requires M.Invariant(s.mutexes) && JobsOk(s) && FileOk(h, s) && Enabled(s, Continue(id))
    ensures FileOk(h, ContinueStep(h, s, id))
  {
    assert AtWork(s, id);
    ContinuedFits(h, s, id);
    ContinuesAlone(h, s, id);
    FileOfOne(h, ContinueStep(h, s, id), id);
  }

  lemma ContinueKeeps(h: DigestFunction, s: System, id: TurnId)
    requires Sound(h, s) && Enabled(s, Continue(id))
    ensures Sound(h, ContinueStep(h, s, id))
  {
    ContinueJobs(h, s, id);
    OrderStays(h, s, ContinueStep(h, s, id), id, ContinueStep(h, s, id).jobs[id]);
    ContinueFile(h, s, id);
  }

  // ---------------------------------------------------------------- the end of a transaction

  lemma {:induction false} AfterPrefix(h: DigestFunction, run: seq<Command>, run': seq<Command>, n: nat)
    requires run <= run' && n <= |run|
    ensures After(h, run', n) == After(h, run, n)
  {
    if n > 0 { AfterPrefix(h, run, run', n - 1); }
  }

  /** One more ending is one more command in the order. */
  lemma OneMoreCommand(h: DigestFunction, order: seq<Ending>, e: Ending)
    ensures var run, run' := Commands(order), Commands(order + [e]);
            && After(h, run', |order|) == After(h, run, |order|)
            && After(h, run', |order| + 1) == ProjectRuns.Step(h, After(h, run, |order|), e.command).0
            && AnswerTo(h, run', |order|) == ProjectRuns.Step(h, After(h, run, |order|), e.command).1
            && forall i | 0 <= i < |order| :: AnswerTo(h, run', i) == AnswerTo(h, run, i)
  {
    var run, run' := Commands(order), Commands(order + [e]);
    assert run <= run';
    forall i | 0 <= i <= |order| ensures After(h, run', i) == After(h, run, i) { AfterPrefix(h, run, run', i); }
  }

  /** The transaction of the job at work amounts to its command run alone. */
  lemma EndedAlone(h: DigestFunction, s: System, id: TurnId)
    requires AtWork(s, id) && !Refused(s.jobs[id].command) && FileFits(h, s, s.jobs[id])
    requires s.jobs[id].progress.BeginFailed? || s.jobs[id].progress.stage.Answered?
    ensures var (file, answer) := EndedFile(s.file, s.jobs[id]);
            var (t, a) := ProjectRuns.Step(h, Committed(h, s), s.jobs[id].command);
            file == File(t, None) && answer == a
  {
    var c := s.jobs[id].command;
    if s.jobs[id].progress.BeginFailed? {
      FailedBeginIsTheStep(h, Committed(h, s), c);
    } else {
      EndedIsTheStep(h, Committed(h, s), s.file.tables, c, s.jobs[id].progress.stage.answer);
    }
  }

  /** `s'` records one more ending of a job that had not settled. */
  ghost predicate EndsOne(h: DigestFunction, s: System, s': System, e: Ending) {
    && e.id in s.jobs && !s.jobs[e.id].progress.Settled? && e.command == s.jobs[e.id].command
    && e.answer == ProjectRuns.Step(h, Committed(h, s), e.command).1
    && s'.order == s.order + [e] && s'.jobs == s.jobs[e.id := Job(e.command, Settled(e.answer))]
  }

  lemma EndingStaysOk(h: DigestFunction, s: System, s': System, e: Ending, i: nat)
    requires OrderOk(h, s) && EndsOne(h, s, s', e) && i < |s'.order|
    ensures EndingOk(h, s', i)
  {
    OneMoreCommand(h, s.order, e);
    if i < |s.order| { assert EndingOk(h, s, i); }
  }

  lemma EndingsStayDistinct(h: DigestFunction, s: System, s': System, e: Ending)
    requires OrderOk(h, s) && EndsOne(h, s, s', e)
    ensures forall i, k | 0 <= i < k < |s'.order| :: s'.order[i].id != s'.order[k].id
  {
    forall i | 0 <= i < |s.order| ensures s.order[i].id != e.id { assert EndingOk(h, s, i); }
  }

  lemma EndedStaysEnded(h: DigestFunction, s: System, s': System, e: Ending, other: TurnId)
    requires OrderOk(h, s) && EndsOne(h, s, s', e)
    requires HasSucceeded(s', other)
    ensures HasEnded(s', other)
  {
    if other == e.id {
      assert s'.order[|s.order|].id == other;
    } else {
      assert HasSucceeded(s, other) && HasEnded(s, other);
      var i :| 0 <= i < |s.order| && s.order[i].id == other;
      assert s'.order[i].id == other;
    }
  }

  lemma OrderGrows(h: DigestFunction, s: System, s': System, e: Ending)
    requires OrderOk(h, s) && EndsOne(h, s, s', e)
    ensures OrderOk(h, s')
  {
    forall i | 0 <= i < |s'.order| ensures EndingOk(h, s', i) { EndingStaysOk(h, s, s', e, i); }
    EndingsStayDistinct(h, s, s', e);
    forall other | HasSucceeded(s', other) ensures HasEnded(s', other) {
      EndedStaysEnded(h, s, s', e, other);
    }
  }

  lemma SettleTurns(s: System, s': System, id: TurnId)
    requires IsWork(s, id) && M.Enabled(s.mutexes, M.Settle(id.registration, id.turn))
    requires s'.path == s.path && s'.mutexes == M.Step(s.mutexes, M.Settle(id.registration, id.turn))
    ensures OthersSame(s, s', id) && IsWork(s', id) && M.TurnAt(s'.mutexes, id.registration, id.turn).phase == M.Released
  {}

  lemma EndJobs(s: System, id: TurnId)
    requires JobsOk(s) && Enabled(s, End(id))
    ensures JobsOk(EndStep(s, id)) && !Refused(s.jobs[id].command)
  {
    var s' := EndStep(s, id);
    assert JobFits(s, id);
    SettleTurns(s, s', id);
    JobsStayOk(s, s', id, s'.jobs[id]);
  }

  lemma EndRecords(h: DigestFunction, s: System, id: TurnId)
    requires FileOk(h, s) && Enabled(s, End(id)) && !Refused(s.jobs[id].command)
    ensures EndsOne(h, s, EndStep(s, id), EndStep(s, id).order[|s.order|])
    ensures EndStep(s, id).file == File(Committed(h, EndStep(s, id)), None)
  {
    assert AtWork(s, id);
    EndedAlone(h, s, id);
    OneMoreCommand(h, s.order, EndStep(s, id).order[|s.order|]);
  }

  lemma EndLeavesNoneAtWork(s: System, id: TurnId)
    requires M.Invariant(s.mutexes) && JobsOk(s) && Enabled(s, End(id))
    ensures forall other | other in EndStep(s, id).jobs :: !AtWork(EndStep(s, id), other)
  {
    var s' := EndStep(s, id);
    assert AtWork(s, id);
    forall other | other in s'.jobs ensures !AtWork(s', other) {
      if other != id && AtWork(s, other) { OneAtWork(s, id, other); }
    }
  }

  lemma RestingFileOk(h: DigestFunction, s: System)
    requires s.file == File(Committed(h, s), None) && forall id | id in s.jobs :: !AtWork(s, id)
    ensures FileOk(h, s)
  {}

  lemma EndKeeps(h: DigestFunction, s: System, id: TurnId)
    requires Sound(h, s) && Enabled(s, End(id))
    ensures Sound(h, EndStep(s, id))
  {
    var s' := EndStep(s, id);
    M.StepKeeps(s.mutexes, M.Settle(id.registration, id.turn));
    EndJobs(s, id);
    EndRecords(h, s, id);
    OrderGrows(h, s, s', s'.order[|s.order|]);
    EndLeavesNoneAtWork(s, id);
    RestingFileOk(h, s');
  }

  lemma StepKeeps(h: DigestFunction, s: System, e: Event)
    requires Sound(h, s) && Enabled(s, e)
    ensures Sound(h, Step(h, s, e))
  {
    match e
    case Around(me) => AroundKeeps(h, s, me);
    case Submit(handle, c) => SubmitKeeps(h, s, handle, c);
    case Begin(id) => BeginKeeps(h, s, id);
    case Continue(id) => ContinueKeeps(h, s, id);
    case End(id) => EndKeeps(h, s, id);
  }

  // ---------------------------------------------------------------- whole runs

  /** `states` are the states a run passes through, one more than its events. */
  ghost predicate IsRun(h: DigestFunction, path: M.Path, events: seq<Event>, states: seq<System>) {
    && |states| == |events| + 1 && states[0] == Booted(path)
    && forall i | 0 <= i < |events| :: Enabled(states[i], events[i]) && states[i + 1] == Step(h, states[i], events[i])
  }

  lemma {:induction false} EveryStateIsSound(h: DigestFunction, path: M.Path, events: seq<Event>, states: seq<System>, i: nat)
    requires IsRun(h, path, events, states) && i < |states|
    ensures Sound(h, states[i])
  {
    if i == 0 {
      assert M.Invariant(M.INITIAL);
    } else {
      EveryStateIsSound(h, path, events, states, i - 1);
      StepKeeps(h, states[i - 1], events[i - 1]);
    }
  }

  /** What is on disk whatever the open transaction does: the tables, or what a rollback restores. */
  function Durable(s: System): Tables {
    if s.file.saved.Some? then s.file.saved.value else s.file.tables
  }

  lemma SoundIsDurable(h: DigestFunction, s: System)
    requires Sound(h, s)
    ensures Durable(s) == Committed(h, s)
  {
    if id :| id in s.jobs && AtWork(s, id) { FittingIsDurable(h, s, id); }
  }

  lemma FittingIsDurable(h: DigestFunction, s: System, id: TurnId)
    requires AtWork(s, id) && !Refused(s.jobs[id].command) && FileFits(h, s, s.jobs[id])
    ensures Durable(s) == Committed(h, s)
  {}

  /** Serializability. In every state of every interleaving the durable tables are those of the ended
      transactions' commands run one after another in the order they ended, each with the answer it
      gave; every job that succeeded is among them, once. */
  lemma InterleavingsAreRuns(h: DigestFunction, path: M.Path, events: seq<Event>, states: seq<System>, i: nat)
    requires IsRun(h, path, events, states) && i < |states|
    ensures Durable(states[i]) == After(h, Commands(states[i].order), |states[i].order|)
    ensures forall k | 0 <= k < |states[i].order| :: EndingOk(h, states[i], k)
    ensures forall k, l | 0 <= k < l < |states[i].order| :: states[i].order[k].id != states[i].order[l].id
    ensures forall id | HasSucceeded(states[i], id) :: HasEnded(states[i], id)
  {
    EveryStateIsSound(h, path, events, states, i);
    SoundIsDurable(h, states[i]);
  }

  lemma OrderOnlyGrows(h: DigestFunction, path: M.Path, events: seq<Event>, states: seq<System>, i: nat, k: nat)
    requires IsRun(h, path, events, states) && i <= k < |states|
    ensures states[i].order <= states[k].order
    decreases k
  {
    if i < k { OrderOnlyGrows(h, path, events, states, i, k - 1); }
  }

  /** Under any interleaving the logs only grow: identity fixed, archived logs closed. */
  lemma ConcurrentLogsOnlyGrow(h: DigestFunction, path: M.Path, events: seq<Event>, states: seq<System>, i: nat, k: nat)
    requires IsRun(h, path, events, states) && i <= k < |states|
    ensures Consistent(h, Durable(states[i])) && Consistent(h, Durable(states[k]))
    ensures Extends(Logs(Durable(states[i])), Logs(Durable(states[k])))
  {
    EveryStateIsSound(h, path, events, states, i);
    EveryStateIsSound(h, path, events, states, k);
    SoundIsDurable(h, states[i]);
    SoundIsDurable(h, states[k]);
    OrderOnlyGrows(h, path, events, states, i, k);
    var run, run' := Commands(states[i].order), Commands(states[k].order);
    assert run <= run';
    AfterPrefix(h, run, run', |run|);
    RunsAreConsistent(h, run', |run|);
    RunsAreConsistent(h, run', |run'|);
    RunsExtend(h, run', |run|, |run'|);
  }

  /** While the commands run so far handed over no body with a leaf led by two BOMs, no transaction that
      ends, read or write, on any handle, answers with an integrity error. */
  lemma ConcurrentAnswersKeepIntegrity(h: DigestFunction, path: M.Path, events: seq<Event>, states: seq<System>, i: nat, k: nat)
    requires IsRun(h, path, events, states) && i < |states| && k < |states[i].order| <= MAX_SAFE_INTEGER
    requires forall l | 0 <= l < |states[i].order| :: IsClean(states[i].order[l].command)
    ensures ErrorOf(states[i].order[k].answer) != Some(IntegrityError)
  {
    InterleavingsAreRuns(h, path, events, states, i);
    assert EndingOk(h, states[i], k);
    var run := Commands(states[i].order);
    RevisionsAreCommands(h, run, k);
    IntegrityErrorIsUnreachable(h, run, k);
  }

  /** A revise that a job answered with success. */
  predicate Revised(s: System, id: TurnId) {
    && id in s.jobs && s.jobs[id].command.ReviseBrick? && s.jobs[id].progress.Settled?
    && s.jobs[id].progress.answer.WriteAnswer? && s.jobs[id].progress.answer.written.Ok?
  }

  /** Over any concurrent set of revises, each base revision of a brick is consumed by at most one that
      succeeds, whichever handles they ran on. */
  lemma ConcurrentRevisesConsumeEachBaseOnce(h: DigestFunction, path: M.Path, events: seq<Event>, states: seq<System>, i: nat,
                                             a: TurnId, b: TurnId)
    requires IsRun(h, path, events, states) && i < |states| && Revised(states[i], a) && Revised(states[i], b)
    requires var x, y := states[i].jobs[a].command.revise, states[i].jobs[b].command.revise;
             x.project == y.project && x.brick == y.brick && x.base == y.base
    ensures a == b
  {
    InterleavingsAreRuns(h, path, events, states, i);
    assert HasEnded(states[i], a) && HasEnded(states[i], b);
    var k: nat :| k < |states[i].order| && states[i].order[k].id == a;
    var l: nat :| l < |states[i].order| && states[i].order[l].id == b;
    assert EndingOk(h, states[i], k) && EndingOk(h, states[i], l);
    SameBaseSameRevise(h, Commands(states[i].order), k, l);
  }

  lemma SameBaseSameRevise(h: DigestFunction, run: seq<Command>, k: nat, l: nat)
    requires k < |run| && l < |run| && Succeeded(h, run, k) && Succeeded(h, run, l) && run[k].ReviseBrick? && run[l].ReviseBrick?
    requires run[k].revise.project == run[l].revise.project && run[k].revise.brick == run[l].revise.brick
    requires run[k].revise.base == run[l].revise.base
    ensures k == l
  {
    if k < l { EachBaseIsConsumedOnce(h, run, k, l); }
    if l < k { EachBaseIsConsumedOnce(h, run, l, k); }
  }
}
