/** The mutable objects behind `DatabaseMutexes`: each operation updates them in place and is proved to
    be the step of the state machine. */
module DatabaseMutexObjects {
  import opened DatabaseMutexes

  /** The promises that were the tail and the turns are numbered in the order they were made. */
  class FifoMutex {
    var tail: nat
    var tails: seq<Tail>
    var turns: seq<Turn>

    constructor ()
      ensures Value() == FRESH_MUTEX
    {
      tail, tails, turns := 0, [Initially], [];
    }

    function Value(): Mutex
      reads this
    {
      Mutex(tail, tails, turns)
    }

    /** `run` up to its await. */
    method Run(handle: nat, purpose: Purpose) returns (turn: nat)
      modifies this
      ensures Value() == Chain(old(Value()), handle, purpose) && turn == |old(turns)|
    {
      var previous := tail;
      turn := |turns|;
      tail := |tails|;
      tails := tails + [Chained(previous, turn, false)];
      turns := turns + [Turn(handle, purpose, previous, Waiting)];
    }

    /** The tail promise `t` resolves. */
    method ResolveTail(t: nat)
      requires CanResolve(Value(), t)
      modifies this`tails
      ensures Value() == Resolve(old(Value()), t)
    {
      tails := tails[t := tails[t].(resolved := true)];
    }

    method Enter(k: nat, phase: Phase)
      requires k < |turns|
      modifies this`turns
      ensures Value() == WithPhase(old(Value()), k, phase)
    {
      turns := turns[k := turns[k].(phase := phase)];
    }
  }

  class MutexRegistration {
    const path: Path
    const mutex: FifoMutex
    /** How many registrations were created before this one. */
    const index: nat
    var references: int

    constructor (path: Path, index: nat)
      ensures this.path == path && this.index == index && references == 1
      ensures fresh(mutex) && mutex.Value() == FRESH_MUTEX
    {
      this.path := path;
      this.index := index;
      references := 1;
      mutex := new FifoMutex();
    }
  }

  /** A `SqliteProjectUnitOfWork` with the `released` flag of its persistence object. */
  class UnitOfWork {
    const registration: MutexRegistration
    const index: nat
    var closed: bool
    var released: bool

    constructor (registration: MutexRegistration, index: nat)
      ensures this.registration == registration && this.index == index && !closed && !released
    {
      this.registration := registration;
      this.index := index;
      closed := false;
      released := false;
    }
  }

  /** The process-wide registry. The two lists remember everything ever created. */
  class OpenDatabases {
    var databaseMutexes: map<Path, MutexRegistration>
    var registrations: seq<MutexRegistration>
    var units: seq<UnitOfWork>

    constructor ()
      ensures Valid() && View() == INITIAL
    {
      databaseMutexes := map[];
      registrations := [];
      units := [];
    }

    ghost function Mutexes(): set<FifoMutex>
      reads this
    {
      set r | r in registrations :: r.mutex
    }

    ghost predicate Valid()
      reads this
    {
      && (forall i | 0 <= i < |registrations| :: registrations[i].index == i)
      && (forall i, j | 0 <= i < |registrations| && 0 <= j < |registrations| ::
            registrations[i].mutex == registrations[j].mutex ==> i == j)
      && (forall i | 0 <= i < |units| :: units[i].index == i && units[i].registration in registrations)
      && (forall p | p in databaseMutexes :: databaseMutexes[p] in registrations)
    }

    ghost function View(): (s: State)
      reads this, registrations, Mutexes(), units
    {
      State(
        seq(|registrations|, i requires 0 <= i < |registrations| reads this, registrations, Mutexes() =>
          Registration(registrations[i].path, registrations[i].references, registrations[i].mutex.Value())),
        map p | p in databaseMutexes :: databaseMutexes[p].index,
        seq(|units|, i requires 0 <= i < |units| reads this, units =>
          Handle(units[i].registration.index, units[i].closed, units[i].released)))
    }

    /** `retainDatabaseMutex` */
    method Retain(path: Path) returns (registration: MutexRegistration)
      requires Valid()
      modifies this, registrations
      ensures Valid() && units == old(units)
      ensures registration in registrations && old(registrations) <= registrations
      ensures forall r | r in registrations :: r in old(registrations) || (fresh(r) && fresh(r.mutex))
      ensures View() == DatabaseMutexes.Retain(old(View()), path).0
      ensures registration.index == DatabaseMutexes.Retain(old(View()), path).1
    {
      if path in databaseMutexes {
        registration := databaseMutexes[path];
        Share(registration);
      } else {
        registration := Register(path);
      }
    }

    method Share(registration: MutexRegistration)
      requires Valid() && registration in registrations
      modifies registration
      ensures Valid()
      ensures var before, i := old(View()), registration.index;
              View() == before.(registrations := before.registrations[i :=
                before.registrations[i].(references := before.registrations[i].references + 1)])
    {
      ghost var before := View();
      registration.references := registration.references + 1;
      ghost var i := registration.index;
      assert View().registrations == before.registrations[i := before.registrations[i].(references := before.registrations[i].references + 1)];
    }

    method Register(path: Path) returns (registration: MutexRegistration)
      requires Valid()
      modifies this`databaseMutexes, this`registrations
      ensures Valid() && fresh(registration) && fresh(registration.mutex) && registrations == old(registrations) + [registration]
      ensures var before := old(View());
              && registration.index == |before.registrations|
              && View() == before.(registrations := before.registrations + [Registration(path, 1, FRESH_MUTEX)],
                                   registered := before.registered[path := registration.index])
    {
      ghost var before := View();
      registration := new MutexRegistration(path, |registrations|);
      databaseMutexes := databaseMutexes[path := registration];
      registrations := registrations + [registration];
      assert View().handles == before.handles;
      assert View().registered == before.registered[path := registration.index];
      assert View().registrations == before.registrations + [Registration(path, 1, FRESH_MUTEX)];
    }

    /** `releaseDatabaseMutex` */
    method Release(path: Path, registration: MutexRegistration)
      requires Valid() && registration in registrations && registration.path == path
      modifies this`databaseMutexes, registration
      ensures Valid()
      ensures View() == DatabaseMutexes.Release(old(View()), registration.index)
    {
      ghost var before := View();
      registration.references := registration.references - 1;
      if registration.references == 0 { databaseMutexes := databaseMutexes - {path}; }
      assert View().registrations == DatabaseMutexes.Release(before, registration.index).registrations;
      assert View().registered == DatabaseMutexes.Release(before, registration.index).registered;
    }

    /** `openProjectSqlitePersistence` from the retained mutex on; `started` is false when the rest of
        the startup throws. */
    method OpenPersistence(path: Path, started: bool) returns (unit: UnitOfWork?)
      requires Valid() && Invariant(View())
      modifies this, registrations
      ensures Valid() && Invariant(View())
      ensures View() == Step(old(View()), if started then Open(path) else OpenFails(path))
      ensures started <==> unit != null
    {
      ghost var before := View();
      var registration := Retain(path);
      ghost var retained := View();
      if started {
        unit := AddUnit(registration);
      } else {
        unit := null;
        assert registration.path == path by { assert retained.registrations[registration.index].path == path; }
        Release(path, registration);
      }
      assert View() == Step(before, if started then Open(path) else OpenFails(path));
      StepKeeps(before, if started then Open(path) else OpenFails(path));
    }

    method AddUnit(registration: MutexRegistration) returns (unit: UnitOfWork)
      requires Valid() && registration in registrations
      modifies this`units
      ensures Valid() && unit in units && unit.registration == registration && fresh(unit)
      ensures View() == old(View()).(handles := old(View()).handles + [Handle(registration.index, false, false)])
    {
      ghost var before := View();
      unit := new UnitOfWork(registration, |units|);
      units := units + [unit];
      assert View().registrations == before.registrations;
      assert View().handles == before.handles + [Handle(registration.index, false, false)];
    }

    /** Only the mutex of `registration` changed, from `m` to its present value. */
    lemma OneMutexChanged(before: State, registration: MutexRegistration)
      requires Valid() && registration in registrations && registration.index < |before.registrations|
      requires View() == before.(registrations := View().registrations)
      requires |before.registrations| == |registrations|
      requires before.registrations[registration.index].path == registration.path
      requires before.registrations[registration.index].references == registration.references
      requires forall i | 0 <= i < |registrations| && i != registration.index :: before.registrations[i] == View().registrations[i]
      ensures View() == WithMutex(before, registration.index, registration.mutex.Value())
    {
      assert View().registrations == WithMutex(before, registration.index, registration.mutex.Value()).registrations;
    }

    /** Calling `run` or `close` chains a turn on the mutex and waits. */
    method Enqueue(unit: UnitOfWork, purpose: Purpose) returns (turn: nat)
      requires Valid() && Invariant(View()) && unit in units
      modifies unit.registration.mutex
      ensures Valid() && Invariant(View())
      ensures View() == Step(old(View()), Call(unit.index, purpose))
      ensures turn == |old(unit.registration.mutex.turns)|
    {
      ghost var before := View();
      turn := unit.registration.mutex.Run(unit.index, purpose);
      OneMutexChanged(before, unit.registration);
      StepKeeps(before, Call(unit.index, purpose));
    }

    /** A promise of the chain resolves. */
    method SettleTail(registration: MutexRegistration, t: nat)
      requires Valid() && Invariant(View()) && registration in registrations && CanResolve(registration.mutex.Value(), t)
      modifies registration.mutex
      ensures Valid() && Invariant(View())
      ensures View() == Step(old(View()), TailResolves(registration.index, t))
    {
      ghost var before := View();
      registration.mutex.ResolveTail(t);
      OneMutexChanged(before, registration);
      StepKeeps(before, TailResolves(registration.index, t));
    }

    /** The body of the mutex callback, once the promise it awaits has resolved: `close` closes, `run`
        begins or throws. */
    method Resume(unit: UnitOfWork, k: nat) returns (begun: bool)
      requires Valid() && Invariant(View()) && unit in units
      requires CanResume(unit.registration.mutex.Value(), k) && unit.registration.mutex.turns[k].handle == unit.index
      modifies unit.registration.mutex, unit`closed
      ensures Valid() && Invariant(View())
      ensures View() == Step(old(View()), Start(unit.registration.index, k))
      ensures begun <==> old(unit.registration.mutex.turns)[k].purpose == Work && !old(unit.closed)
      ensures ReleasedBefore(old(unit.registration.mutex.turns), k)
    {
      ghost var before := View();
      ghost var r, e := unit.registration.index, Start(unit.registration.index, k);
      ResumesInTurn(unit.registration.mutex.Value(), k);
      var turn := unit.registration.mutex.turns[k];
      begun := turn.purpose == Work && !unit.closed;
      EnterTurn(unit.registration, k, if begun then InTransaction else Released);
      if turn.purpose == Close { CloseHandle(unit); }
      assert before.handles[unit.index].closed == old(unit.closed);
      assert View() == StartTurn(before, r, k);
      StepKeeps(before, e);
    }

    method EnterTurn(registration: MutexRegistration, k: nat, phase: Phase)
      requires Valid() && registration in registrations && k < |registration.mutex.turns|
      modifies registration.mutex
      ensures Valid()
      ensures View() == WithMutex(old(View()), registration.index, WithPhase(old(registration.mutex.Value()), k, phase))
    {
      ghost var before := View();
      registration.mutex.Enter(k, phase);
      OneMutexChanged(before, registration);
    }

    method CloseHandle(unit: UnitOfWork)
      requires Valid() && unit in units
      modifies unit`closed
      ensures Valid()
      ensures View() == old(View()).(handles := old(View()).handles[unit.index := old(View()).handles[unit.index].(closed := true)])
    {
      ghost var before := View();
      unit.closed := true;
      assert View().registrations == before.registrations;
      assert View().handles == before.handles[unit.index := before.handles[unit.index].(closed := true)];
    }

    /** COMMIT or ROLLBACK is done and `finally` releases the mutex. */
    method FinishTransaction(unit: UnitOfWork, k: nat)
      requires Valid() && Invariant(View()) && unit in units
      requires k < |unit.registration.mutex.turns| && unit.registration.mutex.turns[k].phase == InTransaction
      modifies unit.registration.mutex
      ensures Valid() && Invariant(View())
      ensures View() == Step(old(View()), Settle(unit.registration.index, k))
    {
      ghost var before := View();
      EnterTurn(unit.registration, k, Released);
      StepKeeps(before, Settle(unit.registration.index, k));
    }

    /** The `finally` of a persistence object's `close`. */
    method AfterClose(unit: UnitOfWork)
      requires Valid() && Invariant(View()) && unit in units && Enabled(View(), CloseSettled(unit.index))
      modifies this`databaseMutexes, unit.registration, unit`released
      ensures Valid() && Invariant(View())
      ensures View() == Step(old(View()), CloseSettled(unit.index))
    {
      ghost var before := View();
      StepKeeps(before, CloseSettled(unit.index));
      assert before.handles[unit.index].released == unit.released;
      if !unit.released {
        unit.released := true;
        ghost var freed := View();
        assert freed.handles == before.handles[unit.index := before.handles[unit.index].(released := true)];
        assert freed.registrations == before.registrations;
        Release(unit.registration.path, unit.registration);
      }
    }
  }
}
