/** One FIFO promise mutex per canonical database path, registered by path and reference-counted by
    the open handles that share it. */
module DatabaseMutexes {
  type Path = int

  // ---------------------------------------------------------------- the promise chain of one mutex

  /** A call of `FifoMutex.run`: `run` on a unit of work, or its `close`. */
  datatype Purpose = Work | Close

  /** A turn is released by the `finally` of its `run`. */
  datatype Phase = Waiting | InTransaction | Released

  /** `awaits` is the promise that was the tail when the call was made. */
  datatype Turn = Turn(handle: nat, purpose: Purpose, awaits: nat, phase: Phase)

  /** A promise that is or was the tail: resolved from the start, or `previous.then(() => turn)`. */
  datatype Tail = Initially | Chained(previous: nat, turn: nat, resolved: bool)

  /** A `FifoMutex`: its tail, every promise that ever was the tail, and the turns in call order. */
  datatype Mutex = Mutex(tail: nat, tails: seq<Tail>, turns: seq<Turn>)

  const FRESH_MUTEX := Mutex(0, [Initially], [])

  predicate IsResolved(m: Mutex, t: nat) {
    t < |m.tails| && (m.tails[t].Chained? ==> m.tails[t].resolved)
  }

  /** The synchronous part of `run`. */
  function Chain(m: Mutex, handle: nat, purpose: Purpose): Mutex {
    Mutex(|m.tails|, m.tails + [Chained(m.tail, |m.turns|, false)], m.turns + [Turn(handle, purpose, m.tail, Waiting)])
  }

  /** `previous` has resolved, and then the turn the callback returned. */
  predicate CanResolve(m: Mutex, t: nat) {
    && t < |m.tails| && m.tails[t].Chained? && !m.tails[t].resolved && IsResolved(m, m.tails[t].previous)
    && m.tails[t].turn < |m.turns| && m.turns[m.tails[t].turn].phase == Released
  }

  function Resolve(m: Mutex, t: nat): Mutex
    requires CanResolve(m, t)
  {
    m.(tails := m.tails[t := m.tails[t].(resolved := true)])
  }

  /** `await previous` can resume. */
  predicate CanResume(m: Mutex, k: nat) {
    k < |m.turns| && m.turns[k].phase == Waiting && IsResolved(m, m.turns[k].awaits)
  }

  function WithPhase(m: Mutex, k: nat, phase: Phase): Mutex
    requires k < |m.turns|
  {
    m.(turns := m.turns[k := m.turns[k].(phase := phase)])
  }

  ghost predicate ReleasedBefore(turns: seq<Turn>, k: nat) {
    k <= |turns| && forall j | 0 <= j < k :: turns[j].phase == Released
  }

  /** Each promise chains the one before it to its own turn, and has only resolved after every turn
      before it was released. */
  ghost predicate ChainOk(m: Mutex) {
    && m.tail == |m.turns| && |m.tails| == |m.turns| + 1 && m.tails[0] == Initially
    && (forall k | 0 <= k < |m.turns| :: LinkOk(m, k))
    && (forall t: nat | IsResolved(m, t) :: ReleasedBefore(m.turns, t))
  }

  ghost predicate LinkOk(m: Mutex, k: nat)
    requires k < |m.turns| && k + 1 < |m.tails|
  {
    m.turns[k].awaits == k && m.tails[k + 1].Chained? && m.tails[k + 1].previous == k && m.tails[k + 1].turn == k
  }

  lemma ChainKeepsOrder(m: Mutex, handle: nat, purpose: Purpose)
    requires ChainOk(m)
    ensures ChainOk(Chain(m, handle, purpose))
  {
    var m' := Chain(m, handle, purpose);
    forall k | 0 <= k < |m.turns| ensures LinkOk(m', k) { assert LinkOk(m, k); }
    forall t: nat | IsResolved(m', t) ensures ReleasedBefore(m'.turns, t) {
      assert IsResolved(m, t) && ReleasedBefore(m.turns, t);
    }
  }

  lemma ResolveKeepsOrder(m: Mutex, t: nat)
    requires ChainOk(m) && CanResolve(m, t)
    ensures ChainOk(Resolve(m, t))
  {
    var m' := Resolve(m, t);
    assert t > 0 && LinkOk(m, t - 1) && IsResolved(m, t - 1) && ReleasedBefore(m.turns, t - 1);
    forall k | 0 <= k < |m.turns| ensures LinkOk(m', k) { assert LinkOk(m, k); }
    forall q: nat | IsResolved(m', q) ensures ReleasedBefore(m'.turns, q) {
      if q != t { assert IsResolved(m, q) && ReleasedBefore(m.turns, q); }
    }
  }

  lemma PhaseKeepsOrder(m: Mutex, k: nat, phase: Phase)
    requires ChainOk(m) && k < |m.turns| && m.turns[k].phase != Released
    ensures ChainOk(WithPhase(m, k, phase))
  {
    var m' := WithPhase(m, k, phase);
    forall i | 0 <= i < |m.turns| ensures LinkOk(m', i) { assert LinkOk(m, i); }
    forall t: nat | IsResolved(m', t) ensures ReleasedBefore(m'.turns, t) {
      assert IsResolved(m, t) && ReleasedBefore(m.turns, t);
    }
  }

  /** The chain admits one turn at a time, in call order: an await resumes only after every earlier
      turn was released. */
  lemma ResumesInTurn(m: Mutex, k: nat)
    requires ChainOk(m) && CanResume(m, k)
    ensures ReleasedBefore(m.turns, k)
  {
    assert LinkOk(m, k);
  }

  /** No turn is lost: while every earlier turn is released, a waiting turn can resume or some promise
      on its way can resolve. */
  lemma {:induction false} ReleasedTurnsResolve(m: Mutex, k: nat)
    requires ChainOk(m) && ReleasedBefore(m.turns, k)
    ensures IsResolved(m, k) || exists t: nat :: CanResolve(m, t)
  {
    if k > 0 && !IsResolved(m, k) {
      ReleasedTurnsResolve(m, k - 1);
      assert LinkOk(m, k - 1) && m.turns[k - 1].phase == Released;
      if IsResolved(m, k - 1) { assert CanResolve(m, k); }
    }
  }

  lemma WaitingTurnProceeds(m: Mutex, k: nat)
    requires ChainOk(m) && k < |m.turns| && m.turns[k].phase == Waiting && ReleasedBefore(m.turns, k)
    ensures CanResume(m, k) || exists t: nat :: CanResolve(m, t)
  {
    ReleasedTurnsResolve(m, k);
    assert LinkOk(m, k);
  }

  // ---------------------------------------------------------------- the registry

  /** A registration and its mutex. */
  datatype Registration = Registration(path: Path, references: int, mutex: Mutex)

  /** A handle returned by `openProjectSqlitePersistence`. */
  datatype Handle = Handle(registration: nat, closed: bool, released: bool)

  /** `registrations` holds every registration ever created; `registered` is the live map. */
  datatype State = State(registrations: seq<Registration>, registered: map<Path, nat>, handles: seq<Handle>)

  const INITIAL := State([], map[], [])

  // ---------------------------------------------------------------- steps

  /** `retainDatabaseMutex` */
  function Retain(s: State, path: Path): (r: (State, nat))
    ensures r.1 < |r.0.registrations|
  {
    if path in s.registered && s.registered[path] < |s.registrations| then
      var i := s.registered[path];
      var reg := s.registrations[i];
      (s.(registrations := s.registrations[i := reg.(references := reg.references + 1)]), i)
    else
      var i := |s.registrations|;
      (s.(registrations := s.registrations + [Registration(path, 1, FRESH_MUTEX)], registered := s.registered[path := i]), i)
  }

  /** `releaseDatabaseMutex`; the map entry is deleted by path. */
  function Release(s: State, i: nat): State
    requires i < |s.registrations|
  {
    var reg := s.registrations[i];
    var left := reg.references - 1;
    s.(registrations := s.registrations[i := reg.(references := left)],
       registered := if left == 0 then s.registered - {reg.path} else s.registered)
  }

  function WithMutex(s: State, r: nat, m: Mutex): State
    requires r < |s.registrations|
  {
    s.(registrations := s.registrations[r := s.registrations[r].(mutex := m)])
  }

  datatype Event =
    | Open(path: Path)
    | OpenFails(path: Path)                  // a startup failure after the mutex was retained
    | Call(handle: nat, purpose: Purpose)
    | TailResolves(registration: nat, tail: nat)
    | Start(registration: nat, turn: nat)    // `await previous` resumes
    | Settle(registration: nat, turn: nat)   // COMMIT or ROLLBACK done, `finally { release() }`
    | CloseSettled(handle: nat)              // the `finally` of the handle's close

  /** What the promises allow; everything a step touches exists. */
  predicate Enabled(s: State, e: Event) {
    match e
    case Open(_) => true
    case OpenFails(_) => true
    case Call(h, _) => h < |s.handles| && s.handles[h].registration < |s.registrations|
    case TailResolves(r, t) => r < |s.registrations| && CanResolve(s.registrations[r].mutex, t)
    case Start(r, k) =>
      && r < |s.registrations| && CanResume(s.registrations[r].mutex, k)
      && s.registrations[r].mutex.turns[k].handle < |s.handles|
    case Settle(r, k) => IsTurn(s, r, k) && TurnAt(s, r, k).phase == InTransaction
    case CloseSettled(h) =>
      && h < |s.handles| && s.handles[h].registration < |s.registrations|
      && exists k | 0 <= k < |TurnsOf(s, h)| :: TurnsOf(s, h)[k].handle == h && TurnsOf(s, h)[k].purpose == Close && TurnsOf(s, h)[k].phase == Released
  }

  predicate IsTurn(s: State, r: nat, k: nat) {
    r < |s.registrations| && k < |s.registrations[r].mutex.turns|
  }

  function TurnAt(s: State, r: nat, k: nat): Turn
    requires IsTurn(s, r, k)
  {
    s.registrations[r].mutex.turns[k]
  }

  /** The turns on the mutex of a handle. */
  function TurnsOf(s: State, h: nat): seq<Turn>
    requires h < |s.handles| && s.handles[h].registration < |s.registrations|
  {
    s.registrations[s.handles[h].registration].mutex.turns
  }

  function Step(s: State, e: Event): State
    requires Enabled(s, e)
  {
    match e
    case Open(path) =>
      var (s', i) := Retain(s, path);
      s'.(handles := s'.handles + [Handle(i, false, false)])
    case OpenFails(path) =>
      var (s', i) := Retain(s, path);
      Release(s', i)
    case Call(h, purpose) =>
      var r := s.handles[h].registration;
      WithMutex(s, r, Chain(s.registrations[r].mutex, h, purpose))
    case TailResolves(r, t) => WithMutex(s, r, Resolve(s.registrations[r].mutex, t))
    case Start(r, k) => StartTurn(s, r, k)
    case Settle(r, k) => WithMutex(s, r, WithPhase(s.registrations[r].mutex, k, Released))
    case CloseSettled(h) =>
      if s.handles[h].released then s
      else Release(s.(handles := s.handles[h := s.handles[h].(released := true)]), s.handles[h].registration)
  }

  /** The body of the mutex callback: `close` closes; `run` throws before BEGIN once its handle is closed. */
  function StartTurn(s: State, r: nat, k: nat): State
    requires IsTurn(s, r, k) && TurnAt(s, r, k).handle < |s.handles|
  {
    var m, turn := s.registrations[r].mutex, TurnAt(s, r, k);
    if turn.purpose == Close then
      WithMutex(s, r, WithPhase(m, k, Released)).(handles := s.handles[turn.handle := s.handles[turn.handle].(closed := true)])
    else WithMutex(s, r, WithPhase(m, k, if s.handles[turn.handle].closed then Released else InTransaction))
  }

  // ---------------------------------------------------------------- what every step keeps

  function Holders(handles: seq<Handle>, r: nat): nat {
    if handles == [] then 0
    else Holders(handles[..|handles| - 1], r)
         + (if handles[|handles| - 1].registration == r && !handles[|handles| - 1].released then 1 else 0)
  }

  /** A registration counts the handles that have not released it. */
  ghost predicate Counted(s: State) {
    && (forall h | h in s.handles :: h.registration < |s.registrations|)
    && (forall r | 0 <= r < |s.registrations| :: s.registrations[r].references == Holders(s.handles, r))
  }

  /** A registration is in the map, under its path, exactly while it is referenced. */
  ghost predicate RegisteredWhileReferenced(s: State) {
    && (forall p | p in s.registered ::
          s.registered[p] < |s.registrations| && s.registrations[s.registered[p]].path == p)
    && (forall r | 0 <= r < |s.registrations| ::
          s.registrations[r].references > 0 <==>
          s.registrations[r].path in s.registered && s.registered[s.registrations[r].path] == r)
  }

  ghost predicate ReleasedAreClosed(s: State) {
    forall h | h in s.handles && h.released :: h.closed
  }

  /** A turn belongs to a handle of its own registration; it starts only after all before it were
      released; a close that was released has closed its handle; a transaction's handle is open. */
  ghost predicate TurnOk(s: State, r: nat, k: nat)
    requires IsTurn(s, r, k)
  {
    var turn := TurnAt(s, r, k);
    && turn.handle < |s.handles| && s.handles[turn.handle].registration == r
    && (turn.phase != Waiting ==> ReleasedBefore(s.registrations[r].mutex.turns, k))
    && (turn.purpose == Close && turn.phase == Released ==> s.handles[turn.handle].closed)
    && (turn.phase == InTransaction ==> turn.purpose == Work && !s.handles[turn.handle].closed)
  }

  ghost predicate TurnsOk(s: State) {
    && (forall r | 0 <= r < |s.registrations| :: ChainOk(s.registrations[r].mutex))
    && (forall r: nat, k: nat :: IsTurn(s, r, k) ==> TurnOk(s, r, k))
  }

  ghost predicate Invariant(s: State) {
    Counted(s) && RegisteredWhileReferenced(s) && ReleasedAreClosed(s) && TurnsOk(s)
  }

  lemma {:induction false} HoldersOfUpdate(handles: seq<Handle>, h: nat, updated: Handle, r: nat)
    requires h < |handles| && updated.registration == handles[h].registration
    ensures Holders(handles[h := updated], r)
            == Holders(handles, r) + (if updated.registration != r || updated.released == handles[h].released then 0
                                      else if updated.released then -1 else 1)
  {
    var n := |handles| - 1;
    if h < n {
      HoldersOfUpdate(handles[..n], h, updated, r);
      assert handles[h := updated][..n] == handles[..n][h := updated];
    } else {
      assert handles[h := updated][..n] == handles[..n];
    }
  }

  lemma HoldersOfOpened(handles: seq<Handle>, i: nat)
    ensures forall r: nat :: Holders(handles + [Handle(i, false, false)], r) == Holders(handles, r) + (if r == i then 1 else 0)
  {
    assert (handles + [Handle(i, false, false)])[..|handles|] == handles;
  }

  lemma {:induction false} HeldMeansCounted(handles: seq<Handle>, h: nat, r: nat)
    requires h < |handles| && handles[h].registration == r && !handles[h].released
    ensures Holders(handles, r) > 0
  {
    if h < |handles| - 1 {
      HeldMeansCounted(handles[..|handles| - 1], h, r);
    }
  }

  lemma {:induction false} UnusedIsUnheld(handles: seq<Handle>, r: nat)
    requires forall h | h in handles :: h.registration != r
    ensures Holders(handles, r) == 0
  {
    if handles != [] {
      var n := |handles| - 1;
      assert handles[n] in handles && forall h | h in handles[..n] :: h in handles;
      UnusedIsUnheld(handles[..n], r);
    }
  }

  /** Turns stay in order when only counts, the map and new handles change. */
  lemma SameTurnsStayOk(s: State, s': State)
    requires TurnsOk(s) && |s'.handles| >= |s.handles| && |s'.registrations| >= |s.registrations|
    requires forall r | 0 <= r < |s.registrations| :: s'.registrations[r].mutex == s.registrations[r].mutex
    requires forall r | |s.registrations| <= r < |s'.registrations| :: s'.registrations[r].mutex == FRESH_MUTEX
    requires forall h | 0 <= h < |s.handles| ::
               s'.handles[h].registration == s.handles[h].registration && s'.handles[h].closed == s.handles[h].closed
    ensures TurnsOk(s')
  {
    forall r | 0 <= r < |s'.registrations| ensures ChainOk(s'.registrations[r].mutex) {
      if r >= |s.registrations| { assert ChainOk(FRESH_MUTEX); }
    }
    forall r: nat, k: nat | IsTurn(s', r, k) ensures TurnOk(s', r, k) {
      assert IsTurn(s, r, k) && TurnOk(s, r, k);
    }
  }

  lemma RetainKeeps(s: State, path: Path)
    requires RegisteredWhileReferenced(s)
    requires forall r | 0 <= r < |s.registrations| :: s.registrations[r].references >= 0
    ensures RegisteredWhileReferenced(Retain(s, path).0)
  {
    var (s', i) := Retain(s, path);
    assert s'.registrations[i].references > 0;
  }

  lemma ReleaseKeeps(s: State, i: nat)
    requires RegisteredWhileReferenced(s) && i < |s.registrations| && s.registrations[i].references > 0
    ensures RegisteredWhileReferenced(Release(s, i))
  {
    var path := s.registrations[i].path;
    assert path in s.registered && s.registered[path] == i;
    forall r | 0 <= r < |s.registrations| && r != i && s.registrations[r].path == path
      ensures s.registrations[r].references <= 0 {}
  }

  lemma OpenKeeps(s: State, path: Path)
    requires Invariant(s)
    ensures Invariant(Step(s, Open(path)))
  {
    var s' := Step(s, Open(path));
    var i := Retain(s, path).1;
    HoldersOfOpened(s.handles, i);
    UnusedIsUnheld(s.handles, |s.registrations|);
    RetainKeeps(s, path);
    SameTurnsStayOk(s, s');
  }

  lemma OpenFailsKeeps(s: State, path: Path)
    requires Invariant(s)
    ensures Invariant(Step(s, OpenFails(path)))
    ensures Step(s, OpenFails(path)).registered == s.registered
  {
    var s' := Step(s, OpenFails(path));
    UnusedIsUnheld(s.handles, |s.registrations|);
    if path in s.registered {
      assert s' == s by { assert s'.registrations == s.registrations; }
    } else {
      SameTurnsStayOk(s, s');
    }
  }

  lemma CallKeeps(s: State, h: nat, purpose: Purpose)
    requires Invariant(s) && Enabled(s, Call(h, purpose))
    ensures Invariant(Step(s, Call(h, purpose)))
  {
    var s' := Step(s, Call(h, purpose));
    ChainKeepsOrder(s.registrations[s.handles[h].registration].mutex, h, purpose);
    assert TurnsOk(s') by {
      forall r: nat, k: nat | IsTurn(s', r, k) ensures TurnOk(s', r, k) {
        if IsTurn(s, r, k) { assert TurnOk(s, r, k); }
      }
    }
  }

  lemma TailResolvesKeeps(s: State, r0: nat, t: nat)
    requires Invariant(s) && Enabled(s, TailResolves(r0, t))
    ensures Invariant(Step(s, TailResolves(r0, t)))
  {
    var s' := Step(s, TailResolves(r0, t));
    ResolveKeepsOrder(s.registrations[r0].mutex, t);
    assert TurnsOk(s') by {
      forall r: nat, k: nat | IsTurn(s', r, k) ensures TurnOk(s', r, k) {
        assert IsTurn(s, r, k) && TurnOk(s, r, k);
      }
    }
  }

  lemma StartKeeps(s: State, r0: nat, k0: nat)
    requires Invariant(s) && Enabled(s, Start(r0, k0))
    ensures Invariant(Step(s, Start(r0, k0)))
  {
    var s' := Step(s, Start(r0, k0));
    var m := s.registrations[r0].mutex;
    assert TurnOk(s, r0, k0);
    ResumesInTurn(m, k0);
    forall phase ensures ChainOk(WithPhase(m, k0, phase)) { PhaseKeepsOrder(m, k0, phase); }
    var h := m.turns[k0].handle;
    forall r: nat ensures Holders(s'.handles, r) == Holders(s.handles, r) {
      if s'.handles != s.handles { HoldersOfUpdate(s.handles, h, s.handles[h].(closed := true), r); }
    }
    assert TurnsOk(s') by {
      forall r: nat, k: nat | IsTurn(s', r, k) ensures TurnOk(s', r, k) { StartedTurnOk(s, r0, k0, r, k); }
    }
  }

  /** A turn that starts leaves every turn in order. */
  lemma StartedTurnOk(s: State, r0: nat, k0: nat, r: nat, k: nat)
    requires TurnsOk(s) && Enabled(s, Start(r0, k0)) && IsTurn(s, r, k)
    ensures IsTurn(Step(s, Start(r0, k0)), r, k) && TurnOk(Step(s, Start(r0, k0)), r, k)
  {
    assert TurnOk(s, r0, k0) && TurnOk(s, r, k);
    ResumesInTurn(s.registrations[r0].mutex, k0);
  }

  lemma SettleKeeps(s: State, r0: nat, k0: nat)
    requires Invariant(s) && Enabled(s, Settle(r0, k0))
    ensures Invariant(Step(s, Settle(r0, k0)))
  {
    var s' := Step(s, Settle(r0, k0));
    assert TurnOk(s, r0, k0);
    PhaseKeepsOrder(s.registrations[r0].mutex, k0, Released);
    assert TurnsOk(s') by {
      forall r: nat, k: nat | IsTurn(s', r, k) ensures TurnOk(s', r, k) {
        assert IsTurn(s, r, k) && TurnOk(s, r, k);
      }
    }
  }

  lemma CloseSettledKeeps(s: State, h: nat)
    requires Invariant(s) && Enabled(s, CloseSettled(h))
    ensures Invariant(Step(s, CloseSettled(h)))
  {
    var s' := Step(s, CloseSettled(h));
    var k: nat :| k < |TurnsOf(s, h)| && TurnsOf(s, h)[k].handle == h && TurnsOf(s, h)[k].purpose == Close && TurnsOf(s, h)[k].phase == Released;
    assert IsTurn(s, s.handles[h].registration, k) && TurnOk(s, s.handles[h].registration, k);
    if !s.handles[h].released {
      var released := s.handles[h].(released := true);
      HeldMeansCounted(s.handles, h, s.handles[h].registration);
      forall r: nat ensures Holders(s'.handles, r) == Holders(s.handles, r) - (if r == released.registration then 1 else 0) {
        HoldersOfUpdate(s.handles, h, released, r);
      }
      var freed := s.(handles := s.handles[h := released]);
      ReleaseKeeps(freed, released.registration);
      SameTurnsStayOk(s, s');
    }
  }

  lemma StepKeeps(s: State, e: Event)
    requires Invariant(s) && Enabled(s, e)
    ensures Invariant(Step(s, e))
  {
    match e
    case Open(path) => OpenKeeps(s, path);
    case OpenFails(path) => OpenFailsKeeps(s, path);
    case Call(h, purpose) => CallKeeps(s, h, purpose);
    case TailResolves(r, t) => TailResolvesKeeps(s, r, t);
    case Start(r, k) => StartKeeps(s, r, k);
    case Settle(r, k) => SettleKeeps(s, r, k);
    case CloseSettled(h) => CloseSettledKeeps(s, h);
  }

  // ---------------------------------------------------------------- whole runs

  /** `s` is reached from the start by `events`, each enabled when it happens. */
  ghost predicate Reaches(events: seq<Event>, s: State) {
    if events == [] then s == INITIAL
    else
      var n := |events| - 1;
      exists before: State :: Reaches(events[..n], before) && Enabled(before, events[n]) && s == Step(before, events[n])
  }

  lemma {:induction false} EveryRunKeeps(events: seq<Event>, s: State)
    requires Reaches(events, s)
    ensures Invariant(s)
  {
    if events != [] {
      var n := |events| - 1;
      var before :| Reaches(events[..n], before) && Enabled(before, events[n]) && s == Step(before, events[n]);
      EveryRunKeeps(events[..n], before);
      StepKeeps(before, events[n]);
    }
  }

  ghost predicate Transacting(s: State, r: nat, k: nat) {
    IsTurn(s, r, k) && TurnAt(s, r, k).phase == InTransaction
  }

  /** An open handle's registration is the one its path maps to, so open handles of a path share it. */
  lemma OpenHandleIsRegistered(s: State, h: nat)
    requires Invariant(s) && h < |s.handles| && !s.handles[h].closed
    ensures var r := s.handles[h].registration;
            r < |s.registrations| && s.registrations[r].path in s.registered && s.registered[s.registrations[r].path] == r
  {
    assert s.handles[h] in s.handles;
    HeldMeansCounted(s.handles, h, s.handles[h].registration);
  }

  lemma TransactionsOfAPathCoincide(s: State, r1: nat, k1: nat, r2: nat, k2: nat)
    requires Invariant(s) && Transacting(s, r1, k1) && Transacting(s, r2, k2)
    requires s.registrations[r1].path == s.registrations[r2].path
    ensures r1 == r2 && k1 == k2
  {
    assert TurnOk(s, r1, k1) && TurnOk(s, r2, k2);
    OpenHandleIsRegistered(s, TurnAt(s, r1, k1).handle);
    OpenHandleIsRegistered(s, TurnAt(s, r2, k2).handle);
  }

  /** A turn of an open handle that can resume finds no transaction on its path. */
  lemma NoneTransactsBefore(s: State, r: nat, k: nat, r2: nat, k2: nat)
    requires Invariant(s) && Enabled(s, Start(r, k)) && !s.handles[TurnAt(s, r, k).handle].closed
    requires IsTurn(s, r2, k2) && s.registrations[r].path == s.registrations[r2].path
    ensures !Transacting(s, r2, k2)
  {
    if Transacting(s, r2, k2) {
      assert TurnOk(s, r, k) && TurnOk(s, r2, k2);
      OpenHandleIsRegistered(s, TurnAt(s, r, k).handle);
      OpenHandleIsRegistered(s, TurnAt(s, r2, k2).handle);
      ResumesInTurn(s.registrations[r].mutex, k);
    }
  }

  /** At most one transaction body per path is in its critical section, in every run, even after the
      registry entry was deleted and created again. */
  lemma OneTransactionPerPath(events: seq<Event>, s: State, r1: nat, k1: nat, r2: nat, k2: nat)
    requires Reaches(events, s) && Transacting(s, r1, k1) && Transacting(s, r2, k2)
    requires s.registrations[r1].path == s.registrations[r2].path
    ensures r1 == r2 && k1 == k2
  {
    EveryRunKeeps(events, s);
    TransactionsOfAPathCoincide(s, r1, k1, r2, k2);
  }

  /** Work queued behind a close of its own handle never enters a transaction. */
  lemma WorkBehindCloseNeverTransacts(events: seq<Event>, s: State, r: nat, j: nat, k: nat)
    requires Reaches(events, s) && IsTurn(s, r, k) && j < k
    requires TurnAt(s, r, j).purpose == Close && TurnAt(s, r, j).handle == TurnAt(s, r, k).handle
    ensures !Transacting(s, r, k)
  {
    EveryRunKeeps(events, s);
    assert TurnOk(s, r, k) && TurnOk(s, r, j);
  }

  /** Calls resume in the order they were made, each after the one before it was released. */
  lemma CallsRunInOrder(events: seq<Event>, s: State, r: nat, j: nat, k: nat)
    requires Reaches(events, s) && IsTurn(s, r, k) && j < k
    ensures TurnAt(s, r, k).phase != Waiting || CanResume(s.registrations[r].mutex, k) ==> TurnAt(s, r, j).phase == Released
  {
    EveryRunKeeps(events, s);
    assert TurnOk(s, r, k);
    if CanResume(s.registrations[r].mutex, k) { ResumesInTurn(s.registrations[r].mutex, k); }
  }

  /** No call is forgotten: once every earlier turn was released, a waiting one can resume, or a promise
      it waits for can resolve. */
  lemma NoCallIsForgotten(events: seq<Event>, s: State, r: nat, k: nat)
    requires Reaches(events, s) && IsTurn(s, r, k) && TurnAt(s, r, k).phase == Waiting
    requires forall j | 0 <= j < k :: TurnAt(s, r, j).phase == Released
    ensures Enabled(s, Start(r, k)) || exists t: nat :: Enabled(s, TailResolves(r, t))
  {
    EveryRunKeeps(events, s);
    var m := s.registrations[r].mutex;
    assert TurnOk(s, r, k);
    assert ReleasedBefore(m.turns, k) by {
      forall j | 0 <= j < k ensures m.turns[j].phase == Released { assert TurnAt(s, r, j) == m.turns[j]; }
    }
    WaitingTurnProceeds(m, k);
    if !CanResume(m, k) {
      var t: nat :| CanResolve(m, t);
      assert Enabled(s, TailResolves(r, t));
    }
  }

  /** Deleting by path never removes another registration: the one whose count reaches zero is the
      one its path maps to. */
  lemma ReleaseDeletesItsOwnEntry(s: State, h: nat)
    requires Invariant(s) && Enabled(s, CloseSettled(h)) && !s.handles[h].released
    ensures var r := s.handles[h].registration;
            var s' := Step(s, CloseSettled(h));
            forall p | p in s.registered && s.registered[p] != r :: p in s'.registered && s'.registered[p] == s.registered[p]
  {
    HeldMeansCounted(s.handles, h, s.handles[h].registration);
    assert s.handles[h] in s.handles;
  }
}
