/** `NodeProcessExecution`: one child process, its stop and its completion. */
module ProcessRunner {
  import opened Options
  import opened HostMessages

  /** What `child.kill()` does. */
  datatype Kill = KillSent | KillRefused | KillThrows

  datatype Happening =
    | ChildError
    | ChildClosed(exitCode: Option<int>, signal: Option<int>)
    | StdinFailed
    | StopCalled(kill: Kill)

  datatype RunOutcome = RunCompleted(process: ProcessFact) | RunRejected

  datatype StopPromise = StopOpen | StopResolved | StopRefused

  // ---------------------------------------------------------------- what a history amounts to

  predicate Ends(h: Happening) {
    h.ChildError? || h.ChildClosed?
  }

  /** The first stop call, if any: later ones return its promise. */
  function FirstStop(h: seq<Happening>): Option<Kill> {
    if h == [] then None
    else match FirstStop(h[..|h| - 1])
         case Some(k) => Some(k)
         case None => if h[|h| - 1].StopCalled? then Some(h[|h| - 1].kill) else None
  }

  /** How the process counts as ended when it closes after `before`. */
  function ClosedAfter(before: seq<Happening>, exitCode: Option<int>, signal: Option<int>): RunOutcome {
    if FirstStop(before) == Some(KillSent) then RunCompleted(Stopped)
    else if StdinFailed in before then RunRejected
    else if exitCode.Some? && exitCode.value >= 0 then RunCompleted(Exited(exitCode.value))
    else if signal.Some? then RunCompleted(Signaled(signal.value))
    else RunRejected
  }

  /** The completion of a whole history: decided by the first event that ends it. */
  function Verdict(h: seq<Happening>): Option<RunOutcome> {
    if h == [] then None
    else
      var before, last := h[..|h| - 1], h[|h| - 1];
      match Verdict(before)
      case Some(r) => Some(r)
      case None =>
        match last
        case ChildError => Some(RunRejected)
        case ChildClosed(exitCode, signal) => Some(ClosedAfter(before, exitCode, signal))
        case _ => None
  }

  /** What became of the promise that `stop` keeps; a stop after the end keeps none. */
  function StopState(h: seq<Happening>): Option<StopPromise> {
    if h == [] then None
    else
      var before, last := h[..|h| - 1], h[|h| - 1];
      match StopState(before)
      case Some(StopOpen) =>
        if last.ChildError? then Some(StopPromise.StopRefused) else if last.ChildClosed? then Some(StopResolved) else Some(StopOpen)
      case Some(settled) => Some(settled)
      case None =>
        if last.StopCalled? && Verdict(before).None? then Some(if last.kill == KillSent then StopOpen else StopPromise.StopRefused)
        else None
  }

  /** What one more call of `stop` makes of a history that has not ended. */
  lemma OneMoreStop(h: seq<Happening>, kill: Kill)
    requires Verdict(h).None?
    ensures var h' := h + [StopCalled(kill)];
            && Verdict(h') == None && (StdinFailed in h' <==> StdinFailed in h)
            && FirstStop(h') == (if FirstStop(h).Some? then FirstStop(h) else Some(kill))
            && StopState(h') == (if StopState(h).Some? then StopState(h)
                                 else Some(if kill == KillSent then StopOpen else StopPromise.StopRefused))
  {
    assert (h + [StopCalled(kill)])[..|h|] == h;
  }

  /** A first stop is in the history. */
  lemma {:induction false} FirstStopIsThere(h: seq<Happening>)
    requires FirstStop(h).Some?
    ensures exists i: nat :: i < |h| && h[i] == StopCalled(FirstStop(h).value)
  {
    var n := |h| - 1;
    if FirstStop(h[..n]).Some? {
      FirstStopIsThere(h[..n]);
      var i: nat :| i < n && h[..n][i] == StopCalled(FirstStop(h[..n]).value);
      assert h[i] == StopCalled(FirstStop(h).value);
    } else {
      assert h[n] == StopCalled(FirstStop(h).value);
    }
  }

  /** The process counts as stopped exactly when it closed, before any other end, after a first stop
      call whose kill was delivered. */
  lemma {:induction false} StoppedIff(h: seq<Happening>)
    ensures Verdict(h) == Some(RunCompleted(Stopped)) <==>
            exists k | 0 <= k < |h| ::
              h[k].ChildClosed? && (forall i | 0 <= i < k :: !Ends(h[i])) && FirstStop(h[..k]) == Some(KillSent)
    ensures Verdict(h).None? <==> forall i | 0 <= i < |h| :: !Ends(h[i])
  {
    if h != [] {
      var n := |h| - 1;
      StoppedIff(h[..n]);
      assert forall k | 0 <= k < n :: h[..n][k] == h[k] && h[..n][..k] == h[..k];
      if Verdict(h[..n]).None? {
        assert forall i | 0 <= i < n :: !Ends(h[i]);
        if h[n].ChildClosed? && FirstStop(h[..n]) == Some(KillSent) {
          assert Verdict(h) == Some(RunCompleted(Stopped));
        }
      }
    }
  }

  // ---------------------------------------------------------------- the object

  class NodeProcessExecution {
    var settled: bool
    var stopRequested: bool
    var stopPromise: Option<StopPromise>
    var stdinError: bool
    var completion: Option<RunOutcome>
    ghost var kills: nat
    ghost var history: seq<Happening>

    /** The fields are what the history says they are, and the child was killed at most once. */
    ghost predicate Valid()
      reads this
    {
      && completion == Verdict(history)
      && (settled <==> completion.Some?)
      && stopPromise == StopState(history)
      && kills <= 1 && (kills == 1 <==> stopPromise.Some?)
      && (!settled ==>
            && stdinError == (StdinFailed in history)
            && (stopPromise.Some? <==> FirstStop(history).Some?)
            && (stopRequested <==> FirstStop(history) == Some(KillSent)))
      && (stopPromise == Some(StopOpen) ==> stopRequested && !settled)
    }

    constructor ()
      ensures Valid() && history == [] && kills == 0
    {
      settled, stopRequested, stopPromise, stdinError, completion := false, false, None, false, None;
      kills, history := 0, [];
    }

    method OnStdinError()
      requires Valid()
      modifies this
      ensures Valid() && history == old(history) + [StdinFailed]
    {
      assert (history + [StdinFailed])[..|history|] == history;
      stdinError := true;
      history := history + [StdinFailed];
    }

    method OnError()
      requires Valid()
      modifies this
      ensures Valid() && history == old(history) + [ChildError]
      ensures old(stopPromise) == Some(StopOpen) ==> stopPromise == Some(StopRefused)
    {
      assert (history + [ChildError])[..|history|] == history;
      history := history + [ChildError];
      if settled { return; }
      settled := true;
      if stopPromise == Some(StopOpen) { stopPromise := Some(StopRefused); }
      completion := Some(RunRejected);
    }

    method OnClose(exitCode: Option<int>, signal: Option<int>)
      requires Valid()
      modifies this
      ensures Valid() && history == old(history) + [ChildClosed(exitCode, signal)]
      ensures old(stopPromise) == Some(StopOpen) ==> stopPromise == Some(StopResolved)
    {
      assert (history + [ChildClosed(exitCode, signal)])[..|history|] == history;
      history := history + [ChildClosed(exitCode, signal)];
      if settled { return; }
      settled := true;
      if stopRequested {
        if stopPromise == Some(StopOpen) { stopPromise := Some(StopResolved); }
        completion := Some(RunCompleted(Stopped));
        return;
      }
      if stdinError {
        completion := Some(RunRejected);
        return;
      }
      if exitCode.Some? && exitCode.value >= 0 {
        completion := Some(RunCompleted(Exited(exitCode.value)));
        return;
      }
      if signal.Some? {
        completion := Some(RunCompleted(Signaled(signal.value)));
        return;
      }
      completion := Some(RunRejected);
    }

    /** Only the first stop of a running child kills it; `kill` is what that does. */
    method Stop(kill: Kill) returns (promise: StopPromise)
      requires Valid()
      modifies this
      ensures Valid() && history == old(history) + [StopCalled(kill)]
      ensures promise == if old(stopPromise).Some? then old(stopPromise).value
                         else if old(settled) then StopResolved
                         else if kill == KillSent then StopOpen else StopRefused
    {
      if stopPromise.Some? || settled {
        promise := if stopPromise.Some? then stopPromise.value else StopResolved;
        assert (history + [StopCalled(kill)])[..|history|] == history;
        history := history + [StopCalled(kill)];
        return;
      }
      promise := KillChild(kill);
    }

    /** The first stop of a running child. */
    method KillChild(kill: Kill) returns (promise: StopPromise)
      requires Valid() && stopPromise.None? && !settled
      modifies this
      ensures Valid() && history == old(history) + [StopCalled(kill)]
      ensures promise == if kill == KillSent then StopOpen else StopRefused
    {
      OneMoreStop(history, kill);
      history := history + [StopCalled(kill)];
      stopRequested := true;
      kills := kills + 1;
      if kill != KillSent {
        stopRequested := false;
        stopPromise := Some(StopRefused);
        return StopRefused;
      }
      stopPromise := Some(StopOpen);
      return StopOpen;
    }
  }
}
