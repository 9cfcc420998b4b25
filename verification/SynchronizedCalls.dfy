// What whole calls and whole cycles of AsyncFunctionHandler do under the
// SYNCHRONIZED policy, and where the arguments, results and exceptions of a run
// come from.
module SynchronizedCalls {
  import opened Runs
  import opened HandlerTypes
  import opened SynchronizedProtocol
  import opened SynchronizedRuns

  // ------------------------------------------------------------ every run

  // The exception the worker holds after the actions: that of the last callback
  // that threw, unless a reset has dropped it since.
  function ErrorOf(acts: seq<Action>): Option<nat>
    decreases |acts|
  {
    if acts == [] then None
    else
      var front, a := acts[..|acts| - 1], acts[|acts| - 1];
      var s := Exec(Init(), front);
      if a.Worker? && s.worker.InCall? && a.outcome.Throws? then Some(a.outcome.error)
      else if a.Control? && s.control.ResetError? then None
      else ErrorOf(front)
  }

  // The result of the last callback that returned, or zero after a reset.
  function ValueOf(acts: seq<Action>): int
    decreases |acts|
  {
    if acts == [] then 0
    else
      var front, a := acts[..|acts| - 1], acts[|acts| - 1];
      var s := Exec(Init(), front);
      if a.Worker? && s.worker.InCall? && a.outcome.Returns? then a.outcome.value
      else if a.Control? && s.control.ResetFlags? then 0
      else ValueOf(front)
  }

  // A captured exception stays until the reset and a callback's result until the
  // next one, in every run.
  lemma {:induction false} OutcomesAreKept(acts: seq<Action>)
    ensures var s := Exec(Init(), acts); s.error == ErrorOf(acts) && s.value == ValueOf(acts)
    decreases |acts|
  {
    if acts != [] {
      var front, a := acts[..|acts| - 1], acts[|acts| - 1];
      OutcomesAreKept(front);
      OutcomeStep(Exec(Init(), front), a);
    }
  }

  lemma OutcomeStep(s: State, a: Action)
    ensures
      Next(s, a).error == (if a.Worker? && s.worker.InCall? && a.outcome.Throws? then Some(a.outcome.error)
                           else if a.Control? && s.control.ResetError? then None
                           else s.error)
    ensures
      Next(s, a).value == (if a.Worker? && s.worker.InCall? && a.outcome.Returns? then a.outcome.value
                           else if a.Control? && s.control.ResetFlags? then 0
                           else s.value)
  {
    if a.Worker? {
      WorkerOutcome(s, a.outcome);
    }
  }

  lemma WorkerOutcome(s: State, outcome: Outcome)
    ensures
      var n := WorkerNext(s, outcome);
      && n.error == (if s.worker.InCall? && outcome.Throws? then Some(outcome.error) else s.error)
      && n.value == (if s.worker.InCall? && outcome.Returns? then outcome.value else s.value)
  {
  }

  // An exception is captured and no reset is under way.
  predicate HoldsError(s: State) {
    s.error.Some? && !s.control.ResetLock? && !s.control.ResetFlags? && !s.control.ResetError?
  }

  lemma HoldsErrorStep(s: State, a: Action)
    requires HoldsError(s) && NoStartNoReset(a)
    ensures HoldsError(Next(s, a))
  {
    OutcomeStep(s, a);
    if a.Worker? {
      WorkerLeaves(s, a.outcome);
    }
  }

  lemma HoldsErrorRun(s: State, acts: seq<Action>)
    requires HoldsError(s)
    requires forall a :: a in acts ==> NoStartNoReset(a)
    ensures HoldsError(Exec(s, acts))
  {
    forall x: State, a: Action | HoldsError(x) && NoStartNoReset(a) ensures HoldsError(Next(x, a)) {
      HoldsErrorStep(x, a);
    }
    RunKeeps(Next, (x: State) => HoldsError(x), NoStartNoReset, s, acts);
  }

  lemma ThrowIsHeld(s: State, error: nat)
    requires WorkerInv(s) && s.worker.InCall? && !s.control.ResetLock?
    ensures
      var n := Next(s, Worker(Throws(error)));
      && n == s.(error := Some(error), worker := ClearFlag(true))
      && HoldsError(n) && n.error == Some(error)
  {
  }

  // From the moment a callback throws until the next reset a thread gets at most
  // one more trigger accepted, and none if its call has yet to pass the exception
  // check; no later call passes that check.
  lemma ThrowStopsTriggers(before: seq<Action>, error: nat, after: seq<Action>, t: Tid)
    requires var s := Exec(Init(), before); s.worker.InCall? && !s.control.ResetLock?
    requires forall a :: a in after ==> NoStartNoReset(a)
    ensures
      var s := Exec(Init(), before);
      var e := Exec(Next(s, Worker(Throws(error))), after);
      && AcceptedBy(e.log.accepted, t) <= AcceptedBy(s.log.accepted, t) + (if PastCheck(s, t) then 1 else 0)
      && e.error.Some? && Next(e, CheckError(t)) == e
  {
    var s := Exec(Init(), before);
    RunKeepsInv(Init(), before);
    ThrowIsHeld(s, error);
    HoldsErrorRun(Next(s, Worker(Throws(error))), after);
    RunSnoc(Next, Init(), before, Worker(Throws(error)));
    AtMostOneMoreAfterThrow(before + [Worker(Throws(error))], after, t);
  }

  // Every trigger accepted, and every one on its way, is a call that was made.
  ghost predicate Called(s: State, acts: seq<Action>) {
    && (forall e :: e in s.log.accepted ==> TryLock(e.tid, e.job, true) in acts)
    && (s.holder.ByCaller? && (s.holder.at.TestFlag? || s.holder.at.SetFlag?) ==>
          TryLock(s.holder.tid, s.holder.at.job, true) in acts)
  }

  lemma CalledMore(s: State, acts: seq<Action>, a: Action)
    requires Called(s, acts)
    ensures Called(s, acts + [a])
  {
    assert forall x :: x in acts ==> x in acts + [a];
  }

  lemma CalledInside(s: State, acts: seq<Action>, agrees: bool)
    requires Called(s, acts) && s.holder.ByCaller?
    ensures Called(InsideNext(s, agrees), acts)
  {
  }

  lemma CalledStep(s: State, acts: seq<Action>, a: Action)
    requires Called(s, acts)
    ensures Called(Next(s, a), acts + [a])
  {
    CalledMore(s, acts, a);
    if a.Inside? {
      if s.holder.ByCaller? {
        CalledInside(s, acts + [a], a.agrees);
      }
    } else if a.Worker? {
      WorkerLeaves(s, a.outcome);
      WorkerKeepsError(s, a.outcome);
    } else {
      assert a in acts + [a];
    }
  }

  lemma {:induction false} TriggersWereCalls(acts: seq<Action>)
    ensures Called(Exec(Init(), acts), acts)
    decreases |acts|
  {
    if acts != [] {
      var front := acts[..|acts| - 1];
      TriggersWereCalls(front);
      CalledStep(Exec(Init(), front), front, acts[|acts| - 1]);
      assert front + [acts[|acts| - 1]] == acts;
    }
  }

  // In every run the callback is only ever given the time and the period of a
  // trigger call that was made and won its lock.
  lemma CallsWereTriggered(acts: seq<Action>)
    ensures forall job :: job in Exec(Init(), acts).log.calls ==> exists t :: TryLock(t, job, true) in acts
  {
    var log := Exec(Init(), acts).log;
    TriggersWereCalls(acts);
    ExactlyOnce(acts);
    forall job | job in log.calls ensures exists t :: TryLock(t, job, true) in acts {
      var e := WhoseJob(log.accepted, log.fates, job, log.calls);
      assert TryLock(e.tid, e.job, true) in acts;
    }
  }

  lemma WhoseJob(accepted: seq<Trigger>, fates: seq<Fate>, job: Job, calls: seq<Job>) returns (e: Trigger)
    requires |fates| <= |accepted| && job in calls
    requires || calls == Executed(accepted, fates)
             || (|fates| < |accepted| && calls == Executed(accepted, fates) + [accepted[|fates|].job])
    ensures e in accepted && e.job == job
  {
    if job in Executed(accepted, fates) {
      e := ExecutedJob(accepted, fates, job);
    } else {
      e := accepted[|fates|];
    }
  }

  lemma {:induction false} ExecutedJob(accepted: seq<Trigger>, fates: seq<Fate>, job: Job) returns (e: Trigger)
    requires |fates| <= |accepted| && job in Executed(accepted, fates)
    ensures e in accepted && e.job == job
    decreases |fates|
  {
    var n := |fates| - 1;
    if job in Executed(accepted, fates[..n]) {
      e := ExecutedJob(accepted, fates[..n], job);
    } else {
      e := accepted[n];
    }
  }

  // ------------------------------------------------------------ whole calls

  // trigger_async_callback that nobody interrupts.  A captured exception or a
  // thread that is not running makes it throw.  Otherwise the trigger is accepted,
  // with its arguments, and the worker woken, exactly when none is in progress and
  // the predicate agrees; if not, the call changes nothing.
  lemma TriggerAlone(s: State, t: Tid, job: Job, agrees: bool)
    requires !Busy(s, t) && s.holder.Free?
    ensures
      var checked := Next(s, CheckError(t));
      var ready := Next(checked, CheckRunning(t));
      var tested := Next(Next(ready, TryLock(t, job, true)), Inside(agrees));
      if s.error.Some? then checked == s
      else if !s.joinable then ready == s
      else if s.trigger || !agrees then Next(tested, Inside(agrees)) == s
      else
        Next(Next(Next(Next(tested, Inside(agrees)), Inside(agrees)), Inside(agrees)), Notify(t))
        == s.(trigger := true, args := job, worker := if s.worker.Asleep? then Woken else s.worker,
              log := s.log.(accepted := s.log.accepted + [Trigger(t, job)]))
  {
    if s.error.None? && s.joinable {
      TriggerLocked(s, t, job, agrees);
    }
  }

  lemma TriggerLocked(s: State, t: Tid, job: Job, agrees: bool)
    requires !Busy(s, t) && s.holder.Free? && s.error.None? && s.joinable
    ensures
      var locked := Next(Next(Next(s, CheckError(t)), CheckRunning(t)), TryLock(t, job, true));
      locked == s.(holder := ByCaller(t, TestFlag(job)))
    ensures
      var l := s.(holder := ByCaller(t, TestFlag(job)));
      if s.trigger || !agrees then InsideNext(InsideNext(l, agrees), agrees) == s
      else
        Next(InsideNext(InsideNext(InsideNext(InsideNext(l, agrees), agrees), agrees), agrees), Notify(t))
        == s.(trigger := true, args := job, worker := if s.worker.Asleep? then Woken else s.worker,
              log := s.log.(accepted := s.log.accepted + [Trigger(t, job)]))
  {
    var out := s.triggers;
    assert Next(s, CheckError(t)) == s.(triggers := out.(checked := out.checked + {t}));
    assert out.(checked := out.checked + {t} - {t}) == out;
    var l := s.(holder := ByCaller(t, TestFlag(job)));
    if !s.trigger && agrees {
      var e := InsideNext(InsideNext(InsideNext(InsideNext(l, agrees), agrees), agrees), agrees);
      assert e.triggers == out.(notifying := out.notifying + {t});
      assert out.notifying + {t} - {t} == out.notifying;
    }
  }

  // A trigger call whose try_lock fails changes nothing.
  lemma TriggerLosesLock(s: State, t: Tid, job: Job, won: bool)
    requires !Busy(s, t) && s.error.None? && s.joinable && (!won || !s.holder.Free?)
    ensures Next(Next(Next(s, CheckError(t)), CheckRunning(t)), TryLock(t, job, won)) == s
  {
    var out := s.triggers;
    assert Next(s, CheckError(t)) == s.(triggers := out.(checked := out.checked + {t}));
    assert out.(checked := out.checked + {t} - {t}) == out;
    assert out.(ready := out.ready + {t} - {t}) == out;
  }

  // wait_for_trigger_cycle_to_finish that nobody interrupts returns at once when
  // no trigger is in progress, or when the thread is not running, and otherwise
  // falls asleep.
  lemma WaitAlone(s: State, t: Tid)
    requires !Busy(s, t) && s.holder.Free?
    ensures
      var begun := Next(s, Wait(t));
      var e := Next(Next(Next(begun, WaitLock(t)), Inside(true)), Inside(true));
      if !s.joinable then begun == s
      else if !s.trigger then e == s
      else e == s.(waits := s.waits.(asleep := s.waits.asleep[t := |s.log.accepted|]))
  {
    var m := s.waits.locking;
    assert m[t := |s.log.accepted|] - {t} == m;
  }

  // reset_variables that nobody interrupts clears both flags, the arguments, the
  // result and the exception, and drops the pending trigger.
  lemma ResetAlone(s: State)
    requires s.control.Idle? && s.holder.Free?
    ensures
      var locked := Next(Next(s, ResetVariables), Control);
      Next(Next(Next(locked, Control), Control), Control)
      == s.(stop := false, trigger := false, args := Job(0, 0), value := 0, error := None,
            log := if s.trigger then s.log.(fates := s.log.fates + [Cleared]) else s.log)
  {
    var locked := Next(Next(s, ResetVariables), Control);
    assert locked == s.(holder := ByControl, control := ResetFlags(false));
  }

  // start_thread resets and spawns the worker; it does nothing while one runs.
  lemma StartAlone(s: State)
    requires s.control.Idle? && s.holder.Free?
    ensures
      var begun := Next(s, StartThread);
      if s.joinable then begun == s
      else
        Next(Next(Next(Next(Next(begun, Control), Control), Control), Control), Control)
        == s.(stop := false, trigger := false, args := Job(0, 0), value := 0, error := None, joinable := true,
              worker := TestStop, log := if s.trigger then s.log.(fates := s.log.fates + [Cleared]) else s.log)
  {
    if !s.joinable {
      var locked := Next(Next(s, StartThread), Control);
      assert locked == s.(holder := ByControl, control := ResetFlags(true));
      var cleared := Next(Next(locked, Control), Control);
      assert cleared.control == ResetUnlock(true);
    }
  }

  // stop_thread up to its join sets the flag and wakes the worker; the join ends
  // once the worker has exited; it does nothing when no thread runs.
  lemma StopAlone(s: State)
    requires s.control.Idle? && s.holder.Free?
    ensures
      var begun := Next(s, StopThread);
      var e := Next(Next(Next(Next(begun, Control), Control), Control), Control);
      if !s.joinable then begun == s
      else e == s.(stop := true, control := Join, worker := if s.worker.Asleep? then Woken else s.worker)
  {
    if s.joinable {
      var locked := Next(Next(Next(s, StopThread), Control), Control);
      assert locked == s.(stop := true, holder := ByControl, control := StopUnlock);
    }
  }

  lemma JoinAlone(s: State)
    requires s.control.Join?
    ensures Next(s, Control) == if s.worker.Exited? then s.(joinable := false, control := Idle) else s
  {
  }

  // A spurious wakeup sends a sleeper, and nobody else, back to its lock.
  lemma SpuriousWakeups(s: State, t: Tid)
    ensures Next(s, SpuriousWake) == if s.worker.Asleep? then s.(worker := Woken) else s
    ensures
      Next(s, SpuriousWakeWaiter(t))
      == if t in s.waits.asleep
         then s.(waits := Waits(s.waits.locking[t := s.waits.asleep[t]], s.waits.asleep - {t})) else s
  {
  }

  // A thread that is not there yet does nothing: no notify that is not owed, no
  // lock before its checks, no second call inside the first.
  lemma OutOfTurn(s: State, t: Tid, job: Job, won: bool)
    ensures t !in s.triggers.notifying ==> Next(s, Notify(t)) == s
    ensures t !in s.triggers.checked ==> Next(s, CheckRunning(t)) == s
    ensures t !in s.triggers.ready ==> Next(s, TryLock(t, job, won)) == s
    ensures t !in s.waits.locking || s.holder != Free ==> Next(s, WaitLock(t)) == s
    ensures Busy(s, t) ==> Next(s, CheckError(t)) == s && Next(s, Wait(t)) == s
  {
  }

  // The control thread makes one call at a time.
  lemma OneControlCall(s: State)
    requires s.control != Idle
    ensures Next(s, StartThread) == Next(s, StopThread) == Next(s, ResetVariables) == s
  {
  }

  // ----------------------------------------------------------- whole cycles

  // What the worker does from its lock to the end of its cycle with a trigger
  // pending and no stop: it calls back with the stored arguments, keeps the
  // outcome, clears the trigger and hands every sleeping waiter a wakeup.
  lemma CycleAlone(s: State, outcome: Outcome)
    requires s.worker.LockWork? && s.holder.Free? && s.trigger && !s.stop
    ensures
      var w := Worker(outcome);
      var called := Next(Next(Next(Next(s, w), w), w), w);
      Next(Next(Next(Next(called, w), w), w), w)
      == s.(trigger := false, worker := TestStop, waits := Waits(s.waits.locking + s.waits.asleep, map[]),
            log := s.log.(calls := s.log.calls + [s.args], fates := s.log.fates + [Ran]),
            value := if outcome.Returns? then outcome.value else s.value,
            error := if outcome.Throws? then Some(outcome.error) else s.error)
  {
    var w := Worker(outcome);
    var called := Next(Next(Next(Next(s, w), w), w), w);
    assert called == s.(holder := ByWorker, worker := InCall, log := s.log.(calls := s.log.calls + [s.args]));
    CycleEnds(called, outcome);
  }

  lemma CycleEnds(s: State, outcome: Outcome)
    requires s.worker.InCall? && s.holder == ByWorker && s.trigger
    ensures
      var w := Worker(outcome);
      Next(Next(Next(Next(s, w), w), w), w)
      == s.(trigger := false, worker := TestStop, waits := Waits(s.waits.locking + s.waits.asleep, map[]),
            holder := Free, log := s.log.(fates := s.log.fates + [Ran]),
            value := if outcome.Returns? then outcome.value else s.value,
            error := if outcome.Throws? then Some(outcome.error) else s.error)
  {
    var w := Worker(outcome);
    var kept := Next(s, w);
    assert kept == s.(worker := ClearFlag(true), value := if outcome.Returns? then outcome.value else s.value,
                      error := if outcome.Throws? then Some(outcome.error) else s.error);
  }

  // With nothing to do it goes to sleep.
  lemma CycleSleeps(s: State, outcome: Outcome)
    requires s.worker.LockWork? && s.holder.Free? && !s.trigger && !s.stop
    ensures var w := Worker(outcome); Next(Next(Next(s, w), w), w) == s.(worker := Asleep)
  {
  }

  // With the stop flag set it skips the callback, drops a pending trigger, wakes
  // the waiters and exits.
  lemma CycleStops(s: State, outcome: Outcome)
    requires s.worker.LockWork? && s.holder.Free? && s.stop
    ensures
      var w := Worker(outcome);
      var skipped := Next(Next(Next(s, w), w), w);
      Next(Next(Next(Next(skipped, w), w), w), w)
      == s.(trigger := false, worker := Exited, waits := Waits(s.waits.locking + s.waits.asleep, map[]),
            log := if s.trigger then s.log.(fates := s.log.fates + [Skipped]) else s.log)
  {
    var w := Worker(outcome);
    var skipped := Next(Next(Next(s, w), w), w);
    assert skipped == s.(holder := ByWorker, worker := ClearFlag(false));
  }
}
