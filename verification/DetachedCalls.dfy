// What whole calls and whole cycles of AsyncFunctionHandler do under the DETACHED
// policy, and where the resumes, results and exceptions of a run come from.
module DetachedCalls {
  import opened Runs
  import opened HandlerTypes
  import opened Pacing
  import opened DetachedProtocol
  import opened DetachedRuns

  // ------------------------------------------------- results and exceptions

  // The exception the worker holds after the actions: that of the last callback
  // that threw, unless a reset has dropped it since.
  function ErrorOf(rate: Rate, waitForTrigger: bool, acts: seq<Action>): Option<nat>
    decreases |acts|
  {
    if acts == [] then None
    else
      var front, a := acts[..|acts| - 1], acts[|acts| - 1];
      var s := Exec(Init(rate, waitForTrigger), front);
      if a.Worker? && s.worker.InCall? && a.outcome.Throws? then Some(a.outcome.error)
      else if a.Control? && s.control.ResetError? then None
      else ErrorOf(rate, waitForTrigger, front)
  }

  // The result of the last callback that returned, or zero after a reset or a
  // resume.
  function ValueOf(rate: Rate, waitForTrigger: bool, acts: seq<Action>): int
    decreases |acts|
  {
    if acts == [] then 0
    else
      var front, a := acts[..|acts| - 1], acts[|acts| - 1];
      var s := Exec(Init(rate, waitForTrigger), front);
      if a.Worker? && s.worker.InCall? && a.outcome.Returns? then a.outcome.value
      else if a.Control? && s.control.ResetFlags? then 0
      else if a.Inside? && s.holder.ByCaller? && s.holder.at.ClearValue? then 0
      else ValueOf(rate, waitForTrigger, front)
  }

  // A captured exception stays until the reset and a callback's result until the
  // next one, the reset or a resume, in every run.
  lemma {:induction false} OutcomesAreKept(rate: Rate, waitForTrigger: bool, acts: seq<Action>)
    ensures
      var slot := Exec(Init(rate, waitForTrigger), acts).slot;
      slot.error == ErrorOf(rate, waitForTrigger, acts) && slot.value == ValueOf(rate, waitForTrigger, acts)
    decreases |acts|
  {
    if acts != [] {
      var front, a := acts[..|acts| - 1], acts[|acts| - 1];
      OutcomesAreKept(rate, waitForTrigger, front);
      OutcomeStep(Exec(Init(rate, waitForTrigger), front), a);
    }
  }

  lemma WorkerOutcome(s: State, outcome: Outcome, reading: int)
    ensures
      var n := WorkerNext(s, outcome, reading).slot;
      && n.error == (if s.worker.InCall? && outcome.Throws? then Some(outcome.error) else s.slot.error)
      && n.value == (if s.worker.InCall? && outcome.Returns? then outcome.value else s.slot.value)
  {
  }

  lemma OutcomeStep(s: State, a: Action)
    ensures
      Next(s, a).slot.error == (if a.Worker? && s.worker.InCall? && a.outcome.Throws? then Some(a.outcome.error)
                                else if a.Control? && s.control.ResetError? then None
                                else s.slot.error)
    ensures
      Next(s, a).slot.value == (if a.Worker? && s.worker.InCall? && a.outcome.Returns? then a.outcome.value
                                else if a.Control? && s.control.ResetFlags? then 0
                                else if a.Inside? && s.holder.ByCaller? && s.holder.at.ClearValue? then 0
                                else s.slot.value)
  {
    if a.Worker? {
      WorkerOutcome(s, a.outcome, a.reading);
    }
  }

  // An exception is captured and no reset is under way.
  predicate HoldsError(s: State) {
    s.slot.error.Some? && !s.control.ResetLock? && !s.control.ResetFlags? && !s.control.ResetError?
  }

  lemma HoldsErrorStep(s: State, a: Action)
    requires HoldsError(s) && NoStartNoReset(a)
    ensures HoldsError(Next(s, a))
  {
    OutcomeStep(s, a);
    if a.Worker? {
      WorkerFrame(s, a.outcome, a.reading);
    }
  }

  // From the moment a callback throws until the next reset no trigger call passes
  // its exception check, in any run.
  lemma ThrowStopsTriggers(s: State, error: nat, reading: int, acts: seq<Action>, t: Tid)
    requires Inv(s) && s.worker.InCall? && !s.control.ResetLock?
    requires forall a :: a in acts ==> NoStartNoReset(a)
    ensures
      var e := Exec(Next(s, Worker(Throws(error), reading)), acts);
      e.slot.error.Some? && Next(e, CheckError(t)) == e
  {
    var n := Next(s, Worker(Throws(error), reading));
    OutcomeStep(s, Worker(Throws(error), reading));
    WorkerFrame(s, Throws(error), reading);
    forall x: State, a: Action | HoldsError(x) && NoStartNoReset(a) ensures HoldsError(Next(x, a)) {
      HoldsErrorStep(x, a);
    }
    RunKeeps(Next, (x: State) => HoldsError(x), NoStartNoReset, n, acts);
  }

  // ------------------------------------------------------------------ resumes

  // A trigger call of t is about to clear the pause, or inside doing so.
  predicate Resuming(s: State, t: Tid) {
    t in s.callers.resuming || (s.holder.ByCaller? && s.holder.tid == t && !s.holder.at.PauseHeld?)
  }

  lemma ResumeNeedsLoad(s: State, a: Action, t: Tid)
    requires Resuming(Next(s, a), t)
    ensures Resuming(s, t) || (a == LoadPause(t) && s.pause && t in s.callers.checked)
  {
    if a.Worker? {
      WorkerFrame(s, a.outcome, a.reading);
      WorkerLeaves(s, a.outcome, a.reading);
    }
  }

  lemma {:induction false} LoadedBefore(rate: Rate, waitForTrigger: bool, acts: seq<Action>, t: Tid)
    returns (before: seq<Action>, mid: seq<Action>)
    requires Resuming(Exec(Init(rate, waitForTrigger), acts), t)
    ensures acts == before + [LoadPause(t)] + mid
    ensures var s := Exec(Init(rate, waitForTrigger), before); s.pause && t in s.callers.checked
    decreases |acts|
  {
    var front, last := acts[..|acts| - 1], acts[|acts| - 1];
    var f := Exec(Init(rate, waitForTrigger), front);
    assert acts == front + [last];
    ResumeNeedsLoad(f, last, t);
    if Resuming(f, t) {
      before, mid := LoadedBefore(rate, waitForTrigger, front, t);
      mid := mid + [last];
    } else {
      before, mid := front, [];
    }
  }

  lemma ResumeIsClear(s: State, a: Action)
    ensures
      Next(s, a).resumes
      == s.resumes + (if a.Inside? && s.holder.ByCaller? && s.holder.at.ClearPause? then 1 else 0)
  {
    if a.Worker? {
      WorkerLeaves(s, a.outcome, a.reading);
    }
  }

  // In every run every resume is the work of a trigger call whose load found the
  // pause set.
  lemma {:induction false} EveryResume(rate: Rate, waitForTrigger: bool, acts: seq<Action>, i: nat)
    returns (t: Tid, before: seq<Action>, mid: seq<Action>, reading: int, after: seq<Action>)
    requires i < Exec(Init(rate, waitForTrigger), acts).resumes
    ensures acts == before + [LoadPause(t)] + mid + [Inside(reading)] + after
    ensures var l := Exec(Init(rate, waitForTrigger), before); l.pause && t in l.callers.checked
    ensures
      var c := Exec(Init(rate, waitForTrigger), before + [LoadPause(t)] + mid);
      c.holder == ByCaller(t, ClearPause) && c.resumes == i
    decreases |acts|
  {
    var front, last := acts[..|acts| - 1], acts[|acts| - 1];
    var f := Exec(Init(rate, waitForTrigger), front);
    assert acts == front + [last];
    ResumeIsClear(f, last);
    if i < f.resumes {
      t, before, mid, reading, after := EveryResume(rate, waitForTrigger, front, i);
      after := after + [last];
    } else {
      t, reading, after := f.holder.tid, last.reading, [];
      before, mid := LoadedBefore(rate, waitForTrigger, front, t);
    }
  }

  // A handler that was never paused.
  predicate Unpaused(s: State) {
    && !s.pause && s.resumes == 0 && s.callers.resuming == {} && s.callers.pausing == map[] && !s.holder.ByCaller?
  }

  lemma UnpausedStep(s: State, a: Action)
    requires Unpaused(s) && !a.StorePause?
    ensures Unpaused(Next(s, a))
  {
    if a.Worker? {
      WorkerFrame(s, a.outcome, a.reading);
      WorkerLeaves(s, a.outcome, a.reading);
    }
  }

  // Without a pause nothing but the worker's first clock reading begins a segment,
  // whatever triggers there are: no trigger ever moves previous_time_.
  lemma UnpausedRun(rate: Rate, acts: seq<Action>, next: Action)
    requires forall a :: a in acts ==> !a.StorePause?
    ensures
      var s := Exec(Init(rate, false), acts);
      && s.resumes == 0 && !s.pause && !s.holder.ByCaller?
      && (!(next.Worker? && s.worker.ReadInitial?) ==> Continues(s.log.segment, Next(s, next).log.segment))
  {
    forall x: State, a: Action | Unpaused(x) && !a.StorePause? ensures Unpaused(Next(x, a)) { UnpausedStep(x, a); }
    RunKeeps(Next, (x: State) => Unpaused(x), (a: Action) => !a.StorePause?, Init(rate, false), acts);
    SegmentsBegin(Exec(Init(rate, false), acts), next);
  }

  // The worker has read the clock for the first time.
  predicate Measuring(pc: WorkerPc) {
    pc.FirstSleep? || pc.SetAnchor? || OnGrid(pc)
  }

  predicate OneSegment(s: State) {
    && (s.control.Idle? || Starting(s.control))
    && if Measuring(s.worker) then s.log.segment.earlier == [] else s.log.calls == [] && !s.worker.Call?
  }

  lemma OneSegmentWorker(s: State, outcome: Outcome, reading: int)
    requires StopInv(s) && s.joinable && !s.stop && OneSegment(s)
    ensures OneSegment(WorkerNext(s, outcome, reading))
  {
  }

  lemma OneSegmentStep(s: State, a: Action)
    requires Inv(s) && Unpaused(s) && OneSegment(s)
    requires !a.StorePause? && !a.StopThread? && !a.ResetVariables?
    ensures OneSegment(Next(s, a))
  {
    if a.Worker? && s.joinable {
      assert !s.stop;
      OneSegmentWorker(s, a.outcome, a.reading);
    }
  }

  // Without a pause and a stop the periods given to all callbacks since the start
  // sum to the last callback time minus the worker's first clock reading.
  lemma UnpausedPeriods(rate: Rate, acts: seq<Action>)
    requires forall a :: a in acts ==> !a.StorePause? && !a.StopThread? && !a.ResetVariables?
    ensures
      var s := Exec(Init(rate, false), acts);
      s.log.calls != [] && !s.worker.Call? ==>
        && s.log.segment.jobs == s.log.calls
        && Total(s.log.calls) == s.log.calls[|s.log.calls| - 1].time - s.log.segment.base
        && s.log.calls[0].period == s.log.calls[0].time - s.log.segment.base
  {
    var ok := (a: Action) => !a.StorePause? && !a.StopThread? && !a.ResetVariables?;
    var inv := (x: State) => Inv(x) && Unpaused(x) && OneSegment(x);
    forall x: State, a: Action | inv(x) && ok(a) ensures inv(Next(x, a)) {
      StepKeepsInv(x, a);
      UnpausedStep(x, a);
      OneSegmentStep(x, a);
    }
    RunKeeps(Next, inv, ok, Init(rate, false), acts);
    PeriodsTelescope(rate, false, acts);
  }

  // ------------------------------------------------------------ whole calls

  // previous_time_ is `previous`, from which the next callback is measured.
  function From(log: Log, previous: int): Log {
    Log(Segment(previous, previous, log.calls, []), log.calls)
  }

  // trigger_async_callback that nobody interrupts.  A captured exception makes it
  // throw.  A handler that is not paused it leaves alone.  A paused one it resumes:
  // the pause is lifted, the result is zero, the next period is measured from one
  // period ago and the worker is woken.
  lemma TriggerAlone(s: State, t: Tid, reading: int)
    requires !Busy(s, t) && s.holder.Free?
    ensures
      var checked := Next(s, CheckError(t));
      var loaded := Next(checked, LoadPause(t));
      var inside := Next(Next(Next(loaded, ResumeLock(t)), Inside(reading)), Inside(reading));
      if s.slot.error.Some? then checked == s
      else if !s.pause then loaded == s
      else
        Next(Next(Next(inside, Inside(reading)), Inside(reading)), Notify(t))
        == s.(pause := false, resumes := s.resumes + 1, slot := s.slot.(value := 0),
              log := From(s.log, reading - SECOND / s.rate),
              worker := if s.worker.Asleep? then Woken(s.worker.phase) else s.worker)
  {
    if s.slot.error.None? {
      TriggerLoads(s, t);
      if s.pause {
        ResumeAlone(s, t, reading);
      }
    }
  }

  lemma TriggerLoads(s: State, t: Tid)
    requires !Busy(s, t) && s.slot.error.None?
    ensures
      Next(Next(s, CheckError(t)), LoadPause(t))
      == if s.pause then s.(callers := s.callers.(resuming := s.callers.resuming + {t})) else s
  {
    var out := s.callers;
    assert Next(s, CheckError(t)) == s.(callers := out.(checked := out.checked + {t}));
    assert out.checked + {t} - {t} == out.checked;
  }

  lemma ResumeAlone(s: State, t: Tid, reading: int)
    requires !Busy(s, t) && s.holder.Free? && s.pause
    ensures
      var loaded := s.(callers := s.callers.(resuming := s.callers.resuming + {t}));
      var inside := Next(Next(Next(loaded, ResumeLock(t)), Inside(reading)), Inside(reading));
      Next(Next(Next(inside, Inside(reading)), Inside(reading)), Notify(t))
      == s.(pause := false, resumes := s.resumes + 1, slot := s.slot.(value := 0),
            log := From(s.log, reading - SECOND / s.rate),
            worker := if s.worker.Asleep? then Woken(s.worker.phase) else s.worker)
  {
    var out := s.callers;
    var loaded := s.(callers := out.(resuming := out.resuming + {t}));
    assert out.resuming + {t} - {t} == out.resuming;
    assert Next(loaded, ResumeLock(t)) == s.(holder := ByCaller(t, ClearPause));
    var m := s.(pause := false, resumes := s.resumes + 1, slot := s.slot.(value := 0),
                holder := ByCaller(t, SetPrevious));
    assert InsideNext(InsideNext(s.(holder := ByCaller(t, ClearPause)), reading), reading) == m;
    var u := InsideNext(InsideNext(m, reading), reading);
    assert u.callers == out.(notifying := out.notifying + {t});
    assert out.notifying + {t} - {t} == out.notifying;
  }

  // pause_execution that nobody interrupts sets the flag and nothing else, and
  // does nothing when no thread runs.
  lemma PauseAlone(s: State, t: Tid)
    requires !Busy(s, t) && s.holder.Free?
    ensures
      var begun := Next(s, Pause(t));
      var e := Next(Next(Next(begun, StorePause(t)), PauseLock(t)), Inside(0));
      if s.joinable then e == s.(pause := true) else begun == s
  {
    var out := s.callers;
    if s.joinable {
      assert Next(s, Pause(t)) == s.(callers := out.(storing := out.storing + {t}));
      assert out.storing + {t} - {t} == out.storing;
      assert out.pausing[t := s.resumes] - {t} == out.pausing;
    }
  }

  // reset_variables that nobody interrupts clears the stop flag, the arguments,
  // the result and the exception; it leaves the pause alone.
  lemma ResetAlone(s: State)
    requires s.control.Idle? && s.holder.Free?
    ensures
      var locked := Next(Next(s, ResetVariables), Control);
      Next(Next(Next(locked, Control), Control), Control)
      == s.(stop := false, slot := Slot(Job(0, 0), 0, None))
  {
    var locked := Next(Next(s, ResetVariables), Control);
    assert locked == s.(holder := ByControl, control := ResetFlags(false));
  }

  // start_thread resets and spawns the worker; it does nothing while one runs.
  lemma StartAlone(s: State)
    requires s.control.Idle? && s.holder.Free?
    ensures
      var begun := Next(s, StartThread);
      if s.joinable then begun == s
      else
        Next(Next(Next(Next(Next(begun, Control), Control), Control), Control), Control)
        == s.(stop := false, slot := Slot(Job(0, 0), 0, None), joinable := true, worker := TestPause)
  {
    if !s.joinable {
      var locked := Next(Next(s, StartThread), Control);
      assert locked == s.(holder := ByControl, control := ResetFlags(true));
      var cleared := Next(Next(locked, Control), Control);
      assert cleared.control == ResetUnlock(true);
    }
  }

  // stop_thread up to its join sets the flag and wakes the worker; it does nothing
  // when no thread runs.
  lemma StopAlone(s: State)
    requires s.control.Idle? && s.holder.Free?
    ensures
      var begun := Next(s, StopThread);
      var e := Next(Next(Next(Next(begun, Control), Control), Control), Control);
      if !s.joinable then begun == s
      else e == s.(stop := true, control := Join,
                   worker := if s.worker.Asleep? then Woken(s.worker.phase) else s.worker)
  {
    if s.joinable {
      var locked := Next(Next(Next(s, StopThread), Control), Control);
      assert locked == s.(stop := true, holder := ByControl, control := StopUnlock);
    }
  }

  lemma JoinAlone(s: State)
    requires s.control.Join?
    ensures Next(s, Control) == if s.worker.Exited? then s.(joinable := false, control := Idle) else s
  {
  }

  // A spurious wakeup sends a sleeping worker back to its lock.
  lemma SpuriousWakeups(s: State)
    ensures Next(s, SpuriousWake) == if s.worker.Asleep? then s.(worker := Woken(s.worker.phase)) else s
  {
  }

  // A thread that is not there yet does nothing.
  lemma OutOfTurn(s: State, t: Tid)
    ensures t !in s.callers.notifying ==> Next(s, Notify(t)) == s
    ensures t !in s.callers.checked ==> Next(s, LoadPause(t)) == s
    ensures t !in s.callers.resuming || s.holder != Free ==> Next(s, ResumeLock(t)) == s
    ensures t !in s.callers.storing ==> Next(s, StorePause(t)) == s
    ensures t !in s.callers.pausing || s.holder != Free ==> Next(s, PauseLock(t)) == s
    ensures Busy(s, t) ==> Next(s, CheckError(t)) == s && Next(s, Pause(t)) == s
  {
  }

  // The control thread makes one call at a time.
  lemma OneControlCall(s: State)
    requires s.control != Idle
    ensures Next(s, StartThread) == Next(s, StopThread) == Next(s, ResetVariables) == s
  {
  }

  // ----------------------------------------------------------- whole cycles

  // A new worker that finds the handler unpaused reads the clock, sleeps one
  // period and anchors the grid at the time it wakes.
  lemma WorkerStarts(s: State, reading: int, late: nat)
    requires s.worker.TestPause? && !s.pause
    ensures
      var w := Worker(Returns(0), reading);
      var sleeping := Next(Next(s, w), w);
      var now := s.now + SECOND / s.rate + late;
      && sleeping == s.(log := From(s.log, reading), worker := FirstSleep(s.now + SECOND / s.rate))
      && Next(Next(Next(sleeping, Tick(SECOND / s.rate + late)), w), w)
         == s.(log := From(s.log, reading), now := now, pace := Pace(now, now, 0, 0, []), worker := TestStop)
  {
  }

  // It does not wake before that period is over.
  lemma FirstSleepLasts(s: State, reading: int, passed: nat)
    requires s.worker.FirstSleep?
    ensures
      var later := Next(s, Tick(passed));
      Next(later, Worker(Returns(0), reading))
      == if later.now < s.worker.until then later else later.(worker := SetAnchor)
  {
  }

  // One that finds it paused waits for the pause to be lifted or the stop, and
  // then goes on in the same way.
  lemma WorkerWaitsAtStart(s: State, reading: int)
    requires s.worker.TestPause? && s.pause && s.holder.Free?
    ensures
      var w := Worker(Returns(0), reading);
      if s.stop then Next(Next(Next(Next(s, w), w), w), w) == s.(worker := ReadInitial)
      else Next(Next(Next(Next(s, w), w), w), w) == s.(worker := Asleep(Initial))
  {
  }

  // The wait of either kind, from its lock on.
  lemma WaitAlone(s: State, outcome: Outcome, reading: int)
    requires (s.worker.LockWork? || s.worker.Woken?) && s.holder.Free?
    ensures
      var w := Worker(outcome, reading);
      var tested := Next(Next(s, w), w);
      if s.pause && !s.stop then Next(tested, w) == s.(worker := Asleep(s.worker.phase))
      else if s.worker.phase == Initial then Next(tested, w) == s.(worker := ReadInitial)
      else if s.stop then Next(Next(Next(tested, w), w), w) == s.(worker := TestStop)
      else Next(tested, w) == s.(holder := ByWorker, worker := ReadClock)
  {
  }

  // A cycle from its clock reading on: the callback is given the reading and the
  // time since the one before it, its outcome is kept, and the worker sleeps with
  // the lock until the next deadline; then it unlocks and notifies.
  lemma CycleAlone(s: State, outcome: Outcome, reading: int, took: nat)
    requires s.worker.ReadClock? && s.holder == ByWorker
    ensures
      var w := Worker(outcome, reading);
      var job := Job(reading, reading - s.log.segment.previous);
      var g := s.log.segment;
      var sleeping := Next(Next(Next(Next(Next(s, w), w), Tick(took)), w), w);
      && sleeping.log == Log(g.(previous := reading, jobs := g.jobs + [job]), s.log.calls + [job])
      && sleeping.slot == Slot(job, if outcome.Returns? then outcome.value else s.slot.value,
                               if outcome.Throws? then Some(outcome.error) else s.slot.error)
      && sleeping.pace.deadline == NextDeadline(s.pace.deadline, s.now + took, s.rate)
      && sleeping.pace.done == s.pace.done + 1 && sleeping.pace.starts == s.pace.starts + [s.now]
      && sleeping.pace.anchor == s.pace.anchor
      && sleeping == s.(log := sleeping.log, slot := sleeping.slot, pace := sleeping.pace, now := s.now + took,
                        worker := SleepUntil)
  {
    var w := Worker(outcome, reading);
    var calling := Next(Next(s, w), w);
    var job := Job(reading, reading - s.log.segment.previous);
    assert calling.log.calls == s.log.calls + [job] && calling.slot == s.slot.(args := job);
  }

  lemma CycleEnds(s: State, outcome: Outcome, reading: int, slept: nat)
    requires s.worker.SleepUntil? && s.holder == ByWorker && s.now + slept >= s.pace.deadline
    ensures
      var w := Worker(outcome, reading);
      Next(Next(Next(Next(s, Tick(slept)), w), w), w)
      == s.(now := s.now + slept, holder := Free, worker := TestStop)
    ensures s.now < s.pace.deadline ==> Next(s, Worker(outcome, reading)) == s
  {
  }
}
