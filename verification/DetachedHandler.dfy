// The DETACHED handler as an object: the fields of AsyncFunctionHandler that
// this policy uses, the program counters of its threads, and their history.
// Each method performs one atomic statement in place.
module DetachedHandler {
  import opened Runs
  import opened HandlerTypes
  import opened Pacing
  import opened DetachedProtocol

  class Handler {
    const execRate: Rate
    var stopAsyncCallback: bool
    var pauseThread: bool
    var slot: Slot
    var joinable: bool
    var mutexHolder: Holder
    var worker: WorkerPc
    var control: ControlPc
    var callers: Callers
    var steadyNow: int
    var pace: Pace
    var log: Log
    var resumes: nat

    ghost function View(): State
      reads this
    {
      State(execRate, stopAsyncCallback, pauseThread, slot, joinable, mutexHolder, worker, control, callers,
            steadyNow, pace, log, resumes)
    }

    ghost predicate Valid()
      reads this
    {
      Inv(View())
    }

    constructor (rate: Rate, waitUntilInitialTrigger: bool)
      ensures Valid() && View() == Init(rate, waitUntilInitialTrigger)
    {
      execRate := rate;
      stopAsyncCallback, pauseThread, joinable := false, waitUntilInitialTrigger, false;
      slot := Slot(Job(0, 0), 0, None);
      mutexHolder, worker, control := Free, Exited, Idle;
      callers := Callers({}, {}, {}, {}, map[]);
      steadyNow, resumes := 0, 0;
      pace := Pace(0, 0, 0, 0, []);
      log := Log(Segment(0, 0, [], []), []);
    }

    predicate Taken(t: Tid)
      reads this
    {
      t in callers.checked || t in callers.resuming || t in callers.notifying || t in callers.storing
      || t in callers.pausing || (mutexHolder.ByCaller? && mutexHolder.tid == t)
    }

    method NotifyWorker()
      modifies this`worker
      ensures worker == Wake(old(worker))
    {
      if worker.Asleep? {
        worker := Woken(worker.phase);
      }
    }

    // next_iteration_time += period, and the catch-up after an overrun.
    method AdvanceNextIteration()
      modifies this`pace
      ensures pace == AdvancePace(old(pace), steadyNow, execRate)
    {
      var next, missed := AdvanceDeadline(pace.deadline, steadyNow, execRate);
      pace := pace.(deadline := next, done := pace.done + 1, steps := pace.steps + 1 + missed);
    }

    // One statement of execute_detached_callback.
    method WorkerStatement(outcome: Outcome, reading: int)
      modifies this
      ensures View() == Next(old(View()), Worker(outcome, reading))
    {
      if InWait(worker) {
        WaitStatement();
      } else if Cycling(worker) {
        CycleStatement(outcome, reading);
      } else {
        OuterStatement(reading);
      }
    }

    // The statements outside the waits and the cycle.
    method OuterStatement(reading: int)
      requires !InWait(worker) && !Cycling(worker)
      modifies this
      ensures View() == OuterNext(old(View()), reading)
    {
      match worker {
        case TestPause => worker := if pauseThread then LockWork(Initial) else ReadInitial;
        case UnlockInitial => mutexHolder := Free; worker := ReadInitial;
        case ReadInitial => log := Rebase(log, reading); worker := FirstSleep(steadyNow + Period(execRate));
        case FirstSleep(until) => if until <= steadyNow { worker := SetAnchor; }
        case SetAnchor => pace := Pace(steadyNow, steadyNow, 0, 0, []); worker := TestStop;
        case TestStop => worker := if stopAsyncCallback then Exited else LockWork(Cyclic);
        case UnlockWork => mutexHolder := Free; worker := NotifyAll;
        case NotifyAll => worker := TestStop;
        case Exited =>
      }
    }

    // The statements of either wait, from its lock on.
    method WaitStatement()
      requires InWait(worker)
      modifies this
      ensures View() == WaitNext(old(View()))
    {
      match worker {
        case LockWork(ph) => if mutexHolder.Free? { mutexHolder := ByWorker; worker := TestWork(ph); }
        case TestWork(ph) =>
          if pauseThread && !stopAsyncCallback {
            worker := DozeWork(ph);
          } else {
            worker := if ph == Initial then UnlockInitial else TestStopInside;
          }
        case DozeWork(ph) => mutexHolder := Free; worker := Asleep(ph);
        case Asleep(_) =>
        case Woken(ph) => if mutexHolder.Free? { mutexHolder := ByWorker; worker := TestWork(ph); }
      }
    }

    // The statements from the inner test of the stop flag to the end of the sleep.
    method CycleStatement(outcome: Outcome, reading: int)
      requires Cycling(worker)
      modifies this
      ensures View() == CycleNext(old(View()), outcome, reading)
    {
      match worker {
        case TestStopInside => worker := if stopAsyncCallback then UnlockWork else ReadClock;
        case ReadClock =>
          var job := Job(reading, reading - log.segment.previous);
          log := Measure(log, reading);
          slot := slot.(args := job);
          worker := Call;
        case Call =>
          log := log.(calls := log.calls + [slot.args]);
          pace := pace.(starts := pace.starts + [steadyNow]);
          worker := InCall;
        case InCall =>
          match outcome {
            case Returns(v) => slot := slot.(value := v);
            case Throws(e) => slot := slot.(error := Some(e));
          }
          worker := Advance;
        case Advance => AdvanceNextIteration(); worker := SleepUntil;
        case SleepUntil => if pace.deadline <= steadyNow { worker := UnlockWork; }
      }
    }

    // One statement of the resuming trigger or pauser inside async_mtx_.
    method InsideStatement(reading: int)
      modifies this
      ensures View() == Next(old(View()), Inside(reading))
    {
      if mutexHolder.ByCaller? {
        var t := mutexHolder.tid;
        match mutexHolder.at {
          case ClearPause => pauseThread := false; resumes := resumes + 1; mutexHolder := ByCaller(t, ClearValue);
          case ClearValue => slot := slot.(value := 0); mutexHolder := ByCaller(t, SetPrevious);
          case SetPrevious =>
            log := Rebase(log, reading - Period(execRate));
            mutexHolder := ByCaller(t, UnlockResume);
          case UnlockResume =>
            mutexHolder := Free;
            callers := callers.(notifying := callers.notifying + {t});
          case PauseHeld(_) => mutexHolder := Free;
        }
      }
    }

    // One statement of start_thread, stop_thread or reset_variables.
    method ControlStatement()
      modifies this
      ensures View() == Next(old(View()), Control)
    {
      match control {
        case Idle =>
        case StopStore => stopAsyncCallback := true; control := StopLock;
        case StopLock => if mutexHolder.Free? { mutexHolder := ByControl; control := StopUnlock; }
        case StopUnlock => mutexHolder := Free; control := StopNotify;
        case StopNotify => NotifyWorker(); control := Join;
        case Join => if worker == Exited { joinable := false; control := Idle; }
        case ResetLock(b) => if mutexHolder.Free? { mutexHolder := ByControl; control := ResetFlags(b); }
        case ResetFlags(b) =>
          stopAsyncCallback := false;
          slot := slot.(args := Job(0, 0), value := 0);
          control := ResetError(b);
        case ResetError(b) => slot := slot.(error := None); control := ResetUnlock(b);
        case ResetUnlock(b) => mutexHolder := Free; control := if b then Spawn else Idle;
        case Spawn => joinable := true; worker := TestPause; control := Idle;
      }
    }

    // One statement of trigger_async_callback outside the mutex.
    method TriggerStatement(a: Action)
      requires a.CheckError? || a.LoadPause? || a.ResumeLock? || a.Notify?
      modifies this
      ensures View() == Next(old(View()), a)
    {
      var t := a.tid;
      if a.CheckError? {
        if !Taken(t) && slot.error.None? {
          callers := callers.(checked := callers.checked + {t});
        }
      } else if a.LoadPause? {
        if t in callers.checked {
          callers := callers.(checked := callers.checked - {t});
          if pauseThread {
            callers := callers.(resuming := callers.resuming + {t});
          }
        }
      } else if a.ResumeLock? {
        if t in callers.resuming && mutexHolder.Free? {
          callers := callers.(resuming := callers.resuming - {t});
          mutexHolder := ByCaller(t, ClearPause);
        }
      } else if t in callers.notifying {
        callers := callers.(notifying := callers.notifying - {t});
        NotifyWorker();
      }
    }

    // One statement of pause_execution outside the mutex.
    method PauseStatement(a: Action)
      requires a.Pause? || a.StorePause? || a.PauseLock?
      modifies this
      ensures View() == Next(old(View()), a)
    {
      var t := a.tid;
      if a.Pause? {
        if !Taken(t) && joinable {
          callers := callers.(storing := callers.storing + {t});
        }
      } else if a.StorePause? {
        if t in callers.storing {
          callers := callers.(storing := callers.storing - {t}, pausing := callers.pausing[t := resumes]);
          pauseThread := true;
        }
      } else if t in callers.pausing && mutexHolder.Free? {
        mutexHolder := ByCaller(t, PauseHeld(callers.pausing[t]));
        callers := callers.(pausing := callers.pausing - {t});
      }
    }

    // The control thread enters start_thread, stop_thread or reset_variables.
    method Begin(a: Action)
      requires a.StartThread? || a.StopThread? || a.ResetVariables?
      modifies this
      ensures View() == Next(old(View()), a)
    {
      if control == Idle {
        if a.ResetVariables? {
          control := ResetLock(false);
        } else if a.StartThread? {
          control := if joinable then Idle else ResetLock(true);
        } else {
          control := if joinable then StopStore else Idle;
        }
      }
    }

    method Perform(a: Action)
      requires Valid()
      modifies this
      ensures Valid() && View() == Next(old(View()), a)
    {
      StepKeepsInv(View(), a);
      match a {
        case Tick(d) => steadyNow := steadyNow + d;
        case Worker(outcome, reading) => WorkerStatement(outcome, reading);
        case SpuriousWake => NotifyWorker();
        case Inside(reading) => InsideStatement(reading);
        case Control => ControlStatement();
        case StartThread => Begin(a);
        case StopThread => Begin(a);
        case ResetVariables => Begin(a);
        case CheckError(_) => TriggerStatement(a);
        case LoadPause(_) => TriggerStatement(a);
        case ResumeLock(_) => TriggerStatement(a);
        case Notify(_) => TriggerStatement(a);
        case _ => PauseStatement(a);
      }
    }

    // Any schedule performed on the object is a run of the protocol.
    method Schedule(acts: seq<Action>)
      requires Valid()
      modifies this
      ensures Valid() && View() == Exec(old(View()), acts)
    {
      for i := 0 to |acts|
        invariant Valid() && View() == Exec(old(View()), acts[..i])
      {
        Perform(acts[i]);
        assert acts[..i + 1][..i] == acts[..i];
      }
      assert acts[..|acts|] == acts;
    }
  }
}
