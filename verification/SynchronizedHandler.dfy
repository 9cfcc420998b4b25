// The SYNCHRONIZED handler as an object: the fields of AsyncFunctionHandler that
// this policy uses, the program counters of its threads, and the log.  Each
// method performs one atomic statement in place.
module SynchronizedHandler {
  import opened Runs
  import opened HandlerTypes
  import opened SynchronizedProtocol

  class Handler {
    var triggerInProgress: bool
    var stopAsyncCallback: bool
    var currentArgs: Job
    var callbackReturn: int
    var exceptionPtr: Option<nat>
    var joinable: bool
    var mutexHolder: Holder
    var worker: WorkerPc
    var control: ControlPc
    var triggers: Triggers
    var waits: Waits
    var log: Log

    ghost function View(): State
      reads this
    {
      State(triggerInProgress, stopAsyncCallback, currentArgs, callbackReturn, exceptionPtr, joinable,
            mutexHolder, worker, control, triggers, waits, log)
    }

    ghost predicate Valid()
      reads this
    {
      Inv(View())
    }

    constructor ()
      ensures Valid() && View() == Init()
    {
      triggerInProgress, stopAsyncCallback, joinable := false, false, false;
      currentArgs, callbackReturn, exceptionPtr := Job(0, 0), 0, None;
      mutexHolder, worker, control := Free, Exited, Idle;
      triggers, waits, log := Triggers({}, {}, {}), Waits(map[], map[]), Log([], [], []);
    }

    method NotifyWorker()
      modifies this`worker
      ensures worker == Wake(old(worker))
    {
      if worker == Asleep {
        worker := Woken;
      }
    }

    // trigger_in_progress_ = false, and the fate of the trigger it was set for.
    method ClearTrigger(fate: Fate)
      modifies this`triggerInProgress, this`log
      ensures !triggerInProgress
      ensures log == if old(triggerInProgress) then Settle(old(log), fate) else old(log)
    {
      if triggerInProgress {
        log := log.(fates := log.fates + [fate]);
      }
      triggerInProgress := false;
    }

    // One statement of execute_synchronized_callback.
    method WorkerStatement(outcome: Outcome)
      modifies this
      ensures View() == Next(old(View()), Worker(outcome))
    {
      match worker {
        case TestStop => worker := if stopAsyncCallback then Exited else LockWork;
        case LockWork => if mutexHolder.Free? { mutexHolder := ByWorker; worker := TestWork; }
        case TestWork => worker := if triggerInProgress || stopAsyncCallback then TestStopInside else DozeWork;
        case DozeWork => mutexHolder := Free; worker := Asleep;
        case Asleep =>
        case Woken => if mutexHolder.Free? { mutexHolder := ByWorker; worker := TestWork; }
        case TestStopInside => worker := if stopAsyncCallback then ClearFlag(false) else Call;
        case Call => log := log.(calls := log.calls + [currentArgs]); worker := InCall;
        case InCall =>
          match outcome {
            case Returns(v) => callbackReturn := v;
            case Throws(e) => exceptionPtr := Some(e);
          }
          worker := ClearFlag(true);
        case ClearFlag(ran) =>
          ClearTrigger(if ran then Ran else Skipped);
          worker := UnlockWork;
        case UnlockWork => mutexHolder := Free; worker := NotifyAll;
        case NotifyAll =>
          waits := Waits(waits.locking + waits.asleep, map[]);
          worker := TestStop;
        case Exited =>
      }
    }

    // One statement of the trigger caller or waiter inside async_mtx_.
    method InsideStatement(agrees: bool)
      modifies this
      ensures View() == Next(old(View()), Inside(agrees))
    {
      if mutexHolder.ByCaller? {
        var t := mutexHolder.tid;
        match mutexHolder.at {
          case TestFlag(job) =>
            mutexHolder := ByCaller(t, if !triggerInProgress && agrees then SetFlag(job) else GiveUp);
          case SetFlag(job) =>
            triggerInProgress := true;
            log := log.(accepted := log.accepted + [Trigger(t, job)]);
            mutexHolder := ByCaller(t, SetArgs(job));
          case SetArgs(job) => currentArgs := job; mutexHolder := ByCaller(t, UnlockTriggered);
          case UnlockTriggered =>
            mutexHolder := Free;
            triggers := triggers.(notifying := triggers.notifying + {t});
          case GiveUp => mutexHolder := Free;
          case TestCycle(n) => mutexHolder := ByCaller(t, if triggerInProgress then DozeCycle(n) else LeaveWait(n));
          case DozeCycle(n) => mutexHolder := Free; waits := waits.(asleep := waits.asleep[t := n]);
          case LeaveWait(n) => mutexHolder := Free;
        }
      }
    }

    // One statement of start_thread, stop_thread or reset_variables.
    method ControlStatement()
      modifies this
      ensures View() == Next(old(View()), Control)
    {
      match control {
        case Idle =>
        case StopStore => stopAsyncCallback := true; control := StopLock;
        case StopLock => if mutexHolder.Free? { mutexHolder := ByControl; control := StopUnlock; }
        case StopUnlock => mutexHolder := Free; control := StopNotify;
        case StopNotify => NotifyWorker(); control := Join;
        case Join => if worker == Exited { joinable := false; control := Idle; }
        case ResetLock(b) => if mutexHolder.Free? { mutexHolder := ByControl; control := ResetFlags(b); }
        case ResetFlags(b) =>
          stopAsyncCallback := false;
          ClearTrigger(Cleared);
          currentArgs := Job(0, 0);
          callbackReturn := 0;
          control := ResetError(b);
        case ResetError(b) => exceptionPtr := None; control := ResetUnlock(b);
        case ResetUnlock(b) => mutexHolder := Free; control := if b then Spawn else Idle;
        case Spawn => joinable := true; worker := TestStop; control := Idle;
      }
    }

    predicate Taken(t: Tid)
      reads this
    {
      t in triggers.checked || t in triggers.ready || t in triggers.notifying
      || t in waits.locking || t in waits.asleep
      || (mutexHolder.ByCaller? && mutexHolder.tid == t)
    }

    // trigger_async_callback: the exception check; false when it rethrows.
    method TriggerCheckError(t: Tid) returns (passed: bool)
      modifies this
      ensures View() == Next(old(View()), CheckError(t))
      ensures passed <==> !old(Taken(t)) && old(exceptionPtr).None?
    {
      passed := !Taken(t) && exceptionPtr.None?;
      if passed {
        triggers := triggers.(checked := triggers.checked + {t});
      }
    }

    method TriggerCheckRunning(t: Tid)
      modifies this
      ensures View() == Next(old(View()), CheckRunning(t))
    {
      if t in triggers.checked {
        triggers := triggers.(checked := triggers.checked - {t},
                              ready := if joinable then triggers.ready + {t} else triggers.ready);
      }
    }

    method TriggerTryLock(t: Tid, job: Job, won: bool)
      modifies this
      ensures View() == Next(old(View()), TryLock(t, job, won))
    {
      if t in triggers.ready {
        triggers := triggers.(ready := triggers.ready - {t});
        if won && mutexHolder.Free? {
          mutexHolder := ByCaller(t, TestFlag(job));
        }
      }
    }

    method TriggerNotify(t: Tid)
      modifies this
      ensures View() == Next(old(View()), Notify(t))
    {
      if t in triggers.notifying {
        triggers := triggers.(notifying := triggers.notifying - {t});
        NotifyWorker();
      }
    }

    // wait_for_trigger_cycle_to_finish: the is_running check; false returns at once.
    method WaitBegin(t: Tid) returns (waiting: bool)
      modifies this
      ensures View() == Next(old(View()), Wait(t))
      ensures waiting <==> !old(Taken(t)) && old(joinable)
    {
      waiting := !Taken(t) && joinable;
      if waiting {
        waits := waits.(locking := waits.locking[t := |log.accepted|]);
      }
    }

    method WaitEnter(t: Tid)
      modifies this
      ensures View() == Next(old(View()), WaitLock(t))
    {
      if t in waits.locking && mutexHolder.Free? {
        mutexHolder := ByCaller(t, TestCycle(waits.locking[t]));
        waits := waits.(locking := waits.locking - {t});
      }
    }

    // A wakeup of a worker or waiter that no notify caused.
    method SpuriouslyWake(waiter: Option<Tid>)
      modifies this
      ensures View() == Next(old(View()), if waiter.None? then SpuriousWake else SpuriousWakeWaiter(waiter.value))
    {
      if waiter.None? {
        NotifyWorker();
      } else {
        var t := waiter.value;
        if t in waits.asleep {
          waits := Waits(waits.locking[t := waits.asleep[t]], waits.asleep - {t});
        }
      }
    }

    // The control thread enters start_thread, stop_thread or reset_variables.
    method Begin(a: Action)
      requires a.StartThread? || a.StopThread? || a.ResetVariables?
      modifies this
      ensures View() == Next(old(View()), a)
    {
      if control == Idle {
        if a.ResetVariables? {
          control := ResetLock(false);
        } else if a.StartThread? {
          control := if joinable then Idle else ResetLock(true);
        } else {
          control := if joinable then StopStore else Idle;
        }
      }
    }

    method Perform(a: Action)
      requires Valid()
      modifies this
      ensures Valid() && View() == Next(old(View()), a)
    {
      StepKeepsInv(View(), a);
      match a {
        case Worker(outcome) => WorkerStatement(outcome);
        case SpuriousWake => SpuriouslyWake(None);
        case CheckError(t) => var _ := TriggerCheckError(t);
        case CheckRunning(t) => TriggerCheckRunning(t);
        case TryLock(t, job, won) => TriggerTryLock(t, job, won);
        case Inside(agrees) => InsideStatement(agrees);
        case Notify(t) => TriggerNotify(t);
        case Wait(t) => var _ := WaitBegin(t);
        case WaitLock(t) => WaitEnter(t);
        case SpuriousWakeWaiter(t) => SpuriouslyWake(Some(t));
        case Control => ControlStatement();
        case _ => Begin(a);
      }
    }

    // Any schedule performed on the object is a run of the protocol.
    method Schedule(acts: seq<Action>)
      requires Valid()
      modifies this
      ensures Valid() && View() == Exec(old(View()), acts)
    {
      for i := 0 to |acts|
        invariant Valid() && View() == Exec(old(View()), acts[..i])
      {
        Perform(acts[i]);
        assert acts[..i + 1][..i] == acts[..i];
      }
      assert acts[..|acts|] == acts;
    }
  }
}
