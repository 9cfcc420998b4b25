// AsyncFunctionHandler under the SYNCHRONIZED policy: trigger callers hand jobs
// to the worker, waiters wait for the end of a cycle, and one control thread
// starts, stops and resets.  Every load, store, lock operation and notify that
// another thread can observe is a step of its own.
module SynchronizedProtocol {
  import opened Runs
  import opened HandlerTypes

  // The statement a trigger caller or waiter inside async_mtx_ performs next.
  datatype Section =
    | TestFlag(job: Job)        // !trigger_in_progress_ && trigger_predicate_()
    | SetFlag(job: Job)         // trigger_in_progress_ = true
    | SetArgs(job: Job)         // store time and period
    | UnlockTriggered           // leave the scope of scoped_lock
    | GiveUp                    // unlock and return false
    | TestCycle(since: nat)     // wait predicate on cycle_end_condition_
    | DozeCycle(since: nat)     // it was false, lock still held
    | LeaveWait(since: nat)     // it was true: unlock and return true

  datatype Holder = Free | ByWorker | ByControl | ByCaller(tid: Tid, at: Section)

  // The statement execute_synchronized_callback performs next.
  datatype WorkerPc =
    | TestStop             // while (!stop_async_callback_)
    | LockWork
    | TestWork             // wait predicate on async_callback_condition_
    | DozeWork             // it was false, lock still held
    | Asleep               // lock released
    | Woken                // must lock again
    | TestStopInside       // if (!stop_async_callback_)
    | Call                 // invoke async_function_
    | InCall               // the callback is running
    | ClearFlag(ran: bool) // trigger_in_progress_ = false
    | UnlockWork
    | NotifyAll            // cycle_end_condition_.notify_all()
    | Exited

  // What became of an accepted trigger.
  datatype Fate = Ran | Skipped | Cleared

  datatype Trigger = Trigger(tid: Tid, job: Job)

  // Trigger callers outside the mutex.
  datatype Triggers = Triggers(
    checked: set<Tid>,         // past the exception check
    ready: set<Tid>,           // ... and past the is_running check
    notifying: set<Tid>)       // unlocked, yet to notify

  // Wait calls outside the mutex, with the number of triggers accepted before they began.
  datatype Waits = Waits(
    locking: map<Tid, nat>,
    asleep: map<Tid, nat>)

  datatype Log = Log(
    accepted: seq<Trigger>,    // triggers whose call returns true, in order
    fates: seq<Fate>,          // what became of them, in order
    calls: seq<Job>)           // arguments given to the callback, in order

  datatype State = State(
    trigger: bool,             // trigger_in_progress_
    stop: bool,                // stop_async_callback_
    args: Job,                 // current_callback_time_ and current_callback_period_
    value: int,                // async_callback_return_
    error: Option<nat>,        // async_exception_ptr_
    joinable: bool,            // thread_.joinable()
    holder: Holder,
    worker: WorkerPc,
    control: ControlPc,
    triggers: Triggers,
    waits: Waits,
    log: Log)

  datatype Action =
    | Worker(outcome: Outcome)                 // the worker's next statement
    | SpuriousWake
    | CheckError(tid: Tid)                     // trigger call: exception check
    | CheckRunning(tid: Tid)
    | TryLock(tid: Tid, job: Job, won: bool)   // won: what try_lock answers if the mutex is free
    | Inside(agrees: bool)                     // the next statement of the caller inside; agrees: trigger_predicate_()
    | Notify(tid: Tid)
    | Wait(tid: Tid)                           // wait_for_trigger_cycle_to_finish
    | WaitLock(tid: Tid)
    | SpuriousWakeWaiter(tid: Tid)
    | StartThread
    | StopThread
    | ResetVariables
    | Control                                  // the control thread's next statement

  // Initialized, not started.
  function Init(): State {
    State(false, false, Job(0, 0), 0, None, false, Free, Exited, Idle,
          Triggers({}, {}, {}), Waits(map[], map[]), Log([], [], []))
  }

  predicate Busy(s: State, t: Tid) {
    t in s.triggers.checked || t in s.triggers.ready || t in s.triggers.notifying
    || t in s.waits.locking || t in s.waits.asleep
    || (s.holder.ByCaller? && s.holder.tid == t)
  }

  function Wake(pc: WorkerPc): WorkerPc {
    if pc == Asleep then Woken else pc
  }

  function Settle(log: Log, f: Fate): Log {
    log.(fates := log.fates + [f])
  }

  function WorkerNext(s: State, outcome: Outcome): State {
    match s.worker
    case TestStop => s.(worker := if s.stop then Exited else LockWork)
    case LockWork => if s.holder == Free then s.(holder := ByWorker, worker := TestWork) else s
    case TestWork => s.(worker := if s.trigger || s.stop then TestStopInside else DozeWork)
    case DozeWork => s.(holder := Free, worker := Asleep)
    case Asleep => s
    case Woken => if s.holder == Free then s.(holder := ByWorker, worker := TestWork) else s
    case TestStopInside => s.(worker := if s.stop then ClearFlag(false) else Call)
    case Call => s.(log := s.log.(calls := s.log.calls + [s.args]), worker := InCall)
    case InCall =>
      (match outcome
       case Returns(v) => s.(value := v, worker := ClearFlag(true))
       case Throws(e) => s.(error := Some(e), worker := ClearFlag(true)))
    case ClearFlag(ran) =>
      s.(trigger := false,
         log := if s.trigger then Settle(s.log, if ran then Ran else Skipped) else s.log,
         worker := UnlockWork)
    case UnlockWork => s.(holder := Free, worker := NotifyAll)
    case NotifyAll => s.(waits := Waits(s.waits.locking + s.waits.asleep, map[]), worker := TestStop)
    case Exited => s
  }

  function InsideNext(s: State, agrees: bool): State
    requires s.holder.ByCaller?
  {
    var t := s.holder.tid;
    match s.holder.at
    case TestFlag(job) => s.(holder := ByCaller(t, if !s.trigger && agrees then SetFlag(job) else GiveUp))
    case SetFlag(job) =>
      s.(trigger := true, log := s.log.(accepted := s.log.accepted + [Trigger(t, job)]),
         holder := ByCaller(t, SetArgs(job)))
    case SetArgs(job) => s.(args := job, holder := ByCaller(t, UnlockTriggered))
    case UnlockTriggered => s.(holder := Free, triggers := s.triggers.(notifying := s.triggers.notifying + {t}))
    case GiveUp => s.(holder := Free)
    case TestCycle(n) => s.(holder := ByCaller(t, if s.trigger then DozeCycle(n) else LeaveWait(n)))
    case DozeCycle(n) => s.(holder := Free, waits := s.waits.(asleep := s.waits.asleep[t := n]))
    case LeaveWait(n) => s.(holder := Free)
  }

  function ControlNext(s: State): State {
    match s.control
    case Idle => s
    case StopStore => s.(stop := true, control := StopLock)
    case StopLock => if s.holder == Free then s.(holder := ByControl, control := StopUnlock) else s
    case StopUnlock => s.(holder := Free, control := StopNotify)
    case StopNotify => s.(worker := Wake(s.worker), control := Join)
    case Join => if s.worker == Exited then s.(joinable := false, control := Idle) else s
    case ResetLock(b) => if s.holder == Free then s.(holder := ByControl, control := ResetFlags(b)) else s
    case ResetFlags(b) =>
      s.(stop := false, trigger := false, args := Job(0, 0), value := 0,
         log := if s.trigger then Settle(s.log, Cleared) else s.log, control := ResetError(b))
    case ResetError(b) => s.(error := None, control := ResetUnlock(b))
    case ResetUnlock(b) => s.(holder := Free, control := if b then Spawn else Idle)
    case Spawn => s.(joinable := true, worker := TestStop, control := Idle)
  }

  // A statement of a caller outside the mutex.
  function CallerNext(s: State, a: Action): State {
    var out := s.triggers;
    match a
    case CheckError(t) =>
      if !Busy(s, t) && s.error.None? then s.(triggers := out.(checked := out.checked + {t})) else s
    case CheckRunning(t) =>
      if t !in out.checked then s
      else s.(triggers := out.(checked := out.checked - {t},
                               ready := if s.joinable then out.ready + {t} else out.ready))
    case TryLock(t, job, won) =>
      if t !in out.ready then s
      else s.(triggers := out.(ready := out.ready - {t}),
              holder := if won && s.holder == Free then ByCaller(t, TestFlag(job)) else s.holder)
    case Notify(t) =>
      if t !in out.notifying then s
      else s.(triggers := out.(notifying := out.notifying - {t}), worker := Wake(s.worker))
    case Wait(t) =>
      if !Busy(s, t) && s.joinable
      then s.(waits := s.waits.(locking := s.waits.locking[t := |s.log.accepted|])) else s
    case WaitLock(t) =>
      if t in s.waits.locking && s.holder == Free
      then s.(waits := s.waits.(locking := s.waits.locking - {t}), holder := ByCaller(t, TestCycle(s.waits.locking[t])))
      else s
    case SpuriousWakeWaiter(t) =>
      if t in s.waits.asleep
      then s.(waits := Waits(s.waits.locking[t := s.waits.asleep[t]], s.waits.asleep - {t})) else s
    case _ => s
  }

  function Next(s: State, a: Action): State {
    match a
    case Worker(outcome) => WorkerNext(s, outcome)
    case SpuriousWake => s.(worker := Wake(s.worker))
    case Inside(agrees) => if s.holder.ByCaller? then InsideNext(s, agrees) else s
    case StartThread => if s.control == Idle && !s.joinable then s.(control := ResetLock(true)) else s
    case StopThread => if s.control == Idle && s.joinable then s.(control := StopStore) else s
    case ResetVariables => if s.control == Idle then s.(control := ResetLock(false)) else s
    case Control => ControlNext(s)
    case _ => CallerNext(s, a)
  }

  function Exec(s: State, acts: seq<Action>): State {
    Run(Next, s, acts)
  }

  // The jobs of the triggers that ran.
  function Executed(accepted: seq<Trigger>, fates: seq<Fate>): seq<Job>
    requires |fates| <= |accepted|
  {
    if fates == [] then []
    else
      var n := |fates| - 1;
      Executed(accepted, fates[..n]) + if fates[n] == Ran then [accepted[n].job] else []
  }

  function Count(fates: seq<Fate>, f: Fate): nat {
    if fates == [] then 0
    else Count(fates[..|fates| - 1], f) + if fates[|fates| - 1] == f then 1 else 0
  }

  // ---------------------------------------------------------------- invariant

  predicate WorkerHolds(pc: WorkerPc) {
    pc.TestWork? || pc.DozeWork? || pc.TestStopInside? || pc.Call? || pc.InCall? || pc.ClearFlag? || pc.UnlockWork?
  }

  predicate InFlight(pc: WorkerPc) {
    pc.InCall? || (pc.ClearFlag? && pc.ran)
  }

  // The callback was given the jobs of the triggers that ran, then the one in flight.
  ghost predicate Ledger(log: Log, pending: bool, inFlight: bool) {
    && |log.accepted| == |log.fates| + (if pending then 1 else 0)
    && (inFlight ==> pending)
    && log.calls == Executed(log.accepted, log.fates) + (if inFlight then [log.accepted[|log.fates|].job] else [])
  }

  // The arguments stored for the pending trigger, or about to be.
  function Stored(s: State): Job {
    if s.holder.ByCaller? && s.holder.at.SetArgs? then s.holder.at.job else s.args
  }

  ghost predicate JobInv(s: State) {
    && Ledger(s.log, s.trigger, InFlight(s.worker))
    && (s.trigger ==> s.log.accepted[|s.log.fates|].job == Stored(s))
  }

  ghost predicate WorkerInv(s: State) {
    && (s.holder == ByWorker <==> WorkerHolds(s.worker))
    && (s.holder == ByControl <==> ControlHolds(s.control))
    && (s.worker.TestStopInside? ==> s.trigger || s.stop)
    && (s.worker.Call? || InFlight(s.worker) ==> s.trigger)
    && (s.worker.DozeWork? ==> !s.trigger)
    && (s.worker.ClearFlag? && !s.worker.ran ==> s.stop)
    && (s.holder.ByCaller? && s.holder.at.SetArgs? ==> s.trigger)
    && (s.holder.ByCaller? && s.holder.at.SetFlag? ==> !s.trigger)
  }

  // A sleeping worker with something to do is still owed a notify.
  ghost predicate WakeInv(s: State) {
    && (s.worker.Asleep? && s.trigger ==>
          s.triggers.notifying != {} || (s.holder.ByCaller? && (s.holder.at.SetArgs? || s.holder.at.UnlockTriggered?)))
    && (s.worker.Asleep? && s.stop ==> s.control.StopLock? || s.control.StopUnlock? || s.control.StopNotify?)
  }

  ghost predicate StopInv(s: State) {
    && (StopUnderWay(s.control) ==> s.stop && s.joinable)
    && (StopSeen(s.control) ==>
          !s.worker.DozeWork? && !s.worker.Call? && !InFlight(s.worker))
    && (s.worker.DozeWork? && s.stop ==> s.control.StopLock?)
    && (s.control.StopStore? ==> s.joinable)
    && (!s.joinable ==> s.worker.Exited?)
    && (s.joinable && (s.stop || s.worker.Exited?) ==> StopUnderWay(s.control))
    && (s.control.Spawn? || (s.control.ResetUnlock? || s.control.ResetError?) ==> !s.stop)
    && (Starting(s.control) ==> !s.joinable)
  }

  ghost predicate Bounded(m: map<Tid, nat>, n: nat) {
    forall t :: t in m ==> m[t] <= n
  }

  // A reset has cleared a trigger that was pending when a wait call began before
  // which n were accepted, or one accepted later.
  ghost predicate ClearedSince(fates: seq<Fate>, n: nat) {
    exists i :: 0 <= i < |fates| && n <= i + 1 && fates[i] == Cleared
  }

  ghost predicate AllDropped(asleep: map<Tid, nat>, fates: seq<Fate>) {
    forall t :: t in asleep ==> ClearedSince(fates, asleep[t])
  }

  ghost predicate WaitInv(s: State) {
    && Bounded(s.waits.locking, |s.log.accepted|)
    && Bounded(s.waits.asleep, |s.log.accepted|)
    && (s.holder.ByCaller? ==>
          match s.holder.at
          case TestCycle(n) => n <= |s.log.accepted|
          case DozeCycle(n) => n <= |s.log.accepted| && s.trigger
          case LeaveWait(n) => n <= |s.log.fates|
          case _ => true)
    && (!s.trigger && !s.worker.UnlockWork? && !s.worker.NotifyAll? ==> AllDropped(s.waits.asleep, s.log.fates))
  }

  ghost predicate Inv(s: State) {
    JobInv(s) && WorkerInv(s) && WakeInv(s) && StopInv(s) && WaitInv(s)
  }

  lemma {:induction false} ExecutedAppend(accepted: seq<Trigger>, more: seq<Trigger>, fates: seq<Fate>)
    requires |fates| <= |accepted|
    ensures Executed(accepted + more, fates) == Executed(accepted, fates)
  {
    if fates != [] {
      ExecutedAppend(accepted, more, fates[..|fates| - 1]);
    }
  }

  lemma LedgerSettle(log: Log, inFlight: bool, f: Fate)
    requires Ledger(log, true, inFlight) && (inFlight <==> f == Ran)
    ensures Ledger(Settle(log, f), false, false)
  {
    assert (log.fates + [f])[..|log.fates|] == log.fates;
  }

  lemma LedgerAccept(log: Log, e: Trigger)
    requires Ledger(log, false, false)
    ensures Ledger(log.(accepted := log.accepted + [e]), true, false)
  {
    ExecutedAppend(log.accepted, [e], log.fates);
  }

  lemma ClearKeepsJobs(s: State, outcome: Outcome)
    requires JobInv(s) && WorkerInv(s) && s.worker.ClearFlag?
    ensures JobInv(WorkerNext(s, outcome))
  {
    if s.trigger {
      LedgerSettle(s.log, s.worker.ran, if s.worker.ran then Ran else Skipped);
    }
  }

  lemma LedgerCall(log: Log, job: Job)
    requires Ledger(log, true, false) && log.accepted[|log.fates|].job == job
    ensures Ledger(log.(calls := log.calls + [job]), true, true)
  {
    assert log.calls + [] == log.calls;
  }

  lemma CallKeepsJobs(s: State, outcome: Outcome)
    requires JobInv(s) && WorkerInv(s) && s.worker.Call?
    ensures JobInv(WorkerNext(s, outcome))
  {
    LedgerCall(s.log, s.args);
  }

  // The other statements leave the ledger alone.
  lemma WorkerLeavesJobs(s: State, outcome: Outcome)
    requires WorkerInv(s) && !s.worker.ClearFlag? && !s.worker.Call?
    ensures
      var n := WorkerNext(s, outcome);
      && n.log == s.log && n.trigger == s.trigger && n.args == s.args
      && InFlight(n.worker) == InFlight(s.worker) && Stored(n) == Stored(s)
  {
  }

  lemma WorkerKeepsJobs(s: State, outcome: Outcome)
    requires JobInv(s) && WorkerInv(s)
    ensures JobInv(WorkerNext(s, outcome))
  {
    if s.worker.ClearFlag? {
      ClearKeepsJobs(s, outcome);
    } else if s.worker.Call? {
      CallKeepsJobs(s, outcome);
    } else {
      WorkerLeavesJobs(s, outcome);
    }
  }

  lemma WorkerKeepsStop(s: State, outcome: Outcome)
    requires WorkerInv(s) && StopInv(s)
    ensures WorkerInv(WorkerNext(s, outcome)) && StopInv(WorkerNext(s, outcome))
  {
  }

  lemma WorkerKeepsWake(s: State, outcome: Outcome)
    requires WorkerInv(s) && StopInv(s) && WakeInv(s)
    ensures WakeInv(WorkerNext(s, outcome))
  {
  }

  lemma WorkerKeepsWait(s: State, outcome: Outcome)
    requires JobInv(s) && WorkerInv(s) && WaitInv(s)
    ensures WaitInv(WorkerNext(s, outcome))
  {
  }

  lemma InsideKeepsJobs(s: State, agrees: bool)
    requires JobInv(s) && WorkerInv(s) && s.holder.ByCaller?
    ensures JobInv(InsideNext(s, agrees))
  {
    if s.holder.at.SetFlag? {
      LedgerAccept(s.log, Trigger(s.holder.tid, s.holder.at.job));
    }
  }

  lemma InsideKeepsStop(s: State, agrees: bool)
    requires WorkerInv(s) && StopInv(s) && s.holder.ByCaller?
    ensures WorkerInv(InsideNext(s, agrees)) && StopInv(InsideNext(s, agrees))
  {
  }

  lemma InsideKeepsWake(s: State, agrees: bool)
    requires WorkerInv(s) && StopInv(s) && WakeInv(s) && s.holder.ByCaller?
    ensures WakeInv(InsideNext(s, agrees))
  {
  }

  lemma InsideKeepsWait(s: State, agrees: bool)
    requires JobInv(s) && WorkerInv(s) && WaitInv(s) && s.holder.ByCaller?
    ensures WaitInv(InsideNext(s, agrees))
  {
  }

  lemma ControlKeepsJobs(s: State)
    requires JobInv(s) && WorkerInv(s) && StopInv(s)
    ensures JobInv(ControlNext(s))
  {
    if s.control.ResetFlags? && s.trigger {
      LedgerSettle(s.log, false, Cleared);
    }
  }

  lemma ControlKeepsStop(s: State)
    requires WorkerInv(s) && StopInv(s)
    ensures WorkerInv(ControlNext(s)) && StopInv(ControlNext(s))
  {
  }

  lemma ControlKeepsWake(s: State)
    requires WorkerInv(s) && StopInv(s) && WakeInv(s)
    ensures WakeInv(ControlNext(s))
  {
  }

  lemma ClearingDrops(asleep: map<Tid, nat>, fates: seq<Fate>)
    requires Bounded(asleep, |fates| + 1)
    ensures AllDropped(asleep, fates + [Cleared])
  {
    assert (fates + [Cleared])[|fates|] == Cleared;
  }

  lemma ControlKeepsWait(s: State)
    requires JobInv(s) && WorkerInv(s) && StopInv(s) && WaitInv(s)
    ensures WaitInv(ControlNext(s))
  {
    if s.control.ResetFlags? && s.trigger {
      ClearingDrops(s.waits.asleep, s.log.fates);
    }
  }

  lemma CallerKeepsInv(s: State, a: Action)
    requires Inv(s)
    ensures Inv(CallerNext(s, a))
  {
  }

  // A spurious wakeup, or the control thread entering a call.
  lemma BeginKeepsInv(s: State, a: Action)
    requires Inv(s) && (a.SpuriousWake? || a.StartThread? || a.StopThread? || a.ResetVariables?)
    ensures Inv(Next(s, a))
  {
  }

  lemma StepKeepsInv(s: State, a: Action)
    requires Inv(s)
    ensures Inv(Next(s, a))
  {
    match a
    case Worker(outcome) =>
      WorkerKeepsJobs(s, outcome);
      WorkerKeepsStop(s, outcome); WorkerKeepsWake(s, outcome); WorkerKeepsWait(s, outcome);
    case Inside(agrees) =>
      if s.holder.ByCaller? {
        InsideKeepsJobs(s, agrees);
        InsideKeepsStop(s, agrees); InsideKeepsWake(s, agrees); InsideKeepsWait(s, agrees);
      }
    case Control => ControlKeepsJobs(s); ControlKeepsStop(s); ControlKeepsWake(s); ControlKeepsWait(s);
    case SpuriousWake => BeginKeepsInv(s, a);
    case StartThread => BeginKeepsInv(s, a);
    case StopThread => BeginKeepsInv(s, a);
    case ResetVariables => BeginKeepsInv(s, a);
    case _ => CallerKeepsInv(s, a);
  }

  lemma RunKeepsInv(s: State, acts: seq<Action>)
    requires Inv(s)
    ensures Inv(Exec(s, acts))
  {
    forall x: State, a: Action | Inv(x) ensures Inv(Next(x, a)) { StepKeepsInv(x, a); }
    RunKeeps(Next, (x: State) => Inv(x), (a: Action) => true, s, acts);
  }
}
