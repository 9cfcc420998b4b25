// AsyncFunctionHandler under the DETACHED policy: the worker paces itself on a
// grid of deadlines while other threads pause it, resume it by triggering, and
// stop it.  trigger_in_progress_ is never set under this policy.
module DetachedProtocol {
  import opened Runs
  import opened HandlerTypes
  import opened Pacing

  // Which of the worker's two waits.
  datatype Phase = Initial | Cyclic

  // The statement execute_detached_callback performs next.
  datatype WorkerPc =
    | TestPause              // if (pause_thread_)
    | LockWork(phase: Phase)
    | TestWork(phase: Phase) // wait predicate
    | DozeWork(phase: Phase) // it was false, lock still held
    | Asleep(phase: Phase)   // lock released
    | Woken(phase: Phase)    // must lock again
    | UnlockInitial
    | ReadInitial            // previous_time_ = clock->now()
    | FirstSleep(until: int) // sleep_for(period)
    | SetAnchor              // next_iteration_time = steady now
    | TestStop               // while (!stop_async_callback_)
    | TestStopInside         // if (!stop_async_callback_)
    | ReadClock              // measure the period
    | Call                   // invoke async_function_
    | InCall                 // the callback is running
    | Advance                // next deadline, with overrun catch-up
    | SleepUntil             // sleep_until(next_iteration_time), lock held
    | UnlockWork
    | NotifyAll
    | Exited

  // The statement a resuming trigger or a pauser inside async_mtx_ performs next.
  datatype Section =
    | ClearPause             // pause_thread_ = false
    | ClearValue             // async_callback_return_ = T()
    | SetPrevious            // previous_time_ = now - period
    | UnlockResume
    | PauseHeld(epoch: nat)  // pause_execution: unlock and return true

  datatype Holder = Free | ByWorker | ByControl | ByCaller(tid: Tid, at: Section)

  // Callers outside the mutex.
  datatype Callers = Callers(
    checked: set<Tid>,       // trigger callers past the exception check
    resuming: set<Tid>,      // trigger callers that saw the pause, about to lock
    notifying: set<Tid>,     // trigger callers that unlocked, yet to notify
    storing: set<Tid>,       // pausers about to store pause_thread_
    pausing: map<Tid, nat>)  // pausers about to lock, with the resumes before their store

  // The worker's position on the grid since its thread was spawned.
  datatype Pace = Pace(
    deadline: int,           // next_iteration_time
    anchor: int,             // its first value
    steps: nat,              // periods from the anchor to the deadline
    done: nat,               // callbacks finished
    starts: seq<int>)        // when each callback started

  // Measured periods since previous_time_ was last set from outside the measurement.
  datatype Segment = Segment(
    previous: int,           // previous_time_
    base: int,               // its value when the segment began
    earlier: seq<Job>,       // callbacks before the segment
    jobs: seq<Job>)          // jobs measured in the segment

  datatype Log = Log(
    segment: Segment,
    calls: seq<Job>)         // arguments given to the callback, in order

  // What the worker and the callback leave for other threads to read.
  datatype Slot = Slot(
    args: Job,               // current_callback_time_ and current_callback_period_
    value: int,              // async_callback_return_
    error: Option<nat>)      // async_exception_ptr_

  datatype State = State(
    rate: Rate,               // exec_rate
    stop: bool,              // stop_async_callback_
    pause: bool,             // pause_thread_
    slot: Slot,
    joinable: bool,          // thread_.joinable()
    holder: Holder,
    worker: WorkerPc,
    control: ControlPc,
    callers: Callers,
    now: int,                // the steady clock
    pace: Pace,
    log: Log,
    resumes: nat)            // how often a trigger has cleared the pause

  datatype Action =
    | Tick(d: nat)                             // time passes
    | Worker(outcome: Outcome, reading: int)   // the worker's next statement; reading: clock->now()
    | SpuriousWake
    | CheckError(tid: Tid)                     // trigger call: exception check
    | LoadPause(tid: Tid)
    | ResumeLock(tid: Tid)
    | Notify(tid: Tid)
    | Pause(tid: Tid)                          // pause_execution: is_running check
    | StorePause(tid: Tid)
    | PauseLock(tid: Tid)
    | Inside(reading: int)                     // the mutex-holding caller's next statement
    | StartThread
    | StopThread
    | ResetVariables
    | Control                                  // the control thread's next statement

  // Initialized, not started.
  function Init(rate: Rate, waitForTrigger: bool): State {
    State(rate, false, waitForTrigger, Slot(Job(0, 0), 0, None), false, Free, Exited, Idle,
          Callers({}, {}, {}, {}, map[]), 0, Pace(0, 0, 0, 0, []), Log(Segment(0, 0, [], []), []), 0)
  }

  predicate Busy(s: State, t: Tid) {
    t in s.callers.checked || t in s.callers.resuming || t in s.callers.notifying || t in s.callers.storing
    || t in s.callers.pausing || (s.holder.ByCaller? && s.holder.tid == t)
  }

  function Wake(pc: WorkerPc): WorkerPc {
    if pc.Asleep? then Woken(pc.phase) else pc
  }

  // previous_time_ is set to `previous` by something other than a measurement.
  function Rebase(log: Log, previous: int): Log {
    Log(Segment(previous, previous, log.calls, []), log.calls)
  }

  function Measured(log: Log, reading: int): Job {
    Job(reading, reading - log.segment.previous)
  }

  function Measure(log: Log, reading: int): Log {
    log.(segment := log.segment.(previous := reading, jobs := log.segment.jobs + [Measured(log, reading)]))
  }

  // Inside one of the worker's two waits.
  predicate InWait(pc: WorkerPc) {
    pc.LockWork? || pc.TestWork? || pc.DozeWork? || pc.Asleep? || pc.Woken?
  }

  // Between the inner test of the stop flag and the end of the sleep.
  predicate Cycling(pc: WorkerPc) {
    pc.TestStopInside? || Running(pc)
  }

  // The worker found the stop flag clear: a callback is about to start or running.
  predicate Running(pc: WorkerPc) {
    pc.ReadClock? || pc.Call? || pc.InCall? || pc.Advance? || pc.SleepUntil?
  }

  function WaitNext(s: State): State
    requires InWait(s.worker)
  {
    match s.worker
    case LockWork(ph) => if s.holder == Free then s.(holder := ByWorker, worker := TestWork(ph)) else s
    case TestWork(ph) =>
      s.(worker := if s.pause && !s.stop then DozeWork(ph)
                   else if ph == Initial then UnlockInitial else TestStopInside)
    case DozeWork(ph) => s.(holder := Free, worker := Asleep(ph))
    case Asleep(_) => s
    case Woken(ph) => if s.holder == Free then s.(holder := ByWorker, worker := TestWork(ph)) else s
  }

  function CycleNext(s: State, outcome: Outcome, reading: int): State
    requires Cycling(s.worker)
  {
    match s.worker
    case TestStopInside => s.(worker := if s.stop then UnlockWork else ReadClock)
    case ReadClock =>
      s.(log := Measure(s.log, reading), slot := s.slot.(args := Measured(s.log, reading)), worker := Call)
    case Call =>
      s.(log := s.log.(calls := s.log.calls + [s.slot.args]), pace := Started(s.pace, s.now), worker := InCall)
    case InCall =>
      (match outcome
       case Returns(v) => s.(slot := s.slot.(value := v), worker := Advance)
       case Throws(e) => s.(slot := s.slot.(error := Some(e)), worker := Advance))
    case Advance => s.(pace := AdvancePace(s.pace, s.now, s.rate), worker := SleepUntil)
    case SleepUntil => if s.now < s.pace.deadline then s else s.(worker := UnlockWork)
  }

  function OuterNext(s: State, reading: int): State
    requires !InWait(s.worker) && !Cycling(s.worker)
  {
    match s.worker
    case TestPause => s.(worker := if s.pause then LockWork(Initial) else ReadInitial)
    case UnlockInitial => s.(holder := Free, worker := ReadInitial)
    case ReadInitial => s.(log := Rebase(s.log, reading), worker := FirstSleep(s.now + Period(s.rate)))
    case FirstSleep(until) => if s.now < until then s else s.(worker := SetAnchor)
    case SetAnchor => s.(pace := Pace(s.now, s.now, 0, 0, []), worker := TestStop)
    case TestStop => s.(worker := if s.stop then Exited else LockWork(Cyclic))
    case UnlockWork => s.(holder := Free, worker := NotifyAll)
    case NotifyAll => s.(worker := TestStop)
    case Exited => s
  }

  function WorkerNext(s: State, outcome: Outcome, reading: int): State {
    if InWait(s.worker) then WaitNext(s)
    else if Cycling(s.worker) then CycleNext(s, outcome, reading)
    else OuterNext(s, reading)
  }

  function Started(pace: Pace, now: int): Pace {
    pace.(starts := pace.starts + [now])
  }

  function AdvancePace(pace: Pace, now: int, rate: Rate): Pace {
    pace.(deadline := NextDeadline(pace.deadline, now, rate), done := pace.done + 1,
          steps := pace.steps + 1 + Missed(pace.deadline, now, rate))
  }

  function InsideNext(s: State, reading: int): State
    requires s.holder.ByCaller?
  {
    var t := s.holder.tid;
    match s.holder.at
    case ClearPause => s.(pause := false, resumes := s.resumes + 1, holder := ByCaller(t, ClearValue))
    case ClearValue => s.(slot := s.slot.(value := 0), holder := ByCaller(t, SetPrevious))
    case SetPrevious =>
      s.(log := Rebase(s.log, reading - Period(s.rate)), holder := ByCaller(t, UnlockResume))
    case UnlockResume =>
      s.(holder := Free, callers := s.callers.(notifying := s.callers.notifying + {t}))
    case PauseHeld(_) => s.(holder := Free)
  }

  function ControlNext(s: State): State {
    match s.control
    case Idle => s
    case StopStore => s.(stop := true, control := StopLock)
    case StopLock => if s.holder == Free then s.(holder := ByControl, control := StopUnlock) else s
    case StopUnlock => s.(holder := Free, control := StopNotify)
    case StopNotify => s.(worker := Wake(s.worker), control := Join)
    case Join => if s.worker == Exited then s.(joinable := false, control := Idle) else s
    case ResetLock(b) => if s.holder == Free then s.(holder := ByControl, control := ResetFlags(b)) else s
    case ResetFlags(b) => s.(stop := false, slot := Slot(Job(0, 0), 0, s.slot.error), control := ResetError(b))
    case ResetError(b) => s.(slot := s.slot.(error := None), control := ResetUnlock(b))
    case ResetUnlock(b) => s.(holder := Free, control := if b then Spawn else Idle)
    case Spawn => s.(joinable := true, worker := TestPause, control := Idle)
  }

  // A statement of a caller outside the mutex.
  function CallerNext(s: State, a: Action): State {
    var out := s.callers;
    match a
    case CheckError(t) =>
      if !Busy(s, t) && s.slot.error.None? then s.(callers := out.(checked := out.checked + {t})) else s
    case LoadPause(t) =>
      if t !in out.checked then s
      else s.(callers := out.(checked := out.checked - {t},
                              resuming := if s.pause then out.resuming + {t} else out.resuming))
    case ResumeLock(t) =>
      if t in out.resuming && s.holder == Free
      then s.(callers := out.(resuming := out.resuming - {t}), holder := ByCaller(t, ClearPause)) else s
    case Notify(t) =>
      if t !in out.notifying then s
      else s.(callers := out.(notifying := out.notifying - {t}), worker := Wake(s.worker))
    case Pause(t) =>
      if !Busy(s, t) && s.joinable then s.(callers := out.(storing := out.storing + {t})) else s
    case StorePause(t) =>
      if t !in out.storing then s
      else s.(callers := out.(storing := out.storing - {t}, pausing := out.pausing[t := s.resumes]), pause := true)
    case PauseLock(t) =>
      if t in out.pausing && s.holder == Free
      then s.(callers := out.(pausing := out.pausing - {t}), holder := ByCaller(t, PauseHeld(out.pausing[t]))) else s
    case _ => s
  }

  function Next(s: State, a: Action): State {
    match a
    case Tick(d) => s.(now := s.now + d)
    case Worker(outcome, reading) => WorkerNext(s, outcome, reading)
    case SpuriousWake => s.(worker := Wake(s.worker))
    case Inside(reading) => if s.holder.ByCaller? then InsideNext(s, reading) else s
    case StartThread => if s.control == Idle && !s.joinable then s.(control := ResetLock(true)) else s
    case StopThread => if s.control == Idle && s.joinable then s.(control := StopStore) else s
    case ResetVariables => if s.control == Idle then s.(control := ResetLock(false)) else s
    case Control => ControlNext(s)
    case _ => CallerNext(s, a)
  }

  function Exec(s: State, acts: seq<Action>): State {
    Run(Next, s, acts)
  }

  // ---------------------------------------------------------------- invariant

  predicate WorkerHolds(pc: WorkerPc) {
    pc.TestWork? || pc.DozeWork? || pc.UnlockInitial? || Cycling(pc) || pc.UnlockWork?
  }

  // The worker's next deadline is on the grid of its anchor.
  predicate OnGrid(pc: WorkerPc) {
    pc.TestStop? || Cycling(pc) || pc.UnlockWork? || pc.NotifyAll?
    || ((pc.LockWork? || pc.TestWork? || pc.DozeWork? || pc.Asleep? || pc.Woken?) && pc.phase == Cyclic)
  }

  ghost predicate LockInv(s: State) {
    && (s.holder == ByWorker <==> WorkerHolds(s.worker))
    && (s.holder == ByControl <==> ControlHolds(s.control))
  }

  // A sleeping worker with something to do is still owed a notify.
  ghost predicate WakeInv(s: State) {
    && (s.worker.DozeWork? ==> s.pause)
    && (s.worker.Asleep? && !s.pause ==>
          || s.callers.notifying != {}
          || (s.holder.ByCaller? && (s.holder.at.ClearValue? || s.holder.at.SetPrevious? || s.holder.at.UnlockResume?)))
    && (s.worker.Asleep? && s.stop ==> s.control.StopLock? || s.control.StopUnlock? || s.control.StopNotify?)
  }

  ghost predicate StopInv(s: State) {
    && (StopUnderWay(s.control) ==> s.stop && s.joinable)
    && (StopSeen(s.control) ==> !s.worker.DozeWork? && !Running(s.worker))
    && (s.worker.DozeWork? && s.stop ==> s.control.StopLock?)
    && (s.control.StopStore? ==> s.joinable)
    && (!s.joinable ==> s.worker.Exited?)
    && (s.joinable && (s.stop || s.worker.Exited?) ==> StopUnderWay(s.control))
    && (s.control.Spawn? || s.control.ResetUnlock? || s.control.ResetError? ==> !s.stop)
    && (Starting(s.control) ==> !s.joinable)
  }

  // A pauser whose store no trigger has undone since finds the pause in force.
  ghost predicate PauseInv(s: State) {
    && Epochs(s.callers.pausing, s.resumes, s.pause)
    && (s.holder.ByCaller? && s.holder.at.PauseHeld? ==>
          s.holder.at.epoch <= s.resumes && (s.holder.at.epoch == s.resumes ==> s.pause))
  }

  ghost predicate Epochs(pausing: map<Tid, nat>, resumes: nat, pause: bool) {
    forall t :: t in pausing ==> pausing[t] <= resumes && (pausing[t] == resumes ==> pause)
  }

  ghost predicate Paced(pace: Pace, period: int, running: bool) {
    && pace.deadline == Grid(pace.anchor, pace.steps, period)
    && pace.done <= pace.steps
    && |pace.starts| == pace.done + (if running then 1 else 0)
    && forall i :: 0 <= i < |pace.starts| ==> Grid(pace.anchor, i, period) <= pace.starts[i]
  }

  ghost predicate PaceInv(s: State) {
    OnGrid(s.worker) ==>
      && Paced(s.pace, Period(s.rate), s.worker.InCall? || s.worker.Advance?)
      && Due(s.pace.deadline, s.now, if s.worker.SleepUntil? then Period(s.rate) else 0)
  }

  // The deadline is at most `ahead` in the future.
  ghost predicate Due(deadline: int, now: int, ahead: int) {
    deadline <= now + ahead
  }

  // The time the i-th of `jobs` is measured from.
  function Before(jobs: seq<Job>, base: int, i: int): int
    requires 0 <= i <= |jobs|
  {
    if i == 0 then base else jobs[i - 1].time
  }

  ghost predicate Chain(jobs: seq<Job>, base: int) {
    forall i :: 0 <= i < |jobs| ==> jobs[i].period == jobs[i].time - Before(jobs, base, i)
  }

  // Every job of the segment is measured from the one before it, the first from
  // the base, and they are the latest callbacks, the last perhaps about to start.
  ghost predicate Chained(log: Log, pending: seq<Job>) {
    var g := log.segment;
    && Chain(g.jobs, g.base)
    && g.previous == Before(g.jobs, g.base, |g.jobs|)
    && g.earlier + g.jobs == log.calls + pending
  }

  ghost predicate SegmentInv(s: State) {
    Chained(s.log, if s.worker.Call? then [s.slot.args] else [])
  }

  ghost predicate Inv(s: State) {
    LockInv(s) && WakeInv(s) && StopInv(s) && PauseInv(s) && PaceInv(s) && SegmentInv(s)
  }

  lemma RebaseChains(log: Log, previous: int)
    ensures Chained(Rebase(log, previous), [])
  {
  }

  lemma MeasureChains(log: Log, reading: int)
    requires Chained(log, [])
    ensures Chained(Measure(log, reading), [Measured(log, reading)])
  {
    var g, more := log.segment, Measure(log, reading).segment.jobs;
    assert forall i :: 0 <= i < |g.jobs| ==>
             more[i] == g.jobs[i] && Before(more, g.base, i) == Before(g.jobs, g.base, i);
    assert g.earlier + more == (g.earlier + g.jobs) + [Measured(log, reading)];
    assert log.calls + [] == log.calls;
  }

  lemma CallChains(log: Log, job: Job)
    requires Chained(log, [job])
    ensures Chained(log.(calls := log.calls + [job]), [])
  {
    assert log.calls + [job] + [] == log.calls + [job];
  }

  lemma AdvanceKeepsPace(pace: Pace, now: int, rate: Rate)
    requires Paced(pace, Period(rate), true) && pace.deadline <= now
    ensures
      var n := AdvancePace(pace, now, rate);
      Paced(n, Period(rate), false) && n.deadline <= now + Period(rate) && n.steps > pace.steps
  {
    DeadlineAdvances(pace.deadline, now, rate);
    GridAdd(pace.anchor, pace.steps, 1 + Missed(pace.deadline, now, rate), Period(rate));
  }

  lemma StartKeepsPace(pace: Pace, now: int, period: int)
    requires 0 <= period && Paced(pace, period, false) && pace.deadline <= now
    ensures Paced(Started(pace, now), period, true)
  {
    GridMono(pace.anchor, pace.done, pace.steps, period);
  }

  lemma WaitKeepsStop(s: State)
    requires LockInv(s) && WakeInv(s) && StopInv(s) && InWait(s.worker)
    ensures LockInv(WaitNext(s)) && StopInv(WaitNext(s))
  {
  }

  lemma CycleKeepsStop(s: State, outcome: Outcome, reading: int)
    requires LockInv(s) && StopInv(s) && Cycling(s.worker)
    ensures var n := CycleNext(s, outcome, reading); LockInv(n) && StopInv(n)
  {
  }

  lemma WorkerKeepsStop(s: State, outcome: Outcome, reading: int)
    requires LockInv(s) && WakeInv(s) && StopInv(s)
    ensures var n := WorkerNext(s, outcome, reading); LockInv(n) && StopInv(n)
  {
    if InWait(s.worker) {
      WaitKeepsStop(s);
    } else if Cycling(s.worker) {
      CycleKeepsStop(s, outcome, reading);
    }
  }

  lemma WaitKeepsWake(s: State)
    requires LockInv(s) && WakeInv(s) && StopInv(s) && PauseInv(s) && InWait(s.worker)
    ensures WakeInv(WaitNext(s)) && PauseInv(WaitNext(s))
  {
  }

  lemma CycleKeepsWake(s: State, outcome: Outcome, reading: int)
    requires LockInv(s) && PauseInv(s) && Cycling(s.worker)
    ensures var n := CycleNext(s, outcome, reading); WakeInv(n) && PauseInv(n)
  {
  }

  lemma WorkerKeepsWake(s: State, outcome: Outcome, reading: int)
    requires LockInv(s) && WakeInv(s) && StopInv(s) && PauseInv(s)
    ensures var n := WorkerNext(s, outcome, reading); WakeInv(n) && PauseInv(n)
  {
    if InWait(s.worker) {
      WaitKeepsWake(s);
    } else if Cycling(s.worker) {
      CycleKeepsWake(s, outcome, reading);
    }
  }

  lemma AnchorIsPaced(now: int, period: int)
    ensures Paced(Pace(now, now, 0, 0, []), period, false)
  {
  }

  // The statements that move the pace.
  lemma PacingKeepsPace(s: State, outcome: Outcome, reading: int)
    requires PaceInv(s) && (s.worker.Advance? || s.worker.Call? || s.worker.SetAnchor?)
    ensures PaceInv(WorkerNext(s, outcome, reading))
  {
    if s.worker.Advance? {
      AdvanceKeepsPace(s.pace, s.now, s.rate);
    } else if s.worker.Call? {
      StartKeepsPace(s.pace, s.now, Period(s.rate));
    } else {
      AnchorIsPaced(s.now, Period(s.rate));
    }
  }

  // The statements that leave it alone.
  lemma WorkerKeepsPace(s: State, outcome: Outcome, reading: int)
    requires PaceInv(s) && !s.worker.Advance? && !s.worker.Call? && !s.worker.SetAnchor?
    ensures PaceInv(WorkerNext(s, outcome, reading))
  {
    var n := WorkerNext(s, outcome, reading);
    WorkerFrame(s, outcome, reading);
    WorkerHistory(s, outcome, reading);
    assert OnGrid(n.worker) ==> OnGrid(s.worker);
  }

  // What no worker statement changes.
  lemma WorkerFrame(s: State, outcome: Outcome, reading: int)
    ensures
      var n := WorkerNext(s, outcome, reading);
      n.rate == s.rate && n.now == s.now && n.control == s.control && n.joinable == s.joinable && n.callers == s.callers
  {
  }

  // The few that move the pace, and those that move the log.
  lemma WorkerHistory(s: State, outcome: Outcome, reading: int)
    ensures
      var n := WorkerNext(s, outcome, reading);
      && (!s.worker.Advance? && !s.worker.Call? && !s.worker.SetAnchor? ==> n.pace == s.pace)
      && (!s.worker.ReadClock? && !s.worker.Call? && !s.worker.ReadInitial? ==> n.log == s.log)
  {
  }

  // The statements that move the log.
  lemma LoggingKeepsSegment(s: State, outcome: Outcome, reading: int)
    requires SegmentInv(s) && (s.worker.ReadClock? || s.worker.Call? || s.worker.ReadInitial?)
    ensures SegmentInv(WorkerNext(s, outcome, reading))
  {
    if s.worker.ReadClock? {
      MeasureChains(s.log, reading);
    } else if s.worker.ReadInitial? {
      RebaseChains(s.log, reading);
    } else {
      CallChains(s.log, s.slot.args);
    }
  }

  lemma WorkerKeepsSegment(s: State, outcome: Outcome, reading: int)
    requires SegmentInv(s)
    ensures SegmentInv(WorkerNext(s, outcome, reading))
  {
    if s.worker.ReadClock? || s.worker.Call? || s.worker.ReadInitial? {
      LoggingKeepsSegment(s, outcome, reading);
    } else {
      WorkerHistory(s, outcome, reading);
      assert !WorkerNext(s, outcome, reading).worker.Call?;
    }
  }

  lemma InsideKeepsStop(s: State, reading: int)
    requires LockInv(s) && WakeInv(s) && StopInv(s) && PauseInv(s) && s.holder.ByCaller?
    ensures var n := InsideNext(s, reading); LockInv(n) && WakeInv(n) && StopInv(n) && PauseInv(n)
  {
  }

  lemma InsideKeepsRest(s: State, reading: int)
    requires LockInv(s) && PaceInv(s) && SegmentInv(s) && s.holder.ByCaller?
    ensures var n := InsideNext(s, reading); PaceInv(n) && SegmentInv(n)
  {
    if s.holder.at.SetPrevious? {
      RebaseChains(s.log, reading - Period(s.rate));
    }
  }

  lemma ControlKeepsStop(s: State)
    requires LockInv(s) && WakeInv(s) && StopInv(s)
    ensures var n := ControlNext(s); LockInv(n) && WakeInv(n) && StopInv(n)
  {
  }

  lemma ControlKeepsRest(s: State)
    requires LockInv(s) && StopInv(s) && PauseInv(s) && PaceInv(s) && SegmentInv(s)
    ensures var n := ControlNext(s); PauseInv(n) && PaceInv(n) && SegmentInv(n)
  {
  }

  lemma CallerKeepsInv(s: State, a: Action)
    requires Inv(s)
    ensures Inv(CallerNext(s, a))
  {
  }

  lemma WorkerKeepsInv(s: State, outcome: Outcome, reading: int)
    requires Inv(s)
    ensures Inv(WorkerNext(s, outcome, reading))
  {
    WorkerKeepsStop(s, outcome, reading);
    WorkerKeepsWake(s, outcome, reading);
    WorkerKeepsSegment(s, outcome, reading);
    if s.worker.Advance? || s.worker.Call? || s.worker.SetAnchor? {
      PacingKeepsPace(s, outcome, reading);
    } else {
      WorkerKeepsPace(s, outcome, reading);
    }
  }

  lemma TickKeepsInv(s: State, d: nat)
    requires Inv(s)
    ensures Inv(s.(now := s.now + d))
  {
  }

  // A spurious wakeup, or the control thread entering a call.
  lemma BeginKeepsInv(s: State, a: Action)
    requires Inv(s) && (a.SpuriousWake? || a.StartThread? || a.StopThread? || a.ResetVariables?)
    ensures Inv(Next(s, a))
  {
  }

  lemma StepKeepsInv(s: State, a: Action)
    requires Inv(s)
    ensures Inv(Next(s, a))
  {
    match a
    case Worker(outcome, reading) => WorkerKeepsInv(s, outcome, reading);
    case Inside(reading) =>
      if s.holder.ByCaller? {
        InsideKeepsStop(s, reading);
        InsideKeepsRest(s, reading);
      }
    case Control => ControlKeepsStop(s); ControlKeepsRest(s);
    case Tick(d) => TickKeepsInv(s, d);
    case SpuriousWake => BeginKeepsInv(s, a);
    case StartThread => BeginKeepsInv(s, a);
    case StopThread => BeginKeepsInv(s, a);
    case ResetVariables => BeginKeepsInv(s, a);
    case _ => CallerKeepsInv(s, a);
  }

  lemma RunKeepsInv(s: State, acts: seq<Action>)
    requires Inv(s)
    ensures Inv(Exec(s, acts))
  {
    forall x: State, a: Action | Inv(x) ensures Inv(Next(x, a)) { StepKeepsInv(x, a); }
    RunKeeps(Next, (x: State) => Inv(x), (a: Action) => true, s, acts);
  }
}
