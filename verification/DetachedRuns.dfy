// What holds in every run of AsyncFunctionHandler under the DETACHED policy.
module DetachedRuns {
  import opened Runs
  import opened HandlerTypes
  import opened Pacing
  import opened DetachedProtocol

  // -------------------------------------------------------------------- pause

  // No callback is about to start, and none will while the pause holds.
  predicate Quiet(s: State) {
    && s.pause && !s.worker.ReadClock? && !s.worker.Call?
    && (s.worker.TestStopInside? ==> s.stop)
  }

  lemma QuietWorker(s: State, outcome: Outcome, reading: int)
    requires Quiet(s)
    ensures var n := WorkerNext(s, outcome, reading); Quiet(n) && n.log.calls == s.log.calls
  {
  }

  lemma QuietStep(s: State, a: Action)
    requires LockInv(s) && Quiet(s)
    ensures
      var n := Next(s, a);
      n.resumes >= s.resumes && (n.resumes == s.resumes ==> Quiet(n) && n.log.calls == s.log.calls)
  {
    if a.Worker? {
      QuietWorker(s, a.outcome, a.reading);
    }
  }

  lemma ResumesGrow(s: State, a: Action)
    ensures Next(s, a).resumes >= s.resumes
  {
  }

  // From a quiet state on, no callback starts in any run in which no trigger
  // clears the pause.
  lemma PauseIsBarrier(s: State, acts: seq<Action>)
    requires Inv(s) && Quiet(s)
    ensures var e := Exec(s, acts); e.resumes == s.resumes ==> e.log.calls == s.log.calls
  {
    var inv := (x: State) =>
      Inv(x) && x.resumes >= s.resumes && (x.resumes == s.resumes ==> Quiet(x) && x.log.calls == s.log.calls);
    forall x: State, a: Action | inv(x) ensures inv(Next(x, a)) {
      StepKeepsInv(x, a);
      ResumesGrow(x, a);
      if x.resumes == s.resumes { QuietStep(x, a); }
    }
    RunKeeps(Next, inv, (a: Action) => true, s, acts);
  }

  // How many statements the worker has left before it starts a callback, while
  // neither pause nor stop is set.
  function Distance(pc: WorkerPc): nat {
    match pc
    case Exited => 0
    case Call => 1
    case ReadClock => 2
    case TestStopInside => 3
    case TestWork(ph) => if ph == Cyclic then 4 else 11
    case LockWork(ph) => if ph == Cyclic then 5 else 12
    case Woken(ph) => if ph == Cyclic then 5 else 12
    case Asleep(ph) => if ph == Cyclic then 6 else 13
    case DozeWork(ph) => if ph == Cyclic then 7 else 14
    case TestStop => 6
    case NotifyAll => 7
    case SetAnchor => 7
    case UnlockWork => 8
    case FirstSleep(_) => 8
    case SleepUntil => 9
    case ReadInitial => 9
    case Advance => 10
    case UnlockInitial => 10
    case TestPause => 10
    case InCall => 11
  }

  predicate WaitsForTime(s: State) {
    || (s.worker.FirstSleep? && s.now < s.worker.until)
    || (s.worker.SleepUntil? && s.now < s.pace.deadline)
  }

  // What gets the worker ahead: its next statement, time to pass, or a wakeup.
  function WorkerTurn(s: State): Action {
    if s.worker.FirstSleep? && s.now < s.worker.until then Tick(s.worker.until - s.now)
    else if s.worker.SleepUntil? && s.now < s.pace.deadline then Tick(s.pace.deadline - s.now)
    else if s.worker.Asleep? then SpuriousWake
    else Worker(Returns(0), 0)
  }

  // The same for the whole handler: the caller inside leaves, the control thread
  // finishes what it is doing, a stopped handler is started again.
  function Turn(s: State): Action {
    if s.holder.ByCaller? then Inside(0)
    else if s.control.Idle? then if s.joinable then WorkerTurn(s) else StartThread
    else if s.control.Join? && !s.worker.Exited? then WorkerTurn(s)
    else if (s.control.StopLock? || s.control.ResetLock?) && s.holder == ByWorker then WorkerTurn(s)
    else Control
  }

  // How far the control thread is from leaving a running worker behind.
  function ControlLeft(control: ControlPc, joinable: bool): nat {
    match control
    case Idle => if joinable then 0 else 6
    case Spawn => 1
    case ResetUnlock(b) => if b then 2 else 12
    case ResetError(b) => if b then 3 else 13
    case ResetFlags(b) => if b then 4 else 14
    case ResetLock(b) => if b then 5 else 15
    case Join => 7
    case StopNotify => 8
    case StopUnlock => 9
    case StopLock => 10
    case StopStore => 11
  }

  function WorkerLeft(s: State): nat {
    2 * (if s.stop then Rank(s.worker) else Distance(s.worker)) + if WaitsForTime(s) then 1 else 0
  }

  // Not paused, and no trigger is about to clear the pause again.
  predicate Lifted(s: State) {
    !s.pause && (s.holder.ByCaller? ==> !s.holder.at.ClearPause?)
  }

  // What a worker statement leaves alone.
  lemma WorkerLeaves(s: State, outcome: Outcome, reading: int)
    ensures
      var n := WorkerNext(s, outcome, reading);
      && n.pause == s.pause && n.stop == s.stop && n.resumes == s.resumes
      && (n.holder == s.holder || !n.holder.ByCaller?)
  {
  }

  lemma CallsGrow(s: State, outcome: Outcome, reading: int)
    ensures
      var n := WorkerNext(s, outcome, reading);
      if s.worker.Call? then |n.log.calls| == |s.log.calls| + 1 else n.log.calls == s.log.calls
  {
  }

  // The only things that keep a worker where it is.
  lemma WorkerWaits(s: State, outcome: Outcome, reading: int)
    requires WorkerNext(s, outcome, reading) == s
    ensures
      || s.worker.Exited? || s.worker.Asleep? || WaitsForTime(s)
      || ((s.worker.LockWork? || s.worker.Woken?) && s.holder != Free)
  {
  }

  lemma UnpausedWaitLowers(s: State)
    requires WakeInv(s) && !s.pause && InWait(s.worker)
    ensures WaitNext(s) != s ==> Distance(WaitNext(s).worker) < Distance(s.worker)
  {
  }

  lemma UnstoppedCycleLowers(s: State, outcome: Outcome, reading: int)
    requires !s.stop && Cycling(s.worker)
    ensures
      var n := CycleNext(s, outcome, reading);
      n != s && !s.worker.Call? ==> Distance(n.worker) < Distance(s.worker)
  {
  }

  lemma UnpausedWorkerLowers(s: State, outcome: Outcome, reading: int)
    requires WakeInv(s) && !s.pause && !s.stop
    ensures
      var n := WorkerNext(s, outcome, reading);
      n != s && !s.worker.Call? ==> Distance(n.worker) < Distance(s.worker)
  {
    if InWait(s.worker) {
      UnpausedWaitLowers(s);
    } else if Cycling(s.worker) {
      UnstoppedCycleLowers(s, outcome, reading);
    }
  }

  lemma WorkerTurnAdvances(s: State)
    requires Inv(s) && Lifted(s) && !s.holder.ByCaller? && s.joinable && !s.worker.Exited?
    requires s.holder == ByControl ==> WorkerHolds(s.worker)
    ensures
      var n := Next(s, WorkerTurn(s));
      && Lifted(n) && !n.holder.ByCaller? && n.resumes == s.resumes
      && n.control == s.control && n.joinable == s.joinable
      && |n.log.calls| >= |s.log.calls|
      && (|n.log.calls| == |s.log.calls| ==> WorkerLeft(n) < WorkerLeft(s))
  {
    if WorkerTurn(s).Worker? {
      WorkerFrame(s, Returns(0), 0);
      WorkerLeaves(s, Returns(0), 0);
      CallsGrow(s, Returns(0), 0);
      if WorkerNext(s, Returns(0), 0) == s {
        WorkerWaits(s, Returns(0), 0);
      } else if s.stop {
        StoppedWorkerLowers(s, Returns(0), 0);
      } else {
        UnpausedWorkerLowers(s, Returns(0), 0);
      }
    }
  }

  lemma InsideTurnAdvances(s: State)
    requires Lifted(s) && s.holder.ByCaller?
    ensures
      var n := InsideNext(s, 0);
      && Lifted(n) && n.resumes == s.resumes && |n.log.calls| == |s.log.calls|
      && SectionRank(n.holder) < SectionRank(s.holder)
  {
  }

  lemma ControlTurnAdvances(s: State)
    requires LockInv(s) && StopInv(s) && Lifted(s) && !s.holder.ByCaller?
    requires Turn(s) == Control || Turn(s) == StartThread
    ensures
      var n := Next(s, Turn(s));
      && Lifted(n) && !n.holder.ByCaller? && n.resumes == s.resumes && |n.log.calls| == |s.log.calls|
      && ControlLeft(n.control, n.joinable) < ControlLeft(s.control, s.joinable)
  {
  }

  lemma TurnAdvances(s: State)
    requires Inv(s) && Lifted(s)
    ensures
      var n := Next(s, Turn(s));
      && Inv(n) && Lifted(n) && n.resumes == s.resumes
      && |n.log.calls| >= |s.log.calls|
      && SectionRank(n.holder) <= SectionRank(s.holder)
      && (|n.log.calls| == |s.log.calls| ==>
            || SectionRank(n.holder) < SectionRank(s.holder)
            || ControlLeft(n.control, n.joinable) < ControlLeft(s.control, s.joinable)
            || (n.control == s.control && n.joinable == s.joinable && WorkerLeft(n) < WorkerLeft(s)))
  {
    StepKeepsInv(s, Turn(s));
    if s.holder.ByCaller? {
      InsideTurnAdvances(s);
    } else if Turn(s) == Control || Turn(s) == StartThread {
      ControlTurnAdvances(s);
    } else {
      WorkerTurnAdvances(s);
    }
  }

  // Unless it is paused, a handler can start a callback without another clearing
  // of the pause, wherever its threads are.
  lemma {:induction false} CallbackCanStart(s: State) returns (acts: seq<Action>)
    requires Inv(s) && Lifted(s)
    ensures var e := Exec(s, acts); e.resumes == s.resumes && |e.log.calls| > |s.log.calls|
    decreases SectionRank(s.holder), ControlLeft(s.control, s.joinable), WorkerLeft(s)
  {
    var n := Next(s, Turn(s));
    TurnAdvances(s);
    RunSnoc(Next, s, [], Turn(s));
    acts := [Turn(s)];
    assert [] + acts == acts;
    if |n.log.calls| == |s.log.calls| {
      var rest := CallbackCanStart(n);
      RunAppend(Next, s, acts, rest);
      acts := acts + rest;
    }
  }

  // No callback starts in any run until a trigger clears the pause.
  ghost predicate Barrier(s: State) {
    forall acts :: Exec(s, acts).resumes == s.resumes ==> Exec(s, acts).log.calls == s.log.calls
  }

  // When pause_execution holds the mutex, no callback starts until a trigger
  // clears the pause if and only if pause_thread_ is still set; and it is unless
  // a trigger has cleared it since the store of pause_execution.
  lemma PauseExecutionIsBarrier(s: State)
    requires Inv(s) && s.holder.ByCaller? && s.holder.at.PauseHeld?
    ensures s.pause <==> Barrier(s)
    ensures s.holder.at.epoch == s.resumes ==> s.pause
  {
    if s.pause {
      forall acts | Exec(s, acts).resumes == s.resumes ensures Exec(s, acts).log.calls == s.log.calls {
        PauseIsBarrier(s, acts);
      }
    } else {
      var acts := CallbackCanStart(s);
      assert Exec(s, acts).log.calls != s.log.calls;
    }
  }

  // A pauser is registered by its store, with the number of resumes so far, and
  // keeps that number until it locks.
  lemma StoreIsRemembered(s: State, a: Action, t: Tid)
    ensures
      var n := Next(s, a);
      t in n.callers.pausing ==>
        || (t in s.callers.pausing && n.callers.pausing[t] == s.callers.pausing[t])
        || (a == StorePause(t) && t in s.callers.storing && n.pause && n.callers.pausing[t] == s.resumes == n.resumes)
  {
    if a.Worker? {
      WorkerFrame(s, a.outcome, a.reading);
    }
  }

  // It holds the mutex with the number it had.
  lemma PauserLocksWithItsStore(s: State, a: Action, t: Tid, epoch: nat)
    requires LockInv(s) && s.holder != ByCaller(t, PauseHeld(epoch))
    requires Next(s, a).holder == ByCaller(t, PauseHeld(epoch))
    ensures a == PauseLock(t) && t in s.callers.pausing && s.callers.pausing[t] == epoch
  {
  }

  lemma {:induction false} PauserStored(rate: Rate, waitForTrigger: bool, acts: seq<Action>, t: Tid)
    returns (before: seq<Action>, mid: seq<Action>)
    requires t in Exec(Init(rate, waitForTrigger), acts).callers.pausing
    ensures acts == before + [StorePause(t)] + mid
    ensures
      var b := Exec(Init(rate, waitForTrigger), before);
      t in b.callers.storing && b.resumes == Exec(Init(rate, waitForTrigger), acts).callers.pausing[t]
    decreases |acts|
  {
    var front, last := acts[..|acts| - 1], acts[|acts| - 1];
    var f := Exec(Init(rate, waitForTrigger), front);
    assert acts == front + [last];
    StoreIsRemembered(f, last, t);
    if t in f.callers.pausing && Next(f, last).callers.pausing[t] == f.callers.pausing[t] {
      before, mid := PauserStored(rate, waitForTrigger, front, t);
      mid := mid + [last];
    } else {
      before, mid := front, [];
    }
  }

  // Whoever is inside pause_execution has stored the pause earlier in the run,
  // and locked later; the pause is down again only if a trigger has cleared it
  // since that store.
  lemma {:induction false} PauseFromStoreToLock(rate: Rate, waitForTrigger: bool, acts: seq<Action>)
    returns (before: seq<Action>, mid: seq<Action>, after: seq<Action>)
    requires
      var s := Exec(Init(rate, waitForTrigger), acts);
      s.holder.ByCaller? && s.holder.at.PauseHeld?
    ensures
      var s := Exec(Init(rate, waitForTrigger), acts);
      var b := Exec(Init(rate, waitForTrigger), before);
      && acts == before + [StorePause(s.holder.tid)] + mid + [PauseLock(s.holder.tid)] + after
      && s.holder.tid in b.callers.storing && b.resumes == s.holder.at.epoch <= s.resumes
      && (s.pause || b.resumes < s.resumes)
    decreases |acts|
  {
    var s0 := Init(rate, waitForTrigger);
    var front, last := acts[..|acts| - 1], acts[|acts| - 1];
    assert acts == front + [last];
    RunKeepsInv(s0, front);
    RunKeepsInv(s0, acts);
    var f, s := Exec(s0, front), Exec(s0, acts);
    if f.holder == s.holder {
      before, mid, after := PauseFromStoreToLock(rate, waitForTrigger, front);
      after := after + [last];
    } else {
      PauserLocksWithItsStore(f, last, s.holder.tid, s.holder.at.epoch);
      before, mid := PauserStored(rate, waitForTrigger, front, s.holder.tid);
      after := [];
    }
  }

  // A started handler that waits for its first trigger.
  function Waiting(rate: Rate, callers: Callers): State {
    Init(rate, true).(joinable := true, worker := TestPause, callers := callers)
  }

  lemma StartRun(rate: Rate) returns (acts: seq<Action>)
    ensures Exec(Init(rate, true), acts) == Waiting(rate, Callers({}, {}, {}, {}, map[]))
  {
    var s0 := Init(rate, true);
    var s;
    acts, s := Perform(Next, s0, [], s0, StartThread);
    acts, s := Perform(Next, s0, acts, s, Control);
    assert s == s0.(holder := ByControl, control := ResetFlags(true));
    acts, s := Perform(Next, s0, acts, s, Control);
    assert s == s0.(holder := ByControl, control := ResetError(true));
    acts, s := Perform(Next, s0, acts, s, Control);
    assert s == s0.(holder := ByControl, control := ResetUnlock(true));
    acts, s := Perform(Next, s0, acts, s, Control);
    acts, s := Perform(Next, s0, acts, s, Control);
  }

  // Trigger 1 loads the pause, then pauser 2 stores it.
  lemma RaceRun(rate: Rate) returns (acts: seq<Action>)
    ensures Exec(Init(rate, true), acts) == Waiting(rate, Callers({}, {1}, {}, {}, map[2 := 0]))
  {
    var s0 := Init(rate, true);
    acts := StartRun(rate);
    var s := Waiting(rate, Callers({}, {}, {}, {}, map[]));
    acts, s := Perform(Next, s0, acts, s, CheckError(1));
    assert s == Waiting(rate, Callers({1}, {}, {}, {}, map[]));
    acts, s := Perform(Next, s0, acts, s, LoadPause(1));
    assert s == Waiting(rate, Callers({}, {1}, {}, {}, map[]));
    acts, s := Perform(Next, s0, acts, s, Pause(2));
    assert s == Waiting(rate, Callers({}, {1}, {}, {2}, map[]));
    acts, s := Perform(Next, s0, acts, s, StorePause(2));
    assert s == Waiting(rate, Callers({}, {1}, {}, {}, map[2 := 0]));
  }

  // The critical section of a resuming trigger.
  lemma Resumes(s: State, t: Tid)
    requires s.holder == ByCaller(t, ClearPause)
    ensures
      var n := InsideNext(InsideNext(s, 0), 0);
      && n.holder == ByCaller(t, SetPrevious) && n.resumes == s.resumes + 1 && !n.pause
      && n.callers == s.callers && n.joinable == s.joinable && n.control == s.control
  {
  }

  lemma Leaves(s: State, t: Tid)
    requires s.holder == ByCaller(t, SetPrevious)
    ensures
      var n := InsideNext(InsideNext(s, 0), 0);
      && n.holder == Free && n.pause == s.pause && n.joinable == s.joinable && n.control == s.control
      && n.callers.pausing == s.callers.pausing
  {
  }

  lemma ResumeRun(from: State, before: seq<Action>, at: State, t: Tid) returns (acts: seq<Action>, s: State)
    requires Exec(from, before) == at && at.holder == ByCaller(t, ClearPause)
    ensures Exec(from, acts) == s
    ensures
      && s.holder == Free && !s.pause && s.joinable == at.joinable && s.control == at.control
      && s.callers.pausing == at.callers.pausing
  {
    Resumes(at, t);
    acts, s := Perform(Next, from, before, at, Inside(0));
    assert s == InsideNext(at, 0);
    acts, s := Perform(Next, from, acts, s, Inside(0));
    assert s == InsideNext(InsideNext(at, 0), 0);
    Leaves(s, t);
    var m := s;
    acts, s := Perform(Next, from, acts, s, Inside(0));
    acts, s := Perform(Next, from, acts, s, Inside(0));
    assert s == InsideNext(InsideNext(m, 0), 0);
  }

  // Then trigger 1 clears the pause, and only then does pauser 2 lock.
  lemma LostRun(rate: Rate) returns (acts: seq<Action>, s: State)
    ensures Exec(Init(rate, true), acts) == s
    ensures s.holder == ByCaller(2, PauseHeld(0)) && !s.pause && s.joinable && s.control == Idle
  {
    var s0 := Init(rate, true);
    acts := RaceRun(rate);
    s := Waiting(rate, Callers({}, {1}, {}, {}, map[2 := 0]));
    acts, s := Perform(Next, s0, acts, s, ResumeLock(1));
    assert s.holder == ByCaller(1, ClearPause) && s.callers.pausing == map[2 := 0];
    assert s.joinable && s.control == Idle;
    acts, s := ResumeRun(s0, acts, s, 1);
    acts, s := Perform(Next, s0, acts, s, PauseLock(2));
  }

  // A trigger that loaded the pause before can clear it between the store and
  // the lock of pause_execution, which then returns true with the worker live:
  // here is such a schedule, and callbacks follow without another trigger.
  lemma PauseCanBeLost(rate: Rate)
    ensures exists acts, more ::
              var s := Exec(Init(rate, true), acts);
              && s.holder == ByCaller(2, PauseHeld(0)) && !s.pause && s.joinable && s.control == Idle
              && Exec(s, more).resumes == s.resumes && |Exec(s, more).log.calls| > |s.log.calls|
  {
    var acts, s := LostRun(rate);
    RunKeepsInv(Init(rate, true), acts);
    var more := CallbackCanStart(s);
    assert Exec(Init(rate, true), acts) == s;
  }

  // ------------------------------------------------------------------- resuming

  predicate Undisturbing(a: Action) {
    !a.StopThread? && !a.ResetVariables? && !a.StorePause?
  }

  ghost predicate Live(s: State) {
    Inv(s) && s.joinable && s.control.Idle? && !s.pause
  }

  lemma LiveStep(s: State, a: Action)
    requires Live(s) && Undisturbing(a)
    ensures
      var n := Next(s, a);
      && Live(n) && |n.log.calls| >= |s.log.calls|
      && (|n.log.calls| == |s.log.calls| ==> Distance(n.worker) <= Distance(s.worker))
      && (|n.log.calls| == |s.log.calls| && a.Worker? && n != s ==> Distance(n.worker) < Distance(s.worker))
  {
    StepKeepsInv(s, a);
    if a.Worker? {
      WorkerFrame(s, a.outcome, a.reading);
      WorkerLeaves(s, a.outcome, a.reading);
      CallsGrow(s, a.outcome, a.reading);
      UnpausedWorkerLowers(s, a.outcome, a.reading);
    }
  }

  lemma LiveWorkerWaits(s: State, outcome: Outcome, reading: int)
    requires Live(s) && WorkerNext(s, outcome, reading) == s
    ensures s.holder.ByCaller? || (s.worker.Asleep? && s.callers.notifying != {}) || WaitsForTime(s)
  {
    WorkerWaits(s, outcome, reading);
  }

  lemma LiveRun(s: State, acts: seq<Action>)
    requires Live(s)
    requires forall a :: a in acts ==> Undisturbing(a)
    ensures
      var e := Exec(s, acts);
      && Live(e)
      && (|e.log.calls| == |s.log.calls| ==>
            Work(Next, (x: State, a: Action) => a.Worker?, s, acts) + Distance(e.worker) <= Distance(s.worker))
  {
    var keep := (x: State) => Live(x) && |x.log.calls| >= |s.log.calls|;
    var pending := (x: State) => |x.log.calls| == |s.log.calls|;
    var pick := (x: State, a: Action) => a.Worker?;
    var rank := (x: State) => Distance(x.worker);
    forall x: State, a: Action | keep(x) && Undisturbing(a)
      ensures keep(Next(x, a))
      ensures pending(Next(x, a)) ==> pending(x) && rank(Next(x, a)) <= rank(x)
      ensures pending(Next(x, a)) && pick(x, a) && Next(x, a) != x ==> rank(Next(x, a)) < rank(x)
    {
      LiveStep(x, a);
    }
    WorkWhile(Next, keep, pending, Undisturbing, pick, rank, s, acts);
  }

  // Once the pause is lifted the next callback starts within fourteen statements
  // of the worker, in any run without stop, reset and another pause: a run in
  // which none has started had fewer.  Only a caller inside the mutex, a notify
  // still owed or a sleep that is not over can hold the worker up.
  lemma ResumeIsServed(s: State, acts: seq<Action>, outcome: Outcome, reading: int)
    requires Live(s)
    requires forall a :: a in acts ==> Undisturbing(a)
    ensures
      var e := Exec(s, acts);
      |e.log.calls| == |s.log.calls| ==>
        && Work(Next, (x: State, a: Action) => a.Worker?, s, acts) + Distance(e.worker) <= Distance(s.worker) <= 14
        && (Next(e, Worker(outcome, reading)) == e ==>
              e.holder.ByCaller? || (e.worker.Asleep? && e.callers.notifying != {}) || WaitsForTime(e))
  {
    LiveRun(s, acts);
    if WorkerNext(Exec(s, acts), outcome, reading) == Exec(s, acts) {
      LiveWorkerWaits(Exec(s, acts), outcome, reading);
    }
  }

  // -------------------------------------------------------------------- wakeup

  // A worker asleep in either wait with the pause lifted or a stop requested is
  // still owed a notify; and one that has yet to fall asleep cannot have missed
  // a stop unless the stopper has still to pass the empty critical section.
  lemma NoLostWakeup(rate: Rate, waitForTrigger: bool, acts: seq<Action>)
    ensures
      var s := Exec(Init(rate, waitForTrigger), acts);
      && (s.worker.Asleep? && !s.pause ==>
            || s.callers.notifying != {}
            || (s.holder.ByCaller?
                && (s.holder.at.ClearValue? || s.holder.at.SetPrevious? || s.holder.at.UnlockResume?)))
      && (s.worker.Asleep? && s.stop ==> s.control.StopLock? || s.control.StopUnlock? || s.control.StopNotify?)
      && (s.worker.DozeWork? && s.stop ==> s.control.StopLock?)
  {
    RunKeepsInv(Init(rate, waitForTrigger), acts);
  }

  // ---------------------------------------------------------------------- stop

  predicate NoStartNoReset(a: Action) {
    !a.StartThread? && !a.ResetVariables?
  }

  predicate Halted(s: State) {
    StopSeen(s.control) || (s.control.Idle? && !s.joinable)
  }

  lemma HaltedStep(s: State, a: Action)
    requires LockInv(s) && StopInv(s) && Halted(s) && NoStartNoReset(a)
    ensures Halted(Next(s, a)) && Next(s, a).log.calls == s.log.calls
  {
  }

  // Once stop_thread holds the mutex no callback starts again, in any run, until
  // the next start or reset.
  lemma StopSilencesCallback(s: State, acts: seq<Action>)
    requires Inv(s) && StopSeen(s.control)
    requires forall a :: a in acts ==> NoStartNoReset(a)
    ensures Exec(s, acts).log.calls == s.log.calls
  {
    var inv := (x: State) => Inv(x) && Halted(x) && x.log.calls == s.log.calls;
    forall x: State, a: Action | inv(x) && NoStartNoReset(a) ensures inv(Next(x, a)) {
      StepKeepsInv(x, a);
      HaltedStep(x, a);
    }
    RunKeeps(Next, inv, NoStartNoReset, s, acts);
  }

  // How many statements the worker has left once the stop flag is set.
  function Rank(pc: WorkerPc): nat {
    match pc
    case Exited => 0
    case TestStop => 1
    case NotifyAll => 2
    case UnlockWork => 3
    case SleepUntil => 4
    case Advance => 5
    case InCall => 6
    case Call => 7
    case ReadClock => 8
    case TestStopInside => 9
    case SetAnchor => 2
    case FirstSleep(_) => 3
    case ReadInitial => 4
    case UnlockInitial => 5
    case TestWork(_) => 10
    case LockWork(_) => 11
    case Woken(_) => 11
    case Asleep(_) => 12
    case DozeWork(_) => 13
    case TestPause => 12
  }

  predicate Ending(s: State) {
    StopUnderWay(s.control) || (s.control.Idle? && !s.joinable)
  }

  lemma StoppedCycleLowers(s: State, outcome: Outcome, reading: int)
    requires s.stop && Cycling(s.worker)
    ensures Rank(WorkerNext(s, outcome, reading).worker) < Rank(s.worker) || WorkerNext(s, outcome, reading) == s
  {
  }

  lemma StoppedWorkerLowers(s: State, outcome: Outcome, reading: int)
    requires s.stop
    ensures Rank(WorkerNext(s, outcome, reading).worker) < Rank(s.worker) || WorkerNext(s, outcome, reading) == s
  {
    if Cycling(s.worker) {
      StoppedCycleLowers(s, outcome, reading);
    }
  }

  lemma EndingStep(s: State, a: Action)
    requires LockInv(s) && StopInv(s) && Ending(s) && NoStartNoReset(a)
    ensures
      var n := Next(s, a);
      Ending(n) && Rank(n.worker) <= Rank(s.worker) && (a.Worker? && n != s ==> Rank(n.worker) < Rank(s.worker))
  {
    if a.Worker? && s.stop {
      StoppedWorkerLowers(s, a.outcome, a.reading);
      WorkerFrame(s, a.outcome, a.reading);
    }
  }

  // Once the stop flag is set the worker performs at most Rank more statements,
  // in any run without start or reset.
  lemma StopBoundsWorker(s: State, acts: seq<Action>)
    requires Inv(s) && StopUnderWay(s.control)
    requires forall a :: a in acts ==> NoStartNoReset(a)
    ensures Work(Next, (x: State, a: Action) => a.Worker?, s, acts) + Rank(Exec(s, acts).worker) <= Rank(s.worker) <= 13
  {
    var inv := (x: State) => Inv(x) && Ending(x);
    var rank := (x: State) => Rank(x.worker);
    forall x: State, a: Action | inv(x) && NoStartNoReset(a)
      ensures inv(Next(x, a)) && rank(Next(x, a)) <= rank(x)
      ensures a.Worker? && Next(x, a) != x ==> rank(Next(x, a)) < rank(x)
    {
      StepKeepsInv(x, a);
      EndingStep(x, a);
    }
    WorkBound(Next, inv, NoStartNoReset, (x: State, a: Action) => a.Worker?, rank, s, acts);
  }

  // Statements left inside the critical section of a caller.
  function SectionRank(h: Holder): nat {
    if !h.ByCaller? then 0 else
    match h.at
    case ClearPause => 4
    case ClearValue => 3
    case SetPrevious => 2
    case _ => 1
  }

  // The only things that keep a worker where it is once the stop flag is set.
  lemma StoppedWorkerWaits(s: State, outcome: Outcome, reading: int)
    requires s.stop && WorkerNext(s, outcome, reading) == s
    ensures
      || s.worker.Exited? || s.worker.Asleep?
      || (s.worker.FirstSleep? && s.now < s.worker.until)
      || (s.worker.SleepUntil? && s.now < s.pace.deadline)
      || ((s.worker.LockWork? || s.worker.Woken?) && s.holder != Free)
  {
  }

  // While stop_thread waits in the join, the worker can move, or is in its first
  // sleep, or waits for a caller inside the mutex that is nearer its unlock; once
  // the worker has exited the join returns.
  lemma JoinNotStuck(s: State, outcome: Outcome, reading: int)
    requires Inv(s) && s.control.Join?
    ensures
      if s.worker.Exited? then !Next(s, Control).joinable && Next(s, Control).control.Idle?
      else
        || Rank(Next(s, Worker(outcome, reading)).worker) < Rank(s.worker)
        || (s.worker.FirstSleep? && s.now < s.worker.until)
        || (s.holder.ByCaller? && SectionRank(Next(s, Inside(reading)).holder) < SectionRank(s.holder))
  {
    StoppedWorkerLowers(s, outcome, reading);
    if WorkerNext(s, outcome, reading) == s {
      StoppedWorkerWaits(s, outcome, reading);
    }
  }

  // -------------------------------------------------------------------- pacing

  // Every deadline is the anchor plus a whole number of periods, at least one
  // for each callback done; the n-th callback never starts before the anchor
  // plus n - 1 periods; and a sleep never lasts more than one period.
  lemma NeverFastNeverDrifting(rate: Rate, waitForTrigger: bool, acts: seq<Action>)
    ensures
      var s := Exec(Init(rate, waitForTrigger), acts);
      var p := Period(s.rate);
      s.rate == rate &&
      (OnGrid(s.worker) ==>
        && s.pace.deadline == s.pace.anchor + s.pace.steps * p
        && s.pace.steps >= s.pace.done
        && |s.pace.starts| == s.pace.done + (if s.worker.InCall? || s.worker.Advance? then 1 else 0)
        && (forall i :: 0 <= i < |s.pace.starts| ==> s.pace.starts[i] >= Grid(s.pace.anchor, i, p))
        && (s.worker.SleepUntil? ==> s.pace.deadline - s.now <= p)
        && (s.worker.Call? ==> s.now >= s.pace.deadline))
  {
    RunKeepsInv(Init(rate, waitForTrigger), acts);
    forall x: State, a: Action | x.rate == rate ensures Next(x, a).rate == rate { RateFixed(x, a); }
    RunKeeps(Next, (x: State) => x.rate == rate, (a: Action) => true, Init(rate, waitForTrigger), acts);
  }

  lemma RateFixed(s: State, a: Action)
    ensures Next(s, a).rate == s.rate
  {
  }

  // The deadline the worker goes to sleep for, when the callback has overrun it:
  // back on the grid, later than a grid point less than k nanoseconds ago.
  lemma OverrunCatchesUp(s: State, outcome: Outcome, reading: int)
    requires Inv(s) && s.worker.Advance?
    ensures
      var p := Period(s.rate);
      var next := s.pace.deadline + p;
      var after := Next(s, Worker(outcome, reading)).pace;
      && after.steps > s.pace.steps && after.done == s.pace.done + 1
      && after.deadline == Grid(s.pace.anchor, after.steps, p)
      && (next >= s.now ==> after.deadline == next)
      && (next < s.now ==>
            -OverrunCount(s.now - next, s.rate) < after.deadline - s.now < p)
      && (SECOND % s.rate == 0 ==> after.deadline >= s.now)
  {
    var next := s.pace.deadline + Period(s.rate);
    AdvanceKeepsPace(s.pace, s.now, s.rate);
    if next < s.now {
      CatchUp(s.now - next, s.rate);
      if SECOND % s.rate == 0 {
        CatchUpExact(s.now - next, s.rate);
      }
    }
  }

  // --------------------------------------------------------- measured periods

  function Total(jobs: seq<Job>): int {
    if jobs == [] then 0 else Total(jobs[..|jobs| - 1]) + jobs[|jobs| - 1].period
  }

  lemma {:induction false} ChainTotals(jobs: seq<Job>, base: int)
    requires Chain(jobs, base)
    ensures Total(jobs) == Before(jobs, base, |jobs|) - base
  {
    if jobs != [] {
      var front := jobs[..|jobs| - 1];
      assert forall i :: 0 <= i < |front| ==> front[i] == jobs[i] && Before(front, base, i) == Before(jobs, base, i);
      ChainTotals(front, base);
    }
  }

  // The periods given to the callbacks of a segment sum to the time of its last
  // callback minus the value previous_time_ had when the segment began, and the
  // first is measured from that value.
  lemma PeriodsTelescope(rate: Rate, waitForTrigger: bool, acts: seq<Action>)
    ensures
      var s := Exec(Init(rate, waitForTrigger), acts);
      var g := s.log.segment;
      && (!s.worker.Call? ==> s.log.calls == g.earlier + g.jobs)
      && (s.worker.Call? ==> s.log.calls + [s.slot.args] == g.earlier + g.jobs)
      && Total(g.jobs) == g.previous - g.base
      && (g.jobs != [] ==>
            && g.previous == g.jobs[|g.jobs| - 1].time
            && g.jobs[0].period == g.jobs[0].time - g.base)
  {
    RunKeepsInv(Init(rate, waitForTrigger), acts);
    var s := Exec(Init(rate, waitForTrigger), acts);
    ChainTotals(s.log.segment.jobs, s.log.segment.base);
    assert s.log.calls + [] == s.log.calls;
  }

  // What a step does to the segment that is not the beginning of a new one.
  ghost predicate Continues(g: Segment, n: Segment) {
    n.base == g.base && n.earlier == g.earlier && g.jobs <= n.jobs
  }

  lemma WorkerContinues(s: State, outcome: Outcome, reading: int)
    requires !s.worker.ReadInitial?
    ensures Continues(s.log.segment, WorkerNext(s, outcome, reading).log.segment)
  {
  }

  // A segment begins only when the worker first reads the clock or a resuming
  // trigger, reading the clock at r, sets previous_time_ to r - period, so that
  // no paused time is charged; every other step leaves its base alone and at
  // most adds to it.
  lemma SegmentsBegin(s: State, a: Action)
    ensures
      var n := Next(s, a).log.segment;
      if a.Inside? && s.holder.ByCaller? && s.holder.at.SetPrevious? then
        n == Segment(a.reading - Period(s.rate), a.reading - Period(s.rate), s.log.calls, [])
      else if a.Worker? && s.worker.ReadInitial? then
        n == Segment(a.reading, a.reading, s.log.calls, [])
      else Continues(s.log.segment, n)
  {
    if a.Worker? && !s.worker.ReadInitial? {
      WorkerContinues(s, a.outcome, a.reading);
    }
  }
}
