// When a wait call is stranded under the SYNCHRONIZED policy: after a reset, and
// after a stop.
module SynchronizedWaiters {
  import opened Runs
  import opened HandlerTypes
  import opened SynchronizedProtocol
  import opened SynchronizedRuns
  import opened SynchronizedProgress

  // The worker is past the notify that ends a cycle.
  predicate NotNotifying(s: State) {
    !s.worker.UnlockWork? && !s.worker.NotifyAll?
  }

  lemma StrandedStep(s: State, a: Action, t: Tid)
    requires Live(s) && t in s.waits.asleep && !s.trigger && NotNotifying(s)
    requires NoStopNoReset(a) && a != SpuriousWakeWaiter(t)
    ensures
      var n := Next(s, a);
      n.log.accepted == s.log.accepted ==> t in n.waits.asleep && !n.trigger && NotNotifying(n)
  {
  }

  // The run wakes t without a stop, a reset, another trigger or a spurious wakeup.
  ghost predicate Wakes(s: State, acts: seq<Action>, t: Tid) {
    && (forall a :: a in acts ==> NoStopNoReset(a) && a != SpuriousWakeWaiter(t))
    && Exec(s, acts).log.accepted == s.log.accepted
    && t !in Exec(s, acts).waits.asleep
  }

  lemma StrandedSleeps(s: State, acts: seq<Action>, t: Tid)
    requires Live(s) && t in s.waits.asleep && !s.trigger && NotNotifying(s)
    ensures !Wakes(s, acts, t)
  {
    if forall a :: a in acts ==> NoStopNoReset(a) && a != SpuriousWakeWaiter(t) {
      var accepted := s.log.accepted;
      var inv := (x: State) =>
        && Live(x) && accepted <= x.log.accepted
        && (x.log.accepted == accepted ==> t in x.waits.asleep && !x.trigger && NotNotifying(x));
      var ok := (a: Action) => NoStopNoReset(a) && a != SpuriousWakeWaiter(t);
      forall x: State, a: Action | inv(x) && ok(a) ensures inv(Next(x, a)) {
        LiveFates(x, a);
        if Next(x, a).log.accepted == accepted { StrandedStep(x, a, t); }
      }
      RunKeeps(Next, inv, ok, s, acts);
    }
  }

  // The exact condition for a waiter asleep with no trigger pending to be woken
  // without a stop, a reset, another trigger or a spurious wakeup: the worker is
  // about to notify.
  lemma WokenIffNotifying(s: State, t: Tid)
    requires Live(s) && t in s.waits.asleep && !s.trigger
    ensures !NotNotifying(s) <==> exists acts :: Wakes(s, acts, t)
  {
    if NotNotifying(s) {
      forall acts ensures !Wakes(s, acts, t) { StrandedSleeps(s, acts, t); }
    } else {
      var acts := NotifyRun(s, t);
    }
  }

  // The end of the worker's cycle.
  lemma NotifyRun(s: State, t: Tid) returns (acts: seq<Action>)
    requires !NotNotifying(s)
    ensures Wakes(s, acts, t)
  {
    var w := Worker(Returns(0));
    if s.worker.UnlockWork? {
      var n;
      acts, n := Perform(Next, s, [], s, w);
      assert n == s.(holder := Free, worker := NotifyAll);
      NotifyWakes(s, acts, n, t);
      acts := acts + [w];
    } else {
      NotifyWakes(s, [], s, t);
      acts := [] + [w];
    }
  }

  lemma NotifyWakes(s: State, acts: seq<Action>, n: State, t: Tid)
    requires Exec(s, acts) == n && n.worker.NotifyAll? && n.log.accepted == s.log.accepted
    requires forall a :: a in acts ==> a == Worker(Returns(0))
    ensures Wakes(s, acts + [Worker(Returns(0))], t)
  {
    RunSnoc(Next, s, acts, Worker(Returns(0)));
  }

  // ------------------------------------------------------------------- resets

  // What reset_variables does from its first store to its unlock.
  function ResetDone(s: State): State {
    Next(Next(Next(s, Control), Control), Control)
  }

  lemma ResetLeaves(s: State)
    requires s.control == ResetFlags(false)
    ensures
      var n := ResetDone(s);
      && n.control.Idle? && n.joinable == s.joinable && !n.trigger && n.waits == s.waits && n.worker == s.worker
  {
  }

  // The exact condition for a reset to strand a waiter that no earlier reset has
  // stranded: trigger_in_progress_ is set when the reset clears it, unless the
  // notify of the cycle before is still to come.
  lemma ResetStrandsIffPending(s: State, t: Tid)
    requires Inv(s) && s.control == ResetFlags(false) && s.joinable
    requires t in s.waits.asleep && !ClearedSince(s.log.fates, s.waits.asleep[t])
    ensures (forall more :: !Wakes(ResetDone(s), more, t)) <==> s.trigger && !s.worker.NotifyAll?
  {
    ResetLeaves(s);
    StepKeepsInv(s, Control);
    StepKeepsInv(Next(s, Control), Control);
    StepKeepsInv(Next(Next(s, Control), Control), Control);
    WokenIffNotifying(ResetDone(s), t);
  }

  // -------------------------------------------------------------------- stops

  // The run neither starts the handler again nor resets it.
  ghost predicate Undone(acts: seq<Action>) {
    forall a :: a in acts ==> NoStartNoReset(a)
  }

  // It also wakes t, and not spuriously.
  ghost predicate StopWakes(s: State, acts: seq<Action>, t: Tid) {
    Undone(acts) && SpuriousWakeWaiter(t) !in acts && t !in Exec(s, acts).waits.asleep
  }

  // The worker ends without another cycle once the stop flag is set.
  predicate Leaving(s: State) {
    s.worker.TestStop? || s.worker.Exited?
  }

  lemma LeavingStep(s: State, a: Action, t: Tid)
    requires WorkerInv(s) && StopInv(s) && Ending(s) && Leaving(s) && t in s.waits.asleep
    requires NoStartNoReset(a) && a != SpuriousWakeWaiter(t)
    ensures Leaving(Next(s, a)) && t in Next(s, a).waits.asleep
  {
  }

  lemma LeavingSleeps(s: State, acts: seq<Action>, t: Tid)
    requires Inv(s) && Ending(s) && Leaving(s) && t in s.waits.asleep
    ensures !StopWakes(s, acts, t)
  {
    if Undone(acts) && SpuriousWakeWaiter(t) !in acts {
      var inv := (x: State) => Inv(x) && Ending(x) && Leaving(x) && t in x.waits.asleep;
      var ok := (a: Action) => NoStartNoReset(a) && a != SpuriousWakeWaiter(t);
      forall x: State, a: Action | inv(x) && ok(a) ensures inv(Next(x, a)) {
        StepKeepsInv(x, a);
        EndingStep(x, a);
        LeavingStep(x, a, t);
      }
      RunKeeps(Next, inv, ok, s, acts);
    }
  }

  // The step that brings a stopped worker nearer its last notify.
  function LastTurn(s: State): Action {
    if s.holder.ByCaller? then Inside(false)
    else if s.control.StopUnlock? || s.worker.Asleep? then Control
    else Worker(Returns(0))
  }

  function StopLeft(control: ControlPc): nat {
    match control
    case StopLock => 3
    case StopUnlock => 2
    case StopNotify => 1
    case _ => 0
  }

  lemma LastWorkerTurn(s: State, t: Tid)
    requires WorkerInv(s) && StopInv(s) && StopUnderWay(s.control) && !Leaving(s) && t in s.waits.asleep
    requires LastTurn(s).Worker?
    ensures
      var n := WorkerNext(s, Returns(0));
      Rank(n.worker) < Rank(s.worker) && n.control == s.control && (t in n.waits.asleep ==> !Leaving(n))
  {
  }

  lemma LastInsideTurn(s: State, t: Tid)
    requires s.holder.ByCaller? && t in s.waits.asleep
    ensures
      var n := InsideNext(s, false);
      && n.worker == s.worker && n.control == s.control && t in n.waits.asleep
      && SectionRank(n.holder) < SectionRank(s.holder)
  {
  }

  lemma LastTurnAdvances(s: State, t: Tid)
    requires WorkerInv(s) && WakeInv(s) && StopInv(s) && StopUnderWay(s.control) && !Leaving(s)
    requires t in s.waits.asleep
    ensures
      var n := Next(s, LastTurn(s));
      && (t in n.waits.asleep ==> StopUnderWay(n.control) && !Leaving(n))
      && (|| Rank(n.worker) < Rank(s.worker)
          || (n.worker == s.worker && StopLeft(n.control) < StopLeft(s.control))
          || (n.worker == s.worker && n.control == s.control && SectionRank(n.holder) < SectionRank(s.holder)))
  {
    if s.holder.ByCaller? {
      LastInsideTurn(s, t);
    } else if LastTurn(s).Worker? {
      LastWorkerTurn(s, t);
    }
  }

  lemma {:induction false} LastCycle(s: State, t: Tid) returns (acts: seq<Action>)
    requires Inv(s) && StopUnderWay(s.control) && !Leaving(s) && t in s.waits.asleep
    ensures StopWakes(s, acts, t)
    decreases Rank(s.worker), StopLeft(s.control), SectionRank(s.holder)
  {
    var n;
    StepKeepsInv(s, LastTurn(s));
    LastTurnAdvances(s, t);
    acts, n := Perform(Next, s, [], s, LastTurn(s));
    if t in n.waits.asleep {
      var rest := LastCycle(n, t);
      RunAppend(Next, s, acts, rest);
      acts := acts + rest;
    }
  }

  // The exact condition for stop_thread, once its flag is set, to wake a waiter:
  // the worker is not already at its outer test, where it leaves without a notify.
  lemma StopWakesIff(s: State, t: Tid)
    requires Inv(s) && StopUnderWay(s.control) && t in s.waits.asleep
    ensures !Leaving(s) <==> exists acts :: StopWakes(s, acts, t)
  {
    if Leaving(s) {
      forall acts ensures !StopWakes(s, acts, t) { LeavingSleeps(s, acts, t); }
    } else {
      var acts := LastCycle(s, t);
    }
  }

  // The worker has gone.
  ghost predicate Gone(s: State, t: Tid) {
    Inv(s) && OnePlace(s, t) && Ending(s) && s.worker.Exited? && Since(s, t).Some?
  }

  // A trigger is pending, or a caller inside is about to set the flag; and t is
  // not about to return.
  predicate Hung(s: State, t: Tid) {
    && (s.trigger || (s.holder.ByCaller? && s.holder.at.SetFlag?))
    && !(s.holder.ByCaller? && s.holder.tid == t && s.holder.at.LeaveWait?)
  }

  lemma HungStep(s: State, a: Action, t: Tid)
    requires WorkerInv(s) && OnePlace(s, t) && Ending(s) && s.worker.Exited? && Since(s, t).Some? && Hung(s, t)
    requires NoStartNoReset(a)
    ensures Hung(Next(s, a), t) && Since(Next(s, a), t).Some? && Next(s, a).worker.Exited?
  {
    WaitRemembersStart(s, a, t);
  }

  lemma HungForever(s: State, acts: seq<Action>, t: Tid)
    requires Gone(s, t) && Hung(s, t) && Undone(acts)
    ensures Since(Exec(s, acts), t).Some?
  {
    var inv := (x: State) => Gone(x, t) && Hung(x, t);
    forall x: State, a: Action | inv(x) && NoStartNoReset(a) ensures inv(Next(x, a)) {
      StepKeepsInv(x, a);
      StepKeepsOnePlace(x, a, t);
      EndingStep(x, a);
      HungStep(x, a, t);
    }
    RunKeeps(Next, inv, NoStartNoReset, s, acts);
  }

  // The step that brings the wait call of t nearer its end.
  function WaiterTurn(s: State, t: Tid): Action {
    if s.holder.ByCaller? then Inside(false)
    else if s.holder == ByControl then Control
    else if t in s.waits.asleep then SpuriousWakeWaiter(t)
    else WaitLock(t)
  }

  lemma WaiterTurnAdvances(s: State, t: Tid)
    requires WorkerInv(s) && WaitInv(s) && OnePlace(s, t) && Ending(s) && s.worker.Exited?
    requires Since(s, t).Some? && !Hung(s, t)
    ensures
      var n := Next(s, WaiterTurn(s, t));
      Since(n, t).Some? ==>
        && !Hung(n, t) && n.worker.Exited?
        && (|| WaitRank(n, t) < WaitRank(s, t)
            || (WaitRank(n, t) == WaitRank(s, t) && SectionRank(n.holder) < SectionRank(s.holder))
            || (WaitRank(n, t) == WaitRank(s, t) && SectionRank(n.holder) == SectionRank(s.holder)
                && StopLeft(n.control) < StopLeft(s.control)))
  {
  }

  lemma {:induction false} LastReturn(s: State, t: Tid) returns (acts: seq<Action>)
    requires Gone(s, t) && !Hung(s, t)
    ensures Undone(acts) && Since(Exec(s, acts), t).None?
    decreases WaitRank(s, t), SectionRank(s.holder), StopLeft(s.control)
  {
    var a := WaiterTurn(s, t);
    var n;
    StepKeepsInv(s, a);
    StepKeepsOnePlace(s, a, t);
    EndingStep(s, a);
    WaiterTurnAdvances(s, t);
    acts, n := Perform(Next, s, [], s, a);
    assert Undone(acts);
    if Since(n, t).Some? {
      var rest := LastReturn(n, t);
      RunAppend(Next, s, acts, rest);
      acts := acts + rest;
    }
  }

  // The exact condition for a wait call to hang once a stopped worker has exited,
  // in every run without start and reset, whatever spurious wakeups there are:
  // trigger_in_progress_ is set, or about to be, and the call is not about to
  // return already.
  lemma WaitHangsIffPending(s: State, t: Tid)
    requires Gone(s, t)
    ensures Hung(s, t) <==> forall acts :: Undone(acts) ==> Since(Exec(s, acts), t).Some?
  {
    if Hung(s, t) {
      forall acts | Undone(acts) ensures Since(Exec(s, acts), t).Some? { HungForever(s, acts, t); }
    } else {
      var acts := LastReturn(s, t);
    }
  }

  // ---------------------------------------------------------------- schedules

  // A started handler whose worker has yet to run.
  function Fresh(trigger: bool, args: Job, triggers: Triggers, waits: Waits, log: Log): State {
    Init().(joinable := true, worker := TestStop, trigger := trigger, args := args, triggers := triggers,
            waits := waits, log := log)
  }

  // Four statements of the control thread.
  lemma FourControls(from: State, before: seq<Action>, at: State) returns (acts: seq<Action>, s: State)
    requires Exec(from, before) == at
    ensures Exec(from, acts) == s && s == ControlNext(ControlNext(ControlNext(ControlNext(at))))
  {
    acts, s := Perform(Next, from, before, at, Control);
    acts, s := Perform(Next, from, acts, s, Control);
    acts, s := Perform(Next, from, acts, s, Control);
    acts, s := Perform(Next, from, acts, s, Control);
  }

  // start_thread alone.
  lemma Starts()
    ensures
      var s := Next(Init(), StartThread);
      ControlNext(ControlNext(ControlNext(ControlNext(ControlNext(s)))))
      == Fresh(false, Job(0, 0), Init().triggers, Init().waits, Init().log)
  {
    var s := ControlNext(ControlNext(Next(Init(), StartThread)));
    assert s == Init().(holder := ByControl, control := ResetError(true));
    assert ControlNext(ControlNext(s)) == Init().(control := Spawn);
  }

  lemma StartRun() returns (acts: seq<Action>)
    ensures Exec(Init(), acts) == Fresh(false, Job(0, 0), Init().triggers, Init().waits, Init().log)
  {
    var s0 := Init();
    Starts();
    var s;
    acts, s := Perform(Next, s0, [], s0, StartThread);
    acts, s := Perform(Next, s0, acts, s, Control);
    acts, s := FourControls(s0, acts, s);
  }

  // Thread 1 gets a trigger accepted.
  lemma TriggerRun(job: Job) returns (acts: seq<Action>)
    ensures
      Exec(Init(), acts) == Fresh(true, job, Triggers({}, {}, {1}), Init().waits, Log([Trigger(1, job)], [], []))
  {
    var s0 := Init();
    acts := StartRun();
    var s := Fresh(false, Job(0, 0), s0.triggers, s0.waits, s0.log);
    acts, s := Perform(Next, s0, acts, s, CheckError(1));
    assert s == Fresh(false, Job(0, 0), Triggers({1}, {}, {}), s0.waits, s0.log);
    acts, s := Perform(Next, s0, acts, s, CheckRunning(1));
    assert s == Fresh(false, Job(0, 0), Triggers({}, {1}, {}), s0.waits, s0.log);
    acts, s := Perform(Next, s0, acts, s, TryLock(1, job, true));
    var f := Fresh(false, Job(0, 0), s0.triggers, s0.waits, s0.log);
    assert s == f.(holder := ByCaller(1, TestFlag(job)));
    acts, s := Perform(Next, s0, acts, s, Inside(true));
    acts, s := Perform(Next, s0, acts, s, Inside(true));
    f := Fresh(true, Job(0, 0), s0.triggers, s0.waits, Log([Trigger(1, job)], [], []));
    assert s == f.(holder := ByCaller(1, SetArgs(job)));
    acts, s := Perform(Next, s0, acts, s, Inside(true));
    acts, s := Perform(Next, s0, acts, s, Inside(true));
  }

  // Thread 2 waits for its end.
  lemma WaitRun(job: Job) returns (acts: seq<Action>)
    ensures
      Exec(Init(), acts) ==
        Fresh(true, job, Triggers({}, {}, {1}), Waits(map[], map[2 := 1]), Log([Trigger(1, job)], [], []))
  {
    var s0 := Init();
    var triggers, log := Triggers({}, {}, {1}), Log([Trigger(1, job)], [], []);
    acts := TriggerRun(job);
    var s := Fresh(true, job, triggers, s0.waits, log);
    acts, s := Perform(Next, s0, acts, s, Wait(2));
    assert s == Fresh(true, job, triggers, Waits(map[2 := 1], map[]), log);
    acts, s := Perform(Next, s0, acts, s, WaitLock(2));
    assert s == Fresh(true, job, triggers, Waits(map[], map[]), log).(holder := ByCaller(2, TestCycle(1)));
    acts, s := Perform(Next, s0, acts, s, Inside(true));
    assert s == Fresh(true, job, triggers, Waits(map[], map[]), log).(holder := ByCaller(2, DozeCycle(1)));
    acts, s := Perform(Next, s0, acts, s, Inside(true));
  }

  lemma ResetEnds(from: State, before: seq<Action>, at: State) returns (acts: seq<Action>, s: State)
    requires Exec(from, before) == at
    ensures Exec(from, acts) == s && s == ResetDone(at)
  {
    acts, s := Perform(Next, from, before, at, Control);
    acts, s := Perform(Next, from, acts, s, Control);
    acts, s := Perform(Next, from, acts, s, Control);
  }

  lemma ResetRun(job: Job) returns (acts: seq<Action>, s: State)
    ensures Exec(Init(), acts) == s
    ensures s.joinable && s.control.Idle? && 2 in s.waits.asleep && !s.trigger && s.worker.TestStop?
  {
    var s0 := Init();
    acts := WaitRun(job);
    s := Fresh(true, job, Triggers({}, {}, {1}), Waits(map[], map[2 := 1]), Log([Trigger(1, job)], [], []));
    acts, s := Perform(Next, s0, acts, s, ResetVariables);
    acts, s := Perform(Next, s0, acts, s, Control);
    assert s.control == ResetFlags(false) && s.joinable && 2 in s.waits.asleep && s.worker.TestStop?;
    ResetLeaves(s);
    acts, s := ResetEnds(s0, acts, s);
  }

  // A reset that clears the pending trigger strands a waiter: here is a run after
  // which no run wakes thread 2 without a stop, another trigger or a spurious
  // wakeup.
  lemma ResetStrandsWaiter(job: Job)
    ensures exists acts ::
              var s := Exec(Init(), acts);
              && 2 in s.waits.asleep && !s.trigger
              && forall more :: !Wakes(s, more, 2)
  {
    var acts, s := ResetRun(job);
    RunKeepsInv(Init(), acts);
    forall more ensures !Wakes(s, more, 2) { StrandedSleeps(s, more, 2); }
    assert Exec(Init(), acts) == s;
  }

  // stop_thread from its lock to its return, the worker gone.
  lemma StopReturns(s: State)
    requires s.control == StopLock && s.holder == Free && s.worker.Exited?
    ensures
      var n := ControlNext(ControlNext(ControlNext(ControlNext(s))));
      && n.control.Idle? && !n.joinable && n.worker.Exited? && n.holder == Free
      && n.trigger == s.trigger && n.waits == s.waits
  {
    var m := ControlNext(ControlNext(s));
    assert m == s.(control := StopNotify);
  }

  // The worker, still at its outer test, finds the stop flag and exits.
  lemma StopRun(job: Job) returns (acts: seq<Action>, s: State)
    ensures Exec(Init(), acts) == s
    ensures s.control.Idle? && !s.joinable && s.worker.Exited? && s.trigger && s.holder == Free
    ensures s.waits == Waits(map[], map[2 := 1])
  {
    var s0 := Init();
    acts := WaitRun(job);
    s := Fresh(true, job, Triggers({}, {}, {1}), Waits(map[], map[2 := 1]), Log([Trigger(1, job)], [], []));
    acts, s := Perform(Next, s0, acts, s, StopThread);
    acts, s := Perform(Next, s0, acts, s, Control);
    assert s.stop && s.control == StopLock && s.worker.TestStop? && s.holder == Free && s.trigger;
    acts, s := Perform(Next, s0, acts, s, Worker(Returns(0)));
    assert s.worker.Exited? && s.control == StopLock && s.holder == Free && s.trigger;
    assert s.waits == Waits(map[], map[2 := 1]);
    StopReturns(s);
    acts, s := FourControls(s0, acts, s);
  }

  // A stop strands a waiter when the worker exits with a trigger pending: here is
  // a run after which stop_thread has returned and the wait call of thread 2
  // returns in no run without start or reset, spurious wakeups or not.
  lemma StopStrandsWaiter(job: Job)
    ensures exists acts ::
              var s := Exec(Init(), acts);
              && s.control.Idle? && !s.joinable && Since(s, 2).Some?
              && forall more :: Undone(more) ==> Since(Exec(s, more), 2).Some?
  {
    var acts, s := StopRun(job);
    RunKeepsInv(Init(), acts);
    RunKeepsOnePlace(acts, 2);
    WaitHangsIffPending(s, 2);
    assert Exec(Init(), acts) == s;
  }
}
