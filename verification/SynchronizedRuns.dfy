// What holds in every run of AsyncFunctionHandler under the SYNCHRONIZED policy.
module SynchronizedRuns {
  import opened Runs
  import opened HandlerTypes
  import opened SynchronizedProtocol

  // ------------------------------------------------- each trigger runs once

  lemma {:induction false} CountsAddUp(fates: seq<Fate>)
    ensures Count(fates, Ran) + Count(fates, Skipped) + Count(fates, Cleared) == |fates|
  {
    if fates != [] {
      CountsAddUp(fates[..|fates| - 1]);
    }
  }

  lemma {:induction false} ExecutedCount(accepted: seq<Trigger>, fates: seq<Fate>)
    requires |fates| <= |accepted|
    ensures |Executed(accepted, fates)| == Count(fates, Ran)
  {
    if fates != [] {
      ExecutedCount(accepted, fates[..|fates| - 1]);
    }
  }

  // In every run the callback was given the arguments of the accepted triggers
  // that were neither skipped by a stop nor cleared by a reset, in order and
  // once each; and every accepted trigger is accounted for.
  lemma ExactlyOnce(acts: seq<Action>)
    ensures
      var s := Exec(Init(), acts);
      var log := s.log;
      && |log.fates| <= |log.accepted|
      && (InFlight(s.worker) ==> s.trigger && |log.fates| < |log.accepted|)
      && log.calls == Executed(log.accepted, log.fates)
                      + (if InFlight(s.worker) then [log.accepted[|log.fates|].job] else [])
      && |log.accepted| == Count(log.fates, Ran) + Count(log.fates, Skipped) + Count(log.fates, Cleared)
                           + (if s.trigger then 1 else 0)
      && |log.calls| == Count(log.fates, Ran) + (if InFlight(s.worker) then 1 else 0)
  {
    RunKeepsInv(Init(), acts);
    var log := Exec(Init(), acts).log;
    CountsAddUp(log.fates);
    ExecutedCount(log.accepted, log.fates);
  }

  // The worker about to invoke the callback always has a pending trigger, and
  // the arguments it will pass are that trigger's own.
  lemma CallHasItsTrigger(acts: seq<Action>)
    ensures
      var s := Exec(Init(), acts);
      s.worker.Call? ==>
        s.trigger && |s.log.accepted| == |s.log.fates| + 1 && s.args == s.log.accepted[|s.log.fates|].job
  {
    RunKeepsInv(Init(), acts);
  }

  predicate AllRan(fates: seq<Fate>) {
    forall f :: f in fates ==> f == Ran
  }

  function Jobs(accepted: seq<Trigger>): (jobs: seq<Job>)
    ensures |jobs| == |accepted|
    ensures forall i :: 0 <= i < |accepted| ==> jobs[i] == accepted[i].job
  {
    seq(|accepted|, i requires 0 <= i < |accepted| => accepted[i].job)
  }

  lemma {:induction false} ExecutedAll(accepted: seq<Trigger>, fates: seq<Fate>)
    requires |fates| <= |accepted| && AllRan(fates)
    ensures Executed(accepted, fates) == Jobs(accepted)[..|fates|]
  {
    if fates != [] {
      var n := |fates| - 1;
      assert forall f :: f in fates[..n] ==> f in fates;
      assert fates[n] in fates;
      ExecutedAll(accepted, fates[..n]);
    }
  }

  // Nothing has been accepted by a handler that was never started.
  ghost predicate Untouched(s: State) {
    !s.joinable ==>
      && s.log == Log([], [], []) && !s.trigger && !s.holder.ByCaller?
      && s.triggers.ready == {} && s.waits == Waits(map[], map[])
  }

  ghost predicate Undisturbed(s: State) {
    && Untouched(s) && AllRan(s.log.fates) && !s.stop
    && (s.control.Idle? || Starting(s.control))
  }

  predicate NoStopNoReset(a: Action) {
    !a.StopThread? && !a.ResetVariables?
  }

  lemma UndisturbedWorker(s: State, outcome: Outcome)
    requires WorkerInv(s) && StopInv(s) && Undisturbed(s)
    ensures Undisturbed(WorkerNext(s, outcome))
  {
  }

  lemma UndisturbedControl(s: State)
    requires WorkerInv(s) && StopInv(s) && Undisturbed(s)
    ensures Undisturbed(ControlNext(s))
  {
  }

  lemma UndisturbedStep(s: State, a: Action)
    requires Inv(s) && Undisturbed(s) && NoStopNoReset(a)
    ensures Inv(Next(s, a)) && Undisturbed(Next(s, a))
  {
    StepKeepsInv(s, a);
    if a.Worker? {
      UndisturbedWorker(s, a.outcome);
    } else if a.Control? {
      UndisturbedControl(s);
    }
  }

  lemma UndisturbedAlways(acts: seq<Action>)
    requires forall a :: a in acts ==> NoStopNoReset(a)
    ensures Inv(Exec(Init(), acts)) && Undisturbed(Exec(Init(), acts))
  {
    var inv := (x: State) => Inv(x) && Undisturbed(x);
    forall x: State, a: Action | inv(x) && NoStopNoReset(a) ensures inv(Next(x, a)) {
      UndisturbedStep(x, a);
    }
    RunKeeps(Next, inv, NoStopNoReset, Init(), acts);
  }

  // Without stop and reset the callback sees every accepted trigger, in order,
  // and at most the last one is still to come.
  lemma UndisturbedRun(acts: seq<Action>)
    requires forall a :: a in acts ==> NoStopNoReset(a)
    ensures
      var log := Exec(Init(), acts).log;
      && |log.calls| <= |log.accepted| <= |log.calls| + 1
      && log.calls == Jobs(log.accepted)[..|log.calls|]
  {
    UndisturbedAlways(acts);
    var log := Exec(Init(), acts).log;
    ExecutedAll(log.accepted, log.fates);
  }

  // ------------------------------------------------------------- stop_thread

  // A sleeping worker with a trigger or a stop to see is still owed a notify; a
  // worker that found nothing to do and has not yet gone to sleep cannot have
  // missed a stop unless the stopper has still to pass the empty critical section.
  lemma NoLostWakeup(acts: seq<Action>)
    ensures
      var s := Exec(Init(), acts);
      && (s.worker.Asleep? && s.stop ==> s.control.StopLock? || s.control.StopUnlock? || s.control.StopNotify?)
      && (s.worker.DozeWork? && s.stop ==> s.control.StopLock?)
      && (s.worker.Asleep? && s.trigger ==>
            s.triggers.notifying != {}
            || (s.holder.ByCaller? && (s.holder.at.SetArgs? || s.holder.at.UnlockTriggered?)))
  {
    RunKeepsInv(Init(), acts);
  }

  predicate NoStartNoReset(a: Action) {
    !a.StartThread? && !a.ResetVariables?
  }

  predicate Halted(s: State) {
    StopSeen(s.control) || (s.control.Idle? && !s.joinable)
  }

  lemma HaltedStep(s: State, a: Action)
    requires WorkerInv(s) && StopInv(s) && Halted(s) && NoStartNoReset(a)
    ensures Halted(Next(s, a)) && Next(s, a).log.calls == s.log.calls
  {
  }

  // Once stop_thread holds the mutex no callback starts again, in any run, until
  // the next start or reset.
  lemma StopSilencesCallback(s: State, acts: seq<Action>)
    requires Inv(s) && StopSeen(s.control)
    requires forall a :: a in acts ==> NoStartNoReset(a)
    ensures Exec(s, acts).log.calls == s.log.calls
  {
    var inv := (x: State) => Inv(x) && Halted(x) && x.log.calls == s.log.calls;
    forall x: State, a: Action | inv(x) && NoStartNoReset(a) ensures inv(Next(x, a)) {
      StepKeepsInv(x, a);
      HaltedStep(x, a);
    }
    RunKeeps(Next, inv, NoStartNoReset, s, acts);
  }

  // How many statements the worker has left once the stop flag is set.
  function Rank(pc: WorkerPc): nat {
    match pc
    case Exited => 0
    case TestStop => 1
    case NotifyAll => 2
    case UnlockWork => 3
    case ClearFlag(_) => 4
    case InCall => 5
    case Call => 6
    case TestStopInside => 7
    case TestWork => 8
    case LockWork => 9
    case Woken => 9
    case Asleep => 10
    case DozeWork => 11
  }

  predicate Ending(s: State) {
    StopUnderWay(s.control) || (s.control.Idle? && !s.joinable)
  }

  lemma StoppedWorkerLowers(s: State, outcome: Outcome)
    requires s.stop
    ensures
      var n := WorkerNext(s, outcome);
      n != s ==> Rank(n.worker) < Rank(s.worker) && n.control == s.control && n.joinable == s.joinable
  {
  }

  lemma EndingStep(s: State, a: Action)
    requires WorkerInv(s) && StopInv(s) && Ending(s) && NoStartNoReset(a)
    ensures
      var n := Next(s, a);
      Ending(n) && Rank(n.worker) <= Rank(s.worker) && (a.Worker? && n != s ==> Rank(n.worker) < Rank(s.worker))
  {
    if a.Worker? && s.stop {
      StoppedWorkerLowers(s, a.outcome);
    }
  }

  // Once the stop flag is set the worker performs at most Rank more statements,
  // in any run without start or reset.
  lemma StopBoundsWorker(s: State, acts: seq<Action>)
    requires Inv(s) && StopUnderWay(s.control)
    requires forall a :: a in acts ==> NoStartNoReset(a)
    ensures Work(Next, (x: State, a: Action) => a.Worker?, s, acts) + Rank(Exec(s, acts).worker) <= Rank(s.worker) <= 11
  {
    var inv := (x: State) => Inv(x) && Ending(x);
    var rank := (x: State) => Rank(x.worker);
    forall x: State, a: Action | inv(x) && NoStartNoReset(a)
      ensures inv(Next(x, a)) && rank(Next(x, a)) <= rank(x)
      ensures a.Worker? && Next(x, a) != x ==> rank(Next(x, a)) < rank(x)
    {
      StepKeepsInv(x, a);
      EndingStep(x, a);
    }
    WorkBound(Next, inv, NoStartNoReset, (x: State, a: Action) => a.Worker?, rank, s, acts);
  }

  // Statements left inside the critical section of a caller.
  function SectionRank(h: Holder): nat {
    if !h.ByCaller? then 0 else
    match h.at
    case TestFlag(_) => 4
    case SetFlag(_) => 3
    case SetArgs(_) => 2
    case TestCycle(_) => 2
    case _ => 1
  }

  // While stop_thread waits in the join, the worker can move, or waits for a
  // caller inside the mutex that can move and is nearer its unlock; once the
  // worker has exited the join returns.
  lemma JoinNotStuck(s: State, outcome: Outcome, agrees: bool)
    requires Inv(s) && s.control.Join?
    ensures
      if s.worker.Exited? then !Next(s, Control).joinable && Next(s, Control).control.Idle?
      else
        || Rank(Next(s, Worker(outcome)).worker) < Rank(s.worker)
        || (s.holder.ByCaller? && SectionRank(Next(s, Inside(agrees)).holder) < SectionRank(s.holder))
  {
  }

  // --------------------------------------------------------------- exceptions

  function AcceptedBy(accepted: seq<Trigger>, t: Tid): nat {
    if accepted == [] then 0
    else AcceptedBy(accepted[..|accepted| - 1], t) + if accepted[|accepted| - 1].tid == t then 1 else 0
  }

  // A trigger call of t has passed the exception check and may yet be accepted.
  predicate PastCheck(s: State, t: Tid) {
    t in s.triggers.checked || t in s.triggers.ready
    || (s.holder.ByCaller? && s.holder.tid == t && (s.holder.at.TestFlag? || s.holder.at.SetFlag?))
  }

  // A thread is in at most one place.
  ghost predicate OnePlace(s: State, t: Tid) {
    Alone(s.triggers, s.waits, s.holder, t)
  }

  ghost predicate Alone(out: Triggers, waits: Waits, holder: Holder, t: Tid) {
    var triggering := t in out.checked || t in out.ready || t in out.notifying;
    var waiting := t in waits.locking || t in waits.asleep;
    && (t in out.checked ==> t !in out.ready && t !in out.notifying)
    && (t in out.ready ==> t !in out.notifying)
    && (t in waits.locking ==> t !in waits.asleep)
    && (triggering ==> !waiting)
    && (holder.ByCaller? && holder.tid == t ==> !triggering && !waiting)
  }

  lemma WorkerKeepsOnePlace(s: State, outcome: Outcome, t: Tid)
    requires OnePlace(s, t)
    ensures OnePlace(WorkerNext(s, outcome), t)
  {
  }

  lemma InsideKeepsOnePlace(s: State, agrees: bool, t: Tid)
    requires OnePlace(s, t) && s.holder.ByCaller?
    ensures OnePlace(InsideNext(s, agrees), t)
  {
  }

  lemma CallerKeepsOnePlace(s: State, a: Action, t: Tid)
    requires OnePlace(s, t)
    ensures OnePlace(CallerNext(s, a), t)
  {
  }

  lemma StepKeepsOnePlace(s: State, a: Action, t: Tid)
    requires OnePlace(s, t)
    ensures OnePlace(Next(s, a), t)
  {
    match a
    case Worker(outcome) => WorkerKeepsOnePlace(s, outcome, t);
    case Inside(agrees) => if s.holder.ByCaller? { InsideKeepsOnePlace(s, agrees, t); }
    case SpuriousWake =>
    case StartThread =>
    case StopThread =>
    case ResetVariables =>
    case Control =>
    case _ => CallerKeepsOnePlace(s, a, t);
  }

  lemma RunKeepsOnePlace(acts: seq<Action>, t: Tid)
    ensures OnePlace(Exec(Init(), acts), t)
  {
    forall x: State, a: Action | OnePlace(x, t) ensures OnePlace(Next(x, a), t) { StepKeepsOnePlace(x, a, t); }
    RunKeeps(Next, (x: State) => OnePlace(x, t), (a: Action) => true, Init(), acts);
  }

  ghost predicate Captured(s: State, t: Tid, most: nat) {
    && s.error.Some? && OnePlace(s, t)
    && !s.control.ResetLock? && !s.control.ResetFlags? && !s.control.ResetError?
    && AcceptedBy(s.log.accepted, t) + (if PastCheck(s, t) then 1 else 0) <= most
  }

  // An accepted trigger is no longer past its check only.
  lemma InsideAccepts(s: State, agrees: bool, t: Tid)
    requires OnePlace(s, t) && s.holder.ByCaller?
    ensures
      var n := InsideNext(s, agrees);
      && n.error == s.error && n.control == s.control
      && AcceptedBy(n.log.accepted, t) + (if PastCheck(n, t) then 1 else 0)
         <= AcceptedBy(s.log.accepted, t) + (if PastCheck(s, t) then 1 else 0)
  {
    var accepted := s.log.accepted;
    if s.holder.at.SetFlag? {
      assert (accepted + [Trigger(s.holder.tid, s.holder.at.job)])[..|accepted|] == accepted;
    }
  }

  lemma CapturedInside(s: State, agrees: bool, t: Tid, most: nat)
    requires Captured(s, t, most) && s.holder.ByCaller?
    ensures Captured(InsideNext(s, agrees), t, most)
  {
    InsideKeepsOnePlace(s, agrees, t);
    InsideAccepts(s, agrees, t);
  }

  // What a worker statement leaves alone.
  lemma WorkerLeaves(s: State, outcome: Outcome)
    ensures
      var n := WorkerNext(s, outcome);
      n.triggers == s.triggers && n.log.accepted == s.log.accepted && n.control == s.control
  {
  }

  lemma WorkerKeepsError(s: State, outcome: Outcome)
    ensures
      var n := WorkerNext(s, outcome);
      (s.error.Some? ==> n.error.Some?) && (n.holder == s.holder || !n.holder.ByCaller?)
  {
  }

  lemma CapturedWorker(s: State, outcome: Outcome, t: Tid, most: nat)
    requires Captured(s, t, most)
    ensures Captured(WorkerNext(s, outcome), t, most)
  {
    WorkerKeepsOnePlace(s, outcome, t);
    WorkerLeaves(s, outcome);
    WorkerKeepsError(s, outcome);
  }

  lemma CapturedCaller(s: State, a: Action, t: Tid, most: nat)
    requires Captured(s, t, most)
    ensures Captured(CallerNext(s, a), t, most)
  {
    CallerKeepsOnePlace(s, a, t);
  }

  lemma CapturedStep(s: State, a: Action, t: Tid, most: nat)
    requires Captured(s, t, most) && NoStartNoReset(a)
    ensures Captured(Next(s, a), t, most)
  {
    match a
    case Worker(outcome) => CapturedWorker(s, outcome, t, most);
    case Inside(agrees) => if s.holder.ByCaller? { CapturedInside(s, agrees, t, most); }
    case SpuriousWake =>
    case StartThread =>
    case StopThread =>
    case ResetVariables =>
    case Control =>
    case _ => CapturedCaller(s, a, t, most);
  }

  // After a callback has thrown, and until variables are reset, a thread gets at
  // most one more trigger accepted, and none if its call has yet to pass the
  // exception check: every later call of it rethrows.
  lemma AtMostOneMoreAfterThrow(before: seq<Action>, after: seq<Action>, t: Tid)
    requires Exec(Init(), before).error.Some?
    requires var c := Exec(Init(), before).control; !c.ResetLock? && !c.ResetFlags? && !c.ResetError?
    requires forall a :: a in after ==> NoStartNoReset(a)
    ensures
      var s := Exec(Init(), before);
      var e := Exec(s, after);
      && AcceptedBy(e.log.accepted, t) <= AcceptedBy(s.log.accepted, t) + (if PastCheck(s, t) then 1 else 0)
      && (!Busy(e, t) ==> Next(e, CheckError(t)) == e)
  {
    var s := Exec(Init(), before);
    RunKeepsOnePlace(before, t);
    var most := AcceptedBy(s.log.accepted, t) + if PastCheck(s, t) then 1 else 0;
    forall x: State, a: Action | Captured(x, t, most) && NoStartNoReset(a) ensures Captured(Next(x, a), t, most) {
      CapturedStep(x, a, t, most);
    }
    RunKeeps(Next, (x: State) => Captured(x, t, most), NoStartNoReset, s, after);
  }

  // ------------------------------------------- wait_for_trigger_cycle_to_finish

  // A waiter asleep with no trigger pending is about to be notified by the
  // worker, unless a reset has cleared a trigger since its call began.
  lemma WaitersNotStranded(acts: seq<Action>, t: Tid)
    ensures
      var s := Exec(Init(), acts);
      t in s.waits.asleep && !s.trigger && !ClearedSince(s.log.fates, s.waits.asleep[t]) ==>
        s.worker.UnlockWork? || s.worker.NotifyAll?
  {
    RunKeepsInv(Init(), acts);
  }

  // How many triggers had been accepted when the wait call of t began.
  function Since(s: State, t: Tid): Option<nat> {
    Remembered(s.waits, s.holder, t)
  }

  function Remembered(waits: Waits, holder: Holder, t: Tid): Option<nat> {
    if t in waits.locking then Some(waits.locking[t])
    else if t in waits.asleep then Some(waits.asleep[t])
    else if holder.ByCaller? && holder.tid == t then
      match holder.at
      case TestCycle(n) => Some(n)
      case DozeCycle(n) => Some(n)
      case LeaveWait(n) => Some(n)
      case _ => None
    else None
  }

  lemma CallerRemembersStart(s: State, a: Action, t: Tid)
    requires OnePlace(s, t)
    ensures
      var n := CallerNext(s, a);
      && (Since(s, t).Some? ==> Since(n, t) == Since(s, t))
      && (Since(s, t).None? && Since(n, t).Some? ==> a == Wait(t) && Since(n, t) == Some(|s.log.accepted|))
  {
  }

  lemma InsideRemembersStart(s: State, agrees: bool, t: Tid)
    requires OnePlace(s, t) && s.holder.ByCaller?
    ensures
      || Since(InsideNext(s, agrees), t) == Since(s, t)
      || (s.holder.tid == t && s.holder.at.LeaveWait? && Since(InsideNext(s, agrees), t).None?)
  {
  }

  lemma WorkerRemembersStart(s: State, outcome: Outcome, t: Tid)
    requires OnePlace(s, t) && WorkerInv(s)
    ensures Since(WorkerNext(s, outcome), t) == Since(s, t)
  {
  }

  lemma ControlRemembersStart(s: State, t: Tid)
    requires WorkerInv(s)
    ensures Since(ControlNext(s), t) == Since(s, t)
  {
  }

  // A wait call remembers its start until it returns, and returns only from the
  // statement after its predicate held.
  lemma WaitRemembersStart(s: State, a: Action, t: Tid)
    requires OnePlace(s, t) && WorkerInv(s)
    ensures
      var n := Next(s, a);
      && (Since(s, t).Some? ==>
            Since(n, t) == Since(s, t) || (s.holder.ByCaller? && s.holder.tid == t && s.holder.at.LeaveWait?))
      && (Since(s, t).None? && Since(n, t).Some? ==> a == Wait(t) && Since(n, t) == Some(|s.log.accepted|))
  {
    match a
    case Worker(outcome) => WorkerRemembersStart(s, outcome, t);
    case Inside(agrees) => if s.holder.ByCaller? { InsideRemembersStart(s, agrees, t); }
    case SpuriousWake =>
    case StartThread =>
    case StopThread =>
    case ResetVariables =>
    case Control => ControlRemembersStart(s, t);
    case _ => CallerRemembersStart(s, a, t);
  }

  lemma {:induction false} ExecutedPrefix(accepted: seq<Trigger>, fates: seq<Fate>, n: nat)
    requires n <= |fates| <= |accepted|
    ensures Executed(accepted, fates[..n]) <= Executed(accepted, fates)
    decreases |fates|
  {
    if n == |fates| {
      assert fates[..n] == fates;
    } else {
      var front := fates[..|fates| - 1];
      ExecutedPrefix(accepted, front, n);
      assert front[..n] == fates[..n];
    }
  }

  // When a wait call returns, the fate of every trigger accepted before the call
  // began is decided, and those of them that ran have been given to the callback,
  // in order, and their callbacks have ended; if no stop skipped and no reset
  // cleared one of them, that is all of them.
  lemma WaitSeesEarlierTriggers(acts: seq<Action>)
    ensures
      var s := Exec(Init(), acts);
      s.holder.ByCaller? && s.holder.at.LeaveWait? ==>
        var n := s.holder.at.since;
        && n <= |s.log.fates| <= |s.log.accepted| && !InFlight(s.worker)
        && Executed(s.log.accepted, s.log.fates[..n]) <= s.log.calls
        && (AllRan(s.log.fates[..n]) ==> n <= |s.log.calls| && s.log.calls[..n] == Jobs(s.log.accepted)[..n])
  {
    var s := Exec(Init(), acts);
    RunKeepsInv(Init(), acts);
    if s.holder.ByCaller? && s.holder.at.LeaveWait? {
      var n := s.holder.at.since;
      ExecutedPrefix(s.log.accepted, s.log.fates, n);
      if AllRan(s.log.fates[..n]) {
        ExecutedAll(s.log.accepted, s.log.fates[..n]);
      }
    }
  }
}
