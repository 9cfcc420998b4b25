// What AsyncFunctionHandler does sooner or later under the SYNCHRONIZED policy:
// pending triggers run and waiters return.
module SynchronizedProgress {
  import opened Runs
  import opened HandlerTypes
  import opened SynchronizedProtocol
  import opened SynchronizedRuns

  // Started, and neither being stopped nor reset.
  ghost predicate Live(s: State) {
    Inv(s) && s.joinable && s.control.Idle?
  }

  // How many statements the worker has left before a pending trigger is settled.
  function ServeRank(pc: WorkerPc): nat {
    match pc
    case Exited => 0
    case ClearFlag(_) => 1
    case InCall => 2
    case Call => 3
    case TestStopInside => 4
    case TestWork => 5
    case LockWork => 6
    case Woken => 6
    case Asleep => 7
    case TestStop => 7
    case DozeWork => 8
    case NotifyAll => 8
    case UnlockWork => 9
  }

  // The trigger accepted after n others is pending, or has run.
  ghost predicate Serving(s: State, n: nat) {
    |s.log.fates| >= n && (if |s.log.fates| == n then s.trigger else s.log.fates[n] == Ran)
  }

  lemma ServingWorker(s: State, outcome: Outcome, n: nat)
    requires Live(s) && Serving(s, n)
    ensures
      var m := WorkerNext(s, outcome);
      && Serving(m, n)
      && (|m.log.fates| == n ==>
            |s.log.fates| == n && (m != s ==> ServeRank(m.worker) < ServeRank(s.worker)))
  {
  }

  lemma ServingStep(s: State, a: Action, n: nat)
    requires Live(s) && Serving(s, n) && NoStopNoReset(a)
    ensures
      var m := Next(s, a);
      && Live(m) && Serving(m, n)
      && (|m.log.fates| == n ==>
            && |s.log.fates| == n && ServeRank(m.worker) <= ServeRank(s.worker)
            && (a.Worker? && m != s ==> ServeRank(m.worker) < ServeRank(s.worker)))
  {
    StepKeepsInv(s, a);
    if a.Worker? {
      ServingWorker(s, a.outcome, n);
    }
  }

  predicate WorkerHeldUp(s: State, agrees: bool) {
    || (s.holder.ByCaller? && SectionRank(Next(s, Inside(agrees)).holder) < SectionRank(s.holder))
    || (s.worker.Asleep? && s.triggers.notifying != {})
  }

  // A worker that cannot move with a trigger pending waits for a caller inside
  // the mutex, nearer its unlock, or for a notify that a caller owes it.
  lemma PendingWorkerWaits(s: State, outcome: Outcome, agrees: bool)
    requires Live(s) && s.trigger && WorkerNext(s, outcome) == s
    ensures WorkerHeldUp(s, agrees)
  {
  }

  lemma ServingRun(s: State, acts: seq<Action>, n: nat)
    requires Live(s) && Serving(s, n)
    requires forall a :: a in acts ==> NoStopNoReset(a)
    ensures
      var e := Exec(s, acts);
      && Live(e) && Serving(e, n)
      && (|e.log.fates| == n ==>
            Work(Next, (x: State, a: Action) => a.Worker?, s, acts) + ServeRank(e.worker) <= ServeRank(s.worker))
  {
    var keep := (x: State) => Live(x) && Serving(x, n);
    var pending := (x: State) => |x.log.fates| == n;
    var pick := (x: State, a: Action) => a.Worker?;
    var rank := (x: State) => ServeRank(x.worker);
    forall x: State, a: Action | keep(x) && NoStopNoReset(a)
      ensures keep(Next(x, a))
      ensures pending(Next(x, a)) ==> pending(x) && rank(Next(x, a)) <= rank(x)
      ensures pending(Next(x, a)) && pick(x, a) && Next(x, a) != x ==> rank(Next(x, a)) < rank(x)
    {
      ServingStep(x, a, n);
    }
    WorkWhile(Next, keep, pending, NoStopNoReset, pick, rank, s, acts);
  }

  // Without stop and reset a pending trigger has run, callback and all, within
  // nine statements of the worker: a run that leaves it pending had fewer, and
  // only a caller inside the mutex or a notify still owed holds the worker up.
  lemma PendingIsRun(s: State, acts: seq<Action>, outcome: Outcome, agrees: bool)
    requires Live(s) && s.trigger
    requires forall a :: a in acts ==> NoStopNoReset(a)
    ensures
      var n := |s.log.fates|;
      var e := Exec(s, acts);
      && |e.log.fates| >= n
      && (|e.log.fates| > n ==> e.log.fates[n] == Ran)
      && (|e.log.fates| == n ==>
            && Work(Next, (x: State, a: Action) => a.Worker?, s, acts) + ServeRank(e.worker) <= ServeRank(s.worker) <= 9
            && (Next(e, Worker(outcome)) == e ==> WorkerHeldUp(e, agrees)))
  {
    var e, n := Exec(s, acts), |s.log.fates|;
    ServingRun(s, acts, n);
    if |e.log.fates| == n && WorkerNext(e, outcome) == e {
      PendingWorkerWaits(e, outcome, agrees);
    }
  }

  // How many statements a wait call has left once no trigger is pending.
  function WaitRank(s: State, t: Tid): nat {
    if t in s.waits.asleep then 4
    else if t in s.waits.locking then 3
    else if s.holder.ByCaller? && s.holder.tid == t then (if s.holder.at.LeaveWait? then 1 else 2)
    else 0
  }

  // No trigger is pending unless one more than those of `accepted` was accepted,
  // and no reset has cleared one since the wait call of t began, after `since`.
  ghost predicate Settled(s: State, t: Tid, since: nat, accepted: seq<Trigger>) {
    && Live(s) && OnePlace(s, t) && !ClearedSince(s.log.fates, since)
    && (Since(s, t).Some? ==> Since(s, t).value == since)
    && |accepted| <= |s.log.accepted|
    && (|s.log.accepted| == |accepted| ==> !s.trigger)
  }

  lemma LiveFatesWorker(s: State, outcome: Outcome)
    requires Live(s)
    ensures
      var n := WorkerNext(s, outcome);
      && n.joinable && n.control.Idle? && n.log.accepted == s.log.accepted && (n.trigger ==> s.trigger)
      && (n.log.fates == s.log.fates || n.log.fates == s.log.fates + [Ran])
  {
  }

  lemma LiveFatesOthers(s: State, a: Action)
    requires s.joinable && s.control.Idle? && NoStopNoReset(a) && !a.Worker?
    ensures
      var n := Next(s, a);
      && n.joinable && n.control.Idle? && n.log.fates == s.log.fates && s.log.accepted <= n.log.accepted
      && (n.log.accepted == s.log.accepted ==> n.trigger == s.trigger)
  {
  }

  // Only a stop skips a trigger and only a reset clears one.
  lemma LiveFates(s: State, a: Action)
    requires Live(s) && NoStopNoReset(a)
    ensures Live(Next(s, a)) && s.log.accepted <= Next(s, a).log.accepted
    ensures Next(s, a).log.fates == s.log.fates || Next(s, a).log.fates == s.log.fates + [Ran]
    ensures Next(s, a).log.accepted == s.log.accepted && !s.trigger ==> !Next(s, a).trigger
  {
    StepKeepsInv(s, a);
    if a.Worker? {
      LiveFatesWorker(s, a.outcome);
    } else {
      LiveFatesOthers(s, a);
    }
  }

  predicate WaiterStatement(s: State, a: Action, t: Tid) {
    a == WaitLock(t) || (a.Inside? && s.holder.ByCaller? && s.holder.tid == t)
  }

  lemma WaiterStep(s: State, a: Action, t: Tid)
    requires Live(s) && OnePlace(s, t) && !s.trigger && a != Wait(t)
    requires Since(Next(s, a), t).Some?
    ensures Since(s, t).Some? && WaitRank(Next(s, a), t) <= WaitRank(s, t)
    ensures WaiterStatement(s, a, t) && Next(s, a) != s ==> WaitRank(Next(s, a), t) < WaitRank(s, t)
  {
    WaitRemembersStart(s, a, t);
  }

  predicate StillWaiting(s: State, t: Tid, accepted: seq<Trigger>) {
    |s.log.accepted| == |accepted| && Since(s, t).Some?
  }

  lemma SettledStep(s: State, a: Action, t: Tid, since: nat, accepted: seq<Trigger>)
    requires Settled(s, t, since, accepted) && NoStopNoReset(a) && a != Wait(t)
    ensures
      var n := Next(s, a);
      && Settled(n, t, since, accepted)
      && (StillWaiting(n, t, accepted) ==>
            && StillWaiting(s, t, accepted) && WaitRank(n, t) <= WaitRank(s, t)
            && (WaiterStatement(s, a, t) && n != s ==> WaitRank(n, t) < WaitRank(s, t)))
  {
    LiveFates(s, a);
    StepKeepsOnePlace(s, a, t);
    WaitRemembersStart(s, a, t);
    if StillWaiting(Next(s, a), t, accepted) {
      assert s.log.accepted == Next(s, a).log.accepted;
      WaiterStep(s, a, t);
    }
  }

  // What a waiter may wait for: the worker's notify, which comes next, a lock
  // that somebody else holds, or only its own next statement.
  predicate WaiterHeldUp(s: State, t: Tid) {
    || (t in s.waits.asleep && (s.worker.UnlockWork? || s.worker.NotifyAll?))
    || (t in s.waits.locking && (s.holder == Free ==> Next(s, WaitLock(t)) != s))
    || (s.holder.ByCaller? && s.holder.tid == t)
  }

  lemma WaiterWaits(s: State, t: Tid, since: nat, accepted: seq<Trigger>)
    requires Settled(s, t, since, accepted) && StillWaiting(s, t, accepted)
    ensures WaiterHeldUp(s, t)
  {
  }

  // Once no trigger is pending, a wait call since whose beginning no reset has
  // cleared one returns within four statements of its own, in any run without
  // stop, reset and another accepted trigger: a run that leaves it waiting had
  // fewer, and it is then asleep only while the worker is about to notify.
  lemma WaiterReturns(s: State, acts: seq<Action>, t: Tid)
    requires Live(s) && OnePlace(s, t) && !s.trigger
    requires Since(s, t).Some? ==> !ClearedSince(s.log.fates, Since(s, t).value)
    requires forall a :: a in acts ==> NoStopNoReset(a) && a != Wait(t)
    ensures
      var e := Exec(s, acts);
      |e.log.accepted| == |s.log.accepted| && Since(e, t).Some? ==>
        && Work(Next, (x: State, a: Action) => WaiterStatement(x, a, t), s, acts) + WaitRank(e, t)
           <= WaitRank(s, t) <= 4
        && WaiterHeldUp(e, t)
  {
    var accepted := s.log.accepted;
    var since := if Since(s, t).Some? then Since(s, t).value else |s.log.fates| + 1;
    var keep := (x: State) => Settled(x, t, since, accepted);
    var pending := (x: State) => StillWaiting(x, t, accepted);
    var ok := (a: Action) => NoStopNoReset(a) && a != Wait(t);
    var pick := (x: State, a: Action) => WaiterStatement(x, a, t);
    var rank := (x: State) => WaitRank(x, t);
    forall x: State, a: Action | keep(x) && ok(a)
      ensures keep(Next(x, a))
      ensures pending(Next(x, a)) ==> pending(x) && rank(Next(x, a)) <= rank(x)
      ensures pending(Next(x, a)) && pick(x, a) && Next(x, a) != x ==> rank(Next(x, a)) < rank(x)
    {
      SettledStep(x, a, t, since, accepted);
    }
    WorkWhile(Next, keep, pending, ok, pick, rank, s, acts);
    var e := Exec(s, acts);
    if StillWaiting(e, t, accepted) {
      WaiterWaits(e, t, since, accepted);
    }
  }
}
