// The goal handle as an object: the fields of the class in
// realtime_server_goal_handle.hpp, the external goal's state, and the log.  Each
// method performs one atomic statement in place.
module RealtimeServerGoalHandle {
  import opened Runs
  import opened GoalProtocol

  class GoalHandle {
    const valid: bool
    var reqExecute: bool
    var reqAbort: bool
    var reqCancel: bool
    var reqSucceed: bool
    var reqResult: Result
    var reqFeedback: Pointer
    var preallocatedFeedback: int
    var goal: Goal
    var waiting: Option<Request>
    var mutexHolder: Holder
    var log: Log

    ghost function View(): State
      reads this
    {
      State(valid, Flags(reqExecute, reqAbort, reqCancel, reqSucceed), reqResult, reqFeedback,
            preallocatedFeedback, goal, waiting, mutexHolder, log)
    }

    ghost predicate Valid()
      reads this
    {
      Inv(View())
    }

    constructor (valid: bool, preallocated: int)
      ensures Valid() && View() == Init(valid, preallocated)
    {
      this.valid := valid;
      reqExecute, reqAbort, reqCancel, reqSucceed := false, false, false, false;
      reqResult, reqFeedback, preallocatedFeedback := None, Null, preallocated;
      goal, waiting, mutexHolder := Accepted, None, Free;
      log := Log([], [], None, false, [], false);
    }

    predicate NoRequest()
      reads this
    {
      !reqSucceed && !reqAbort && !reqCancel
    }

    // setAborted, setCanceled and setSucceeded up to the lock; false when the
    // flags rule the request out.
    method BeginSet(kind: Kind, result: Result) returns (taken: bool)
      modifies this
      ensures View() == Next(old(View()), Set(kind, result))
      ensures taken <==> RealtimeIdle(old(View())) && old(reqExecute) && old(NoRequest())
    {
      taken := waiting.None? && !mutexHolder.ByRealtime? && reqExecute && NoRequest();
      if taken {
        waiting := Some(StoreResult(kind, result));
      }
    }

    method BeginExecute()
      modifies this
      ensures View() == Next(old(View()), Execute)
    {
      if waiting.None? && !mutexHolder.ByRealtime? && NoRequest() {
        waiting := Some(StoreExecute);
      }
    }

    method LockRequest()
      modifies this
      ensures View() == Next(old(View()), RealtimeLock)
    {
      if waiting.Some? && mutexHolder.Free? {
        mutexHolder := ByRealtime(waiting.value);
        waiting := None;
      }
    }

    // One statement of the realtime call that holds the mutex.
    method RequestStatement(request: Request)
      modifies this
      ensures View() == RealtimeNext(old(View()), request)
    {
      match request {
        case StoreResult(k, r) => reqResult := r; mutexHolder := ByRealtime(StoreFlag(k, r));
        case StoreFlag(k, r) =>
          match k {
            case Abort => reqAbort := true;
            case Cancel => reqCancel := true;
            case Succeed => reqSucceed := true;
          }
          log := log.(requests := log.requests + [Event(k, r)]);
          mutexHolder := ByRealtime(UnlockRequest);
        case StoreExecute => reqExecute := true; mutexHolder := ByRealtime(UnlockRequest);
        case UnlockRequest => mutexHolder := Free;
      }
    }

    // setFeedback up to its try_lock, whose failure makes it return false.
    method BeginSetFeedback(feedback: Option<int>, won: bool) returns (ok: bool)
      modifies this
      ensures View() == Next(old(View()), SetFeedback(feedback, won))
      ensures ok <==> won && old(mutexHolder).Free?
    {
      ok := won && mutexHolder.Free?;
      if ok {
        mutexHolder := ByUpdater(StorePointer(if feedback.None? then Null else External(feedback.value)));
      }
    }

    // trySetFeedback up to its try_lock; the callback is not invoked when it fails.
    method BeginTrySetFeedback(value: int, won: bool) returns (ok: bool)
      modifies this
      ensures View() == Next(old(View()), TrySetFeedback(value, won))
      ensures ok <==> won && old(mutexHolder).Free?
    {
      ok := won && mutexHolder.Free?;
      if ok {
        mutexHolder := ByUpdater(Rewrite(value));
      }
    }

    // A partial write of the update callback.
    method ScribbleFeedback(value: int)
      modifies this
      ensures View() == Next(old(View()), Scribble(value))
    {
      if mutexHolder.ByUpdater? && mutexHolder.update.Rewrite? {
        preallocatedFeedback := value;
      }
    }

    // The update callback throws, and the guard unlocks.
    method AbandonUpdate()
      modifies this
      ensures View() == Next(old(View()), UpdateThrows)
    {
      if mutexHolder.ByUpdater? && mutexHolder.update.Rewrite? {
        mutexHolder := Free;
        log := log.(thrown := true);
      }
    }

    // One statement of the feedback setter that holds the mutex.
    method UpdateStatement(update: Update)
      modifies this
      ensures View() == UpdateNext(old(View()), update)
    {
      match update {
        case Rewrite(v) => preallocatedFeedback := v; mutexHolder := ByUpdater(StorePointer(Preallocated));
        case StorePointer(p) =>
          reqFeedback := p;
          log := Updated(log, Meaning(p, preallocatedFeedback));
          mutexHolder := ByUpdater(UnlockUpdate);
        case UnlockUpdate => mutexHolder := Free;
      }
    }

    // runNonRealtime up to its lock.
    method EnterRunner()
      modifies this
      ensures View() == Next(old(View()), Enter)
    {
      if valid && mutexHolder.Free? {
        mutexHolder := ByRunner(TestExecute);
      }
    }

    // abort, canceled and succeed of the external goal handle; false when the
    // goal's state does not allow the event and the call throws.
    method Finish(kind: Kind) returns (ok: bool)
      modifies this`goal, this`log
      ensures ok <==> old(goal).Canceling? || (kind != Cancel && old(goal).Executing?)
      ensures !ok ==> goal == old(goal) && log == old(log)
      ensures ok ==> goal == Outcome(kind)
      ensures ok ==> log == old(log).(events := old(log).events + [Event(kind, reqResult)])
    {
      ok := goal.Canceling? || (kind != Cancel && goal.Executing?);
      if ok {
        goal := match kind { case Abort => Aborted case Cancel => Canceled case Succeed => Succeeded };
        log := log.(events := log.events + [Event(kind, reqResult)]);
      }
    }

    // One statement of runNonRealtime.
    method RunnerStatement(pc: Runner)
      modifies this
      ensures View() == RunnerNext(old(View()), pc)
    {
      if Testing(pc) {
        TestStatement(pc);
      } else {
        EffectStatement(pc);
      }
    }

    method TestStatement(pc: Runner)
      requires Testing(pc)
      modifies this`mutexHolder
      ensures View() == TestNext(old(View()), pc)
    {
      var next := match pc {
        case TestExecute => if reqExecute && goal.Accepted? then DoExecute else TestAbort
        case TestAbort => if reqAbort && goal.Executing? then DoAbort else TestCancel
        case TestCancel => if reqCancel && Active(goal) then DoCancel else TestSucceed
        case TestSucceed => if reqSucceed && !goal.Canceling? then DoSucceed else TestFeedback
        case TestFeedback => if !reqFeedback.Null? && goal.Executing? then DoPublish else UnlockRun
      };
      mutexHolder := ByRunner(next);
    }

    method EffectStatement(pc: Runner)
      requires !Testing(pc)
      modifies this
      ensures View() == EffectNext(old(View()), pc)
    {
      var next := UnlockRun;
      match pc {
        case DoExecute => if goal.Accepted? { goal := Executing; next := TestAbort; }
        case DoAbort => var ok := Finish(Abort); next := if ok then ClearAbort else UnlockRun;
        case ClearAbort => reqAbort := false; next := TestCancel;
        case DoCancel => var ok := Finish(Cancel); next := if ok then ClearCancel else UnlockRun;
        case ClearCancel => reqCancel := false; next := TestSucceed;
        case DoSucceed => var ok := Finish(Succeed); next := if ok then ClearSucceed else UnlockRun;
        case ClearSucceed => reqSucceed := false; next := TestFeedback;
        case DoPublish => PublishFeedback();
        case UnlockRun =>
      }
      mutexHolder := if pc.UnlockRun? then Free else ByRunner(next);
    }

    // publish_feedback(req_feedback_)
    method PublishFeedback()
      modifies this`log
      ensures log == match Current(View())
                     case None => old(log)
                     case Some(v) => Published(old(View()), v)
    {
      if !reqFeedback.Null? {
        var v := if reqFeedback.External? then reqFeedback.value else preallocatedFeedback;
        var torn := reqFeedback.Preallocated? && log.thrown;
        log := log.(published := log.published + [Publication(v, log.feedback, torn, log.cancelAsked, goal)]);
      }
    }

    // The client's cancel request reaches the goal.
    method AskCancel()
      modifies this
      ensures View() == Next(old(View()), ClientCancel)
    {
      if goal.Accepted? || goal.Executing? {
        goal := Canceling;
        log := log.(cancelAsked := true);
      }
    }

    method Perform(a: Action)
      requires Valid()
      modifies this
      ensures Valid() && View() == Next(old(View()), a)
    {
      StepKeepsInv(View(), a);
      match a {
        case Set(k, r) => var _ := BeginSet(k, r);
        case Execute => BeginExecute();
        case RealtimeLock => LockRequest();
        case SetFeedback(f, won) => var _ := BeginSetFeedback(f, won);
        case TrySetFeedback(v, won) => var _ := BeginTrySetFeedback(v, won);
        case Scribble(v) => ScribbleFeedback(v);
        case UpdateThrows => AbandonUpdate();
        case Enter => EnterRunner();
        case Inside =>
          match mutexHolder {
            case Free =>
            case ByRealtime(request) => RequestStatement(request);
            case ByUpdater(update) => UpdateStatement(update);
            case ByRunner(pc) => RunnerStatement(pc);
          }
        case ClientCancel => AskCancel();
      }
    }

    // Any schedule performed on the object is a run of the protocol.
    method Schedule(acts: seq<Action>)
      requires Valid()
      modifies this
      ensures Valid() && View() == Exec(old(View()), acts)
    {
      for i := 0 to |acts|
        invariant Valid() && View() == Exec(old(View()), acts[..i])
      {
        Perform(acts[i]);
        assert acts[..i + 1][..i] == acts[..i];
      }
      assert acts[..|acts|] == acts;
    }
  }
}
