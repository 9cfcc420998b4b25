// What whole calls on a RealtimeServerGoalHandle do, alone and among others, and
// where the requests, events and feedback of a run come from.
module GoalCalls {
  import opened Runs
  import opened GoalProtocol

  // ----------------------------------------------------------------- requests

  // The flags with just that of k up.
  function Only(execute: bool, k: Kind): Flags {
    Flags(execute, k == Abort, k == Cancel, k == Succeed)
  }

  // setAborted, setCanceled and setSucceeded that nobody interrupts: with the
  // goal told to execute and no flag up they raise their own flag, with their
  // result, and otherwise do nothing.
  lemma SetAlone(s: State, k: Kind, r: Result)
    requires RealtimeIdle(s) && s.holder.Free?
    ensures
      var begun := Next(s, Set(k, r));
      if s.flags.execute && !s.flags.abort && !s.flags.cancel && !s.flags.succeed then
        Next(Next(Next(Next(begun, RealtimeLock), Inside), Inside), Inside)
        == s.(flags := Only(true, k), result := r, log := s.log.(requests := s.log.requests + [Event(k, r)]))
      else begun == s
  {
    if s.flags.execute && Quiet(s.flags) {
      var stored := Next(Next(Next(s, Set(k, r)), RealtimeLock), Inside);
      assert stored == s.(result := r, holder := ByRealtime(StoreFlag(k, r)));
    }
  }

  // execute does nothing while a request is up.
  lemma ExecuteAlone(s: State)
    requires RealtimeIdle(s) && s.holder.Free?
    ensures
      var begun := Next(s, Execute);
      if s.flags.abort || s.flags.cancel || s.flags.succeed then begun == s
      else Next(Next(Next(begun, RealtimeLock), Inside), Inside) == s.(flags := Flags(true, false, false, false))
  {
  }

  // The realtime thread makes one call at a time.
  lemma OneCallAtATime(s: State, k: Kind, r: Result)
    requires !RealtimeIdle(s)
    ensures Next(s, Set(k, r)) == s && Next(s, Execute) == s
  {
  }

  // Where a call setX(r) of kind k, begun with the requests `before`, is.
  ghost predicate Underway(s: State, k: Kind, r: Result, before: seq<Event>) {
    && s.log.requests == before
    && (|| s.waiting == Some(StoreResult(k, r))
        || s.holder == ByRealtime(StoreResult(k, r))
        || s.holder == ByRealtime(StoreFlag(k, r)))
  }

  ghost predicate Requested(s: State, k: Kind, r: Result, before: seq<Event>) {
    && before + [Event(k, r)] <= s.log.requests
    && (s.log.requests == before + [Event(k, r)] && !Quiet(s.flags) ==>
          s.result == r && s.flags == Only(s.flags.execute, k))
  }

  lemma RequestsGrow(s: State, a: Action)
    ensures s.log.requests <= Next(s, a).log.requests
  {
  }

  lemma UnderwayStep(s: State, a: Action, k: Kind, r: Result, before: seq<Event>)
    requires Inv(s) && Underway(s, k, r, before)
    ensures Underway(Next(s, a), k, r, before) || Next(s, a).log.requests == before + [Event(k, r)]
    ensures s.holder.ByRealtime? && a.Inside? ==>
              Next(s, a).log.requests == before + [Event(k, r)] || Next(s, a).holder == ByRealtime(StoreFlag(k, r))
  {
  }

  // A set call that gets past its check takes effect whatever other threads do
  // before its lock and between its statements: in every run it is under way, or
  // its request is the next one, and the only flag up is its own, with its
  // result, until that is delivered.
  lemma SetTakesEffect(s: State, acts: seq<Action>, k: Kind, r: Result)
    requires Inv(s) && RealtimeIdle(s) && s.flags.execute && Quiet(s.flags)
    ensures
      var e := Exec(Next(s, Set(k, r)), acts);
      Underway(e, k, r, s.log.requests) || Requested(e, k, r, s.log.requests)
  {
    var n := Next(s, Set(k, r));
    var before := s.log.requests;
    StepKeepsInv(s, Set(k, r));
    var inv := (x: State) => Inv(x) && (Underway(x, k, r, before) || before + [Event(k, r)] <= x.log.requests);
    forall x: State, a: Action | inv(x) ensures inv(Next(x, a)) {
      StepKeepsInv(x, a);
      RequestsGrow(x, a);
      if Underway(x, k, r, before) {
        UnderwayStep(x, a, k, r, before);
      }
    }
    RunKeeps(Next, inv, (a: Action) => true, n, acts);
  }

  // Every request recorded, and every one on its way, was made by a call.
  ghost predicate Made(s: State, acts: seq<Action>) {
    && (forall e :: e in s.log.requests ==> Set(e.kind, e.result) in acts)
    && (s.waiting.Some? && (s.waiting.value.StoreResult? || s.waiting.value.StoreFlag?) ==>
          Set(s.waiting.value.kind, s.waiting.value.result) in acts)
    && (s.holder.ByRealtime? && (s.holder.request.StoreResult? || s.holder.request.StoreFlag?) ==>
          Set(s.holder.request.kind, s.holder.request.result) in acts)
  }

  lemma RealtimeMade(s: State, acts: seq<Action>)
    requires Made(s, acts) && s.holder.ByRealtime?
    ensures Made(RealtimeNext(s, s.holder.request), acts)
  {
  }

  // What the statements of the other mutex holders leave alone.
  lemma OthersRequestNothing(s: State)
    requires !s.holder.ByRealtime?
    ensures
      var n := Next(s, Inside);
      n.log.requests == s.log.requests && n.waiting == s.waiting && !n.holder.ByRealtime?
  {
  }

  lemma MadeMore(s: State, acts: seq<Action>, a: Action)
    requires Made(s, acts)
    ensures Made(s, acts + [a])
  {
    assert forall x :: x in acts ==> x in acts + [a];
  }

  lemma MadeStep(s: State, acts: seq<Action>, a: Action)
    requires Made(s, acts)
    ensures Made(Next(s, a), acts + [a])
  {
    MadeMore(s, acts, a);
    if a.Inside? {
      if s.holder.ByRealtime? {
        RealtimeMade(s, acts + [a]);
      } else {
        OthersRequestNothing(s);
      }
    } else {
      assert a in acts + [a];
    }
  }

  lemma {:induction false} RunMade(valid: bool, preallocated: int, acts: seq<Action>)
    ensures Made(Exec(Init(valid, preallocated), acts), acts)
    decreases |acts|
  {
    if acts != [] {
      var front := acts[..|acts| - 1];
      RunMade(valid, preallocated, front);
      MadeStep(Exec(Init(valid, preallocated), front), front, acts[|acts| - 1]);
      assert front + [acts[|acts| - 1]] == acts;
    }
  }

  // In every run every request, and every terminal event delivered, carries the
  // kind and the result of a call that was made.
  lemma RequestsWereMade(valid: bool, preallocated: int, acts: seq<Action>)
    ensures
      var log := Exec(Init(valid, preallocated), acts).log;
      forall e :: e in log.requests || e in log.events ==> Set(e.kind, e.result) in acts
  {
    RunMade(valid, preallocated, acts);
    RunKeepsInv(Init(valid, preallocated), acts);
  }

  // ----------------------------------------------------------- runNonRealtime

  // The goal once an accepted one that was told to execute does.
  function Started(s: State): Goal {
    if s.flags.execute && s.goal.Accepted? then Executing else s.goal
  }

  // The goal has ended with the stored result, its flag is down, and the mutex is free.
  predicate Ended(s: State, e: State, k: Kind, g: Goal) {
    e == s.(holder := Free, goal := g, flags := Flags(s.flags.execute, false, false, false),
            log := s.log.(events := s.log.events + [Event(k, s.result)]))
  }

  // The feedback has been published if there is one and the goal is executing.
  predicate Fed(s: State, e: State) {
    if s.goal.Executing? && Current(s).Some? then
      var p := Publication(Current(s).value, s.log.feedback, Torn(s), s.log.cancelAsked, Executing);
      e == s.(holder := Free, log := s.log.(published := s.log.published + [p]))
    else e == s.(holder := Free)
  }

  lemma FeedbackSteps(s: State)
    requires s.holder == ByRunner(TestFeedback)
    ensures
      var tested := RunnerNext(s, TestFeedback);
      if s.goal.Executing? && Current(s).Some? then
        tested.holder == ByRunner(DoPublish) && RunnerNext(tested, DoPublish).holder == ByRunner(UnlockRun)
        && Fed(s, RunnerNext(RunnerNext(tested, DoPublish), UnlockRun))
      else tested.holder == ByRunner(UnlockRun) && Fed(s, RunnerNext(tested, UnlockRun))
  {
  }

  lemma InsideRuns(s: State)
    requires s.holder.ByRunner?
    ensures Next(s, Inside) == RunnerNext(s, s.holder.at)
  {
  }

  // A statement of the runner, as the next of a script.
  lemma RunnerStep(from: State, before: seq<Action>, at: State) returns (acts: seq<Action>, e: State)
    requires Exec(from, before) == at && at.holder.ByRunner?
    ensures Exec(from, acts) == e && e == RunnerNext(at, at.holder.at)
  {
    InsideRuns(at);
    acts, e := before + [Inside], Next(at, Inside);
    RunSnoc(Next, from, before, Inside);
  }

  // The rest of the pass, from each of the runner's tests on.
  lemma FeedbackRun(from: State, before: seq<Action>, at: State) returns (acts: seq<Action>, e: State)
    requires Exec(from, before) == at && at.holder == ByRunner(TestFeedback)
    ensures Exec(from, acts) == e && Fed(at, e)
  {
    FeedbackSteps(at);
    acts, e := RunnerStep(from, before, at);
    if at.goal.Executing? && Current(at).Some? {
      acts, e := RunnerStep(from, acts, e);
    }
    acts, e := RunnerStep(from, acts, e);
  }

  // The goal's state allows request k.
  predicate Allows(g: Goal, k: Kind) {
    if k == Cancel then g.Canceling? else g.Executing?
  }

  // The statement that delivers request k, and the test after it.
  function Delivery(k: Kind): Runner {
    match k case Abort => DoAbort case Cancel => DoCancel case Succeed => DoSucceed
  }

  function TestAfter(k: Kind): Runner {
    match k case Abort => TestCancel case Cancel => TestSucceed case Succeed => TestFeedback
  }

  lemma EndSteps(s: State, k: Kind)
    requires AtMostOne(s.flags) && Raised(s.flags, k) && Allows(s.goal, k) && s.holder == ByRunner(Delivery(k))
    ensures
      var delivered := RunnerNext(s, Delivery(k));
      && delivered.holder.ByRunner?
      && var e := RunnerNext(delivered, delivered.holder.at);
         && e.holder == ByRunner(TestAfter(k))
         && Ended(s, e.(holder := Free), k,
                  match k case Abort => Aborted case Cancel => Canceled case Succeed => Succeeded)
  {
    match k
    case Abort =>
    case Cancel =>
    case Succeed =>
  }

  // The two statements that deliver request k and take its flag down.
  lemma EndRun(from: State, before: seq<Action>, at: State, k: Kind) returns (acts: seq<Action>, e: State)
    requires Exec(from, before) == at && AtMostOne(at.flags) && Raised(at.flags, k) && Allows(at.goal, k)
    requires at.holder == ByRunner(Delivery(k))
    ensures Exec(from, acts) == e && e.holder == ByRunner(TestAfter(k))
    ensures Ended(at, e.(holder := Free), k,
                  match k case Abort => Aborted case Cancel => Canceled case Succeed => Succeeded)
  {
    EndSteps(at, k);
    acts, e := RunnerStep(from, before, at);
    acts, e := RunnerStep(from, acts, e);
  }

  // From the test of the success on.
  predicate Succeeds(s: State, e: State) {
    if s.flags.succeed && s.goal.Executing? then Ended(s, e, Succeed, Succeeded)
    else if s.flags.succeed && !s.goal.Canceling? then e == s.(holder := Free)
    else Fed(s, e)
  }

  lemma SucceedRun(from: State, before: seq<Action>, at: State) returns (acts: seq<Action>, e: State)
    requires Exec(from, before) == at && at.holder == ByRunner(TestSucceed) && AtMostOne(at.flags)
    ensures Exec(from, acts) == e && Succeeds(at, e)
  {
    acts, e := RunnerStep(from, before, at);
    if at.flags.succeed && at.goal.Executing? {
      acts, e := EndRun(from, acts, e, Succeed);
      acts, e := FeedbackRun(from, acts, e);
    } else if at.flags.succeed && !at.goal.Canceling? {
      acts, e := RunnerStep(from, acts, e);
      acts, e := RunnerStep(from, acts, e);
    } else {
      acts, e := FeedbackRun(from, acts, e);
    }
  }

  // From the test of the cancel on; it is asked of any active goal, and throws
  // unless the goal is canceling.
  predicate Cancels(s: State, e: State) {
    if s.flags.cancel && s.goal.Canceling? then Ended(s, e, Cancel, Canceled)
    else if s.flags.cancel then e == s.(holder := Free)
    else Succeeds(s, e)
  }

  lemma CancelRun(from: State, before: seq<Action>, at: State) returns (acts: seq<Action>, e: State)
    requires Exec(from, before) == at && at.holder == ByRunner(TestCancel) && AtMostOne(at.flags)
    ensures Exec(from, acts) == e && Cancels(at, e)
  {
    acts, e := RunnerStep(from, before, at);
    if at.flags.cancel && at.goal.Canceling? {
      acts, e := EndRun(from, acts, e, Cancel);
      acts, e := SucceedRun(from, acts, e);
    } else if at.flags.cancel && Active(at.goal) {
      acts, e := RunnerStep(from, acts, e);
      acts, e := RunnerStep(from, acts, e);
    } else {
      acts, e := SucceedRun(from, acts, e);
    }
  }

  // From the test of the abort on.
  predicate Aborts(s: State, e: State) {
    if s.flags.abort && s.goal.Executing? then Ended(s, e, Abort, Aborted) else Cancels(s, e)
  }

  lemma AbortingRun(from: State, before: seq<Action>, at: State) returns (acts: seq<Action>, e: State)
    requires Exec(from, before) == at && at.holder == ByRunner(TestAbort) && AtMostOne(at.flags)
    ensures Exec(from, acts) == e && Aborts(at, e)
  {
    acts, e := RunnerStep(from, before, at);
    if at.flags.abort && at.goal.Executing? {
      acts, e := EndRun(from, acts, e, Abort);
      acts, e := CancelRun(from, acts, e);
    } else {
      acts, e := CancelRun(from, acts, e);
    }
  }

  // The request that is up, if any.
  function Up(f: Flags): Option<Kind> {
    if f.abort then Some(Abort) else if f.cancel then Some(Cancel) else if f.succeed then Some(Succeed) else None
  }

  // A pass of runNonRealtime that nobody interrupts.  An accepted goal that was
  // told to execute does.  Then a request that is up and that the goal's state
  // allows ends the goal with the stored result; one that it does not allow waits
  // with the feedback; and with none up the feedback of an executing goal is
  // published.
  lemma RunAlone(s: State) returns (acts: seq<Action>)
    requires Inv(s) && s.valid && s.holder.Free?
    ensures
      var e, k, g := Exec(s, acts), Up(s.flags), s.(goal := Started(s));
      if k.Some? && Allows(g.goal, k.value) then
        Ended(g, e, k.value, match k.value case Abort => Aborted case Cancel => Canceled case Succeed => Succeeded)
      else if k.Some? then e == g
      else Fed(g, e)
  {
    var e;
    acts, e := Perform(Next, s, [], s, Enter);
    acts, e := Perform(Next, s, acts, e, Inside);
    if s.flags.execute && s.goal.Accepted? {
      acts, e := Perform(Next, s, acts, e, Inside);
    }
    assert e == s.(goal := Started(s), holder := ByRunner(TestAbort));
    acts, e := AbortingRun(s, acts, e);
  }

  // A handle without a goal does nothing.
  lemma NoGoalNoRun(s: State)
    requires !s.valid
    ensures Next(s, Enter) == s
  {
  }

  // ----------------------------------------------------------------- feedback

  // setFeedback(f) that nobody interrupts: what the handle will publish is f,
  // nothing if f is null; with the mutex taken it returns false and does nothing.
  lemma SetFeedbackAlone(s: State, f: Option<int>, won: bool)
    ensures
      var begun := Next(s, SetFeedback(f, won));
      if won && s.holder.Free? then
        var e := Next(Next(begun, Inside), Inside);
        && Current(e) == f && e.log.feedback == f && !Torn(e)
        && e.holder.Free? && e.flags == s.flags && e.result == s.result && e.goal == s.goal
        && e.waiting == s.waiting && e.preallocated == s.preallocated
        && e.log == s.log.(feedback := f, thrown := false)
      else begun == s
  {
  }

  // trySetFeedback whose callback writes v, scribbling anything before that.
  lemma TrySetFeedbackAlone(s: State, v: int, scribble: int, won: bool)
    ensures
      var begun := Next(s, TrySetFeedback(v, won));
      if won && s.holder.Free? then
        var e := Next(Next(Next(Next(begun, Scribble(scribble)), Inside), Inside), Inside);
        && Current(e) == Some(v) && e.log.feedback == Some(v) && !Torn(e)
        && e.holder.Free? && e.flags == s.flags && e.result == s.result && e.goal == s.goal
        && e.waiting == s.waiting
        && e.log == s.log.(feedback := Some(v), thrown := false)
      else begun == s
  {
  }

  // The feedback calls of a run: what the last completed one set, and what the
  // one that holds the mutex, if any, is about to set.
  datatype Given = Given(last: Option<int>, open: Option<Option<int>>)

  // A call opens when it wins its try_lock, is dropped when its callback throws,
  // and completes at its store.
  function GivenNext(s: State, a: Action, g: Given): Given {
    match a
    case SetFeedback(f, won) => if won && s.holder.Free? then Given(g.last, Some(f)) else g
    case TrySetFeedback(v, won) => if won && s.holder.Free? then Given(g.last, Some(Some(v))) else g
    case UpdateThrows => if s.holder.ByUpdater? && s.holder.update.Rewrite? then Given(g.last, None) else g
    case Inside =>
      if s.holder.ByUpdater? && s.holder.update.StorePointer? && g.open.Some? then Given(g.open.value, None) else g
    case _ => g
  }

  function GivenBy(valid: bool, preallocated: int, acts: seq<Action>): Given
    decreases |acts|
  {
    if acts == [] then Given(None, None)
    else
      var front, a := acts[..|acts| - 1], acts[|acts| - 1];
      GivenNext(Exec(Init(valid, preallocated), front), a, GivenBy(valid, preallocated, front))
  }

  ghost predicate Agrees(s: State, g: Given) {
    && s.log.feedback == g.last
    && (s.holder.ByUpdater? && s.holder.update.Rewrite? ==> g.open == Some(Some(s.holder.update.value)))
    && (s.holder.ByUpdater? && s.holder.update.StorePointer? ==>
          g.open == Some(Meaning(s.holder.update.pointer, s.preallocated)))
  }

  // In every run the feedback of the last successful setFeedback or
  // trySetFeedback, which the publications are measured against, is the argument
  // of that call, null included.
  lemma {:induction false} FeedbackComesFromCalls(valid: bool, preallocated: int, acts: seq<Action>)
    ensures Agrees(Exec(Init(valid, preallocated), acts), GivenBy(valid, preallocated, acts))
    decreases |acts|
  {
    if acts != [] {
      var front := acts[..|acts| - 1];
      FeedbackComesFromCalls(valid, preallocated, front);
      AgreesStep(Exec(Init(valid, preallocated), front), acts[|acts| - 1], GivenBy(valid, preallocated, front));
    }
  }

  lemma AgreesStep(s: State, a: Action, g: Given)
    requires Agrees(s, g)
    ensures Agrees(Next(s, a), GivenNext(s, a, g))
  {
  }
}
