// RealtimeServerGoalHandle: one realtime thread records requests in flags, any
// threads set feedback, any threads apply both with runNonRealtime, and the
// action client may ask for cancellation at any moment.
module GoalProtocol {
  import opened Runs

  // Goal states of the ROS 2 design article "Actions", section "Goal States".
  datatype Goal = Accepted | Executing | Canceling | Succeeded | Aborted | Canceled

  datatype Kind = Abort | Cancel | Succeed

  // A result pointer; None is null.
  type Result = Option<int>

  // The statement of a setAborted, setCanceled, setSucceeded or execute call.
  datatype Request =
    | StoreResult(kind: Kind, result: Result)  // req_result_ = result
    | StoreFlag(kind: Kind, result: Result)    // req_<kind>_ = true
    | StoreExecute                             // req_execute_ = true
    | UnlockRequest

  // The feedback pointer; the preallocated message is updated in place.
  datatype Pointer = Null | External(value: int) | Preallocated

  // The statement of a setFeedback or trySetFeedback call that won its try_lock.
  datatype Update =
    | Rewrite(value: int)                      // update_feedback(*preallocated_feedback_)
    | StorePointer(pointer: Pointer)           // req_feedback_ = ...
    | UnlockUpdate

  // The statement of runNonRealtime.
  datatype Runner =
    | TestExecute | DoExecute
    | TestAbort | DoAbort | ClearAbort
    | TestCancel | DoCancel | ClearCancel
    | TestSucceed | DoSucceed | ClearSucceed
    | TestFeedback | DoPublish
    | UnlockRun

  datatype Holder = Free | ByRealtime(request: Request) | ByUpdater(update: Update) | ByRunner(at: Runner)

  datatype Flags = Flags(execute: bool, abort: bool, cancel: bool, succeed: bool)

  datatype Event = Event(kind: Kind, result: Result)

  // A published feedback.
  datatype Publication = Publication(
    value: int,
    due: Option<int>,              // what the last successful set left
    torn: bool,                    // the preallocated message, after an update callback threw
    cancelAsked: bool,             // the client had asked for cancellation
    goal: Goal)

  datatype Log = Log(
    requests: seq<Event>,          // setAborted, setCanceled, setSucceeded calls that set their flag
    events: seq<Event>,            // terminal events delivered to the client
    feedback: Option<int>,         // value of the last successful setFeedback or trySetFeedback
    thrown: bool,                  // an update callback has thrown since then
    published: seq<Publication>,
    cancelAsked: bool)

  datatype State = State(
    valid: bool,                   // gh_ is not null
    flags: Flags,
    result: Result,                // req_result_
    pointer: Pointer,              // req_feedback_
    preallocated: int,             // *preallocated_feedback_
    goal: Goal,                    // the state of *gh_
    waiting: Option<Request>,      // the realtime thread passed its check and is about to lock
    holder: Holder,
    log: Log)

  datatype Action =
    | Set(kind: Kind, result: Result)
    | Execute
    | RealtimeLock
    | SetFeedback(feedback: Option<int>, won: bool)   // won: what try_lock answers if the mutex is free
    | TrySetFeedback(value: int, won: bool)
    | Scribble(value: int)                            // a partial write by the running update callback
    | UpdateThrows                                    // it throws: the guard unlocks
    | Enter                                           // a thread enters runNonRealtime
    | Inside                                          // the next statement of the mutex holder
    | ClientCancel

  function Init(valid: bool, preallocated: int): State {
    State(valid, Flags(false, false, false, false), None, Null, preallocated, Accepted, None, Free,
          Log([], [], None, false, [], false))
  }

  predicate Quiet(f: Flags) {
    !f.abort && !f.cancel && !f.succeed
  }

  predicate Raised(f: Flags, k: Kind) {
    match k
    case Abort => f.abort
    case Cancel => f.cancel
    case Succeed => f.succeed
  }

  function Raise(f: Flags, k: Kind): Flags {
    match k
    case Abort => f.(abort := true)
    case Cancel => f.(cancel := true)
    case Succeed => f.(succeed := true)
  }

  // is_active() of the external goal handle.
  predicate Active(g: Goal) {
    g.Accepted? || g.Executing? || g.Canceling?
  }

  // The realtime thread is between two calls.
  predicate RealtimeIdle(s: State) {
    s.waiting.None? && !s.holder.ByRealtime?
  }

  function Meaning(pointer: Pointer, preallocated: int): Option<int> {
    match pointer
    case Null => None
    case External(v) => Some(v)
    case Preallocated => Some(preallocated)
  }

  // The feedback a publication would send now.
  function Current(s: State): Option<int> {
    Meaning(s.pointer, s.preallocated)
  }

  function RealtimeNext(s: State, request: Request): State {
    match request
    case StoreResult(k, r) => s.(result := r, holder := ByRealtime(StoreFlag(k, r)))
    case StoreFlag(k, r) =>
      s.(flags := Raise(s.flags, k), log := s.log.(requests := s.log.requests + [Event(k, r)]),
         holder := ByRealtime(UnlockRequest))
    case StoreExecute => s.(flags := s.flags.(execute := true), holder := ByRealtime(UnlockRequest))
    case UnlockRequest => s.(holder := Free)
  }

  // setFeedback or trySetFeedback succeeded.
  function Updated(log: Log, feedback: Option<int>): Log {
    log.(feedback := feedback, thrown := false)
  }

  // What a publication now would send may be half written.
  predicate Torn(s: State) {
    s.pointer.Preallocated? && s.log.thrown
  }

  function Published(s: State, value: int): Log {
    var p := Publication(value, s.log.feedback, Torn(s), s.log.cancelAsked, s.goal);
    s.log.(published := s.log.published + [p])
  }

  function UpdateNext(s: State, update: Update): State {
    match update
    case Rewrite(v) => s.(preallocated := v, holder := ByUpdater(StorePointer(Preallocated)))
    case StorePointer(p) =>
      s.(pointer := p, log := Updated(s.log, Meaning(p, s.preallocated)), holder := ByUpdater(UnlockUpdate))
    case UnlockUpdate => s.(holder := Free)
  }

  function At(s: State, pc: Runner): State {
    s.(holder := ByRunner(pc))
  }

  // The goal handle accepts the terminal event and delivers it with the result.
  function Deliver(s: State, k: Kind, g: Goal, next: Runner): State {
    s.(goal := g, log := s.log.(events := s.log.events + [Event(k, s.result)]), holder := ByRunner(next))
  }

  // The tests of runNonRealtime.
  predicate Testing(pc: Runner) {
    pc.TestExecute? || pc.TestAbort? || pc.TestCancel? || pc.TestSucceed? || pc.TestFeedback?
  }

  function TestNext(s: State, pc: Runner): State
    requires Testing(pc)
  {
    match pc
    case TestExecute => At(s, if s.flags.execute && s.goal.Accepted? then DoExecute else TestAbort)
    case TestAbort => At(s, if s.flags.abort && s.goal.Executing? then DoAbort else TestCancel)
    case TestCancel => At(s, if s.flags.cancel && Active(s.goal) then DoCancel else TestSucceed)
    case TestSucceed => At(s, if s.flags.succeed && !s.goal.Canceling? then DoSucceed else TestFeedback)
    case TestFeedback => At(s, if !s.pointer.Null? && s.goal.Executing? then DoPublish else UnlockRun)
  }

  // Its other statements: an event the goal's state does not allow throws, and
  // the handler unlocks.
  function EffectNext(s: State, pc: Runner): State
    requires !Testing(pc)
  {
    match pc
    case DoExecute => if s.goal.Accepted? then At(s.(goal := Executing), TestAbort) else At(s, UnlockRun)
    case DoAbort =>
      if s.goal.Executing? || s.goal.Canceling? then Deliver(s, Abort, Aborted, ClearAbort) else At(s, UnlockRun)
    case ClearAbort => At(s.(flags := s.flags.(abort := false)), TestCancel)
    case DoCancel =>
      if s.goal.Canceling? then Deliver(s, Cancel, Canceled, ClearCancel) else At(s, UnlockRun)
    case ClearCancel => At(s.(flags := s.flags.(cancel := false)), TestSucceed)
    case DoSucceed =>
      if s.goal.Executing? || s.goal.Canceling? then Deliver(s, Succeed, Succeeded, ClearSucceed) else At(s, UnlockRun)
    case ClearSucceed => At(s.(flags := s.flags.(succeed := false)), TestFeedback)
    case DoPublish =>
      (match Current(s)
       case None => At(s, UnlockRun)
       case Some(v) => At(s.(log := Published(s, v)), UnlockRun))
    case UnlockRun => s.(holder := Free)
  }

  function RunnerNext(s: State, pc: Runner): State {
    if Testing(pc) then TestNext(s, pc) else EffectNext(s, pc)
  }

  function Next(s: State, a: Action): State {
    match a
    case Set(k, r) =>
      if RealtimeIdle(s) && s.flags.execute && Quiet(s.flags) then s.(waiting := Some(StoreResult(k, r))) else s
    case Execute => if RealtimeIdle(s) && Quiet(s.flags) then s.(waiting := Some(StoreExecute)) else s
    case RealtimeLock =>
      if s.waiting.Some? && s.holder.Free? then s.(waiting := None, holder := ByRealtime(s.waiting.value)) else s
    case SetFeedback(f, won) =>
      if won && s.holder.Free?
      then s.(holder := ByUpdater(StorePointer(if f.None? then Null else External(f.value)))) else s
    case TrySetFeedback(v, won) => if won && s.holder.Free? then s.(holder := ByUpdater(Rewrite(v))) else s
    case Scribble(v) => if s.holder.ByUpdater? && s.holder.update.Rewrite? then s.(preallocated := v) else s
    case UpdateThrows =>
      if s.holder.ByUpdater? && s.holder.update.Rewrite?
      then s.(holder := Free, log := s.log.(thrown := true)) else s
    case Enter => if s.valid && s.holder.Free? then s.(holder := ByRunner(TestExecute)) else s
    case Inside =>
      (match s.holder
       case Free => s
       case ByRealtime(request) => RealtimeNext(s, request)
       case ByUpdater(update) => UpdateNext(s, update)
       case ByRunner(pc) => RunnerNext(s, pc))
    case ClientCancel =>
      if s.goal.Accepted? || s.goal.Executing?
      then s.(goal := Canceling, log := s.log.(cancelAsked := true)) else s
  }

  function Exec(s: State, acts: seq<Action>): State {
    Run(Next, s, acts)
  }

  // ---------------------------------------------------------------- invariant

  predicate AtMostOne(f: Flags) {
    && !(f.abort && f.cancel) && !(f.abort && f.succeed) && !(f.cancel && f.succeed)
  }

  function Outcome(k: Kind): Goal {
    match k
    case Abort => Aborted
    case Cancel => Canceled
    case Succeed => Succeeded
  }

  // The call under way is setAborted, setCanceled or setSucceeded.
  predicate Asking(request: Option<Request>) {
    request.Some? && (request.value.StoreResult? || request.value.StoreFlag?)
  }

  // A raised flag goes with the result of the call that raised it.
  ghost predicate RequestInv(s: State) {
    && AtMostOne(s.flags)
    && (!Quiet(s.flags) ==>
          s.log.requests != [] &&
          var last := s.log.requests[|s.log.requests| - 1];
          Raised(s.flags, last.kind) && s.result == last.result)
    && (s.waiting.Some? ==> Quiet(s.flags) && !s.holder.ByRealtime?)
    && (s.waiting.Some? ==> s.waiting.value.StoreResult? || s.waiting.value.StoreExecute?)
    && (s.holder.ByRealtime? && !s.holder.request.UnlockRequest? ==> Quiet(s.flags))
    && (s.holder.ByRealtime? && s.holder.request.StoreFlag? ==> s.result == s.holder.request.result)
    && (!Quiet(s.flags) || Asking(s.waiting) || (s.holder.ByRealtime? && Asking(Some(s.holder.request))) ==>
          s.flags.execute)
  }

  // The terminal event, if any, answers a request and is where the goal ended.
  ghost predicate EventInv(s: State) {
    && (Active(s.goal) <==> s.log.events == [])
    && |s.log.events| <= 1
    && (s.log.events != [] ==> s.log.events[0] in s.log.requests && s.goal == Outcome(s.log.events[0].kind))
    && (s.log.cancelAsked ==> !s.goal.Accepted? && !s.goal.Executing?)
    && (s.goal.Canceling? ==> s.log.cancelAsked)
  }

  ghost predicate RunnerInv(s: State) {
    s.holder.ByRunner? ==>
      match s.holder.at
      case DoAbort => s.flags.abort && (s.goal.Executing? || s.goal.Canceling?)
      case ClearAbort => s.flags.abort && s.goal.Aborted?
      case DoCancel => s.flags.cancel && Active(s.goal)
      case ClearCancel => s.flags.cancel && s.goal.Canceled?
      case DoSucceed => s.flags.succeed
      case ClearSucceed => s.flags.succeed && s.goal.Succeeded?
      case DoPublish => !s.pointer.Null? && (s.goal.Executing? || s.goal.Canceling?)
      case _ => true
  }

  // Outside an update the feedback pointer means what the last update left,
  // unless a callback has thrown over the message it designates.
  ghost predicate FeedbackInv(s: State) {
    && (!s.pointer.Preallocated? ==> Current(s) == s.log.feedback)
    && (!Torn(s) && (!s.holder.ByUpdater? || s.holder.update.UnlockUpdate?) ==> Current(s) == s.log.feedback)
    && forall p :: p in s.log.published ==>
         && (!p.torn ==> Some(p.value) == p.due)
         && p.goal == if p.cancelAsked then Canceling else Executing
  }

  ghost predicate Inv(s: State) {
    RequestInv(s) && EventInv(s) && RunnerInv(s) && FeedbackInv(s)
  }

  lemma RealtimeKeepsInv(s: State, request: Request)
    requires Inv(s) && s.holder == ByRealtime(request)
    ensures Inv(RealtimeNext(s, request))
  {
  }

  lemma UpdateKeepsInv(s: State, update: Update)
    requires Inv(s) && s.holder == ByUpdater(update)
    ensures Inv(UpdateNext(s, update))
  {
  }

  lemma TestKeepsRequests(s: State, pc: Runner)
    requires RequestInv(s) && EventInv(s) && s.holder == ByRunner(pc) && Testing(pc)
    ensures var n := TestNext(s, pc); RequestInv(n) && EventInv(n) && RunnerInv(n)
  {
  }

  lemma EffectKeepsRequests(s: State, pc: Runner)
    requires RequestInv(s) && EventInv(s) && RunnerInv(s) && s.holder == ByRunner(pc) && !Testing(pc)
    ensures RequestInv(EffectNext(s, pc))
  {
  }

  lemma EffectKeepsEvents(s: State, pc: Runner)
    requires RequestInv(s) && EventInv(s) && RunnerInv(s) && s.holder == ByRunner(pc) && !Testing(pc)
    ensures EventInv(EffectNext(s, pc)) && RunnerInv(EffectNext(s, pc))
  {
  }

  lemma RunnerKeepsRequests(s: State, pc: Runner)
    requires RequestInv(s) && EventInv(s) && RunnerInv(s) && s.holder == ByRunner(pc)
    ensures var n := RunnerNext(s, pc); RequestInv(n) && EventInv(n) && RunnerInv(n)
  {
    if Testing(pc) {
      TestKeepsRequests(s, pc);
    } else {
      EffectKeepsRequests(s, pc);
      EffectKeepsEvents(s, pc);
    }
  }

  lemma RunnerKeepsFeedback(s: State, pc: Runner)
    requires EventInv(s) && RunnerInv(s) && FeedbackInv(s) && s.holder == ByRunner(pc)
    ensures FeedbackInv(RunnerNext(s, pc))
  {
  }

  lemma StepKeepsInv(s: State, a: Action)
    requires Inv(s)
    ensures Inv(Next(s, a))
  {
    if a.Inside? {
      match s.holder
      case Free =>
      case ByRealtime(request) => RealtimeKeepsInv(s, request);
      case ByUpdater(update) => UpdateKeepsInv(s, update);
      case ByRunner(pc) => RunnerKeepsRequests(s, pc); RunnerKeepsFeedback(s, pc);
    }
  }

  lemma RunKeepsInv(s: State, acts: seq<Action>)
    requires Inv(s)
    ensures Inv(Exec(s, acts))
  {
    forall x: State, a: Action | Inv(x) ensures Inv(Next(x, a)) { StepKeepsInv(x, a); }
    RunKeeps(Next, (x: State) => Inv(x), (a: Action) => true, s, acts);
  }

  // ----------------------------------------------------------------- theorems

  // In every run at most one terminal flag is up, a raised flag goes with the
  // result of the last accepted request, which raised it, and at most one
  // terminal event is delivered, with the kind and result of one request.
  lemma SingleOutcome(valid: bool, preallocated: int, acts: seq<Action>)
    ensures
      var s := Exec(Init(valid, preallocated), acts);
      && AtMostOne(s.flags)
      && (forall k :: Raised(s.flags, k) ==>
            s.log.requests != [] && s.log.requests[|s.log.requests| - 1] == Event(k, s.result))
      && |s.log.events| <= 1
      && (forall e :: e in s.log.events ==> e in s.log.requests && s.goal == Outcome(e.kind))
      && (s.log.events == [] <==> Active(s.goal))
  {
    RunKeepsInv(Init(valid, preallocated), acts);
    var s := Exec(Init(valid, preallocated), acts);
    forall k | Raised(s.flags, k)
      ensures s.log.requests != [] && s.log.requests[|s.log.requests| - 1] == Event(k, s.result)
    {
      assert !Quiet(s.flags);
    }
  }

  lemma OnlyRunnerDelivers(s: State, a: Action)
    requires RunnerInv(s) && Next(s, a).log.events != s.log.events
    ensures a.Inside? && s.holder.ByRunner?
    ensures
      var k := if s.holder.at.DoAbort? then Abort else if s.holder.at.DoCancel? then Cancel else Succeed;
      && Raised(s.flags, k) && Active(s.goal)
      && Next(s, a).log.events == s.log.events + [Event(k, s.result)]
  {
  }

  // A step that delivers an event delivers the last accepted request, while its
  // flag is still up.
  lemma DeliveryAnswersLastRequest(s: State, a: Action)
    requires Inv(s) && Next(s, a).log.events != s.log.events
    ensures
      && s.log.events == [] && s.log.requests != []
      && var last := s.log.requests[|s.log.requests| - 1];
         Raised(s.flags, last.kind) && Next(s, a).log.events == [last]
  {
    OnlyRunnerDelivers(s, a);
    assert !Quiet(s.flags);
  }

  // After the terminal event nothing more is delivered or published, in any run.
  lemma NothingAfterTheEnd(s: State, acts: seq<Action>)
    requires Inv(s) && s.log.events != []
    ensures
      var e := Exec(s, acts);
      e.goal == s.goal && e.log.events == s.log.events && e.log.published == s.log.published
  {
    var inv := (x: State) =>
      Inv(x) && x.goal == s.goal && x.log.events == s.log.events && x.log.published == s.log.published;
    forall x: State, a: Action | inv(x) ensures inv(Next(x, a)) {
      StepKeepsInv(x, a);
      EndedStep(x, a);
    }
    RunKeeps(Next, inv, (a: Action) => true, s, acts);
  }

  lemma EndedStep(s: State, a: Action)
    requires EventInv(s) && RunnerInv(s) && s.log.events != []
    ensures
      var n := Next(s, a);
      n.goal == s.goal && n.log.events == s.log.events && n.log.published == s.log.published
  {
  }

  // The states in which a request of kind k is legal for the external goal.
  predicate Legal(k: Kind, g: Goal) {
    if k == Cancel then g.Canceling? else g.Executing?
  }

  // Where runNonRealtime may be before it delivers a request of kind k.
  predicate Reaching(k: Kind, pc: Runner) {
    || pc.TestExecute? || pc.TestAbort?
    || (k == Abort && pc.DoAbort?)
    || (k != Abort && pc.TestCancel?)
    || (k == Cancel && pc.DoCancel?)
    || (k == Succeed && (pc.TestSucceed? || pc.DoSucceed?))
  }

  function RunnerRank(h: Holder): nat {
    if !h.ByRunner? then 0 else
    match h.at
    case TestExecute => 14 case DoExecute => 13
    case TestAbort => 12 case DoAbort => 11 case ClearAbort => 10
    case TestCancel => 9 case DoCancel => 8 case ClearCancel => 7
    case TestSucceed => 6 case DoSucceed => 5 case ClearSucceed => 4
    case TestFeedback => 3 case DoPublish => 2 case UnlockRun => 1
  }

  // runNonRealtime ends: each of its statements brings it nearer its unlock, and
  // nobody else moves it.
  lemma RunnerProgress(s: State, a: Action)
    requires s.holder.ByRunner?
    ensures
      if a.Inside? then RunnerRank(Next(s, a).holder) < RunnerRank(s.holder)
      else Next(s, a).holder == s.holder
  {
  }

  ghost predicate Awaiting(s: State, k: Kind, r: Result) {
    && Inv(s) && Raised(s.flags, k) && s.result == r && Legal(k, s.goal)
    && s.holder.ByRunner? && Reaching(k, s.holder.at)
  }

  lemma AwaitingStep(s: State, a: Action, k: Kind, r: Result)
    requires Awaiting(s, k, r) && !a.ClientCancel?
    ensures Awaiting(Next(s, a), k, r) || Next(s, a).log.events == [Event(k, r)]
  {
    StepKeepsInv(s, a);
  }

  // A raised request that the goal's state allows is delivered by the next
  // runNonRealtime: unless the client asks for cancellation meanwhile, every run
  // from its first test either is still on the way to the delivery, fewer than
  // ten statements of the runner long, or has delivered exactly that request.
  lemma RequestIsDelivered(s: State, acts: seq<Action>, k: Kind)
    requires Inv(s) && Raised(s.flags, k) && Legal(k, s.goal) && s.holder == ByRunner(TestExecute)
    requires forall a :: a in acts ==> !a.ClientCancel?
    ensures
      var e := Exec(s, acts);
      || e.log.events == [Event(k, s.result)]
      || (e.holder.ByRunner? && Reaching(k, e.holder.at) && RunnerRank(e.holder) >= 5 && Raised(e.flags, k))
  {
    var inv := (x: State) => Awaiting(x, k, s.result) || (Inv(x) && x.log.events == [Event(k, s.result)]);
    forall x: State, a: Action | inv(x) && !a.ClientCancel? ensures inv(Next(x, a)) {
      if Awaiting(x, k, s.result) {
        AwaitingStep(x, a, k, s.result);
        StepKeepsInv(x, a);
      } else {
        StepKeepsInv(x, a);
        EndedStep(x, a);
      }
    }
    RunKeeps(Next, inv, (a: Action) => !a.ClientCancel?, s, acts);
  }

  // A runner that has passed its test of request k delivers it even after a
  // client cancel.
  predicate Delivering(k: Kind, h: Holder) {
    h.ByRunner? && ((k == Abort && h.at.DoAbort?) || (k == Succeed && h.at.DoSucceed?))
  }

  // An abort or a success is up, and the client asked for cancellation first.
  ghost predicate Overtaken(s: State, k: Kind) {
    && Inv(s) && k != Cancel && Raised(s.flags, k) && s.goal.Canceling? && !Delivering(k, s.holder)
  }

  lemma OvertakenStep(s: State, a: Action, k: Kind)
    requires Overtaken(s, k)
    ensures Overtaken(Next(s, a), k) && Next(s, a).log.events == s.log.events
  {
    StepKeepsInv(s, a);
    if Next(s, a).log.events != s.log.events {
      OnlyRunnerDelivers(s, a);
    }
  }

  // Then the goal never ends, in any run: the request is not delivered, its flag
  // stays up, and the flag keeps every other request out.
  lemma OvertakenForever(s: State, acts: seq<Action>, k: Kind)
    requires Overtaken(s, k)
    ensures var e := Exec(s, acts); e.goal.Canceling? && Raised(e.flags, k) && e.log.events == s.log.events == []
  {
    var inv := (x: State) => Overtaken(x, k) && x.log.events == s.log.events;
    forall x: State, a: Action | inv(x) ensures inv(Next(x, a)) { OvertakenStep(x, a, k); }
    RunKeeps(Next, inv, (a: Action) => true, s, acts);
  }

  // setAborted(r) alone.
  lemma AbortRun(r: Result) returns (acts: seq<Action>, s: State)
    ensures Exec(Init(true, 0), acts) == s
    ensures
      s == Init(true, 0).(flags := Flags(true, true, false, false), result := r,
                          log := Init(true, 0).log.(requests := [Event(Abort, r)]))
  {
    var s0 := Init(true, 0);
    acts, s := AskedToExecute();
    acts, s := Perform(Next, s0, acts, s, Set(Abort, r));
    acts, s := Perform(Next, s0, acts, s, RealtimeLock);
    assert s == s0.(flags := Flags(true, false, false, false), holder := ByRealtime(StoreResult(Abort, r)));
    acts, s := Perform(Next, s0, acts, s, Inside);
    acts, s := Perform(Next, s0, acts, s, Inside);
    acts, s := Perform(Next, s0, acts, s, Inside);
  }

  // An abort is requested and then the client asks for cancellation, before any
  // runNonRealtime: here is a schedule to that state, from which the goal never
  // ends.
  lemma AbortOvertaken(r: Result)
    ensures exists acts ::
              var s := Exec(Init(true, 0), acts);
              && Overtaken(s, Abort) && s.log.requests == [Event(Abort, r)]
              && forall more :: Exec(s, more).goal.Canceling? && Exec(s, more).log.events == []
  {
    var acts, s := AbortRun(r);
    acts, s := Perform(Next, Init(true, 0), acts, s, ClientCancel);
    RunKeepsInv(Init(true, 0), acts);
    assert Exec(Init(true, 0), acts) == s && Overtaken(s, Abort);
    forall more ensures Exec(s, more).goal.Canceling? && Exec(s, more).log.events == [] {
      OvertakenForever(s, more, Abort);
    }
  }

  // How far a handle with request k up is from delivering it, if the client does
  // not ask for cancellation: a pass of runNonRealtime that may have begun too
  // late, then a whole one.
  function DeliveryRank(s: State, k: Kind): nat {
    match s.holder
    case Free => 15
    case ByRealtime(_) => 19
    case ByUpdater(UnlockUpdate) => 16
    case ByUpdater(StorePointer(_)) => 17
    case ByUpdater(Rewrite(_)) => 18
    case ByRunner(pc) => RunnerRank(s.holder) + if InTime(s, k, pc) then 0 else 15
  }

  predicate InTime(s: State, k: Kind, pc: Runner) {
    || pc.TestExecute? || (pc.DoExecute? && s.goal.Accepted?)
    || (s.goal.Executing? && !pc.DoExecute? && Reaching(k, pc))
  }

  ghost predicate Deliverable(s: State, k: Kind) {
    && Inv(s) && s.valid && k != Cancel && Raised(s.flags, k)
    && (s.goal.Accepted? || s.goal.Executing?)
  }

  lemma RunnerComes(s: State, k: Kind)
    requires RequestInv(s) && RunnerInv(s) && k != Cancel && Raised(s.flags, k) && s.holder.ByRunner?
    requires s.goal.Accepted? || s.goal.Executing?
    ensures
      var n := RunnerNext(s, s.holder.at);
      || n.log.events != []
      || (DeliveryRank(n, k) < DeliveryRank(s, k) && (n.goal.Accepted? || n.goal.Executing?)
          && Raised(n.flags, k) && n.valid == s.valid)
  {
  }

  lemma DeliveryComes(s: State, k: Kind)
    requires Deliverable(s, k)
    ensures
      var n := Next(s, if s.holder.Free? then Enter else Inside);
      n.log.events != [] || (Deliverable(n, k) && DeliveryRank(n, k) < DeliveryRank(s, k))
  {
    StepKeepsInv(s, if s.holder.Free? then Enter else Inside);
    if s.holder.ByRunner? {
      RunnerComes(s, k);
    }
  }

  lemma {:induction false} DeliveryRun(s: State, k: Kind) returns (acts: seq<Action>)
    requires Deliverable(s, k)
    ensures Exec(s, acts).log.events != []
    decreases DeliveryRank(s, k)
  {
    var a := if s.holder.Free? then Enter else Inside;
    DeliveryComes(s, k);
    var n;
    acts, n := Perform(Next, s, [], s, a);
    if n.log.events == [] {
      var rest := DeliveryRun(n, k);
      RunAppend(Next, s, acts, rest);
      acts := acts + rest;
    }
  }

  // The exact condition for an abort or a success that is up to be delivered at
  // all: the client has not asked for cancellation, or the runner has passed its
  // test already.
  lemma DeliverableIffNotOvertaken(s: State, k: Kind)
    requires Inv(s) && s.valid && k != Cancel && Raised(s.flags, k) && Active(s.goal)
    ensures !s.goal.Canceling? || Delivering(k, s.holder) <==> exists acts :: Exec(s, acts).log.events != []
  {
    if !s.goal.Canceling? {
      var acts := DeliveryRun(s, k);
    } else if Delivering(k, s.holder) {
      var acts, n := Perform(Next, s, [], s, Inside);
      assert Exec(s, acts) == n && n.log.events != [];
    } else {
      forall acts ensures Exec(s, acts).log.events == [] {
        OvertakenForever(s, acts, k);
      }
    }
  }

  // ----------------------------------------------------------------- feedback

  // No update callback has thrown so far.
  ghost predicate Unthrown(log: Log) {
    !log.thrown && forall p :: p in log.published ==> !p.torn
  }

  lemma UnthrownStep(s: State, a: Action)
    requires Unthrown(s.log) && a != UpdateThrows
    ensures Unthrown(Next(s, a).log)
  {
  }

  // Every published feedback is what the last successful setFeedback or
  // trySetFeedback left, whole, unless it is the preallocated message after an
  // update callback threw; and it is published while the goal is executing or
  // canceling, the latter if and only if the client had asked for cancellation.
  lemma FeedbackIsLastSet(valid: bool, preallocated: int, acts: seq<Action>)
    ensures
      var s := Exec(Init(valid, preallocated), acts);
      forall p :: p in s.log.published ==>
        && (!p.torn ==> p.due == Some(p.value))
        && (p.torn ==> UpdateThrows in acts)
        && (p.goal.Executing? <==> !p.cancelAsked)
        && (p.goal.Canceling? <==> p.cancelAsked)
  {
    RunKeepsInv(Init(valid, preallocated), acts);
    if UpdateThrows !in acts {
      forall x: State, a: Action | Unthrown(x.log) && a != UpdateThrows ensures Unthrown(Next(x, a).log) {
        UnthrownStep(x, a);
      }
      RunKeeps(Next, (x: State) => Unthrown(x.log), (a: Action) => a != UpdateThrows,
               Init(valid, preallocated), acts);
    }
  }

  // The steps of others, and of callbacks, between two statements of the holder.
  lemma {:induction false} OthersKeepHolder(s: State, acts: seq<Action>)
    requires !s.holder.Free? && Inside !in acts && UpdateThrows !in acts
    ensures
      var e := Exec(s, acts);
      && e.holder == s.holder && e.pointer == s.pointer && e.log.published == s.log.published
      && e.log.feedback == s.log.feedback
      && (!(s.holder.ByUpdater? && s.holder.update.Rewrite?) ==> e.preallocated == s.preallocated)
    decreases |acts|
  {
    if acts != [] {
      OthersKeepHolder(s, acts[..|acts| - 1]);
    }
  }

  // While an update callback runs, whatever it has written so far, and whatever
  // other threads do, nothing is published and the mutex is its own; when it
  // returns, what it wrote last is what the handle will publish.
  lemma NoTornFeedback(s: State, acts: seq<Action>)
    requires Inv(s) && s.holder.ByUpdater? && s.holder.update.Rewrite?
    requires Inside !in acts && UpdateThrows !in acts
    ensures
      var e := Exec(s, acts);
      var n := Next(Next(e, Inside), Inside);
      && e.holder == s.holder && e.log.published == s.log.published == n.log.published
      && Current(n) == Some(s.holder.update.value) == n.log.feedback && !Torn(n)
  {
    OthersKeepHolder(s, acts);
  }

  // An update callback that throws leaves the feedback whole, whatever it has
  // written by then, if and only if the handle does not designate the
  // preallocated message, as it does after an earlier trySetFeedback.
  lemma ThrowIsHarmlessIffNotPreallocated(s: State)
    requires Inv(s) && s.holder.ByUpdater? && s.holder.update.Rewrite?
    ensures
      !s.pointer.Preallocated? <==>
      forall acts :: Inside !in acts && UpdateThrows !in acts ==>
        var n := Next(Exec(s, acts), UpdateThrows);
        n.holder.Free? && Current(n) == s.log.feedback
  {
    forall acts | Inside !in acts && UpdateThrows !in acts
      ensures Exec(s, acts).holder == s.holder && Exec(s, acts).pointer == s.pointer
    {
      OthersKeepHolder(s, acts);
    }
    if s.pointer.Preallocated? {
      var other := if s.log.feedback == Some(0) then 1 else 0;
      var acts, n := Perform(Next, s, [], s, Scribble(other));
      assert Inside !in acts && UpdateThrows !in acts;
      assert Current(Next(Exec(s, acts), UpdateThrows)) == Some(other);
    }
  }

  // A throw over the preallocated message after an earlier trySetFeedback: the
  // next runNonRealtime publishes 9, which no set left, instead of 7.
  lemma TornFeedback()
    ensures exists acts ::
              Exec(Init(true, 0), acts).log.published == [Publication(9, Some(7), true, false, Executing)]
  {
    var s0 := Init(true, 0);
    var acts, s := AskedToExecute();
    acts, s := UpdatedPreallocated(acts, s, 7);
    acts, s := Perform(Next, s0, acts, s, TrySetFeedback(8, true));
    acts, s := Perform(Next, s0, acts, s, Scribble(9));
    acts, s := Perform(Next, s0, acts, s, UpdateThrows);
    assert s.preallocated == 9 && s.log == Log([], [], Some(7), true, [], false);
    acts, s := RunToPublication(acts, s);
    acts, s := Perform(Next, s0, acts, s, Inside);
    assert Exec(s0, acts) == s && s.log.published == [Publication(9, Some(7), true, false, Executing)];
  }

  // trySetFeedback(v) alone.
  lemma UpdatedPreallocated(before: seq<Action>, at: State, v: int) returns (acts: seq<Action>, s: State)
    requires Exec(Init(true, 0), before) == at && at.holder.Free?
    ensures Exec(Init(true, 0), acts) == s
    ensures s == at.(preallocated := v, pointer := Preallocated, log := Updated(at.log, Some(v)))
  {
    var s0 := Init(true, 0);
    acts, s := Perform(Next, s0, before, at, TrySetFeedback(v, true));
    acts, s := Perform(Next, s0, acts, s, Inside);
    acts, s := Perform(Next, s0, acts, s, Inside);
    acts, s := Perform(Next, s0, acts, s, Inside);
  }

  // setFeedback(v) alone.
  lemma FedExternally(before: seq<Action>, at: State, v: int) returns (acts: seq<Action>, s: State)
    requires Exec(Init(true, 0), before) == at && at.holder.Free?
    ensures Exec(Init(true, 0), acts) == s
    ensures s == at.(pointer := External(v), log := Updated(at.log, Some(v)))
  {
    var s0 := Init(true, 0);
    acts, s := Perform(Next, s0, before, at, SetFeedback(Some(v), true));
    acts, s := Perform(Next, s0, acts, s, Inside);
    acts, s := Perform(Next, s0, acts, s, Inside);
  }

  // execute() on a fresh handle.
  lemma AskedToExecute() returns (acts: seq<Action>, s: State)
    ensures Exec(Init(true, 0), acts) == s
    ensures s == Init(true, 0).(flags := Flags(true, false, false, false))
  {
    acts, s := Perform(Next, Init(true, 0), [], Init(true, 0), Execute);
    acts, s := Perform(Next, Init(true, 0), acts, s, RealtimeLock);
    acts, s := Perform(Next, Init(true, 0), acts, s, Inside);
    acts, s := Perform(Next, Init(true, 0), acts, s, Inside);
  }

  // Nothing but feedback is left for a runner that has begun to execute the goal.
  predicate OnlyFeedback(s: State) {
    && s.goal.Executing? && s.holder.ByRunner? && !s.pointer.Null?
    && s.flags == Flags(true, false, false, false)
  }

  lemma PassesTest(s: State)
    requires OnlyFeedback(s)
    ensures s.holder.at.TestAbort? ==> Next(s, Inside) == At(s, TestCancel)
    ensures s.holder.at.TestCancel? ==> Next(s, Inside) == At(s, TestSucceed)
    ensures s.holder.at.TestSucceed? ==> Next(s, Inside) == At(s, TestFeedback)
    ensures s.holder.at.TestFeedback? ==> Next(s, Inside) == At(s, DoPublish)
  {
  }

  lemma EntersAndExecutes(s: State)
    requires s.valid && s.goal.Accepted? && s.holder.Free? && s.flags == Flags(true, false, false, false)
    ensures Next(Next(Next(s, Enter), Inside), Inside) == At(s.(goal := Executing), TestAbort)
  {
  }

  // runNonRealtime up to the publication.
  lemma RunToPublication(before: seq<Action>, at: State) returns (acts: seq<Action>, s: State)
    requires Exec(Init(true, 0), before) == at
    requires at.valid && at.goal.Accepted? && at.holder.Free? && at.flags == Flags(true, false, false, false)
    requires !at.pointer.Null?
    ensures Exec(Init(true, 0), acts) == s
    ensures s == at.(goal := Executing, holder := ByRunner(DoPublish))
  {
    var s0 := Init(true, 0);
    EntersAndExecutes(at);
    acts, s := Perform(Next, s0, before, at, Enter);
    acts, s := Perform(Next, s0, acts, s, Inside);
    acts, s := Perform(Next, s0, acts, s, Inside);
    PassesTest(s);
    acts, s := Perform(Next, s0, acts, s, Inside);
    PassesTest(s);
    acts, s := Perform(Next, s0, acts, s, Inside);
    PassesTest(s);
    acts, s := Perform(Next, s0, acts, s, Inside);
    PassesTest(s);
    acts, s := Perform(Next, s0, acts, s, Inside);
  }

  // The header promises publication only while the goal is executing.  A cancel
  // request landing between the test and the publication defeats that: here is a
  // schedule.
  lemma FeedbackWhileCanceling()
    ensures exists acts ::
              Exec(Init(true, 0), acts).log.published == [Publication(7, Some(7), false, true, Canceling)]
  {
    var s0 := Init(true, 0);
    var acts, s := AskedToExecute();
    acts, s := FedExternally(acts, s, 7);
    acts, s := RunToPublication(acts, s);
    acts, s := Perform(Next, s0, acts, s, ClientCancel);
    assert s.goal.Canceling? && s.log == Log([], [], Some(7), false, [], true) && s.pointer == External(7);
    acts, s := Perform(Next, s0, acts, s, Inside);
    assert Exec(s0, acts) == s && s.log.published == [Publication(7, Some(7), false, true, Canceling)];
  }

  // Between the test and the publication only a client cancel moves the goal.
  lemma {:induction false} OnlyCancelMovesGoal(s: State, acts: seq<Action>)
    requires s.holder == ByRunner(DoPublish) && s.goal.Executing? && Inside !in acts
    ensures
      var e := Exec(s, acts);
      && e.goal == (if ClientCancel in acts then Canceling else Executing)
      && e.holder == s.holder && Current(e) == Current(s) && e.log.published == s.log.published
    decreases |acts|
  {
    if acts != [] {
      OnlyCancelMovesGoal(s, acts[..|acts| - 1]);
      assert acts == acts[..|acts| - 1] + [acts[|acts| - 1]];
    }
  }

  // The exact condition: once runNonRealtime has found the goal executing, its
  // publication finds it executing if and only if no client cancel came between,
  // whatever else happened; and if one did, the goal is canceling.
  lemma ExecutingIffNoCancelBetween(s: State, acts: seq<Action>)
    requires Inv(s) && s.holder == ByRunner(DoPublish) && s.goal.Executing? && Inside !in acts
    ensures
      var n := Next(Exec(s, acts), Inside);
      && |n.log.published| == |s.log.published| + 1
      && var p := n.log.published[|s.log.published|];
         && Some(p.value) == Current(s)
         && (p.goal.Executing? <==> ClientCancel !in acts)
         && (p.goal.Canceling? <==> ClientCancel in acts)
  {
    OnlyCancelMovesGoal(s, acts);
  }

  // A runner about to publish came from its test, which found the goal executing.
  lemma {:induction false} PublisherTested(valid: bool, preallocated: int, acts: seq<Action>)
    returns (before: seq<Action>, mid: seq<Action>)
    requires Exec(Init(valid, preallocated), acts).holder == ByRunner(DoPublish)
    ensures acts == before + [Inside] + mid && Inside !in mid
    ensures
      var t := Exec(Init(valid, preallocated), before);
      t.holder == ByRunner(TestFeedback) && t.goal.Executing? && !t.pointer.Null?
    decreases |acts|
  {
    var front, last := acts[..|acts| - 1], acts[|acts| - 1];
    if last == Inside {
      before, mid := front, [];
    } else {
      before, mid := PublisherTested(valid, preallocated, front);
      mid := mid + [last];
    }
  }

  // From the test through the steps between to the publication.
  lemma TestToPublication(valid: bool, preallocated: int, before: seq<Action>, mid: seq<Action>)
    requires
      var t := Exec(Init(valid, preallocated), before);
      t.holder == ByRunner(TestFeedback) && t.goal.Executing? && !t.pointer.Null? && Inside !in mid
    ensures
      var t := Exec(Init(valid, preallocated), before);
      var n := Next(Exec(Init(valid, preallocated), before + [Inside] + mid), Inside);
      && |n.log.published| == |t.log.published| + 1
      && var p := n.log.published[|t.log.published|];
         (p.goal.Executing? <==> ClientCancel !in mid) && (p.goal.Canceling? <==> ClientCancel in mid)
    ensures
      Exec(Init(valid, preallocated), before + [Inside] + mid).log.published
      == Exec(Init(valid, preallocated), before).log.published
  {
    var s0 := Init(valid, preallocated);
    RunKeepsInv(s0, before + [Inside]);
    RunSnoc(Next, s0, before, Inside);
    RunAppend(Next, s0, before + [Inside], mid);
    ExecutingIffNoCancelBetween(Exec(s0, before + [Inside]), mid);
    OnlyCancelMovesGoal(Exec(s0, before + [Inside]), mid);
  }

  // In every run every publication follows a test that found the goal executing,
  // and finds it executing if and only if no client cancel came between the two.
  lemma {:induction false} EveryPublication(valid: bool, preallocated: int, acts: seq<Action>, i: nat)
    returns (before: seq<Action>, mid: seq<Action>, after: seq<Action>)
    requires i < |Exec(Init(valid, preallocated), acts).log.published|
    ensures acts == before + [Inside] + mid + [Inside] + after && Inside !in mid
    ensures
      var t := Exec(Init(valid, preallocated), before);
      t.holder == ByRunner(TestFeedback) && t.goal.Executing? && |t.log.published| == i
    ensures
      var p := Exec(Init(valid, preallocated), acts).log.published[i];
      && (p.goal.Executing? <==> ClientCancel !in mid)
      && (p.goal.Canceling? <==> ClientCancel in mid)
    decreases |acts|
  {
    var front, last := acts[..|acts| - 1], acts[|acts| - 1];
    var f := Exec(Init(valid, preallocated), front);
    assert acts == front + [last];
    if i < |f.log.published| {
      before, mid, after := EveryPublication(valid, preallocated, front, i);
      after := after + [last];
      PublishedGrows(f, last);
    } else {
      assert last == Inside && f.holder == ByRunner(DoPublish);
      before, mid := PublisherTested(valid, preallocated, front);
      after := [];
      TestToPublication(valid, preallocated, before, mid);
    }
  }

  lemma PublishedGrows(s: State, a: Action)
    ensures s.log.published <= Next(s, a).log.published
    ensures |Next(s, a).log.published| <= |s.log.published| + 1
    ensures Next(s, a).log.published != s.log.published ==> a == Inside && s.holder == ByRunner(DoPublish)
  {
  }
}
