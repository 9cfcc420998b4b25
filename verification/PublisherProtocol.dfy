// The hand-off of RealtimePublisher: any number of try_publish, can_publish and
// stop callers against one publishing thread, at the grain of single loads,
// stores, lock operations and notifies.
module PublisherProtocol {
  import opened Runs

  type Tid = nat

  // The thread that constructs and destroys the publisher.
  const OWNER: Tid := 0

  datatype Turn = Realtime | NonRealtime | LoopNotStarted

  // The statement a caller inside msg_mutex_ performs next.
  datatype Section<T> =
    | TestTurn(m: T)          // try_publish: can_publish(lock)
    | WriteMsg(m: T)          // msg_ = msg
    | StoreNonRealtime(m: T)  // turn_ = NON_REALTIME
    | UnlockAccepted          // leave the scope of scoped_lock
    | UnlockRejected          // return false
    | Probe                   // can_publish(): test turn_, unlock, return
    | StopClear               // stop(): keep_running_ = false
    | StopUnlock

  datatype Holder<T> = Free | ByLoop | ByCaller(tid: Tid, at: Section<T>)

  // The statement the publishing loop performs next.
  datatype LoopPc =
    | Entry        // is_running_ = true
    | TestKeep     // while (keep_running_)
    | StoreTurn    // turn_ = REALTIME, no lock held
    | LockMsg      // lock msg_mutex_
    | TestWait     // evaluate the wait predicate, lock held
    | Doze         // predicate was false, lock still held
    | Asleep       // lock released, in the wait set
    | Woken        // notified or spuriously woken, must lock again
    | CopyMsg      // outgoing = msg_
    | UnlockMsg
    | TestSend     // if (keep_running_)
    | Send         // publish(outgoing)
    | Leave        // is_running_ = false
    | Gone

  datatype OwnerPc =
    | Polling      // initialize: wait until turn_ leaves LOOP_NOT_STARTED
    | Live
    | Stopping     // destructor: inside stop()
    | AwaitLoop    // destructor: poll is_running()
    | Join
    | Dead

  // Callers outside the mutex.
  datatype Callers = Callers(
    notifying: set<Tid>,      // try_publish callers that unlocked and have yet to notify
    stopping: set<Tid>,       // stop callers that have yet to lock
    stopNotifying: set<Tid>)  // stop callers that unlocked and have yet to notify

  datatype Call = TryCall | CanCall

  // What a call returned.
  datatype Answer = Answer(tid: Tid, call: Call, ok: bool)

  datatype Log<T> = Log(
    accepted: seq<T>,         // messages of the try_publish calls that return true, in order
    published: seq<T>,        // arguments of publisher_->publish, in order
    answers: seq<Answer>)     // results of try_publish and can_publish, in order

  datatype State<T> = State(
    turn: Turn,
    keepRunning: bool,
    isRunning: bool,
    msg: T,
    outgoing: T,
    holder: Holder<T>,
    loop: LoopPc,
    owner: OwnerPc,
    callers: Callers,
    log: Log<T>)

  datatype Action<T> =
    | Loop                                     // the publishing thread's next statement
    | SpuriousWake
    | TryPublish(tid: Tid, m: T, won: bool)    // won: what try_lock answers if the mutex is free
    | CanPublish(tid: Tid, won: bool)
    | Stop(tid: Tid)
    | StopLock(tid: Tid)
    | Inside                                   // the next statement of the caller that holds the mutex
    | Notify(tid: Tid)
    | Owner                                    // the owner's next statement
    | Destroy

  // The state after initialize has stored its three flags and spawned the loop.
  function Init<T>(m: T): State<T> {
    State(LoopNotStarted, true, false, m, m, Free, Entry, Polling, Callers({}, {}, {}), Log([], [], []))
  }

  predicate Busy<T>(s: State<T>, t: Tid) {
    || t in s.callers.notifying || t in s.callers.stopping || t in s.callers.stopNotifying
    || (s.holder.ByCaller? && s.holder.tid == t)
  }

  function Wake(pc: LoopPc): LoopPc {
    if pc == Asleep then Woken else pc
  }

  predicate WaitDone<T>(s: State<T>) {
    s.turn == NonRealtime || !s.keepRunning
  }

  function LoopNext<T>(s: State<T>): State<T> {
    match s.loop
    case Entry => s.(isRunning := true, loop := TestKeep)
    case TestKeep => s.(loop := if s.keepRunning then StoreTurn else Leave)
    case StoreTurn => s.(turn := Realtime, loop := LockMsg)
    case LockMsg => if s.holder == Free then s.(holder := ByLoop, loop := TestWait) else s
    case TestWait => s.(loop := if WaitDone(s) then CopyMsg else Doze)
    case Doze => s.(holder := Free, loop := Asleep)
    case Asleep => s
    case Woken => if s.holder == Free then s.(holder := ByLoop, loop := TestWait) else s
    case CopyMsg => s.(outgoing := s.msg, loop := UnlockMsg)
    case UnlockMsg => s.(holder := Free, loop := TestSend)
    case TestSend => s.(loop := if s.keepRunning then Send else TestKeep)
    case Send => s.(log := s.log.(published := s.log.published + [s.outgoing]), loop := TestKeep)
    case Leave => s.(isRunning := false, loop := Gone)
    case Gone => s
  }

  // The call returns.
  function Returns<T>(log: Log<T>, t: Tid, call: Call, ok: bool): Log<T> {
    log.(answers := log.answers + [Answer(t, call, ok)])
  }

  function InsideNext<T>(s: State<T>): State<T>
    requires s.holder.ByCaller?
  {
    var t := s.holder.tid;
    match s.holder.at
    case TestTurn(m) => s.(holder := ByCaller(t, if s.turn == Realtime then WriteMsg(m) else UnlockRejected))
    case WriteMsg(m) => s.(msg := m, holder := ByCaller(t, StoreNonRealtime(m)))
    case StoreNonRealtime(m) =>
      s.(turn := NonRealtime, log := s.log.(accepted := s.log.accepted + [m]), holder := ByCaller(t, UnlockAccepted))
    case UnlockAccepted => s.(holder := Free, callers := s.callers.(notifying := s.callers.notifying + {t}))
    case UnlockRejected => s.(holder := Free, log := Returns(s.log, t, TryCall, false))
    case Probe => s.(holder := Free, log := Returns(s.log, t, CanCall, s.turn == Realtime))
    case StopClear => s.(keepRunning := false, holder := ByCaller(t, StopUnlock))
    case StopUnlock => s.(holder := Free, callers := s.callers.(stopNotifying := s.callers.stopNotifying + {t}))
  }

  function NotifyNext<T>(s: State<T>, t: Tid): State<T> {
    var out := s.callers;
    if t in out.notifying then
      s.(callers := out.(notifying := out.notifying - {t}), loop := Wake(s.loop),
         log := Returns(s.log, t, TryCall, true))
    else if t in out.stopNotifying then
      s.(callers := out.(stopNotifying := out.stopNotifying - {t}), loop := Wake(s.loop))
    else s
  }

  function OwnerNext<T>(s: State<T>): State<T> {
    match s.owner
    case Polling => if s.turn == LoopNotStarted then s else s.(owner := Live)
    case Live => s
    case Stopping => if Busy(s, OWNER) then s else s.(owner := AwaitLoop)
    case AwaitLoop => if s.isRunning then s else s.(owner := Join)
    case Join => if s.loop == Gone then s.(owner := Dead) else s
    case Dead => s
  }

  function Next<T>(s: State<T>, a: Action<T>): State<T> {
    match a
    case Loop => LoopNext(s)
    case SpuriousWake => s.(loop := Wake(s.loop))
    case TryPublish(t, m, won) =>
      if Busy(s, t) then s
      else if won && s.holder == Free then s.(holder := ByCaller(t, TestTurn(m)))
      else s.(log := Returns(s.log, t, TryCall, false))
    case CanPublish(t, won) =>
      if Busy(s, t) then s
      else if won && s.holder == Free then s.(holder := ByCaller(t, Probe))
      else s.(log := Returns(s.log, t, CanCall, false))
    case Stop(t) => if !Busy(s, t) then s.(callers := s.callers.(stopping := s.callers.stopping + {t})) else s
    case StopLock(t) =>
      if t in s.callers.stopping && s.holder == Free
      then s.(callers := s.callers.(stopping := s.callers.stopping - {t}), holder := ByCaller(t, StopClear)) else s
    case Inside => if s.holder.ByCaller? then InsideNext(s) else s
    case Notify(t) => NotifyNext(s, t)
    case Owner => OwnerNext(s)
    case Destroy =>
      if s.owner == Live && !Busy(s, OWNER)
      then s.(owner := Stopping, callers := s.callers.(stopping := s.callers.stopping + {OWNER})) else s
  }

  function Exec<T>(s: State<T>, acts: seq<Action<T>>): State<T> {
    Run(Next, s, acts)
  }

  // ---------------------------------------------------------------- invariant

  predicate LoopHolds(pc: LoopPc) {
    pc.TestWait? || pc.Doze? || pc.CopyMsg? || pc.UnlockMsg?
  }

  // Between the loop's unlocked store of REALTIME and the end of publish.
  predicate Serving(pc: LoopPc) {
    LoopHolds(pc) || pc.LockMsg? || pc.Asleep? || pc.Woken? || pc.TestSend? || pc.Send?
  }

  // What the loop, turn_ and keep_running_ say about the two histories.
  ghost predicate HistoryInv<T>(s: State<T>) {
    && (s.log.accepted == s.log.published || s.log.accepted == s.log.published + [s.msg])
    && (s.turn != NonRealtime ==> s.log.accepted == s.log.published)
    && (s.turn == NonRealtime && Serving(s.loop) ==> s.log.accepted == s.log.published + [s.msg])
    && (s.loop.StoreTurn? || (s.loop.TestKeep? && s.keepRunning) ==>
          s.turn != Realtime && s.log.accepted == s.log.published)
  }

  ghost predicate LoopInv<T>(s: State<T>) {
    && (s.holder == ByLoop <==> LoopHolds(s.loop))
    && (s.loop.CopyMsg? && s.keepRunning ==> s.turn == NonRealtime)
    && ((s.loop.UnlockMsg? || s.loop.TestSend?) && s.keepRunning ==> s.turn == NonRealtime && s.outgoing == s.msg)
    && (s.loop.Send? ==> s.turn == NonRealtime && s.outgoing == s.msg)
    && (s.loop.Doze? ==> !WaitDone(s))
    && (s.loop.Leave? || s.loop.Gone? ==> !s.keepRunning)
  }

  ghost predicate CallInv<T>(s: State<T>) {
    s.holder.ByCaller? ==>
      match s.holder.at
      case WriteMsg(_) => s.turn == Realtime
      case StoreNonRealtime(m) => s.turn == Realtime && s.msg == m
      case UnlockAccepted =>
        && s.turn == NonRealtime && s.log.accepted == s.log.published + [s.msg]
        && !s.loop.Send? && (s.loop.TestSend? ==> !s.keepRunning)
      case StopUnlock => !s.keepRunning
      case _ => true
  }

  // A sleeping loop whose predicate holds is still owed a notify.
  ghost predicate WakeInv<T>(s: State<T>) {
    s.loop.Asleep? ==>
      && (s.turn == NonRealtime ==> s.callers.notifying != {} || (s.holder.ByCaller? && s.holder.at.UnlockAccepted?))
      && (!s.keepRunning ==> s.callers.stopNotifying != {} || (s.holder.ByCaller? && s.holder.at.StopUnlock?))
  }

  ghost predicate OwnerInv<T>(s: State<T>) {
    && (s.turn == LoopNotStarted ==> !Serving(s.loop))
    && (s.loop.Entry? ==> s.turn == LoopNotStarted)
    && (s.isRunning <==> !s.loop.Entry? && !s.loop.Gone?)
    && (!s.owner.Polling? ==> s.turn != LoopNotStarted)
    && (s.owner.Join? || s.owner.Dead? ==> s.loop.Gone?)
    && (s.callers.stopNotifying != {} ==> !s.keepRunning)
    && (s.owner.Stopping? ==>
          !s.keepRunning || OWNER in s.callers.stopping || s.holder == ByCaller(OWNER, StopClear))
    && (s.owner.AwaitLoop? ==> !s.keepRunning)
  }

  ghost predicate Inv<T>(s: State<T>) {
    HistoryInv(s) && LoopInv(s) && CallInv(s) && WakeInv(s) && OwnerInv(s)
  }

  lemma LoopKeepsHistory<T>(s: State<T>)
    requires Inv(s)
    ensures HistoryInv(LoopNext(s)) && LoopInv(LoopNext(s))
  {
  }

  lemma LoopKeepsCalls<T>(s: State<T>)
    requires Inv(s)
    ensures CallInv(LoopNext(s)) && WakeInv(LoopNext(s)) && OwnerInv(LoopNext(s))
  {
  }

  lemma InsideKeepsHistory<T>(s: State<T>)
    requires HistoryInv(s) && LoopInv(s) && CallInv(s) && s.holder.ByCaller?
    ensures HistoryInv(InsideNext(s)) && LoopInv(InsideNext(s)) && CallInv(InsideNext(s))
  {
  }

  lemma InsideKeepsOwner<T>(s: State<T>)
    requires CallInv(s) && WakeInv(s) && OwnerInv(s) && s.holder.ByCaller?
    ensures WakeInv(InsideNext(s)) && OwnerInv(InsideNext(s))
  {
  }

  lemma InsideKeepsInv<T>(s: State<T>)
    requires Inv(s) && s.holder.ByCaller?
    ensures Inv(InsideNext(s))
  {
    InsideKeepsHistory(s);
    InsideKeepsOwner(s);
  }

  lemma StepKeepsInv<T>(s: State<T>, a: Action<T>)
    requires Inv(s)
    ensures Inv(Next(s, a))
  {
    match a
    case Loop => LoopKeepsHistory(s); LoopKeepsCalls(s);
    case Inside => if s.holder.ByCaller? { InsideKeepsInv(s); }
    case _ =>
  }

  // ----------------------------------------------------------------- theorems

  lemma RunKeepsInv<T(!new)>(s: State<T>, acts: seq<Action<T>>)
    requires Inv(s)
    ensures Inv(Exec(s, acts))
  {
    forall x: State<T>, a: Action<T> | Inv(x) ensures Inv(Next(x, a)) { StepKeepsInv(x, a); }
    RunKeeps(Next, (x: State<T>) => Inv(x), (a: Action<T>) => true, s, acts);
  }

  // In every run the published messages are the accepted ones in order, and at
  // most the last accepted one is still to come; it is then intact in msg_.
  lemma ExactlyOnce<T(!new)>(m: T, acts: seq<Action<T>>)
    ensures
      var s := Exec(Init(m), acts);
      && s.log.published <= s.log.accepted
      && |s.log.accepted| <= |s.log.published| + 1
      && (s.log.accepted != s.log.published ==> s.turn == NonRealtime && s.log.accepted[|s.log.published|] == s.msg)
  {
    RunKeepsInv(Init(m), acts);
  }

  // The loop's store of REALTIME outside the lock finds nothing to erase and no
  // caller past its test of turn_.
  lemma StoreErasesNothing<T(!new)>(m: T, acts: seq<Action<T>>)
    ensures
      var s := Exec(Init(m), acts);
      s.loop.StoreTurn? ==>
        && s.log.accepted == s.log.published
        && (s.holder.ByCaller? ==> !s.holder.at.WriteMsg? && !s.holder.at.StoreNonRealtime?)
  {
    RunKeepsInv(Init(m), acts);
  }

  ghost predicate Pending<T>(s: State<T>) {
    s.log.accepted != s.log.published
  }

  // The message pending in s has been published or is still the pending one.
  ghost predicate StillPending<T>(s: State<T>, x: State<T>) {
    || s.log.accepted <= x.log.published
    || (x.log.accepted == s.log.accepted && x.log.published == s.log.published && x.msg == s.msg)
  }

  // An accepted message stays the pending one until it is published.
  lemma PendingSurvives<T(!new)>(s: State<T>, acts: seq<Action<T>>)
    requires Inv(s) && Pending(s)
    ensures StillPending(s, Exec(s, acts))
  {
    var inv := (x: State<T>) => Inv(x) && StillPending(s, x);
    forall x: State<T>, a: Action<T> | inv(x) ensures inv(Next(x, a)) {
      StepKeepsInv(x, a);
      StepExtendsPublished(x, a);
    }
    RunKeeps(Next, inv, (a: Action<T>) => true, s, acts);
  }

  // No step takes a published message back, restarts a stopped publisher, or
  // touches msg_ and the accepted messages while one is pending.
  lemma StepExtendsPublished<T>(s: State<T>, a: Action<T>)
    requires HistoryInv(s) && LoopInv(s) && CallInv(s)
    ensures
      var n := Next(s, a);
      && s.log.published <= n.log.published
      && (n.keepRunning ==> s.keepRunning)
      && (Pending(s) ==> n.log.accepted == s.log.accepted && n.msg == s.msg)
      && (n.log.published != s.log.published ==> n.log.published == s.log.accepted)
  {
    if a.Loop? {
      LoopExtendsPublished(s);
    }
  }

  lemma LoopExtendsPublished<T>(s: State<T>)
    requires HistoryInv(s) && LoopInv(s)
    ensures
      var n := LoopNext(s);
      && n.keepRunning == s.keepRunning && n.log.accepted == s.log.accepted && n.msg == s.msg
      && (n.log.published == s.log.published
          || (s.loop.Send? && n.log.published == s.log.published + [s.msg] == s.log.accepted))
  {
  }

  // A loop asleep with a message waiting, or after a stop, is still owed a notify.
  lemma NoLostWakeup<T(!new)>(m: T, acts: seq<Action<T>>)
    ensures
      var s := Exec(Init(m), acts);
      s.loop.Asleep? && WaitDone(s) ==>
        s.callers.notifying != {} || s.callers.stopNotifying != {}
        || (s.holder.ByCaller? && (s.holder.at.UnlockAccepted? || s.holder.at.StopUnlock?))
  {
    RunKeepsInv(Init(m), acts);
  }

  // How many statements the loop has left once its wait cannot block any more.
  function Rank(pc: LoopPc): nat {
    match pc
    case Gone => 0
    case Leave => 1
    case TestKeep => 2
    case Send => 3
    case TestSend => 4
    case UnlockMsg => 5
    case CopyMsg => 6
    case TestWait => 7
    case LockMsg => 8
    case Woken => 8
    case Asleep => 9
    case Doze => 10
    case StoreTurn => 10
    case Entry => 3
  }

  // After keep_running_ is cleared the loop performs at most Rank more
  // statements, in any run, and publishes at most one more message.
  lemma StopBoundsLoop<T(!new)>(s: State<T>, acts: seq<Action<T>>)
    requires Inv(s) && !s.keepRunning
    ensures
      var e := Exec(s, acts);
      && Work(Next, (x: State<T>, a: Action<T>) => a.Loop?, s, acts) + Rank(e.loop) <= Rank(s.loop) <= 10
      && |e.log.published| + (if e.loop.Send? then 1 else 0) <= |s.log.published| + (if s.loop.Send? then 1 else 0)
  {
    var most := |s.log.published| + if s.loop.Send? then 1 else 0;
    var inv := (x: State<T>) =>
      Inv(x) && !x.keepRunning && |x.log.published| + (if x.loop.Send? then 1 else 0) <= most;
    var rank := (x: State<T>) => Rank(x.loop);
    forall x: State<T>, a: Action<T> | inv(x) ensures inv(Next(x, a)) && rank(Next(x, a)) <= rank(x) {
      StepKeepsInv(x, a);
      StopStepLowers(x, a);
    }
    forall x: State<T>, a: Action<T> | inv(x) && a.Loop? && Next(x, a) != x
      ensures rank(Next(x, a)) < rank(x)
    {
      StopStepLowers(x, a);
    }
    WorkBound(Next, inv, (a: Action<T>) => true, (x: State<T>, a: Action<T>) => a.Loop?, rank, s, acts);
  }

  lemma StopStepLowers<T>(s: State<T>, a: Action<T>)
    requires LoopInv(s) && !s.keepRunning
    ensures
      var n := Next(s, a);
      && !n.keepRunning
      && Rank(n.loop) <= Rank(s.loop)
      && (a.Loop? && n != s ==> Rank(n.loop) < Rank(s.loop))
      && |n.log.published| + (if n.loop.Send? then 1 else 0) <= |s.log.published| + (if s.loop.Send? then 1 else 0)
  {
  }

  // Statements left inside the critical section of a caller.
  function SectionRank<T>(h: Holder<T>): nat {
    if !h.ByCaller? then 0 else
    match h.at
    case TestTurn(_) => 4
    case WriteMsg(_) => 3
    case StoreNonRealtime(_) => 2
    case StopClear => 2
    case _ => 1
  }

  // Once every stop caller has notified, a loop that has not exited can move, or
  // waits for a caller inside the mutex that can move and is nearer its unlock.
  lemma StoppedLoopNotStuck<T>(s: State<T>)
    requires Inv(s) && !s.keepRunning && !s.loop.Gone?
    requires s.callers.stopNotifying == {} && !(s.holder.ByCaller? && s.holder.at.StopUnlock?)
    ensures
      || Next(s, Loop) != s
      || (s.holder.ByCaller? && SectionRank(Next(s, Inside).holder) < SectionRank(s.holder))
  {
  }

  // Statements the loop has left before it publishes the pending message.
  function ServeRank(pc: LoopPc): nat
  {
    if pc.TestKeep? || pc.StoreTurn? || pc.Entry? || pc.Leave? then 0 else Rank(pc)
  }

  // While nobody stops the publisher, a pending message is published within ten
  // statements of the loop: a run that leaves it pending had fewer.
  lemma PendingIsServed<T(!new)>(s: State<T>, acts: seq<Action<T>>)
    requires Inv(s) && Pending(s)
    ensures
      var e := Exec(s, acts);
      e.keepRunning && Pending(e) && e.log.published == s.log.published ==>
        && Work(Next, (x: State<T>, a: Action<T>) => a.Loop?, s, acts) + ServeRank(e.loop) <= ServeRank(s.loop) <= 10
        && (Next(e, Loop) == e ==> e.holder.ByCaller? || e.callers.notifying != {})
  {
    var keep := (x: State<T>) => Inv(x) && StillPending(s, x);
    var pending := (x: State<T>) => x.keepRunning && Pending(x) && x.log.published == s.log.published;
    var pick := (x: State<T>, a: Action<T>) => a.Loop?;
    var rank := (x: State<T>) => ServeRank(x.loop);
    forall x: State<T>, a: Action<T> | keep(x)
      ensures keep(Next(x, a))
      ensures pending(Next(x, a)) ==> pending(x) && rank(Next(x, a)) <= rank(x)
      ensures pending(Next(x, a)) && pick(x, a) && Next(x, a) != x ==> rank(Next(x, a)) < rank(x)
    {
      StepKeepsInv(x, a);
      StepExtendsPublished(x, a);
      if pending(Next(x, a)) {
        ServeStep(x, a);
      }
    }
    WorkWhile(Next, keep, pending, (a: Action<T>) => true, pick, rank, s, acts);
  }

  lemma ServeStep<T>(s: State<T>, a: Action<T>)
    requires Inv(s) && Pending(s) && s.keepRunning
    ensures
      var n := Next(s, a);
      Pending(n) ==>
        && ServeRank(n.loop) <= ServeRank(s.loop)
        && (a.Loop? && n != s ==> ServeRank(n.loop) < ServeRank(s.loop))
  {
  }

  // initialize returns only after the loop stored is_running_ and opened the
  // turn, and the destructor leaves its polling loop only after the loop's exit.
  lemma Handshake<T(!new)>(m: T, acts: seq<Action<T>>)
    ensures
      var s := Exec(Init(m), acts);
      && (!s.owner.Polling? ==> !s.loop.Entry? && s.turn != LoopNotStarted)
      && (s.owner.Live? && s.keepRunning ==> s.isRunning)
      && (s.owner.AwaitLoop? ==> (s.isRunning <==> !s.loop.Gone?))
      && (s.owner.Join? || s.owner.Dead? ==> s.loop.Gone? && !s.isRunning)
  {
    RunKeepsInv(Init(m), acts);
  }
}
