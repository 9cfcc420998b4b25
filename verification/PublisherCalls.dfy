// What whole calls on a RealtimePublisher do: try_publish, can_publish and stop
// alone and among others, and the way of one message to its publication.
module PublisherCalls {
  import opened Runs
  import opened PublisherProtocol

  // ------------------------------------------------------------ whole calls

  // try_publish that nobody interrupts: with the turn REALTIME it stores the
  // message, hands the turn over, wakes the loop and returns true; otherwise it
  // returns false and leaves everything else alone.
  lemma TryPublishAlone<T>(s: State<T>, t: Tid, m: T)
    requires Inv(s) && s.holder == Free && !Busy(s, t)
    ensures
      var rejected := Next(Next(Next(s, TryPublish(t, m, true)), Inside), Inside);
      var accepted := Next(Next(Next(rejected, Inside), Inside), Notify(t));
      if s.turn == Realtime then
        && accepted.log.accepted == s.log.accepted + [m] && accepted.msg == m && accepted.turn == NonRealtime
        && accepted.log.answers == s.log.answers + [Answer(t, TryCall, true)]
        && accepted.log.published == s.log.published && accepted.holder == Free && accepted.callers == s.callers
        && !accepted.loop.Asleep? && (!s.loop.Asleep? ==> accepted.loop == s.loop)
        && accepted.keepRunning == s.keepRunning
      else
        rejected == s.(log := s.log.(answers := s.log.answers + [Answer(t, TryCall, false)]))
  {
    if s.turn == Realtime {
      TryPublishSteps(s, t, m);
    }
  }

  lemma TryPublishSteps<T>(s: State<T>, t: Tid, m: T)
    requires s.holder == Free && !Busy(s, t) && s.turn == Realtime
    ensures
      var e := Next(Next(Next(Next(Next(s, TryPublish(t, m, true)), Inside), Inside), Inside), Inside);
      e == s.(msg := m, turn := NonRealtime, callers := s.callers.(notifying := s.callers.notifying + {t}),
              log := s.log.(accepted := s.log.accepted + [m]))
  {
    var written := Next(Next(Next(s, TryPublish(t, m, true)), Inside), Inside);
    assert written == s.(msg := m, holder := ByCaller(t, StoreNonRealtime(m)));
  }

  // can_publish that nobody interrupts answers whether the turn is REALTIME.
  lemma CanPublishAlone<T>(s: State<T>, t: Tid)
    requires s.holder == Free && !Busy(s, t)
    ensures
      Next(Next(s, CanPublish(t, true)), Inside)
      == s.(log := s.log.(answers := s.log.answers + [Answer(t, CanCall, s.turn == Realtime)]))
  {
  }

  // A call whose try_lock fails returns false and touches nothing.
  lemma LostLockIsFalse<T>(s: State<T>, t: Tid, m: T, won: bool)
    requires !Busy(s, t) && (!won || s.holder != Free)
    ensures
      && Next(s, TryPublish(t, m, won)) == s.(log := s.log.(answers := s.log.answers + [Answer(t, TryCall, false)]))
      && Next(s, CanPublish(t, won)) == s.(log := s.log.(answers := s.log.answers + [Answer(t, CanCall, false)]))
  {
  }

  // stop that nobody interrupts clears the flag and wakes the loop.
  lemma StopAlone<T>(s: State<T>, t: Tid)
    requires s.holder == Free && !Busy(s, t)
    ensures
      var e := Next(Next(Next(Next(Next(s, Stop(t)), StopLock(t)), Inside), Inside), Notify(t));
      e == s.(keepRunning := false, loop := if s.loop.Asleep? then Woken else s.loop)
  {
    var inside := Next(Next(s, Stop(t)), StopLock(t));
    assert inside == s.(holder := ByCaller(t, StopClear));
  }

  // The loop from its lock on: with a message it publishes that and opens the turn
  // again, with nothing to do it goes to sleep, and after a stop it exits without
  // publishing.
  lemma LoopAlone<T>(s: State<T>)
    requires s.loop.LockMsg? && s.holder == Free
    ensures
      var tested := LoopNext(LoopNext(s));
      var sent := LoopNext(LoopNext(LoopNext(LoopNext(tested))));
      if s.keepRunning && s.turn == NonRealtime then
        LoopNext(LoopNext(sent))
        == s.(outgoing := s.msg, turn := Realtime, log := s.log.(published := s.log.published + [s.msg]))
      else if s.keepRunning then LoopNext(tested) == s.(loop := Asleep)
      else LoopNext(LoopNext(sent)) == s.(outgoing := s.msg, loop := Gone, isRunning := false)
  {
    if WaitDone(s) {
      var unlocked := LoopNext(LoopNext(LoopNext(LoopNext(s))));
      assert unlocked == s.(outgoing := s.msg, loop := TestSend);
    }
  }

  // initialize returns after the loop's first three statements: the publisher runs
  // and the turn is open.
  lemma ConstructAlone<T>(m: T)
    ensures
      var s := Init(m);
      Next(LoopNext(LoopNext(LoopNext(s))), Owner)
      == s.(isRunning := true, turn := Realtime, loop := LockMsg, owner := Live)
    ensures Next(Init(m), Owner) == Init(m)
  {
  }

  // The destructor stops the publisher, polls until the loop has exited, and joins
  // it.
  lemma DestroyAlone<T>(s: State<T>)
    requires s.owner.Live? && s.holder == Free && !Busy(s, OWNER) && s.loop.Asleep? && s.isRunning
    ensures
      var stopped := Next(Next(Next(Next(Next(s, Destroy), StopLock(OWNER)), Inside), Inside), Notify(OWNER));
      var polling := Next(stopped, Owner);
      var locked := LoopNext(polling);
      var sent := LoopNext(LoopNext(LoopNext(LoopNext(locked))));
      var left := LoopNext(LoopNext(sent));
      && polling == s.(owner := AwaitLoop, keepRunning := false, loop := Woken) && Next(polling, Owner) == polling
      && Next(Next(left, Owner), Owner)
         == s.(owner := Dead, keepRunning := false, loop := Gone, isRunning := false, outgoing := s.msg)
  {
    var inside := Next(Next(s, Destroy), StopLock(OWNER));
    assert inside == s.(owner := Stopping, holder := ByCaller(OWNER, StopClear));
    var stopped := Next(Next(Next(inside, Inside), Inside), Notify(OWNER));
    assert stopped == s.(owner := Stopping, keepRunning := false, loop := Woken);
    var polling := Next(stopped, Owner);
    var unlocked := LoopNext(LoopNext(LoopNext(LoopNext(polling))));
    assert unlocked == polling.(outgoing := s.msg, loop := TestSend);
    var left := LoopNext(LoopNext(LoopNext(unlocked)));
    assert left == polling.(outgoing := s.msg, loop := Gone, isRunning := false);
  }

  // What the owner waits for, call by call: it goes on exactly when it is there.
  lemma OwnerWaits<T>(s: State<T>)
    ensures
      Next(s, Owner) != s <==>
        || (s.owner.Polling? && s.turn != LoopNotStarted)
        || (s.owner.Stopping? && !Busy(s, OWNER))
        || (s.owner.AwaitLoop? && !s.isRunning)
        || (s.owner.Join? && s.loop.Gone?)
    ensures Next(s, Destroy) != s <==> s.owner.Live? && !Busy(s, OWNER)
    ensures !s.owner.Live? ==> Next(s, Destroy) == s
  {
  }

  // Nobody notifies who owes no notify, and nobody is let in or enters twice.
  lemma OnlyOwedNotify<T>(s: State<T>, t: Tid)
    ensures t !in s.callers.notifying && t !in s.callers.stopNotifying ==> Next(s, Notify(t)) == s
    ensures t !in s.callers.stopping || s.holder != Free ==> Next(s, StopLock(t)) == s
    ensures Busy(s, t) ==> Next(s, Stop(t)) == s
  {
  }

  // ------------------------------------------------------------ among others

  // Where a try_publish of t that found the turn REALTIME is, with the messages
  // accepted before it.
  ghost predicate Landing<T>(s: State<T>, t: Tid, m: T, accepted: seq<T>) {
    || accepted + [m] <= s.log.accepted
    || (s.log.accepted == accepted && s.holder.ByCaller? && s.holder.tid == t && s.turn == Realtime
        && (s.holder.at == TestTurn(m) || s.holder.at == WriteMsg(m) || s.holder.at == StoreNonRealtime(m)))
  }

  lemma LandingStep<T>(s: State<T>, a: Action<T>, t: Tid, m: T, accepted: seq<T>)
    requires Inv(s) && Landing(s, t, m, accepted)
    ensures Landing(Next(s, a), t, m, accepted)
    ensures !(accepted + [m] <= Next(s, a).log.accepted) && a.Inside? ==>
              SectionRank(Next(s, a).holder) < SectionRank(s.holder)
  {
    AcceptedGrows(s, a);
  }

  lemma AcceptedGrows<T>(s: State<T>, a: Action<T>)
    ensures s.log.accepted <= Next(s, a).log.accepted
  {
  }

  // A try_publish that finds the turn REALTIME gets its message accepted,
  // whatever other threads do: in every run it is on its way, inside the mutex,
  // or the message is the next one accepted.
  lemma TryPublishLands<T(!new)>(s: State<T>, acts: seq<Action<T>>, t: Tid, m: T)
    requires Inv(s) && s.holder == ByCaller(t, TestTurn(m)) && s.turn == Realtime
    ensures Landing(Exec(s, acts), t, m, s.log.accepted)
  {
    var inv := (x: State<T>) => Inv(x) && Landing(x, t, m, s.log.accepted);
    forall x: State<T>, a: Action<T> | inv(x) ensures inv(Next(x, a)) {
      StepKeepsInv(x, a);
      LandingStep(x, a, t, m, s.log.accepted);
    }
    RunKeeps(Next, inv, (a: Action<T>) => true, s, acts);
  }

  // Every accepted message, and every one on its way, is that of a try_publish
  // that won its lock.
  ghost predicate Called<T(!new)>(s: State<T>, acts: seq<Action<T>>) {
    && (forall m :: m in s.log.accepted ==> exists t :: TryPublish(t, m, true) in acts)
    && (s.holder.ByCaller? ==>
          match s.holder.at
          case TestTurn(m) => exists t :: TryPublish(t, m, true) in acts
          case WriteMsg(m) => exists t :: TryPublish(t, m, true) in acts
          case StoreNonRealtime(m) => exists t :: TryPublish(t, m, true) in acts
          case _ => true)
  }

  lemma CalledStep<T(!new)>(s: State<T>, acts: seq<Action<T>>, a: Action<T>)
    requires Called(s, acts)
    ensures Called(Next(s, a), acts + [a])
  {
    assert a in acts + [a];
    assert forall x :: x in acts ==> x in acts + [a];
    assert Called(s, acts + [a]);
  }

  // In every run only messages given to try_publish are accepted and published.
  lemma {:induction false} MessagesWereCalls<T(!new)>(m: T, acts: seq<Action<T>>)
    ensures Called(Exec(Init(m), acts), acts)
    ensures forall x :: x in Exec(Init(m), acts).log.published ==> exists t :: TryPublish(t, x, true) in acts
    decreases |acts|
  {
    if acts != [] {
      var front := acts[..|acts| - 1];
      MessagesWereCalls(m, front);
      CalledStep(Exec(Init(m), front), front, acts[|acts| - 1]);
      assert front + [acts[|acts| - 1]] == acts;
    }
    ExactlyOnce(m, acts);
    var log := Exec(Init(m), acts).log;
    forall x | x in log.published ensures x in log.accepted {
      var i :| 0 <= i < |log.published| && log.published[i] == x;
      assert log.accepted[i] == x;
    }
  }

  // What gets the loop ahead.
  function LoopTurn<T>(s: State<T>): Action<T> {
    if s.loop.Asleep? then SpuriousWake else Loop
  }

  // Statements the loop has left before it opens the turn again.
  function OpenRank(pc: LoopPc): nat {
    match pc
    case StoreTurn => 1
    case TestKeep => 2
    case Entry => 3
    case _ => Rank(pc)
  }

  lemma OpeningStep<T>(s: State<T>)
    requires Inv(s) && s.keepRunning && !s.holder.ByCaller? && s.turn != Realtime
    ensures
      var n := Next(s, LoopTurn(s));
      && !n.holder.ByCaller? && n.keepRunning && n.callers == s.callers
      && (if n.turn == Realtime then n.holder == Free else OpenRank(n.loop) < OpenRank(s.loop))
  {
  }

  // While the publisher is not stopped and nobody is inside, the loop opens the
  // turn, publishing the pending message on the way.
  lemma {:induction false} TurnOpens<T(!new)>(s: State<T>) returns (acts: seq<Action<T>>)
    requires Inv(s) && s.keepRunning && !s.holder.ByCaller? && s.turn != Realtime
    ensures
      var e := Exec(s, acts);
      Inv(e) && e.keepRunning && e.holder == Free && e.callers == s.callers && e.turn == Realtime
      && s.log.published <= e.log.published
    decreases OpenRank(s.loop)
  {
    var n;
    StepKeepsInv(s, LoopTurn(s));
    StepExtendsPublished(s, LoopTurn(s));
    OpeningStep(s);
    acts, n := Perform(Next, s, [], s, LoopTurn(s));
    if n.turn != Realtime {
      var rest := TurnOpens(n);
      RunAppend(Next, s, acts, rest);
      acts := acts + rest;
    }
  }

  lemma SendingStep<T>(s: State<T>)
    requires Inv(s) && s.keepRunning && !s.holder.ByCaller? && Pending(s)
    ensures
      var n := Next(s, LoopTurn(s));
      && !n.holder.ByCaller? && n.keepRunning && n.log.accepted == s.log.accepted
      && (Pending(n) ==> ServeRank(n.loop) < ServeRank(s.loop) && n.log.published == s.log.published)
      && (!Pending(n) ==> n.log.published == s.log.accepted)
  {
  }

  // The pending message is published.
  lemma {:induction false} PendingGoesOut<T(!new)>(s: State<T>) returns (acts: seq<Action<T>>)
    requires Inv(s) && s.keepRunning && !s.holder.ByCaller? && Pending(s)
    ensures Exec(s, acts).log.published == s.log.accepted
    decreases ServeRank(s.loop)
  {
    var n;
    StepKeepsInv(s, LoopTurn(s));
    SendingStep(s);
    acts, n := Perform(Next, s, [], s, LoopTurn(s));
    if Pending(n) {
      var rest := PendingGoesOut(n);
      RunAppend(Next, s, acts, rest);
      acts := acts + rest;
    }
  }

  // try_publish alone, as a run.
  lemma TryPublishRun<T(!new)>(s: State<T>, t: Tid, m: T) returns (acts: seq<Action<T>>)
    requires Inv(s) && s.holder == Free && !Busy(s, t) && s.turn == Realtime
    ensures
      var e := Exec(s, acts);
      && Inv(e) && e.log.accepted == s.log.accepted + [m] && e.log.published == s.log.published
      && e.holder == Free && e.keepRunning == s.keepRunning
  {
    TryPublishAlone(s, t, m);
    var e;
    acts, e := Perform(Next, s, [], s, TryPublish(t, m, true));
    acts, e := Perform(Next, s, acts, e, Inside);
    acts, e := Perform(Next, s, acts, e, Inside);
    acts, e := Perform(Next, s, acts, e, Inside);
    acts, e := Perform(Next, s, acts, e, Inside);
    acts, e := Perform(Next, s, acts, e, Notify(t));
    RunKeepsInv(s, acts);
  }

  // Until it is stopped a publisher can publish any message: from every state
  // with the mutex free, some run accepts m and publishes it next.
  lemma AnyMessageCanGoOut<T(!new)>(s: State<T>, t: Tid, m: T)
    requires Inv(s) && s.keepRunning && s.holder == Free && !Busy(s, t)
    ensures exists acts ::
              var published := Exec(s, acts).log.published;
              |published| > |s.log.published| && published[|published| - 1] == m
  {
    var acts, e := [], s;
    if s.turn != Realtime {
      acts := TurnOpens(s);
      e := Exec(s, acts);
    }
    var call := TryPublishRun(e, t, m);
    var f := Exec(e, call);
    var rest := PendingGoesOut(f);
    RunAppend(Next, e, call, rest);
    RunAppend(Next, s, acts, call + rest);
    assert Exec(s, acts + (call + rest)).log.published == e.log.accepted + [m];
    assert e.log.published <= e.log.accepted;
  }

  // ------------------------------------------------------------------ answers

  function Trues(answers: seq<Answer>): nat {
    if answers == [] then 0
    else
      var last := answers[|answers| - 1];
      Trues(answers[..|answers| - 1]) + if last.call == TryCall && last.ok then 1 else 0
  }

  // A thread is in at most one place.
  ghost predicate OnePlace<T>(s: State<T>) {
    && (s.holder.ByCaller? ==>
          s.holder.tid !in s.callers.notifying && s.holder.tid !in s.callers.stopping
          && s.holder.tid !in s.callers.stopNotifying)
    && s.callers.notifying !! s.callers.stopping && s.callers.notifying !! s.callers.stopNotifying
    && s.callers.stopping !! s.callers.stopNotifying
  }

  // Calls whose message is accepted and that have yet to return.
  function Owed<T>(s: State<T>): nat {
    |s.callers.notifying| + if s.holder.ByCaller? && s.holder.at.UnlockAccepted? then 1 else 0
  }

  ghost predicate Answered<T>(s: State<T>) {
    OnePlace(s) && Trues(s.log.answers) + Owed(s) == |s.log.accepted|
  }

  lemma TruesSnoc(answers: seq<Answer>, a: Answer)
    ensures Trues(answers + [a]) == Trues(answers) + if a.call == TryCall && a.ok then 1 else 0
  {
    assert (answers + [a])[..|answers|] == answers;
  }

  lemma StepKeepsOnePlace<T>(s: State<T>, a: Action<T>)
    requires OnePlace(s)
    ensures OnePlace(Next(s, a))
  {
  }

  // Inside the mutex a call answers false or nothing, and the number of accepted
  // messages and the calls owed a return grow together.
  lemma InsideOwes<T>(s: State<T>)
    requires OnePlace(s) && s.holder.ByCaller?
    ensures
      var n := InsideNext(s);
      |n.log.accepted| - Owed(n) == |s.log.accepted| - Owed(s)
  {
    var t := s.holder.tid;
    assert |s.callers.notifying + {t}| == |s.callers.notifying| + 1;
  }

  lemma InsideSays<T>(s: State<T>)
    requires s.holder.ByCaller?
    ensures
      var n := InsideNext(s);
      || n.log.answers == s.log.answers
      || n.log.answers == s.log.answers + [Answer(s.holder.tid, TryCall, false)]
      || n.log.answers == s.log.answers + [Answer(s.holder.tid, CanCall, s.turn == Realtime)]
  {
  }

  lemma InsideAnswers<T>(s: State<T>)
    requires Answered(s) && s.holder.ByCaller?
    ensures
      var n := InsideNext(s);
      Trues(n.log.answers) + Owed(n) == |n.log.accepted|
  {
    InsideOwes(s);
    InsideSays(s);
    TruesSnoc(s.log.answers, Answer(s.holder.tid, TryCall, false));
    TruesSnoc(s.log.answers, Answer(s.holder.tid, CanCall, s.turn == Realtime));
  }

  lemma NotifyAnswers<T>(s: State<T>, t: Tid)
    requires Answered(s)
    ensures
      var n := NotifyNext(s, t);
      Trues(n.log.answers) + Owed(n) == |n.log.accepted|
  {
    TruesSnoc(s.log.answers, Answer(t, TryCall, true));
    if t in s.callers.notifying { assert |s.callers.notifying - {t}| == |s.callers.notifying| - 1; }
  }

  lemma LoopAnswersNothing<T>(s: State<T>)
    requires LoopInv(s)
    ensures
      var n := LoopNext(s);
      && n.callers == s.callers && n.log.answers == s.log.answers && n.log.accepted == s.log.accepted
      && Owed(n) == Owed(s)
  {
  }

  // The steps that answer false or nothing.
  lemma OthersOwe<T>(s: State<T>, a: Action<T>)
    requires LoopInv(s) && !a.Inside? && !a.Notify?
    ensures
      var n := Next(s, a);
      && Owed(n) == Owed(s) && n.log.accepted == s.log.accepted
      && (|| n.log.answers == s.log.answers
          || (a.TryPublish? && n.log.answers == s.log.answers + [Answer(a.tid, TryCall, false)])
          || (a.CanPublish? && n.log.answers == s.log.answers + [Answer(a.tid, CanCall, false)]))
  {
    if a.Loop? {
      LoopAnswersNothing(s);
    }
  }

  lemma OtherAnswers<T>(s: State<T>, a: Action<T>)
    requires Answered(s) && LoopInv(s) && !a.Inside? && !a.Notify?
    ensures
      var n := Next(s, a);
      Trues(n.log.answers) + Owed(n) == |n.log.accepted|
  {
    OthersOwe(s, a);
    if a.TryPublish? {
      TruesSnoc(s.log.answers, Answer(a.tid, TryCall, false));
    } else if a.CanPublish? {
      TruesSnoc(s.log.answers, Answer(a.tid, CanCall, false));
    }
  }

  lemma AnsweredStep<T>(s: State<T>, a: Action<T>)
    requires Answered(s) && LoopInv(s)
    ensures Answered(Next(s, a))
  {
    StepKeepsOnePlace(s, a);
    if a.Inside? {
      if s.holder.ByCaller? {
        InsideAnswers(s);
      }
    } else if a.Notify? {
      NotifyAnswers(s, a.tid);
    } else {
      OtherAnswers(s, a);
    }
  }

  // In every run try_publish has returned true once for every accepted message,
  // but for the calls that have yet to notify.
  lemma TrueMeansAccepted<T(!new)>(m: T, acts: seq<Action<T>>)
    ensures var s := Exec(Init(m), acts); Trues(s.log.answers) + Owed(s) == |s.log.accepted|
  {
    var inv := (x: State<T>) => Inv(x) && Answered(x);
    forall x: State<T>, a: Action<T> | inv(x) ensures inv(Next(x, a)) {
      StepKeepsInv(x, a);
      AnsweredStep(x, a);
    }
    RunKeeps(Next, inv, (a: Action<T>) => true, Init(m), acts);
  }
}
