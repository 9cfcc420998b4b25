// The publisher as an object.  Its fields are those of the class in
// realtime_publisher.hpp, the program counters of its threads and the two
// histories; each method performs one atomic statement in place.
module RealtimePublisher {
  import opened Runs
  import opened PublisherProtocol

  class Publisher<T> {
    var turn: Turn
    var keepRunning: bool
    var isRunning: bool
    var msg: T
    var outgoing: T
    var holder: Holder<T>
    var loop: LoopPc
    var owner: OwnerPc
    var callers: Callers
    var log: Log<T>

    ghost function View(): State<T>
      reads this
    {
      State(turn, keepRunning, isRunning, msg, outgoing, holder, loop, owner, callers, log)
    }

    ghost predicate Valid()
      reads this
    {
      Inv(View())
    }

    // initialize, up to the spawn of the publishing thread.
    constructor (m: T)
      ensures Valid() && View() == Init(m)
    {
      msg, outgoing := m, m;
      isRunning := false;
      keepRunning := true;
      turn := LoopNotStarted;
      holder, loop, owner := Free, Entry, Polling;
      callers, log := Callers({}, {}, {}), Log([], [], []);
    }

    predicate Taken(t: Tid)
      reads this
    {
      || t in callers.notifying || t in callers.stopping || t in callers.stopNotifying
      || (holder.ByCaller? && holder.tid == t)
    }

    // One statement of publishingLoop.
    method LoopStatement()
      modifies this
      ensures View() == Next(old(View()), Action.Loop)
    {
      match loop {
        case Entry => isRunning := true; loop := TestKeep;
        case TestKeep => loop := if keepRunning then StoreTurn else Leave;
        case StoreTurn => turn := Realtime; loop := LockMsg;
        case LockMsg => if holder.Free? { holder := ByLoop; loop := TestWait; }
        case TestWait => loop := if turn == NonRealtime || !keepRunning then CopyMsg else Doze;
        case Doze => holder := Free; loop := Asleep;
        case Asleep =>
        case Woken => if holder.Free? { holder := ByLoop; loop := TestWait; }
        case CopyMsg => outgoing := msg; loop := UnlockMsg;
        case UnlockMsg => holder := Free; loop := TestSend;
        case TestSend => loop := if keepRunning then Send else TestKeep;
        case Send => log := log.(published := log.published + [outgoing]); loop := TestKeep;
        case Leave => isRunning := false; loop := Gone;
        case Gone =>
      }
    }

    // The call of t returns.
    method Answers(t: Tid, call: Call, ok: bool)
      modifies this`log
      ensures log == Returns(old(log), t, call, ok)
    {
      log := log.(answers := log.answers + [Answer(t, call, ok)]);
    }

    // One statement of the caller inside msg_mutex_.
    method InsideStatement()
      modifies this
      ensures View() == Next(old(View()), Inside)
    {
      if holder.ByCaller? {
        var t := holder.tid;
        match holder.at {
          case TestTurn(m) => holder := ByCaller(t, if turn == Realtime then WriteMsg(m) else UnlockRejected);
          case WriteMsg(m) => msg := m; holder := ByCaller(t, StoreNonRealtime(m));
          case StoreNonRealtime(m) =>
            turn := NonRealtime;
            log := log.(accepted := log.accepted + [m]);
            holder := ByCaller(t, UnlockAccepted);
          case UnlockAccepted => holder := Free; callers := callers.(notifying := callers.notifying + {t});
          case UnlockRejected => holder := Free; Answers(t, TryCall, false);
          case Probe => holder := Free; Answers(t, CanCall, turn == Realtime);
          case StopClear => keepRunning := false; holder := ByCaller(t, StopUnlock);
          case StopUnlock => holder := Free; callers := callers.(stopNotifying := callers.stopNotifying + {t});
        }
      }
    }

    // try_publish up to its try_lock; a lost try_lock returns false at once.
    method BeginTryPublish(t: Tid, m: T, won: bool)
      modifies this
      ensures View() == Next(old(View()), Action.TryPublish(t, m, won))
    {
      if !Taken(t) {
        if won && holder.Free? {
          holder := ByCaller(t, TestTurn(m));
        } else {
          Answers(t, TryCall, false);
        }
      }
    }

    method BeginCanPublish(t: Tid, won: bool)
      modifies this
      ensures View() == Next(old(View()), Action<T>.CanPublish(t, won))
    {
      if !Taken(t) {
        if won && holder.Free? {
          holder := ByCaller(t, Probe);
        } else {
          Answers(t, CanCall, false);
        }
      }
    }

    method BeginStop(t: Tid)
      modifies this
      ensures View() == Next(old(View()), Action<T>.Stop(t))
    {
      if !Taken(t) {
        callers := callers.(stopping := callers.stopping + {t});
      }
    }

    method EnterStop(t: Tid)
      modifies this
      ensures View() == Next(old(View()), Action<T>.StopLock(t))
    {
      if t in callers.stopping && holder.Free? {
        callers := callers.(stopping := callers.stopping - {t});
        holder := ByCaller(t, StopClear);
      }
    }

    method WakeLoop()
      modifies this`loop
      ensures loop == Wake(old(loop))
    {
      if loop == Asleep {
        loop := Woken;
      }
    }

    method SpuriouslyWake()
      modifies this
      ensures View() == Next(old(View()), Action<T>.SpuriousWake)
    {
      WakeLoop();
    }

    // updated_cond_.notify_one() of a try_publish or stop caller.
    method NotifyOne(t: Tid)
      modifies this
      ensures View() == Next(old(View()), Action<T>.Notify(t))
    {
      if t in callers.notifying {
        callers := callers.(notifying := callers.notifying - {t});
        WakeLoop();
        Answers(t, TryCall, true);
      } else if t in callers.stopNotifying {
        callers := callers.(stopNotifying := callers.stopNotifying - {t});
        WakeLoop();
      }
    }

    // The polling of initialize and of the destructor, and the join.
    method OwnerStatement()
      modifies this
      ensures View() == Next(old(View()), Action<T>.Owner)
    {
      match owner {
        case Polling => if turn != LoopNotStarted { owner := Live; }
        case Live =>
        case Stopping => if !Taken(OWNER) { owner := AwaitLoop; }
        case AwaitLoop => if !isRunning { owner := Join; }
        case Join => if loop == Gone { owner := Dead; }
        case Dead =>
      }
    }

    method BeginDestroy()
      modifies this
      ensures View() == Next(old(View()), Action<T>.Destroy)
    {
      if owner == Live && !Taken(OWNER) {
        owner := Stopping;
        callers := callers.(stopping := callers.stopping + {OWNER});
      }
    }

    method Perform(a: Action<T>)
      requires Valid()
      modifies this
      ensures Valid() && View() == Next(old(View()), a)
    {
      StepKeepsInv(View(), a);
      match a {
        case Loop => LoopStatement();
        case SpuriousWake => SpuriouslyWake();
        case TryPublish(t, m, won) => BeginTryPublish(t, m, won);
        case CanPublish(t, won) => BeginCanPublish(t, won);
        case Stop(t) => BeginStop(t);
        case StopLock(t) => EnterStop(t);
        case Inside => InsideStatement();
        case Notify(t) => NotifyOne(t);
        case Owner => OwnerStatement();
        case Destroy => BeginDestroy();
      }
    }

    // Any schedule performed on the object is a run of the protocol.
    method Schedule(acts: seq<Action<T>>)
      requires Valid()
      modifies this
      ensures Valid() && View() == Exec(old(View()), acts)
    {
      for i := 0 to |acts|
        invariant Valid() && View() == Exec(old(View()), acts[..i])
      {
        Perform(acts[i]);
        assert acts[..i + 1][..i] == acts[..i];
      }
      assert acts[..|acts|] == acts;
    }
  }
}
