// The queue as an object over an atomic bounded FIFO.
module LockFreeQueue {
  import opened Runs
  import opened QueueProtocol

  class Queue<T> {
    const capacity: Capacity
    var items: seq<T>
    var stages: map<Tid, Stage<T>>
    var log: Log<T>

    ghost function View(): State<T>
      reads this
    {
      State(capacity, items, stages, log)
    }

    ghost predicate Valid()
      reads this
    {
      Inv(View())
    }

    constructor (capacity: Capacity)
      ensures Valid() && View() == Init(capacity) && this.capacity == capacity
    {
      this.capacity := capacity;
      items, stages, log := [], map[], Log([], [], []);
    }

    // push: the container's bounded push; false when it is full.
    method Push(x: T) returns (ok: bool)
      modifies this`items, this`log
      ensures ok <==> !Full(old(View()))
      ensures View() == if ok then Enqueue(old(View()), x) else old(View())
    {
      ok := |items| < capacity;
      if ok {
        items := items + [x];
        log := log.(accepted := log.accepted + [x]);
      }
    }

    // pop: None when it is empty.
    method Pop() returns (oldest: Option<T>)
      modifies this`items, this`log
      ensures old(|items|) == 0 ==> oldest == None && View() == old(View())
      ensures old(|items|) > 0 ==> oldest == Some(old(items)[0]) && View() == Dequeue(old(View()), 1)
    {
      oldest := None;
      if |items| > 0 {
        oldest := Some(items[0]);
        log := log.(removed := log.removed + items[..1]);
        items := items[1..];
      }
    }

    // get_latest: consume everything, keep the last.
    method GetLatest() returns (latest: Option<T>)
      modifies this`items, this`log
      ensures View() == Dequeue(old(View()), |old(items)|) && items == []
      ensures latest == if old(|items|) == 0 then None else Some(old(items)[|old(items)| - 1])
    {
      latest := None;
      for i := 0 to |items|
        invariant latest == if i == 0 then None else Some(items[i - 1])
      {
        latest := Some(items[i]);
      }
      log := log.(removed := log.removed + items);
      assert items[..|items|] == items;
      items := [];
    }

    // bounded_push without interference.
    method BoundedPush(x: T) returns (ok: bool)
      requires Valid()
      modifies this`items, this`log
      ensures Valid() && ok && items == Bounded(capacity, old(items), x) && stages == old(stages)
    {
      ghost var before := View();
      if Full(before) { DequeueConserves(before, 1); EnqueueConserves(Dequeue(before, 1), x); }
      else { EnqueueConserves(before, x); }
      ok := Push(x);
      if !ok {
        var _ := Pop();
        ok := Push(x);
        assert Conserved(View());
      }
      assert forall t :: t in stages && stages[t].Retry? ==> stages[t].mark < |log.accepted|;
    }

    // The bounded pushes of a single-threaded user leave the newest elements.
    method PushAll(xs: seq<T>)
      requires Valid()
      modifies this`items, this`log
      ensures Valid() && items == QueueProtocol.Newest(capacity, old(items) + xs)
    {
      BoundedPushesKeepNewest(capacity, items, xs);
      for i := 0 to |xs|
        invariant Valid() && items == BoundedAll(capacity, old(items), xs[..i])
      {
        var _ := BoundedPush(xs[i]);
        assert xs[..i + 1][..i] == xs[..i];
      }
      assert xs[..|xs|] == xs;
    }

    // One operation of a thread, among those of any others.
    method Perform(a: Action<T>)
      requires Valid()
      modifies this
      ensures Valid() && View() == Next(old(View()), a)
    {
      StepKeepsInv(View(), a);
      if a.tid in stages {
        if a.Continue? {
          ContinueBoundedPush(a.tid);
        }
      } else {
        match a {
          case Push(_, x) => var _ := Push(x);
          case BoundedPush(t, x) =>
            var ok := Push(x);
            if ok {
              Return(t, true);
            } else {
              stages := stages[t := Discard(x)];
            }
          case Continue(_) =>
          case Pop(_) => var _ := Pop();
          case GetLatest(_) => var _ := GetLatest();
        }
      }
    }

    method Return(t: Tid, ok: bool)
      modifies this`stages, this`log
      ensures View() == Answer(old(View()), t, ok)
    {
      stages := stages - {t};
      log := log.(results := log.results + [Result(t, ok)]);
    }

    // The next operation of a bounded_push whose first push failed.
    method ContinueBoundedPush(t: Tid)
      requires t in stages
      modifies this
      ensures View() == ContinueNext(old(View()), t)
    {
      match stages[t] {
        case Discard(x) =>
          stages := stages[t := Retry(x, |log.accepted|)];
          var _ := Pop();
        case Retry(x, _) =>
          var ok := Push(x);
          Return(t, ok);
      }
    }

    // Any schedule performed on the object is a run of the protocol.
    method Schedule(acts: seq<Action<T>>)
      requires Valid()
      modifies this
      ensures Valid() && View() == Exec(old(View()), acts)
    {
      for i := 0 to |acts|
        invariant Valid() && View() == Exec(old(View()), acts[..i])
      {
        Perform(acts[i]);
        assert acts[..i + 1][..i] == acts[..i];
      }
      assert acts[..|acts|] == acts;
    }
  }
}
