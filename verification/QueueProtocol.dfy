// LockFreeQueueBase over a linearizable bounded FIFO: any producers and
// consumers, with bounded_push taken apart into its push, pop and second push.
module QueueProtocol {
  import opened Runs

  type Tid = nat
  type Capacity = c: int | 0 < c witness 1

  // Where a bounded_push call is after its first push failed.
  datatype Stage<T> =
    | Discard(x: T)                // data_queue_.pop(dummy)
    | Retry(x: T, mark: nat)       // return push(data); mark: pushes accepted before the pop

  datatype Result = Result(tid: Tid, ok: bool)

  datatype Log<T> = Log(
    accepted: seq<T>,              // elements pushed, in order
    removed: seq<T>,               // elements consumed or discarded, in order
    results: seq<Result>)          // what bounded_push calls returned, in order

  datatype State<T> = State(
    capacity: Capacity,
    items: seq<T>,                 // data_queue_, oldest first
    stages: map<Tid, Stage<T>>,    // bounded_push calls between two operations
    log: Log<T>)

  datatype Action<T> =
    | Push(tid: Tid, x: T)
    | BoundedPush(tid: Tid, x: T)  // its first push
    | Continue(tid: Tid)           // its next operation
    | Pop(tid: Tid)
    | GetLatest(tid: Tid)

  function Init<T>(capacity: Capacity): State<T> {
    State(capacity, [], map[], Log([], [], []))
  }

  predicate Full<T>(s: State<T>) {
    |s.items| >= s.capacity
  }

  function Enqueue<T>(s: State<T>, x: T): State<T> {
    s.(items := s.items + [x], log := s.log.(accepted := s.log.accepted + [x]))
  }

  // Remove the first n elements.
  function Dequeue<T>(s: State<T>, n: nat): State<T>
    requires n <= |s.items|
  {
    s.(items := s.items[n..], log := s.log.(removed := s.log.removed + s.items[..n]))
  }

  function Answer<T>(s: State<T>, t: Tid, ok: bool): State<T> {
    s.(stages := s.stages - {t}, log := s.log.(results := s.log.results + [Result(t, ok)]))
  }

  function ContinueNext<T>(s: State<T>, t: Tid): State<T>
    requires t in s.stages
  {
    match s.stages[t]
    case Discard(x) =>
      var d := if s.items == [] then s else Dequeue(s, 1);
      d.(stages := s.stages[t := Retry(x, |s.log.accepted|)])
    case Retry(x, _) => if Full(s) then Answer(s, t, false) else Answer(Enqueue(s, x), t, true)
  }

  function Next<T>(s: State<T>, a: Action<T>): State<T> {
    if a.tid in s.stages then
      if a.Continue? then ContinueNext(s, a.tid) else s
    else
      match a
      case Push(_, x) => if Full(s) then s else Enqueue(s, x)
      case BoundedPush(t, x) =>
        if Full(s) then s.(stages := s.stages[t := Discard(x)]) else Answer(Enqueue(s, x), t, true)
      case Continue(_) => s
      case Pop(_) => if |s.items| == 0 then s else Dequeue(s, 1)
      case GetLatest(_) => Dequeue(s, |s.items|)
  }

  function Exec<T>(s: State<T>, acts: seq<Action<T>>): State<T> {
    Run(Next, s, acts)
  }

  // ---------------------------------------------------------------- invariant

  ghost predicate Conserved<T>(s: State<T>) {
    s.log.removed + s.items == s.log.accepted && |s.items| <= s.capacity
  }

  // A call about to retry finds room unless a push was accepted since its pop.
  ghost predicate RoomInv<T>(s: State<T>) {
    forall t :: t in s.stages && s.stages[t].Retry? ==>
      s.stages[t].mark <= |s.log.accepted| && (s.stages[t].mark == |s.log.accepted| ==> !Full(s))
  }

  ghost predicate Inv<T>(s: State<T>) {
    Conserved(s) && RoomInv(s)
  }

  lemma DequeueConserves<T>(s: State<T>, n: nat)
    requires Conserved(s) && n <= |s.items|
    ensures Conserved(Dequeue(s, n))
  {
    assert s.items == s.items[..n] + s.items[n..];
  }

  lemma EnqueueConserves<T>(s: State<T>, x: T)
    requires Conserved(s) && !Full(s)
    ensures Conserved(Enqueue(s, x))
  {
  }

  lemma StepKeepsInv<T>(s: State<T>, a: Action<T>)
    requires Inv(s)
    ensures Inv(Next(s, a))
  {
    if s.items != [] { DequeueConserves(s, 1); }
    DequeueConserves(s, |s.items|);
    if a.tid in s.stages && a.Continue? && !Full(s) { EnqueueConserves(s, s.stages[a.tid].x); }
    if (a.Push? || a.BoundedPush?) && !Full(s) { EnqueueConserves(s, a.x); }
  }

  // ----------------------------------------------------------------- theorems

  // In every run the elements taken out, in the order of their removal, followed
  // by the elements still inside, are the accepted pushes in order.
  lemma Conservation<T(!new)>(capacity: Capacity, acts: seq<Action<T>>)
    ensures
      var s := Exec(Init<T>(capacity), acts);
      s.log.removed + s.items == s.log.accepted && |s.items| <= capacity == s.capacity
  {
    var inv := (x: State<T>) => Inv(x) && x.capacity == capacity;
    forall x: State<T>, a: Action<T> | inv(x) ensures inv(Next(x, a)) { StepKeepsInv(x, a); }
    RunKeeps(Next<T>, inv, (a: Action<T>) => true, Init<T>(capacity), acts);
  }

  predicate ByProducer<T>(a: Action<T>, p: Tid) {
    a.Push? || a.BoundedPush? ==> a.tid == p
  }

  // Only p has a bounded_push under way, it finds room when it retries, and none
  // has returned false.
  ghost predicate SingleProducer<T>(s: State<T>, p: Tid) {
    && Inv(s)
    && (forall t :: t in s.stages ==> t == p)
    && (p in s.stages && s.stages[p].Retry? ==> !Full(s))
    && (forall r :: r in s.log.results ==> r.ok)
  }

  lemma SingleProducerStep<T>(s: State<T>, a: Action<T>, p: Tid)
    requires SingleProducer(s, p) && ByProducer(a, p)
    ensures SingleProducer(Next(s, a), p)
  {
    StepKeepsInv(s, a);
  }

  // With a single producer, whatever any number of consumers do, bounded_push
  // always returns true.
  lemma SingleProducerSucceeds<T(!new)>(capacity: Capacity, acts: seq<Action<T>>, p: Tid)
    requires forall a :: a in acts ==> ByProducer(a, p)
    ensures forall r :: r in Exec(Init<T>(capacity), acts).log.results ==> r.ok
  {
    forall x: State<T>, a: Action<T> | SingleProducer(x, p) && ByProducer(a, p)
      ensures SingleProducer(Next(x, a), p)
    {
      SingleProducerStep(x, a, p);
    }
    RunKeeps(Next<T>, (x: State<T>) => SingleProducer(x, p), (a: Action<T>) => ByProducer(a, p),
             Init<T>(capacity), acts);
  }

  // A bounded_push that returns false does so at its retry, on a queue that is
  // full again because another push was accepted since its pop; nothing of it is
  // left in the queue.
  lemma FailureNeedsAnotherPush<T>(s: State<T>, t: Tid)
    requires Inv(s) && t in s.stages && s.stages[t].Retry?
    ensures
      var n := Next(s, Continue(t));
      && n.log.results == s.log.results + [Result(t, !Full(s))]
      && (Full(s) ==> |s.log.accepted| > s.stages[t].mark && n.items == s.items && n.log.accepted == s.log.accepted)
      && (!Full(s) ==> n.items == s.items + [s.stages[t].x])
  {
  }

  // A queue into which only pushes of x have gone, n of them.
  function Filled<T>(capacity: Capacity, x: T, n: nat): State<T> {
    var xs := seq(n, _ => x);
    State(capacity, xs, map[], Log(xs, [], []))
  }

  lemma {:induction false} FillRun<T(!new)>(capacity: Capacity, p: Tid, x: T, n: nat) returns (acts: seq<Action<T>>)
    requires n <= capacity
    ensures Exec(Init(capacity), acts) == Filled(capacity, x, n)
    ensures forall a :: a in acts ==> a == Push(p, x)
  {
    if n == 0 {
      acts := [];
      assert Filled(capacity, x, 0) == Init(capacity);
    } else {
      var front := FillRun(capacity, p, x, n - 1);
      var all, s := Perform(Next, Init(capacity), front, Filled(capacity, x, n - 1), Push(p, x));
      assert seq(n - 1, _ => x) + [x] == seq(n, _ => x);
      acts := all;
    }
  }

  ghost predicate AllSucceed<T>(s: State<T>) {
    forall r :: r in s.log.results ==> r.ok
  }

  ghost predicate ByProducers<T(!new)>(acts: seq<Action<T>>, producers: set<Tid>) {
    forall a :: a in acts && (a.Push? || a.BoundedPush?) ==> a.tid in producers
  }

  // q makes room in the full queue, and p fills it again.
  lemma OvertakenRun<T(!new)>(capacity: Capacity, p: Tid, q: Tid, x: T) returns (acts: seq<Action<T>>, s: State<T>)
    requires p != q
    ensures Exec(Init(capacity), acts) == s && ByProducers(acts, {p, q})
    ensures Full(s) && q in s.stages && s.stages[q].Retry? && s.log.results == []
  {
    var s0 := Init<T>(capacity);
    acts := FillRun(capacity, p, x, capacity);
    s := Filled(capacity, x, capacity);
    acts, s := Perform(Next, s0, acts, s, BoundedPush(q, x));
    assert s.stages == map[q := Discard(x)];
    acts, s := Perform(Next, s0, acts, s, Continue(q));
    assert s.stages == map[q := Retry(x, capacity)] && |s.items| == capacity - 1 && s.log.results == [];
    acts, s := Perform(Next, s0, acts, s, Push(p, x));
  }

  // With any second producer bounded_push can fail, whatever the capacity.
  lemma TwoProducersCanFail<T(!new)>(capacity: Capacity, p: Tid, q: Tid, x: T)
    requires p != q
    ensures exists acts: seq<Action<T>> ::
              ByProducers(acts, {p, q}) && Exec(Init(capacity), acts).log.results == [Result(q, false)]
  {
    var s0 := Init<T>(capacity);
    var acts, s := OvertakenRun(capacity, p, q, x);
    acts, s := Perform(Next, s0, acts, s, Continue(q));
    assert s.log.results == [Result(q, false)];
    assert ByProducers(acts, {p, q});
  }

  // The exact condition: bounded_push returns true in every run, with any number
  // of consumers, if and only if there is at most one producer.
  lemma SucceedsIffSingleProducer<T(!new)>(capacity: Capacity, producers: set<Tid>, x: T)
    ensures
      |producers| <= 1 <==>
      forall acts: seq<Action<T>> :: ByProducers(acts, producers) ==> AllSucceed(Exec(Init(capacity), acts))
  {
    if |producers| <= 1 {
      var p: Tid := if p :| p in producers then p else 0;
      assert p in producers ==> producers == {p} by {
        assert p in producers ==> |producers - {p}| == 0;
      }
      forall acts: seq<Action<T>> | ByProducers(acts, producers) ensures AllSucceed(Exec(Init(capacity), acts)) {
        SingleProducerSucceeds(capacity, acts, p);
      }
    } else {
      var p :| p in producers;
      assert |producers - {p}| > 0;
      var q :| q in producers - {p};
      TwoProducersCanFail(capacity, p, q, x);
      var acts: seq<Action<T>> :|
        ByProducers(acts, {p, q}) && Exec(Init(capacity), acts).log.results == [Result(q, false)];
      assert Result(q, false) in Exec(Init(capacity), acts).log.results;
    }
  }

  // ------------------------------------------------ whole calls, one thread

  // push appends to a queue with room and leaves a full one alone; pop takes the
  // oldest element, if any; get_latest takes them all, the newest last; and a
  // thread inside bounded_push does nothing but continue it.
  lemma SingleOperations<T>(s: State<T>, t: Tid, x: T)
    ensures t in s.stages ==> Next(s, Push(t, x)) == Next(s, Pop(t)) == Next(s, GetLatest(t)) == s
    ensures t !in s.stages ==>
              var push, pop, latest := Next(s, Push(t, x)), Next(s, Pop(t)), Next(s, GetLatest(t));
              && push.stages == pop.stages == latest.stages == s.stages
              && push.items == (if |s.items| < s.capacity then s.items + [x] else s.items)
              && s.items == (if s.items == [] then [] else [s.items[0]]) + pop.items
              && pop.log.removed == s.log.removed + s.items[..|s.items| - |pop.items|]
              && (pop.items == s.items ==> s.items == [])
              && latest.items == [] && latest.log.removed == s.log.removed + s.items
  {
  }

  // The items after a bounded_push that nobody interrupts.
  function Bounded<T>(capacity: Capacity, items: seq<T>, x: T): seq<T> {
    if |items| < capacity then items + [x] else items[1..] + [x]
  }

  // A bounded_push alone is its operations in a row, and returns true.
  lemma BoundedPushAlone<T>(s: State<T>, t: Tid, x: T)
    requires Inv(s) && t !in s.stages
    ensures
      var n := Next(s, BoundedPush(t, x));
      var e := if Full(s) then Next(Next(n, Continue(t)), Continue(t)) else n;
      e.items == Bounded(s.capacity, s.items, x) && e.log.results == s.log.results + [Result(t, true)]
  {
  }

  // The last `capacity` of a sequence, or all of it.
  function Newest<T>(capacity: Capacity, xs: seq<T>): seq<T> {
    if |xs| <= capacity then xs else xs[|xs| - capacity..]
  }

  function BoundedAll<T>(capacity: Capacity, items: seq<T>, xs: seq<T>): seq<T> {
    if xs == [] then items else Bounded(capacity, BoundedAll(capacity, items, xs[..|xs| - 1]), xs[|xs| - 1])
  }

  // n bounded pushes alone leave the newest min(n, capacity), in order, and
  // before them what was newest already.
  lemma {:induction false} BoundedPushesKeepNewest<T>(capacity: Capacity, items: seq<T>, xs: seq<T>)
    requires |items| <= capacity
    ensures BoundedAll(capacity, items, xs) == Newest(capacity, items + xs)
    decreases |xs|
  {
    if xs == [] {
      assert items + xs == items;
    } else {
      var front := xs[..|xs| - 1];
      BoundedPushesKeepNewest(capacity, items, front);
      assert items + xs == (items + front) + [xs[|xs| - 1]];
    }
  }
}
