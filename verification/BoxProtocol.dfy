// RealtimeThreadSafeBox: any number of boxes and threads; an assignment holds
// the lock of its source while it waits for the lock of its target.
module BoxProtocol {
  import opened Runs

  type Tid = nat
  type BoxId = nat

  // An access to one box.
  datatype Op<T> = Put(v: T) | Get

  // The statement a thread inside a call performs next.
  datatype Pc<T> =
    | LockSource(src: BoxId, dst: BoxId, moving: bool)
    | LockTarget(src: BoxId, dst: BoxId, moving: bool, seen: T)   // seen: the source's value when it was locked
    | Transfer(src: BoxId, dst: BoxId, moving: bool, seen: T)     // value_ = o.value_
    | UnlockTarget(src: BoxId, dst: BoxId, copied: T)
    | UnlockSource(src: BoxId)
    | LockOne(box: BoxId, op: Op<T>)
    | Access(box: BoxId, op: Op<T>)
    | UnlockOne(box: BoxId)

  datatype Copy<T> = Copy(src: BoxId, dst: BoxId, value: T)

  datatype Log<T> = Log(
    copies: seq<Copy<T>>,            // transfers, in order
    gets: seq<(BoxId, T)>)           // results of get and try_get, in order

  datatype State<T> = State(
    values: map<BoxId, T>,           // value_ of every box
    holder: map<BoxId, Tid>,         // who holds lock_ of the locked boxes
    threads: map<Tid, Pc<T>>,        // threads inside a call
    log: Log<T>)

  datatype Action<T> =
    | Assign(tid: Tid, src: BoxId, dst: BoxId, moving: bool)
    | Begin(tid: Tid, box: BoxId, op: Op<T>)                 // set, get
    | Try(tid: Tid, box: BoxId, op: Op<T>, won: bool)        // try_set, try_get; won: what a free lock answers
    | Step(tid: Tid, left: T)                                // left: what a moved-from source holds

  function Init<T>(values: map<BoxId, T>): State<T> {
    State(values, map[], map[], Log([], []))
  }

  // The box whose lock the statement waits for.
  function Wanted<T>(pc: Pc<T>): Option<BoxId> {
    match pc
    case LockSource(src, _, _) => Some(src)
    case LockTarget(_, dst, _, _) => Some(dst)
    case LockOne(b, _) => Some(b)
    case _ => None
  }

  // The boxes whose locks the thread holds.
  predicate Holds<T>(pc: Pc<T>, b: BoxId) {
    match pc
    case LockSource(_, _, _) => false
    case LockTarget(src, _, _, _) => b == src
    case Transfer(src, dst, _, _) => b == src || b == dst
    case UnlockTarget(src, dst, _) => b == src || b == dst
    case UnlockSource(src) => b == src
    case LockOne(_, _) => false
    case Access(x, _) => b == x
    case UnlockOne(x) => b == x
  }

  // The boxes the statement concerns exist, and an assignment has two of them.
  predicate Sound<T>(boxes: set<BoxId>, pc: Pc<T>) {
    match pc
    case LockSource(src, dst, _) => src in boxes && dst in boxes && src != dst
    case LockTarget(src, dst, _, _) => src in boxes && dst in boxes && src != dst
    case Transfer(src, dst, _, _) => src in boxes && dst in boxes && src != dst
    case UnlockTarget(src, dst, _) => src in boxes && dst in boxes && src != dst
    case UnlockSource(src) => src in boxes
    case LockOne(b, _) => b in boxes
    case Access(b, _) => b in boxes
    case UnlockOne(b) => b in boxes
  }

  predicate Blocked<T>(s: State<T>, pc: Pc<T>) {
    Wanted(pc).Some? && Wanted(pc).value in s.holder
  }

  // The thread's next program counter.
  function NextPc<T>(values: map<BoxId, T>, pc: Pc<T>): Option<Pc<T>>
    requires Sound(values.Keys, pc)
  {
    match pc
    case LockSource(src, dst, m) => Some(LockTarget(src, dst, m, values[src]))
    case LockTarget(src, dst, m, v) => Some(Transfer(src, dst, m, v))
    case Transfer(src, dst, m, _) => Some(UnlockTarget(src, dst, values[src]))
    case UnlockTarget(src, dst, _) => Some(UnlockSource(src))
    case UnlockSource(_) => None
    case LockOne(b, op) => Some(Access(b, op))
    case Access(b, _) => Some(UnlockOne(b))
    case UnlockOne(_) => None
  }

  // The locks after the statement.
  function NextHolder<T>(holder: map<BoxId, Tid>, t: Tid, pc: Pc<T>): map<BoxId, Tid> {
    match pc
    case UnlockTarget(_, dst, _) => holder - {dst}
    case UnlockSource(src) => holder - {src}
    case UnlockOne(b) => holder - {b}
    case _ => if Wanted(pc).Some? then holder[Wanted(pc).value := t] else holder
  }

  // The boxes after the statement.
  function NextValues<T>(values: map<BoxId, T>, pc: Pc<T>, left: T): map<BoxId, T>
    requires Sound(values.Keys, pc)
  {
    match pc
    case Transfer(src, dst, m, _) => if m then values[dst := values[src]][src := left] else values[dst := values[src]]
    case Access(b, Put(v)) => values[b := v]
    case _ => values
  }

  function NextLog<T>(values: map<BoxId, T>, log: Log<T>, pc: Pc<T>): Log<T>
    requires Sound(values.Keys, pc)
  {
    match pc
    case Transfer(src, dst, _, _) => log.(copies := log.copies + [Copy(src, dst, values[src])])
    case Access(b, Get) => log.(gets := log.gets + [(b, values[b])])
    case _ => log
  }

  function Goto<T>(threads: map<Tid, Pc<T>>, t: Tid, pc: Option<Pc<T>>): map<Tid, Pc<T>> {
    match pc
    case None => threads - {t}
    case Some(p) => threads[t := p]
  }

  function StepNext<T>(s: State<T>, t: Tid, pc: Pc<T>, left: T): State<T>
    requires Sound(s.values.Keys, pc)
  {
    State(NextValues(s.values, pc, left), NextHolder(s.holder, t, pc), Goto(s.threads, t, NextPc(s.values, pc)),
          NextLog(s.values, s.log, pc))
  }

  predicate Ready<T>(s: State<T>, t: Tid) {
    t in s.threads && Sound(s.values.Keys, s.threads[t]) && !Blocked(s, s.threads[t])
  }

  function Next<T>(s: State<T>, a: Action<T>): State<T> {
    match a
    case Assign(t, src, dst, m) =>
      if t !in s.threads && Sound(s.values.Keys, Pc<T>.LockSource(src, dst, m))
      then s.(threads := s.threads[t := LockSource(src, dst, m)]) else s
    case Begin(t, b, op) =>
      if t !in s.threads && b in s.values then s.(threads := s.threads[t := LockOne(b, op)]) else s
    case Try(t, b, op, won) =>
      if t !in s.threads && b in s.values && won && b !in s.holder
      then s.(threads := s.threads[t := Access(b, op)], holder := s.holder[b := t]) else s
    case Step(t, left) => if Ready(s, t) then StepNext(s, t, s.threads[t], left) else s
  }

  function Exec<T>(s: State<T>, acts: seq<Action<T>>): State<T> {
    Run(Next, s, acts)
  }

  // ---------------------------------------------------------------- invariant

  // Every lock has its holder inside the matching call, and conversely.
  ghost predicate LockInv<T>(threads: map<Tid, Pc<T>>, holder: map<BoxId, Tid>) {
    && (forall b :: b in holder ==> holder[b] in threads && Holds(threads[holder[b]], b))
    && (forall t, b :: t in threads && Holds(threads[t], b) ==> b in holder && holder[b] == t)
  }

  // What the thread has seen or written under its locks is still there.
  ghost predicate Faithful<T>(values: map<BoxId, T>, pc: Pc<T>)
    requires Sound(values.Keys, pc)
  {
    match pc
    case LockTarget(src, _, _, v) => values[src] == v
    case Transfer(src, _, _, v) => values[src] == v
    case UnlockTarget(_, dst, v) => values[dst] == v
    case _ => true
  }

  ghost predicate ValueInv<T>(threads: map<Tid, Pc<T>>, values: map<BoxId, T>) {
    forall t :: t in threads ==> Sound(values.Keys, threads[t]) && Faithful(values, threads[t])
  }

  ghost predicate Inv<T>(s: State<T>) {
    LockInv(s.threads, s.holder) && ValueInv(s.threads, s.values)
  }

  // A thread that moves leaves the locks of the others alone.
  lemma MoveKeepsLocks<T>(threads: map<Tid, Pc<T>>, holder: map<BoxId, Tid>, t: Tid, pc: Option<Pc<T>>,
                          after: map<BoxId, Tid>)
    requires LockInv(threads, holder)
    requires forall b :: b in after && after[b] == t <==> pc.Some? && Holds(pc.value, b)
    requires forall b :: b in after && after[b] != t <==> b in holder && holder[b] != t
    requires forall b :: b in after && after[b] != t ==> after[b] == holder[b]
    ensures LockInv(Goto(threads, t, pc), after)
  {
  }

  // A thread that writes only what it holds disturbs nobody's view.
  lemma WriteKeepsValues<T>(threads: map<Tid, Pc<T>>, holder: map<BoxId, Tid>, t: Tid, pc: Option<Pc<T>>,
                            values: map<BoxId, T>, after: map<BoxId, T>)
    requires LockInv(threads, holder) && ValueInv(threads, values)
    requires after.Keys == values.Keys
    requires forall b :: b in values && after[b] != values[b] ==> b in holder && holder[b] == t
    requires pc.Some? ==> Sound(after.Keys, pc.value) && Faithful(after, pc.value)
    ensures ValueInv(Goto(threads, t, pc), after)
  {
  }

  lemma ThreadKeepsInv<T>(s: State<T>, t: Tid, left: T)
    requires Inv(s) && Ready(s, t)
    ensures var n := StepNext(s, t, s.threads[t], left); Inv(n) && n.values.Keys == s.values.Keys
  {
    var pc := s.threads[t];
    MoveKeepsLocks(s.threads, s.holder, t, NextPc(s.values, pc), NextHolder(s.holder, t, pc));
    WriteKeepsValues(s.threads, s.holder, t, NextPc(s.values, pc), s.values, NextValues(s.values, pc, left));
  }

  lemma StepKeepsInv<T>(s: State<T>, a: Action<T>)
    requires Inv(s)
    ensures Inv(Next(s, a)) && Next(s, a).values.Keys == s.values.Keys
  {
    match a
    case Step(t, left) => if Ready(s, t) { ThreadKeepsInv(s, t, left); }
    case Assign(t, src, dst, m) =>
      if t !in s.threads {
        MoveKeepsLocks(s.threads, s.holder, t, Some(LockSource(src, dst, m)), s.holder);
      }
    case Begin(t, b, op) =>
      if t !in s.threads {
        MoveKeepsLocks(s.threads, s.holder, t, Some(LockOne(b, op)), s.holder);
      }
    case Try(t, b, op, won) =>
      if t !in s.threads && b !in s.holder {
        MoveKeepsLocks(s.threads, s.holder, t, Some(Access(b, op)), s.holder[b := t]);
      }
  }

  // ----------------------------------------------------------------- theorems

  lemma RunKeepsInv<T(!new)>(s: State<T>, acts: seq<Action<T>>)
    requires Inv(s)
    ensures Inv(Exec(s, acts)) && Exec(s, acts).values.Keys == s.values.Keys
  {
    var inv := (x: State<T>) => Inv(x) && x.values.Keys == s.values.Keys;
    forall x: State<T>, a: Action<T> | inv(x) ensures inv(Next(x, a)) { StepKeepsInv(x, a); }
    RunKeeps(Next, inv, (a: Action<T>) => true, s, acts);
  }

  // A transfer happens with both locks held, and what it stores in the target is
  // what the source has held ever since its lock was taken.
  lemma TransferIsFaithful<T(!new)>(values: map<BoxId, T>, acts: seq<Action<T>>, t: Tid, left: T)
    ensures
      var s := Exec(Init(values), acts);
      t in s.threads && s.threads[t].Transfer? ==>
        var pc := s.threads[t];
        var n := Next(s, Step(t, left));
        && pc.src in s.holder && s.holder[pc.src] == t && pc.dst in s.holder && s.holder[pc.dst] == t
        && pc.src in s.values && s.values[pc.src] == pc.seen
        && n.values == s.values[pc.dst := pc.seen][pc.src := if pc.moving then left else pc.seen]
        && n.log.copies == s.log.copies + [Copy(pc.src, pc.dst, pc.seen)]
  {
    RunKeepsInv(Init(values), acts);
    var s := Exec(Init(values), acts);
    if t in s.threads && s.threads[t].Transfer? {
      assert Holds(s.threads[t], s.threads[t].src) && Holds(s.threads[t], s.threads[t].dst);
    }
  }

  // While a thread holds a box, nobody else changes it.
  lemma HeldBoxIsStable<T>(s: State<T>, a: Action<T>, t: Tid, b: BoxId)
    requires Inv(s) && b in s.values && b in s.holder && s.holder[b] == t
    requires !(a.Step? && a.tid == t)
    ensures
      var n := Next(s, a);
      b in n.values && n.values[b] == s.values[b] && b in n.holder && n.holder[b] == t
  {
  }

  // ------------------------------------------------------------------ deadlock

  // The call locks two boxes: both exist, and it is no self-assignment.
  predicate Nests(boxes: set<BoxId>, src: BoxId, dst: BoxId) {
    src in boxes && dst in boxes && src != dst
  }

  // Every assignment under way goes strictly down the ranking.
  ghost predicate Descending<T>(threads: map<Tid, Pc<T>>, rank: BoxId -> nat) {
    forall t :: t in threads ==> Descends(threads[t], rank)
  }

  predicate Descends<T>(pc: Pc<T>, rank: BoxId -> nat) {
    pc.LockSource? || pc.LockTarget? ==> rank(pc.src) > rank(pc.dst)
  }

  predicate GoesDown<T>(boxes: set<BoxId>, a: Action<T>, rank: BoxId -> nat) {
    a.Assign? && Nests(boxes, a.src, a.dst) ==> rank(a.src) > rank(a.dst)
  }

  lemma DescendingStep<T>(s: State<T>, a: Action<T>, rank: BoxId -> nat)
    requires Inv(s) && Descending(s.threads, rank) && GoesDown(s.values.Keys, a, rank)
    ensures Descending(Next(s, a).threads, rank)
  {
  }

  // A blocked thread waits for a holder that can move or waits lower down.
  lemma {:induction false} SomeoneIsReady<T>(s: State<T>, t: Tid, rank: BoxId -> nat)
    requires Inv(s) && Descending(s.threads, rank) && t in s.threads
    ensures exists u :: u in s.threads && Ready(s, u)
    decreases if Wanted(s.threads[t]).Some? then rank(Wanted(s.threads[t]).value) else 0
  {
    if !Ready(s, t) {
      var u := s.holder[Wanted(s.threads[t]).value];
      if !Ready(s, u) {
        SomeoneIsReady(s, u, rank);
      }
    }
  }

  lemma DescendingRun<T(!new)>(values: map<BoxId, T>, acts: seq<Action<T>>, rank: BoxId -> nat)
    requires forall a :: a in acts ==> GoesDown(values.Keys, a, rank)
    ensures var s := Exec(Init(values), acts); Inv(s) && Descending(s.threads, rank)
  {
    var inv := (x: State<T>) => Inv(x) && x.values.Keys == values.Keys && Descending(x.threads, rank);
    var down := (a: Action<T>) => GoesDown(values.Keys, a, rank);
    forall x: State<T>, a: Action<T> | inv(x) && down(a) ensures inv(Next(x, a)) {
      StepKeepsInv(x, a);
      DescendingStep(x, a, rank);
    }
    RunKeeps(Next, inv, down, Init(values), acts);
  }

  // If every assignment goes strictly down some ranking of the boxes, no run
  // reaches a deadlock: as long as a thread is inside a call, some thread can
  // perform its next statement, and does change the state by it.
  lemma NoDeadlock<T(!new)>(values: map<BoxId, T>, acts: seq<Action<T>>, rank: BoxId -> nat, left: T)
    requires forall a :: a in acts ==> GoesDown(values.Keys, a, rank)
    ensures
      var s := Exec(Init(values), acts);
      s.threads != map[] ==> exists t :: t in s.threads && Next(s, Step(t, left)) != s
  {
    DescendingRun(values, acts, rank);
    var s := Exec(Init(values), acts);
    if t :| t in s.threads {
      SomeoneIsReady(s, t, rank);
      var u :| u in s.threads && Ready(s, u);
      ReadyMoves(s, u, left);
    }
  }

  // How many statements a call has left.
  function Left<T>(pc: Pc<T>): nat {
    match pc
    case LockSource(_, _, _) => 5
    case LockTarget(_, _, _, _) => 4
    case Transfer(_, _, _, _) => 3
    case UnlockTarget(_, _, _) => 2
    case UnlockSource(_) => 1
    case LockOne(_, _) => 3
    case Access(_, _) => 2
    case UnlockOne(_) => 1
  }

  // A ready thread's statement brings its call nearer the end.
  lemma ReadyMoves<T>(s: State<T>, t: Tid, left: T)
    requires Ready(s, t)
    ensures
      var n := Next(s, Step(t, left));
      n != s && (t in n.threads ==> Left(n.threads[t]) < Left(s.threads[t]))
  {
    var pc, next := s.threads[t], NextPc(s.values, s.threads[t]);
    assert next.Some? ==> Left(next.value) < Left(pc);
    assert t in Goto(s.threads, t, next) ==> next.Some? && Goto(s.threads, t, next)[t] == next.value;
  }

  // Some threads are inside calls and all of those wait for a lock.
  ghost predicate Deadlocked<T>(s: State<T>) {
    s.threads != map[] && forall t {:trigger Blocked(s, s.threads[t])} :: t in s.threads ==> Blocked(s, s.threads[t])
  }

  // Each of the threads waits for a lock that one of them holds.
  ghost predicate Entangled<T>(s: State<T>, group: set<Tid>) {
    forall t {:trigger Tied(s, t, group)} :: t in group ==> Tied(s, t, group)
  }

  predicate Tied<T>(s: State<T>, t: Tid, group: set<Tid>) {
    t in s.threads && Blocked(s, s.threads[t]) && s.holder[Wanted(s.threads[t]).value] in group
  }

  // A blocked thread stays where it is.
  lemma BlockedStays<T>(s: State<T>, a: Action<T>, t: Tid)
    requires t in s.threads && Blocked(s, s.threads[t])
    ensures t in Next(s, a).threads && Next(s, a).threads[t] == s.threads[t]
    ensures a.Step? && a.tid == t ==> Next(s, a) == s
  {
  }

  lemma EntangledStep<T>(s: State<T>, a: Action<T>, group: set<Tid>)
    requires Inv(s) && Entangled(s, group)
    ensures Entangled(Next(s, a), group)
    ensures Unmoved(s, Next(s, a), group)
  {
    var n := Next(s, a);
    forall t | t in group
      ensures t in s.threads && Tied(n, t, group) && n.threads[t] == s.threads[t]
    {
      assert Tied(s, t, group);
      BlockedStays(s, a, t);
      var b := Wanted(s.threads[t]).value;
      var u := s.holder[b];
      assert Tied(s, u, group);
      BlockedStays(s, a, u);
      if !(a.Step? && a.tid == u) {
        HeldBoxIsStable(s, a, u, b);
      }
    }
  }

  // The threads of the group are where they were.
  ghost predicate Unmoved<T>(s: State<T>, n: State<T>, group: set<Tid>) {
    forall t :: t in group ==> t in s.threads && t in n.threads && n.threads[t] == s.threads[t]
  }

  // A ranking leaves no room for such a group: following the holders of the
  // wanted locks goes down for ever.
  lemma {:induction false} RankedIsUntangled<T>(s: State<T>, group: set<Tid>, t: Tid, rank: BoxId -> nat)
    requires Inv(s) && Descending(s.threads, rank) && Entangled(s, group) && t in s.threads && t in group
    ensures false
    decreases if Wanted(s.threads[t]).Some? then rank(Wanted(s.threads[t]).value) else 0
  {
    assert Tied(s, t, group);
    var u := s.holder[Wanted(s.threads[t]).value];
    assert Tied(s, u, group);
    RankedIsUntangled(s, group, u, rank);
  }

  // Some threads wait for each other, whatever the others do.
  ghost predicate CircularWait<T>(s: State<T>) {
    exists group :: group != {} && Entangled(s, group)
  }

  // A deadlock of all is one of some.
  lemma DeadlockIsCircular<T>(s: State<T>)
    requires Inv(s) && Deadlocked(s)
    ensures Entangled(s, s.threads.Keys) && CircularWait(s)
  {
    forall t | t in s.threads ensures Tied(s, t, s.threads.Keys) {
      assert Blocked(s, s.threads[t]);
    }
    var t :| t in s.threads;
    assert t in s.threads.Keys;
  }

  // They are blocked for good, whatever any thread does.
  lemma EntangledForever<T(!new)>(s: State<T>, acts: seq<Action<T>>, group: set<Tid>)
    requires Inv(s) && Entangled(s, group)
    ensures Entangled(Exec(s, acts), group) && Unmoved(s, Exec(s, acts), group)
  {
    var inv := (x: State<T>) =>
      Inv(x) && Entangled(x, group) && Unmoved(s, x, group);
    forall x: State<T>, act: Action<T> | inv(x) ensures inv(Next(x, act)) {
      StepKeepsInv(x, act);
      EntangledStep(x, act, group);
    }
    assert Unmoved(s, s, group) by {
      forall t | t in group ensures t in s.threads { assert Tied(s, t, group); }
    }
    RunKeeps(Next, inv, (act: Action<T>) => true, s, acts);
  }

  // No call under way at a deadlock ever ends.
  lemma DeadlockIsForever<T(!new)>(s: State<T>, acts: seq<Action<T>>)
    requires Inv(s) && Deadlocked(s)
    ensures Unmoved(s, Exec(s, acts), s.threads.Keys)
  {
    DeadlockIsCircular(s);
    EntangledForever(s, acts, s.threads.Keys);
  }

  // t and u hold one box each and wait for each other's.
  ghost predicate Crossed<T>(s: State<T>, t: Tid, u: Tid, a: BoxId, b: BoxId) {
    && t in s.threads && s.threads[t].LockTarget? && s.threads[t].src == a && s.threads[t].dst == b
    && u in s.threads && s.threads[u].LockTarget? && s.threads[u].src == b && s.threads[u].dst == a
  }

  // Two opposite assignments that have each locked their source are blocked for
  // good, whatever any thread does.
  lemma CrossedForever<T(!new)>(s: State<T>, acts: seq<Action<T>>, t: Tid, u: Tid, a: BoxId, b: BoxId)
    requires Inv(s) && Crossed(s, t, u, a, b)
    ensures Crossed(Exec(s, acts), t, u, a, b)
  {
    assert Holds(s.threads[t], a) && Holds(s.threads[u], b);
    assert Tied(s, t, {t, u}) && Tied(s, u, {t, u});
    EntangledForever(s, acts, {t, u});
  }

  // A choice of one target for each of some boxes, among the same boxes.
  ghost predicate Ring(boxes: set<BoxId>, to: map<BoxId, BoxId>) {
    to != map[] && to.Keys <= boxes && forall b {:trigger Hops(boxes, to, b)} :: b in to ==> Hops(boxes, to, b)
  }

  predicate Hops(boxes: set<BoxId>, to: map<BoxId, BoxId>, b: BoxId) {
    b in to && to[b] in to && Nests(boxes, b, to[b])
  }

  function Pairs(to: map<BoxId, BoxId>): set<(BoxId, BoxId)> {
    set b | b in to :: (b, to[b])
  }

  // Every assignment of the run is one of the pairs.
  ghost predicate Within<T(!new)>(acts: seq<Action<T>>, pairs: set<(BoxId, BoxId)>) {
    forall a :: a in acts && a.Assign? ==> (a.src, a.dst) in pairs
  }

  // Thread b holds box b, for each b of `from`, and is about to lock to[b].
  function Waiting<T>(values: map<BoxId, T>, to: map<BoxId, BoxId>, from: set<BoxId>): State<T>
    requires from <= to.Keys <= values.Keys
  {
    State(values, map b | b in from :: b, map b | b in from :: LockTarget(b, to[b], false, values[b]), Log([], []))
  }

  // Thread b starts the assignment of box b and locks it.
  lemma RingGrows<T>(values: map<BoxId, T>, to: map<BoxId, BoxId>, from: set<BoxId>, b: BoxId)
    requires Ring(values.Keys, to) && from <= to.Keys && b in to && b !in from
    ensures
      var s := Next(Waiting(values, to, from), Assign(b, b, to[b], false));
      Next(s, Step(b, values[b])) == Waiting(values, to, from + {b})
  {
    assert Hops(values.Keys, to, b);
    var w := Waiting(values, to, from);
    var m := Next(w, Assign(b, b, to[b], false));
    assert m == w.(threads := w.threads[b := LockSource(b, to[b], false)]);
    var e := Next(m, Step(b, values[b]));
    assert e == StepNext(m, b, LockSource(b, to[b], false), values[b]);
    assert e.holder == Waiting(values, to, from + {b}).holder;
    assert e.threads == Waiting(values, to, from + {b}).threads;
  }

  lemma {:induction false} RingStarts<T(!new)>(values: map<BoxId, T>, to: map<BoxId, BoxId>, from: set<BoxId>)
    returns (acts: seq<Action<T>>)
    requires Ring(values.Keys, to) && from <= to.Keys
    ensures Exec(Init(values), acts) == Waiting(values, to, from)
    ensures Within(acts, Pairs(to))
    decreases from
  {
    if from == {} {
      acts := [];
    } else {
      var b :| b in from;
      var s := Waiting(values, to, from - {b});
      var front := RingStarts(values, to, from - {b});
      RingGrows(values, to, from - {b}, b);
      assert from - {b} + {b} == from;
      var middle, m := Perform(Next, Init(values), front, s, Assign(b, b, to[b], false));
      var all, e := Perform(Next, Init(values), middle, m, Step(b, values[b]));
      assert (b, to[b]) in Pairs(to);
      acts := all;
    }
  }

  // Assignments round a ring can block each other, every thread inside a call.
  lemma RingCanBlock<T(!new)>(values: map<BoxId, T>, to: map<BoxId, BoxId>) returns (acts: seq<Action<T>>)
    requires Ring(values.Keys, to)
    ensures Within(acts, Pairs(to)) && Deadlocked(Exec(Init(values), acts))
    ensures Exec(Init(values), acts) == Waiting(values, to, to.Keys)
  {
    acts := RingStarts(values, to, to.Keys);
    var s := Waiting(values, to, to.Keys);
    var b :| b in to;
    assert b in s.threads;
    forall t | t in s.threads ensures Blocked(s, s.threads[t]) {
      assert Hops(values.Keys, to, t);
    }
  }

  // The pairs (bs[i], bs[i + 1]), and from the last box back to the first.
  function Cycle(bs: seq<BoxId>): set<(BoxId, BoxId)> {
    set i | 0 <= i < |bs| :: (bs[i], After(bs, i))
  }

  function After(bs: seq<BoxId>, i: nat): BoxId
    requires i < |bs|
  {
    if i + 1 < |bs| then bs[i + 1] else bs[0]
  }

  // Two or more boxes, each assigned to the next and the last to the first, can
  // block each other, however long the cycle.
  lemma CycleCanBlock<T(!new)>(values: map<BoxId, T>, bs: seq<BoxId>)
    requires |bs| >= 2 && forall i :: 0 <= i < |bs| ==> bs[i] in values
    requires forall i, j :: 0 <= i < j < |bs| ==> bs[i] != bs[j]
    ensures exists acts: seq<Action<T>> :: Within(acts, Cycle(bs)) && Deadlocked(Exec(Init(values), acts))
  {
    var to := map b | b in bs :: After(bs, IndexOf(bs, b));
    assert bs[0] in to;
    forall b | b in to ensures Hops(values.Keys, to, b) && (b, to[b]) in Cycle(bs) {
      var i := IndexOf(bs, b);
      assert b == bs[i] && to[b] == After(bs, i);
    }
    var acts := RingCanBlock(values, to);
  }

  function IndexOf(bs: seq<BoxId>, b: BoxId): (i: nat)
    requires b in bs
    ensures i < |bs| && bs[i] == b
  {
    if bs[0] == b then 0 else 1 + IndexOf(bs[1..], b)
  }

  // In particular two opposite assignments between any two boxes.
  lemma OppositeAssignmentsCanBlock<T(!new)>(values: map<BoxId, T>, a: BoxId, b: BoxId)
    requires Nests(values.Keys, a, b)
    ensures exists acts: seq<Action<T>> ::
              Within(acts, {(a, b), (b, a)}) && Crossed(Exec(Init(values), acts), a, b, a, b)
  {
    var to := map[a := b, b := a];
    assert a in to && b in to && Hops(values.Keys, to, a) && Hops(values.Keys, to, b);
    var acts := RingCanBlock(values, to);
    assert Pairs(to) == {(a, b), (b, a)};
  }

  ghost predicate Ranks(boxes: set<BoxId>, pairs: set<(BoxId, BoxId)>, rank: BoxId -> nat) {
    forall p :: p in pairs && Nests(boxes, p.0, p.1) ==> rank(p.0) > rank(p.1)
  }

  // Of a set of boxes, either some have a ring among them or all can be ranked:
  // a box without a target in the set goes to the bottom.
  lemma {:induction false} RingOrRanks(boxes: set<BoxId>, pairs: set<(BoxId, BoxId)>, of: set<BoxId>)
    requires of <= boxes
    ensures
      || (exists to :: Ring(boxes, to) && Pairs(to) <= pairs)
      || (exists rank :: Ranks(of, pairs, rank))
    decreases of
  {
    if of == {} {
      assert Ranks(of, pairs, (b: BoxId) => 0);
    } else if forall b {:trigger HasTarget(pairs, of, b)} :: b in of ==> HasTarget(pairs, of, b) {
      ChooseTargets(boxes, pairs, of);
    } else {
      var low :| low in of && !HasTarget(pairs, of, low);
      RingOrRanks(boxes, pairs, of - {low});
      if rank :| Ranks(of - {low}, pairs, rank) {
        var above := (b: BoxId) => if b == low then 0 else rank(b) + 1;
        forall p | p in pairs && Nests(of, p.0, p.1) ensures above(p.0) > above(p.1) {
          assert (p.0, p.1) in pairs;
          assert p.1 != low ==> Nests(of - {low}, p.0, p.1);
        }
        assert Ranks(of, pairs, above);
      }
    }
  }

  ghost predicate HasTarget(pairs: set<(BoxId, BoxId)>, of: set<BoxId>, b: BoxId) {
    exists c :: (b, c) in pairs && Nests(of, b, c)
  }

  ghost function Target(pairs: set<(BoxId, BoxId)>, of: set<BoxId>, b: BoxId): (c: BoxId)
    requires HasTarget(pairs, of, b)
    ensures (b, c) in pairs && Nests(of, b, c)
  {
    var c :| (b, c) in pairs && Nests(of, b, c);
    c
  }

  lemma ChooseTargets(boxes: set<BoxId>, pairs: set<(BoxId, BoxId)>, of: set<BoxId>)
    requires of != {} && of <= boxes
    requires forall b {:trigger HasTarget(pairs, of, b)} :: b in of ==> HasTarget(pairs, of, b)
    ensures exists to :: Ring(boxes, to) && Pairs(to) <= pairs
  {
    var b :| b in of;
    var to := map c | c in of && HasTarget(pairs, of, c) :: Target(pairs, of, c);
    assert HasTarget(pairs, of, b) && b in to;
    forall c | c in to ensures Hops(boxes, to, c) && (c, to[c]) in pairs {
      assert to[c] == Target(pairs, of, c) && HasTarget(pairs, of, to[c]);
    }
    assert Ring(boxes, to) && Pairs(to) <= pairs;
  }

  ghost predicate CanBeRanked(boxes: set<BoxId>, pairs: set<(BoxId, BoxId)>) {
    exists rank :: Ranks(boxes, pairs, rank)
  }

  // The exact condition: in runs whose assignments are among the given pairs,
  // with any number of threads and any puts and gets, no threads ever wait for
  // each other if and only if the pairs can be ranked, source above target; and
  // they can unless there is a ring among them.
  lemma DeadlockFreeIffRanked<T(!new)>(values: map<BoxId, T>, pairs: set<(BoxId, BoxId)>)
    ensures
      CanBeRanked(values.Keys, pairs) <==>
      (forall acts: seq<Action<T>> :: Within(acts, pairs) ==> !CircularWait(Exec(Init(values), acts)))
    ensures
      CanBeRanked(values.Keys, pairs) <==>
      (forall acts: seq<Action<T>> :: Within(acts, pairs) ==> !Deadlocked(Exec(Init(values), acts)))
    ensures
      CanBeRanked(values.Keys, pairs) <==>
      !(exists to :: Ring(values.Keys, to) && Pairs(to) <= pairs)
  {
    RankedIffNoRing(values.Keys, pairs);
    if rank :| Ranks(values.Keys, pairs, rank) {
      forall acts: seq<Action<T>> | Within(acts, pairs)
        ensures !CircularWait(Exec(Init(values), acts)) && !Deadlocked(Exec(Init(values), acts))
      {
        RankedRun(values, acts, pairs, rank);
      }
    } else {
      var to :| Ring(values.Keys, to) && Pairs(to) <= pairs;
      var acts := RingCanBlock(values, to);
      assert Within(acts, pairs);
      RunKeepsInv(Init(values), acts);
      DeadlockIsCircular(Exec(Init(values), acts));
    }
  }

  // They can be ranked unless there is a ring among them.
  lemma RankedIffNoRing(boxes: set<BoxId>, pairs: set<(BoxId, BoxId)>)
    ensures CanBeRanked(boxes, pairs) <==> !(exists to :: Ring(boxes, to) && Pairs(to) <= pairs)
  {
    RingOrRanks(boxes, pairs, boxes);
    if rank, to :| Ranks(boxes, pairs, rank) && Ring(boxes, to) && Pairs(to) <= pairs {
      var b :| b in to;
      RingHasNoRanks(boxes, pairs, rank, to, b);
    }
  }

  lemma {:induction false} RingHasNoRanks(boxes: set<BoxId>, pairs: set<(BoxId, BoxId)>, rank: BoxId -> nat,
                                          to: map<BoxId, BoxId>, b: BoxId)
    requires Ranks(boxes, pairs, rank) && Ring(boxes, to) && Pairs(to) <= pairs && b in to
    ensures false
    decreases rank(b)
  {
    assert Hops(boxes, to, b) && (b, to[b]) in Pairs(to);
    RingHasNoRanks(boxes, pairs, rank, to, to[b]);
  }

  lemma RankedRun<T(!new)>(values: map<BoxId, T>, acts: seq<Action<T>>, pairs: set<(BoxId, BoxId)>, rank: BoxId -> nat)
    requires Ranks(values.Keys, pairs, rank) && Within(acts, pairs)
    ensures !CircularWait(Exec(Init(values), acts)) && !Deadlocked(Exec(Init(values), acts))
  {
    forall a | a in acts ensures GoesDown(values.Keys, a, rank) {
      assert a.Assign? ==> (a.src, a.dst) in pairs;
    }
    DescendingRun(values, acts, rank);
    var s := Exec(Init(values), acts);
    if group :| group != {} && Entangled(s, group) {
      var t :| t in group;
      assert Tied(s, t, group);
      RankedIsUntangled(s, group, t, rank);
    }
    if Deadlocked(s) {
      DeadlockIsCircular(s);
    }
  }
}
