// What set, get, try_set, try_get and assignments do to the values of the boxes:
// each box is a register, in every run.
module BoxRegister {
  import opened Runs
  import opened BoxProtocol

  // ------------------------------------------------------------ whole calls

  // set(v) that nobody interrupts stores v in its box and nothing else; get logs
  // what the box holds.
  lemma AccessAlone<T>(s: State<T>, t: Tid, b: BoxId, op: Op<T>, left: T)
    requires t !in s.threads && b in s.values && b !in s.holder
    ensures
      var locked := Next(Next(s, Begin(t, b, op)), Step(t, left));
      var e := Next(Next(locked, Step(t, left)), Step(t, left));
      e == match op
           case Put(v) => s.(values := s.values[b := v])
           case Get => s.(log := s.log.(gets := s.log.gets + [(b, s.values[b])]))
  {
    var waiting := Next(s, Begin(t, b, op));
    assert waiting == s.(threads := s.threads[t := LockOne(b, op)]);
    var locked := Next(waiting, Step(t, left));
    assert locked == s.(threads := s.threads[t := Access(b, op)], holder := s.holder[b := t]);
    UnlockAlone(s, locked, t, b, op, left);
  }

  // From the lock on.
  lemma UnlockAlone<T>(s: State<T>, locked: State<T>, t: Tid, b: BoxId, op: Op<T>, left: T)
    requires t !in s.threads && b in s.values && b !in s.holder
    requires locked == s.(threads := s.threads[t := Access(b, op)], holder := s.holder[b := t])
    ensures
      Next(Next(locked, Step(t, left)), Step(t, left))
      == match op
         case Put(v) => s.(values := s.values[b := v])
         case Get => s.(log := s.log.(gets := s.log.gets + [(b, s.values[b])]))
  {
    var done := Next(locked, Step(t, left));
    assert done.threads == s.threads[t := UnlockOne(b)];
    var e := Next(done, Step(t, left));
    assert e.threads == s.threads;
    assert e.holder == s.holder;
  }

  // try_set and try_get do the same when they lock the mutex, and nothing at all
  // when they do not.
  lemma TryAlone<T>(s: State<T>, t: Tid, b: BoxId, op: Op<T>, won: bool, left: T)
    requires t !in s.threads && b in s.values
    ensures
      var n := Next(s, Try(t, b, op, won));
      if won && b !in s.holder then
        Next(Next(n, Step(t, left)), Step(t, left))
        == match op
           case Put(v) => s.(values := s.values[b := v])
           case Get => s.(log := s.log.(gets := s.log.gets + [(b, s.values[b])]))
      else n == s
  {
    if won && b !in s.holder {
      UnlockAlone(s, Next(s, Try(t, b, op, won)), t, b, op, left);
    }
  }

  // An assignment that nobody interrupts gives the target the source's value; a
  // moved-from source is left with an arbitrary one.
  lemma AssignAlone<T>(s: State<T>, t: Tid, src: BoxId, dst: BoxId, moving: bool, left: T)
    requires t !in s.threads && Nests(s.values.Keys, src, dst) && src !in s.holder && dst !in s.holder
    ensures
      var a := Step(t, left);
      var both := Next(Next(Next(s, Assign(t, src, dst, moving)), a), a);
      var e := Next(Next(Next(both, a), a), a);
      && e.threads == s.threads && e.holder == s.holder
      && e.values == s.values[dst := s.values[src]][src := if moving then left else s.values[src]]
      && e.log == s.log.(copies := s.log.copies + [Copy(src, dst, s.values[src])])
  {
    var a := Step(t, left);
    var v := s.values[src];
    var first := Next(Next(s, Assign(t, src, dst, moving)), a);
    assert first == s.(threads := s.threads[t := LockTarget(src, dst, moving, v)], holder := s.holder[src := t]);
    var both := Next(first, a);
    assert both == s.(threads := s.threads[t := Transfer(src, dst, moving, v)], holder := s.holder[src := t][dst := t]);
    TransferAlone(s, both, t, src, dst, moving, left);
  }

  // The two unlocks.
  lemma UnlocksAlone<T>(s: State<T>, m: State<T>, t: Tid, src: BoxId, dst: BoxId, v: T, left: T)
    requires t !in s.threads && Nests(m.values.Keys, src, dst) && src !in s.holder && dst !in s.holder
    requires m.threads == s.threads[t := UnlockTarget(src, dst, v)] && m.holder == s.holder[src := t][dst := t]
    ensures
      var a := Step(t, left);
      Next(Next(m, a), a) == m.(threads := s.threads, holder := s.holder)
  {
    var n := Next(m, Step(t, left));
    assert n == m.(threads := s.threads[t := UnlockSource(src)], holder := s.holder[src := t]);
    var e := Next(n, Step(t, left));
    assert e.threads == s.threads && e.holder == s.holder;
  }

  lemma TransferAlone<T>(s: State<T>, both: State<T>, t: Tid, src: BoxId, dst: BoxId, moving: bool, left: T)
    requires t !in s.threads && Nests(s.values.Keys, src, dst) && src !in s.holder && dst !in s.holder
    requires both == s.(threads := s.threads[t := Transfer(src, dst, moving, s.values[src])],
                        holder := s.holder[src := t][dst := t])
    ensures
      var a := Step(t, left);
      var e := Next(Next(Next(both, a), a), a);
      && e.threads == s.threads && e.holder == s.holder
      && e.values == s.values[dst := s.values[src]][src := if moving then left else s.values[src]]
      && e.log == s.log.(copies := s.log.copies + [Copy(src, dst, s.values[src])])
  {
    var a := Step(t, left);
    var m1 := Next(both, a);
    assert m1.threads == s.threads[t := UnlockTarget(src, dst, s.values[src])] && m1.holder == both.holder;
    UnlocksAlone(s, m1, t, src, dst, s.values[src], left);
  }

  // ------------------------------------------------------------ among others

  // A thread's own statements are the only ones that move it.
  lemma {:induction false} OthersLeaveThread<T>(s: State<T>, acts: seq<Action<T>>, t: Tid, b: BoxId)
    requires Inv(s) && t in s.threads && b in s.values && b in s.holder && s.holder[b] == t
    requires forall a :: a in acts ==> !(a.Step? && a.tid == t)
    ensures
      var e := Exec(s, acts);
      && Inv(e) && t in e.threads && e.threads[t] == s.threads[t] && b in e.holder && e.holder[b] == t
      && b in e.values && e.values[b] == s.values[b]
    decreases |acts|
  {
    if acts != [] {
      var front := acts[..|acts| - 1];
      OthersLeaveThread(s, front, t, b);
      StepKeepsInv(Exec(s, front), acts[|acts| - 1]);
      HeldBoxIsStable(Exec(s, front), acts[|acts| - 1], t, b);
    }
  }

  // A put changes its box and no other when it stores, and the box holds its
  // argument from then to its unlock, whatever other threads do before and after.
  lemma PutLands<T>(s: State<T>, before: seq<Action<T>>, after: seq<Action<T>>, t: Tid, b: BoxId, v: T, left: T)
    requires Inv(s) && t in s.threads && s.threads[t] == Access(b, Put(v))
    requires forall a :: a in before + after ==> !(a.Step? && a.tid == t)
    ensures
      var m := Exec(s, before);
      var n := Next(m, Step(t, left));
      var e := Exec(n, after);
      && b in m.values && n.values == m.values[b := v]
      && t in e.threads && e.threads[t] == UnlockOne(b) && b in e.values && e.values[b] == v
  {
    assert Holds(s.threads[t], b);
    assert forall a :: a in before ==> a in before + after;
    assert forall a :: a in after ==> a in before + after;
    OthersLeaveThread(s, before, t, b);
    var m := Exec(s, before);
    assert !Blocked(m, m.threads[t]);
    StepKeepsInv(m, Step(t, left));
    OthersLeaveThread(Next(m, Step(t, left)), after, t, b);
  }

  // --------------------------------------------------------------- every run

  // The call that thread t is inside after the actions, if any: the last one it
  // made, as it made it.
  function CallOf<T>(values: map<BoxId, T>, acts: seq<Action<T>>, t: Tid): Option<Action<T>>
    decreases |acts|
  {
    if acts == [] then None
    else
      var front, a := acts[..|acts| - 1], acts[|acts| - 1];
      var s := Exec(Init(values), front);
      if a.tid == t && !a.Step? && t !in s.threads && t in Next(s, a).threads then Some(a)
      else CallOf(values, front, t)
  }

  // The thread is where such a call may be.
  ghost predicate Serves<T>(pc: Pc<T>, call: Action<T>) {
    match call
    case Assign(_, src, dst, moving) =>
      (match pc
       case LockSource(a, b, m) => a == src && b == dst && m == moving
       case LockTarget(a, b, m, _) => a == src && b == dst && m == moving
       case Transfer(a, b, m, _) => a == src && b == dst && m == moving
       case UnlockTarget(a, b, _) => a == src && b == dst
       case UnlockSource(a) => a == src
       case _ => false)
    case Begin(_, b, op) => pc == LockOne(b, op) || pc == Access(b, op) || pc == UnlockOne(b)
    case Try(_, b, op, _) => pc == Access(b, op) || pc == UnlockOne(b)
    case Step(_, _) => false
  }

  // Every thread inside a call serves the call it made.
  lemma {:induction false} CallsAreServed<T(!new)>(values: map<BoxId, T>, acts: seq<Action<T>>, t: Tid)
    ensures
      var s := Exec(Init(values), acts);
      t in s.threads ==> CallOf(values, acts, t).Some? && Serves(s.threads[t], CallOf(values, acts, t).value)
    decreases |acts|
  {
    if acts != [] {
      CallsAreServed(values, acts[..|acts| - 1], t);
    }
  }

  // The effect on box b of a statement of a thread inside `call`, on boxes that
  // held `was` in b and `from` in the source of an assignment.
  function Effect<T>(pc: Pc<T>, call: Action<T>, b: BoxId, was: T, from: T, left: T): T {
    match call
    case Begin(_, box, Put(v)) => if pc.Access? && box == b then v else was
    case Try(_, box, Put(v), _) => if pc.Access? && box == b then v else was
    case Assign(_, src, dst, moving) =>
      if !pc.Transfer? then was
      else if b == src then (if moving then left else was)
      else if b == dst then from
      else was
    case _ => was
  }

  function Source<T>(call: Action<T>, b: BoxId): BoxId {
    if call.Assign? then call.src else b
  }

  // What box b holds after the actions: the argument of the last put to b, or
  // what the last assignment into or out of b left there, or its initial value.
  function Content<T>(values: map<BoxId, T>, acts: seq<Action<T>>, b: BoxId): Option<T>
    decreases |acts|
  {
    if acts == [] then (if b in values then Some(values[b]) else None)
    else
      var front, a := acts[..|acts| - 1], acts[|acts| - 1];
      var s := Exec(Init(values), front);
      if a.Step? && Ready(s, a.tid) && CallOf(values, front, a.tid).Some? && Content(values, front, b).Some? then
        var call := CallOf(values, front, a.tid).value;
        var from := Content(values, front, Source(call, b));
        if from.None? then None
        else Some(Effect(s.threads[a.tid], call, b, Content(values, front, b).value, from.value, a.left))
      else Content(values, front, b)
  }

  // The results of the gets performed by the actions: each the content of its box.
  function Gotten<T>(values: map<BoxId, T>, acts: seq<Action<T>>): seq<(BoxId, Option<T>)>
    decreases |acts|
  {
    if acts == [] then []
    else
      var front, a := acts[..|acts| - 1], acts[|acts| - 1];
      var s := Exec(Init(values), front);
      if !a.Step? || !Ready(s, a.tid) || !s.threads[a.tid].Access? || CallOf(values, front, a.tid).None?
      then Gotten(values, front)
      else
        match CallOf(values, front, a.tid).value
        case Begin(_, b, Get) => Gotten(values, front) + [(b, Content(values, front, b))]
        case Try(_, b, Get, _) => Gotten(values, front) + [(b, Content(values, front, b))]
        case _ => Gotten(values, front)
  }

  // Every box is a register: in every run it holds what the calls made so far
  // put or transferred there last.
  lemma {:induction false} BoxesAreRegisters<T(!new)>(values: map<BoxId, T>, acts: seq<Action<T>>, b: BoxId)
    ensures
      var s := Exec(Init(values), acts);
      s.values.Keys == values.Keys && (if b in values then Content(values, acts, b) == Some(s.values[b])
                                       else Content(values, acts, b) == None)
    decreases |acts|
  {
    RunKeepsInv(Init(values), acts);
    if acts != [] {
      var front, a := acts[..|acts| - 1], acts[|acts| - 1];
      RunKeepsInv(Init(values), front);
      BoxesAreRegisters(values, front, b);
      if a.Step? && Ready(Exec(Init(values), front), a.tid) {
        CallsAreServed(values, front, a.tid);
        BoxesAreRegisters(values, front, Source(CallOf(values, front, a.tid).value, b));
      }
    }
  }

  // And every get and try_get returns what its box holds, once each, in order.
  lemma {:induction false} GetsReadRegisters<T(!new)>(values: map<BoxId, T>, acts: seq<Action<T>>)
    ensures
      var gets := Exec(Init(values), acts).log.gets;
      && |gets| == |Gotten(values, acts)|
      && forall i :: 0 <= i < |gets| ==> Gotten(values, acts)[i] == (gets[i].0, Some(gets[i].1))
    decreases |acts|
  {
    if acts != [] {
      var front, a := acts[..|acts| - 1], acts[|acts| - 1];
      GetsReadRegisters(values, front);
      RunKeepsInv(Init(values), front);
      var s := Exec(Init(values), front);
      if a.Step? && Ready(s, a.tid) {
        CallsAreServed(values, front, a.tid);
        if s.threads[a.tid].Access? {
          BoxesAreRegisters(values, front, s.threads[a.tid].box);
        }
      }
    }
  }
}
