// The boxes as heap objects, with value_ and lock_ changed in place.
module RealtimeThreadSafeBox {
  import opened Runs
  import opened BoxProtocol

  class Box<T> {
    var value: T
    var holder: Option<Tid>

    constructor (v: T)
      ensures value == v && holder == None
    {
      value := v;
      holder := None;
    }
  }

  // A family of boxes and the threads that use them.
  class Boxes<T> {
    const boxes: map<BoxId, Box<T>>
    var threads: map<Tid, Pc<T>>
    var log: Log<T>

    ghost predicate Separate()
    {
      forall a, b :: a in boxes && b in boxes && a != b ==> boxes[a] != boxes[b]
    }

    ghost function Values(): map<BoxId, T>
      reads boxes.Values
    {
      map b | b in boxes :: boxes[b].value
    }

    ghost function Holders(): map<BoxId, Tid>
      reads boxes.Values
    {
      map b | b in boxes && boxes[b].holder.Some? :: boxes[b].holder.value
    }

    ghost function View(): State<T>
      reads this, boxes.Values
    {
      State(Values(), Holders(), threads, log)
    }

    ghost predicate Valid()
      reads this, boxes.Values
    {
      Separate() && Inv(View())
    }

    constructor (boxes: map<BoxId, Box<T>>)
      requires forall a, b :: a in boxes && b in boxes && a != b ==> boxes[a] != boxes[b]
      requires forall b :: b in boxes ==> boxes[b].holder.None?
      ensures this.boxes == boxes && Valid()
      ensures View() == Init(map b | b in boxes :: boxes[b].value)
    {
      this.boxes := boxes;
      threads, log := map[], Log([], []);
      new;
      assert View().holder == map[];
    }

    // Assignment up to the lock of its source; nothing on self-assignment.
    method BeginAssign(t: Tid, src: BoxId, dst: BoxId, moving: bool)
      modifies this
      ensures View() == Next(old(View()), Assign(t, src, dst, moving))
    {
      if t !in threads && src in boxes && dst in boxes && src != dst {
        threads := threads[t := LockSource(src, dst, moving)];
      }
    }

    // set and get up to the lock.
    method BeginAccess(t: Tid, b: BoxId, op: Op<T>)
      modifies this
      ensures View() == Next(old(View()), Begin(t, b, op))
    {
      if t !in threads && b in boxes {
        threads := threads[t := LockOne(b, op)];
      }
    }

    // try_set and try_get; false when the mutex could not be locked.
    method TryAccess(t: Tid, b: BoxId, op: Op<T>, won: bool) returns (ok: bool)
      requires Separate()
      modifies this, boxes.Values
      ensures View() == Next(old(View()), Try(t, b, op, won))
      ensures ok <==> t !in old(threads) && b in boxes && won && old(boxes[b].holder).None?
    {
      ok := t !in threads && b in boxes && won && boxes[b].holder.None?;
      if ok {
        Acquire(t, b);
        threads := threads[t := Access(b, op)];
      }
    }

    method Acquire(t: Tid, b: BoxId)
      requires Separate() && b in boxes
      modifies boxes[b]
      ensures Holders() == old(Holders())[b := t] && Values() == old(Values())
    {
      boxes[b].holder := Some(t);
    }

    method Release(b: BoxId)
      requires Separate() && b in boxes
      modifies boxes[b]
      ensures Holders() == old(Holders()) - {b} && Values() == old(Values())
    {
      boxes[b].holder := None;
    }

    method Store(b: BoxId, v: T)
      requires Separate() && b in boxes
      modifies boxes[b]
      ensures Values() == old(Values())[b := v] && Holders() == old(Holders())
    {
      boxes[b].value := v;
    }

    // lock(), when the lock is free, on the way to `next`.
    method LockOnTheWay(t: Tid, b: BoxId, next: Pc<T>)
      requires Separate() && b in boxes
      modifies this`threads, boxes[b]
      ensures
        if b in old(Holders()) then threads == old(threads) && Holders() == old(Holders())
        else threads == old(threads)[t := next] && Holders() == old(Holders())[b := t]
      ensures Values() == old(Values())
    {
      if boxes[b].holder.None? {
        Acquire(t, b);
        threads := threads[t := next];
      }
    }

    // value_ = o.value_, or the move of it.
    method TransferValue(src: BoxId, dst: BoxId, moving: bool, left: T) returns (v: T)
      requires Separate() && src in boxes && dst in boxes && src != dst
      modifies this`log, boxes[src], boxes[dst]
      ensures v == old(Values())[src] && Holders() == old(Holders())
      ensures Values() == if moving then old(Values())[dst := v][src := left] else old(Values())[dst := v]
      ensures log == old(log).(copies := old(log).copies + [Copy(src, dst, v)])
    {
      v := boxes[src].value;
      Store(dst, v);
      if moving {
        Store(src, left);
      }
      log := log.(copies := log.copies + [Copy(src, dst, v)]);
    }

    // The two locks of an assignment.
    method LockStatement(t: Tid, left: T)
      requires Separate() && t in threads && Sound(boxes.Keys, threads[t])
      requires threads[t].LockSource? || threads[t].LockTarget?
      modifies this, boxes.Values
      ensures View() == Next(old(View()), Step(t, left))
    {
      match threads[t] {
        case LockSource(src, dst, m) => LockOnTheWay(t, src, LockTarget(src, dst, m, boxes[src].value));
        case LockTarget(src, dst, m, v) => LockOnTheWay(t, dst, Transfer(src, dst, m, v));
      }
    }

    // And its transfer.
    method TransferStatement(t: Tid, left: T)
      requires Separate() && t in threads && Sound(boxes.Keys, threads[t]) && threads[t].Transfer?
      modifies this, boxes.Values
      ensures View() == Next(old(View()), Step(t, left))
    {
      var pc := threads[t];
      var v := TransferValue(pc.src, pc.dst, pc.moving, left);
      threads := threads[t := UnlockTarget(pc.src, pc.dst, v)];
    }

    // The statements of set, get, try_set and try_get up to the access.
    method AccessStatement(t: Tid, left: T)
      requires Separate() && t in threads && Sound(boxes.Keys, threads[t])
      requires threads[t].LockOne? || threads[t].Access?
      modifies this, boxes.Values
      ensures View() == Next(old(View()), Step(t, left))
    {
      match threads[t] {
        case LockOne(b, op) => LockOnTheWay(t, b, Access(b, op));
        case Access(b, op) =>
          match op {
            case Put(v) => Store(b, v);
            case Get => log := log.(gets := log.gets + [(b, boxes[b].value)]);
          }
          threads := threads[t := UnlockOne(b)];
      }
    }

    // The unlocks at the end of either.
    method UnlockStatement(t: Tid, left: T)
      requires Separate() && t in threads && Sound(boxes.Keys, threads[t])
      requires threads[t].UnlockTarget? || threads[t].UnlockSource? || threads[t].UnlockOne?
      modifies this, boxes.Values
      ensures View() == Next(old(View()), Step(t, left))
    {
      match threads[t] {
        case UnlockTarget(src, dst, _) => Release(dst); threads := threads[t := UnlockSource(src)];
        case UnlockSource(src) => Release(src); threads := threads - {t};
        case UnlockOne(b) => Release(b); threads := threads - {t};
      }
    }

    // The next statement of t inside its call; nothing while it is blocked.
    method Statement(t: Tid, left: T)
      requires Valid()
      modifies this, boxes.Values
      ensures View() == Next(old(View()), Step(t, left))
    {
      if t in threads {
        assert View().values.Keys == boxes.Keys;
        if threads[t].LockOne? || threads[t].Access? {
          AccessStatement(t, left);
        } else if threads[t].LockSource? || threads[t].LockTarget? {
          LockStatement(t, left);
        } else if threads[t].Transfer? {
          TransferStatement(t, left);
        } else {
          UnlockStatement(t, left);
        }
      }
    }

    method Perform(a: Action<T>)
      requires Valid()
      modifies this, boxes.Values
      ensures Valid() && View() == Next(old(View()), a)
    {
      StepKeepsInv(View(), a);
      match a {
        case Assign(t, src, dst, m) => BeginAssign(t, src, dst, m);
        case Begin(t, b, op) => BeginAccess(t, b, op);
        case Try(t, b, op, won) => var _ := TryAccess(t, b, op, won);
        case Step(t, left) => Statement(t, left);
      }
    }

    // Any schedule performed on the objects is a run of the protocol.
    method Schedule(acts: seq<Action<T>>)
      requires Valid()
      modifies this, boxes.Values
      ensures Valid() && View() == Exec(old(View()), acts)
    {
      for i := 0 to |acts|
        invariant Valid() && View() == Exec(old(View()), acts[..i])
      {
        Perform(acts[i]);
        assert acts[..i + 1][..i] == acts[..i];
      }
      assert acts[..|acts|] == acts;
    }
  }
}
