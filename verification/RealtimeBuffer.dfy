// The buffer as an object with real references: the two pointers of
// realtime_buffer.hpp designate two heap cells, written and swapped in place.
module RealtimeBuffer {
  import opened Runs
  import opened BufferProtocol

  class Cell<T> {
    var value: T

    constructor (v: T)
      ensures value == v
    {
      value := v;
    }
  }

  class Buffer<T> {
    var realtimeData: Cell<T>
    var nonRealtimeData: Cell<T>
    var newDataAvailable: bool
    var section: Option<Section<T>>
    ghost var first: Cell<T>
    ghost var second: Cell<T>
    ghost var log: Log<T>

    // The two pointers designate the two objects, which are distinct.
    ghost predicate Separate()
      reads this
    {
      && first != second
      && (realtimeData == first || realtimeData == second)
      && nonRealtimeData == (if realtimeData == first then second else first)
    }

    ghost function View(): State<T>
      reads this, first, second
    {
      State(first.value, second.value, if realtimeData == first then First else Second, newDataAvailable, section, log)
    }

    ghost predicate Valid()
      reads this, first, second
    {
      Separate() && Inv(View())
    }

    // The object a name stands for.
    ghost function Named(n: Name): Cell<T>
      reads this
    {
      if n == First then first else second
    }

    // What readFromNonRT would find.
    ghost function Latest(): T
      reads this, realtimeData, nonRealtimeData
    {
      if newDataAvailable then nonRealtimeData.value else realtimeData.value
    }

    constructor (data: T)
      ensures Valid() && fresh(first) && fresh(second)
      ensures View() == Init(data) && Latest() == data
    {
      nonRealtimeData := new Cell(data);
      realtimeData := new Cell(data);
      newDataAvailable, section := false, None;
      first, second := realtimeData, nonRealtimeData;
      log := Log([data], 0, [], []);
    }

    // readFromRT that gets the lock only when `won` and the mutex is free; when
    // it does not, it returns the realtime object at once.
    method BeginReadFromRT(won: bool) returns (entered: bool, result: Cell<T>)
      requires Separate()
      modifies this
      ensures Separate() && first == old(first) && second == old(second)
      ensures View() == Next(old(View()), ReadRT(won))
      ensures !entered ==> result == realtimeData == old(realtimeData)
      ensures entered <==> won && old(section).None?
    {
      result := realtimeData;
      entered := won && section.None?;
      if entered {
        section := Some(TestNew);
      } else if !Reading(View()) {
        log := Returned(View(), false);
      }
    }

    // One statement of the thread that holds mutex_.
    method Statement() returns (result: Cell<T>)
      requires Separate() && section.Some?
      modifies this, nonRealtimeData
      ensures Separate() && first == old(first) && second == old(second)
      ensures View() == Next(old(View()), Inside)
      ensures old(section.value).ReturnRead? ==> result == realtimeData
      ensures old(section.value).ReturnPeek? ==> result == Named(Newest(View()))
    {
      result := realtimeData;
      match section.value {
        case TestNew => section := Some(if newDataAvailable then Swap else ReturnRead);
        case Swap =>
          var tmp := realtimeData;
          realtimeData := nonRealtimeData;
          nonRealtimeData := tmp;
          log := log.(seen := LastIndex(log));
          section := Some(ClearNew);
        case ClearNew => newDataAvailable := false; section := Some(ReturnRead);
        case ReturnRead => log := Returned(View(), true); section := None;
        case CopyData(d) => nonRealtimeData.value := d; section := Some(StoreNew(d));
        case StoreNew(d) =>
          newDataAvailable := true;
          log := log.(writes := log.writes + [d]);
          section := Some(UnlockWrite);
        case UnlockWrite => section := None;
        case ReturnPeek =>
          if newDataAvailable {
            result := nonRealtimeData;
          }
          log := log.(peeks := log.peeks + [Seen(result.value, LastIndex(log), |log.writes|)]);
          section := None;
      }
    }

    // A writer's try_lock.
    method TryLockWrite(data: T) returns (ok: bool)
      requires Separate()
      modifies this
      ensures Separate() && first == old(first) && second == old(second)
      ensures View() == Next(old(View()), Write(data)) && (ok <==> old(section).None?)
    {
      ok := section.None?;
      if ok {
        section := Some(CopyData(data));
      }
    }

    method LockPeek()
      requires Separate()
      modifies this
      ensures Separate() && first == old(first) && second == old(second)
      ensures View() == Next(old(View()), Action<T>.Peek)
    {
      if section.None? {
        section := Some(ReturnPeek);
      }
    }

    method Perform(a: Action<T>)
      requires Valid()
      modifies this, first, second
      ensures Valid() && first == old(first) && second == old(second)
      ensures View() == Next(old(View()), a)
    {
      StepKeepsInv(View(), a);
      match a {
        case ReadRT(won) => var _, _ := BeginReadFromRT(won);
        case Write(d) => var _ := TryLockWrite(d);
        case Peek => LockPeek();
        case Inside => if section.Some? { var _ := Statement(); }
      }
    }

    // Any schedule performed on the object is a run of the protocol.
    method Schedule(acts: seq<Action<T>>)
      requires Valid()
      modifies this, first, second
      ensures Valid() && first == old(first) && second == old(second)
      ensures View() == Exec(old(View()), acts)
    {
      for i := 0 to |acts|
        invariant Valid() && first == old(first) && second == old(second)
        invariant View() == Exec(old(View()), acts[..i])
      {
        Perform(acts[i]);
        assert acts[..i + 1][..i] == acts[..i];
      }
      assert acts[..|acts|] == acts;
    }

    // --------------------------------------- whole calls, nobody else inside

    method ReadFromRT() returns (result: Cell<T>)
      requires Valid() && section.None?
      modifies this
      ensures Valid() && View() == AfterRead(old(View()))
      ensures result == realtimeData && result.value == old(Latest()) == Latest()
    {
      ReadAlone(View());
      if newDataAvailable {
        var tmp := realtimeData;
        realtimeData := nonRealtimeData;
        nonRealtimeData := tmp;
        newDataAvailable := false;
        log := log.(seen := LastIndex(log));
      }
      result := realtimeData;
      log := Returned(View(), true);
    }

    method ReadFromNonRT() returns (result: Cell<T>)
      requires Valid() && section.None?
      ensures result == Named(Newest(View())) && result.value == Latest()
      ensures Latest() == log.writes[|log.writes| - 1]
    {
      result := if newDataAvailable then nonRealtimeData else realtimeData;
    }

    // A polling writer whose try_lock fails just sleeps and tries again.
    method WriteFromNonRT(data: T)
      requires Valid() && section.None?
      modifies this, nonRealtimeData
      ensures Valid() && View() == AfterWrite(old(View()), data)
      ensures first == old(first) && second == old(second) && Latest() == data
      ensures realtimeData == old(realtimeData) && realtimeData.value == old(realtimeData.value)
    {
      WriteAlone(View(), data);
      nonRealtimeData.value := data;
      newDataAvailable := true;
      log := log.(writes := log.writes + [data]);
    }

    // operator=, and the copy constructor on a buffer just allocated.
    method Assign(source: Buffer<T>)
      requires Valid() && section.None? && source.Valid() && source.section.None?
      requires source != this ==> {first, second} !! {source.first, source.second}
      modifies this, nonRealtimeData
      ensures Valid() && source.Valid()
      ensures Latest() == source.Latest() == old(source.Latest())
      ensures source == this ==> View() == old(View())
    {
      if this != source {
        var p := source.ReadFromNonRT();
        WriteFromNonRT(p.value);
      }
    }

    // initRT takes no lock: it is for use before any other thread has the buffer.
    method InitRT(data: T)
      requires Valid() && section.None?
      modifies this, first, second
      ensures Valid() && section.None? && Latest() == data && realtimeData.value == data == nonRealtimeData.value
      ensures realtimeData == old(realtimeData) && newDataAvailable == old(newDataAvailable)
    {
      nonRealtimeData.value := data;
      realtimeData.value := data;
      log := Log([data], 0, [], []);
    }

    // reset takes no lock either; it replaces both objects and leaves the flag.
    method Reset(blank: T)
      requires Valid() && section.None?
      modifies this
      ensures Valid() && section.None? && fresh(first) && fresh(second) && Latest() == blank
      ensures newDataAvailable == old(newDataAvailable)
    {
      nonRealtimeData := new Cell(blank);
      realtimeData := new Cell(blank);
      first, second := realtimeData, nonRealtimeData;
      log := Log([blank], 0, [], []);
    }
  }
}
