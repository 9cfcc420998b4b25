// RealtimeBuffer: two objects whose roles one realtime reader swaps, written by
// any threads through a polling lock.  Objects are named, so that which object a
// pointer designates is part of the state.
module BufferProtocol {
  import opened Runs

  // The two objects.
  datatype Name = First | Second

  datatype Section<T> =
    | TestNew                // readFromRT: if (new_data_available_)
    | Swap                   // exchange the pointers
    | ClearNew               // new_data_available_ = false
    | ReturnRead             // return realtime_data_ and unlock
    | CopyData(data: T)      // writeFromNonRT: *non_realtime_data_ = data
    | StoreNew(data: T)      // new_data_available_ = true
    | UnlockWrite
    | ReturnPeek             // readFromNonRT: choose the pointer and unlock

  // What an object held when a pointer to it was returned, and which write that
  // was, out of how many so far.
  datatype Seen<T> = Seen(value: T, index: nat, total: nat)

  // A pointer returned to the realtime reader.
  datatype Read<T> = Read(name: Name, what: Seen<T>, locked: bool)

  datatype Log<T> = Log(
    writes: seq<T>,          // the initial value and every completed write, in order
    seen: nat,               // which of them the realtime object holds
    results: seq<Read<T>>,   // results of readFromRT, in order
    peeks: seq<Seen<T>>)     // results of readFromNonRT, in order

  datatype State<T> = State(
    first: T,                // contents of the objects
    second: T,
    realtime: Name,          // realtime_data_; non_realtime_data_ is the other object
    newData: bool,           // new_data_available_
    section: Option<Section<T>>,   // what the holder of mutex_ does next
    log: Log<T>)

  datatype Action<T> =
    | ReadRT(won: bool)      // the realtime reader's try_lock, won if the mutex is free
    | Write(data: T)         // a writer's successful try_lock
    | Peek                   // readFromNonRT locks
    | Inside                 // the holder's next statement

  function Init<T>(v: T): State<T> {
    State(v, v, First, false, None, Log([v], 0, [], []))
  }

  function Other(n: Name): Name {
    if n == First then Second else First
  }

  function Content<T>(s: State<T>, n: Name): T {
    if n == First then s.first else s.second
  }

  function Store<T>(s: State<T>, n: Name, v: T): State<T> {
    if n == First then s.(first := v) else s.(second := v)
  }

  // The object readFromNonRT designates.
  function Newest<T>(s: State<T>): Name {
    if s.newData then Other(s.realtime) else s.realtime
  }

  function Returned<T>(s: State<T>, locked: bool): Log<T> {
    var what := Seen(Content(s, s.realtime), s.log.seen, |s.log.writes|);
    s.log.(results := s.log.results + [Read(s.realtime, what, locked)])
  }

  // The index of the last write.
  function LastIndex<T>(log: Log<T>): nat {
    if |log.writes| == 0 then 0 else |log.writes| - 1
  }

  function InsideNext<T>(s: State<T>, at: Section<T>): State<T> {
    match at
    case TestNew => s.(section := Some(if s.newData then Swap else ReturnRead))
    case Swap => s.(realtime := Other(s.realtime), log := s.log.(seen := LastIndex(s.log)), section := Some(ClearNew))
    case ClearNew => s.(newData := false, section := Some(ReturnRead))
    case ReturnRead => s.(log := Returned(s, true), section := None)
    case CopyData(d) => Store(s, Other(s.realtime), d).(section := Some(StoreNew(d)))
    case StoreNew(d) => s.(newData := true, log := s.log.(writes := s.log.writes + [d]), section := Some(UnlockWrite))
    case UnlockWrite => s.(section := None)
    case ReturnPeek =>
      s.(log := s.log.(peeks := s.log.peeks + [Seen(Content(s, Newest(s)), LastIndex(s.log), |s.log.writes|)]),
         section := None)
  }

  // The realtime reader is inside readFromRT.
  predicate Reading<T>(s: State<T>) {
    s.section.Some? &&
    (s.section.value.TestNew? || s.section.value.Swap? || s.section.value.ClearNew? || s.section.value.ReturnRead?)
  }

  function Next<T>(s: State<T>, a: Action<T>): State<T>
  {
    match a
    case ReadRT(won) =>
      if Reading(s) then s
      else if won && s.section.None? then s.(section := Some(TestNew))
      else s.(log := Returned(s, false))
    case Write(d) => if s.section.None? then s.(section := Some(CopyData(d))) else s
    case Peek => if s.section.None? then s.(section := Some(ReturnPeek)) else s
    case Inside => if s.section.Some? then InsideNext(s, s.section.value) else s
  }

  function Exec<T>(s: State<T>, acts: seq<Action<T>>): State<T> {
    Run(Next, s, acts)
  }

  // ---------------------------------------------------------------- invariant

  // The holder is exactly at the given kind of statement.
  predicate Storing<T>(s: State<T>) { s.section.Some? && s.section.value.StoreNew? }

  predicate Swapped<T>(s: State<T>) {
    s.section.Some? && (s.section.value.ClearNew? || s.section.value.ReturnRead?)
  }

  ghost predicate RegisterInv<T>(s: State<T>) {
    var last := LastIndex(s.log);
    && s.log.writes != [] && s.log.seen <= last
    && Content(s, s.realtime) == s.log.writes[s.log.seen]
    && (!s.newData ==> s.log.seen == last)
    && (s.newData && !Storing(s) && !Swapped(s) ==> Content(s, Other(s.realtime)) == s.log.writes[last])
    && (s.section.Some? ==>
          match s.section.value
          case Swap => s.newData
          case ClearNew => s.newData && s.log.seen == last
          case ReturnRead => !s.newData
          case StoreNew(d) => Content(s, Other(s.realtime)) == d
          case _ => true)
  }

  ghost predicate Genuine<T>(writes: seq<T>, w: Seen<T>) {
    w.index < w.total <= |writes| && w.value == writes[w.index]
  }

  // What the reader was given, seen from the last write each result holds.
  ghost predicate ResultsInv<T>(log: Log<T>) {
    && (forall r :: r in log.results ==>
          Genuine(log.writes, r.what) && r.what.index <= log.seen && (r.locked ==> r.what.index == r.what.total - 1))
    && (forall i, j :: 0 <= i < j < |log.results| ==> log.results[i].what.index <= log.results[j].what.index)
    && (forall i :: 0 <= i < |log.results| && !log.results[i].locked ==> Repeats(log.results, i))
    && (forall w :: w in log.peeks ==> Genuine(log.writes, w) && w.index == w.total - 1)
  }

  // The i-th result is the one before it again, or the initial value.
  ghost predicate Repeats<T>(results: seq<Read<T>>, i: nat)
    requires i < |results|
  {
    if i == 0 then results[0].what.index == 0
    else
      && results[i].what.index == results[i - 1].what.index && results[i].name == results[i - 1].name
      && results[i].what.value == results[i - 1].what.value
  }

  // Between reads the realtime object is the one returned last.
  ghost predicate HandedInv<T>(s: State<T>) {
    !Swapped(s) ==>
      if s.log.results == [] then s.log.seen == 0
      else
        var r := s.log.results[|s.log.results| - 1];
        r.name == s.realtime && r.what.index == s.log.seen
  }

  ghost predicate Inv<T>(s: State<T>) {
    RegisterInv(s) && ResultsInv(s.log) && HandedInv(s)
  }

  // A result that holds no earlier a write than the ones before it, genuine, and
  // the same as the last one unless the lock was taken, extends the results.
  lemma ResultExtends<T>(log: Log<T>, r: Read<T>)
    requires ResultsInv(log) && Genuine(log.writes, r.what) && r.what.index == log.seen
    requires r.locked ==> r.what.index == r.what.total - 1
    requires !r.locked ==> Repeats(log.results + [r], |log.results|)
    ensures ResultsInv(log.(results := log.results + [r]))
  {
    var results := log.results + [r];
    assert forall x :: x in results ==> x in log.results || x == r;
    forall i, j | 0 <= i < j < |results| ensures results[i].what.index <= results[j].what.index {
      assert results[i] in log.results;
    }
    RepeatsExtend(log.results, r);
  }

  lemma RepeatsExtend<T>(results: seq<Read<T>>, r: Read<T>)
    requires forall i :: 0 <= i < |results| && !results[i].locked ==> Repeats(results, i)
    requires !r.locked ==> Repeats(results + [r], |results|)
    ensures forall i :: 0 <= i <= |results| && !(results + [r])[i].locked ==> Repeats(results + [r], i)
  {
    forall i | 0 <= i < |results| && !results[i].locked ensures Repeats(results + [r], i) {
      assert Repeats(results, i);
    }
  }

  lemma ReturnKeepsInv<T>(s: State<T>, locked: bool)
    requires Inv(s) && (if locked then Swapped(s) && !s.newData else !Swapped(s))
    ensures ResultsInv(Returned(s, locked))
  {
    var results := s.log.results;
    if !locked && results != [] {
      assert results[|results| - 1] in results;
    }
    ResultExtends(s.log, Read(s.realtime, Seen(Content(s, s.realtime), s.log.seen, |s.log.writes|), locked));
  }

  lemma InsideKeepsRegister<T>(s: State<T>, at: Section<T>)
    requires RegisterInv(s) && HandedInv(s) && s.section == Some(at)
    ensures RegisterInv(InsideNext(s, at)) && HandedInv(InsideNext(s, at))
  {
  }

  lemma InsideKeepsResults<T>(s: State<T>, at: Section<T>)
    requires Inv(s) && s.section == Some(at)
    ensures ResultsInv(InsideNext(s, at).log)
  {
    var n := InsideNext(s, at);
    if at.ReturnRead? {
      ReturnKeepsInv(s, true);
    } else {
      assert n.log.results == s.log.results && s.log.writes <= n.log.writes && s.log.seen <= n.log.seen;
      assert forall w :: Genuine(s.log.writes, w) ==> Genuine(n.log.writes, w);
    }
  }

  lemma LockKeepsRegister<T>(s: State<T>, a: Action<T>)
    requires RegisterInv(s) && HandedInv(s) && !a.Inside?
    ensures RegisterInv(Next(s, a)) && HandedInv(Next(s, a))
    ensures Next(s, a).log == s.log || (a.ReadRT? && !Reading(s) && Next(s, a).log == Returned(s, false))
  {
  }

  lemma StepKeepsInv<T>(s: State<T>, a: Action<T>)
    requires Inv(s)
    ensures Inv(Next(s, a))
  {
    match a
    case Inside =>
      if s.section.Some? {
        InsideKeepsRegister(s, s.section.value);
        InsideKeepsResults(s, s.section.value);
      }
    case ReadRT(won) => LockKeepsRegister(s, a); if !Reading(s) { ReturnKeepsInv(s, false); }
    case _ => LockKeepsRegister(s, a);
  }

  lemma RunKeepsInv<T(!new)>(s: State<T>, acts: seq<Action<T>>)
    requires Inv(s)
    ensures Inv(Exec(s, acts))
  {
    forall x: State<T>, a: Action<T> | Inv(x) ensures Inv(Next(x, a)) { StepKeepsInv(x, a); }
    RunKeeps(Next, (x: State<T>) => Inv(x), (a: Action<T>) => true, s, acts);
  }

  // ------------------------------------------- whole calls, nobody else inside

  function AfterRead<T>(s: State<T>): State<T> {
    var r := if s.newData
             then s.(realtime := Other(s.realtime), newData := false, log := s.log.(seen := LastIndex(s.log)))
             else s;
    r.(log := Returned(r, true))
  }

  function AfterWrite<T>(s: State<T>, d: T): State<T> {
    Store(s, Other(s.realtime), d).(newData := true, log := s.log.(writes := s.log.writes + [d]))
  }

  lemma ReadSteps<T>(s: State<T>)
    requires s.section.None?
    ensures
      var s1 := Next(Next(s, ReadRT(true)), Inside);
      AfterRead(s) == if s.newData then Next(Next(Next(s1, Inside), Inside), Inside) else Next(s1, Inside)
  {
  }

  // readFromRT alone is its statements in a row.
  lemma ReadAlone<T>(s: State<T>)
    requires Inv(s) && s.section.None?
    ensures Inv(AfterRead(s)) && AfterRead(s).section.None?
    ensures
      var s1 := Next(Next(s, ReadRT(true)), Inside);
      AfterRead(s) == if s.newData then Next(Next(Next(s1, Inside), Inside), Inside) else Next(s1, Inside)
  {
    ReadSteps(s);
    var s0 := Next(s, ReadRT(true));
    var s1 := Next(s0, Inside);
    var s2 := Next(s1, Inside);
    var s3 := Next(s2, Inside);
    StepKeepsInv(s, ReadRT(true));
    StepKeepsInv(s0, Inside);
    StepKeepsInv(s1, Inside);
    StepKeepsInv(s2, Inside);
    StepKeepsInv(s3, Inside);
  }

  // readFromRT that does not get the lock returns the realtime object, again what
  // the read before it returned, and changes nothing.
  lemma LostReadRepeats<T>(s: State<T>, won: bool)
    requires Inv(s) && !Reading(s) && (!won || s.section.Some?)
    ensures
      var n := Next(s, ReadRT(won));
      && |n.log.results| == |s.log.results| + 1 && n.log.results[..|s.log.results|] == s.log.results
      && n == s.(log := s.log.(results := n.log.results))
      && var r := n.log.results[|s.log.results|];
         && !r.locked && r.what.value == Content(s, r.name) && r.name == s.realtime
         && (s.log.results != [] ==> r.name == s.log.results[|s.log.results| - 1].name)
  {
  }

  // readFromNonRT alone returns the last write and changes nothing else.
  lemma PeekAlone<T>(s: State<T>)
    requires Inv(s) && s.section.None?
    ensures
      var last := |s.log.writes| - 1;
      Next(Next(s, Peek), Inside)
      == s.(log := s.log.(peeks := s.log.peeks + [Seen(s.log.writes[last], last, last + 1)]))
  {
  }

  // writeFromNonRT alone is its statements in a row.
  lemma WriteSteps<T>(s: State<T>, d: T)
    requires s.section.None?
    ensures AfterWrite(s, d) == Next(Next(Next(Next(s, Write(d)), Inside), Inside), Inside)
  {
    var s1 := Next(Next(s, Write(d)), Inside);
    assert s1 == Store(s, Other(s.realtime), d).(section := Some(StoreNew(d)));
    assert Next(s1, Inside) == AfterWrite(s, d).(section := Some(UnlockWrite));
  }

  lemma WriteAlone<T>(s: State<T>, d: T)
    requires Inv(s) && s.section.None?
    ensures Inv(AfterWrite(s, d)) && AfterWrite(s, d).section.None?
  {
    WriteSteps(s, d);
    StepKeepsInv(s, Write(d));
    StepKeepsInv(Next(s, Write(d)), Inside);
    StepKeepsInv(Next(Next(s, Write(d)), Inside), Inside);
    StepKeepsInv(Next(Next(Next(s, Write(d)), Inside), Inside), Inside);
  }

  // ----------------------------------------------------------------- theorems

  // The buffer is a last-write register: whenever no write is between its two
  // stores, the newest object holds the last completed write.
  lemma NewestIsLastWrite<T(!new)>(v: T, acts: seq<Action<T>>)
    ensures
      var s := Exec(Init(v), acts);
      s.log.writes != [] &&
      (!Storing(s) && !(s.section.Some? && s.section.value.ClearNew?) ==>
         Content(s, Newest(s)) == s.log.writes[|s.log.writes| - 1])
  {
    RunKeepsInv(Init(v), acts);
  }

  // In every run: a realtime read that got the lock returns the last write; one
  // that did not returns what the read before it returned, or the initial value;
  // reads never go back in write order; and a non-realtime read returns the last
  // write.
  lemma ReadsFollowWrites<T(!new)>(v: T, acts: seq<Action<T>>)
    ensures
      var log := Exec(Init(v), acts).log;
      && (forall r :: r in log.results ==>
            && r.what.index < r.what.total <= |log.writes| && r.what.value == log.writes[r.what.index]
            && (r.locked ==> r.what.index == r.what.total - 1))
      && (forall i :: 0 <= i < |log.results| && !log.results[i].locked ==> Repeats(log.results, i))
      && (forall i, j :: 0 <= i < j < |log.results| ==> log.results[i].what.index <= log.results[j].what.index)
      && (forall w :: w in log.peeks ==>
            w.index == w.total - 1 && w.total <= |log.writes| && w.value == log.writes[w.index])
  {
    RunKeepsInv(Init(v), acts);
  }

  // The object n holds v and, unless the reader is past its swap, is still the
  // realtime object.
  ghost predicate Held<T>(s: State<T>, n: Name, v: T) {
    Content(s, n) == v && (!Swapped(s) ==> s.realtime == n)
  }

  lemma HeldStep<T>(s: State<T>, a: Action<T>, n: Name, v: T)
    requires Held(s, n, v)
    ensures
      var m := Next(s, a);
      |m.log.results| >= |s.log.results| && (|m.log.results| == |s.log.results| ==> Held(m, n, v))
  {
  }

  // It has been so since the result number `count`.
  ghost predicate Unmoved<T>(s: State<T>, count: nat, n: Name, v: T) {
    |s.log.results| >= count && (|s.log.results| == count ==> Held(s, n, v))
  }

  lemma ResultsGrow<T>(s: State<T>, a: Action<T>)
    ensures |Next(s, a).log.results| >= |s.log.results|
  {
  }

  lemma UnmovedStep<T>(s: State<T>, a: Action<T>, count: nat, n: Name, v: T)
    requires Unmoved(s, count, n, v)
    ensures Unmoved(Next(s, a), count, n, v)
  {
    ResultsGrow(s, a);
    if |s.log.results| == count {
      HeldStep(s, a, n, v);
    }
  }

  // No write ever changes the object last returned to the realtime reader: its
  // content is the same in every run up to the reader's next result.
  lemma ReturnedObjectIsStable<T(!new)>(s: State<T>, acts: seq<Action<T>>)
    requires Inv(s) && s.log.results != [] && !Swapped(s)
    ensures
      var e := Exec(s, acts);
      var r := s.log.results[|s.log.results| - 1];
      |e.log.results| == |s.log.results| ==> Content(e, r.name) == Content(s, r.name) == s.log.writes[r.what.index]
  {
    var count := |s.log.results|;
    var n := s.log.results[count - 1].name;
    var v := Content(s, n);
    forall x: State<T>, a: Action<T> | Unmoved(x, count, n, v) ensures Unmoved(Next(x, a), count, n, v) {
      UnmovedStep(x, a, count, n, v);
    }
    RunKeeps(Next, (x: State<T>) => Unmoved(x, count, n, v), (a: Action<T>) => true, s, acts);
  }
}
