// Runs of a step machine under every schedule.  A machine is a total function
// `next`: an action that is not enabled leaves the state alone, so every
// sequence of actions is a schedule and "for every run" is "for every sequence".
module Runs {
  datatype Option<T> = None | Some(value: T)

  // The state after performing the actions of `acts` in order.
  function Run<S, A>(next: (S, A) -> S, s: S, acts: seq<A>): S
    decreases |acts|
  {
    if acts == [] then s
    else next(Run(next, s, acts[..|acts| - 1]), acts[|acts| - 1])
  }

  // The number of steps picked by `pick` that changed the state in the run.
  ghost function Work<S, A>(next: (S, A) -> S, pick: (S, A) -> bool, s: S, acts: seq<A>): nat
    decreases |acts|
  {
    if acts == [] then 0
    else
      var before := Run(next, s, acts[..|acts| - 1]);
      var a := acts[|acts| - 1];
      Work(next, pick, s, acts[..|acts| - 1]) + if pick(before, a) && next(before, a) != before then 1 else 0
  }

  // What every allowed step keeps holds at the end of every run of allowed steps.
  lemma {:induction false} RunKeeps<S(!new), A(!new)>(
    next: (S, A) -> S, inv: S -> bool, ok: A -> bool, s: S, acts: seq<A>)
    requires inv(s)
    requires forall x, a :: inv(x) && ok(a) ==> inv(next(x, a))
    requires forall a :: a in acts ==> ok(a)
    ensures inv(Run(next, s, acts))
    decreases |acts|
  {
    if acts != [] {
      RunKeeps(next, inv, ok, s, acts[..|acts| - 1]);
    }
  }

  // If the picked steps strictly lower a measure that no other step raises, the
  // picked steps that do anything are bounded by the measure's start value.
  lemma {:induction false} WorkBound<S(!new), A(!new)>(
    next: (S, A) -> S, inv: S -> bool, ok: A -> bool, pick: (S, A) -> bool, rank: S -> nat, s: S, acts: seq<A>)
    requires inv(s)
    requires forall x, a :: inv(x) && ok(a) ==> inv(next(x, a)) && rank(next(x, a)) <= rank(x)
    requires forall x, a :: inv(x) && ok(a) && pick(x, a) && next(x, a) != x ==> rank(next(x, a)) < rank(x)
    requires forall a :: a in acts ==> ok(a)
    ensures inv(Run(next, s, acts))
    ensures Work(next, pick, s, acts) + rank(Run(next, s, acts)) <= rank(s)
    decreases |acts|
  {
    if acts != [] {
      WorkBound(next, inv, ok, pick, rank, s, acts[..|acts| - 1]);
    }
  }

  // The same while something is pending: `pending` never comes back once it has
  // gone, and while it lasts the picked steps lower the measure.
  lemma {:induction false} WorkWhile<S(!new), A(!new)>(
    next: (S, A) -> S, keep: S -> bool, pending: S -> bool, ok: A -> bool, pick: (S, A) -> bool, rank: S -> nat,
    s: S, acts: seq<A>)
    requires keep(s)
    requires forall x, a :: keep(x) && ok(a) ==> keep(next(x, a))
    requires forall x, a :: keep(x) && ok(a) && pending(next(x, a)) ==> pending(x) && rank(next(x, a)) <= rank(x)
    requires forall x, a :: keep(x) && ok(a) && pending(next(x, a)) && pick(x, a) && next(x, a) != x ==>
                              rank(next(x, a)) < rank(x)
    requires forall a :: a in acts ==> ok(a)
    ensures keep(Run(next, s, acts))
    ensures pending(Run(next, s, acts)) ==>
              pending(s) && Work(next, pick, s, acts) + rank(Run(next, s, acts)) <= rank(s)
    decreases |acts|
  {
    if acts != [] {
      WorkWhile(next, keep, pending, ok, pick, rank, s, acts[..|acts| - 1]);
    }
  }

  lemma RunSnoc<S, A>(next: (S, A) -> S, s: S, acts: seq<A>, a: A)
    ensures Run(next, s, acts + [a]) == next(Run(next, s, acts), a)
  {
    assert (acts + [a])[..|acts|] == acts;
  }

  // One more action of a script that has led from `from` to `s`.
  lemma Perform<S, A>(next: (S, A) -> S, from: S, acts: seq<A>, s: S, a: A) returns (more: seq<A>, n: S)
    requires Run(next, from, acts) == s
    ensures more == acts + [a] && n == next(s, a) && Run(next, from, more) == n
  {
    more, n := acts + [a], next(s, a);
    RunSnoc(next, from, acts, a);
  }

  // A run can be cut anywhere.
  lemma {:induction false} RunAppend<S, A>(next: (S, A) -> S, s: S, first: seq<A>, rest: seq<A>)
    ensures Run(next, s, first + rest) == Run(next, Run(next, s, first), rest)
    decreases |rest|
  {
    var all := first + rest;
    if rest == [] {
      assert all == first;
    } else {
      assert all[..|all| - 1] == first + rest[..|rest| - 1];
      RunAppend(next, s, first, rest[..|rest| - 1]);
    }
  }
}
