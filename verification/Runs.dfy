/** Runs of a step machine: sequences of enabled steps, and the induction over them. */
module Runs {

  datatype Option<+T> = None | Some(value: T)

  /** The state after taking `steps` in order, if each was enabled in its turn. */
  function Run<S, L>(next: (S, L) -> Option<S>, s: S, steps: seq<L>): (r: Option<S>)
    decreases |steps|
  {
    if steps == [] then Some(s)
    else
      match next(s, steps[0])
      case None => None
      case Some(t) => Run(next, t, steps[1..])
  }

  /** What every step keeps, every run keeps. */
  lemma {:induction false} RunKeeps<S(!new), L(!new)>(next: (S, L) -> Option<S>, inv: S -> bool, s: S, steps: seq<L>)
    requires inv(s) && Run(next, s, steps).Some?
    requires forall t, l :: inv(t) && next(t, l).Some? ==> inv(next(t, l).value)
    ensures inv(Run(next, s, steps).value)
    decreases |steps|
  {
    if steps != [] {
      RunKeeps(next, inv, next(s, steps[0]).value, steps[1..]);
    }
  }

  lemma {:induction false} RunAppend<S, L>(next: (S, L) -> Option<S>, s: S, a: seq<L>, b: seq<L>)
    requires Run(next, s, a).Some?
    ensures Run(next, s, a + b) == Run(next, Run(next, s, a).value, b)
    decreases |a|
  {
    if a == [] {
      assert a + b == b;
    } else {
      RunAppend(next, next(s, a[0]).value, a[1..], b);
      assert (a + b)[1..] == a[1..] + b;
    }
  }

  lemma RunSingle<S, L>(next: (S, L) -> Option<S>, s: S, l: L)
    ensures Run(next, s, [l]) == next(s, l)
  {
    if next(s, l).Some? {
      assert Run(next, next(s, l).value, [l][1..]) == Some(next(s, l).value);
    }
  }

  function Last<T>(xs: seq<T>): (r: T)
    requires xs != []
  {
    xs[|xs| - 1]
  }

  function Front<T>(xs: seq<T>): (r: seq<T>)
    requires xs != []
  {
    xs[..|xs| - 1]
  }

  lemma Snoc<T>(xs: seq<T>, x: T)
    ensures Front(xs + [x]) == xs && Last(xs + [x]) == x
  {
  }

  /** A queue whose history is `all`, of which `n` have left: one more joins, or leaves. */
  lemma Joins<T>(all: seq<T>, n: nat, x: T)
    requires n <= |all|
    ensures (all + [x])[n..] == all[n..] + [x]
  {
  }

  lemma Leaves<T>(all: seq<T>, n: nat)
    requires n < |all|
    ensures all[n..][1..] == all[n + 1..]
  {
  }

  /** A run of one step more, and what came before its last step. */
  lemma RunSnoc<S, L>(next: (S, L) -> Option<S>, s: S, front: seq<L>, l: L)
    ensures Run(next, s, front + [l]).Some? ==> Run(next, s, front).Some?
    ensures Run(next, s, front).Some? ==> Run(next, s, front + [l]) == next(Run(next, s, front).value, l)
  {
    if Run(next, s, front).Some? {
      RunAppend(next, s, front, [l]);
      RunSingle(next, Run(next, s, front).value, l);
    } else {
      RunStops(next, s, front, [l]);
    }
  }

  lemma {:induction false} RunStops<S, L>(next: (S, L) -> Option<S>, s: S, a: seq<L>, b: seq<L>)
    requires Run(next, s, a).None?
    ensures Run(next, s, a + b).None?
    decreases |a|
  {
    assert (a + b)[0] == a[0] && (a + b)[1..] == a[1..] + b;
    if next(s, a[0]).Some? {
      RunStops(next, next(s, a[0]).value, a[1..], b);
    }
  }

  lemma RunCut<S, L>(next: (S, L) -> Option<S>, s: S, a: seq<L>, b: seq<L>)
    requires Run(next, s, a + b).Some?
    ensures Run(next, s, a).Some? && Run(next, s, a + b) == Run(next, Run(next, s, a).value, b)
  {
    if Run(next, s, a).None? {
      RunStops(next, s, a, b);
    } else {
      RunAppend(next, s, a, b);
    }
  }

  /** What holds of the state and the steps so far, and which every step keeps,
      holds after every run of the state and all its steps. */
  lemma {:induction false} RunKeepsTrace<S(!new), L(!new)>(
      next: (S, L) -> Option<S>, inv: (S, seq<L>) -> bool, s: S, steps: seq<L>)
    requires inv(s, []) && Run(next, s, steps).Some?
    requires forall t, ls, l :: inv(t, ls) && Run(next, s, ls) == Some(t) && next(t, l).Some? ==>
               inv(next(t, l).value, ls + [l])
    ensures inv(Run(next, s, steps).value, steps)
    decreases |steps|
  {
    if steps != [] {
      var front, l := Front(steps), Last(steps);
      assert steps == front + [l];
      RunSnoc(next, s, front, l);
      RunKeepsTrace(next, inv, s, front);
    }
  }
}
