/** Runs of a state machine: what every protocol here means by "reachable" and by "in every interleaving". */
module Runs {
  import opened Wrappers

  /** Each step taken in turn; none when one of them is not enabled. */
  ghost function Run<S, A>(next: (S, A) -> Option<S>, s: S, steps: seq<A>): Option<S>
    decreases |steps|
  {
    if steps == [] then Some(s)
    else
      match next(s, steps[0])
      case None => None
      case Some(t) => Run(next, t, steps[1..])
  }

  /** What every step keeps. */
  ghost predicate Kept<S(!new), A(!new)>(next: (S, A) -> Option<S>, inv: S -> bool) {
    forall s, a :: inv(s) && next(s, a).Some? ==> inv(next(s, a).value)
  }

  /** What every step keeps, every run keeps. */
  lemma {:induction false} RunKeeps<S(!new), A(!new)>(next: (S, A) -> Option<S>, inv: S -> bool, s: S, steps: seq<A>)
    requires Kept(next, inv) && inv(s) && Run(next, s, steps).Some?
    ensures inv(Run(next, s, steps).value)
    decreases |steps|
  {
    if steps != [] {
      RunKeeps(next, inv, next(s, steps[0]).value, steps[1..]);
    }
  }

  lemma RunStep<S, A>(next: (S, A) -> Option<S>, s: S, steps: seq<A>)
    requires steps != [] && next(s, steps[0]).Some?
    ensures Run(next, s, steps) == Run(next, next(s, steps[0]).value, steps[1..])
  {
  }

  lemma {:induction false} RunConcat<S, A>(next: (S, A) -> Option<S>, s: S, a: seq<A>, b: seq<A>)
    requires Run(next, s, a).Some?
    ensures Run(next, s, a + b) == Run(next, Run(next, s, a).value, b)
    decreases |a|
  {
    if a == [] {
      assert a + b == b;
    } else {
      assert (a + b)[1..] == a[1..] + b;
      RunConcat(next, next(s, a[0]).value, a[1..], b);
    }
  }

  /** What every step keeps about the state and the list of steps behind it. */
  ghost predicate Traced<S(!new), A(!new)>(next: (S, A) -> Option<S>, inv: (S, seq<A>) -> bool) {
    forall s, done, a :: inv(s, done) && next(s, a).Some? ==> inv(next(s, a).value, done + [a])
  }

  /** Then every run keeps it. */
  lemma {:induction false} RunTraces<S(!new), A(!new)>(
      next: (S, A) -> Option<S>, inv: (S, seq<A>) -> bool, s: S, done: seq<A>, steps: seq<A>)
    requires Traced(next, inv) && inv(s, done) && Run(next, s, steps).Some?
    ensures inv(Run(next, s, steps).value, done + steps)
    decreases |steps|
  {
    if steps == [] {
      assert done + [] == done;
    } else {
      RunTraces(next, inv, next(s, steps[0]).value, done + [steps[0]], steps[1..]);
      assert done + [steps[0]] + steps[1..] == done + steps;
    }
  }
}
