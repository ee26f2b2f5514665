/** The step framework of the concurrency models.  A protocol is an initial predicate and a step
    relation; every lock-protected region of the code is one step, and a run is any interleaving. */
module Runs {
  // The i-th state follows from the one before it.
  ghost predicate StepAt<S(!new)>(next: (S, S) -> bool, run: seq<S>, i: nat) {
    0 < i < |run| ==> next(run[i - 1], run[i])
  }

  ghost predicate Path<S(!new)>(next: (S, S) -> bool, run: seq<S>) {
    |run| > 0 && forall i: nat :: StepAt(next, run, i)
  }

  ghost predicate IsRun<S(!new)>(init: S -> bool, next: (S, S) -> bool, run: seq<S>) {
    Path(next, run) && init(run[0])
  }

  ghost predicate Reachable<S(!new)>(init: S -> bool, next: (S, S) -> bool, s: S) {
    exists run :: IsRun(init, next, run) && run[|run| - 1] == s
  }

  // Step i of a run takes action acts[i]; acts[0] stands for no step.
  ghost predicate ActAt<S(!new), A(!new)>(step: (S, A, S) -> bool, run: seq<S>, acts: seq<A>, i: int) {
    0 < i < |run| && i < |acts| ==> step(run[i - 1], acts[i], run[i])
  }

  // A run together with the action of every step.
  ghost predicate Trace<S(!new), A(!new)>(init: S -> bool, step: (S, A, S) -> bool, run: seq<S>, acts: seq<A>) {
    |run| == |acts| && |run| > 0 && init(run[0]) && forall i: nat :: ActAt(step, run, acts, i)
  }

  lemma TraceIsRun<S(!new), A(!new)>(init: S -> bool, next: (S, S) -> bool, step: (S, A, S) -> bool, run: seq<S>, acts: seq<A>)
    requires Trace(init, step, run, acts) && forall s, a, t :: step(s, a, t) ==> next(s, t)
    ensures IsRun(init, next, run)
  {
    forall i: nat ensures StepAt(next, run, i) { assert ActAt(step, run, acts, i); }
  }

  // Some step up to the j-th took action x.
  ghost predicate Taken<A(!new)>(acts: seq<A>, j: int, x: A) {
    exists i :: 0 < i <= j && i < |acts| && acts[i] == x
  }

  lemma TakenNext<A(!new)>(acts: seq<A>, j: int, x: A)
    requires 0 < j < |acts|
    ensures Taken(acts, j, x) <==> Taken(acts, j - 1, x) || acts[j] == x
  {
    if i :| 0 < i <= j - 1 && acts[i] == x { assert 0 < i <= j; }
    if i :| 0 < i <= j && acts[i] == x { assert i == j || i <= j - 1; }
  }

  // How many steps up to the j-th took action x.
  function Times<A(==)>(acts: seq<A>, j: nat, x: A): nat
    requires j < |acts|
  {
    if j == 0 then 0 else Times(acts, j - 1, x) + if acts[j] == x then 1 else 0
  }

  // inv holds at the start and no step loses it.
  ghost predicate Inductive<S(!new)>(init: S -> bool, next: (S, S) -> bool, inv: S -> bool) {
    && (forall s :: init(s) ==> inv(s))
    && (forall s, t :: inv(s) && next(s, t) ==> inv(t))
  }

  lemma {:induction false} HoldsOnRuns<S(!new)>(init: S -> bool, next: (S, S) -> bool, inv: S -> bool, run: seq<S>, i: nat)
    requires Inductive(init, next, inv) && IsRun(init, next, run) && i < |run|
    ensures inv(run[i])
  {
    if i > 0 {
      HoldsOnRuns(init, next, inv, run, i - 1);
      assert StepAt(next, run, i);
    }
  }

  lemma HoldsOnReachable<S(!new)>(init: S -> bool, next: (S, S) -> bool, inv: S -> bool)
    requires Inductive(init, next, inv)
    ensures forall s :: Reachable(init, next, s) ==> inv(s)
  {
    forall s | Reachable(init, next, s) ensures inv(s) {
      var run :| IsRun(init, next, run) && run[|run| - 1] == s;
      HoldsOnRuns(init, next, inv, run, |run| - 1);
    }
  }

  lemma ReachedOnRun<S(!new)>(init: S -> bool, next: (S, S) -> bool, run: seq<S>, k: nat)
    requires IsRun(init, next, run) && k < |run|
    ensures Reachable(init, next, run[k])
  {
    var start := run[..k + 1];
    forall i: nat ensures StepAt(next, start, i) { assert StepAt(next, run, i); }
    assert IsRun(init, next, start) && start[|start| - 1] == run[k];
  }

  // A step extends what is reachable; used to exhibit concrete runs.
  lemma ReachableStep<S(!new)>(init: S -> bool, next: (S, S) -> bool, s: S, t: S)
    requires Reachable(init, next, s) && next(s, t)
    ensures Reachable(init, next, t)
  {
    var run :| IsRun(init, next, run) && run[|run| - 1] == s;
    var longer := run + [t];
    forall i: nat ensures StepAt(next, longer, i) { assert StepAt(next, run, i); }
    assert IsRun(init, next, longer) && longer[|longer| - 1] == t;
  }

  lemma ReachableInit<S(!new)>(init: S -> bool, next: (S, S) -> bool, s: S)
    requires init(s)
    ensures Reachable(init, next, s)
  {
    assert IsRun(init, next, [s]);
  }
}
