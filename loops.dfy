/** Both scripts walk a sequence (the repository types of a project, or the projects of
    a query) doing one step per element, and the first step that raises abandons the
    rest.  `RunAll` is that loop as a function; the loops of the model are proved
    against it. */
module Loops {
  import opened Outcomes

  /** The state reached and whether the last step raised. */
  datatype Run<S> = Run(state: S, outcome: Outcome)

  /** Runs `step` on `items` in order from `init`, stopping at the first failure.
      Defined on the last element so that a loop's prefix `items[..i]` unfolds directly. */
  function RunAll<S, T>(step: (S, T) -> Run<S>, init: S, items: seq<T>): (r: Run<S>)
    decreases |items|
  {
    if items == [] then Run(init, Pass)
    else
      var prev := RunAll(step, init, items[..|items| - 1]);
      if prev.outcome.Fail? then prev else step(prev.state, items[|items| - 1])
  }

  /** Once a prefix has failed, the later elements are never processed. */
  lemma {:induction false} StaysFailed<S, T>(step: (S, T) -> Run<S>, init: S, items: seq<T>, k: nat)
    requires k <= |items|
    requires RunAll(step, init, items[..k]).outcome.Fail?
    ensures RunAll(step, init, items) == RunAll(step, init, items[..k])
    decreases |items|
  {
    if k < |items| {
      var front := items[..|items| - 1];
      assert front[..k] == items[..k];
      StaysFailed(step, init, front, k);
    } else {
      assert items[..k] == items;
    }
  }

  /** A run that never fails processes every element. */
  lemma {:induction false} PassingPrefix<S, T>(step: (S, T) -> Run<S>, init: S, items: seq<T>, i: nat)
    requires i < |items|
    requires RunAll(step, init, items[..i]).outcome.Pass?
    ensures RunAll(step, init, items[..i + 1]) == step(RunAll(step, init, items[..i]).state, items[i])
  {
    assert items[..i + 1][..i] == items[..i];
  }

  /** A single element is a single step. */
  lemma RunOne<S, T>(step: (S, T) -> Run<S>, init: S, item: T)
    ensures RunAll(step, init, [item]) == step(init, item)
  {
    assert [item][..0] == [];
  }
}
