/** Finite runs of a transition system given by its step relation. */
module Runs {

  ghost predicate IsRun<S(!new)>(next: (S, S) -> bool, run: seq<S>) {
    |run| > 0 && forall i :: 0 <= i < |run| - 1 ==> next(run[i], run[i + 1])
  }

  /** Some run leads from s to t. */
  ghost predicate Reaches<S(!new)>(next: (S, S) -> bool, s: S, t: S) {
    exists run :: IsRun(next, run) && run[0] == s && run[|run| - 1] == t
  }

  lemma ReachesSelf<S(!new)>(next: (S, S) -> bool, s: S)
    ensures Reaches(next, s, s)
  {
    assert IsRun(next, [s]) && [s][0] == s;
  }

  lemma ReachesStep<S(!new)>(next: (S, S) -> bool, s: S, t: S, u: S)
    requires Reaches(next, s, t) && next(t, u)
    ensures Reaches(next, s, u)
  {
    var run :| IsRun(next, run) && run[0] == s && run[|run| - 1] == t;
    var longer := run + [u];
    forall i | 0 <= i < |longer| - 1
      ensures next(longer[i], longer[i + 1])
    {
      if i < |run| - 1 {
        assert next(run[i], run[i + 1]);
      }
    }
    assert longer[|longer| - 1] == u;
  }
}
