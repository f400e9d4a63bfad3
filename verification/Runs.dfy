/** Runs of a step relation, and what holds over every one of them. */
module Runs {
  ghost predicate Run<S(!new), T>(next: (S, T, S) -> bool, s: S, steps: seq<T>, t: S)
    decreases |steps|
  {
    if steps == [] then s == t
    else exists m: S :: next(s, steps[0], m) && Run(next, m, steps[1..], t)
  }

  ghost predicate Reachable<S(!new), T(!new)>(init: S -> bool, next: (S, T, S) -> bool, s: S) {
    exists i: S, steps: seq<T> :: init(i) && Run(next, i, steps, s)
  }

  /** What every step keeps, every run keeps. */
  lemma {:induction false} Keeps<S(!new), T(!new)>(next: (S, T, S) -> bool, inv: S -> bool, s: S, steps: seq<T>, t: S)
    requires forall a: S, step: T, b: S :: inv(a) && next(a, step, b) ==> inv(b)
    requires inv(s) && Run(next, s, steps, t)
    ensures inv(t)
    decreases |steps|
  {
    if steps != [] {
      var m: S :| next(s, steps[0], m) && Run(next, m, steps[1..], t);
      Keeps(next, inv, m, steps[1..], t);
    }
  }

  lemma Prepend<S(!new), T>(next: (S, T, S) -> bool, s: S, step: T, m: S, rest: seq<T>, t: S)
    requires next(s, step, m) && Run(next, m, rest, t)
    ensures Run(next, s, [step] + rest, t)
  {
    assert ([step] + rest)[1..] == rest;
  }

  lemma {:induction false} Append<S(!new), T>(next: (S, T, S) -> bool, s: S, steps: seq<T>, m: S, step: T, t: S)
    requires Run(next, s, steps, m) && next(m, step, t)
    ensures Run(next, s, steps + [step], t)
    decreases |steps|
  {
    if steps == [] {
      assert [step][1..] == [];
      assert Run(next, t, [], t);
    } else {
      var n: S :| next(s, steps[0], n) && Run(next, n, steps[1..], m);
      Append(next, n, steps[1..], m, step, t);
      assert (steps + [step])[1..] == steps[1..] + [step];
    }
  }

  /** What holds at the start and every step keeps, holds wherever a run can get. */
  lemma Everywhere<S(!new), T(!new)>(init: S -> bool, next: (S, T, S) -> bool, inv: S -> bool, s: S)
    requires forall a: S :: init(a) ==> inv(a)
    requires forall a: S, step: T, b: S :: inv(a) && next(a, step, b) ==> inv(b)
    requires Reachable(init, next, s)
    ensures inv(s)
  {
    var i: S, steps: seq<T> :| init(i) && Run(next, i, steps, s);
    Keeps(next, inv, i, steps, s);
  }

  lemma First<S(!new), T>(next: (S, T, S) -> bool, s: S, steps: seq<T>, t: S) returns (m: S)
    requires steps != [] && Run(next, s, steps, t)
    ensures next(s, steps[0], m) && Run(next, m, steps[1..], t)
  {
    m :| next(s, steps[0], m) && Run(next, m, steps[1..], t);
  }

  lemma {:induction false} Last<S(!new), T>(next: (S, T, S) -> bool, s: S, steps: seq<T>, t: S) returns (m: S)
    requires steps != [] && Run(next, s, steps, t)
    ensures Run(next, s, steps[..|steps| - 1], m) && next(m, steps[|steps| - 1], t)
    decreases |steps|
  {
    var n := First(next, s, steps, t);
    if |steps| == 1 {
      m := s;
    } else {
      m := Last(next, n, steps[1..], t);
      var init := steps[..|steps| - 1];
      assert init[1..] == steps[1..][..|steps| - 2];
    }
  }

  lemma Starts<S(!new), T(!new)>(init: S -> bool, next: (S, T, S) -> bool, s: S)
    requires init(s)
    ensures Reachable(init, next, s)
  {
    assert Run(next, s, [], s);
  }

  lemma Arrives<S(!new), T(!new)>(init: S -> bool, next: (S, T, S) -> bool, s: S, steps: seq<T>, t: S)
    requires init(s) && Run(next, s, steps, t)
    ensures Reachable(init, next, t)
  {
  }

  lemma Further<S(!new), T(!new)>(init: S -> bool, next: (S, T, S) -> bool, s: S, step: T, t: S)
    requires Reachable(init, next, s) && next(s, step, t)
    ensures Reachable(init, next, t)
  {
    var i: S, steps: seq<T> :| init(i) && Run(next, i, steps, s);
    Append(next, i, steps, s, step, t);
  }
}
