/** Small value types shared by every component. */
module Common {

  datatype Option<+T> = None | Some(value: T)

  datatype Result<+T, +E> = Ok(value: T) | Err(error: E)

  /** What the caller of one remote command learns, and whether the command took effect. */
  datatype Reply =
    | Answered  // performed, and reported as performed
    | Rejected  // reported as failed, and nothing was done
    | Unheard   // reported as failed although it was performed

  function Max(a: int, b: int): int {
    if a < b then b else a
  }
}

/**
  Runs of a step system. A system is given by its partial step function `next`; a run is the
  sequence of steps taken, and `After` is the state it leads to (`None` when some step was not
  possible). `Obeys` restricts a run: every step satisfies `ok` in the state it is taken from.
 */
module Runs {
  import opened Common

  function After<S, T>(next: (S, T) -> Option<S>, s: S, steps: seq<T>): Option<S> {
    if steps == [] then Some(s) else
      match After(next, s, steps[..|steps| - 1])
      case None => None
      case Some(u) => next(u, steps[|steps| - 1])
  }

  ghost predicate Obeys<S, T>(next: (S, T) -> Option<S>, ok: (S, T) -> bool, s: S, steps: seq<T>) {
    steps != [] ==>
      && Obeys(next, ok, s, steps[..|steps| - 1])
      && match After(next, s, steps[..|steps| - 1])
         case None => true
         case Some(u) => ok(u, steps[|steps| - 1])
  }

  ghost predicate Inductive<S(!new), T(!new)>(next: (S, T) -> Option<S>, ok: (S, T) -> bool, inv: S -> bool) {
    forall s, t :: inv(s) && ok(s, t) && next(s, t).Some? ==> inv(next(s, t).value)
  }

  /** What every permitted step keeps holds after every permitted run. */
  lemma {:induction false} Invariance<S(!new), T(!new)>(
    next: (S, T) -> Option<S>, ok: (S, T) -> bool, inv: S -> bool, s: S, steps: seq<T>)
    requires inv(s)
    requires Inductive(next, ok, inv)
    requires Obeys(next, ok, s, steps)
    requires After(next, s, steps).Some?
    ensures inv(After(next, s, steps).value)
  {
    if steps != [] {
      Invariance(next, ok, inv, s, steps[..|steps| - 1]);
    }
  }

  ghost predicate Anything<S, T>(s: S, t: T) {
    true
  }

  lemma {:induction false} AnythingGoes<S(!new), T(!new)>(next: (S, T) -> Option<S>, s: S, steps: seq<T>)
    ensures Obeys(next, Anything, s, steps)
  {
    if steps != [] {
      AnythingGoes(next, s, steps[..|steps| - 1]);
    }
  }

  /** A run that takes one more step. */
  lemma Extend<S(!new), T(!new)>(next: (S, T) -> Option<S>, s: S, steps: seq<T>, t: T)
    requires After(next, s, steps).Some?
    ensures After(next, s, steps + [t]) == next(After(next, s, steps).value, t)
  {
    assert (steps + [t])[..|steps|] == steps;
  }

  /** The same, for building a particular run. */
  lemma Take<S(!new), T(!new)>(next: (S, T) -> Option<S>, s: S, steps: seq<T>, u: S, t: T)
    returns (steps': seq<T>, u': S)
    requires After(next, s, steps) == Some(u) && next(u, t).Some?
    ensures After(next, s, steps') == Some(u')
    ensures u' == next(u, t).value
  {
    Extend(next, s, steps, t);
    steps', u' := steps + [t], next(u, t).value;
  }

  lemma ExtendObeys<S(!new), T(!new)>(
    next: (S, T) -> Option<S>, ok: (S, T) -> bool, s: S, steps: seq<T>, t: T)
    requires After(next, s, steps).Some?
    requires Obeys(next, ok, s, steps)
    requires ok(After(next, s, steps).value, t)
    ensures Obeys(next, ok, s, steps + [t])
  {
    assert (steps + [t])[..|steps|] == steps;
  }

  /** A run that goes on where another left off. */
  lemma {:induction false} Then<S(!new), T(!new)>(next: (S, T) -> Option<S>, s: S, steps: seq<T>, u: S, more: seq<T>)
    requires After(next, s, steps) == Some(u)
    ensures After(next, s, steps + more) == After(next, u, more)
    decreases |more|
  {
    if more == [] {
      assert steps + more == steps;
    } else {
      var front := more[..|more| - 1];
      Then(next, s, steps, u, front);
      assert (steps + more)[..|steps + more| - 1] == steps + front;
    }
  }

  /** A state the run passed through, `from` steps into it or later. */
  ghost predicate Passed<S(!new), T(!new)>(next: (S, T) -> Option<S>, s: S, steps: seq<T>, from: nat, u: S) {
    exists k :: from <= k <= |steps| && After(next, s, steps[..k]) == Some(u)
  }

  lemma PassingNow<S(!new), T(!new)>(next: (S, T) -> Option<S>, s: S, steps: seq<T>, from: nat, u: S)
    requires After(next, s, steps) == Some(u) && from <= |steps|
    ensures Passed(next, s, steps, from, u)
  {
    assert steps[..|steps|] == steps;
  }

  lemma PassedBefore<S(!new), T(!new)>(
    next: (S, T) -> Option<S>, s: S, steps: seq<T>, from: nat, u: S, more: seq<T>, from': nat)
    requires Passed(next, s, steps, from, u) && steps <= more && from' <= from
    ensures Passed(next, s, more, from', u)
  {
    var k :| from <= k <= |steps| && After(next, s, steps[..k]) == Some(u);
    assert more[..k] == steps[..k];
  }

  /** The steps of a run that are somebody's own. */
  ghost function Own<T>(mine: T -> bool, steps: seq<T>): seq<T> {
    if steps == [] then [] else
      var last := steps[|steps| - 1];
      Own(mine, steps[..|steps| - 1]) + if mine(last) then [last] else []
  }

  lemma Chained<T>(a: seq<T>, b: seq<T>, c: seq<T>)
    ensures a + b + c == a + (b + c)
  {
  }

  lemma OwnSnoc<T>(mine: T -> bool, steps: seq<T>, t: T)
    ensures Own(mine, steps + [t]) == Own(mine, steps) + if mine(t) then [t] else []
  {
    assert (steps + [t])[..|steps|] == steps;
  }
}

/** Uniqueness of quotient and remainder. */
module Arithmetic {

  /** A multiple of `n` strictly between `-n` and `n` is zero. */
  lemma SmallMultiple(d: int, n: nat)
    requires d * n < n && -(d * n) < n
    ensures d == 0
  {
    var size := if d < 0 then -d else d;
    assert size * n < n;
    if size >= 1 {
      AtLeastOne(size, n);
      assert false;
    }
  }

  lemma {:induction false} AtLeastOne(d: int, n: nat)
    requires d >= 1
    ensures d * n >= n
  {
    if d > 1 {
      AtLeastOne(d - 1, n);
      assert d * n == (d - 1) * n + n;
    }
  }

  lemma DivMod(k: nat, n: nat, q: nat, r: nat)
    requires n > 0 && r < n && k == q * n + r
    ensures k / n == q && k % n == r
  {
    assert k == k / n * n + k % n;
    assert (q - k / n) * n == q * n - k / n * n;
    SmallMultiple(q - k / n, n);
  }

  lemma SameResidue(j: nat, k: nat, n: nat)
    requires n > 0 && j % n == k % n && j - k < n && k - j < n
    ensures j == k
  {
    assert j == j / n * n + j % n && k == k / n * n + k % n;
    assert (j / n - k / n) * n == j / n * n - k / n * n;
    SmallMultiple(j / n - k / n, n);
  }
}
