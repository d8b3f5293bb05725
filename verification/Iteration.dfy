/** Repeating one state change. */
module Iteration {
  ghost function Iterate<S>(f: S -> S, s: S, n: nat): S {
    if n == 0 then s else f(Iterate(f, s, n - 1))
  }

  lemma {:induction false} FromFront<S>(f: S -> S, s: S, n: nat)
    requires n > 0
    ensures Iterate(f, s, n) == Iterate(f, f(s), n - 1)
  {
    if n > 1 { FromFront(f, s, n - 1); }
  }

  lemma {:induction false} FixpointStays<S>(f: S -> S, s: S, n: nat)
    requires f(s) == s
    ensures Iterate(f, s, n) == s
  {
    if n > 0 { FixpointStays(f, s, n - 1); }
  }

  lemma {:induction false} Adds<S>(f: S -> S, s: S, m: nat, n: nat)
    ensures Iterate(f, s, m + n) == Iterate(f, Iterate(f, s, m), n)
  {
    if n > 0 { Adds(f, s, m, n - 1); }
  }

  /** `f` keeps the invariant and, where it does not settle, lowers the measure. */
  ghost predicate Progresses<S(!new)>(f: S -> S, inv: S -> bool, measure: S -> nat) {
    forall x, y :: inv(x) && y == f(x) ==> inv(y) && (y == x || f(y) == y || measure(y) < measure(x))
  }

  /** Then repeating `f` more often than the measure reaches a fixpoint, which further repetitions keep. */
  lemma {:induction false} Settles<S(!new)>(f: S -> S, inv: S -> bool, measure: S -> nat, s: S, n: nat)
    requires Progresses(f, inv, measure) && inv(s) && n > measure(s)
    ensures f(Iterate(f, s, n)) == Iterate(f, s, n)
    decreases n
  {
    var t := f(s);
    assert inv(t) && (t == s || f(t) == t || measure(t) < measure(s));
    FromFront(f, s, n);
    if t == s {
      FixpointStays(f, s, n);
    } else if f(t) == t {
      FixpointStays(f, t, n - 1);
    } else {
      Settles(f, inv, measure, t, n - 1);
    }
  }

  /** From the n-th repetition on, nothing changes any more. */
  ghost predicate StableFrom<S>(f: S -> S, s: S, n: nat) {
    forall m: nat :: m >= n ==> Iterate(f, s, m) == Iterate(f, s, n)
  }

  lemma SettlesForGood<S(!new)>(f: S -> S, inv: S -> bool, measure: S -> nat, s: S, n: nat)
    requires Progresses(f, inv, measure) && inv(s) && n > measure(s)
    ensures StableFrom(f, s, n)
  {
    Settles(f, inv, measure, s, n);
    forall m: nat | m >= n ensures Iterate(f, s, m) == Iterate(f, s, n) {
      Adds(f, s, n, m - n);
      FixpointStays(f, Iterate(f, s, n), m - n);
    }
  }
}
