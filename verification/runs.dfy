/** Runs of a state machine given by a total step function, and induction over them. */
module Runs {

  ghost function Run<S, E>(step: (S, E) -> S, s: S, es: seq<E>): S
    decreases |es|
  {
    if es == [] then s else Run(step, step(s, es[0]), es[1..])
  }

  /** Every event of the run is allowed in the state it meets. */
  ghost predicate Admissible<S, E>(step: (S, E) -> S, ok: (S, E) -> bool, s: S, es: seq<E>)
    decreases |es|
  {
    es == [] || (ok(s, es[0]) && Admissible(step, ok, step(s, es[0]), es[1..]))
  }

  /** Puts no condition on the events of a run. */
  ghost predicate Always<S, E>(s: S, e: E) { true }

  lemma {:induction false} AllAdmissible<S, E>(step: (S, E) -> S, s: S, es: seq<E>)
    ensures Admissible(step, Always, s, es)
    decreases |es|
  {
    if es != [] { AllAdmissible(step, step(s, es[0]), es[1..]); }
  }

  lemma {:induction false} Append<S, E>(step: (S, E) -> S, s: S, es: seq<E>, fs: seq<E>)
    ensures Run(step, s, es + fs) == Run(step, Run(step, s, es), fs)
    decreases |es|
  {
    if es == [] {
      assert es + fs == fs;
    } else {
      assert (es + fs)[1..] == es[1..] + fs;
      Append(step, step(s, es[0]), es[1..], fs);
    }
  }

  lemma {:induction false} AdmissibleAppend<S, E>(
    step: (S, E) -> S, ok: (S, E) -> bool, s: S, es: seq<E>, fs: seq<E>)
    ensures Admissible(step, ok, s, es + fs)
       <==> Admissible(step, ok, s, es) && Admissible(step, ok, Run(step, s, es), fs)
    decreases |es|
  {
    if es == [] {
      assert es + fs == fs;
    } else {
      assert (es + fs)[1..] == es[1..] + fs;
      AdmissibleAppend(step, ok, step(s, es[0]), es[1..], fs);
    }
  }

  lemma OneAdmissible<S, E>(step: (S, E) -> S, ok: (S, E) -> bool, s: S, e: E)
    requires ok(s, e)
    ensures Admissible(step, ok, s, [e])
  {
    assert [e][1..] == [];
    assert Admissible(step, ok, step(s, e), []);
  }

  lemma TwoAdmissible<S, E>(step: (S, E) -> S, ok: (S, E) -> bool, s: S, a: E, b: E)
    requires ok(s, a) && ok(step(s, a), b)
    ensures Admissible(step, ok, s, [a, b])
  {
    OneAdmissible(step, ok, s, a);
    OneAdmissible(step, ok, step(s, a), b);
    One(step, s, a);
    AdmissibleAppend(step, ok, s, [a], [b]);
    assert [a] + [b] == [a, b];
  }

  lemma Last<S, E>(step: (S, E) -> S, s: S, es: seq<E>)
    requires es != []
    ensures Run(step, s, es) == step(Run(step, s, es[..|es| - 1]), es[|es| - 1])
  {
    var front, last := es[..|es| - 1], es[|es| - 1];
    assert es == front + [last];
    Append(step, s, front, [last]);
    One(step, Run(step, s, front), last);
  }

  lemma One<S, E>(step: (S, E) -> S, s: S, e: E)
    ensures Run(step, s, [e]) == step(s, e)
  {
    assert [e][1..] == [];
    assert Run(step, step(s, e), []) == step(s, e);
  }

  lemma Two<S, E>(step: (S, E) -> S, s: S, a: E, b: E)
    ensures Run(step, s, [a, b]) == step(step(s, a), b)
  {
    Append(step, s, [a], [b]);
    One(step, s, a);
    One(step, step(s, a), b);
    assert [a] + [b] == [a, b];
  }

  lemma Three<S, E>(step: (S, E) -> S, s: S, a: E, b: E, c: E)
    ensures Run(step, s, [a, b, c]) == step(step(step(s, a), b), c)
  {
    Append(step, s, [a, b], [c]);
    Two(step, s, a, b);
    One(step, step(step(s, a), b), c);
    assert [a, b] + [c] == [a, b, c];
  }

  /** An invariant of the admissible steps holds at the end of every admissible run. */
  lemma {:induction false} Invariance<S(!new), E(!new)>(
    step: (S, E) -> S, ok: (S, E) -> bool, inv: S -> bool, s: S, es: seq<E>)
    requires forall t, e :: inv(t) && ok(t, e) ==> inv(step(t, e))
    requires inv(s) && Admissible(step, ok, s, es)
    ensures inv(Run(step, s, es))
    decreases |es|
  {
    if es != [] {
      Invariance(step, ok, inv, step(s, es[0]), es[1..]);
    }
  }

  /** A reflexive and transitive relation kept by the admissible steps relates both ends of a run. */
  lemma {:induction false} Monotonicity<S(!new), E(!new)>(
    step: (S, E) -> S, ok: (S, E) -> bool, inv: S -> bool, rel: (S, S) -> bool, s: S, es: seq<E>)
    requires forall t, e :: inv(t) && ok(t, e) ==> inv(step(t, e)) && rel(t, step(t, e))
    requires (forall t :: rel(t, t)) && forall t, u, v :: rel(t, u) && rel(u, v) ==> rel(t, v)
    requires inv(s) && Admissible(step, ok, s, es)
    ensures inv(Run(step, s, es)) && rel(s, Run(step, s, es))
    decreases |es|
  {
    if es != [] {
      Monotonicity(step, ok, inv, rel, step(s, es[0]), es[1..]);
    }
  }

  /**
   * A property that an invariant implies, and that the first disallowed step breaks, holds after every
   * prefix of a run exactly when the whole run is admissible.
   */
  lemma {:induction false} PrefixesExactly<S(!new), E(!new)>(
    step: (S, E) -> S, ok: (S, E) -> bool, inv: S -> bool, good: S -> bool, s: S, es: seq<E>)
    requires forall t, e :: inv(t) && ok(t, e) ==> inv(step(t, e))
    requires forall t :: inv(t) ==> good(t)
    requires forall t, e :: inv(t) && !ok(t, e) ==> !good(step(t, e))
    requires inv(s)
    ensures (forall k: nat :: k <= |es| ==> good(Run(step, s, es[..k]))) <==> Admissible(step, ok, s, es)
    decreases |es|
  {
    assert es[..0] == [] && Run(step, s, es[..0]) == s;
    if es != [] {
      One(step, s, es[0]);
      assert es[..1] == [es[0]];
      if ok(s, es[0]) {
        PrefixesExactly(step, ok, inv, good, step(s, es[0]), es[1..]);
        ShiftPrefixes(step, good, s, es);
      } else {
        assert !good(Run(step, s, es[..1]));
      }
    }
  }

  lemma ShiftPrefixes<S(!new), E(!new)>(step: (S, E) -> S, good: S -> bool, s: S, es: seq<E>)
    requires es != [] && good(s)
    ensures (forall k: nat :: k <= |es| ==> good(Run(step, s, es[..k])))
       <==> (forall k: nat :: k <= |es| - 1 ==> good(Run(step, step(s, es[0]), es[1..][..k])))
  {
    var t, rest := step(s, es[0]), es[1..];
    assert es[..0] == [] && Run(step, s, es[..0]) == s;
    forall k: nat | k < |es| ensures Run(step, s, es[..k + 1]) == Run(step, t, rest[..k]) {
      assert es[..k + 1][1..] == rest[..k] && es[..k + 1][0] == es[0];
    }
    hide Run;
    if forall k: nat :: k <= |es| ==> good(Run(step, s, es[..k])) {
      forall k: nat | k <= |rest| ensures good(Run(step, t, rest[..k])) {
        assert good(Run(step, s, es[..k + 1]));
      }
    }
    if forall k: nat :: k <= |rest| ==> good(Run(step, t, rest[..k])) {
      forall k: nat | k <= |es| ensures good(Run(step, s, es[..k])) {
        if k > 0 { assert good(Run(step, t, rest[..k - 1])); }
      }
    }
  }
}
