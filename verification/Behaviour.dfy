/** What an outside observer sees of a run, and when two programs cannot be told apart. */
module Behaviour {
  import opened Semantics

  /** What is seen after some number of steps: a run that is still going, that has ended, or that was
      stopped by a runtime error, each with the variables and the writes so far. */
  datatype Obs = Going(st: State) | Done(st: State) | Crashed(st: State)

  type Behaviour = nat -> Obs

  /** `q` shows everything that `p` shows: a run that is going on may have advanced further. */
  ghost predicate Covers(p: Obs, q: Obs) {
    match p
    case Going(s) => s.trace <= q.st.trace
    case _ => q == p
  }

  ghost predicate CoveredBy(p: Obs, b: Behaviour) {
    exists m: nat :: Covers(p, b(m))
  }

  /** Everything that can be observed of `a` can be observed of `b`. */
  ghost predicate Refines(a: Behaviour, b: Behaviour) {
    forall n: nat {:trigger CoveredBy(a(n), b)} :: CoveredBy(a(n), b)
  }

  /** The same writes in the same order, the same final variables, the same errors. */
  ghost predicate Equivalent(a: Behaviour, b: Behaviour) {
    Refines(a, b) && Refines(b, a)
  }

  ghost predicate ErrorFree(a: Behaviour) {
    forall n: nat :: !a(n).Crashed?
  }

  ghost predicate CanCrash(a: Behaviour) {
    exists n: nat :: a(n).Crashed?
  }

  /** `a` and `b` fail in the same cases, and are equivalent when they do not fail. */
  ghost predicate EquivalentUnlessError(a: Behaviour, b: Behaviour) {
    && (CanCrash(a) <==> CanCrash(b))
    && (ErrorFree(a) ==> Equivalent(a, b))
  }

  lemma CoversTransitive(p: Obs, q: Obs, r: Obs)
    requires Covers(p, q) && Covers(q, r)
    ensures Covers(p, r)
  {
  }

  lemma RefinesTransitive(a: Behaviour, b: Behaviour, c: Behaviour)
    requires Refines(a, b) && Refines(b, c)
    ensures Refines(a, c)
  {
    forall n: nat ensures CoveredBy(a(n), c) {
      assert CoveredBy(a(n), b);
      var m: nat :| Covers(a(n), b(m));
      assert CoveredBy(b(m), c);
      var k: nat :| Covers(b(m), c(k));
      CoversTransitive(a(n), b(m), c(k));
    }
  }

  lemma EquivalentTransitive(a: Behaviour, b: Behaviour, c: Behaviour)
    requires Equivalent(a, b) && Equivalent(b, c)
    ensures Equivalent(a, c)
  {
    RefinesTransitive(a, b, c);
    RefinesTransitive(c, b, a);
  }

  /** Equivalent programs crash in the same cases. */
  lemma EquivalentCrashes(a: Behaviour, b: Behaviour)
    requires Equivalent(a, b)
    ensures CanCrash(a) <==> CanCrash(b)
  {
    if CanCrash(a) {
      var n: nat :| a(n).Crashed?;
      assert CoveredBy(a(n), b);
    }
    if CanCrash(b) {
      var n: nat :| b(n).Crashed?;
      assert CoveredBy(b(n), a);
    }
  }

  lemma EquivalentUnlessErrorThen(a: Behaviour, b: Behaviour, c: Behaviour)
    requires EquivalentUnlessError(a, b) && Equivalent(b, c)
    ensures EquivalentUnlessError(a, c)
  {
    EquivalentCrashes(b, c);
    if ErrorFree(a) {
      EquivalentTransitive(a, b, c);
    }
  }

  /** `q` runs in fewer steps than `p`: what `q` shows after n steps, `p` shows after m(n) >= n steps. */
  ghost predicate Lags(p: Behaviour, q: Behaviour) {
    forall n: nat {:trigger ShownLater(p, n, q(n))} :: ShownLater(p, n, q(n))
  }

  ghost predicate ShownLater(p: Behaviour, n: nat, o: Obs) {
    exists m: nat :: m >= n && p(m) == o
  }

  ghost predicate Monotone(p: Behaviour) {
    forall n: nat, m: nat {:trigger Covers(p(n), p(m))} :: n <= m ==> Covers(p(n), p(m))
  }

  lemma LagEquivalent(p: Behaviour, q: Behaviour)
    requires Lags(p, q) && Monotone(p)
    ensures Equivalent(p, q)
  {
    forall n: nat ensures CoveredBy(p(n), q) && CoveredBy(q(n), p) {
      assert ShownLater(p, n, q(n));
      var m: nat :| m >= n && p(m) == q(n);
      assert Covers(p(n), p(m));
      assert Covers(q(n), p(m));
    }
  }
}
