/** The escape-time recurrence z(n+1) = z(n)^2 + C and the count of updates
    before its orbit leaves the disc of radius 2, capped at an iteration
    limit. */
module Escape {
  import opened ComplexNumbers

  /** One step of the recurrence: z^2 + C. */
  function IterFormula(constant: Complex, z: Complex): Complex
  {
    Add(Square(z), constant)
  }

  /** For z = a+bi and C = c+di the step gives (a^2 - b^2 + c) + (2ab + d)i,
      and it commutes with conjugation. */
  lemma IterFormulaParts(constant: Complex, z: Complex)
    ensures IterFormula(constant, z).re == z.re * z.re - z.im * z.im + constant.re
    ensures IterFormula(constant, z).im == 2.0 * z.re * z.im + constant.im
    ensures IterFormula(Conj(constant), Conj(z)) == Conj(IterFormula(constant, z))
  {
  }

  /** z_k of the orbit that starts at z_0 = `start` and adds `constant`
      after each squaring. */
  function Orbit(constant: Complex, start: Complex, k: nat): Complex
  {
    if k == 0 then start else IterFormula(constant, Orbit(constant, start, k - 1))
  }

  /** The escape count, defined by peeling one step off the front of the
      orbit: 0 if the current value is already outside the disc or no update
      is left, otherwise one more than the count of the orbit that starts one
      step later with one update fewer. */
  function EscapeTime(constant: Complex, z: Complex, limit: nat): (r: nat)
    ensures r <= limit
    ensures Escapes(z) ==> r == 0
    decreases limit
  {
    if Escapes(z) then 0
    else if limit == 0 then 0
    else 1 + EscapeTime(constant, IterFormula(constant, z), limit - 1)
  }

  /** `n` is the first index below `limit` at which the orbit is outside the
      disc, or `limit` when no such index exists. */
  ghost predicate IsEscapeCount(constant: Complex, start: Complex, limit: nat, n: int)
  {
    0 <= n <= limit
    && (forall i: nat :: i < n ==> !Escapes(Orbit(constant, start, i)))
    && (n < limit ==> Escapes(Orbit(constant, start, n)))
  }

  /** Starting the orbit one step later shifts every index by one. */
  lemma {:induction false} OrbitShift(constant: Complex, start: Complex, k: nat)
    ensures Orbit(constant, IterFormula(constant, start), k) == Orbit(constant, start, k + 1)
  {
    if k > 0 {
      OrbitShift(constant, start, k - 1);
    }
  }

  /** The count is the first escape index: every orbit value before it is
      inside the disc, and below the limit the value at it is outside. */
  lemma {:induction false} EscapeTimeIsFirstEscape(constant: Complex, start: Complex, limit: nat)
    ensures IsEscapeCount(constant, start, limit, EscapeTime(constant, start, limit))
    decreases limit
  {
    var n := EscapeTime(constant, start, limit);
    if !Escapes(start) && limit > 0 {
      var next := IterFormula(constant, start);
      var m := EscapeTime(constant, next, limit - 1);
      assert n == m + 1;
      EscapeTimeIsFirstEscape(constant, next, limit - 1);
      forall i: nat | i < n
        ensures !Escapes(Orbit(constant, start, i))
      {
        if i > 0 {
          OrbitShift(constant, start, i - 1);
          assert !Escapes(Orbit(constant, next, i - 1));
        }
      }
      if n < limit {
        OrbitShift(constant, start, m);
        assert Escapes(Orbit(constant, next, m));
      }
    }
  }

  /** The first-escape characterisation determines the count: a number is
      the first escape index exactly when it equals `EscapeTime`. */
  lemma EscapeCountIff(constant: Complex, start: Complex, limit: nat, n: int)
    ensures IsEscapeCount(constant, start, limit, n) <==> n == EscapeTime(constant, start, limit)
  {
    EscapeTimeIsFirstEscape(constant, start, limit);
  }

  /** An orbit that stays inside the disc for the first `limit` values
      gives `limit`, whatever the value at index `limit` is. */
  lemma NoEarlyEscapeGivesLimit(constant: Complex, start: Complex, limit: nat)
    requires forall i: nat :: i < limit ==> !Escapes(Orbit(constant, start, i))
    ensures EscapeTime(constant, start, limit) == limit
  {
    EscapeTimeIsFirstEscape(constant, start, limit);
  }

  /** The count is ambiguous at the limit: C = 2 has |z_0| = 2 (not
      outside) and z_1 = 6 (outside), so with limit 1 it reports 1, the same
      value as a point that never escapes; with a larger limit it reports the
      same escape index 1. */
  lemma EscapeAtLimitReportsLimit()
    ensures !Escapes(Orbit(Complex(2.0, 0.0), Complex(2.0, 0.0), 0))
    ensures Escapes(Orbit(Complex(2.0, 0.0), Complex(2.0, 0.0), 1))
    ensures EscapeTime(Complex(2.0, 0.0), Complex(2.0, 0.0), 1) == 1
    ensures EscapeTime(Complex(2.0, 0.0), Complex(2.0, 0.0), 5) == 1
  {
    var c := Complex(2.0, 0.0);
    assert IterFormula(c, c) == Complex(6.0, 0.0);
  }

  /** The orbit of the origin under C = 0 stays at the origin. */
  lemma {:induction false} OrbitOfOrigin(k: nat)
    ensures Orbit(Zero, Zero, k) == Zero
  {
    if k > 0 {
      OrbitOfOrigin(k - 1);
    }
  }

  /** The origin never escapes, so its count is the limit. */
  lemma OriginReachesLimit(limit: nat)
    ensures EscapeTime(Zero, Zero, limit) == limit
  {
    forall i: nat | i < limit
      ensures !Escapes(Orbit(Zero, Zero, i))
    {
      OrbitOfOrigin(i);
    }
    NoEarlyEscapeGivesLimit(Zero, Zero, limit);
  }

  /** The orbit of the conjugate is the conjugate of the orbit. */
  lemma {:induction false} OrbitConj(constant: Complex, start: Complex, k: nat)
    ensures Orbit(Conj(constant), Conj(start), k) == Conj(Orbit(constant, start, k))
  {
    if k > 0 {
      OrbitConj(constant, start, k - 1);
      IterFormulaParts(constant, Orbit(constant, start, k - 1));
    }
  }

  /** Conjugation does not change the count: the set is symmetric about the
      real axis. */
  lemma {:induction false} EscapeTimeConj(constant: Complex, z: Complex, limit: nat)
    ensures EscapeTime(Conj(constant), Conj(z), limit) == EscapeTime(constant, z, limit)
    decreases limit
  {
    ConjNormSq(z);
    IterFormulaParts(constant, z);
    if !Escapes(z) && limit > 0 {
      EscapeTimeConj(constant, IterFormula(constant, z), limit - 1);
    }
  }
}
