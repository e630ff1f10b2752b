/** The escape-time iteration z <- z^2 + c, started at z = c, over the reals
    as an idealisation of double-precision arithmetic. */
module Escape {

  /** One iteration z^2 + c, written as the loop computes it. */
  function Step(cr: real, ci: real, z: (real, real)): (next: (real, real))
  {
    (z.0 * z.0 - z.1 * z.1 + cr, 2.0 * z.0 * z.1 + ci)
  }

  /** The n-th point of the orbit of c = (cr, ci), as (real part, imaginary part). */
  function Orbit(cr: real, ci: real, n: nat): (z: (real, real))
  {
    if n == 0 then (cr, ci) else Step(cr, ci, Orbit(cr, ci, n - 1))
  }

  /** The escape test: squared magnitude at least 4, i.e. |z| >= 2. */
  predicate Escaped(z: (real, real))
  {
    z.0 * z.0 + z.1 * z.1 >= 4.0
  }

  /** The independent description of the loop's result: r is the first
      iteration whose orbit point has escaped, or the cap when none has. */
  ghost predicate IsFirstEscape(cr: real, ci: real, maxNumIterations: nat, r: nat)
  {
    && r <= maxNumIterations
    && (forall k :: 0 <= k < r ==> !Escaped(Orbit(cr, ci, k)))
    && (r < maxNumIterations ==> Escaped(Orbit(cr, ci, r)))
  }

  /** The escape loop continued from iteration i with current point z. The
      loop has two exits, written as two functions that call each other:
      the loop condition, which stops at the cap, ... */
  function EscapeFrom(cr: real, ci: real, z: (real, real), i: nat, maxNumIterations: nat): (r: nat)
    requires i <= maxNumIterations
    ensures i <= r <= maxNumIterations
    decreases maxNumIterations - i, 1
  {
    if i == maxNumIterations then i
    else EscapeTest(cr, ci, z, i, maxNumIterations)
  }

  /** ... and the escape test in the loop body, which stops as soon as the
      current point has escaped. */
  function EscapeTest(cr: real, ci: real, z: (real, real), i: nat, maxNumIterations: nat): (r: nat)
    requires i < maxNumIterations
    ensures i <= r <= maxNumIterations
    decreases maxNumIterations - i, 0
  {
    if Escaped(z) then i
    else EscapeFrom(cr, ci, Step(cr, ci, z), i + 1, maxNumIterations)
  }

  /** The iteration index the escape loop ends with, a palette index when
      the palette has maxNumIterations + 1 entries. */
  function EscapeIndex(cr: real, ci: real, maxNumIterations: nat): (r: nat)
    ensures r <= maxNumIterations
  {
    EscapeFrom(cr, ci, (cr, ci), 0, maxNumIterations)
  }

  /** A point outside the radius-2 disc stops the loop at once. */
  lemma EscapeIndexOutsideDisc(cr: real, ci: real, maxNumIterations: nat)
    requires cr * cr + ci * ci >= 4.0
    ensures EscapeIndex(cr, ci, maxNumIterations) == 0
  {
    if maxNumIterations > 0 {
      assert EscapeIndex(cr, ci, maxNumIterations) == EscapeTest(cr, ci, (cr, ci), 0, maxNumIterations);
    }
  }

  lemma {:induction false} EscapeFromIsFirstEscape(cr: real, ci: real, i: nat, maxNumIterations: nat)
    requires i <= maxNumIterations
    requires forall k :: 0 <= k < i ==> !Escaped(Orbit(cr, ci, k))
    ensures IsFirstEscape(cr, ci, maxNumIterations, EscapeFrom(cr, ci, Orbit(cr, ci, i), i, maxNumIterations))
    decreases maxNumIterations - i
  {
    if i < maxNumIterations && !Escaped(Orbit(cr, ci, i)) {
      EscapeFromIsFirstEscape(cr, ci, i + 1, maxNumIterations);
    }
  }

  /** Two indices that both meet the first-escape description are equal. */
  lemma FirstEscapeIsUnique(cr: real, ci: real, maxNumIterations: nat, r1: nat, r2: nat)
    requires IsFirstEscape(cr, ci, maxNumIterations, r1)
    requires IsFirstEscape(cr, ci, maxNumIterations, r2)
    ensures r1 == r2
  {
  }

  /** EscapeIndex is exactly the first escaping iteration (or the cap), and
      no other index is. */
  lemma EscapeIndexIsFirstEscape(cr: real, ci: real, maxNumIterations: nat, r: nat)
    ensures IsFirstEscape(cr, ci, maxNumIterations, r) <==> r == EscapeIndex(cr, ci, maxNumIterations)
  {
    EscapeFromIsFirstEscape(cr, ci, 0, maxNumIterations);
    if IsFirstEscape(cr, ci, maxNumIterations, r) {
      FirstEscapeIsUnique(cr, ci, maxNumIterations, r, EscapeIndex(cr, ci, maxNumIterations));
    }
  }

  /** No orbit point before the cap has escaped: the point is taken to lie in the set. */
  ghost predicate NeverEscapes(cr: real, ci: real, maxNumIterations: nat)
  {
    forall k :: 0 <= k < maxNumIterations ==> !Escaped(Orbit(cr, ci, k))
  }

  /** The loop ends on the cap exactly when the point never escaped within it. */
  lemma CapMeansNeverEscaped(cr: real, ci: real, maxNumIterations: nat)
    ensures EscapeIndex(cr, ci, maxNumIterations) == maxNumIterations <==> NeverEscapes(cr, ci, maxNumIterations)
  {
    EscapeIndexIsFirstEscape(cr, ci, maxNumIterations, EscapeIndex(cr, ci, maxNumIterations));
  }

  /** The orbit of the origin stays at the origin. */
  lemma {:induction false} OriginOrbit(n: nat)
    ensures Orbit(0.0, 0.0, n) == (0.0, 0.0)
  {
    if n > 0 {
      OriginOrbit(n - 1);
    }
  }

  /** The origin never escapes, so the loop runs to the cap: it is drawn
      with the in-set colour whatever the cap. */
  lemma OriginReachesCap(maxNumIterations: nat)
    ensures EscapeIndex(0.0, 0.0, maxNumIterations) == maxNumIterations
  {
    forall k | 0 <= k < maxNumIterations ensures !Escaped(Orbit(0.0, 0.0, k)) {
      OriginOrbit(k);
    }
    CapMeansNeverEscaped(0.0, 0.0, maxNumIterations);
  }

  /** The escape loop of calculateAndFillSquare. */
  method Iterate(cr: real, ci: real, maxNumIterations: nat) returns (i: nat)
    ensures IsFirstEscape(cr, ci, maxNumIterations, i)
    ensures i == EscapeIndex(cr, ci, maxNumIterations)
  {
    var zr := cr;
    var zi := ci;
    i := 0;
    while i < maxNumIterations
      invariant i <= maxNumIterations
      invariant EscapeFrom(cr, ci, (zr, zi), i, maxNumIterations) == EscapeIndex(cr, ci, maxNumIterations)
    {
      var zr2 := zr * zr;
      var zi2 := zi * zi;
      if zr2 + zi2 >= 4.0 {
        assert Escaped((zr, zi));
        assert EscapeFrom(cr, ci, (zr, zi), i, maxNumIterations) == i;
        break;
      }
      ghost var z := (zr, zi);
      assert !Escaped(z);
      var tempzr := zr2 - zi2 + cr;
      zi := 2.0 * zr * zi + ci;
      zr := tempzr;
      assert zr == Step(cr, ci, z).0 && zi == Step(cr, ci, z).1;
      i := i + 1;
    }
    EscapeIndexIsFirstEscape(cr, ci, maxNumIterations, i);
  }
}
