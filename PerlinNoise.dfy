/**
 * The 2D gradient-noise generator: a doubled 512-entry permutation table and
 * the pure sampling function `Noise` built from `Fade`, `Lerp` and `Grad`.
 * Single-precision floats are modelled as mathematical reals; C++'s `n & 255`
 * and `n & 3` on an `int` are written as Dafny's Euclidean `n % 256` and
 * `n % 4`, which agree with two's-complement masking for every integer.
 */
module PerlinNoise {

  /** Number of distinct lattice cells along each axis before the pattern repeats. */
  const Period: int := 256

  /** Length of the doubled permutation table. */
  const TableLength: int := 512

  /** The quintic ease curve in the source's Horner form t^3 (t (6t - 15) + 10). */
  function Fade(t: real): (r: real)
    ensures t == 0.0 ==> r == 0.0
    ensures t == 1.0 ==> r == 1.0
  {
    t * t * t * (t * (t * 6.0 - 15.0) + 10.0)
  }

  /** Linear interpolation from `a` (at t = 0) to `b` (at t = 1). */
  function Lerp(t: real, a: real, b: real): (r: real)
    ensures t == 0.0 ==> r == a
    ensures t == 1.0 ==> r == b
    ensures 0.0 <= t <= 1.0 && a <= b ==> a <= r <= b
  {
    assert 0.0 <= t <= 1.0 && a <= b ==> 0.0 <= t * (b - a) <= b - a by {
      if 0.0 <= t <= 1.0 && a <= b {
        var d := b - a;
        assert 0.0 <= t * d;
        var s := 1.0 - t;
        assert 0.0 <= s * d;
        assert t * d == d - s * d;
      }
    }
    a + t * (b - a)
  }

  /**
   * Dot product of (x, y) with one of the gradients selected by the two low
   * bits of `hash`: bit 0 negates the first term, bit 1 swaps the axes and
   * negates the second term.
   */
  function Grad(hash: int, x: real, y: real): (r: real)
    ensures hash % 4 == 0 ==> r == x + y
    ensures hash % 4 == 1 ==> r == y - x
    ensures hash % 4 == 2 ==> r == y - x
    ensures hash % 4 == 3 ==> r == -x - y
  {
    var h := hash % 4;
    var u := if h < 2 then x else y;
    var v := if h < 2 then y else x;
    (if h % 2 == 0 then u else -u) + (if (h / 2) % 2 == 0 then v else -v)
  }

  /** Integer cell coordinate `(int)floor(c) & 255`. */
  function CellIndex(c: real): (i: int)
    ensures 0 <= i < Period
    ensures (c.Floor - i) % Period == 0
  {
    c.Floor % Period
  }

  /** Position of `c` inside its unit cell, `c - floor(c)`. */
  function Frac(c: real): (f: real)
    ensures 0.0 <= f < 1.0
    ensures (c - f).Floor as real == c - f
  {
    c - c.Floor as real
  }

  /** Shifting a coordinate by a whole period keeps its cell index and its offset in the cell. */
  lemma ShiftByPeriod(c: real)
    ensures CellIndex(c + Period as real) == CellIndex(c)
    ensures Frac(c + Period as real) == Frac(c)
  {
    var f := c.Floor;
    assert (c + Period as real).Floor == f + Period by {
      assert (f + Period) as real <= c + Period as real < (f + Period) as real + 1.0;
    }
  }

  /** An integer coordinate sits on a lattice corner: offset zero, cell index `n mod 256`. */
  lemma LatticePoint(n: int)
    ensures Frac(n as real) == 0.0
    ensures CellIndex(n as real) == n % Period
  {
    assert (n as real).Floor == n;
  }

  /**
   * Four-way ease-and-blend of the corner gradients, before the final remap to
   * [0, 1]; `fx` and `fy` are the offsets inside the cell.
   */
  function Blend(aa: int, ab: int, ba: int, bb: int, fx: real, fy: real): real
  {
    var u := Fade(fx);
    var v := Fade(fy);
    Lerp(v, Lerp(u, Grad(aa, fx, fy), Grad(ba, fx - 1.0, fy)),
            Lerp(u, Grad(ab, fx, fy - 1.0), Grad(bb, fx - 1.0, fy - 1.0)))
  }

  class PerlinNoise {
    /** The permutation table, doubled so that `p[p[X + 1] + Y + 1]` never wraps. */
    var p: array<int>

    ghost predicate Valid()
      reads this, p
    {
      && p.Length == TableLength
      && (forall i :: 0 <= i < TableLength ==> 0 <= p[i] < Period)
      && (forall i :: 0 <= i < Period ==> p[Period + i] == p[i])
    }

    /** Copies the 256 permutation entries into both halves of a fresh 512-entry table. */
    constructor (permutation: seq<int>)
      requires |permutation| == Period
      requires forall i :: 0 <= i < Period ==> 0 <= permutation[i] < Period
      ensures Valid() && fresh(p)
      ensures p[..Period] == permutation && p[Period..] == permutation
    {
      var table := new int[TableLength](_ => 0);
      for i := 0 to Period
        invariant forall k :: 0 <= k < i ==> table[k] == permutation[k] && table[Period + k] == permutation[k]
      {
        table[Period + i] := permutation[i];
        table[i] := permutation[i];
      }
      assert table[..Period] == permutation;
      assert table[Period..] == permutation;
      p := table;
    }

    /**
     * Hash of the lattice corner `(i, j)` of the current cell: the double
     * lookup `p[p[i] + j]`. With `i, j <= 256` both reads stay inside [0, 511].
     */
    function CornerHash(i: int, j: int): (h: int)
      reads this, p
      requires Valid()
      requires 0 <= i <= Period && 0 <= j <= Period
      ensures 0 <= h < Period
      ensures h == p[p[i] + j] && p[i] + j < TableLength
    {
      p[p[i] + j]
    }

    /** Gradient noise at (x, y), remapped from the raw blend r to (r + 1) / 2. */
    function Noise(x: real, y: real): real
      reads this, p
      requires Valid()
    {
      var X := CellIndex(x);
      var Y := CellIndex(y);
      var aa := CornerHash(X, Y);
      var ab := CornerHash(X, Y + 1);
      var ba := CornerHash(X + 1, Y);
      var bb := CornerHash(X + 1, Y + 1);
      (Blend(aa, ab, ba, bb, Frac(x), Frac(y)) + 1.0) / 2.0
    }

    /** At every integer lattice point all four blends collapse to grad(aa, 0, 0) = 0. */
    lemma NoiseAtLattice(m: int, n: int)
      requires Valid()
      ensures Noise(m as real, n as real) == 0.5
    {
      LatticePoint(m);
      LatticePoint(n);
    }

    /** The field repeats with period 256 along x. */
    lemma NoisePeriodicX(x: real, y: real)
      requires Valid()
      ensures Noise(x + Period as real, y) == Noise(x, y)
    {
      ShiftByPeriod(x);
    }

    /** The field repeats with period 256 along y. */
    lemma NoisePeriodicY(x: real, y: real)
      requires Valid()
      ensures Noise(x, y + Period as real) == Noise(x, y)
    {
      ShiftByPeriod(y);
    }

    /** Sampling depends on the table's contents only, never on the object holding it. */
    lemma NoiseDependsOnlyOnTable(other: PerlinNoise, x: real, y: real)
      requires Valid() && other.Valid()
      requires p[..] == other.p[..]
      ensures Noise(x, y) == other.Noise(x, y)
    {
      assert forall k :: 0 <= k < TableLength ==> p[k] == p[..][k] == other.p[..][k] == other.p[k];
    }
  }

  /** fade(1 - t) = 1 - fade(t): the curve is point-symmetric about (1/2, 1/2). */
  lemma FadeSymmetric(t: real)
    ensures Fade(1.0 - t) == 1.0 - Fade(t)
  {
    var s := 1.0 - t;
    calc {
      Fade(s);
      s * s * s * (s * (s * 6.0 - 15.0) + 10.0);
      { assert s * s * s == 1.0 - 3.0 * t + 3.0 * t * t - t * t * t; }
      (1.0 - 3.0 * t + 3.0 * t * t - t * t * t) * (6.0 * t * t + 3.0 * t + 1.0);
      1.0 - (t * t * t * (t * (t * 6.0 - 15.0) + 10.0));
    }
  }

  /** On the unit interval the ease curve stays inside [0, 1]. */
  lemma FadeInUnit(t: real)
    requires 0.0 <= t <= 1.0
    ensures 0.0 <= Fade(t) <= 1.0
  {
    FadeNonNegative(t);
    FadeNonNegative(1.0 - t);
    FadeSymmetric(t);
  }

  /** fade(t) = t^3 * (6t^2 - 15t + 10), and the quadratic factor has no real root. */
  lemma FadeNonNegative(t: real)
    requires 0.0 <= t
    ensures 0.0 <= Fade(t)
  {
    var q := t * (t * 6.0 - 15.0) + 10.0;
    assert q == 6.0 * (t - 1.25) * (t - 1.25) + 0.625;
    assert 0.0 <= (t - 1.25) * (t - 1.25);
    assert 0.0 < q;
    assert 0.0 <= t * t * t;
  }

  /** Only three distinct gradients are reachable: hash values 1 and 2 (mod 4) give the same one. */
  lemma GradCasesOneAndTwoCoincide(x: real, y: real)
    ensures Grad(1, x, y) == Grad(2, x, y) == y - x
  {
  }

  /** The gradient choice depends on the two low bits of the hash only. */
  lemma GradLowBitsOnly(hash: int, k: int, x: real, y: real)
    ensures Grad(hash + 4 * k, x, y) == Grad(hash, x, y)
  {
    assert (hash + 4 * k) % 4 == hash % 4;
  }
}
