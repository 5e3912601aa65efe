/** Scalar helpers and the C math library as the plugin uses it.

    The trigonometric functions and the square root are not defined here:
    they are parameters of type `MathLib`, and `Sound` states the facts about
    them that the proofs rely on (ranges, and that `sqrt` is a square root).
    Vector length and normalisation follow `Vector3::GetLength` and
    `Vector3::Normalize` on top of that square root. */
module Libm {
  import opened Vectors

  /** `M_PI` to the precision of the C header. */
  const PI: real := 3.14159265358979323846

  function Abs(x: real): (r: real)
    ensures r >= 0.0
    ensures r == x || r == -x
  {
    if x < 0.0 then -x else x
  }

  function Min(a: real, b: real): real {
    if a <= b then a else b
  }

  function Max(a: real, b: real): real {
    if a >= b then a else b
  }

  /** `math::clamp(v, lo, hi)`, which is `max(min(v, hi), lo)`: within the
      bounds whenever they are ordered, and the identity between them. */
  function Clamp(v: real, lo: real, hi: real): (r: real)
    ensures lo <= hi ==> lo <= r <= hi
    ensures lo <= v <= hi ==> r == v
  {
    Max(Min(v, hi), lo)
  }

  /** Real division with the zero divisor mapped to 0 (C++ would produce an
      infinity or NaN there; see the README). */
  function Quot(a: real, b: real): real
  {
    if b == 0.0 then 0.0 else a / b
  }

  /** The functions of `<cmath>` the plugin calls. */
  datatype MathLib = MathLib(
    sin: real -> real,
    cos: real -> real,
    asin: real -> real,
    acos: real -> real,
    sqrt: real -> real)

  /** What the proofs require of the math library: sine and cosine lie in
      [-1, 1], `acos` maps [-1, 1] into [0, PI], and `sqrt` returns the
      non-negative square root of a non-negative argument, which is zero
      exactly for zero. The bound on `acos` is `M_PI` as a double, as C's
      `acos` returns it; the exact arc cosine reaches the true pi, a little
      above this constant, at -1. */
  ghost predicate Sound(lib: MathLib) {
    && (forall t :: -1.0 <= lib.sin(t) <= 1.0)
    && (forall t :: -1.0 <= lib.cos(t) <= 1.0)
    && (forall t :: -1.0 <= t <= 1.0 ==> 0.0 <= lib.acos(t) <= PI)
    && (forall t :: t >= 0.0 ==> lib.sqrt(t) >= 0.0 && Square(lib.sqrt(t)) == t)
    && lib.sqrt(0.0) == 0.0
    && (forall t :: t > 0.0 ==> lib.sqrt(t) > 0.0)
  }

  /** `Vector3::GetLength`. */
  function Len(v: Vec3, lib: MathLib): real {
    lib.sqrt(Norm2(v))
  }

  /** The factor `Vector3::Normalize` multiplies by: the reciprocal of the
      length, or 1 (the vector is left as it is) when the length is zero. */
  function NormalizeFactor(v: Vec3, lib: MathLib): real {
    var d := Len(v, lib);
    if d == 0.0 then 1.0 else 1.0 / d
  }

  /** `Vector3::Normalize`. */
  function Normalize(v: Vec3, lib: MathLib): Vec3 {
    Scale(NormalizeFactor(v, lib), v)
  }

  /** Length is never negative and squares to the squared length. */
  lemma LenFacts(v: Vec3, lib: MathLib)
    requires Sound(lib)
    ensures Len(v, lib) >= 0.0
    ensures Square(Len(v, lib)) == Norm2(v)
  {
  }

  /** Length is zero exactly for the zero vector. */
  lemma LenZero(v: Vec3, lib: MathLib)
    requires Sound(lib)
    ensures Len(v, lib) >= 0.0
    ensures Len(v, lib) == 0.0 <==> v == Zero
  {
    if v != Zero {
      assert Norm2(v) > 0.0;
    }
  }

  /** Two non-negative numbers with equal squares are equal. */
  lemma RootUnique(s: real, t: real)
    requires s >= 0.0 && t >= 0.0
    requires Square(s) == Square(t)
    ensures s == t
  {
    if s > t {
      DifferenceOfSquares(s, t);
      MulPositive(s - t, s + t);
    } else if s < t {
      DifferenceOfSquares(t, s);
      MulPositive(t - s, t + s);
    }
  }

  lemma DifferenceOfSquares(s: real, t: real)
    ensures Square(s) - Square(t) == (s - t) * (s + t)
  {
  }

  lemma MulNonNegative(a: real, b: real)
    requires a >= 0.0 && b >= 0.0
    ensures a * b >= 0.0
  {
    if a > 0.0 && b > 0.0 {
      MulPositive(a, b);
    }
  }

  lemma SquareProduct(a: real, b: real)
    ensures Square(a * b) == Square(a) * Square(b)
  {
  }

  /** Length scales with a non-negative factor. */
  lemma LenScale(k: real, v: Vec3, lib: MathLib)
    requires Sound(lib) && k >= 0.0
    ensures Len(Scale(k, v), lib) == k * Len(v, lib)
  {
    LenFacts(v, lib);
    LenFacts(Scale(k, v), lib);
    Norm2Scale(k, v);
    ScaledRoot(k, Norm2(v), Len(v, lib), Len(Scale(k, v), lib));
  }

  /** If s is the root of n, and r the root of k*k*n, then r == k*s. */
  lemma ScaledRoot(k: real, n: real, s: real, r: real)
    requires k >= 0.0 && s >= 0.0 && r >= 0.0
    requires Square(s) == n && Square(r) == Square(k) * n
    ensures r == k * s
  {
    SquareProduct(k, s);
    MulNonNegative(k, s);
    RootUnique(r, k * s);
  }

  /** `Normalize` returns a unit vector for every non-zero vector. */
  lemma NormalizeUnit(v: Vec3, lib: MathLib)
    requires Sound(lib) && v != Zero
    ensures Norm2(Normalize(v, lib)) == 1.0
  {
    var d := Len(v, lib);
    LenFacts(v, lib);
    LenZero(v, lib);
    Norm2Scale(1.0 / d, v);
    SquareProduct(1.0 / d, d);
    assert (1.0 / d) * d == 1.0;
  }

  /** Normalising ignores a positive factor. */
  lemma NormalizeScaleInvariant(k: real, v: Vec3, lib: MathLib)
    requires Sound(lib) && k > 0.0
    ensures Normalize(Scale(k, v), lib) == Normalize(v, lib)
  {
    var d, kd := Len(v, lib), Len(Scale(k, v), lib);
    assert d == 0.0 ==> v == Zero by { LenZero(v, lib); }
    assert kd == k * d by { LenScale(k, v, lib); }
    assert NormalizeFactor(Scale(k, v), lib) == if k * d == 0.0 then 1.0 else 1.0 / (k * d);
    assert NormalizeFactor(v, lib) == if d == 0.0 then 1.0 else 1.0 / d;
    ReciprocalScale(k, v, d);
  }

  /** The arithmetic behind NormalizeScaleInvariant, for a length d. */
  lemma ReciprocalScale(k: real, v: Vec3, d: real)
    requires k > 0.0
    requires d == 0.0 ==> v == Zero
    ensures Scale(if k * d == 0.0 then 1.0 else 1.0 / (k * d), Scale(k, v))
         == Scale(if d == 0.0 then 1.0 else 1.0 / d, v)
  {
    if d != 0.0 {
      assert k * d != 0.0;
      assert (1.0 / (k * d)) * k == 1.0 / d;
      ScaleScale(1.0 / (k * d), k, v);
    }
  }

  /** Normalising keeps orthogonal vectors orthogonal. */
  lemma NormalizeOrthogonal(a: Vec3, b: Vec3, lib: MathLib)
    requires Dot(a, b) == 0.0
    ensures Dot(Normalize(a, lib), Normalize(b, lib)) == 0.0
  {
    DotScale(NormalizeFactor(a, lib), a, NormalizeFactor(b, lib), b);
  }
}
