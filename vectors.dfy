/** Three-dimensional vectors over the reals: the part of Gazebo's
    `math::Vector3` that the appendage force model uses (sum, difference,
    negation, scaling, dot and cross products, squared length). */
module Vectors {

  datatype Vec3 = Vec3(x: real, y: real, z: real)

  const Zero: Vec3 := Vec3(0.0, 0.0, 0.0)

  function Add(a: Vec3, b: Vec3): Vec3 {
    Vec3(a.x + b.x, a.y + b.y, a.z + b.z)
  }

  function Sub(a: Vec3, b: Vec3): Vec3 {
    Vec3(a.x - b.x, a.y - b.y, a.z - b.z)
  }

  function Neg(a: Vec3): Vec3 {
    Vec3(-a.x, -a.y, -a.z)
  }

  function Scale(k: real, a: Vec3): Vec3 {
    Vec3(k * a.x, k * a.y, k * a.z)
  }

  function Dot(a: Vec3, b: Vec3): real {
    a.x * b.x + a.y * b.y + a.z * b.z
  }

  function Cross(a: Vec3, b: Vec3): Vec3 {
    Vec3(a.y * b.z - a.z * b.y, a.z * b.x - a.x * b.z, a.x * b.y - a.y * b.x)
  }

  /** r*r, written as a product of two distinct terms so that the solver
      keeps the facts proved about it. */
  function Square(r: real): real {
    r * Same(r)
  }

  function Same(r: real): real {
    r
  }

  /** The squared length x*x + y*y + z*z, the quantity under the square root
      of `Vector3::GetLength`: never negative, and zero only for the zero
      vector. */
  function Norm2(a: Vec3): (n: real)
    ensures n >= 0.0
    ensures n == 0.0 <==> a == Zero
  {
    SquareSign(a.x);
    SquareSign(a.y);
    SquareSign(a.z);
    Square(a.x) + Square(a.y) + Square(a.z)
  }

  lemma SquareSign(r: real)
    ensures Square(r) >= 0.0
    ensures r != 0.0 ==> Square(r) > 0.0
  {
    if r < 0.0 {
      MulPositive(-r, -Same(r));
    } else if r > 0.0 {
      MulPositive(r, Same(r));
    }
  }

  lemma MulPositive(a: real, b: real)
    requires a > 0.0 && b > 0.0
    ensures a * b > 0.0
  {
  }

  /** The zero vector is orthogonal to every vector. */
  lemma DotZero(a: Vec3)
    ensures Dot(Zero, a) == 0.0
  {
  }

  /** A cross product is orthogonal to both of its factors. */
  lemma CrossOrthogonal(a: Vec3, b: Vec3)
    ensures Dot(a, Cross(a, b)) == 0.0
    ensures Dot(b, Cross(a, b)) == 0.0
  {
  }

  /** Dot products pull scalar factors out of both arguments. */
  lemma DotScale(j: real, a: Vec3, k: real, b: Vec3)
    ensures Dot(Scale(j, a), Scale(k, b)) == j * k * Dot(a, b)
  {
    assert (j * a.x) * (k * b.x) == j * k * (a.x * b.x);
    assert (j * a.y) * (k * b.y) == j * k * (a.y * b.y);
    assert (j * a.z) * (k * b.z) == j * k * (a.z * b.z);
  }

  /** Scaling twice is scaling by the product. */
  lemma ScaleScale(j: real, k: real, a: Vec3)
    ensures Scale(j, Scale(k, a)) == Scale(j * k, a)
  {
  }

  /** A scalar factor on the first argument of a cross product comes out
      in front. */
  lemma CrossScaleLeft(k: real, a: Vec3, b: Vec3)
    ensures Cross(Scale(k, a), b) == Scale(k, Cross(a, b))
  {
    var c, d := Cross(Scale(k, a), b), Cross(a, b);
    assert c.x == k * d.x by { LeftFactor(k, a.y, b.z, a.z, b.y); }
    assert c.y == k * d.y by { LeftFactor(k, a.z, b.x, a.x, b.z); }
    assert c.z == k * d.z by { LeftFactor(k, a.x, b.y, a.y, b.x); }
  }

  /** A scalar factor on the second argument of a cross product comes out
      in front. */
  lemma CrossScaleRight(k: real, a: Vec3, b: Vec3)
    ensures Cross(a, Scale(k, b)) == Scale(k, Cross(a, b))
  {
    var c, d := Cross(a, Scale(k, b)), Cross(a, b);
    assert c.x == k * d.x by { RightFactor(k, a.y, b.z, a.z, b.y); }
    assert c.y == k * d.y by { RightFactor(k, a.z, b.x, a.x, b.z); }
    assert c.z == k * d.z by { RightFactor(k, a.x, b.y, a.y, b.x); }
  }

  lemma LeftFactor(k: real, p: real, q: real, r: real, s: real)
    ensures (k * p) * q - (k * r) * s == k * (p * q - r * s)
  {
  }

  lemma RightFactor(k: real, p: real, q: real, r: real, s: real)
    ensures p * (k * q) - r * (k * s) == k * (p * q - r * s)
  {
  }

  /** Scaling the squared length. */
  lemma Norm2Scale(k: real, a: Vec3)
    ensures Norm2(Scale(k, a)) == Square(k) * Norm2(a)
  {
    assert Square(k * a.x) == Square(k) * Square(a.x);
    assert Square(k * a.y) == Square(k) * Square(a.y);
    assert Square(k * a.z) == Square(k) * Square(a.z);
  }
}
