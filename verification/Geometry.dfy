/** Positions in the shared world frame and the distance between them.

  The square root is the platform's (`math.sqrt`, `Math.Sqrt`), so the norm is a parameter here:
  every member that measures a distance takes a function that is a non-negative root of
  x^2 + y^2 + z^2. Everything else about distances is proved from that one fact.
 */
module Geometry {

  datatype Vec = Vec(x: real, y: real, z: real)
  {
    function Add(v: Vec): Vec { Vec(x + v.x, y + v.y, z + v.z) }
    function Sub(v: Vec): Vec { Vec(x - v.x, y - v.y, z - v.z) }
    function Scale(k: real): Vec { Vec(x * k, y * k, z * k) }
    function Dot(v: Vec): real { x * v.x + y * v.y + z * v.z }
  }

  const ORIGIN := Vec(0.0, 0.0, 0.0)

  /** The platform's `norm()`: a function on vectors, known only by being a root of the squares. */
  type Norm = Vec -> real

  ghost predicate IsRoot(norm: Norm, v: Vec) {
    norm(v) >= 0.0 && norm(v) * norm(v) == v.Dot(v)
  }

  ghost predicate IsNorm(norm: Norm) {
    forall v :: IsRoot(norm, v)
  }

  function Dist(norm: Norm, a: Vec, b: Vec): real {
    norm(a.Sub(b))
  }

  function Abs(a: real): real {
    if a < 0.0 then -a else a
  }

  // Small facts about products, each proved away from the geometry that uses it.

  lemma PositiveProduct(a: real, b: real, p: real)
    requires p == a * b
    requires (a > 0.0 && b > 0.0) || (a < 0.0 && b < 0.0)
    ensures p > 0.0
  {
  }

  lemma SquareSign(a: real, p: real)
    requires p == a * a
    ensures p >= 0.0
    ensures p <= 0.0 ==> a == 0.0
  {
    if a != 0.0 {
      PositiveProduct(a, a, p);
    }
  }

  lemma ScaleOrder(k: real, a: real, b: real)
    requires 0.0 <= k && a <= b
    ensures k * a <= k * b
  {
  }

  lemma SquareOrder(a: real, b: real)
    requires 0.0 <= b
    requires a * a <= b * b
    ensures a <= b
  {
    if a > b {
      calc {
        a * a;
      >  a * b;
      >= b * b;
      }
    }
  }

  lemma SquareUnique(a: real, b: real)
    requires 0.0 <= a && 0.0 <= b
    requires a * a == b * b
    ensures a == b
  {
    SquareOrder(a, b);
    SquareOrder(b, a);
  }

  lemma Distribute(k: real, a: real, b: real, c: real)
    ensures k * (a + b + c) == k * a + k * b + k * c
  {
  }

  lemma SquareOfSum(a: real, b: real)
    ensures (a + b) * (a + b) == a * a + 2.0 * (a * b) + b * b
  {
  }

  lemma SelfDot(v: Vec)
    ensures v.Dot(v) >= 0.0
    ensures v.Dot(v) <= 0.0 <==> v == ORIGIN
  {
    SumOfSquares(v.x, v.x * v.x, v.y, v.y * v.y, v.z, v.z * v.z);
  }

  lemma SumOfSquares(a: real, aa: real, b: real, bb: real, c: real, cc: real)
    requires aa == a * a && bb == b * b && cc == c * c
    ensures aa + bb + cc >= 0.0
    ensures aa + bb + cc <= 0.0 ==> a == b == c == 0.0
  {
    SquareSign(a, aa);
    SquareSign(b, bb);
    SquareSign(c, cc);
  }

  /** What a norm is, in the only terms the proofs use. */
  lemma NormFacts(norm: Norm, v: Vec)
    requires IsNorm(norm)
    ensures norm(v) >= 0.0
    ensures norm(v) * norm(v) == v.Dot(v)
    ensures norm(v) == 0.0 <==> v == ORIGIN
  {
    assert IsRoot(norm, v);
    SelfDot(v);
    RootSign(norm(v), v.Dot(v));
  }

  lemma RootSign(r: real, p: real)
    requires r >= 0.0 && p == r * r
    ensures r == 0.0 <==> p <= 0.0
  {
    SquareSign(r, p);
    if r == 0.0 {
      assert p == 0.0 * 0.0;
    }
  }

  lemma DotOfSum(u: Vec, v: Vec)
    ensures u.Add(v).Dot(u.Add(v)) == u.Dot(u) + 2.0 * u.Dot(v) + v.Dot(v)
  {
    SquareOfSum(u.x, v.x);
    SquareOfSum(u.y, v.y);
    SquareOfSum(u.z, v.z);
  }

  /** |s u + t v|^2, in terms of the three products of u and v. */
  function Form(s: real, t: real, uu: real, uv: real, vv: real): real {
    (s * s) * uu + 2.0 * ((s * t) * uv) + (t * t) * vv
  }

  ghost predicate FormNonNegative(uu: real, uv: real, vv: real) {
    forall s: real, t: real :: Form(s, t, uu, uv, vv) >= 0.0
  }

  lemma ProductsFormNonNegative(u: Vec, v: Vec)
    ensures FormNonNegative(u.Dot(u), u.Dot(v), v.Dot(v))
  {
    forall s: real, t: real ensures Form(s, t, u.Dot(u), u.Dot(v), v.Dot(v)) >= 0.0 {
      QuadraticTerm(u.x, v.x, s, t);
      QuadraticTerm(u.y, v.y, s, t);
      QuadraticTerm(u.z, v.z, s, t);
      Distribute(s * s, u.x * u.x, u.y * u.y, u.z * u.z);
      Distribute(s * t, u.x * v.x, u.y * v.y, u.z * v.z);
      Distribute(t * t, v.x * v.x, v.y * v.y, v.z * v.z);
    }
  }

  lemma QuadraticTerm(a: real, b: real, s: real, t: real)
    ensures (s * s) * (a * a) + 2.0 * ((s * t) * (a * b)) + (t * t) * (b * b) >= 0.0
  {
    var r := s * a + t * b;
    SquareSign(r, r * r);
    SquareOfSum(s * a, t * b);
  }

  lemma RootsBoundProduct(m: real, n: real, uu: real, uv: real, vv: real)
    requires m > 0.0 && n > 0.0
    requires uu == m * m && vv == n * n
    requires FormNonNegative(uu, uv, vv)
    ensures uv <= m * n
  {
    var p := m * n;
    PositiveProduct(m, n, p);
    assert Form(n, -m, uu, uv, vv) >= 0.0;
    assert (n * n) * uu == p * p;
    assert (-m * -m) * vv == p * p;
    assert (n * -m) * uv == -(p * uv);
    if uv > p {
      PositiveProduct(p, uv - p, p * uv - p * p);
    }
  }

  lemma RootsBoundDot(u: Vec, v: Vec, m: real, n: real)
    requires m >= 0.0 && n >= 0.0
    requires m * m == u.Dot(u) && n * n == v.Dot(v)
    requires (m == 0.0 ==> u == ORIGIN) && (n == 0.0 ==> v == ORIGIN)
    ensures u.Dot(v) <= m * n
  {
    if m == 0.0 || n == 0.0 {
      ZeroBound(u, v, m, n);
    } else {
      ProductsFormNonNegative(u, v);
      RootsBoundProduct(m, n, u.Dot(u), u.Dot(v), v.Dot(v));
    }
  }

  lemma ZeroBound(u: Vec, v: Vec, m: real, n: real)
    requires m >= 0.0 && n >= 0.0
    requires u == ORIGIN || v == ORIGIN
    ensures u.Dot(v) <= m * n
  {
    assert m * n >= 0.0;
  }

  lemma CauchySchwarz(norm: Norm, u: Vec, v: Vec)
    requires IsNorm(norm)
    ensures u.Dot(v) <= norm(u) * norm(v)
  {
    NormFacts(norm, u);
    NormFacts(norm, v);
    RootsBoundDot(u, v, norm(u), norm(v));
  }

  lemma TriangleInequality(norm: Norm, u: Vec, v: Vec)
    requires IsNorm(norm)
    ensures norm(u.Add(v)) <= norm(u) + norm(v)
  {
    NormFacts(norm, u);
    NormFacts(norm, v);
    NormFacts(norm, u.Add(v));
    CauchySchwarz(norm, u, v);
    DotOfSum(u, v);
    RootOfSum(norm(u), norm(v), norm(u.Add(v)), u.Dot(v));
  }

  lemma RootOfSum(m: real, n: real, w: real, uv: real)
    requires m >= 0.0 && n >= 0.0
    requires uv <= m * n
    requires w * w == m * m + 2.0 * uv + n * n
    ensures w <= m + n
  {
    SquareOfSum(m, n);
    SquareOrder(w, m + n);
  }

  lemma Homogeneity(norm: Norm, v: Vec, k: real)
    requires IsNorm(norm)
    ensures norm(v.Scale(k)) == Abs(k) * norm(v)
  {
    NormFacts(norm, v);
    NormFacts(norm, v.Scale(k));
    DotOfScale(v, k);
    ScaledRoot(k, norm(v), v.Dot(v), norm(v.Scale(k)));
  }

  lemma DotOfScale(v: Vec, k: real)
    ensures v.Scale(k).Dot(v.Scale(k)) == (k * k) * v.Dot(v)
  {
    Distribute(k * k, v.x * v.x, v.y * v.y, v.z * v.z);
    ProductSquare(v.x, k);
    ProductSquare(v.y, k);
    ProductSquare(v.z, k);
  }

  lemma ProductSquare(a: real, k: real)
    ensures (a * k) * (a * k) == (k * k) * (a * a)
  {
  }

  lemma ScaledRoot(k: real, n: real, nn: real, r: real)
    requires n >= 0.0 && nn == n * n
    requires r >= 0.0 && r * r == (k * k) * nn
    ensures r == Abs(k) * n
  {
    ScaleOrder(Abs(k), 0.0, n);
    ProductSquare(n, Abs(k));
    SquareOfAbs(k);
    SquareUnique(r, Abs(k) * n);
  }

  lemma DistFacts(norm: Norm, a: Vec, b: Vec)
    requires IsNorm(norm)
    ensures Dist(norm, a, b) >= 0.0
    ensures Dist(norm, a, b) == 0.0 <==> a == b
    ensures Dist(norm, a, b) == Dist(norm, b, a)
  {
    NormFacts(norm, a.Sub(b));
    assert b.Sub(a) == a.Sub(b).Scale(-1.0);
    Homogeneity(norm, a.Sub(b), -1.0);
  }

  lemma DistTriangle(norm: Norm, a: Vec, b: Vec, c: Vec)
    requires IsNorm(norm)
    ensures Dist(norm, a, c) <= Dist(norm, a, b) + Dist(norm, b, c)
  {
    assert a.Sub(c) == a.Sub(b).Add(b.Sub(c));
    TriangleInequality(norm, a.Sub(b), b.Sub(c));
  }

  /** A height difference is never more than the distance. */
  lemma HeightWithinDist(norm: Norm, a: Vec, b: Vec)
    requires IsNorm(norm)
    ensures Abs(a.z - b.z) <= Dist(norm, a, b)
  {
    var d := a.Sub(b);
    NormFacts(norm, d);
    SquareSign(d.x, d.x * d.x);
    SquareSign(d.y, d.y * d.y);
    SquareOfAbs(d.z);
    SquareOrder(Abs(d.z), norm(d));
  }

  lemma SquareOfAbs(a: real)
    ensures Abs(a) * Abs(a) == a * a
  {
  }
}
