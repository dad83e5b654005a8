/** Points of the plane (`Pos`), read also as complex numbers `x + iy`.
    Coordinates are `f64` in the program and mathematical reals here. */
module Points {

  datatype Pos = Pos(x: real, y: real)

  /** `Pos::new`. */
  function New(x: real, y: real): (p: Pos)
    ensures p.x == x && p.y == y
  {
    Pos(x, y)
  }

  /** `Pos::dist_sq`: the squared Euclidean distance, a sum of two squares. */
  function DistSq(p: Pos, q: Pos): (r: real)
    ensures r >= 0.0
  {
    (p.x - q.x) * (p.x - q.x) + (p.y - q.y) * (p.y - q.y)
  }

  lemma DistSqSelf(p: Pos)
    ensures DistSq(p, p) == 0.0
  {
  }

  lemma DistSqSymmetric(p: Pos, q: Pos)
    ensures DistSq(p, q) == DistSq(q, p)
  {
  }

  // ---------------------------------------------------------------
  // Complex arithmetic (the operators `Pos` carries for the Möbius algebra)
  // ---------------------------------------------------------------

  /** `Pos::ORIGIN`. */
  const Origin: Pos := Pos(0.0, 0.0)
  const One: Pos := Pos(1.0, 0.0)

  function Add(p: Pos, q: Pos): Pos { Pos(p.x + q.x, p.y + q.y) }

  function Neg(p: Pos): Pos { Pos(-p.x, -p.y) }

  function Sub(p: Pos, q: Pos): Pos { Pos(p.x - q.x, p.y - q.y) }

  /** `k * p` for a real `k`. */
  function Scale(k: real, p: Pos): Pos { Pos(k * p.x, k * p.y) }

  function Conj(p: Pos): Pos { Pos(p.x, -p.y) }

  /** Complex product. */
  function Mul(p: Pos, q: Pos): Pos
  {
    Pos(p.x * q.x - p.y * q.y, p.x * q.y + p.y * q.x)
  }

  /** `|p|^2`, i.e. `p.dist_sq(&ORIGIN)`. */
  function NormSq(p: Pos): (r: real)
    ensures r == DistSq(p, Origin)
  {
    p.x * p.x + p.y * p.y
  }

  /** `Pos::dist`: the square root of `dist_sq`. Square roots are not
      modelled; the root is a parameter. */
  function Dist(p: Pos, q: Pos, sqrt: real -> real): real
  {
    sqrt(DistSq(p, q))
  }

  /** Complex quotient `p / q = p * conj(q) / |q|^2`; the divisor must have
      non-zero modulus. */
  function Div(p: Pos, q: Pos): Pos
    requires NormSq(q) != 0.0
  {
    var n := NormSq(q);
    Pos((p.x * q.x + p.y * q.y) / n, (p.y * q.x - p.x * q.y) / n)
  }

  // Identities over the reals, stated on plain variables so that the solver
  // proves each one without the surrounding definitions.

  lemma ProductNonZero(u: real, v: real)
    requires u != 0.0 && v != 0.0
    ensures u * v != 0.0
  {
  }

  lemma TwoSquaresProduct(a: real, b: real, c: real, d: real)
    ensures (a * c - b * d) * (a * c - b * d) + (a * d + b * c) * (a * d + b * c)
         == (a * a + b * b) * (c * c + d * d)
  {
  }

  lemma QuotientTimes(u: real, n: real)
    requires n != 0.0
    ensures (u / n) * n == u
  {
  }

  lemma TimesQuotient(u: real, n: real)
    requires n != 0.0
    ensures (u * n) / n == u
  {
  }

  lemma CancelFactor(u: real, w: real, n: real)
    requires n != 0.0 && u * n == w * n
    ensures u == w
  {
  }

  lemma ConjProductX(a: real, b: real, c: real, d: real)
    ensures (a * c + b * d) * c - (b * c - a * d) * d == a * (c * c + d * d)
  {
  }

  lemma ConjProductY(a: real, b: real, c: real, d: real)
    ensures (a * c + b * d) * d + (b * c - a * d) * c == b * (c * c + d * d)
  {
  }

  lemma FactorOutX(u: real, v: real, c: real, d: real, n: real)
    ensures (u * c - v * d) * n == (u * n) * c - (v * n) * d
  {
  }

  lemma FactorOutY(u: real, v: real, c: real, d: real, n: real)
    ensures (u * d + v * c) * n == (u * n) * d + (v * n) * c
  {
  }

  // Complex ring laws.

  lemma MulComm(p: Pos, q: Pos)
    ensures Mul(p, q) == Mul(q, p)
  {
  }

  lemma MulAssoc(p: Pos, q: Pos, r: Pos)
    ensures Mul(Mul(p, q), r) == Mul(p, Mul(q, r))
  {
  }

  lemma MulAddLeft(p: Pos, q: Pos, r: Pos)
    ensures Mul(Add(p, q), r) == Add(Mul(p, r), Mul(q, r))
  {
  }

  lemma MulAddRight(p: Pos, q: Pos, r: Pos)
    ensures Mul(p, Add(q, r)) == Add(Mul(p, q), Mul(p, r))
  {
  }

  /** The modulus is multiplicative. */
  lemma NormSqMul(p: Pos, q: Pos)
    ensures NormSq(Mul(p, q)) == NormSq(p) * NormSq(q)
  {
    TwoSquaresProduct(p.x, p.y, q.x, q.y);
  }

  /** A product of numbers of non-zero modulus has non-zero modulus. */
  lemma NormSqMulNonZero(p: Pos, q: Pos)
    requires NormSq(p) != 0.0 && NormSq(q) != 0.0
    ensures NormSq(Mul(p, q)) != 0.0
  {
    NormSqMul(p, q);
    ProductNonZero(NormSq(p), NormSq(q));
  }

  /** Division undoes multiplication. */
  lemma DivMulCancel(p: Pos, q: Pos)
    requires NormSq(q) != 0.0
    ensures Mul(Div(p, q), q) == p
  {
    var n := NormSq(q);
    var a, b, c, d := p.x, p.y, q.x, q.y;
    var u, v := (a * c + b * d) / n, (b * c - a * d) / n;
    assert Div(p, q) == Pos(u, v);
    QuotientTimes(a * c + b * d, n);
    QuotientTimes(b * c - a * d, n);
    ConjProductX(a, b, c, d);
    ConjProductY(a, b, c, d);
    FactorOutX(u, v, c, d, n);
    FactorOutY(u, v, c, d, n);
    CancelFactor(u * c - v * d, a, n);
    CancelFactor(u * d + v * c, b, n);
  }

  /** The quotient is the unique solution `z` of `z * q == p`. */
  lemma DivUnique(p: Pos, q: Pos, z: Pos)
    requires NormSq(q) != 0.0
    requires Mul(z, q) == p
    ensures Div(p, q) == z
  {
    var n := NormSq(q);
    var a, b, c, d := z.x, z.y, q.x, q.y;
    assert p.x * c + p.y * d == a * n;
    assert p.y * c - p.x * d == b * n;
    TimesQuotient(a, n);
    TimesQuotient(b, n);
  }

  /** A common factor of non-zero modulus cancels from a quotient. */
  lemma DivCancelFactor(p: Pos, q: Pos, k: Pos)
    requires NormSq(q) != 0.0 && NormSq(k) != 0.0
    ensures NormSq(Mul(q, k)) != 0.0
    ensures Div(Mul(p, k), Mul(q, k)) == Div(p, q)
  {
    NormSqMulNonZero(q, k);
    var z := Div(p, q);
    DivMulCancel(p, q);
    MulAssoc(z, q, k);
    DivUnique(Mul(p, k), Mul(q, k), z);
  }

  // ---------------------------------------------------------------
  // Approximate hashing
  // ---------------------------------------------------------------

  /** `Pos::approx_hash`: the float hash applied once to each coordinate, in
      order, `[h(x), h(y)]`. The float bucketing `h` belongs to the hash-map
      library and is a parameter. */
  function PosHash(p: Pos, h: real -> int): (r: seq<int>)
    ensures |r| == 2
  {
    [h(p.x), h(p.y)]
  }

  /** Two points share a hash exactly when each coordinate falls in the same
      bucket as the corresponding coordinate of the other. */
  lemma PosHashEq(p: Pos, q: Pos, h: real -> int)
    ensures PosHash(p, h) == PosHash(q, h) <==> h(p.x) == h(q.x) && h(p.y) == h(q.y)
  {
    if PosHash(p, h) == PosHash(q, h) {
      assert PosHash(p, h)[0] == PosHash(q, h)[0];
      assert PosHash(p, h)[1] == PosHash(q, h)[1];
    }
  }
}
