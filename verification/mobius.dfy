/** Möbius transforms `z -> (a z + b) / (c z + d)` over complex entries. */
module Mobius {
  import opened Points

  /** `Curvature`: which of the three constant-curvature geometries is in use. */
  datatype Curvature = Spherical | Euclidean | Hyperbolic

  /** The matrix `[[a, b], [c, d]]` a `MobiusTransform` holds. */
  datatype Matrix = Matrix(a: Pos, b: Pos, c: Pos, d: Pos)

  /** `MobiusTransform::IDENT`. */
  const Ident: Matrix := Matrix(One, Origin, Origin, One)

  function Numerator(m: Matrix, z: Pos): Pos
  {
    Add(Mul(m.a, z), m.b)
  }

  function Denominator(m: Matrix, z: Pos): Pos
  {
    Add(Mul(m.c, z), m.d)
  }

  /** The transform is defined at `z` when its denominator there is non-zero. */
  predicate DefinedAt(m: Matrix, z: Pos)
  {
    NormSq(Denominator(m, z)) != 0.0
  }

  /** `apply_to`. */
  function ApplyTo(m: Matrix, z: Pos): Pos
    requires DefinedAt(m, z)
  {
    Div(Numerator(m, z), Denominator(m, z))
  }

  /** `inverse`: the adjugate `[[d, -b], [-c, a]]`, the inverse up to the scalar `ad - bc`. */
  function Inverse(m: Matrix): Matrix
  {
    Matrix(m.d, Neg(m.b), Neg(m.c), m.a)
  }

  /** `impl Mul`: the 2x2 matrix product `m * n`. */
  function Compose(m: Matrix, n: Matrix): Matrix
  {
    Matrix(Add(Mul(m.a, n.a), Mul(m.b, n.c)), Add(Mul(m.a, n.b), Mul(m.b, n.d)),
           Add(Mul(m.c, n.a), Mul(m.d, n.c)), Add(Mul(m.c, n.b), Mul(m.d, n.d)))
  }

  /** The determinant `ad - bc`. */
  function Det(m: Matrix): Pos
  {
    Sub(Mul(m.a, m.d), Mul(m.b, m.c))
  }

  /** The identity transform fixes every point. */
  lemma IdentFixes(p: Pos)
    ensures DefinedAt(Ident, p)
    ensures ApplyTo(Ident, p) == p
  {
    assert Denominator(Ident, p) == One;
    assert Numerator(Ident, p) == p;
    DivUnique(p, One, p);
  }

  /** `inverse` is an involution. */
  lemma InverseInverse(m: Matrix)
    ensures Inverse(Inverse(m)) == m
  {
  }

  /** `m.inverse() * m` is `ad - bc` times the identity matrix. */
  lemma InverseTimesSelf(m: Matrix)
    ensures Compose(Inverse(m), m) == Matrix(Det(m), Origin, Origin, Det(m))
  {
    var n := Compose(Inverse(m), m);
    MulComm(m.d, m.a);
    MulComm(m.d, m.b);
    MulComm(m.c, m.a);
    MulNegLeft(m.b, m.c);
    MulNegLeft(m.b, m.d);
    MulNegLeft(m.c, m.a);
    MulNegLeft(m.c, m.b);
    assert n.a == Det(m);
    assert n.b == Origin;
    assert n.c == Origin;
    assert n.d == Det(m);
  }

  lemma MulNegLeft(p: Pos, q: Pos)
    ensures Mul(Neg(p), q) == Neg(Mul(p, q))
  {
  }

  lemma IdentLeft(m: Matrix)
    ensures Compose(Ident, m) == m
  {
  }

  lemma IdentRight(m: Matrix)
    ensures Compose(m, Ident) == m
  {
  }

  /** Clearing the inner denominator: `(a w + b) * D == a N + b D` when `w == N / D`. */
  lemma ClearDenominator(a: Pos, b: Pos, num: Pos, den: Pos)
    requires NormSq(den) != 0.0
    ensures Mul(Add(Mul(a, Div(num, den)), b), den) == Add(Mul(a, num), Mul(b, den))
  {
    var w := Div(num, den);
    MulAddLeft(Mul(a, w), b, den);
    MulAssoc(a, w, den);
    DivMulCancel(num, den);
  }

  /** `a (p z + q) + b (r z + s) == (a p + b r) z + (a q + b s)`. */
  lemma Regroup(a: Pos, b: Pos, p: Pos, q: Pos, r: Pos, s: Pos, z: Pos)
    ensures Add(Mul(a, Add(Mul(p, z), q)), Mul(b, Add(Mul(r, z), s)))
         == Add(Mul(Add(Mul(a, p), Mul(b, r)), z), Add(Mul(a, q), Mul(b, s)))
  {
    MulAddRight(a, Mul(p, z), q);
    MulAddRight(b, Mul(r, z), s);
    MulAssoc(a, p, z);
    MulAssoc(b, r, z);
    MulAddLeft(Mul(a, p), Mul(b, r), z);
  }

  /** The product applies its right operand first:
      `(m * n).apply_to(z) == m.apply_to(n.apply_to(z))`. */
  lemma ComposeApply(m: Matrix, n: Matrix, z: Pos)
    requires DefinedAt(n, z)
    requires DefinedAt(m, ApplyTo(n, z))
    ensures DefinedAt(Compose(m, n), z)
    ensures ApplyTo(Compose(m, n), z) == ApplyTo(m, ApplyTo(n, z))
  {
    var w := ApplyTo(n, z);
    var num, den := Numerator(n, z), Denominator(n, z);
    ClearDenominator(m.a, m.b, num, den);
    ClearDenominator(m.c, m.d, num, den);
    Regroup(m.a, m.b, n.a, n.b, n.c, n.d, z);
    Regroup(m.c, m.d, n.a, n.b, n.c, n.d, z);
    assert Mul(Numerator(m, w), den) == Numerator(Compose(m, n), z);
    assert Mul(Denominator(m, w), den) == Denominator(Compose(m, n), z);
    DivCancelFactor(Numerator(m, w), Denominator(m, w), den);
  }

  /** Applying `m` and then `m.inverse()` returns the starting point when
      `ad - bc` is non-zero. */
  lemma InverseUndoes(m: Matrix, z: Pos)
    requires NormSq(Det(m)) != 0.0
    requires DefinedAt(m, z)
    requires DefinedAt(Inverse(m), ApplyTo(m, z))
    ensures ApplyTo(Inverse(m), ApplyTo(m, z)) == z
  {
    ComposeApply(Inverse(m), m, z);
    InverseTimesSelf(m);
    var k := Det(m);
    assert Denominator(Compose(Inverse(m), m), z) == k;
    MulComm(k, z);
    assert Numerator(Compose(Inverse(m), m), z) == Mul(z, k);
    DivUnique(Mul(z, k), k, z);
  }

  // ---------------------------------------------------------------
  // normalise
  // ---------------------------------------------------------------

  /** When `normalise` divides by non-zero quantities only: `|a|` and `|d|` for
      the Euclidean case; `|a|^2 + |b|^2`, `|d|` and the conjugate of the
      rescaled `a` otherwise. The square root is a parameter. */
  predicate CanNormalise(m: Matrix, curvature: Curvature, sqrt: real -> real)
  {
    match curvature
    case Euclidean => sqrt(NormSq(m.a)) != 0.0 && sqrt(NormSq(m.d)) != 0.0
    case _ =>
      NormSq(m.a) + NormSq(m.b) != 0.0 && sqrt(NormSq(m.d)) != 0.0 &&
      NormSq(Conj(ScaledRows(m, sqrt).0)) != 0.0
  }

  /** The spherical and hyperbolic branches up to `c`: the top row scaled by
      `1/(|a|^2+|b|^2)` and `d` rescaled to the modulus of the new `a`. */
  function ScaledRows(m: Matrix, sqrt: real -> real): (r: (Pos, Pos, Pos))
    requires NormSq(m.a) + NormSq(m.b) != 0.0 && sqrt(NormSq(m.d)) != 0.0
  {
    var scale := 1.0 / (NormSq(m.a) + NormSq(m.b));
    var a := Scale(scale, m.a);
    var b := Scale(scale, m.b);
    (a, b, Scale(Dist(a, Origin, sqrt) / Dist(m.d, Origin, sqrt), m.d))
  }

  /** The matrix `normalise(curvature)` leaves in place of `m`. */
  function Normalised(m: Matrix, curvature: Curvature, sqrt: real -> real): Matrix
    requires CanNormalise(m, curvature, sqrt)
  {
    match curvature
    case Euclidean =>
      Matrix(Scale(1.0 / Dist(m.a, Origin, sqrt), m.a), m.b, Origin,
             Scale(1.0 / Dist(m.d, Origin, sqrt), m.d))
    case Spherical =>
      var (a, b, d) := ScaledRows(m, sqrt);
      Matrix(a, b, Div(Mul(Scale(-1.0, d), Conj(b)), Conj(a)), d)
    case Hyperbolic =>
      var (a, b, d) := ScaledRows(m, sqrt);
      Matrix(a, b, Div(Mul(d, Conj(b)), Conj(a)), d)
  }

  /** Euclidean `normalise` zeroes `c`, keeps `b`, and rescales `a` and `d`
      by real factors. */
  lemma EuclideanNormalised(m: Matrix, sqrt: real -> real)
    requires CanNormalise(m, Euclidean, sqrt)
    ensures Normalised(m, Euclidean, sqrt).c == Origin
    ensures Normalised(m, Euclidean, sqrt).b == m.b
    ensures exists k: real :: Normalised(m, Euclidean, sqrt).a == Scale(k, m.a)
    ensures exists k: real :: Normalised(m, Euclidean, sqrt).d == Scale(k, m.d)
  {
    var n := Normalised(m, Euclidean, sqrt);
    assert n.a == Scale(1.0 / Dist(m.a, Origin, sqrt), m.a);
    assert n.d == Scale(1.0 / Dist(m.d, Origin, sqrt), m.d);
  }

  /** Spherical and hyperbolic `normalise` multiply `a` and `b` by the one
      factor `1/(|a|^2+|b|^2)`. */
  lemma SameTopRowFactor(m: Matrix, curvature: Curvature, sqrt: real -> real)
    requires curvature != Euclidean && CanNormalise(m, curvature, sqrt)
    ensures var k := 1.0 / (NormSq(m.a) + NormSq(m.b));
      Normalised(m, curvature, sqrt).a == Scale(k, m.a) &&
      Normalised(m, curvature, sqrt).b == Scale(k, m.b)
  {
  }

  /** After spherical or hyperbolic `normalise` the top row's squared modulus
      `|a|^2 + |b|^2` is the reciprocal of what it was before. */
  lemma TopRowNormSq(m: Matrix, curvature: Curvature, sqrt: real -> real)
    requires curvature != Euclidean && CanNormalise(m, curvature, sqrt)
    ensures var n := Normalised(m, curvature, sqrt);
      NormSq(n.a) + NormSq(n.b) == 1.0 / (NormSq(m.a) + NormSq(m.b))
  {
    var k := 1.0 / (NormSq(m.a) + NormSq(m.b));
    SameTopRowFactor(m, curvature, sqrt);
    NormSqScale(k, m.a);
    NormSqScale(k, m.b);
    ReciprocalSquareTimes(NormSq(m.a), NormSq(m.b));
  }

  /** Scaling by a real `k` scales the squared modulus by `k^2`. */
  lemma NormSqScale(k: real, p: Pos)
    ensures NormSq(Scale(k, p)) == (k * k) * NormSq(p)
  {
  }

  lemma ReciprocalSquareTimes(u: real, v: real)
    requires u + v != 0.0
    ensures var k := 1.0 / (u + v); (k * k) * u + (k * k) * v == k
  {
  }

  /** The two curved branches agree on `a`, `b` and `d`, and their `c`
      entries are negations of each other. */
  lemma CrossTermSign(m: Matrix, sqrt: real -> real)
    requires CanNormalise(m, Spherical, sqrt)
    ensures CanNormalise(m, Hyperbolic, sqrt)
    ensures var sph, hyp := Normalised(m, Spherical, sqrt), Normalised(m, Hyperbolic, sqrt);
      sph.a == hyp.a && sph.b == hyp.b && sph.d == hyp.d && sph.c == Neg(hyp.c)
  {
    var (a, b, d) := ScaledRows(m, sqrt);
    assert Mul(Scale(-1.0, d), Conj(b)) == Neg(Mul(d, Conj(b)));
    DivNeg(Mul(d, Conj(b)), Conj(a));
  }

  /** Negating the dividend negates the quotient. */
  lemma DivNeg(p: Pos, q: Pos)
    requires NormSq(q) != 0.0
    ensures Div(Neg(p), q) == Neg(Div(p, q))
  {
    var n := NormSq(q);
    NegQuotient(p.x * q.x + p.y * q.y, n);
    NegQuotient(p.y * q.x - p.x * q.y, n);
  }

  lemma NegQuotient(u: real, n: real)
    requires n != 0.0
    ensures (-u) / n == -(u / n)
  {
  }

  /** The relation the curved branches establish between the rows:
      `c conj(a) == -d conj(b)` (spherical) and `c conj(a) == d conj(b)`
      (hyperbolic). */
  lemma CrossTermRelation(m: Matrix, curvature: Curvature, sqrt: real -> real)
    requires curvature != Euclidean && CanNormalise(m, curvature, sqrt)
    ensures var n := Normalised(m, curvature, sqrt);
      NormSq(Conj(n.a)) != 0.0 &&
      Mul(n.c, Conj(n.a)) == (if curvature == Spherical then Neg(Mul(n.d, Conj(n.b)))
                              else Mul(n.d, Conj(n.b)))
  {
    var (a, b, d) := ScaledRows(m, sqrt);
    if curvature == Spherical {
      assert Mul(Scale(-1.0, d), Conj(b)) == Neg(Mul(d, Conj(b)));
      DivMulCancel(Mul(Scale(-1.0, d), Conj(b)), Conj(a));
    } else {
      DivMulCancel(Mul(d, Conj(b)), Conj(a));
    }
  }

  /** `MobiusTransform`: the one place the program mutates a matrix in place. */
  class MobiusTransform {
    var transform: Matrix

    /** `MobiusTransform::new`. */
    constructor (transform: Matrix)
      ensures this.transform == transform
    {
      this.transform := transform;
    }

    /** `normalise`: rewrites the four entries one after another, each later
        entry reading the already-rewritten earlier ones. */
    method Normalise(curvature: Curvature, sqrt: real -> real)
      requires CanNormalise(transform, curvature, sqrt)
      modifies this
      ensures transform == Normalised(old(transform), curvature, sqrt)
    {
      var m := transform;
      var a, b, c, d := m.a, m.b, m.c, m.d;
      match curvature {
        case Spherical =>
          var scale := 1.0 / (NormSq(a) + NormSq(b));
          a := Scale(scale, a);
          b := Scale(scale, b);
          d := Scale(Dist(a, Origin, sqrt) / Dist(d, Origin, sqrt), d);
          c := Div(Mul(Scale(-1.0, d), Conj(b)), Conj(a));
        case Euclidean =>
          c := Origin;
          a := Scale(1.0 / Dist(a, Origin, sqrt), a);
          d := Scale(1.0 / Dist(d, Origin, sqrt), d);
        case Hyperbolic =>
          var scale := 1.0 / (NormSq(a) + NormSq(b));
          a := Scale(scale, a);
          b := Scale(scale, b);
          d := Scale(Dist(a, Origin, sqrt) / Dist(d, Origin, sqrt), d);
          c := Div(Mul(d, Conj(b)), Conj(a));
      }
      transform := Matrix(a, b, c, d);
    }
  }
}
