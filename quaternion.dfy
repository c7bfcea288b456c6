/** One entry of a `Quaternion` batch, stored as the source stores it: two
    complex numbers `a = w + x i` and `b = y + z i`, so that the quaternion is
    `w + x i + y j + z k`. Every arithmetic operator of the source acts entry by
    entry on a batch; each is stated here on one entry, and the class
    `Quaternion` at the end holds a batch for the in-place indexed set. */
module Quaternions {
  import Cx = Complexes

  datatype Quat = Q(a: Cx.Complex, b: Cx.Complex)

  /** The three components of a vector part (or of a point). */
  datatype Vec3 = V3(x: real, y: real, z: real)

  /** The default `Quaternion()`, `a = 1`, `b = 0`. */
  const One: Quat := Q(Cx.One, Cx.Zero)
  const Zero: Quat := Q(Cx.Zero, Cx.Zero)

  function Neg(q: Quat): Quat { Q(Cx.Neg(q.a), Cx.Neg(q.b)) }

  function Add(p: Quat, q: Quat): Quat { Q(Cx.Add(p.a, q.a), Cx.Add(p.b, q.b)) }

  function Sub(p: Quat, q: Quat): Quat { Q(Cx.Sub(p.a, q.a), Cx.Sub(p.b, q.b)) }

  /** The packed (Cayley-Dickson) product `c = a1 a2 - b1 conj(b2)`,
      `d = a1 b2 + b1 conj(a2)`. */
  function Mul(p: Quat, q: Quat): Quat
  {
    Q(Cx.Sub(Cx.Mul(p.a, q.a), Cx.Mul(p.b, Cx.Conj(q.b))),
      Cx.Add(Cx.Mul(p.a, q.b), Cx.Mul(p.b, Cx.Conj(q.a))))
  }

  /** Scalar premultiply `k * q` (`__rmul__`), which scales both halves. */
  function Scale(k: real, q: Quat): Quat { Q(Cx.Scale(k, q.a), Cx.Scale(k, q.b)) }

  function Conj(q: Quat): Quat { Q(Cx.Conj(q.a), Cx.Neg(q.b)) }

  function Scal(q: Quat): real { q.a.re }

  function Vect(q: Quat): Vec3 { V3(q.a.im, q.b.re, q.b.im) }

  /** The exact squared norm `|a|^2 + |b|^2`, the square of `abs(q)`. */
  function NormSq(q: Quat): real { Cx.NormSq(q.a) + Cx.NormSq(q.b) }

  // ---------------------------------------------------------------------
  // Reference definition: the Hamilton product on (w, x, y, z)

  datatype Q4 = Q4(w: real, x: real, y: real, z: real)

  function ToQ4(q: Quat): Q4 { Q4(Scal(q), Vect(q).x, Vect(q).y, Vect(q).z) }

  function Hamilton(p: Q4, q: Q4): Q4
  {
    Q4(p.w * q.w - p.x * q.x - p.y * q.y - p.z * q.z,
       p.w * q.x + p.x * q.w + p.y * q.z - p.z * q.y,
       p.w * q.y - p.x * q.z + p.y * q.w + p.z * q.x,
       p.w * q.z + p.x * q.y - p.y * q.x + p.z * q.w)
  }

  /** `Quaternion.__mul__` is the Hamilton product on `(scal, vect)`. */
  lemma MulIsHamilton(p: Quat, q: Quat)
    ensures ToQ4(Mul(p, q)) == Hamilton(ToQ4(p), ToQ4(q))
  {
  }

  /** Four real components determine an entry. */
  lemma ToQ4Injective(p: Quat, q: Quat)
    requires ToQ4(p) == ToQ4(q)
    ensures p == q
  {
  }

  lemma HamiltonAssoc(p: Q4, q: Q4, r: Q4)
    ensures Hamilton(Hamilton(p, q), r) == Hamilton(p, Hamilton(q, r))
  {
    HamiltonAssocW(p, q, r);
    HamiltonAssocX(p, q, r);
    HamiltonAssocY(p, q, r);
    HamiltonAssocZ(p, q, r);
  }

  lemma HamiltonAssocW(p: Q4, q: Q4, r: Q4)
    ensures Hamilton(Hamilton(p, q), r).w == Hamilton(p, Hamilton(q, r)).w
  {
    var pq, qr := Hamilton(p, q), Hamilton(q, r);
    AssocW(p.w, p.x, p.y, p.z, q.w, q.x, q.y, q.z, r.w, r.x, r.y, r.z,
           pq.w, pq.x, pq.y, pq.z, qr.w, qr.x, qr.y, qr.z);
  }

  lemma HamiltonAssocX(p: Q4, q: Q4, r: Q4)
    ensures Hamilton(Hamilton(p, q), r).x == Hamilton(p, Hamilton(q, r)).x
  {
    var pq, qr := Hamilton(p, q), Hamilton(q, r);
    AssocX(p.w, p.x, p.y, p.z, q.w, q.x, q.y, q.z, r.w, r.x, r.y, r.z,
           pq.w, pq.x, pq.y, pq.z, qr.w, qr.x, qr.y, qr.z);
  }

  lemma HamiltonAssocY(p: Q4, q: Q4, r: Q4)
    ensures Hamilton(Hamilton(p, q), r).y == Hamilton(p, Hamilton(q, r)).y
  {
    var pq, qr := Hamilton(p, q), Hamilton(q, r);
    AssocY(p.w, p.x, p.y, p.z, q.w, q.x, q.y, q.z, r.w, r.x, r.y, r.z,
           pq.w, pq.x, pq.y, pq.z, qr.w, qr.x, qr.y, qr.z);
  }

  lemma HamiltonAssocZ(p: Q4, q: Q4, r: Q4)
    ensures Hamilton(Hamilton(p, q), r).z == Hamilton(p, Hamilton(q, r)).z
  {
    var pq, qr := Hamilton(p, q), Hamilton(q, r);
    AssocZ(p.w, p.x, p.y, p.z, q.w, q.x, q.y, q.z, r.w, r.x, r.y, r.z,
           pq.w, pq.x, pq.y, pq.z, qr.w, qr.x, qr.y, qr.z);
  }

  // Associativity of the Hamilton product as polynomial identities, one per
  // component, with the inner products named `t` (= p q) and `u` (= q r).

  lemma AssocW(w1: real, x1: real, y1: real, z1: real,
               w2: real, x2: real, y2: real, z2: real,
               w3: real, x3: real, y3: real, z3: real,
               t1: real, t2: real, t3: real, t4: real,
               u1: real, u2: real, u3: real, u4: real)
    requires t1 == w1 * w2 - x1 * x2 - y1 * y2 - z1 * z2
    requires t2 == w1 * x2 + x1 * w2 + y1 * z2 - z1 * y2
    requires t3 == w1 * y2 - x1 * z2 + y1 * w2 + z1 * x2
    requires t4 == w1 * z2 + x1 * y2 - y1 * x2 + z1 * w2
    requires u1 == w2 * w3 - x2 * x3 - y2 * y3 - z2 * z3
    requires u2 == w2 * x3 + x2 * w3 + y2 * z3 - z2 * y3
    requires u3 == w2 * y3 - x2 * z3 + y2 * w3 + z2 * x3
    requires u4 == w2 * z3 + x2 * y3 - y2 * x3 + z2 * w3
    ensures t1 * w3 - t2 * x3 - t3 * y3 - t4 * z3 == w1 * u1 - x1 * u2 - y1 * u3 - z1 * u4
  {
  }

  lemma AssocX(w1: real, x1: real, y1: real, z1: real,
               w2: real, x2: real, y2: real, z2: real,
               w3: real, x3: real, y3: real, z3: real,
               t1: real, t2: real, t3: real, t4: real,
               u1: real, u2: real, u3: real, u4: real)
    requires t1 == w1 * w2 - x1 * x2 - y1 * y2 - z1 * z2
    requires t2 == w1 * x2 + x1 * w2 + y1 * z2 - z1 * y2
    requires t3 == w1 * y2 - x1 * z2 + y1 * w2 + z1 * x2
    requires t4 == w1 * z2 + x1 * y2 - y1 * x2 + z1 * w2
    requires u1 == w2 * w3 - x2 * x3 - y2 * y3 - z2 * z3
    requires u2 == w2 * x3 + x2 * w3 + y2 * z3 - z2 * y3
    requires u3 == w2 * y3 - x2 * z3 + y2 * w3 + z2 * x3
    requires u4 == w2 * z3 + x2 * y3 - y2 * x3 + z2 * w3
    ensures t1 * x3 + t2 * w3 + t3 * z3 - t4 * y3 == w1 * u2 + x1 * u1 + y1 * u4 - z1 * u3
  {
  }

  lemma AssocY(w1: real, x1: real, y1: real, z1: real,
               w2: real, x2: real, y2: real, z2: real,
               w3: real, x3: real, y3: real, z3: real,
               t1: real, t2: real, t3: real, t4: real,
               u1: real, u2: real, u3: real, u4: real)
    requires t1 == w1 * w2 - x1 * x2 - y1 * y2 - z1 * z2
    requires t2 == w1 * x2 + x1 * w2 + y1 * z2 - z1 * y2
    requires t3 == w1 * y2 - x1 * z2 + y1 * w2 + z1 * x2
    requires t4 == w1 * z2 + x1 * y2 - y1 * x2 + z1 * w2
    requires u1 == w2 * w3 - x2 * x3 - y2 * y3 - z2 * z3
    requires u2 == w2 * x3 + x2 * w3 + y2 * z3 - z2 * y3
    requires u3 == w2 * y3 - x2 * z3 + y2 * w3 + z2 * x3
    requires u4 == w2 * z3 + x2 * y3 - y2 * x3 + z2 * w3
    ensures t1 * y3 - t2 * z3 + t3 * w3 + t4 * x3 == w1 * u3 - x1 * u4 + y1 * u1 + z1 * u2
  {
  }

  lemma AssocZ(w1: real, x1: real, y1: real, z1: real,
               w2: real, x2: real, y2: real, z2: real,
               w3: real, x3: real, y3: real, z3: real,
               t1: real, t2: real, t3: real, t4: real,
               u1: real, u2: real, u3: real, u4: real)
    requires t1 == w1 * w2 - x1 * x2 - y1 * y2 - z1 * z2
    requires t2 == w1 * x2 + x1 * w2 + y1 * z2 - z1 * y2
    requires t3 == w1 * y2 - x1 * z2 + y1 * w2 + z1 * x2
    requires t4 == w1 * z2 + x1 * y2 - y1 * x2 + z1 * w2
    requires u1 == w2 * w3 - x2 * x3 - y2 * y3 - z2 * z3
    requires u2 == w2 * x3 + x2 * w3 + y2 * z3 - z2 * y3
    requires u3 == w2 * y3 - x2 * z3 + y2 * w3 + z2 * x3
    requires u4 == w2 * z3 + x2 * y3 - y2 * x3 + z2 * w3
    ensures t1 * z3 + t2 * y3 - t3 * x3 + t4 * w3 == w1 * u4 + x1 * u3 - y1 * u2 + z1 * u1
  {
  }

  // ---------------------------------------------------------------------
  // The algebra of `Quaternion`

  /** The packed product is associative. */
  lemma MulAssoc(p: Quat, q: Quat, r: Quat)
    ensures Mul(Mul(p, q), r) == Mul(p, Mul(q, r))
  {
    MulIsHamilton(p, q);
    MulIsHamilton(Mul(p, q), r);
    MulIsHamilton(q, r);
    MulIsHamilton(p, Mul(q, r));
    HamiltonAssoc(ToQ4(p), ToQ4(q), ToQ4(r));
    ToQ4Injective(Mul(Mul(p, q), r), Mul(p, Mul(q, r)));
  }

  /** `Quaternion()` is a two-sided identity. */
  lemma MulOne(q: Quat)
    ensures Mul(One, q) == q && Mul(q, One) == q
  {
  }

  /** The product is not commutative: `i j = k` ... */
  lemma ProductIJ()
    ensures Mul(Q(Cx.C(0.0, 1.0), Cx.Zero), Q(Cx.Zero, Cx.C(1.0, 0.0))) == Q(Cx.Zero, Cx.C(0.0, 1.0))
  {
  }

  /** ... while `j i = -k`. */
  lemma ProductJI()
    ensures Mul(Q(Cx.Zero, Cx.C(1.0, 0.0)), Q(Cx.C(0.0, 1.0), Cx.Zero)) == Q(Cx.Zero, Cx.C(0.0, -1.0))
  {
  }

  lemma ConjConj(q: Quat)
    ensures Conj(Conj(q)) == q
  {
  }

  /** `conjugate` keeps `scal` and negates every `vect` component. */
  lemma ConjScalVect(q: Quat)
    ensures Scal(Conj(q)) == Scal(q)
    ensures Vect(Conj(q)) == V3(-Vect(q).x, -Vect(q).y, -Vect(q).z)
  {
  }

  /** For a pure vector conjugation is negation. */
  lemma ConjPure(q: Quat)
    requires Scal(q) == 0.0
    ensures Conj(q) == Neg(q)
  {
  }

  /** Conjugation reverses products: `conj(p q) = conj(q) conj(p)`. */
  lemma ConjMul(p: Quat, q: Quat)
    ensures Conj(Mul(p, q)) == Mul(Conj(q), Conj(p))
  {
    var l, m := Conj(Mul(p, q)), Mul(Conj(q), Conj(p));
    assert l.a.re == m.a.re;
    assert l.a.im == m.a.im;
    assert l.b.re == m.b.re;
    assert l.b.im == m.b.im;
  }

  lemma ConjAdd(p: Quat, q: Quat)
    ensures Conj(Add(p, q)) == Add(Conj(p), Conj(q))
  {
  }

  lemma ConjNeg(q: Quat)
    ensures Conj(Neg(q)) == Neg(Conj(q))
  {
  }

  lemma ConjScale(k: real, q: Quat)
    ensures Conj(Scale(k, q)) == Scale(k, Conj(q))
  {
  }

  /** `q * conj(q)` is the scalar `|a|^2 + |b|^2` with zero vector part. */
  lemma MulConj(q: Quat)
    ensures Mul(q, Conj(q)) == Scale(NormSq(q), One)
    ensures Scal(Mul(q, Conj(q))) == NormSq(q) && Vect(Mul(q, Conj(q))) == V3(0.0, 0.0, 0.0)
  {
  }

  lemma ConjMulSelf(q: Quat)
    ensures Mul(Conj(q), q) == Scale(NormSq(q), One)
  {
  }

  lemma MulZero(q: Quat)
    ensures Mul(Zero, q) == Zero && Mul(q, Zero) == Zero
  {
  }

  lemma AddZero(q: Quat)
    ensures Add(q, Zero) == q && Add(Zero, q) == q
  {
  }

  lemma AddComm(p: Quat, q: Quat)
    ensures Add(p, q) == Add(q, p)
  {
  }

  lemma AddAssoc(p: Quat, q: Quat, r: Quat)
    ensures Add(Add(p, q), r) == Add(p, Add(q, r))
  {
  }

  /** Subtraction is addition of the negation, so `q - q` is zero. */
  lemma SubIsAddNeg(p: Quat, q: Quat)
    ensures Sub(p, q) == Add(p, Neg(q))
    ensures Sub(q, q) == Zero
  {
  }

  lemma NegIsScale(q: Quat)
    ensures Neg(q) == Scale(-1.0, q)
  {
  }

  lemma NegAdd(p: Quat, q: Quat)
    ensures Neg(Add(p, q)) == Add(Neg(p), Neg(q))
  {
  }

  lemma ScaleOne(q: Quat)
    ensures Scale(1.0, q) == q
  {
  }

  lemma ScaleScale(k: real, l: real, q: Quat)
    ensures Scale(k, Scale(l, q)) == Scale(k * l, q)
  {
  }

  lemma ScaleAdd(k: real, p: Quat, q: Quat)
    ensures Scale(k, Add(p, q)) == Add(Scale(k, p), Scale(k, q))
  {
  }

  lemma MulAddLeft(p: Quat, q: Quat, r: Quat)
    ensures Mul(p, Add(q, r)) == Add(Mul(p, q), Mul(p, r))
  {
  }

  lemma MulAddRight(p: Quat, q: Quat, r: Quat)
    ensures Mul(Add(p, q), r) == Add(Mul(p, r), Mul(q, r))
  {
  }

  /** A real scalar `k` acts as the quaternion `Q(k, 0)` on either side. */
  lemma ScaleIsMul(k: real, q: Quat)
    ensures Scale(k, q) == Mul(Q(Cx.C(k, 0.0), Cx.Zero), q)
    ensures Scale(k, q) == Mul(q, Q(Cx.C(k, 0.0), Cx.Zero))
  {
  }

  /** Real scalars commute with the product on either side. */
  lemma MulScaleLeft(k: real, p: Quat, q: Quat)
    ensures Mul(Scale(k, p), q) == Scale(k, Mul(p, q))
  {
    var K := Q(Cx.C(k, 0.0), Cx.Zero);
    ScaleIsMul(k, p);
    ScaleIsMul(k, Mul(p, q));
    MulAssoc(K, p, q);
  }

  lemma MulScaleRight(k: real, p: Quat, q: Quat)
    ensures Mul(p, Scale(k, q)) == Scale(k, Mul(p, q))
  {
    var K := Q(Cx.C(k, 0.0), Cx.Zero);
    ScaleIsMul(k, q);
    ScaleIsMul(k, Mul(p, q));
    MulAssoc(p, q, K);
  }

  lemma MulNeg(p: Quat, q: Quat)
    ensures Mul(Neg(p), q) == Neg(Mul(p, q)) && Mul(p, Neg(q)) == Neg(Mul(p, q))
  {
    NegIsScale(p);
    NegIsScale(q);
    NegIsScale(Mul(p, q));
    MulScaleLeft(-1.0, p, q);
    MulScaleRight(-1.0, p, q);
  }

  /** The scalar part of a product does not depend on the order. */
  lemma ScalMulComm(p: Quat, q: Quat)
    ensures Scal(Mul(p, q)) == Scal(Mul(q, p))
  {
  }

  /** The squared norm is multiplicative (Euler's four-square identity). */
  lemma NormSqMul(p: Quat, q: Quat)
    ensures NormSq(Mul(p, q)) == NormSq(p) * NormSq(q)
  {
    var np, nq := NormSq(p), NormSq(q);
    calc {
      Scale(NormSq(Mul(p, q)), One);
      { MulConj(Mul(p, q)); ConjMul(p, q); }
      Mul(Mul(p, q), Mul(Conj(q), Conj(p)));
      { MulAssoc(p, q, Mul(Conj(q), Conj(p))); MulAssoc(q, Conj(q), Conj(p)); }
      Mul(p, Mul(Mul(q, Conj(q)), Conj(p)));
      { MulConj(q); MulScaleLeft(nq, One, Conj(p)); MulOne(Conj(p)); }
      Mul(p, Scale(nq, Conj(p)));
      { MulScaleRight(nq, p, Conj(p)); MulConj(p); }
      Scale(nq, Scale(np, One));
      { ScaleScale(nq, np, One); }
      Scale(nq * np, One);
    }
    assert Scale(NormSq(Mul(p, q)), One).a.re == NormSq(Mul(p, q));
    assert Scale(nq * np, One).a.re == nq * np;
  }

  // ---------------------------------------------------------------------
  // Division through the squared norm

  /** `p / q`: `p` times the scalar quaternion `1 / |q|^2` times `conj(q)`. The
      squared norm must be non-zero: for the zero quaternion numpy's `1./0.`
      gives `inf`, which `real` has no counterpart for. */
  function Div(p: Quat, q: Quat): Quat
    requires NormSq(q) != 0.0
  {
    var u := 1.0 / NormSq(q);
    Mul(p, Mul(Q(Cx.C(u, 0.0), Cx.Zero), Conj(q)))
  }

  /** Division is multiplication by `(1 / |q|^2) conj(q)`. */
  lemma DivIsMulInverse(p: Quat, q: Quat)
    requires NormSq(q) != 0.0
    ensures Div(p, q) == Mul(p, Scale(1.0 / NormSq(q), Conj(q)))
  {
    ScaleIsMul(1.0 / NormSq(q), Conj(q));
  }

  /** `(1 / |q|^2) conj(q)` is a two-sided inverse of `q`. */
  lemma InverseIsInverse(q: Quat)
    requires NormSq(q) != 0.0
    ensures Mul(Scale(1.0 / NormSq(q), Conj(q)), q) == One
    ensures Mul(q, Scale(1.0 / NormSq(q), Conj(q))) == One
  {
    var n := NormSq(q);
    var u := 1.0 / n;
    assert u * n == 1.0;
    MulScaleLeft(u, Conj(q), q);
    ConjMulSelf(q);
    MulScaleRight(u, q, Conj(q));
    MulConj(q);
    ScaleScale(u, n, One);
    ScaleOne(One);
  }

  /** `(p / q) * q = p`. */
  lemma DivMulCancel(p: Quat, q: Quat)
    requires NormSq(q) != 0.0
    ensures Mul(Div(p, q), q) == p
  {
    var inv := Scale(1.0 / NormSq(q), Conj(q));
    DivIsMulInverse(p, q);
    MulAssoc(p, inv, q);
    InverseIsInverse(q);
    MulOne(p);
  }

  /** `(p * q) / q = p`. */
  lemma MulDivCancel(p: Quat, q: Quat)
    requires NormSq(q) != 0.0
    ensures Div(Mul(p, q), q) == p
  {
    var inv := Scale(1.0 / NormSq(q), Conj(q));
    DivIsMulInverse(Mul(p, q), q);
    MulAssoc(p, q, inv);
    InverseIsInverse(q);
    MulOne(p);
  }

  /** `q / q = Quaternion()`. */
  lemma DivSelf(q: Quat)
    requires NormSq(q) != 0.0
    ensures Div(q, q) == One
  {
    DivIsMulInverse(q, q);
    InverseIsInverse(q);
  }

  // ---------------------------------------------------------------------
  // Integer power

  /** What `q ** n` returns: the integer `1` when the loop does not run,
      otherwise a quaternion. */
  datatype PowResult = IntOne | QuatPower(q: Quat)

  /** `q` multiplied by itself `n` times, left to right. */
  function Power(q: Quat, n: nat): Quat
    requires n >= 1
  {
    if n == 1 then q else Mul(Power(q, n - 1), q)
  }

  /** `__pow__`: the accumulator starts as the integer `1`; the first step
      `1 * q` goes through `__rmul__`, every later one through `__mul__`. */
  method Pow(q: Quat, n: int) returns (r: PowResult)
    ensures n <= 0 ==> r == IntOne
    ensures n >= 1 ==> r == QuatPower(Power(q, n))
  {
    r := IntOne;
    var i := 0;
    while i < n
      invariant 0 <= i <= (if n >= 0 then n else 0)
      invariant i == 0 ==> r == IntOne
      invariant i >= 1 ==> r == QuatPower(Power(q, i))
      decreases n - i
    {
      match r {
        case IntOne =>
          ScaleOne(q);
          r := QuatPower(Scale(1.0, q));
        case QuatPower(p) =>
          r := QuatPower(Mul(p, q));
      }
      i := i + 1;
    }
  }

  /** Powers add: `q^m q^n = q^(m+n)`. */
  lemma {:induction false} PowerAdd(q: Quat, m: nat, n: nat)
    requires m >= 1 && n >= 1
    ensures Mul(Power(q, m), Power(q, n)) == Power(q, m + n)
    decreases n
  {
    if n > 1 {
      calc {
        Mul(Power(q, m), Power(q, n));
        Mul(Power(q, m), Mul(Power(q, n - 1), q));
        { MulAssoc(Power(q, m), Power(q, n - 1), q); }
        Mul(Mul(Power(q, m), Power(q, n - 1)), q);
        { PowerAdd(q, m, n - 1); }
        Mul(Power(q, m + n - 1), q);
      }
    }
  }

  /** Multiplying on the left gives the same powers: `q^(n+1) = q q^n`. */
  lemma PowerSuccLeft(q: Quat, n: nat)
    requires n >= 1
    ensures Power(q, n + 1) == Mul(q, Power(q, n))
  {
    PowerAdd(q, 1, n);
  }

  /** Powers of a unit quaternion are unit quaternions. */
  lemma {:induction false} PowerUnit(q: Quat, n: nat)
    requires n >= 1 && NormSq(q) == 1.0
    ensures NormSq(Power(q, n)) == 1.0
  {
    if n > 1 {
      PowerUnit(q, n - 1);
      NormSqMul(Power(q, n - 1), q);
    }
  }

  /** The conjugate of a power is the power of the conjugate. */
  lemma {:induction false} PowerConj(q: Quat, n: nat)
    requires n >= 1
    ensures Conj(Power(q, n)) == Power(Conj(q), n)
  {
    if n > 1 {
      calc {
        Conj(Power(q, n));
        Conj(Mul(Power(q, n - 1), q));
        { ConjMul(Power(q, n - 1), q); }
        Mul(Conj(q), Conj(Power(q, n - 1)));
        { PowerConj(q, n - 1); }
        Mul(Conj(q), Power(Conj(q), n - 1));
        { PowerSuccLeft(Conj(q), n - 1); }
        Power(Conj(q), n);
      }
    }
  }

  // ---------------------------------------------------------------------
  // QPoint: the pure-vector quaternion of a point

  /** `QPoint` of one point: `a = i x`, `b = y + i z`. */
  function QPoint(pt: Vec3): (r: Quat)
    ensures Scal(r) == 0.0 && Vect(r) == pt
  {
    Q(Cx.C(0.0, pt.x), Cx.C(pt.y, pt.z))
  }

  /** Every quaternion with zero scalar part is the `QPoint` of its vector. */
  lemma QPointOfVect(q: Quat)
    requires Scal(q) == 0.0
    ensures QPoint(Vect(q)) == q
  {
  }

  /** `QPoint` of an `(N, 3)` array of points: one pure entry per point. */
  function QPoints(pts: seq<Vec3>): (r: seq<Quat>)
    ensures |r| == |pts|
    ensures forall i :: 0 <= i < |r| ==> Scal(r[i]) == 0.0 && Vect(r[i]) == pts[i]
  {
    seq(|pts|, i requires 0 <= i < |pts| => QPoint(pts[i]))
  }

  // ---------------------------------------------------------------------
  // The batch itself, for the in-place indexed set

  /** A batch of `N` quaternions: the two complex columns `a` and `b`. The
      constructor's `astype(complex)` always copies, so the two columns are
      distinct arrays. */
  class Quaternion {
    var a: array<Cx.Complex>
    var b: array<Cx.Complex>

    ghost predicate Valid()
      reads this
    {
      a.Length == b.Length && a != b
    }

    /** The entries of the batch, as values. */
    function Entries(): (s: seq<Quat>)
      reads this, a, b
      requires Valid()
      ensures |s| == a.Length
      ensures forall i :: 0 <= i < |s| ==> s[i].a == a[i] && s[i].b == b[i]
    {
      seq(a.Length, i requires 0 <= i < a.Length && i < b.Length reads this, a, b => Q(a[i], b[i]))
    }

    /** `Quaternion(a, b)` from two columns, which must have the same shape. */
    constructor (a0: seq<Cx.Complex>, b0: seq<Cx.Complex>)
      requires |a0| == |b0|
      ensures Valid() && fresh(a) && fresh(b)
      ensures a[..] == a0 && b[..] == b0
    {
      a := new Cx.Complex[|a0|](i requires 0 <= i < |a0| => a0[i]);
      b := new Cx.Complex[|b0|](i requires 0 <= i < |b0| => b0[i]);
    }

    /** `Quaternion(a, b)` from two scalars: a batch of one entry. */
    constructor Scalar(a0: Cx.Complex := Cx.One, b0: Cx.Complex := Cx.Zero)
      ensures Valid() && fresh(a) && fresh(b)
      ensures Entries() == [Q(a0, b0)]
    {
      a := new Cx.Complex[1](_ => a0);
      b := new Cx.Complex[1](_ => b0);
    }

    /** `q[k]`: entry `k` of both columns. */
    function GetItem(k: nat): (q: Quat)
      reads this, a, b
      requires Valid() && k < a.Length
      ensures q == Entries()[k]
    {
      Q(a[k], b[k])
    }

    /** `q[k] = v`: overwrites entry `k` of both columns; the other entries
        are unchanged. */
    method SetItem(k: nat, v: Quat)
      requires Valid() && k < a.Length
      modifies a, b
      ensures Valid()
      ensures Entries() == old(Entries())[k := v]
    {
      a[k] := v.a;
      b[k] := v.b;
    }
  }
}
