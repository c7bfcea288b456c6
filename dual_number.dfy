/** Dual numbers `x = r + e d` with `e^2 = 0`, over `real`. The source's
    payloads may be scalars or arrays and every operator acts entry by entry;
    each operator is stated here on one entry, and the class `DualNumber` at
    the end holds the two arrays for the in-place indexed set. */
module DualNumbers {

  datatype Dual = D(r: real, d: real)

  /** The outcome of an operation that the source guards with an assertion. */
  datatype Result<T> = Ok(value: T) | Err(msg: string)

  const One: Dual := D(1.0, 0.0)
  const Zero: Dual := D(0.0, 0.0)
  /** The dual unit `e`. */
  const Eps: Dual := D(0.0, 1.0)

  function Neg(x: Dual): Dual { D(-x.r, -x.d) }

  function Add(x: Dual, y: Dual): Dual { D(x.r + y.r, x.d + y.d) }

  function Sub(x: Dual, y: Dual): Dual { D(x.r - y.r, x.d - y.d) }

  /** `x1 x2 = r1 r2 + e (r1 d2 + d1 r2)`. */
  function Mul(x: Dual, y: Dual): Dual { D(x.r * y.r, x.r * y.d + x.d * y.r) }

  /** `inv`: `1/x = 1/r - e d/r^2`; fails when the real part is zero, since
      pure dual numbers have no inverse. */
  function Inv(x: Dual): (res: Result<Dual>)
    ensures res.Err? <==> x.r == 0.0
  {
    if x.r == 0.0 then Err("pure dual numbers have no inverse")
    else Ok(D(1.0 / x.r, -1.0 * x.d / (x.r * x.r)))
  }

  /** `x / y = x * y.inv()`, which fails exactly when `y.inv()` does. */
  function Div(x: Dual, y: Dual): (res: Result<Dual>)
    ensures res.Err? <==> y.r == 0.0
  {
    match Inv(y)
    case Err(m) => Err(m)
    case Ok(yi) => Ok(Mul(x, yi))
  }

  // ---------------------------------------------------------------------
  // Laws

  /** Negation, addition and subtraction act on `(r, d)` component by
      component: `x - y = x + (-y)`, so `x - x = 0`. */
  lemma SubIsAddNeg(x: Dual, y: Dual)
    ensures Sub(x, y) == Add(x, Neg(y))
    ensures Sub(x, x) == Zero
    ensures Sub(Add(x, y), y) == x
  {
  }

  lemma MulComm(x: Dual, y: Dual)
    ensures Mul(x, y) == Mul(y, x)
  {
  }

  lemma MulAssoc(x: Dual, y: Dual, z: Dual)
    ensures Mul(Mul(x, y), z) == Mul(x, Mul(y, z))
  {
    var l, m := Mul(Mul(x, y), z), Mul(x, Mul(y, z));
    assert l.r == m.r;
    assert l.d == m.d;
  }

  lemma MulOne(x: Dual)
    ensures Mul(One, x) == x && Mul(x, One) == x
  {
  }

  /** `e^2 = 0`. */
  lemma EpsSquared()
    ensures Mul(Eps, Eps) == Zero
  {
  }

  lemma MulAddLeft(x: Dual, y: Dual, z: Dual)
    ensures Mul(x, Add(y, z)) == Add(Mul(x, y), Mul(x, z))
  {
  }

  /** A dual number with non-zero real part times its inverse is one. */
  lemma InvIsInverse(x: Dual)
    requires x.r != 0.0
    ensures Inv(x).Ok? && Mul(x, Inv(x).value) == One
  {
    var xi := Inv(x).value;
    assert x.r * (1.0 / x.r) == 1.0;
    assert x.r * (-1.0 * x.d / (x.r * x.r)) == -1.0 * x.d / x.r;
    assert x.d * (1.0 / x.r) == x.d / x.r;
  }

  /** Inversion is an involution on dual numbers with non-zero real part. */
  lemma InvInv(x: Dual)
    requires x.r != 0.0
    ensures Inv(x).Ok? && Inv(Inv(x).value) == Ok(x)
  {
    var xi := Inv(x).value;
    InvInvArith(x.r, x.d, xi.r, xi.d);
    assert Inv(xi).Ok?;
    assert Inv(xi).value == D(1.0 / xi.r, -1.0 * xi.d / (xi.r * xi.r));
    assert Inv(xi).value == D(x.r, x.d);
  }

  /** The real arithmetic behind `InvInv`, with the inverse's parts named. */
  lemma InvInvArith(r: real, d: real, ir: real, id: real)
    requires r != 0.0 && ir == 1.0 / r && id == -1.0 * d / (r * r)
    ensures ir != 0.0
    ensures 1.0 / ir == r
    ensures -1.0 * id / (ir * ir) == d
  {
    assert ir * r == 1.0;
    assert ir * ir == 1.0 / (r * r);
    assert -1.0 * id == d / (r * r);
    assert (d / (r * r)) / (1.0 / (r * r)) == d;
  }

  /** `(x / y) * y = x` whenever `y` has non-zero real part. */
  lemma DivMulCancel(x: Dual, y: Dual)
    requires y.r != 0.0
    ensures Div(x, y).Ok? && Mul(Div(x, y).value, y) == x
  {
    var yi := Inv(y).value;
    MulAssoc(x, yi, y);
    MulComm(yi, y);
    InvIsInverse(y);
    MulOne(x);
  }

  /** The quotient agrees with the closed formula left in a comment beside
      `__div__`: `x / y = r1/r2 + e (d1 r2 - r1 d2) / r2^2`. */
  lemma DivFormula(x: Dual, y: Dual)
    requires y.r != 0.0
    ensures Div(x, y) == Ok(D(x.r / y.r, (x.d * y.r - x.r * y.d) / (y.r * y.r)))
  {
    var r2 := y.r;
    var q := Div(x, y).value;
    assert q.r == x.r * (1.0 / r2);
    assert q.d == x.r * (-1.0 * y.d / (r2 * r2)) + x.d * (1.0 / r2);
    assert x.r * (1.0 / r2) == x.r / r2;
    assert x.r * (-1.0 * y.d / (r2 * r2)) == -(x.r * y.d) / (r2 * r2);
    assert x.d * (1.0 / r2) == x.d * r2 / (r2 * r2);
    assert -(x.r * y.d) / (r2 * r2) + x.d * r2 / (r2 * r2) == (x.d * r2 - x.r * y.d) / (r2 * r2);
    assert q == D(x.r / y.r, (x.d * y.r - x.r * y.d) / (y.r * y.r));
  }

  // ---------------------------------------------------------------------
  // The batch itself, for the in-place indexed set

  /** A dual number whose real and dual payloads are arrays. The constructor
      keeps the arrays it is given, as the source does. */
  class DualNumber {
    var r: array<real>
    var d: array<real>

    constructor (r0: array<real>, d0: array<real>)
      ensures r == r0 && d == d0
    {
      r := r0;
      d := d0;
    }

    /** `x[k]`: entry `k` of both payloads. */
    function GetItem(k: nat): (x: Dual)
      reads this, r, d
      requires k < r.Length && k < d.Length
      ensures x.r == r[k] && x.d == d[k]
    {
      D(r[k], d[k])
    }

    /** `x[k] = val`: copies `val`'s own entry `k` of each payload into entry
        `k`; every other entry is unchanged. */
    method SetItem(k: nat, val: DualNumber)
      requires k < r.Length && k < d.Length && k < val.r.Length && k < val.d.Length
      requires r != d && val.d != r
      modifies r, d
      ensures r[..] == old(r[..])[k := old(val.r[k])]
      ensures d[..] == old(d[..])[k := old(val.d[k])]
    {
      r[k] := val.r[k];
      d[k] := val.d[k];
    }
  }
}
