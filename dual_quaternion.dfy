/** Dual quaternions `qr + e qd`: a pair of quaternions composed by the
    dual-number rule lifted to quaternions. As for `Quaternion`, each operator
    is stated on one entry of a batch, and the class `DualQuaternion` at the
    end holds the two batches for the in-place indexed set. */
module DualQuaternions {
  import Cx = Complexes
  import Qt = Quaternions

  datatype DualQuat = DQ(qr: Qt.Quat, qd: Qt.Quat)

  /** The identity `(Quaternion(), 0)`. */
  const One: DualQuat := DQ(Qt.One, Qt.Zero)

  function Neg(x: DualQuat): DualQuat { DQ(Qt.Neg(x.qr), Qt.Neg(x.qd)) }

  function Add(x: DualQuat, y: DualQuat): DualQuat { DQ(Qt.Add(x.qr, y.qr), Qt.Add(x.qd, y.qd)) }

  function Sub(x: DualQuat, y: DualQuat): DualQuat { DQ(Qt.Sub(x.qr, y.qr), Qt.Sub(x.qd, y.qd)) }

  /** Scalar premultiply `s * x` (`__rmul__`). */
  function Scale(s: real, x: DualQuat): DualQuat { DQ(Qt.Scale(s, x.qr), Qt.Scale(s, x.qd)) }

  /** `(qr1 qr2, qr1 qd2 + qd1 qr2)`. */
  function Mul(x: DualQuat, y: DualQuat): DualQuat
  {
    DQ(Qt.Mul(x.qr, y.qr), Qt.Add(Qt.Mul(x.qr, y.qd), Qt.Mul(x.qd, y.qr)))
  }

  /** Quaternion conjugation of both parts. */
  function Conj1(x: DualQuat): DualQuat { DQ(Qt.Conj(x.qr), Qt.Conj(x.qd)) }

  /** Dual conjugation: negates the dual part. */
  function Conj2(x: DualQuat): DualQuat { DQ(x.qr, Qt.Neg(x.qd)) }

  /** Quaternion dual conjugation, the one used to chain displacements. */
  function Conj3(x: DualQuat): DualQuat { DQ(Qt.Conj(x.qr), Qt.Neg(Qt.Conj(x.qd))) }

  /** `DQPoint` of one point: identity real part, `QPoint` dual part. */
  function DQPoint(pt: Qt.Vec3): (r: DualQuat)
    ensures r.qr == Qt.One && Qt.Scal(r.qd) == 0.0 && Qt.Vect(r.qd) == pt
  {
    DQ(Qt.One, Qt.QPoint(pt))
  }

  /** `DQPoint` of an `(N, 3)` array: `N` entries, each with real part
      `Quaternion()` and a pure-vector dual part carrying the point. */
  function DQPoints(pts: seq<Qt.Vec3>): (r: seq<DualQuat>)
    ensures |r| == |pts|
    ensures forall i :: 0 <= i < |r| ==>
      r[i].qr == Qt.One && Qt.Scal(r[i].qd) == 0.0 && Qt.Vect(r[i].qd) == pts[i]
  {
    seq(|pts|, i requires 0 <= i < |pts| => DQPoint(pts[i]))
  }

  // ---------------------------------------------------------------------
  // Component-wise operations

  /** Subtraction is addition of the negation, so `x - x` is zero. */
  lemma SubIsAddNeg(x: DualQuat, y: DualQuat)
    ensures Sub(x, y) == Add(x, Neg(y))
    ensures Sub(x, x) == DQ(Qt.Zero, Qt.Zero)
  {
    Qt.SubIsAddNeg(x.qr, y.qr);
    Qt.SubIsAddNeg(x.qd, y.qd);
    Qt.SubIsAddNeg(x.qr, x.qr);
    Qt.SubIsAddNeg(x.qd, x.qd);
  }

  lemma NegIsScale(x: DualQuat)
    ensures Neg(x) == Scale(-1.0, x)
  {
    Qt.NegIsScale(x.qr);
    Qt.NegIsScale(x.qd);
  }

  /** Scalars pull out of the product. */
  lemma MulScale(s: real, x: DualQuat, y: DualQuat)
    ensures Mul(Scale(s, x), y) == Scale(s, Mul(x, y))
    ensures Mul(x, Scale(s, y)) == Scale(s, Mul(x, y))
  {
    Qt.MulScaleLeft(s, x.qr, y.qr);
    Qt.MulScaleLeft(s, x.qr, y.qd);
    Qt.MulScaleLeft(s, x.qd, y.qr);
    Qt.MulScaleRight(s, x.qr, y.qr);
    Qt.MulScaleRight(s, x.qr, y.qd);
    Qt.MulScaleRight(s, x.qd, y.qr);
    Qt.ScaleAdd(s, Qt.Mul(x.qr, y.qd), Qt.Mul(x.qd, y.qr));
  }

  // ---------------------------------------------------------------------
  // The product

  /** The product is associative. */
  lemma MulAssoc(x: DualQuat, y: DualQuat, z: DualQuat)
    ensures Mul(Mul(x, y), z) == Mul(x, Mul(y, z))
  {
    var r1, d1, r2, d2, r3, d3 := x.qr, x.qd, y.qr, y.qd, z.qr, z.qd;
    Qt.MulAssoc(r1, r2, r3);
    calc {
      Mul(Mul(x, y), z).qd;
      Qt.Add(Qt.Mul(Qt.Mul(r1, r2), d3), Qt.Mul(Qt.Add(Qt.Mul(r1, d2), Qt.Mul(d1, r2)), r3));
      { Qt.MulAddRight(Qt.Mul(r1, d2), Qt.Mul(d1, r2), r3); }
      Qt.Add(Qt.Mul(Qt.Mul(r1, r2), d3), Qt.Add(Qt.Mul(Qt.Mul(r1, d2), r3), Qt.Mul(Qt.Mul(d1, r2), r3)));
      { Qt.MulAssoc(r1, r2, d3); Qt.MulAssoc(r1, d2, r3); Qt.MulAssoc(d1, r2, r3); }
      Qt.Add(Qt.Mul(r1, Qt.Mul(r2, d3)), Qt.Add(Qt.Mul(r1, Qt.Mul(d2, r3)), Qt.Mul(d1, Qt.Mul(r2, r3))));
      { Qt.AddAssoc(Qt.Mul(r1, Qt.Mul(r2, d3)), Qt.Mul(r1, Qt.Mul(d2, r3)), Qt.Mul(d1, Qt.Mul(r2, r3))); }
      Qt.Add(Qt.Add(Qt.Mul(r1, Qt.Mul(r2, d3)), Qt.Mul(r1, Qt.Mul(d2, r3))), Qt.Mul(d1, Qt.Mul(r2, r3)));
      { Qt.MulAddLeft(r1, Qt.Mul(r2, d3), Qt.Mul(d2, r3)); }
      Qt.Add(Qt.Mul(r1, Qt.Add(Qt.Mul(r2, d3), Qt.Mul(d2, r3))), Qt.Mul(d1, Qt.Mul(r2, r3)));
      Mul(x, Mul(y, z)).qd;
    }
  }

  /** `(Quaternion(), 0)` is a left identity. */
  lemma MulOneLeft(x: DualQuat)
    ensures Mul(One, x) == x
  {
    Qt.MulOne(x.qr);
    Qt.MulOne(x.qd);
    Qt.MulZero(x.qr);
    Qt.AddZero(x.qd);
  }

  /** `(Quaternion(), 0)` is a right identity. */
  lemma MulOneRight(x: DualQuat)
    ensures Mul(x, One) == x
  {
    Qt.MulOne(x.qr);
    Qt.MulOne(x.qd);
    Qt.MulZero(x.qr);
    Qt.AddZero(x.qd);
  }

  /** The real part of a product is the product of the real parts, whatever
      the dual parts are. */
  lemma MulRealPart(x: DualQuat, y: DualQuat, dx: Qt.Quat, dy: Qt.Quat)
    ensures Mul(x, y).qr == Mul(DQ(x.qr, dx), DQ(y.qr, dy)).qr == Qt.Mul(x.qr, y.qr)
  {
  }

  // ---------------------------------------------------------------------
  // The three conjugations

  lemma Conj1Involution(x: DualQuat)
    ensures Conj1(Conj1(x)) == x
  {
    Qt.ConjConj(x.qr);
    Qt.ConjConj(x.qd);
  }

  lemma Conj2Involution(x: DualQuat)
    ensures Conj2(Conj2(x)) == x
  {
  }

  lemma Conj3Involution(x: DualQuat)
    ensures Conj3(Conj3(x)) == x
  {
    Qt.ConjConj(x.qr);
    Qt.ConjNeg(Qt.Conj(x.qd));
    Qt.ConjConj(x.qd);
  }

  /** `conj3` is `conj1` after `conj2`, and the two commute. */
  lemma Conj3IsConj1Conj2(x: DualQuat)
    ensures Conj3(x) == Conj1(Conj2(x)) == Conj2(Conj1(x))
  {
    Qt.ConjNeg(x.qd);
  }

  /** `conj1` reverses products: `(x y).conj1() = y.conj1() x.conj1()`. */
  lemma Conj1Mul(x: DualQuat, y: DualQuat)
    ensures Conj1(Mul(x, y)) == Mul(Conj1(y), Conj1(x))
  {
    Qt.ConjMul(x.qr, y.qr);
    Qt.ConjAdd(Qt.Mul(x.qr, y.qd), Qt.Mul(x.qd, y.qr));
    Qt.ConjMul(x.qr, y.qd);
    Qt.ConjMul(x.qd, y.qr);
    Qt.AddComm(Qt.Mul(Qt.Conj(y.qd), Qt.Conj(x.qr)), Qt.Mul(Qt.Conj(y.qr), Qt.Conj(x.qd)));
  }

  /** `conj2` keeps the order of a product. */
  lemma Conj2Mul(x: DualQuat, y: DualQuat)
    ensures Conj2(Mul(x, y)) == Mul(Conj2(x), Conj2(y))
  {
    Qt.MulNeg(x.qr, y.qd);
    Qt.MulNeg(x.qd, y.qr);
    Qt.NegAdd(Qt.Mul(x.qr, y.qd), Qt.Mul(x.qd, y.qr));
  }

  /** `conj3` reverses products. */
  lemma Conj3Mul(x: DualQuat, y: DualQuat)
    ensures Conj3(Mul(x, y)) == Mul(Conj3(y), Conj3(x))
  {
    calc {
      Conj3(Mul(x, y));
      { Conj3IsConj1Conj2(Mul(x, y)); }
      Conj1(Conj2(Mul(x, y)));
      { Conj2Mul(x, y); }
      Conj1(Mul(Conj2(x), Conj2(y)));
      { Conj1Mul(Conj2(x), Conj2(y)); }
      Mul(Conj1(Conj2(y)), Conj1(Conj2(x)));
      { Conj3IsConj1Conj2(x); Conj3IsConj1Conj2(y); }
      Mul(Conj3(y), Conj3(x));
    }
  }

  // ---------------------------------------------------------------------
  // Chaining a point through a transform

  /** The dual part of the sandwich `d * DQPoint(p) * d.conj3()`. */
  lemma SandwichParts(d: DualQuat, pt: Qt.Vec3)
    ensures Mul(Mul(d, DQPoint(pt)), Conj3(d))
         == DQ(Qt.Mul(d.qr, Qt.Conj(d.qr)),
               Qt.Add(Qt.Neg(Qt.Mul(d.qr, Qt.Conj(d.qd))),
                      Qt.Add(Qt.Mul(Qt.Mul(d.qr, Qt.QPoint(pt)), Qt.Conj(d.qr)),
                             Qt.Mul(d.qd, Qt.Conj(d.qr)))))
  {
    var r, e, p := d.qr, d.qd, Qt.QPoint(pt);
    Qt.MulOne(r);
    Qt.MulOne(e);
    Qt.MulNeg(r, Qt.Conj(e));
    Qt.MulAddRight(Qt.Mul(r, p), e, Qt.Conj(r));
  }

  /** `d * P * d.conj3()` maps a point to a point: when `d.qr` times its
      conjugate is `Quaternion()`, the result is again a `DQPoint`. */
  lemma SandwichIsPoint(d: DualQuat, pt: Qt.Vec3)
    requires Qt.Mul(d.qr, Qt.Conj(d.qr)) == Qt.One
    ensures var s := Mul(Mul(d, DQPoint(pt)), Conj3(d));
      s.qr == Qt.One && Qt.Scal(s.qd) == 0.0 && s == DQPoint(Qt.Vect(s.qd))
  {
    var r, e, p := d.qr, d.qd, Qt.QPoint(pt);
    SandwichParts(d, pt);
    var s := Mul(Mul(d, DQPoint(pt)), Conj3(d));
    // the unit hypothesis gives |r|^2 = 1, hence conj(r) r = 1 as well
    Qt.MulConj(r);
    assert Qt.Scale(Qt.NormSq(r), Qt.One).a.re == Qt.NormSq(r);
    Qt.ConjMulSelf(r);
    Qt.ScaleOne(Qt.One);
    // Scal(r p conj(r)) = Scal(conj(r) r p) = Scal(p) = 0
    Qt.ScalMulComm(Qt.Mul(r, p), Qt.Conj(r));
    Qt.MulAssoc(Qt.Conj(r), r, p);
    Qt.MulOne(p);
    // e conj(r) is the conjugate of r conj(e), so their scalars cancel
    Qt.ConjMul(e, Qt.Conj(r));
    Qt.ConjConj(r);
    Qt.ConjScalVect(Qt.Mul(e, Qt.Conj(r)));
    assert Qt.Scal(s.qd) == 0.0;
    Qt.QPointOfVect(s.qd);
  }

  // ---------------------------------------------------------------------
  // The batch itself, for the in-place indexed set

  /** A batch of dual quaternions: a real and a dual `Quaternion` batch of
      the same shape. */
  class DualQuaternion {
    var qr: Qt.Quaternion
    var qd: Qt.Quaternion

    ghost predicate Valid()
      reads this, qr, qd
    {
      && qr.Valid() && qd.Valid()
      && qr.a.Length == qd.a.Length
      && {qr.a, qr.b} !! {qd.a, qd.b}
    }

    /** The entries of the batch, as values. */
    function Entries(): (s: seq<DualQuat>)
      reads this, qr, qd, qr.a, qr.b, qd.a, qd.b
      requires Valid()
      ensures |s| == qr.a.Length
      ensures forall i :: 0 <= i < |s| ==> s[i] == DQ(qr.Entries()[i], qd.Entries()[i])
    {
      var r, d := qr.Entries(), qd.Entries();
      seq(|r|, i requires 0 <= i < |r| && i < |d| => DQ(r[i], d[i]))
    }

    /** `DualQuaternion(qr, qd)`: the two parts must have the same shape. */
    constructor (r: Qt.Quaternion, d: Qt.Quaternion)
      requires r.Valid() && d.Valid() && r.a.Length == d.a.Length
      requires {r.a, r.b} !! {d.a, d.b}
      ensures qr == r && qd == d && Valid()
    {
      qr := r;
      qd := d;
    }

    /** `dq[k]`: entry `k` of both parts. */
    function GetItem(k: nat): (x: DualQuat)
      reads this, qr, qd, qr.a, qr.b, qd.a, qd.b
      requires Valid() && k < qr.a.Length
      ensures x == Entries()[k]
    {
      DQ(qr.GetItem(k), qd.GetItem(k))
    }

    /** `dq[k] = v`: overwrites entry `k` of both parts; every other entry is
        unchanged. */
    method SetItem(k: nat, v: DualQuat)
      requires Valid() && k < qr.a.Length
      modifies qr.a, qr.b, qd.a, qd.b
      ensures Valid()
      ensures Entries() == old(Entries())[k := v]
    {
      qr.SetItem(k, v.qr);
      qd.SetItem(k, v.qd);
    }
  }
}
