/** Displacements: rigid transforms written as the dual quaternion
    `(qr, 0.5 qr qt)` of a unit rotation `qr` and a pure-vector translation
    `qt`. The class `Displacement` holds one such pair and its two field
    setters; the functions and lemmas before it state the algebra of the
    value it holds. */
module Displacements {
  import Cx = Complexes
  import Qt = Quaternions
  import DQs = DualQuaternions

  /** The dual part the constructor stores: `0.5 * qr * qt`, that is
      `(0.5 qr) qt`. */
  function DualPart(qr: Qt.Quat, qt: Qt.Quat): Qt.Quat
  {
    Qt.Mul(Qt.Scale(0.5, qr), qt)
  }

  /** The dual quaternion a `Displacement(qr, qt)` stands for. */
  function Make(qr: Qt.Quat, qt: Qt.Quat): (x: DQs.DualQuat)
    ensures x.qr == qr
  {
    DQs.DQ(qr, DualPart(qr, qt))
  }

  /** The translation recovered from a displacement: `2 conj(qr) qd`. */
  function Translation(x: DQs.DualQuat): Qt.Quat
  {
    Qt.Scale(2.0, Qt.Mul(Qt.Conj(x.qr), x.qd))
  }

  /** The constructor's two preconditions, as exact equalities. */
  predicate Admissible(qr: Qt.Quat, qt: Qt.Quat)
  {
    Qt.NormSq(qr) == 1.0 && Qt.Scal(qt) == 0.0
  }

  // ---------------------------------------------------------------------
  // Lemmas about the value

  /** The default arguments meet the constructor's preconditions. */
  lemma DefaultAdmissible()
    ensures Admissible(Qt.One, Qt.Zero)
  {
    assert Qt.One == Qt.Q(Cx.C(1.0, 0.0), Cx.C(0.0, 0.0));
    assert Qt.NormSq(Qt.Q(Cx.C(1.0, 0.0), Cx.C(0.0, 0.0))) == 1.0;
  }

  /** With the default arguments the displacement is the identity
      `(Quaternion(), 0)`. */
  lemma DefaultIsIdentity()
    ensures Make(Qt.One, Qt.Zero) == DQs.One
  {
    Qt.MulZero(Qt.Scale(0.5, Qt.One));
  }

  /** For a unit rotation, `2 conj(qr) conj (0.5 qr qt) = qt`: the
      translation is recovered from the stored dual part. */
  lemma TranslationRecoverable(qr: Qt.Quat, qt: Qt.Quat)
    requires Qt.NormSq(qr) == 1.0
    ensures Translation(Make(qr, qt)) == qt
  {
    calc {
      Translation(Make(qr, qt));
      Qt.Scale(2.0, Qt.Mul(Qt.Conj(qr), Qt.Mul(Qt.Scale(0.5, qr), qt)));
      { Qt.MulScaleLeft(0.5, qr, qt); }
      Qt.Scale(2.0, Qt.Mul(Qt.Conj(qr), Qt.Scale(0.5, Qt.Mul(qr, qt))));
      { Qt.MulScaleRight(0.5, Qt.Conj(qr), Qt.Mul(qr, qt)); }
      Qt.Scale(2.0, Qt.Scale(0.5, Qt.Mul(Qt.Conj(qr), Qt.Mul(qr, qt))));
      { Qt.ScaleScale(2.0, 0.5, Qt.Mul(Qt.Conj(qr), Qt.Mul(qr, qt))); }
      Qt.Scale(1.0, Qt.Mul(Qt.Conj(qr), Qt.Mul(qr, qt)));
      { Qt.ScaleOne(Qt.Mul(Qt.Conj(qr), Qt.Mul(qr, qt))); }
      Qt.Mul(Qt.Conj(qr), Qt.Mul(qr, qt));
      { Qt.MulAssoc(Qt.Conj(qr), qr, qt); }
      Qt.Mul(Qt.Mul(Qt.Conj(qr), qr), qt);
      { Qt.ConjMulSelf(qr); Qt.ScaleOne(Qt.One); }
      Qt.Mul(Qt.One, qt);
      { Qt.MulOne(qt); }
      qt;
    }
  }

  /** Conversely, any dual quaternion with a unit real part is the
      displacement of its recovered translation. */
  lemma MakeTranslation(x: DQs.DualQuat)
    requires Qt.NormSq(x.qr) == 1.0
    ensures Make(x.qr, Translation(x)) == x
  {
    var r, d := x.qr, x.qd;
    calc {
      DualPart(r, Translation(x));
      Qt.Mul(Qt.Scale(0.5, r), Qt.Scale(2.0, Qt.Mul(Qt.Conj(r), d)));
      { Qt.MulScaleLeft(0.5, r, Qt.Scale(2.0, Qt.Mul(Qt.Conj(r), d))); }
      Qt.Scale(0.5, Qt.Mul(r, Qt.Scale(2.0, Qt.Mul(Qt.Conj(r), d))));
      { Qt.MulScaleRight(2.0, r, Qt.Mul(Qt.Conj(r), d)); }
      Qt.Scale(0.5, Qt.Scale(2.0, Qt.Mul(r, Qt.Mul(Qt.Conj(r), d))));
      { Qt.ScaleScale(0.5, 2.0, Qt.Mul(r, Qt.Mul(Qt.Conj(r), d)));
        Qt.ScaleOne(Qt.Mul(r, Qt.Mul(Qt.Conj(r), d))); }
      Qt.Mul(r, Qt.Mul(Qt.Conj(r), d));
      { Qt.MulAssoc(r, Qt.Conj(r), d); }
      Qt.Mul(Qt.Mul(r, Qt.Conj(r)), d);
      { Qt.MulConj(r); Qt.ScaleOne(Qt.One); }
      Qt.Mul(Qt.One, d);
      { Qt.MulOne(d); }
      d;
    }
  }

  /** The translation of the product of two displacements:
      `conj(qr2) qt1 qr2 + qt2`. */
  function ComposedTranslation(qr2: Qt.Quat, qt1: Qt.Quat, qt2: Qt.Quat): Qt.Quat
  {
    Qt.Add(Qt.Mul(Qt.Mul(Qt.Conj(qr2), qt1), qr2), qt2)
  }

  /** The real part of the product of two displacements is `qr1 qr2`, which
      again has norm 1. */
  lemma ComposeRotation(qr1: Qt.Quat, qt1: Qt.Quat, qr2: Qt.Quat, qt2: Qt.Quat)
    requires Qt.NormSq(qr1) == 1.0 && Qt.NormSq(qr2) == 1.0
    ensures DQs.Mul(Make(qr1, qt1), Make(qr2, qt2)).qr == Qt.Mul(qr1, qr2)
    ensures Qt.NormSq(Qt.Mul(qr1, qr2)) == 1.0
  {
    Qt.NormSqMul(qr1, qr2);
  }

  /** The composed translation is again a pure vector. */
  lemma ComposedTranslationPure(qr2: Qt.Quat, qt1: Qt.Quat, qt2: Qt.Quat)
    requires Qt.NormSq(qr2) == 1.0 && Qt.Scal(qt1) == 0.0 && Qt.Scal(qt2) == 0.0
    ensures Qt.Scal(ComposedTranslation(qr2, qt1, qt2)) == 0.0
  {
    var c := Qt.Conj(qr2);
    calc {
      Qt.Scal(Qt.Mul(Qt.Mul(c, qt1), qr2));
      { Qt.ScalMulComm(Qt.Mul(c, qt1), qr2); }
      Qt.Scal(Qt.Mul(qr2, Qt.Mul(c, qt1)));
      { Qt.MulAssoc(qr2, c, qt1); }
      Qt.Scal(Qt.Mul(Qt.Mul(qr2, c), qt1));
      { Qt.MulConj(qr2); Qt.ScaleOne(Qt.One); Qt.MulOne(qt1); }
      Qt.Scal(qt1);
    }
  }

  /** `qr1 qr2 (conj(qr2) qt1 qr2) = qr1 qt1 qr2` for a unit `qr2`. */
  lemma ComposeInner(qr1: Qt.Quat, qt1: Qt.Quat, qr2: Qt.Quat)
    requires Qt.NormSq(qr2) == 1.0
    ensures Qt.Mul(Qt.Mul(qr1, qr2), Qt.Mul(Qt.Mul(Qt.Conj(qr2), qt1), qr2))
         == Qt.Mul(Qt.Mul(qr1, qt1), qr2)
  {
    var c := Qt.Conj(qr2);
    calc {
      Qt.Mul(Qt.Mul(qr1, qr2), Qt.Mul(Qt.Mul(c, qt1), qr2));
      { Qt.MulAssoc(qr1, qr2, Qt.Mul(Qt.Mul(c, qt1), qr2)); }
      Qt.Mul(qr1, Qt.Mul(qr2, Qt.Mul(Qt.Mul(c, qt1), qr2)));
      { Qt.MulAssoc(qr2, Qt.Mul(c, qt1), qr2); }
      Qt.Mul(qr1, Qt.Mul(Qt.Mul(qr2, Qt.Mul(c, qt1)), qr2));
      { Qt.MulAssoc(qr2, c, qt1); }
      Qt.Mul(qr1, Qt.Mul(Qt.Mul(Qt.Mul(qr2, c), qt1), qr2));
      { Qt.MulConj(qr2); Qt.ScaleOne(Qt.One); Qt.MulOne(qt1); }
      Qt.Mul(qr1, Qt.Mul(qt1, qr2));
      { Qt.MulAssoc(qr1, qt1, qr2); }
      Qt.Mul(Qt.Mul(qr1, qt1), qr2);
    }
  }

  /** `0.5 (a + b)` rearranged: `0.5 b + 0.5 a = 0.5 (a + b)`. */
  lemma HalfSum(a: Qt.Quat, b: Qt.Quat)
    ensures Qt.Add(Qt.Scale(0.5, b), Qt.Scale(0.5, a)) == Qt.Scale(0.5, Qt.Add(a, b))
  {
  }

  /** The product of two displacements is the displacement with rotation
      `qr1 qr2` and translation `conj(qr2) qt1 qr2 + qt2`. */
  lemma ComposeDualPart(qr1: Qt.Quat, qt1: Qt.Quat, qr2: Qt.Quat, qt2: Qt.Quat)
    requires Qt.NormSq(qr2) == 1.0
    ensures DQs.Mul(Make(qr1, qt1), Make(qr2, qt2))
         == Make(Qt.Mul(qr1, qr2), ComposedTranslation(qr2, qt1, qt2))
  {
    var r12 := Qt.Mul(qr1, qr2);
    var inner := Qt.Mul(Qt.Mul(Qt.Conj(qr2), qt1), qr2);
    calc {
      DualPart(r12, ComposedTranslation(qr2, qt1, qt2));
      Qt.Mul(Qt.Scale(0.5, r12), Qt.Add(inner, qt2));
      { Qt.MulScaleLeft(0.5, r12, Qt.Add(inner, qt2)); }
      Qt.Scale(0.5, Qt.Mul(r12, Qt.Add(inner, qt2)));
      { Qt.MulAddLeft(r12, inner, qt2); }
      Qt.Scale(0.5, Qt.Add(Qt.Mul(r12, inner), Qt.Mul(r12, qt2)));
      { ComposeInner(qr1, qt1, qr2); Qt.MulAssoc(qr1, qr2, qt2); }
      Qt.Scale(0.5, Qt.Add(Qt.Mul(Qt.Mul(qr1, qt1), qr2), Qt.Mul(qr1, Qt.Mul(qr2, qt2))));
      { HalfSum(Qt.Mul(Qt.Mul(qr1, qt1), qr2), Qt.Mul(qr1, Qt.Mul(qr2, qt2))); }
      Qt.Add(Qt.Scale(0.5, Qt.Mul(qr1, Qt.Mul(qr2, qt2))), Qt.Scale(0.5, Qt.Mul(Qt.Mul(qr1, qt1), qr2)));
      { Qt.MulScaleRight(0.5, qr1, Qt.Mul(qr2, qt2));
        Qt.MulScaleLeft(0.5, qr2, qt2);
        Qt.MulScaleLeft(0.5, Qt.Mul(qr1, qt1), qr2);
        Qt.MulScaleLeft(0.5, qr1, qt1); }
      Qt.Add(Qt.Mul(qr1, DualPart(qr2, qt2)), Qt.Mul(DualPart(qr1, qt1), qr2));
      DQs.Mul(Make(qr1, qt1), Make(qr2, qt2)).qd;
    }
  }

  /** Displacements are closed under the product: the product of two
      admissible displacements is the admissible displacement of the
      composed rotation and translation. */
  lemma Compose(qr1: Qt.Quat, qt1: Qt.Quat, qr2: Qt.Quat, qt2: Qt.Quat)
    requires Admissible(qr1, qt1) && Admissible(qr2, qt2)
    ensures Admissible(Qt.Mul(qr1, qr2), ComposedTranslation(qr2, qt1, qt2))
    ensures DQs.Mul(Make(qr1, qt1), Make(qr2, qt2))
         == Make(Qt.Mul(qr1, qr2), ComposedTranslation(qr2, qt1, qt2))
  {
    ComposeRotation(qr1, qt1, qr2, qt2);
    ComposedTranslationPure(qr2, qt1, qt2);
    ComposeDualPart(qr1, qt1, qr2, qt2);
  }

  /** The conjugate of the dual part, for a pure translation:
      `conj(0.5 qr qt) = -0.5 qt conj(qr)`. */
  lemma ConjDualPart(qr: Qt.Quat, qt: Qt.Quat)
    requires Qt.Scal(qt) == 0.0
    ensures Qt.Mul(qr, Qt.Conj(DualPart(qr, qt)))
         == Qt.Neg(Qt.Scale(0.5, Qt.Mul(Qt.Mul(qr, qt), Qt.Conj(qr))))
  {
    calc {
      Qt.Mul(qr, Qt.Conj(DualPart(qr, qt)));
      { Qt.ConjMul(Qt.Scale(0.5, qr), qt); }
      Qt.Mul(qr, Qt.Mul(Qt.Conj(qt), Qt.Conj(Qt.Scale(0.5, qr))));
      { Qt.ConjPure(qt); Qt.ConjScale(0.5, qr); }
      Qt.Mul(qr, Qt.Mul(Qt.Neg(qt), Qt.Scale(0.5, Qt.Conj(qr))));
      { Qt.MulNeg(qt, Qt.Scale(0.5, Qt.Conj(qr))); }
      Qt.Mul(qr, Qt.Neg(Qt.Mul(qt, Qt.Scale(0.5, Qt.Conj(qr)))));
      { Qt.MulNeg(qr, Qt.Mul(qt, Qt.Scale(0.5, Qt.Conj(qr)))); }
      Qt.Neg(Qt.Mul(qr, Qt.Mul(qt, Qt.Scale(0.5, Qt.Conj(qr)))));
      { Qt.MulAssoc(qr, qt, Qt.Scale(0.5, Qt.Conj(qr))); }
      Qt.Neg(Qt.Mul(Qt.Mul(qr, qt), Qt.Scale(0.5, Qt.Conj(qr))));
      { Qt.MulScaleRight(0.5, Qt.Mul(qr, qt), Qt.Conj(qr)); }
      Qt.Neg(Qt.Scale(0.5, Qt.Mul(Qt.Mul(qr, qt), Qt.Conj(qr))));
    }
  }

  /** `v + (0.5 w + (u + 0.5 w)) = u + w` rearranged, with `-v = 0.5 w`. */
  lemma HalfCancel(u: Qt.Quat, w: Qt.Quat)
    ensures Qt.Add(Qt.Neg(Qt.Neg(Qt.Scale(0.5, w))), Qt.Add(u, Qt.Scale(0.5, w))) == Qt.Add(u, w)
  {
  }

  /** Chaining a point through a displacement, `D * P * D.conj3()`, moves the
      point `p` to `qr (p + qt) conj(qr)`: it translates, then rotates. */
  lemma SandwichMovesPoint(qr: Qt.Quat, qt: Qt.Quat, pt: Qt.Vec3)
    requires Admissible(qr, qt)
    ensures var s := DQs.Mul(DQs.Mul(Make(qr, qt), DQs.DQPoint(pt)), DQs.Conj3(Make(qr, qt)));
      s == DQs.DQ(Qt.One, Qt.Mul(Qt.Mul(qr, Qt.Add(Qt.QPoint(pt), qt)), Qt.Conj(qr)))
  {
    var d := Make(qr, qt);
    var p := Qt.QPoint(pt);
    var u := Qt.Mul(Qt.Mul(qr, p), Qt.Conj(qr));
    var w := Qt.Mul(Qt.Mul(qr, qt), Qt.Conj(qr));
    DQs.SandwichParts(d, pt);
    Qt.MulConj(qr);
    Qt.ScaleOne(Qt.One);
    ConjDualPart(qr, qt);
    assert Qt.Mul(DualPart(qr, qt), Qt.Conj(qr)) == Qt.Scale(0.5, w) by {
      Qt.MulScaleLeft(0.5, qr, qt);
      Qt.MulScaleLeft(0.5, Qt.Mul(qr, qt), Qt.Conj(qr));
    }
    HalfCancel(u, w);
    Qt.MulAddLeft(qr, p, qt);
    Qt.MulAddRight(Qt.Mul(qr, p), Qt.Mul(qr, qt), Qt.Conj(qr));
  }

  // ---------------------------------------------------------------------
  // The object and its setters

  /** A displacement: a dual quaternion whose parts the two setters replace
      in place. */
  class Displacement {
    var qr: Qt.Quat
    var qd: Qt.Quat

    /** `Displacement(qr, qt)`: requires a unit rotation and a pure-vector
        translation, and stores `(qr, 0.5 qr qt)`. */
    constructor (qr0: Qt.Quat := Qt.One, qt: Qt.Quat := Qt.Zero)
      requires Qt.NormSq(qr0) == 1.0
      requires Qt.Scal(qt) == 0.0
      ensures qr == qr0 && qd == DualPart(qr0, qt)
    {
      qr := qr0;
      qd := DualPart(qr0, qt);
    }

    /** The dual quaternion the object currently holds. */
    function Value(): (x: DQs.DualQuat)
      reads this
      ensures x.qr == qr && x.qd == qd
    {
      DQs.DQ(qr, qd)
    }

    /** `setdis(v)`: the dual part becomes `0.5 QPoint(v)`; the rotation is
        kept. */
    method SetDis(v: Qt.Vec3)
      modifies this
      ensures qd == Qt.Scale(0.5, Qt.QPoint(v)) && qr == old(qr)
    {
      qd := Qt.Scale(0.5, Qt.QPoint(v));
    }

    /** `setrotation(q)`: the rotation becomes `q`; the dual part is kept. */
    method SetRotation(q: Qt.Quat)
      modifies this
      ensures qr == q && qd == old(qd)
    {
      qr := q;
    }
  }

  /** `setdis(v)` writes the dual part that `Displacement(Quaternion(),
      QPoint(v))` would build, so on an unrotated displacement it sets the
      translation to `v`; under a rotation the recovered translation is
      `conj(qr) QPoint(v)` instead. */
  lemma SetDisTranslation(qr: Qt.Quat, v: Qt.Vec3)
    ensures Qt.Scale(0.5, Qt.QPoint(v)) == DualPart(Qt.One, Qt.QPoint(v))
    ensures Translation(DQs.DQ(qr, Qt.Scale(0.5, Qt.QPoint(v)))) == Qt.Mul(Qt.Conj(qr), Qt.QPoint(v))
  {
    var p := Qt.QPoint(v);
    Qt.MulScaleLeft(0.5, Qt.One, p);
    Qt.MulOne(p);
    Qt.MulScaleRight(0.5, Qt.Conj(qr), p);
    Qt.ScaleScale(2.0, 0.5, Qt.Mul(Qt.Conj(qr), p));
    Qt.ScaleOne(Qt.Mul(Qt.Conj(qr), p));
  }
}
