# Quaternions, dual numbers, dual quaternions and displacements in Dafny

This project models the exact algebra of the `quaternions` package. It covers four
layered types, over Dafny's unbounded `real` in place of numpy floats and complex numbers.

- **Quaternion** (`quaternions/quaternion.py`). Each entry is stored as the source
  stores it: two complex numbers `a = w + x i` and `b = y + z i`. They are multiplied
  by the Cayley–Dickson rule `c = a1 a2 - b1 conj(b2)`, `d = a1 b2 + b1 conj(a2)`.
  The model also has:
  - negation, sum, difference and scalar premultiply;
  - `conjugate`, `scal` and `vect`;
  - division through the exact squared norm;
  - the repeat-multiply `__pow__` loop;
  - `QPoint`;
  - the batch class with indexed get and in-place set.
- **DualNumber** (`quaternions/dual_number.py`). `r + e d` with `e^2 = 0`, with:
  - sum, difference and product;
  - the guarded inverse, including its error path;
  - division;
  - the batch class with indexed get and in-place set.
- **DualQuaternion** (`quaternions/dual_quaternion.py`). A pair `(qr, qd)` of
  quaternions, with:
  - the dual-number product lifted to quaternions;
  - the three conjugations `conj1`, `conj2` and `conj3`;
  - `DQPoint`;
  - the batch class whose indexed set writes into both parts.
- **Displacement** (`quaternions/displacement.py`). The rigid transform `(qr, 0.5 qr qt)`
  of a unit rotation and a pure-vector translation, with its two field setters.

The source works on numpy batches, and every arithmetic operator acts entry by entry. So
each operator is a function on one entry, and its laws are lemmas over all entries.
The in-place indexed setters are methods of classes over arrays.
- `Quaternion` and `DualQuaternion` setters are proved against the sequence of entries:
  `Entries() == old(Entries())[k := v]`.
- `DualNumber`'s setter is stated on its two arrays:
  `r[..] == old(r[..])[k := old(val.r[k])]`, and the same for `d`.

Modules follow the source files:

| file | module | source |
|---|---|---|
| `complex.dfy` | `Complexes` | numpy's complex arithmetic, as far as the quaternion code uses it |
| `quaternion.dfy` | `Quaternions` | `quaternions/quaternion.py` |
| `dual_number.dfy` | `DualNumbers` | `quaternions/dual_number.py` |
| `dual_quaternion.dfy` | `DualQuaternions` | `quaternions/dual_quaternion.py` |
| `displacement.dfy` | `Displacements` | `quaternions/displacement.py` |

Modelling decisions:
- **Norms.** `abs(q)` is a square root, so the model uses its square instead: the
  exact squared norm `|a|^2 + |b|^2` (`Quaternions.NormSq`).
  - `__div__` divides by `NormSq` directly.
  - The Displacement constructor's `allclose(abs(qr), 1)` becomes `NormSq(qr) == 1`.
  - Its `allclose(qt.scal(), 0)` becomes `Scal(qt) == 0`.
- **Assertions.**
  - The shape assertions of `Quaternion.__init__` and `DualQuaternion.__init__` become
    equal-length preconditions.
  - So do the two assertions of `Displacement.__init__`.
  - The assertion in `DualNumber.inv` is modelled as its error path:
    `DualNumbers.Inv` returns `Err("pure dual numbers have no inverse")` exactly when
    `r == 0`, and `DualNumbers.Div` propagates that error.
- **`__pow__`.** The accumulator starts as the integer `1`.
  - The first step, `1 * q`, goes through `Quaternion.__rmul__` and so yields `1 * q`
    as a quaternion.
  - When the loop does not run (`n <= 0`), the integer `1` itself is returned.
  - `Quaternions.Pow` returns a `PowResult` that tells the two cases apart.
- **Reference definition.** `Quaternions.Hamilton` is the `(w, x, y, z)` Hamilton product.
  It is the independent definition that the packed product is proved equal to, and
  associativity is proved on it.

Notes on the source, where the code and its documentation part ways:
- `DQPoint` (`quaternions/dual_quaternion.py:124-130`) uses `Quaternion` and `QPoint`,
  but the file does not import them (lines 5-8). Calling it as written raises a
  `NameError`. The model builds the evidently intended value: real part
  `Quaternion()` in every entry, dual part `QPoint(pt)`.
- `DualQuaternion.abs` calls `self.conjugate()`, which `DualQuaternion` does not define.
- The class docstring of `DualNumber` lists a conjugation `conj(x) = r - e d`, but the
  class has no such method.
- `Quaternion.__div__` and `DualNumber.__div__` are the Python 2 division hooks. Under
  Python 3 the `/` operator does not reach them. The model states what they compute.
- `setdis` writes `0.5 QPoint(v)` without multiplying by `qr`.
  - So only on an unrotated displacement does it set the translation to `v`.
  - Under a rotation `qr`, the translation recovered from the new dual part is
    `conj(qr) QPoint(v)`.
  - `Displacements.SetDisTranslation` states both facts.

## Model

| member | source | states |
|---|---|---|
| Quaternions.Neg | quaternions/quaternion.py:45-46 | computes `(-a, -b)`; its laws are `NegIsScale`, `NegAdd`, `ConjNeg` and `MulNeg` |
| Quaternions.Add | quaternions/quaternion.py:48-49 | computes `(a1 + a2, b1 + b2)`; its laws are `AddZero`, `AddComm` and `AddAssoc` |
| Quaternions.Sub | quaternions/quaternion.py:51-52 | computes `(a1 - a2, b1 - b2)`; its law is `SubIsAddNeg` |
| Quaternions.Mul | quaternions/quaternion.py:54-57 | computes the packed product `(a1 a2 - b1 conj(b2), a1 b2 + b1 conj(a2))`; it is tied to the Hamilton product by `MulIsHamilton` |
| Quaternions.Scale | quaternions/quaternion.py:59-60 | computes `(k a, k b)` for a real `k`; its laws are `ScaleIsMul`, `ScaleOne`, `ScaleScale` and `ScaleAdd` |
| Quaternions.Conj | quaternions/quaternion.py:76-77 | computes `(conj(a), -b)`; its laws are `ConjScalVect`, `ConjConj` and `ConjMul` |
| Quaternions.Scal | quaternions/quaternion.py:84-85 | computes `Re a` |
| Quaternions.Vect | quaternions/quaternion.py:87-89 | computes `(Im a, Re b, Im b)` |
| Quaternions.NormSq | quaternions/quaternion.py:62-63 | computes `|a|^2 + |b|^2`, the square of `abs(q)`; its laws are `MulConj` and `NormSqMul` |
| Quaternions.Div | quaternions/quaternion.py:118-122 | requires a non-zero squared norm, and computes `p * (Q(1/|q|^2, 0) * conj(q))`; its laws are `DivIsMulInverse`, `DivMulCancel`, `MulDivCancel` and `DivSelf` |
| Quaternions.Power | quaternions/quaternion.py:157-161 | requires `n >= 1`, and computes `q` multiplied by itself `n` times, left to right; `Pow` is proved equal to it |
| Quaternions.MulIsHamilton | quaternions/quaternion.py:54-57 | the packed product of `(a, b)` pairs is the Hamilton product of their `(scal, vect)` coordinates |
| Quaternions.ToQ4Injective | quaternions/quaternion.py:84-89 | `scal` and `vect` together determine the quaternion |
| Quaternions.HamiltonAssoc | quaternions/quaternion.py:54-57 | the reference Hamilton product is associative |
| Quaternions.MulAssoc | quaternions/quaternion.py:54-57 | `(p q) r = p (q r)` |
| Quaternions.MulOne | quaternions/quaternion.py:18-57 | the default `Quaternion()` (`a = 1`, `b = 0`) is a two-sided identity |
| Quaternions.ProductIJ | quaternions/quaternion.py:54-57 | `Q(i, 0) * Q(0, 1) = Q(0, i)`, that is `i j = k` |
| Quaternions.ProductJI | quaternions/quaternion.py:54-57 | `Q(0, 1) * Q(i, 0) = Q(0, -i)`, that is `j i = -k`, so the product is not commutative |
| Quaternions.ConjConj | quaternions/quaternion.py:76-77 | `conjugate` is an involution |
| Quaternions.ConjScalVect | quaternions/quaternion.py:76-89 | `conjugate` keeps `scal` and negates every component of `vect` |
| Quaternions.ConjPure | quaternions/quaternion.py:76-77 | on a pure vector, `conjugate` is negation |
| Quaternions.ConjMul | quaternions/quaternion.py:54-77 | `conj(p q) = conj(q) conj(p)` |
| Quaternions.ConjAdd | quaternions/quaternion.py:48-77 | conjugation distributes over sums |
| Quaternions.ConjNeg | quaternions/quaternion.py:45-77 | conjugation commutes with negation |
| Quaternions.ConjScale | quaternions/quaternion.py:59-77 | conjugation commutes with scalar premultiply |
| Quaternions.MulConj | quaternions/quaternion.py:54-77 | `q conj(q)` is the scalar quaternion `|a|^2 + |b|^2`, with zero vector part |
| Quaternions.ConjMulSelf | quaternions/quaternion.py:54-77 | `conj(q) q` is the same scalar |
| Quaternions.MulZero | quaternions/quaternion.py:54-57 | the zero quaternion annihilates on both sides |
| Quaternions.AddZero | quaternions/quaternion.py:48-49 | zero is a two-sided identity for the sum |
| Quaternions.AddComm | quaternions/quaternion.py:48-49 | the sum is commutative |
| Quaternions.AddAssoc | quaternions/quaternion.py:48-49 | the sum is associative |
| Quaternions.SubIsAddNeg | quaternions/quaternion.py:45-52 | `p - q = p + (-q)`, and `q - q = 0` |
| Quaternions.NegIsScale | quaternions/quaternion.py:45-60 | `-q = (-1) q` |
| Quaternions.NegAdd | quaternions/quaternion.py:45-49 | negation distributes over sums |
| Quaternions.ScaleOne | quaternions/quaternion.py:59-60 | `1 * q = q` |
| Quaternions.ScaleScale | quaternions/quaternion.py:59-60 | `k (l q) = (k l) q` |
| Quaternions.ScaleAdd | quaternions/quaternion.py:48-60 | scalar premultiply distributes over sums |
| Quaternions.MulAddLeft | quaternions/quaternion.py:48-57 | `p (q + r) = p q + p r` |
| Quaternions.MulAddRight | quaternions/quaternion.py:48-57 | `(p + q) r = p r + q r` |
| Quaternions.ScaleIsMul | quaternions/quaternion.py:54-60 | `k * q` is the product with the scalar quaternion `(k, 0)` on either side |
| Quaternions.MulScaleLeft | quaternions/quaternion.py:54-60 | `(k p) q = k (p q)` |
| Quaternions.MulScaleRight | quaternions/quaternion.py:54-60 | `p (k q) = k (p q)` |
| Quaternions.MulNeg | quaternions/quaternion.py:45-57 | negating either factor negates the product |
| Quaternions.ScalMulComm | quaternions/quaternion.py:54-85 | `scal(p q) = scal(q p)` |
| Quaternions.NormSqMul | quaternions/quaternion.py:54-63 | the squared norm is multiplicative: `|p q|^2 = |p|^2 |q|^2` |
| Quaternions.DivIsMulInverse | quaternions/quaternion.py:118-122 | `p / q = p ((1 / |q|^2) conj(q))` |
| Quaternions.InverseIsInverse | quaternions/quaternion.py:118-122 | `(1 / |q|^2) conj(q)` is a two-sided inverse of `q` |
| Quaternions.DivMulCancel | quaternions/quaternion.py:118-122 | `(p / q) q = p` |
| Quaternions.MulDivCancel | quaternions/quaternion.py:118-122 | `(p q) / q = p` |
| Quaternions.DivSelf | quaternions/quaternion.py:118-122 | `q / q = Quaternion()` |
| Quaternions.Pow | quaternions/quaternion.py:157-161 | the loop returns the integer `1` when `n <= 0`, and otherwise `q` multiplied by itself `n` times |
| Quaternions.PowerAdd | quaternions/quaternion.py:157-161 | `q^m q^n = q^(m+n)` |
| Quaternions.PowerSuccLeft | quaternions/quaternion.py:157-161 | `q^(n+1) = q q^n`: multiplying on the left gives the same powers as the loop's right multiplication |
| Quaternions.PowerUnit | quaternions/quaternion.py:157-161 | every power of a unit quaternion is a unit quaternion |
| Quaternions.PowerConj | quaternions/quaternion.py:157-161 | `conj(q^n) = conj(q)^n` |
| Quaternions.QPoint | quaternions/quaternion.py:164-177 | `QPoint(pt)` has `scal = 0` and `vect = pt` |
| Quaternions.QPointOfVect | quaternions/quaternion.py:164-177 | every quaternion with zero scalar part is the `QPoint` of its `vect` |
| Quaternions.QPoints | quaternions/quaternion.py:170-177 | `QPoint` of `N` points has `N` entries, each pure with `vect` the point |
| Quaternions.Quaternion.constructor | quaternions/quaternion.py:18-35 | two columns of the same shape become a batch holding exactly those entries |
| Quaternions.Quaternion.Scalar | quaternions/quaternion.py:18-25 | two scalars (by default `1` and `0`) become a batch of one entry |
| Quaternions.Quaternion.GetItem | quaternions/quaternion.py:65-66 | `q[k]` is entry `k` of both columns |
| Quaternions.Quaternion.SetItem | quaternions/quaternion.py:68-70 | `q[k] = v` overwrites entry `k` with `v` and leaves every other entry unchanged |
| DualNumbers.Neg | quaternions/dual_number.py:36-37 | computes `(-r, -d)` |
| DualNumbers.Add | quaternions/dual_number.py:39-40 | computes `(r1 + r2, d1 + d2)`; its laws are `SubIsAddNeg` and `MulAddLeft` |
| DualNumbers.Sub | quaternions/dual_number.py:42-43 | computes `(r1 - r2, d1 - d2)`; its law is `SubIsAddNeg` |
| DualNumbers.Mul | quaternions/dual_number.py:45-48 | computes `(r1 r2, r1 d2 + d1 r2)`; its laws are `MulComm`, `MulAssoc`, `MulOne` and `EpsSquared` |
| DualNumbers.Inv | quaternions/dual_number.py:66-68 | `inv` fails, with the assertion's message, exactly when `r == 0`; the value it returns otherwise is pinned down by `InvIsInverse` and `InvInv` |
| DualNumbers.Div | quaternions/dual_number.py:50-53 | `x / y` fails exactly when `y.r == 0` |
| DualNumbers.SubIsAddNeg | quaternions/dual_number.py:36-43 | `x - y = x + (-y)`, `x - x = 0` and `(x + y) - y = x` |
| DualNumbers.MulComm | quaternions/dual_number.py:45-48 | the product is commutative |
| DualNumbers.MulAssoc | quaternions/dual_number.py:45-48 | the product is associative |
| DualNumbers.MulOne | quaternions/dual_number.py:45-48 | `(1, 0)` is a two-sided identity |
| DualNumbers.EpsSquared | quaternions/dual_number.py:11-15 | `e^2 = 0` |
| DualNumbers.MulAddLeft | quaternions/dual_number.py:39-48 | the product distributes over sums |
| DualNumbers.InvIsInverse | quaternions/dual_number.py:66-68 | for `r != 0`, `x * x.inv() = (1, 0)` |
| DualNumbers.InvInv | quaternions/dual_number.py:66-68 | for `r != 0`, `x.inv().inv() = x` |
| DualNumbers.DivMulCancel | quaternions/dual_number.py:50-53 | for `y.r != 0`, `(x / y) * y = x` |
| DualNumbers.DivFormula | quaternions/dual_number.py:50-53 | the quotient equals the closed formula in the comment beside `__div__`: `(r1/r2, (d1 r2 - r1 d2) / r2^2)` |
| DualNumbers.DualNumber.constructor | quaternions/dual_number.py:20-28 | the object keeps the payloads it is given |
| DualNumbers.DualNumber.GetItem | quaternions/dual_number.py:55-56 | `x[k]` is entry `k` of both payloads |
| DualNumbers.DualNumber.SetItem | quaternions/dual_number.py:58-60 | `x[k] = val` copies `val`'s own entry `k` of each payload into entry `k` and leaves every other entry unchanged |
| DualQuaternions.Neg | quaternions/dual_quaternion.py:63-64 | computes `(-qr, -qd)`; its law is `NegIsScale` |
| DualQuaternions.Add | quaternions/dual_quaternion.py:66-67 | computes `(qr1 + qr2, qd1 + qd2)` |
| DualQuaternions.Sub | quaternions/dual_quaternion.py:69-70 | computes `(qr1 - qr2, qd1 - qd2)`; its law is `SubIsAddNeg` |
| DualQuaternions.Scale | quaternions/dual_quaternion.py:72-73 | computes `(s qr, s qd)` for a real `s`; its law is `MulScale` |
| DualQuaternions.Mul | quaternions/dual_quaternion.py:75-78 | computes `(qr1 qr2, qr1 qd2 + qd1 qr2)`; its laws are `MulAssoc`, `MulOneLeft`, `MulOneRight` and `MulRealPart` |
| DualQuaternions.Conj1 | quaternions/dual_quaternion.py:87-93 | computes `(conj(qr), conj(qd))`; its laws are `Conj1Involution` and `Conj1Mul` |
| DualQuaternions.Conj2 | quaternions/dual_quaternion.py:95-97 | computes `(qr, -qd)`; its laws are `Conj2Involution` and `Conj2Mul` |
| DualQuaternions.Conj3 | quaternions/dual_quaternion.py:99-106 | computes `(conj(qr), -conj(qd))`; its laws are `Conj3Involution`, `Conj3IsConj1Conj2`, `Conj3Mul` and `SandwichIsPoint` |
| DualQuaternions.DQPoint | quaternions/dual_quaternion.py:124-130 | a dual-quaternion point has real part `Quaternion()` and a dual part with zero scalar and `vect` the point |
| DualQuaternions.DQPoints | quaternions/dual_quaternion.py:117-130 | `DQPoint` of `N` points has `N` such entries |
| DualQuaternions.SubIsAddNeg | quaternions/dual_quaternion.py:63-70 | `x - y = x + (-y)`, and `x - x` is zero |
| DualQuaternions.NegIsScale | quaternions/dual_quaternion.py:63-73 | `-x = (-1) x` |
| DualQuaternions.MulScale | quaternions/dual_quaternion.py:72-78 | scalar premultiply pulls out of either factor of the product |
| DualQuaternions.MulAssoc | quaternions/dual_quaternion.py:75-78 | the dual-quaternion product is associative |
| DualQuaternions.MulOneLeft | quaternions/dual_quaternion.py:75-78 | `(Quaternion(), 0)` is a left identity |
| DualQuaternions.MulOneRight | quaternions/dual_quaternion.py:75-78 | `(Quaternion(), 0)` is a right identity |
| DualQuaternions.MulRealPart | quaternions/dual_quaternion.py:75-78 | the real part of a product is the product of the real parts, whatever the dual parts |
| DualQuaternions.Conj1Involution | quaternions/dual_quaternion.py:87-93 | `conj1` is an involution |
| DualQuaternions.Conj2Involution | quaternions/dual_quaternion.py:95-97 | `conj2` is an involution |
| DualQuaternions.Conj3Involution | quaternions/dual_quaternion.py:99-106 | `conj3` is an involution |
| DualQuaternions.Conj3IsConj1Conj2 | quaternions/dual_quaternion.py:87-106 | `conj3` is `conj1` composed with `conj2`, in either order |
| DualQuaternions.Conj1Mul | quaternions/dual_quaternion.py:87-93 | `(x y).conj1() = y.conj1() x.conj1()`, as the docstring states |
| DualQuaternions.Conj2Mul | quaternions/dual_quaternion.py:95-97 | `conj2` keeps the order of a product |
| DualQuaternions.Conj3Mul | quaternions/dual_quaternion.py:99-106 | `conj3` reverses products |
| DualQuaternions.SandwichParts | quaternions/dual_quaternion.py:99-106 | the two parts of `d * P * d.conj3()` in terms of `d`'s parts and the point |
| DualQuaternions.SandwichIsPoint | quaternions/dual_quaternion.py:99-106 | when `d.qr conj(d.qr) = Quaternion()`, `d * P * d.conj3()` of a `DQPoint` is again a `DQPoint` |
| DualQuaternions.DualQuaternion.constructor | quaternions/dual_quaternion.py:24-39 | two batches of the same shape become the real and dual parts |
| DualQuaternions.DualQuaternion.GetItem | quaternions/dual_quaternion.py:80-81 | `dq[k]` is entry `k` of both parts |
| DualQuaternions.DualQuaternion.SetItem | quaternions/dual_quaternion.py:83-85 | `dq[k] = v` overwrites entry `k` of both parts and leaves every other entry unchanged |
| Displacements.DualPart | quaternions/displacement.py:26 | computes the stored dual part `0.5 * qr * qt`, that is `(0.5 qr) qt` |
| Displacements.Make | quaternions/displacement.py:26 | the dual quaternion `(qr, 0.5 qr qt)` that `Displacement(qr, qt)` holds; its real part is `qr` unchanged |
| Displacements.Translation | quaternions/displacement.py:24-26 | computes `2 conj(qr) qd`; `TranslationRecoverable` and `MakeTranslation` prove it inverts `Make` for a unit `qr` |
| Displacements.Admissible | quaternions/displacement.py:24-25 | the constructor's two assertions as exact equalities: `|qr|^2 = 1` and `scal(qt) = 0` |
| Displacements.DefaultAdmissible | quaternions/displacement.py:23-25 | the default arguments meet both constructor preconditions |
| Displacements.DefaultIsIdentity | quaternions/displacement.py:23-26 | with the defaults the displacement is `(Quaternion(), 0)` |
| Displacements.TranslationRecoverable | quaternions/displacement.py:24-26 | for a unit `qr`, `2 conj(qr) qd = qt` |
| Displacements.MakeTranslation | quaternions/displacement.py:24-26 | conversely, every pair with a unit real part is the displacement of its recovered translation |
| Displacements.ComposeRotation | quaternions/displacement.py:24-26 | the real part of a product of displacements is `qr1 qr2`, which again has norm 1 |
| Displacements.ComposedTranslationPure | quaternions/displacement.py:24-26 | the composed translation `conj(qr2) qt1 qr2 + qt2` is a pure vector |
| Displacements.ComposeDualPart | quaternions/displacement.py:24-26 | the product of two displacements is the displacement of `qr1 qr2` and the composed translation |
| Displacements.Compose | quaternions/displacement.py:24-26 | displacements are closed under the product, and the constructor's preconditions hold for the result |
| Displacements.SandwichMovesPoint | quaternions/displacement.py:24-26 | `D * P * D.conj3()` sends the point `p` to `qr (p + qt) conj(qr)` |
| Displacements.Displacement.constructor | quaternions/displacement.py:23-26 | a unit `qr` and a pure `qt` give `(qr, 0.5 qr qt)` |
| Displacements.Displacement.Value | quaternions/displacement.py:26 | the object's current `(qr, qd)` pair as a dual quaternion |
| Displacements.Displacement.SetDis | quaternions/displacement.py:28-29 | `setdis(v)` sets `qd` to `0.5 QPoint(v)` and keeps `qr` |
| Displacements.Displacement.SetRotation | quaternions/displacement.py:31-32 | `setrotation(q)` sets `qr` to `q` and keeps `qd` |
| Displacements.SetDisTranslation | quaternions/displacement.py:28-29 | `setdis(v)` writes the dual part of an unrotated `Displacement(Quaternion(), QPoint(v))`; under a rotation the recovered translation is `conj(qr) QPoint(v)` |

## Left out

- `__abs__`, `normalize`, `polar`, `vecang`, `log` and `exp` of `Quaternion`: these
  need floating-point square roots, logarithms and trigonometry, which `real` cannot
  state exactly. The exact squared norm stands in wherever a norm is used.
- `from_mat`: it needs a square root, and its first branch has an operator-precedence
  slip, `(M[0, 2]-M[2, 0]/S)`, so an exact model of it would not mean much.
- `DualNumber.sqrt`: it needs a square root.
- `DualQuaternion.abs`: it calls an undefined method and needs a square root.
- `__repr__` of all three classes: these only format strings.
- numpy dtypes and shapes: the scalar, 1-D and 2-D branches of `Quaternion.__init__`,
  `astype(complex)`, broadcasting, and slice or mask keys in get and set. Batches are
  one-dimensional arrays indexed by a single natural number.
- Tolerances: `allclose` and floating-point rounding are replaced by exact equality
  over `real`.
- Quaternions.Div: requires a non-zero squared norm. numpy divides by zero to `inf`
  there, and `real` has no such value.
- Quaternions.Scale and DualQuaternions.Scale: the scalar of `__rmul__` is real. A
  complex scalar, which numpy also accepts, is not modelled.
- Quaternions.Pow: the exponent is an `int`. A non-integer exponent, which makes
  `range` raise, is not modelled.
- DualNumbers.Inv: the guard is on one entry. For a batch, numpy's `self.r != 0` is an
  array, and asserting it raises unless the batch has one entry. That is not modelled.
- DualQuaternions.DualQuaternion.constructor: additionally requires that the two parts
  do not share arrays. The source only checks the shapes, and aliased parts are not
  modelled.
- DualNumbers.DualNumber.SetItem: requires that the two payloads are distinct arrays,
  and that `val`'s dual payload is not this object's real payload, so that the first
  write cannot change what the second reads. Aliased payloads are not modelled.
- Displacements.Displacement: holds one entry rather than a batch. Its fields are
  whole values that the setters replace, as the source's setters replace whole fields.
- The `pdb.set_trace()` in the shape assertion of `DualQuaternion.__init__` is a
  debugging hook. The assertion is a plain precondition.
