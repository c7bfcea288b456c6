/** Exact complex numbers over `real`: the component type in which the
    quaternion batches store their two packed halves `a = w + x i` and
    `b = y + z i`. Only the operations the quaternion code uses are given. */
module Complexes {

  datatype Complex = C(re: real, im: real)

  const Zero: Complex := C(0.0, 0.0)
  const One: Complex := C(1.0, 0.0)

  function Neg(z: Complex): Complex { C(-z.re, -z.im) }

  function Add(z: Complex, w: Complex): Complex { C(z.re + w.re, z.im + w.im) }

  function Sub(z: Complex, w: Complex): Complex { C(z.re - w.re, z.im - w.im) }

  function Mul(z: Complex, w: Complex): Complex
  {
    C(z.re * w.re - z.im * w.im, z.re * w.im + z.im * w.re)
  }

  /** Multiplication by a real scalar. */
  function Scale(k: real, z: Complex): Complex { C(k * z.re, k * z.im) }

  function Conj(z: Complex): Complex { C(z.re, -z.im) }

  /** The squared modulus `|z|^2`. */
  function NormSq(z: Complex): real { z.re * z.re + z.im * z.im }
}
