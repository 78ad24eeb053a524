/**
 * Exact 3-vectors and 3x3 matrices over the reals, as far as the vacuum coast
 * needs them: matrix-vector product, vector sum, and the matrix sum and product
 * used to state how the costate update composes.
 */
module LinAlg {

  datatype V3 = V3(x: real, y: real, z: real)

  /** A 3x3 matrix, given by its rows. */
  datatype M3 = M3(r0: V3, r1: V3, r2: V3)

  const Zero3: V3 := V3(0.0, 0.0, 0.0)
  const ZeroM: M3 := M3(Zero3, Zero3, Zero3)
  const Identity: M3 := M3(V3(1.0, 0.0, 0.0), V3(0.0, 1.0, 0.0), V3(0.0, 0.0, 1.0))

  function Dot(a: V3, b: V3): real
  {
    a.x * b.x + a.y * b.y + a.z * b.z
  }

  function Add(a: V3, b: V3): V3
  {
    V3(a.x + b.x, a.y + b.y, a.z + b.z)
  }

  function Scale(c: real, a: V3): V3
  {
    V3(c * a.x, c * a.y, c * a.z)
  }

  /** The product m * v. */
  function Mul(m: M3, v: V3): V3
  {
    V3(Dot(m.r0, v), Dot(m.r1, v), Dot(m.r2, v))
  }

  function AddM(a: M3, b: M3): M3
  {
    M3(Add(a.r0, b.r0), Add(a.r1, b.r1), Add(a.r2, b.r2))
  }

  /** Row vector r times matrix b. */
  function RowMul(r: V3, b: M3): V3
  {
    Add(Add(Scale(r.x, b.r0), Scale(r.y, b.r1)), Scale(r.z, b.r2))
  }

  /** The product a * b. */
  function MulM(a: M3, b: M3): M3
  {
    M3(RowMul(a.r0, b), RowMul(a.r1, b), RowMul(a.r2, b))
  }

  lemma DotRowMul(r: V3, b: M3, v: V3)
    ensures Dot(RowMul(r, b), v) == Dot(r, Mul(b, v))
  {
    calc {
      Dot(RowMul(r, b), v);
      r.x * Dot(b.r0, v) + r.y * Dot(b.r1, v) + r.z * Dot(b.r2, v);
      Dot(r, Mul(b, v));
    }
  }

  /** (a * b) * v == a * (b * v) */
  lemma MulMAssoc(a: M3, b: M3, v: V3)
    ensures Mul(MulM(a, b), v) == Mul(a, Mul(b, v))
  {
    DotRowMul(a.r0, b, v);
    DotRowMul(a.r1, b, v);
    DotRowMul(a.r2, b, v);
  }

  /** (a + b) * v == a * v + b * v */
  lemma AddMDistrib(a: M3, b: M3, v: V3)
    ensures Mul(AddM(a, b), v) == Add(Mul(a, v), Mul(b, v))
  {
  }

  /** m * (u + w) == m * u + m * w */
  lemma MulAddDistrib(m: M3, u: V3, w: V3)
    ensures Mul(m, Add(u, w)) == Add(Mul(m, u), Mul(m, w))
  {
  }

  lemma MulIdentity(v: V3)
    ensures Mul(Identity, v) == v
  {
  }

  lemma MulZeroM(v: V3)
    ensures Mul(ZeroM, v) == Zero3
  {
  }

  lemma AddZero3(v: V3)
    ensures Add(v, Zero3) == v && Add(Zero3, v) == v
  {
  }

  lemma ScaleOneZero(v: V3)
    ensures Scale(1.0, v) == v && Scale(0.0, v) == Zero3
  {
  }

  lemma MulMIdentityLeft(m: M3)
    ensures MulM(Identity, m) == m
  {
    ScaleOneZero(m.r0);
    ScaleOneZero(m.r1);
    ScaleOneZero(m.r2);
    AddZero3(m.r0);
    AddZero3(m.r1);
    AddZero3(m.r2);
    assert RowMul(Identity.r0, m) == m.r0;
    assert RowMul(Identity.r1, m) == m.r1;
    assert RowMul(Identity.r2, m) == m.r2;
  }

  lemma MulMZeroLeft(m: M3)
    ensures MulM(ZeroM, m) == ZeroM
  {
  }

  lemma AddMZero(m: M3)
    ensures AddM(m, ZeroM) == m && AddM(ZeroM, m) == m
  {
  }
}
