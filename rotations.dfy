/**
 * Rotation helpers of the switched model: the base-to-origin rotation
 * matrix for XYZ Euler angles, its transpose, and the skew matrix of the
 * cross product. Sine and cosine are not interpreted: they are supplied as
 * a `Trig` value, and any property that needs sin^2 + cos^2 = 1 says so.
 */
module Rotations {
  import opened Wrappers

  datatype Vec3 = Vec3(x: real, y: real, z: real)

  /** A 3x3 matrix, entry `aRC` in row R and column C. */
  datatype Mat3 = Mat3(a00: real, a01: real, a02: real,
                       a10: real, a11: real, a12: real,
                       a20: real, a21: real, a22: real)

  /** The trigonometric primitives; the model does not evaluate them. */
  datatype Trig = Trig(sin: real -> real, cos: real -> real)

  predicate Pythagorean(trig: Trig, angle: real) {
    trig.sin(angle) * trig.sin(angle) + trig.cos(angle) * trig.cos(angle) == 1.0
  }

  function Add(a: Vec3, b: Vec3): Vec3 { Vec3(a.x + b.x, a.y + b.y, a.z + b.z) }

  function Cross(a: Vec3, b: Vec3): Vec3 {
    Vec3(a.y * b.z - a.z * b.y, a.z * b.x - a.x * b.z, a.x * b.y - a.y * b.x)
  }

  function MatVec(m: Mat3, v: Vec3): Vec3 {
    Vec3(m.a00 * v.x + m.a01 * v.y + m.a02 * v.z,
         m.a10 * v.x + m.a11 * v.y + m.a12 * v.z,
         m.a20 * v.x + m.a21 * v.y + m.a22 * v.z)
  }

  function MatMul(p: Mat3, q: Mat3): Mat3 {
    Mat3(p.a00 * q.a00 + p.a01 * q.a10 + p.a02 * q.a20,
         p.a00 * q.a01 + p.a01 * q.a11 + p.a02 * q.a21,
         p.a00 * q.a02 + p.a01 * q.a12 + p.a02 * q.a22,
         p.a10 * q.a00 + p.a11 * q.a10 + p.a12 * q.a20,
         p.a10 * q.a01 + p.a11 * q.a11 + p.a12 * q.a21,
         p.a10 * q.a02 + p.a11 * q.a12 + p.a12 * q.a22,
         p.a20 * q.a00 + p.a21 * q.a10 + p.a22 * q.a20,
         p.a20 * q.a01 + p.a21 * q.a11 + p.a22 * q.a21,
         p.a20 * q.a02 + p.a21 * q.a12 + p.a22 * q.a22)
  }

  function Transpose(m: Mat3): (t: Mat3)
    ensures t.a01 == m.a10 && t.a10 == m.a01 && t.a02 == m.a20 && t.a20 == m.a02
    ensures t.a12 == m.a21 && t.a21 == m.a12
    ensures t.a00 == m.a00 && t.a11 == m.a11 && t.a22 == m.a22
  {
    Mat3(m.a00, m.a10, m.a20, m.a01, m.a11, m.a21, m.a02, m.a12, m.a22)
  }

  const Identity: Mat3 := Mat3(1.0, 0.0, 0.0, 0.0, 1.0, 0.0, 0.0, 0.0, 1.0)

  /** Builds a matrix from nine coefficients in Eigen's column-major linear order. */
  function FromColumnMajor(c: seq<real>): Mat3
    requires |c| == 9
  {
    Mat3(c[0], c[3], c[6], c[1], c[4], c[7], c[2], c[5], c[8])
  }

  /** Elementary rotations about x, y and z. */
  function RotX(s: real, c: real): Mat3 { Mat3(1.0, 0.0, 0.0, 0.0, c, -s, 0.0, s, c) }
  function RotY(s: real, c: real): Mat3 { Mat3(c, 0.0, s, 0.0, 1.0, 0.0, -s, 0.0, c) }
  function RotZ(s: real, c: real): Mat3 { Mat3(c, -s, 0.0, s, c, 0.0, 0.0, 0.0, 1.0) }

  /**
   * The generated code of rotationMatrixBaseToOrigin: temporaries v0..v7
   * and the nine column-major coefficients, in the order the code assigns them.
   */
  function RotationMatrixBaseToOrigin(trig: Trig, euler: Vec3): (r: Mat3)
    ensures r == MatMul(MatMul(RotX(trig.sin(euler.x), trig.cos(euler.x)),
                               RotY(trig.sin(euler.y), trig.cos(euler.y))),
                        RotZ(trig.sin(euler.z), trig.cos(euler.z)))
  {
    var v0 := trig.cos(euler.y);
    var v1 := trig.cos(euler.z);
    var r0 := v0 * v1;
    var v2 := trig.sin(euler.x);
    var v3 := -v2;
    var r6 := trig.sin(euler.y);
    var v4 := -r6;
    var v5 := v3 * v4;
    var v6 := trig.cos(euler.x);
    var v7 := trig.sin(euler.z);
    var r1 := v5 * v1 + v6 * v7;
    var v4' := v6 * v4;
    var r2 := v4' * v1 + v2 * v7;
    var v7' := -v7;
    var r3 := v0 * v7';
    var r4 := v5 * v7' + v6 * v1;
    var r5 := v4' * v7' + v2 * v1;
    var r7 := v3 * v0;
    var r8 := v6 * v0;
    FromColumnMajor([r0, r1, r2, r3, r4, r5, r6, r7, r8])
  }

  /**
   * The transpose of the base-to-origin rotation: the elementary rotations
   * undone in reverse order, Rz(yaw)ᵀ·Ry(pitch)ᵀ·Rx(roll)ᵀ.
   */
  function RotationMatrixOriginToBase(trig: Trig, euler: Vec3): (r: Mat3)
    ensures r == MatMul(Transpose(RotZ(trig.sin(euler.z), trig.cos(euler.z))),
                        MatMul(Transpose(RotY(trig.sin(euler.y), trig.cos(euler.y))),
                               Transpose(RotX(trig.sin(euler.x), trig.cos(euler.x)))))
  {
    var rx := RotX(trig.sin(euler.x), trig.cos(euler.x));
    var ry := RotY(trig.sin(euler.y), trig.cos(euler.y));
    var rz := RotZ(trig.sin(euler.z), trig.cos(euler.z));
    TransposeOfProduct(MatMul(rx, ry), rz);
    TransposeOfProduct(rx, ry);
    Transpose(RotationMatrixBaseToOrigin(trig, euler))
  }

  /** Each elementary rotation is undone by its transpose. */
  lemma RotXInverse(s: real, c: real, v: Vec3)
    requires s * s + c * c == 1.0
    ensures MatVec(Transpose(RotX(s, c)), MatVec(RotX(s, c), v)) == v
  {
    assert c * (c * v.y - s * v.z) + s * (s * v.y + c * v.z) == (s * s + c * c) * v.y;
    assert -s * (c * v.y - s * v.z) + c * (s * v.y + c * v.z) == (s * s + c * c) * v.z;
  }

  lemma RotYInverse(s: real, c: real, v: Vec3)
    requires s * s + c * c == 1.0
    ensures MatVec(Transpose(RotY(s, c)), MatVec(RotY(s, c), v)) == v
  {
    assert c * (c * v.x + s * v.z) - s * (-s * v.x + c * v.z) == (s * s + c * c) * v.x;
    assert s * (c * v.x + s * v.z) + c * (-s * v.x + c * v.z) == (s * s + c * c) * v.z;
  }

  lemma RotZInverse(s: real, c: real, v: Vec3)
    requires s * s + c * c == 1.0
    ensures MatVec(Transpose(RotZ(s, c)), MatVec(RotZ(s, c), v)) == v
  {
    assert c * (c * v.x - s * v.y) + s * (s * v.x + c * v.y) == (s * s + c * c) * v.x;
    assert -s * (c * v.x - s * v.y) + c * (s * v.x + c * v.y) == (s * s + c * c) * v.y;
  }

  lemma TransposeOfProduct(p: Mat3, q: Mat3)
    ensures Transpose(MatMul(p, q)) == MatMul(Transpose(q), Transpose(p))
  {}

  /** One entry of a triple product, regrouped. */
  lemma EntryAssoc(p0: real, p1: real, p2: real, q: Mat3, w0: real, w1: real, w2: real)
    ensures (p0 * q.a00 + p1 * q.a10 + p2 * q.a20) * w0 + (p0 * q.a01 + p1 * q.a11 + p2 * q.a21) * w1
          + (p0 * q.a02 + p1 * q.a12 + p2 * q.a22) * w2
         == p0 * (q.a00 * w0 + q.a01 * w1 + q.a02 * w2) + p1 * (q.a10 * w0 + q.a11 * w1 + q.a12 * w2)
          + p2 * (q.a20 * w0 + q.a21 * w1 + q.a22 * w2)
  {}

  lemma MatVecOfProduct(p: Mat3, q: Mat3, v: Vec3)
    ensures MatVec(MatMul(p, q), v) == MatVec(p, MatVec(q, v))
  {
    EntryAssoc(p.a00, p.a01, p.a02, q, v.x, v.y, v.z);
    EntryAssoc(p.a10, p.a11, p.a12, q, v.x, v.y, v.z);
    EntryAssoc(p.a20, p.a21, p.a22, q, v.x, v.y, v.z);
  }

  /**
   * The origin-to-base matrix undoes the base-to-origin matrix: rotating a
   * vector into the origin frame and back returns it, whenever sine and
   * cosine satisfy sin^2 + cos^2 = 1 at the three angles.
   */
  lemma {:induction false} OriginToBaseInvertsBaseToOrigin(trig: Trig, euler: Vec3, v: Vec3)
    requires Pythagorean(trig, euler.x) && Pythagorean(trig, euler.y) && Pythagorean(trig, euler.z)
    ensures MatVec(RotationMatrixOriginToBase(trig, euler), MatVec(RotationMatrixBaseToOrigin(trig, euler), v)) == v
  {
    var rx := RotX(trig.sin(euler.x), trig.cos(euler.x));
    var ry := RotY(trig.sin(euler.y), trig.cos(euler.y));
    var rz := RotZ(trig.sin(euler.z), trig.cos(euler.z));
    var r := RotationMatrixBaseToOrigin(trig, euler);
    TransposeOfProduct(MatMul(rx, ry), rz);
    TransposeOfProduct(rx, ry);
    var u := MatVec(r, v);
    MatVecOfProduct(MatMul(rx, ry), rz, v);
    MatVecOfProduct(rx, ry, MatVec(rz, v));
    assert u == MatVec(rx, MatVec(ry, MatVec(rz, v)));
    MatVecOfProduct(Transpose(rz), MatMul(Transpose(ry), Transpose(rx)), u);
    MatVecOfProduct(Transpose(ry), Transpose(rx), u);
    RotXInverse(trig.sin(euler.x), trig.cos(euler.x), MatVec(ry, MatVec(rz, v)));
    RotYInverse(trig.sin(euler.y), trig.cos(euler.y), MatVec(rz, v));
    RotZInverse(trig.sin(euler.z), trig.cos(euler.z), v);
  }

  /**
   * An Eigen dense object as crossProductMatrix sees it: its shape, storage
   * order and coefficients in linear order. Eigen fixes row vectors of
   * compile-time size 1xN to row-major storage, so for them the inner
   * dimension is the number of columns.
   */
  datatype DenseInput = DenseInput(rows: nat, cols: nat, rowMajor: bool, coeffs: seq<real>)

  function InnerSize(d: DenseInput): nat { if d.rowMajor then d.cols else d.rows }
  function OuterSize(d: DenseInput): nat { if d.rowMajor then d.rows else d.cols }

  datatype RotationError = NotA3By1Vector

  /** The vector a dense input of three coefficients stands for. */
  function AsVec3(d: DenseInput): Vec3
    requires |d.coeffs| == 3
  {
    Vec3(d.coeffs[0], d.coeffs[1], d.coeffs[2])
  }

  /**
   * crossProductMatrix: fails unless the inner size is 3 and the outer size 1
   * (a column vector, or a row vector stored row-major); otherwise the skew
   * matrix whose product with any vector is the cross product.
   */
  function CrossProductMatrix(d: DenseInput): (r: Result<Mat3, RotationError>)
    requires |d.coeffs| == d.rows * d.cols
    ensures r.Success? <==> InnerSize(d) == 3 && OuterSize(d) == 1
    ensures r.Failure? ==> r.error == NotA3By1Vector
    ensures r.Success? ==> |d.coeffs| == 3
    ensures r.Success? ==> forall b: Vec3 {:trigger MatVec(r.value, b)} :: MatVec(r.value, b) == Cross(AsVec3(d), b)
    ensures r.Success? ==> Transpose(r.value) == Negated(r.value)
  {
    if InnerSize(d) != 3 || OuterSize(d) != 1 then Failure(NotA3By1Vector)
    else
      assert d.rows * d.cols == 3;
      var a := d.coeffs;
      Success(Mat3(0.0, -a[2], a[1], a[2], 0.0, -a[0], -a[1], a[0], 0.0))
  }

  function Negated(m: Mat3): Mat3 {
    Mat3(-m.a00, -m.a01, -m.a02, -m.a10, -m.a11, -m.a12, -m.a20, -m.a21, -m.a22)
  }

  /** The cross product with the vector itself vanishes: the skew matrix annihilates its own vector. */
  lemma CrossProductMatrixAnnihilatesItsVector(d: DenseInput)
    requires |d.coeffs| == d.rows * d.cols
    requires CrossProductMatrix(d).Success?
    ensures MatVec(CrossProductMatrix(d).value, AsVec3(d)) == Vec3(0.0, 0.0, 0.0)
  {
    var r := CrossProductMatrix(d);
    assert MatVec(r.value, AsVec3(d)) == Cross(AsVec3(d), AsVec3(d));
  }
}
