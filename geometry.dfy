/**
  The System.Numerics values the engine computes with: 2- and 4-component
  vectors, the engine's `Rectangle`, rotations and 4x4 matrices. Floats
  become `real`, so IEEE rounding is not modelled. Matrices follow
  System.Numerics: points are ROW vectors, `v * M`, so in `A * B` the
  transform `A` is applied first.
*/
module Geometry {

  datatype Vec2 = Vec2(x: real, y: real)

  datatype Vec4 = Vec4(x: real, y: real, z: real, w: real)

  /** `Nova2D.Engine.Graphics.Rectangle`: a texture region in pixels. */
  datatype Rect = Rect(x: real, y: real, width: real, height: real)

  /**
    A rotation about Z. The source passes radians to `CreateRotationZ`,
    which only ever uses their cosine and sine; the model carries that pair.
  */
  datatype Angle = Angle(cos: real, sin: real)

  const Zero2: Vec2 := Vec2(0.0, 0.0)
  const One2: Vec2 := Vec2(1.0, 1.0)
  const One4: Vec4 := Vec4(1.0, 1.0, 1.0, 1.0)
  /** `default(Rectangle)`. */
  const EmptyRect: Rect := Rect(0.0, 0.0, 0.0, 0.0)
  /** A rotation of 0 radians. */
  const NoRotation: Angle := Angle(1.0, 0.0)

  function Add(a: Vec2, b: Vec2): Vec2 { Vec2(a.x + b.x, a.y + b.y) }

  function Sub(a: Vec2, b: Vec2): Vec2 { Vec2(a.x - b.x, a.y - b.y) }

  /** Componentwise product, `Vector2 * Vector2`. */
  function Mul(a: Vec2, b: Vec2): Vec2 { Vec2(a.x * b.x, a.y * b.y) }

  /** `Vector2 * float`. */
  function Scale(a: Vec2, k: real): Vec2 { Vec2(a.x * k, a.y * k) }

  /** Rotates `p` counter-clockwise by `r`, as a row vector times `CreateRotationZ`. */
  function Rotate(p: Vec2, r: Angle): Vec2
  {
    Vec2(p.x * r.cos - p.y * r.sin, p.x * r.sin + p.y * r.cos)
  }

  datatype Mat4 = Mat4(
    m11: real, m12: real, m13: real, m14: real,
    m21: real, m22: real, m23: real, m24: real,
    m31: real, m32: real, m33: real, m34: real,
    m41: real, m42: real, m43: real, m44: real)

  /** `default(Matrix4x4)`: every entry zero. */
  const ZeroMatrix: Mat4 := Mat4(0.0, 0.0, 0.0, 0.0, 0.0, 0.0, 0.0, 0.0,
                                 0.0, 0.0, 0.0, 0.0, 0.0, 0.0, 0.0, 0.0)

  /** `Matrix4x4 * Matrix4x4`. */
  function MatMul(a: Mat4, b: Mat4): Mat4
  {
    Mat4(
      a.m11 * b.m11 + a.m12 * b.m21 + a.m13 * b.m31 + a.m14 * b.m41,
      a.m11 * b.m12 + a.m12 * b.m22 + a.m13 * b.m32 + a.m14 * b.m42,
      a.m11 * b.m13 + a.m12 * b.m23 + a.m13 * b.m33 + a.m14 * b.m43,
      a.m11 * b.m14 + a.m12 * b.m24 + a.m13 * b.m34 + a.m14 * b.m44,
      a.m21 * b.m11 + a.m22 * b.m21 + a.m23 * b.m31 + a.m24 * b.m41,
      a.m21 * b.m12 + a.m22 * b.m22 + a.m23 * b.m32 + a.m24 * b.m42,
      a.m21 * b.m13 + a.m22 * b.m23 + a.m23 * b.m33 + a.m24 * b.m43,
      a.m21 * b.m14 + a.m22 * b.m24 + a.m23 * b.m34 + a.m24 * b.m44,
      a.m31 * b.m11 + a.m32 * b.m21 + a.m33 * b.m31 + a.m34 * b.m41,
      a.m31 * b.m12 + a.m32 * b.m22 + a.m33 * b.m32 + a.m34 * b.m42,
      a.m31 * b.m13 + a.m32 * b.m23 + a.m33 * b.m33 + a.m34 * b.m43,
      a.m31 * b.m14 + a.m32 * b.m24 + a.m33 * b.m34 + a.m34 * b.m44,
      a.m41 * b.m11 + a.m42 * b.m21 + a.m43 * b.m31 + a.m44 * b.m41,
      a.m41 * b.m12 + a.m42 * b.m22 + a.m43 * b.m32 + a.m44 * b.m42,
      a.m41 * b.m13 + a.m42 * b.m23 + a.m43 * b.m33 + a.m44 * b.m43,
      a.m41 * b.m14 + a.m42 * b.m24 + a.m43 * b.m34 + a.m44 * b.m44)
  }

  /** `Matrix4x4.CreateTranslation(x, y, z)`. */
  function Translation(x: real, y: real, z: real): Mat4
  {
    Mat4(1.0, 0.0, 0.0, 0.0,
         0.0, 1.0, 0.0, 0.0,
         0.0, 0.0, 1.0, 0.0,
         x, y, z, 1.0)
  }

  /** `Matrix4x4.CreateScale(x, y, z)`. */
  function Scaling(x: real, y: real, z: real): Mat4
  {
    Mat4(x, 0.0, 0.0, 0.0,
         0.0, y, 0.0, 0.0,
         0.0, 0.0, z, 0.0,
         0.0, 0.0, 0.0, 1.0)
  }

  /** `Matrix4x4.CreateRotationZ(radians)`, given the cosine and sine of the angle. */
  function RotationZ(r: Angle): Mat4
  {
    Mat4(r.cos, r.sin, 0.0, 0.0,
         -r.sin, r.cos, 0.0, 0.0,
         0.0, 0.0, 1.0, 0.0,
         0.0, 0.0, 0.0, 1.0)
  }

  /** `Matrix4x4.CreateOrthographicOffCenter(left, right, bottom, top, near, far)`. */
  function OrthographicOffCenter(left: real, right: real, bottom: real, top: real,
                                 near: real, far: real): Mat4
    requires left != right && bottom != top && near != far
  {
    Mat4(2.0 / (right - left), 0.0, 0.0, 0.0,
         0.0, 2.0 / (top - bottom), 0.0, 0.0,
         0.0, 0.0, 1.0 / (near - far), 0.0,
         (left + right) / (left - right), (top + bottom) / (bottom - top), near / (near - far), 1.0)
  }

  /** `Vector3.Transform(new Vector3(p, 0), m)`, keeping X and Y. */
  function TransformPoint(p: Vec2, m: Mat4): Vec2
  {
    Vec2(p.x * m.m11 + p.y * m.m21 + m.m41, p.x * m.m12 + p.y * m.m22 + m.m42)
  }

  /**
    A matrix that maps the plane z = 0, w = 1 into itself up to a Z
    component that the next matrix ignores: no perspective column and no
    influence of Z on X and Y.
  */
  ghost predicate PlanarAffine(m: Mat4)
  {
    m.m13 == 0.0 && m.m23 == 0.0 &&
    m.m14 == 0.0 && m.m24 == 0.0 && m.m34 == 0.0 && m.m44 == 1.0 &&
    m.m31 == 0.0 && m.m32 == 0.0
  }

  lemma TranslationScalingRotationArePlanar(x: real, y: real, z: real, r: Angle)
    ensures PlanarAffine(Translation(x, y, z))
    ensures PlanarAffine(Scaling(x, y, z))
    ensures PlanarAffine(RotationZ(r))
  {
  }

  /** Row-vector semantics: transforming by `a * b` transforms by `a`, then by `b`. */
  lemma TransformPointMatMul(p: Vec2, a: Mat4, b: Mat4)
    requires PlanarAffine(a) && PlanarAffine(b)
    ensures PlanarAffine(MatMul(a, b))
    ensures TransformPoint(p, MatMul(a, b)) == TransformPoint(TransformPoint(p, a), b)
  {
    var ab := MatMul(a, b);
    RowTimesProduct(p.x, p.y, a.m11, a.m12, a.m21, a.m22, a.m41, a.m42, b.m11, b.m21, b.m41);
    RowTimesProduct(p.x, p.y, a.m11, a.m12, a.m21, a.m22, a.m41, a.m42, b.m12, b.m22, b.m42);
    assert TransformPoint(p, ab).x == p.x * ab.m11 + p.y * ab.m21 + ab.m41;
  }

  /** One output coordinate of `TransformPointMatMul`, on plain reals. */
  lemma RowTimesProduct(px: real, py: real, a11: real, a12: real, a21: real, a22: real,
                        a41: real, a42: real, b1: real, b2: real, b4: real)
    ensures px * (a11 * b1 + a12 * b2) + py * (a21 * b1 + a22 * b2) + (a41 * b1 + a42 * b2 + b4)
         == (px * a11 + py * a21 + a41) * b1 + (px * a12 + py * a22 + a42) * b2 + b4
  {
  }
}
