/** Plain value types shared by the exporter: optional values, the vector records the flat
    scene description uses, and the affine matrix the coordinate fix-up builds. */
module Values {

  datatype Option<T> = None | Some(value: T)

  /** A homogeneous position or direction (x, y, z, w), four doubles in the flat structs. */
  datatype Vec4 = Vec4(x: real, y: real, z: real, w: real)

  /** A texture coordinate (x, y). */
  datatype Vec2 = Vec2(x: real, y: real)

  /** The value a value-initialised Vector4 holds (std::vector::resize). */
  const Zero4: Vec4 := Vec4(0.0, 0.0, 0.0, 0.0)

  /** The rotation part of an affine matrix. ZUpToYUp is the quaternion (x, y, z, w) = (c, 0, 0, c)
      with c = cos(pi/4), a quarter turn about the X axis; its irrational component stays symbolic. */
  datatype Rotation = NoRotation | ZUpToYUp

  /** An affine matrix as the exporter builds it: a rotation part and a uniform scaling part.
      The translation part is never set and stays that of the identity. */
  datatype AMatrix = AMatrix(rotation: Rotation, scaling: real)

  /** FbxAMatrix::SetIdentity. */
  function Identity(): AMatrix { AMatrix(NoRotation, 1.0) }

  /** fix_rot_m: the input with its rotation replaced by the Z-up to Y-up quaternion. */
  function FixRotM(m: AMatrix): (r: AMatrix)
    ensures r.rotation == ZUpToYUp && r.scaling == m.scaling
  {
    m.(rotation := ZUpToYUp)
  }

  /** fix_scale_m: the input with its scaling replaced by unit_scale * 100 on every axis, because
      the engine's native unit is the centimetre. */
  function FixScaleM(m: AMatrix, unitScale: real): (r: AMatrix)
    ensures r.rotation == m.rotation && r.scaling == unitScale * 100.0
  {
    m.(scaling := unitScale * 100.0)
  }

  /** The matrix fix_normal_rot and the normal conversion apply: rotation only. */
  function NormalMatrix(): AMatrix { FixRotM(Identity()) }

  /** The matrix fix_coord applies to positions: the same rotation, then the unit scaling. */
  function CoordMatrix(unitScale: real): AMatrix { FixScaleM(FixRotM(Identity()), unitScale) }
}
