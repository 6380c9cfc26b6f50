/** The coordinate fix-up: one matrix, built once, applied in place to the first n entries of
    a vertex or normal buffer. The matrix product itself is the SDK's FbxAMatrix::MultT and is
    passed in as `multT`. */
module Transforms {
  import opened Values

  /** The buffer after its first n entries have each been replaced by m applied to them. */
  function Transformed(multT: (AMatrix, Vec4) -> Vec4, m: AMatrix, s: seq<Vec4>, n: nat): (r: seq<Vec4>)
    requires n <= |s|
  {
    seq(|s|, i requires 0 <= i < |s| => if i < n then multT(m, s[i]) else s[i])
  }

  /** fix_coord: Z-up to Y-up rotation and unit scaling of the first vertex_count positions. */
  method FixCoord(multT: (AMatrix, Vec4) -> Vec4, unitScale: real, vertices: array<Vec4>, vertexCount: nat)
    requires vertexCount <= vertices.Length
    modifies vertices
    ensures vertices[..] == Transformed(multT, CoordMatrix(unitScale), old(vertices[..]), vertexCount)
  {
    var m := Identity();
    m := FixRotM(m);
    m := FixScaleM(m, unitScale);
    var i := 0;
    while i < vertexCount
      invariant i <= vertexCount
      invariant vertices[..] == Transformed(multT, m, old(vertices[..]), i)
    {
      vertices[i] := multT(m, vertices[i]);
      i := i + 1;
    }
  }

  /** fix_normal_rot: the same rotation, without scaling, on the first normal_count normals. */
  method FixNormalRot(multT: (AMatrix, Vec4) -> Vec4, normals: array<Vec4>, normalCount: nat)
    requires normalCount <= normals.Length
    modifies normals
    ensures normals[..] == Transformed(multT, NormalMatrix(), old(normals[..]), normalCount)
  {
    var m := Identity();
    m := FixRotM(m);
    var i := 0;
    while i < normalCount
      invariant i <= normalCount
      invariant normals[..] == Transformed(multT, m, old(normals[..]), i)
    {
      normals[i] := multT(m, normals[i]);
      i := i + 1;
    }
  }

  /** How the two conversion matrices are built: both carry the same rotation; the one for
      positions scales by unit_scale * 100, the one for normals by 1. */
  lemma NormalsRotateLikePositions(unitScale: real)
    ensures CoordMatrix(unitScale).rotation == NormalMatrix().rotation == ZUpToYUp
    ensures CoordMatrix(unitScale).scaling == unitScale * 100.0 && NormalMatrix().scaling == 1.0
  {
  }
}
