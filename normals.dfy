/** Per-polygon normals expanded to per-corner normals (vnrm_from_pnrm, and the identical
    vertex_normal_from_poly_normal of the older exporter): every corner of polygon i receives
    polygon i's normal, rotated by the Z-up to Y-up matrix. */
module Normals {
  import opened Values
  import opened Codec

  /** `s` with the positions in [from, to) overwritten by v. */
  function Paint(s: seq<Vec4>, from: nat, to: nat, v: Vec4): (r: seq<Vec4>)
  {
    seq(|s|, j requires 0 <= j < |s| => if from <= j < to then v else s[j])
  }

  /** The corner-normal buffer after the first k polygons have been written: index_count
      default values, then each polygon's range overwritten by its rotated normal, later
      polygons over earlier ones. */
  function Spread(multT: (AMatrix, Vec4) -> Vec4, polys: seq<nat>, polyNormals: seq<Vec4>, indexCount: nat, k: nat): (r: seq<Vec4>)
    requires k <= |polys| <= |polyNormals|
    ensures |r| == indexCount
  {
    if k == 0 then seq(indexCount, _ => Zero4)
    else Paint(Spread(multT, polys, polyNormals, indexCount, k - 1),
               polys[k - 1], PolygonEnd(polys, indexCount, k - 1), multT(NormalMatrix(), polyNormals[k - 1]))
  }

  /** Corner j lies in polygon i's range. */
  predicate Covers(polys: seq<nat>, indexCount: nat, i: nat, j: nat)
    requires i < |polys|
  {
    polys[i] <= j < PolygonEnd(polys, indexCount, i)
  }

  /** A corner that no polygon's range covers keeps the value-initialised default. */
  lemma {:induction false} UncoveredCornerKeepsDefault(multT: (AMatrix, Vec4) -> Vec4, polys: seq<nat>,
                                                       polyNormals: seq<Vec4>, indexCount: nat, k: nat, j: nat)
    requires k <= |polys| <= |polyNormals| && j < indexCount
    requires forall i :: 0 <= i < k ==> !Covers(polys, indexCount, i, j)
    ensures Spread(multT, polys, polyNormals, indexCount, k)[j] == Zero4
  {
    if k > 0 {
      assert !Covers(polys, indexCount, k - 1, j);
      UncoveredCornerKeepsDefault(multT, polys, polyNormals, indexCount, k - 1, j);
    }
  }

  /** With a never-decreasing offset table the ranges do not overlap, so every corner of polygon
      i ends up holding polygon i's rotated normal. */
  lemma {:induction false} CoveredCornerGetsPolygonNormal(multT: (AMatrix, Vec4) -> Vec4, polys: seq<nat>,
                                                          polyNormals: seq<Vec4>, indexCount: nat, k: nat, i: nat, j: nat)
    requires k <= |polys| <= |polyNormals| && j < indexCount
    requires forall a, b :: 0 <= a < b < |polys| ==> polys[a] <= polys[b]
    requires i < k && Covers(polys, indexCount, i, j)
    ensures Spread(multT, polys, polyNormals, indexCount, k)[j] == multT(NormalMatrix(), polyNormals[i])
  {
    if k - 1 != i {
      assert polys[i + 1] <= polys[k - 1];
      assert !Covers(polys, indexCount, k - 1, j);
      CoveredCornerGetsPolygonNormal(multT, polys, polyNormals, indexCount, k - 1, i, j);
    }
  }

  /** vnrm_from_pnrm: writes exactly index_count corner normals to out_vertex_normals and leaves
      the rest of that buffer alone. `indices` is never read. */
  method VertexNormalsFromPolygonNormals(multT: (AMatrix, Vec4) -> Vec4, indices: seq<nat>, indexCount: nat,
                                         polys: seq<nat>, polyNormals: seq<Vec4>, outVertexNormals: array<Vec4>)
    requires InBounds(polys, indexCount) && |polys| <= |polyNormals|
    requires indexCount <= outVertexNormals.Length
    modifies outVertexNormals
    ensures outVertexNormals[..indexCount] == Spread(multT, polys, polyNormals, indexCount, |polys|)
    ensures outVertexNormals[indexCount..] == old(outVertexNormals[indexCount..])
  {
    var vertexNormals := new Vec4[indexCount](_ => Zero4);
    var i := 0;
    while i < |polys|
      invariant i <= |polys|
      invariant vertexNormals[..] == Spread(multT, polys, polyNormals, indexCount, i)
      modifies vertexNormals
    {
      var currIndex := polys[i];
      var nextIndex := if i == |polys| - 1 then indexCount else polys[i + 1];
      assert nextIndex == PolygonEnd(polys, indexCount, i);
      var normal := polyNormals[i];
      var m := Identity();
      m := FixRotM(m);
      normal := multT(m, normal);
      ghost var before := vertexNormals[..];
      var j := currIndex;
      while j < nextIndex
        invariant currIndex <= nextIndex ==> currIndex <= j <= nextIndex
        invariant nextIndex < currIndex ==> j == currIndex
        invariant vertexNormals[..] == Paint(before, currIndex, j, normal)
      {
        vertexNormals[j] := normal;
        j := j + 1;
      }
      forall k | 0 <= k < indexCount
        ensures vertexNormals[k] == Paint(before, currIndex, nextIndex, normal)[k]
      {
        assert vertexNormals[k] == vertexNormals[..][k];
      }
      i := i + 1;
    }
    i := 0;
    while i < indexCount
      invariant i <= indexCount
      invariant outVertexNormals[..i] == vertexNormals[..i]
      invariant vertexNormals[..] == Spread(multT, polys, polyNormals, indexCount, |polys|)
      invariant outVertexNormals[indexCount..] == old(outVertexNormals[indexCount..])
    {
      outVertexNormals[i] := vertexNormals[i];
      i := i + 1;
    }
    assert vertexNormals[..indexCount] == vertexNormals[..];
  }
}
