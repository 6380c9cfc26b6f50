/** create_mesh: creates the SDK mesh named after its node, converts the caller's vertex buffer
    in place and copies it into the control points, replays the offset table as polygon calls,
    then creates one element per normal set and per UV set. */
module MeshBuild {
  import opened Values
  import opened Logs
  import opened Engine
  import opened Codec
  import opened Transforms
  import opened Attributes

  /** Which of the two exporter iterations: the current one passes each polygon's material
      index to BeginPolygon, the older one calls BeginPolygon without one. */
  datatype Version = Current | Legacy

  /** The flat mesh record. `vertices` is the caller's buffer, which create_mesh overwrites;
      `polys` and `material_indices` both have poly_count entries in the record. */
  datatype Mesh = Mesh(name: string, vertices: array<Vec4>, indices: seq<nat>, polys: seq<nat>,
                       materialIndices: seq<nat>, uvSets: seq<UvSet>, normalSets: seq<NormalSet>)

  /** Every read create_mesh performs stays inside the mesh's buffers. */
  predicate Readable(mesh: Mesh, version: Version)
  {
    InBounds(mesh.polys, |mesh.indices|) &&
    (version == Current ==> |mesh.polys| <= |mesh.materialIndices|) &&
    (forall k :: 0 <= k < |mesh.normalSets| ==> |mesh.indices| <= |mesh.normalSets[k].normal|) &&
    (forall k :: 0 <= k < |mesh.uvSets| ==> |mesh.indices| <= |mesh.uvSets[k].uv|)
  }

  /** What each BeginPolygon receives. */
  function MaterialTags(mesh: Mesh, version: Version): (r: seq<Option<nat>>)
    requires version == Current ==> |mesh.polys| <= |mesh.materialIndices|
    ensures |r| == |mesh.polys|
  {
    seq(|mesh.polys|, i requires 0 <= i < |mesh.polys| =>
      if version == Current then Some(mesh.materialIndices[i]) else None)
  }

  /** The polygons create_mesh emits. */
  function MeshPolygons(mesh: Mesh, version: Version): seq<Polygon>
    requires Readable(mesh, version)
  {
    Decode(mesh.polys, mesh.indices, MaterialTags(mesh, version))
  }

  function NormalSetsEvents(sets: seq<NormalSet>, n: nat): seq<Event>
    requires forall k :: 0 <= k < |sets| ==> n <= |sets[k].normal|
  {
    if sets == [] then []
    else
      var last := sets[|sets| - 1];
      NormalSetsEvents(sets[..|sets| - 1], n) + [CreateElementNormal] +
      ChannelEvents(last.name, NormalValues(last.normal[..n]))
  }

  function UvSetsEvents(sets: seq<UvSet>, n: nat): seq<Event>
    requires forall k :: 0 <= k < |sets| ==> n <= |sets[k].uv|
  {
    if sets == [] then []
    else
      var last := sets[|sets| - 1];
      UvSetsEvents(sets[..|sets| - 1], n) + [CreateElementUV(last.name)] +
      ChannelEvents(last.name, UvValues(last.uv[..n]))
  }

  /** The calls create_mesh makes for mesh handle h, given the control points it copies. */
  function MeshEvents(version: Version, h: Handle, name: string, mesh: Mesh, points: seq<Vec4>): seq<Event>
    requires Readable(mesh, version)
  {
    [Engine.CreateMesh(h, name), InitControlPoints(|points|), SetControlPoints(points)] +
    Emit(MeshPolygons(mesh, version)) +
    NormalSetsEvents(mesh.normalSets, |mesh.indices|) +
    UvSetsEvents(mesh.uvSets, |mesh.indices|)
  }

  /** Creating a mesh never ends a session. */
  lemma {:induction false} MeshEventsQuiet(version: Version, h: Handle, name: string, mesh: Mesh, points: seq<Vec4>)
    requires Readable(mesh, version)
    ensures Quiet(MeshEvents(version, h, name, mesh, points))
  {
    EmitQuiet(MeshPolygons(mesh, version));
    NormalSetsQuiet(mesh.normalSets, |mesh.indices|);
    UvSetsQuiet(mesh.uvSets, |mesh.indices|);
  }

  lemma {:induction false} NormalSetsQuiet(sets: seq<NormalSet>, n: nat)
    requires forall k :: 0 <= k < |sets| ==> n <= |sets[k].normal|
    ensures Quiet(NormalSetsEvents(sets, n))
  {
    if sets != [] {
      var last := sets[|sets| - 1];
      NormalSetsQuiet(sets[..|sets| - 1], n);
      ChannelQuiet(last.name, NormalValues(last.normal[..n]));
    }
  }

  lemma {:induction false} UvSetsQuiet(sets: seq<UvSet>, n: nat)
    requires forall k :: 0 <= k < |sets| ==> n <= |sets[k].uv|
    ensures Quiet(UvSetsEvents(sets, n))
  {
    if sets != [] {
      var last := sets[|sets| - 1];
      UvSetsQuiet(sets[..|sets| - 1], n);
      ChannelQuiet(last.name, UvValues(last.uv[..n]));
    }
  }

  /** create_mesh, io.cpp and HalFbxExporter.cxx. */
  method CreateMesh(version: Version, scene: Scene, meshData: Mesh, name: string, unitScale: real)
    returns (mesh: Handle)
    requires Readable(meshData, version)
    modifies scene, meshData.vertices
    ensures mesh == old(scene.created) && scene.created == mesh + 1
    ensures meshData.vertices[..] ==
      Transformed(scene.multT, CoordMatrix(unitScale), old(meshData.vertices[..]), meshData.vertices.Length)
    ensures scene.log == old(scene.log) + MeshEvents(version, mesh, name, meshData, meshData.vertices[..])
  {
    ghost var start := scene.log;
    mesh := scene.Create((h: Handle) => Engine.CreateMesh(h, name));
    scene.Record(InitControlPoints(meshData.vertices.Length));
    FixCoord(scene.multT, unitScale, meshData.vertices, meshData.vertices.Length);
    scene.Record(SetControlPoints(meshData.vertices[..]));
    ghost var header := scene.log;
    ghost var calls := [Engine.CreateMesh(mesh, name), InitControlPoints(meshData.vertices.Length),
                        SetControlPoints(meshData.vertices[..])];
    assert header == start + calls;
    EmitPolygons(version, scene, meshData);
    ghost var afterPolygons := scene.log;
    AddNormalSets(scene, meshData.normalSets, |meshData.indices|);
    ghost var afterNormals := scene.log;
    AddUvSets(scene, meshData.uvSets, |meshData.indices|);
    AppendPieces(start, calls, Emit(MeshPolygons(meshData, version)),
                 NormalSetsEvents(meshData.normalSets, |meshData.indices|),
                 UvSetsEvents(meshData.uvSets, |meshData.indices|),
                 header, afterPolygons, afterNormals, scene.log);
  }

  /** The polygon loop of create_mesh: for each offset-table entry, BeginPolygon, one AddPolygon
      per index of its range, EndPolygon. */
  method EmitPolygons(version: Version, scene: Scene, meshData: Mesh)
    requires Readable(meshData, version)
    modifies scene
    ensures scene.created == old(scene.created)
    ensures scene.log == old(scene.log) + Emit(MeshPolygons(meshData, version))
  {
    ghost var polygons := MeshPolygons(meshData, version);
    var indices, polys := meshData.indices, meshData.polys;
    var i := 0;
    while i < |polys|
      invariant i <= |polys|
      invariant scene.log == old(scene.log) + Emit(polygons[..i])
      invariant scene.created == old(scene.created)
    {
      var currIndex := polys[i];
      var nextIndex := if i == |polys| - 1 then |indices| else polys[i + 1];
      assert nextIndex == PolygonEnd(polys, |indices|, i);
      ghost var before := scene.log;
      var material := if version == Current then Some(meshData.materialIndices[i]) else None;
      EmitPolygon(scene, material, indices, currIndex, nextIndex);
      assert polygons[i] == Polygon(material, Corners(polys, indices, i));
      EmitStep(old(scene.log), before, scene.log, polygons, i);
      i := i + 1;
    }
    TakeAll(polygons);
  }

  /** One iteration of the polygon loop: BeginPolygon, the corners of [curr, next), EndPolygon. */
  method EmitPolygon(scene: Scene, material: Option<nat>, indices: seq<nat>, currIndex: nat, nextIndex: nat)
    requires currIndex < nextIndex ==> nextIndex <= |indices|
    modifies scene
    ensures scene.created == old(scene.created)
    ensures scene.log == old(scene.log) +
      PolygonCalls(Polygon(material, if currIndex < nextIndex then indices[currIndex..nextIndex] else []))
  {
    scene.Record(BeginPolygon(material));
    AddCorners(scene, indices, currIndex, nextIndex);
    scene.Record(EndPolygon);
  }

  /** The corner loop of create_mesh: AddPolygon for every index in [curr, next); nothing when
      next is not above curr. */
  method AddCorners(scene: Scene, indices: seq<nat>, currIndex: nat, nextIndex: nat)
    requires currIndex < nextIndex ==> nextIndex <= |indices|
    modifies scene
    ensures scene.created == old(scene.created)
    ensures scene.log == old(scene.log) + AddCalls(if currIndex < nextIndex then indices[currIndex..nextIndex] else [])
  {
    var j := currIndex;
    while j < nextIndex
      invariant currIndex <= nextIndex ==> currIndex <= j <= nextIndex
      invariant nextIndex < currIndex ==> j == currIndex
      invariant scene.log == old(scene.log) + AddCalls(if currIndex < j then indices[currIndex..j] else [])
      invariant scene.created == old(scene.created)
    {
      scene.Record(AddPolygon(indices[j]));
      AddCallsSnoc(if currIndex < j then indices[currIndex..j] else [], indices[j]);
      assert (if currIndex < j + 1 then indices[currIndex..j + 1] else []) ==
             (if currIndex < j then indices[currIndex..j] else []) + [indices[j]];
      j := j + 1;
    }
  }

  /** The normal-set loop of create_mesh: a new normal element per set, filled by set_normal
      with index_count values. */
  method AddNormalSets(scene: Scene, sets: seq<NormalSet>, indexCount: nat)
    requires forall k :: 0 <= k < |sets| ==> indexCount <= |sets[k].normal|
    modifies scene
    ensures scene.created == old(scene.created)
    ensures scene.log == old(scene.log) + NormalSetsEvents(sets, indexCount)
  {
    var i := 0;
    while i < |sets|
      invariant i <= |sets|
      invariant scene.log == old(scene.log) + NormalSetsEvents(sets[..i], indexCount)
      invariant scene.created == old(scene.created)
    {
      scene.Record(CreateElementNormal);
      SetNormal(scene, sets[i], indexCount);
      assert sets[..i + 1][..i] == sets[..i];
      i := i + 1;
    }
    TakeAll(sets);
  }

  /** The UV-set loop of create_mesh: a new UV element named after each set, filled by set_uv
      with index_count values. */
  method AddUvSets(scene: Scene, sets: seq<UvSet>, indexCount: nat)
    requires forall k :: 0 <= k < |sets| ==> indexCount <= |sets[k].uv|
    modifies scene
    ensures scene.created == old(scene.created)
    ensures scene.log == old(scene.log) + UvSetsEvents(sets, indexCount)
  {
    var i := 0;
    while i < |sets|
      invariant i <= |sets|
      invariant scene.log == old(scene.log) + UvSetsEvents(sets[..i], indexCount)
      invariant scene.created == old(scene.created)
    {
      scene.Record(CreateElementUV(sets[i].name));
      SetUv(scene, sets[i], indexCount);
      assert sets[..i + 1][..i] == sets[..i];
      i := i + 1;
    }
    TakeAll(sets);
  }

  /** The older exporter emits the same polygons with the material tags dropped: the offset
      decoding is identical and material_indices is never consulted. */
  lemma LegacyPolygonsDropMaterials(mesh: Mesh)
    requires Readable(mesh, Current)
    ensures Readable(mesh, Legacy)
    ensures |MeshPolygons(mesh, Legacy)| == |MeshPolygons(mesh, Current)|
    ensures forall i :: 0 <= i < |mesh.polys| ==>
      MeshPolygons(mesh, Legacy)[i] == MeshPolygons(mesh, Current)[i].(material := None) &&
      MeshPolygons(mesh, Current)[i].material == Some(mesh.materialIndices[i])
  {
  }
}
