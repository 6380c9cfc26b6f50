/** export_fbx: one export session. It creates the SDK manager and scene, rejects an empty path,
    creates the table's materials and the node tree (in the opposite order in the two exporter
    iterations), moves the root's children under the scene root, picks the ascii or binary
    writer, initialises the exporter and exports. The manager is destroyed on every return
    path, and Export happens only on the path that returns true. */
module Session {
  import opened Values
  import opened Logs
  import opened Engine
  import opened Codec
  import opened Attributes
  import opened MeshBuild
  import opened Materials
  import opened ShaderMaterial
  import opened Slots
  import opened Walker

  /** The export request: the tree, the output flavour, the unit scale, the material table and
      the addresses of the table's elements, which the nodes' material slots point at. */
  datatype ExportData = ExportData(root: Option<Object>, isAscii: bool, unitScale: real,
                                   materials: seq<Material>, materialAddresses: seq<Address>)

  const AsciiWriter: string := "FBX ascii (*.fbx)"
  const BinaryWriter: string := "FBX binary (*.fbx)"

  /** The writer description export_fbx looks up. */
  function WriterFor(isAscii: bool): string
  {
    if isAscii then AsciiWriter else BinaryWriter
  }

  function SettingsOf(version: Version, data: ExportData): Settings
  {
    Settings(version, data.materialAddresses, data.unitScale)
  }

  /** Manager and scene creation, which every session starts with. */
  const Prelude: seq<Event> := [CreateManager, CreateScene("Scene")]

  /** The calls for one table material with handle h, added to the scene afterwards. */
  function MaterialEvents(version: Version, accepts: iset<string>, h: Handle, m: Material): seq<Event>
  {
    if version == Current then [CreateLambert(h, m.name), SceneAddMaterial(h)]
    else [Engine.CreateShaderMaterial(h, m.name)] + DefineEvents(accepts, h, ShaderProperties()) + [SceneAddMaterial(h)]
  }

  /** The material loop, the first material getting handle h. */
  function MaterialsEvents(version: Version, accepts: iset<string>, h: Handle, ms: seq<Material>): seq<Event>
  {
    if ms == [] then []
    else MaterialsEvents(version, accepts, h, ms[..|ms| - 1]) +
         MaterialEvents(version, accepts, h + |ms| - 1, ms[|ms| - 1])
  }

  /** The re-parenting loop: one move per child of the exported root, in index order. */
  function Reparent(rootNode: Handle, n: nat): (r: seq<Event>)
    ensures |r| == n
  {
    if n == 0 then [] else Reparent(rootNode, n - 1) + [MoveToSceneRoot(rootNode, n - 1)]
  }

  /** Writer lookup, exporter creation and initialisation, then Export on success; the manager
      is destroyed either way. */
  function Finish(path: string, isAscii: bool, initSucceeds: bool): seq<Event>
  {
    [FindWriter(WriterFor(isAscii)), CreateExporter, ExporterInitialize(path, WriterFor(isAscii))] +
    (if initSucceeds then [Export, ManagerDestroy] else [ManagerDestroy])
  }

  /** What a session needs of the tree: readable meshes, one owner per buffer and a snapshot
      of every buffer. */
  predicate TreeReady(version: Version, data: ExportData, before: map<array<Vec4>, seq<Vec4>>)
    reads if data.root.Some? then Buffers(data.root.value) else {}
  {
    data.root.Some? ==>
      Ready(version, data.root.value, before) && Disjoint(data.root.value) && Snapshot(Buffers(data.root.value), before)
  }

  /** Whether export_fbx returns true. */
  predicate Succeeds(path: string, data: ExportData, initSucceeds: bool)
  {
    path != [] && data.root.Some? && initSucceeds
  }

  /** What follows the walk: the moves under the scene root, the material loop in the older
      exporter (its first material getting handle h), then the writer and export calls. */
  function AfterTree(version: Version, accepts: iset<string>, initSucceeds: bool, path: string,
                     data: ExportData, h: Handle, rootNode: Handle, childCount: nat): seq<Event>
  {
    Reparent(rootNode, childCount) +
    (if version == Legacy then MaterialsEvents(Legacy, accepts, h, data.materials) else []) +
    Finish(path, data.isAscii, initSucceeds)
  }

  /** The whole call log of export_fbx, when the engine has handed out c objects before it: the
      current exporter creates the materials before the walk, the older one after it; an empty
      path or a null root ends the session early. */
  function SessionEvents(version: Version, accepts: iset<string>, initSucceeds: bool,
                         multT: (AMatrix, Vec4) -> Vec4, path: string, data: ExportData,
                         before: map<array<Vec4>, seq<Vec4>>, c: nat): seq<Event>
    requires data.root.Some? ==> Ready(version, data.root.value, before)
  {
    if path == [] then Prelude + [ManagerDestroy]
    else if data.root.None? then Prelude + EarlyMaterials(version, accepts, c, data.materials) + [ManagerDestroy]
    else
      Prelude + EarlyMaterials(version, accepts, c, data.materials) +
      TreeEvents(version, accepts, initSucceeds, multT, path, data, before, RootHandle(version, c, data.materials))
  }

  /** The walk from the root with handle h, then everything after it. */
  function TreeEvents(version: Version, accepts: iset<string>, initSucceeds: bool,
                      multT: (AMatrix, Vec4) -> Vec4, path: string, data: ExportData,
                      before: map<array<Vec4>, seq<Vec4>>, h: Handle): seq<Event>
    requires data.root.Some? && Ready(version, data.root.value, before)
  {
    NodeEvents(SettingsOf(version, data), multT, h, data.root.value, before) +
    AfterTree(version, accepts, initSucceeds, path, data, h + Size(data.root.value), h, |data.root.value.children|)
  }

  /** The walk's calls followed by the calls after it make up TreeEvents; `next` is the first
      handle after the walk. */
  lemma {:induction false} TreeEventsSplit(version: Version, accepts: iset<string>, initSucceeds: bool,
                        multT: (AMatrix, Vec4) -> Vec4, path: string, data: ExportData,
                        before: map<array<Vec4>, seq<Vec4>>, h: Handle, next: Handle,
                        start: seq<Event>, afterWalk: seq<Event>, now: seq<Event>)
    requires data.root.Some? && Ready(version, data.root.value, before)
    requires next == h + Size(data.root.value)
    requires afterWalk == start + NodeEvents(SettingsOf(version, data), multT, h, data.root.value, before)
    requires now == afterWalk + AfterTree(version, accepts, initSucceeds, path, data, next, h, |data.root.value.children|)
    ensures now == start + TreeEvents(version, accepts, initSucceeds, multT, path, data, before, h)
  {
    AppendTwo(start, NodeEvents(SettingsOf(version, data), multT, h, data.root.value, before),
              AfterTree(version, accepts, initSucceeds, path, data, next, h, |data.root.value.children|),
              afterWalk, now);
  }

  /** The materials created before the walk: all of them in the current exporter, none in the
      older one. */
  function EarlyMaterials(version: Version, accepts: iset<string>, c: nat, materials: seq<Material>): seq<Event>
  {
    if version == Current then MaterialsEvents(Current, accepts, c, materials) else []
  }

  /** The handle of the root node: the first one after the early materials. */
  function RootHandle(version: Version, c: nat, materials: seq<Material>): nat
  {
    if version == Current then c + |materials| else c
  }

  /** A non-empty material loop ends with AddMaterial on the scene. */
  lemma {:induction false} MaterialsEndWithSceneAdd(version: Version, accepts: iset<string>, h: Handle, ms: seq<Material>)
    requires ms != []
    ensures var es := MaterialsEvents(version, accepts, h, ms); |es| > 0 && es[|es| - 1].SceneAddMaterial?
  {
    var m := MaterialEvents(version, accepts, h + |ms| - 1, ms[|ms| - 1]);
    assert m[|m| - 1] == SceneAddMaterial(h + |ms| - 1);
  }

  /** Every session ends with the manager's destruction, and the call just before that is
      Export exactly when export_fbx returns true; an empty path ends the session before any
      material or node is created. The manager is destroyed nowhere else, and Export is called
      once on success and never on failure. */
  lemma {:induction false} SessionOutcome(version: Version, accepts: iset<string>, initSucceeds: bool,
                                          multT: (AMatrix, Vec4) -> Vec4, path: string, data: ExportData,
                                          before: map<array<Vec4>, seq<Vec4>>, c: nat)
    requires data.root.Some? ==> Ready(version, data.root.value, before)
    ensures var es := SessionEvents(version, accepts, initSucceeds, multT, path, data, before, c);
      |es| >= 2 && es[|es| - 1] == ManagerDestroy &&
      (Succeeds(path, data, initSucceeds) <==> es[|es| - 2] == Export) &&
      (path == [] ==> es == [CreateManager, CreateScene("Scene"), ManagerDestroy])
    ensures var es := SessionEvents(version, accepts, initSucceeds, multT, path, data, before, c);
      ClosesOnce(es, Succeeds(path, data, initSucceeds)) && (!Succeeds(path, data, initSucceeds) ==> Export !in es)
  {
    var es := SessionEvents(version, accepts, initSucceeds, multT, path, data, before, c);
    var early := EarlyMaterials(version, accepts, c, data.materials);
    if path == [] {
      assert es == Prelude + [ManagerDestroy];
    } else if data.root.None? {
      var body := Prelude + early;
      assert es == body + [ManagerDestroy];
      if early != [] {
        MaterialsEndWithSceneAdd(Current, accepts, c, data.materials);
        assert body[|body| - 1] == early[|early| - 1];
      }
    } else {
      var h := RootHandle(version, c, data.materials);
      var tree := TreeEvents(version, accepts, initSucceeds, multT, path, data, before, h);
      TreeEnds(version, accepts, initSucceeds, multT, path, data, before, h);
      EndsWith(Prelude + early, tree);
    }
    SessionClosing(version, accepts, initSucceeds, multT, path, data, before, c);
    NoOccurrences(es, Export);
  }

  /** The session destroys the manager once, after one Export exactly when export_fbx returns
      true; when it returns false, Export is never called. */
  lemma {:induction false} SessionClosing(version: Version, accepts: iset<string>, initSucceeds: bool,
                                          multT: (AMatrix, Vec4) -> Vec4, path: string, data: ExportData,
                                          before: map<array<Vec4>, seq<Vec4>>, c: nat)
    requires data.root.Some? ==> Ready(version, data.root.value, before)
    ensures ClosesOnce(SessionEvents(version, accepts, initSucceeds, multT, path, data, before, c),
                       Succeeds(path, data, initSucceeds))
  {
    var es := SessionEvents(version, accepts, initSucceeds, multT, path, data, before, c);
    var early := EarlyMaterials(version, accepts, c, data.materials);
    if version == Current {
      MaterialsQuiet(Current, accepts, c, data.materials);
    }
    if path == [] {
      QuietFront(Prelude, [ManagerDestroy], false, es);
    } else if data.root.None? {
      QuietFront(Prelude + early, [ManagerDestroy], false, es);
    } else {
      var h := RootHandle(version, c, data.materials);
      TreeClosing(version, accepts, initSucceeds, multT, path, data, before, h);
      QuietFront(Prelude + early, TreeEvents(version, accepts, initSucceeds, multT, path, data, before, h), initSucceeds, es);
    }
  }

  /** From the walk on, the session ends as writing the scene does. */
  lemma {:induction false} TreeClosing(version: Version, accepts: iset<string>, initSucceeds: bool,
                                       multT: (AMatrix, Vec4) -> Vec4, path: string, data: ExportData,
                                       before: map<array<Vec4>, seq<Vec4>>, h: Handle)
    requires data.root.Some? && Ready(version, data.root.value, before)
    ensures ClosesOnce(TreeEvents(version, accepts, initSucceeds, multT, path, data, before, h), initSucceeds)
  {
    var root := data.root.value;
    var s := SettingsOf(version, data);
    assert s.version == version;
    var after := AfterTree(version, accepts, initSucceeds, path, data, h + Size(root), h, |root.children|);
    AfterTreeClosing(version, accepts, initSucceeds, path, data, h + Size(root), h, |root.children|);
    NodeEventsKeepClosing(s, multT, h, root, before, after, initSucceeds);
  }

  /** After the walk, the session ends as writing the scene does. */
  lemma {:induction false} AfterTreeClosing(version: Version, accepts: iset<string>, initSucceeds: bool, path: string,
                                            data: ExportData, h: Handle, rootNode: Handle, childCount: nat)
    ensures ClosesOnce(AfterTree(version, accepts, initSucceeds, path, data, h, rootNode, childCount), initSucceeds)
  {
    ReparentQuiet(rootNode, childCount);
    if version == Legacy {
      MaterialsQuiet(Legacy, accepts, h, data.materials);
    }
    FinishClosing(path, data.isAscii, initSucceeds);
    QuietFront(Reparent(rootNode, childCount) +
               (if version == Legacy then MaterialsEvents(Legacy, accepts, h, data.materials) else []),
               Finish(path, data.isAscii, initSucceeds), initSucceeds,
               AfterTree(version, accepts, initSucceeds, path, data, h, rootNode, childCount));
  }

  /** Writing the scene destroys the manager once, after one Export exactly when the exporter
      initialised. */
  lemma {:induction false} FinishClosing(path: string, isAscii: bool, initSucceeds: bool)
    ensures ClosesOnce(Finish(path, isAscii, initSucceeds), initSucceeds)
  {
    var format := WriterFor(isAscii);
    assert [Export, ManagerDestroy][..1] == [Export];
    QuietFront([FindWriter(format), CreateExporter, ExporterInitialize(path, format)],
               if initSucceeds then [Export, ManagerDestroy] else [ManagerDestroy], initSucceeds,
               Finish(path, isAscii, initSucceeds));
  }

  /** The material loop never ends a session. */
  lemma MaterialsQuiet(version: Version, accepts: iset<string>, h: Handle, ms: seq<Material>)
    ensures Quiet(MaterialsEvents(version, accepts, h, ms))
  {
    MaterialsSilent(version, accepts, h, ms);
    QuietIsSilent(MaterialsEvents(version, accepts, h, ms));
  }

  lemma {:induction false} MaterialsSilent(version: Version, accepts: iset<string>, h: Handle, ms: seq<Material>)
    ensures Silent(MaterialsEvents(version, accepts, h, ms))
  {
    if ms != [] {
      MaterialsSilent(version, accepts, h, ms[..|ms| - 1]);
      MaterialQuiet(version, accepts, h + |ms| - 1, ms[|ms| - 1]);
      QuietIsSilent(MaterialEvents(version, accepts, h + |ms| - 1, ms[|ms| - 1]));
      SilentJoin(MaterialsEvents(version, accepts, h, ms[..|ms| - 1]),
                 MaterialEvents(version, accepts, h + |ms| - 1, ms[|ms| - 1]));
    }
  }

  lemma {:induction false} MaterialQuiet(version: Version, accepts: iset<string>, h: Handle, m: Material)
    ensures Quiet(MaterialEvents(version, accepts, h, m))
  {
    DefineEventsQuiet(accepts, h, ShaderProperties());
  }


  /** The moves under the scene root never end a session. */
  lemma {:induction false} ReparentQuiet(rootNode: Handle, n: nat)
    ensures Quiet(Reparent(rootNode, n))
  {
    if n > 0 {
      ReparentQuiet(rootNode, n - 1);
    }
  }

  /** After a walk, the session ends with Export and the manager's destruction when the
      exporter initialised, and with its initialisation and the destruction otherwise. */
  lemma {:induction false} TreeEnds(version: Version, accepts: iset<string>, initSucceeds: bool,
                                    multT: (AMatrix, Vec4) -> Vec4, path: string, data: ExportData,
                                    before: map<array<Vec4>, seq<Vec4>>, h: Handle)
    requires data.root.Some? && Ready(version, data.root.value, before)
    ensures var tree := TreeEvents(version, accepts, initSucceeds, multT, path, data, before, h);
      |tree| >= 2 && tree[|tree| - 1] == ManagerDestroy &&
      tree[|tree| - 2] == (if initSucceeds then Export else ExporterInitialize(path, WriterFor(data.isAscii)))
  {
    var root := data.root.value;
    var after := AfterTree(version, accepts, initSucceeds, path, data, h + Size(root), h, |root.children|);
    AfterTreeEnds(version, accepts, initSucceeds, path, data, h + Size(root), h, |root.children|);
    EndsWith(NodeEvents(SettingsOf(version, data), multT, h, root, before), after);
  }

  /** The calls after the walk end as the whole session does. */
  lemma {:induction false} AfterTreeEnds(version: Version, accepts: iset<string>, initSucceeds: bool, path: string,
                                         data: ExportData, h: Handle, rootNode: Handle, childCount: nat)
    ensures var after := AfterTree(version, accepts, initSucceeds, path, data, h, rootNode, childCount);
      |after| >= 2 && after[|after| - 1] == ManagerDestroy &&
      after[|after| - 2] == (if initSucceeds then Export else ExporterInitialize(path, WriterFor(data.isAscii)))
  {
    var finish := Finish(path, data.isAscii, initSucceeds);
    EndsWith(Reparent(rootNode, childCount) +
             (if version == Legacy then MaterialsEvents(Legacy, accepts, h, data.materials) else []), finish);
  }

  /** export_fbx, both iterations. `before` is a snapshot of the tree's vertex buffers, which
      the walk overwrites in place. */
  method ExportFbx(version: Version, scene: Scene, path: string, data: ExportData,
                   ghost before: map<array<Vec4>, seq<Vec4>>)
    returns (ok: bool)
    requires |data.materialAddresses| == |data.materials|
    requires TreeReady(version, data, before)
    modifies scene, if data.root.Some? then Buffers(data.root.value) else {}
    ensures ok == Succeeds(path, data, scene.initSucceeds)
    ensures scene.log == old(scene.log) +
      SessionEvents(version, scene.accepts, scene.initSucceeds, scene.multT, path, data, before, old(scene.created))
    ensures path == [] ==> scene.created == old(scene.created)
    ensures path != [] ==>
              scene.created == old(scene.created) +
                (if version == Current || data.root.Some? then |data.materials| else 0) +
                (if data.root.Some? then Size(data.root.value) else 0)
    ensures data.root.Some? && path == [] ==> Snapshot(Buffers(data.root.value), before)
    ensures data.root.Some? && path != [] ==> Converted(Buffers(data.root.value), before, scene.multT, data.unitScale)
  {
    scene.Record(CreateManager);
    scene.Record(CreateScene("Scene"));
    ghost var afterPrelude := scene.log;
    if path == [] {
      scene.Record(ManagerDestroy);
      return false;
    }
    if version == Current {
      AddMaterials(Current, scene, data.materials);
    }
    ghost var early := EarlyMaterials(version, scene.accepts, old(scene.created), data.materials);
    ghost var afterMaterials := scene.log;
    ghost var h := scene.created;
    assert h == RootHandle(version, old(scene.created), data.materials);
    ok := ExportTree(version, scene, path, data, before);
    if data.root.None? {
      AppendThree(old(scene.log), Prelude, early, [ManagerDestroy], afterPrelude, afterMaterials, scene.log);
    } else {
      AppendThree(old(scene.log), Prelude, early,
                  TreeEvents(version, scene.accepts, scene.initSucceeds, scene.multT, path, data, before, h),
                  afterPrelude, afterMaterials, scene.log);
    }
  }

  /** The walk from the root, then, if the root was not null, the rest of the session; the
      root gets the next handle. */
  method ExportTree(version: Version, scene: Scene, path: string, data: ExportData,
                    ghost before: map<array<Vec4>, seq<Vec4>>)
    returns (ok: bool)
    requires TreeReady(version, data, before)
    modifies scene, if data.root.Some? then Buffers(data.root.value) else {}
    ensures ok == (data.root.Some? && scene.initSucceeds)
    ensures scene.created == old(scene.created) +
      (if data.root.Some? then Size(data.root.value) + (if version == Legacy then |data.materials| else 0) else 0)
    ensures data.root.None? ==> scene.log == old(scene.log) + [ManagerDestroy]
    ensures data.root.Some? ==>
      scene.log == old(scene.log) + TreeEvents(version, scene.accepts, scene.initSucceeds, scene.multT, path, data, before, old(scene.created))
    ensures data.root.Some? ==> Converted(Buffers(data.root.value), before, scene.multT, data.unitScale)
  {
    ghost var h, start := scene.created, scene.log;
    var rootNode := CreateNodeRecursive(SettingsOf(version, data), scene, data.root, before);
    if rootNode.None? {
      scene.Record(ManagerDestroy);
      return false;
    }
    ghost var afterWalk, next := scene.log, scene.created;
    var root := data.root.value;
    assert rootNode.value == h;
    ok := FinishExport(version, scene, path, data, rootNode.value, |root.children|);
    TreeEventsSplit(version, scene.accepts, scene.initSucceeds, scene.multT, path, data, before, h, next,
                    start, afterWalk, scene.log);
  }

  /** The moves under the scene root, the older exporter's material loop, then writing. */
  method FinishExport(version: Version, scene: Scene, path: string, data: ExportData, rootNode: Handle, childCount: nat)
    returns (ok: bool)
    modifies scene
    ensures ok == scene.initSucceeds
    ensures scene.created == old(scene.created) + (if version == Legacy then |data.materials| else 0)
    ensures scene.log == old(scene.log) +
      AfterTree(version, scene.accepts, scene.initSucceeds, path, data, old(scene.created), rootNode, childCount)
  {
    MoveChildrenToSceneRoot(scene, rootNode, childCount);
    ghost var afterMoves := scene.log;
    ghost var materials: seq<Event> := [];
    if version == Legacy {
      AddMaterials(Legacy, scene, data.materials);
      materials := MaterialsEvents(Legacy, scene.accepts, old(scene.created), data.materials);
    }
    ghost var afterMaterials := scene.log;
    ok := WriteScene(scene, path, data.isAscii);
    AppendThree(old(scene.log), Reparent(rootNode, childCount), materials, Finish(path, data.isAscii, scene.initSucceeds),
                afterMoves, afterMaterials, scene.log);
  }

  /** Writer lookup by description, exporter creation and initialisation; Export only when
      the exporter initialised; the manager destroyed in both cases. */
  method WriteScene(scene: Scene, path: string, isAscii: bool) returns (ok: bool)
    modifies scene
    ensures ok == scene.initSucceeds
    ensures scene.created == old(scene.created)
    ensures scene.log == old(scene.log) + Finish(path, isAscii, scene.initSucceeds)
  {
    var format := WriterFor(isAscii);
    scene.Record(FindWriter(format));
    scene.Record(CreateExporter);
    var initialized := scene.InitializeExporter(path, format);
    if !initialized {
      scene.Record(ManagerDestroy);
      return false;
    }
    scene.Record(Export);
    scene.Record(ManagerDestroy);
    return true;
  }

  /** The material loop: create_material (a Lambert material, or the shader material of the
      older exporter), then AddMaterial, for every table entry in order. */
  method AddMaterials(version: Version, scene: Scene, materials: seq<Material>)
    modifies scene
    ensures scene.created == old(scene.created) + |materials|
    ensures scene.log == old(scene.log) + MaterialsEvents(version, scene.accepts, old(scene.created), materials)
  {
    var i := 0;
    while i < |materials|
      invariant i <= |materials|
      invariant scene.created == old(scene.created) + i
      invariant scene.log == old(scene.log) + MaterialsEvents(version, scene.accepts, old(scene.created), materials[..i])
    {
      ghost var done := scene.log;
      var material := AddMaterial(version, scene, materials[i]);
      MaterialsStep(version, scene.accepts, old(scene.created), materials, i);
      AppendStep(old(scene.log), MaterialsEvents(version, scene.accepts, old(scene.created), materials[..i]),
                 MaterialEvents(version, scene.accepts, material, materials[i]),
                 MaterialsEvents(version, scene.accepts, old(scene.created), materials[..i + 1]), done, scene.log);
      i := i + 1;
    }
    TakeAll(materials);
  }

  /** One iteration of the material loop: create_material, then AddMaterial on the result. */
  method AddMaterial(version: Version, scene: Scene, m: Material) returns (material: Handle)
    modifies scene
    ensures material == old(scene.created)
    ensures scene.created == old(scene.created) + 1
    ensures scene.log == old(scene.log) + MaterialEvents(version, scene.accepts, material, m)
  {
    if version == Current {
      material := CreateMaterial(scene, m);
    } else {
      material := ShaderMaterial.CreateShaderMaterial(scene, m);
    }
    scene.Record(SceneAddMaterial(material));
  }

  lemma {:induction false} MaterialsStep(version: Version, accepts: iset<string>, h: Handle, ms: seq<Material>, i: nat)
    requires i < |ms|
    ensures MaterialsEvents(version, accepts, h, ms[..i + 1]) ==
            MaterialsEvents(version, accepts, h, ms[..i]) + MaterialEvents(version, accepts, h + i, ms[i])
  {
    var prefix := ms[..i + 1];
    assert prefix[..|prefix| - 1] == ms[..i];
    assert prefix[|prefix| - 1] == ms[i];
  }

  /** The re-parenting loop: the exported root's children are moved under the scene root. */
  method MoveChildrenToSceneRoot(scene: Scene, rootNode: Handle, childCount: nat)
    modifies scene
    ensures scene.created == old(scene.created)
    ensures scene.log == old(scene.log) + Reparent(rootNode, childCount)
  {
    var i := 0;
    while i < childCount
      invariant i <= childCount
      invariant scene.created == old(scene.created)
      invariant scene.log == old(scene.log) + Reparent(rootNode, i)
    {
      scene.Record(MoveToSceneRoot(rootNode, i));
      i := i + 1;
    }
  }
}
