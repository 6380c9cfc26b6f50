/** create_node_recursive: the depth-first walk that turns the exported object tree into SDK
    nodes. Each node gets its name and local transform, then (current exporter only) its
    material bindings, then its mesh, then its children from left to right, each attached
    with AddChild after its own subtree is complete. */
module Walker {
  import opened Values
  import opened Logs
  import opened Engine
  import opened Transforms
  import opened MeshBuild
  import opened Slots

  /** A node of the exported tree. `materialSlots` holds the addresses the node's material
      pointers hold; `mesh` is the optional mesh record, shared with the caller. */
  datatype Object = Object(name: string, matrixLocal: seq<real>, children: seq<Object>,
                           mesh: Option<Mesh>, materialSlots: seq<Address>)

  /** What the walk reads from the export data besides the tree: the exporter iteration, the
      addresses of the export table's materials and the unit scale. */
  datatype Settings = Settings(version: Version, table: seq<Address>, unitScale: real)

  /** The vertex buffers of the subtree at o. */
  function Buffers(o: Object): set<array<Vec4>>
    decreases o, 1
  {
    (if o.mesh.Some? then {o.mesh.value.vertices} else {}) + BuffersFrom(o, 0)
  }

  /** The vertex buffers of the subtrees of o's children i, i + 1, ... */
  function BuffersFrom(o: Object, i: nat): set<array<Vec4>>
    decreases o, 0, |o.children| - i
  {
    if i >= |o.children| then {} else Buffers(o.children[i]) + BuffersFrom(o, i + 1)
  }

  /** No vertex buffer is shared between two meshes of the tree: each node owns its mesh. */
  predicate Disjoint(o: Object)
    decreases o, 1
  {
    (o.mesh.Some? ==> o.mesh.value.vertices !in BuffersFrom(o, 0)) &&
    (forall i :: 0 <= i < |o.children| ==> Buffers(o.children[i]) !! BuffersFrom(o, i + 1)) &&
    (forall i :: 0 <= i < |o.children| ==> Disjoint(o.children[i]))
  }

  /** Every mesh of the tree is readable and its buffer appears in the snapshot. */
  predicate Ready(version: Version, o: Object, before: map<array<Vec4>, seq<Vec4>>)
  {
    (o.mesh.Some? ==> Readable(o.mesh.value, version) && o.mesh.value.vertices in before) &&
    (forall i :: 0 <= i < |o.children| ==> Ready(version, o.children[i], before))
  }

  /** The buffers bs still hold what the snapshot `before` recorded for them. */
  predicate Snapshot(bs: set<array<Vec4>>, before: map<array<Vec4>, seq<Vec4>>)
    reads bs
  {
    forall a :: a in bs ==> a in before && a[..] == before[a]
  }

  function MeshCount(o: Object): nat
  {
    if o.mesh.Some? then 1 else 0
  }

  /** How many SDK objects (nodes and meshes) the walk creates for the subtree at o. */
  function Size(o: Object): (r: nat)
    ensures r >= 1
    decreases o, 1
  {
    1 + MeshCount(o) + SizeUpTo(o, |o.children|)
  }

  /** How many SDK objects the subtrees of o's first i children account for. */
  function SizeUpTo(o: Object, i: nat): nat
    requires i <= |o.children|
    decreases o, 0, i
  {
    if i == 0 then 0 else SizeUpTo(o, i - 1) + Size(o.children[i - 1])
  }

  /** Node creation and the three local-transform components, taken from matrix_local. */
  function Header(h: Handle, o: Object): seq<Event>
  {
    [CreateNode(h, o.name), LclTranslation(h, o.matrixLocal), LclRotation(h, o.matrixLocal),
     LclScaling(h, o.matrixLocal)]
  }

  /** The material bindings: the current exporter binds each slot, the older one none. */
  function SlotEvents(s: Settings, h: Handle, o: Object): seq<Event>
  {
    if s.version == Current then Bindings(h, o.materialSlots, s.table) else []
  }

  /** The mesh of node h, created with handle h + 1 from the snapshot of its buffer, then set
      as the node's attribute. */
  function MeshPart(s: Settings, multT: (AMatrix, Vec4) -> Vec4, h: Handle, o: Object,
                    before: map<array<Vec4>, seq<Vec4>>): seq<Event>
    requires o.mesh.Some? ==> Readable(o.mesh.value, s.version) && o.mesh.value.vertices in before
  {
    if o.mesh.None? then []
    else
      var m := o.mesh.value;
      var points := before[m.vertices];
      MeshEvents(s.version, h + 1, o.name, m, Transformed(multT, CoordMatrix(s.unitScale), points, |points|)) +
      [SetNodeAttribute(h, h + 1)]
  }

  /** The calls the walk makes for the subtree at o, whose node gets handle h; `before` holds
      the vertex buffers as they were when the walk started. */
  function NodeEvents(s: Settings, multT: (AMatrix, Vec4) -> Vec4, h: Handle, o: Object,
                      before: map<array<Vec4>, seq<Vec4>>): seq<Event>
    requires Ready(s.version, o, before)
    decreases o, 1
  {
    Header(h, o) + SlotEvents(s, h, o) + MeshPart(s, multT, h, o, before) +
    ChildrenEvents(s, multT, h, o, before, |o.children|)
  }

  /** The calls for o's first i children: each child's subtree, then AddChild on node h. */
  function ChildrenEvents(s: Settings, multT: (AMatrix, Vec4) -> Vec4, h: Handle, o: Object,
                          before: map<array<Vec4>, seq<Vec4>>, i: nat): seq<Event>
    requires Ready(s.version, o, before)
    requires i <= |o.children|
    decreases o, 0, i
  {
    if i == 0 then []
    else
      var c := h + 1 + MeshCount(o) + SizeUpTo(o, i - 1);
      ChildrenEvents(s, multT, h, o, before, i - 1) + NodeEvents(s, multT, c, o.children[i - 1], before) +
      [AddChild(h, c)]
  }

  /** The walk leaves the calls that end a session to whatever follows it. */
  lemma NodeEventsKeepClosing(s: Settings, multT: (AMatrix, Vec4) -> Vec4, h: Handle, o: Object,
                              before: map<array<Vec4>, seq<Vec4>>, back: seq<Event>, exported: bool)
    requires Ready(s.version, o, before) && ClosesOnce(back, exported)
    ensures ClosesOnce(NodeEvents(s, multT, h, o, before) + back, exported)
  {
    NodeEventsQuiet(s, multT, h, o, before);
    QuietFront(NodeEvents(s, multT, h, o, before), back, exported, NodeEvents(s, multT, h, o, before) + back);
  }

  lemma {:induction false} NodeEventsQuiet(s: Settings, multT: (AMatrix, Vec4) -> Vec4, h: Handle, o: Object,
                                           before: map<array<Vec4>, seq<Vec4>>)
    requires Ready(s.version, o, before)
    ensures Quiet(NodeEvents(s, multT, h, o, before))
    decreases o, 1
  {
    if s.version == Current {
      BindingsQuiet(h, o.materialSlots, s.table);
    }
    if o.mesh.Some? {
      var m := o.mesh.value;
      var points := before[m.vertices];
      MeshEventsQuiet(s.version, h + 1, o.name, m, Transformed(multT, CoordMatrix(s.unitScale), points, |points|));
    }
    ChildrenEventsQuiet(s, multT, h, o, before, |o.children|);
  }

  lemma {:induction false} ChildrenEventsQuiet(s: Settings, multT: (AMatrix, Vec4) -> Vec4, h: Handle, o: Object,
                                               before: map<array<Vec4>, seq<Vec4>>, i: nat)
    requires Ready(s.version, o, before)
    requires i <= |o.children|
    ensures Quiet(ChildrenEvents(s, multT, h, o, before, i))
    decreases o, 0, i
  {
    if i > 0 {
      ChildrenEventsQuiet(s, multT, h, o, before, i - 1);
      NodeEventsQuiet(s, multT, h + 1 + MeshCount(o) + SizeUpTo(o, i - 1), o.children[i - 1], before);
    }
  }

  /** The buffers bs hold the coordinate conversion of what the snapshot `before` recorded for
      them: each converted exactly once. */
  predicate Converted(bs: set<array<Vec4>>, before: map<array<Vec4>, seq<Vec4>>,
                      multT: (AMatrix, Vec4) -> Vec4, unitScale: real)
    reads bs
  {
    forall a :: a in bs ==> a in before && a[..] == Transformed(multT, CoordMatrix(unitScale), before[a], |before[a]|)
  }

  /** The vertex buffers of the subtrees of o's first i children. */
  function BuffersUpTo(o: Object, i: nat): set<array<Vec4>>
    requires i <= |o.children|
  {
    if i == 0 then {} else BuffersUpTo(o, i - 1) + Buffers(o.children[i - 1])
  }

  /** The children's buffers are those of the first i children and those of the rest. */
  lemma {:induction false} BuffersSplit(o: Object, i: nat)
    requires i <= |o.children|
    ensures BuffersFrom(o, 0) == BuffersUpTo(o, i) + BuffersFrom(o, i)
  {
    if i > 0 {
      BuffersSplit(o, i - 1);
    }
  }

  /** In a tree whose meshes own their buffers, the first i children share no buffer with the
      rest. */
  lemma {:induction false} EarlierBuffersApart(o: Object, i: nat)
    requires Disjoint(o) && i <= |o.children|
    ensures BuffersUpTo(o, i) !! BuffersFrom(o, i)
  {
    if i > 0 {
      EarlierBuffersApart(o, i - 1);
    }
  }

  /** create_node_recursive: a null object yields no node and no call; otherwise the subtree's
      node is created with the next handle and the log grows by exactly NodeEvents. */
  method CreateNodeRecursive(s: Settings, scene: Scene, objectData: Option<Object>,
                             ghost before: map<array<Vec4>, seq<Vec4>>)
    returns (node: Option<Handle>)
    requires objectData.Some? ==> Ready(s.version, objectData.value, before) && Disjoint(objectData.value)
    requires objectData.Some? ==> Snapshot(Buffers(objectData.value), before)
    modifies scene, if objectData.Some? then Buffers(objectData.value) else {}
    ensures node.Some? <==> objectData.Some?
    ensures objectData.None? ==> scene.log == old(scene.log) && scene.created == old(scene.created)
    ensures objectData.Some? ==>
      node.value == old(scene.created) && scene.created == old(scene.created) + Size(objectData.value) &&
      scene.log == old(scene.log) + NodeEvents(s, scene.multT, node.value, objectData.value, before)
    ensures objectData.Some? ==> Converted(Buffers(objectData.value), before, scene.multT, s.unitScale)
  {
    if objectData.None? {
      return None;
    }
    var h := BuildNode(s, scene, objectData.value, before);
    node := Some(h);
  }

  /** The body of create_node_recursive for an object that is present. */
  method BuildNode(s: Settings, scene: Scene, o: Object, ghost before: map<array<Vec4>, seq<Vec4>>)
    returns (node: Handle)
    requires Ready(s.version, o, before) && Disjoint(o)
    requires Snapshot(Buffers(o), before)
    modifies scene, Buffers(o)
    ensures node == old(scene.created) && scene.created == node + Size(o)
    ensures scene.log == old(scene.log) + NodeEvents(s, scene.multT, node, o, before)
    ensures Converted(Buffers(o), before, scene.multT, s.unitScale)
    decreases o, 3
  {
    node := scene.Create((h: Handle) => CreateNode(h, o.name));
    scene.Record(LclTranslation(node, o.matrixLocal));
    scene.Record(LclRotation(node, o.matrixLocal));
    scene.Record(LclScaling(node, o.matrixLocal));
    ghost var afterHeader := scene.log;
    assert afterHeader == old(scene.log) + Header(node, o);
    BindNodeSlots(s, scene, node, o);
    ghost var afterSlots := scene.log;
    BuildContents(s, scene, node, o, before);
    AppendLastTwo(old(scene.log), Header(node, o), SlotEvents(s, node, o), MeshPart(s, scene.multT, node, o, before),
                  ChildrenEvents(s, scene.multT, node, o, before, |o.children|),
                  afterHeader, afterSlots, scene.log);
  }

  /** The mesh and child steps of create_node_recursive, which convert every vertex buffer of
      the subtree. */
  method BuildContents(s: Settings, scene: Scene, node: Handle, o: Object, ghost before: map<array<Vec4>, seq<Vec4>>)
    requires Ready(s.version, o, before) && Disjoint(o)
    requires Snapshot(Buffers(o), before)
    requires scene.created == node + 1
    modifies scene, Buffers(o)
    ensures scene.created == node + Size(o)
    ensures scene.log == old(scene.log) + (MeshPart(s, scene.multT, node, o, before) +
                                           ChildrenEvents(s, scene.multT, node, o, before, |o.children|))
    ensures Converted(Buffers(o), before, scene.multT, s.unitScale)
    decreases o, 2
  {
    assert Snapshot(BuffersFrom(o, 0), before);
    AttachMesh(s, scene, node, o, before);
    ghost var afterMesh := scene.log;
    BuildChildren(s, scene, node, o, before);
    AppendTwo(old(scene.log), MeshPart(s, scene.multT, node, o, before),
              ChildrenEvents(s, scene.multT, node, o, before, |o.children|), afterMesh, scene.log);
  }

  /** The slot step of create_node_recursive, which only the current exporter has. */
  method BindNodeSlots(s: Settings, scene: Scene, node: Handle, o: Object)
    modifies scene
    ensures scene.created == old(scene.created)
    ensures scene.log == old(scene.log) + SlotEvents(s, node, o)
  {
    if s.version == Current {
      BindSlots(scene, node, o.materialSlots, s.table);
    }
  }

  /** The mesh step of create_node_recursive: create_mesh, then SetNodeAttribute. The null
      check after create_mesh is left out: create_mesh dereferences the new mesh (io.cpp:309)
      before it could return null, and the engine here always yields a mesh handle. */
  method AttachMesh(s: Settings, scene: Scene, node: Handle, o: Object, ghost before: map<array<Vec4>, seq<Vec4>>)
    requires scene.created == node + 1
    requires o.mesh.Some? ==> Readable(o.mesh.value, s.version) && o.mesh.value.vertices in before &&
                              o.mesh.value.vertices[..] == before[o.mesh.value.vertices]
    requires o.mesh.Some? ==> o.mesh.value.vertices !in BuffersFrom(o, 0)
    requires Snapshot(BuffersFrom(o, 0), before)
    modifies scene, if o.mesh.Some? then {o.mesh.value.vertices} else {}
    ensures Snapshot(BuffersFrom(o, 0), before)
    ensures o.mesh.Some? ==> Converted({o.mesh.value.vertices}, before, scene.multT, s.unitScale)
    ensures scene.created == node + 1 + MeshCount(o)
    ensures scene.log == old(scene.log) + MeshPart(s, scene.multT, node, o, before)
  {
    if o.mesh.Some? {
      var mesh := MeshBuild.CreateMesh(s.version, scene, o.mesh.value, o.name, s.unitScale);
      scene.Record(SetNodeAttribute(node, mesh));
    }
  }

  /** The child loop of create_node_recursive: each child's subtree in order, each followed by
      AddChild on this node. */
  method BuildChildren(s: Settings, scene: Scene, node: Handle, o: Object, ghost before: map<array<Vec4>, seq<Vec4>>)
    requires Ready(s.version, o, before) && Disjoint(o)
    requires scene.created == node + 1 + MeshCount(o)
    requires Snapshot(BuffersFrom(o, 0), before)
    modifies scene, BuffersFrom(o, 0)
    ensures scene.created == node + 1 + MeshCount(o) + SizeUpTo(o, |o.children|)
    ensures scene.log == old(scene.log) + ChildrenEvents(s, scene.multT, node, o, before, |o.children|)
    ensures Converted(BuffersFrom(o, 0), before, scene.multT, s.unitScale)
    decreases o, 1
  {
    var i := 0;
    while i < |o.children|
      invariant i <= |o.children|
      invariant ChildrenDone(s, scene, node, o, before, i, old(scene.log))
    {
      ChildBuffersWithin(o, 0, i);
      BuildChild(s, scene, node, o, before, i, old(scene.log));
      i := i + 1;
    }
    BuffersSplit(o, |o.children|);
  }

  /** The child loop's invariant after the first i children: the handles they took, the calls
      they made, their buffers converted, and the later children's buffers still as the
      snapshot has them. */
  predicate ChildrenDone(s: Settings, scene: Scene, node: Handle, o: Object, before: map<array<Vec4>, seq<Vec4>>,
                         i: nat, start: seq<Event>)
    requires Ready(s.version, o, before)
    reads scene, BuffersFrom(o, i), if i <= |o.children| then BuffersUpTo(o, i) else {}
  {
    i <= |o.children| &&
    Converted(BuffersUpTo(o, i), before, scene.multT, s.unitScale) &&
    scene.created == node + 1 + MeshCount(o) + SizeUpTo(o, i) &&
    scene.log == start + ChildrenEvents(s, scene.multT, node, o, before, i) &&
    Snapshot(BuffersFrom(o, i), before)
  }

  /** A later child's buffers are among those of the children from j on. */
  lemma {:induction false} ChildBuffersWithin(o: Object, j: nat, i: nat)
    requires j <= i < |o.children|
    ensures Buffers(o.children[i]) <= BuffersFrom(o, j)
    decreases i - j
  {
    if j < i {
      ChildBuffersWithin(o, j + 1, i);
    }
  }

  /** One iteration of the child loop: the subtree of child i, then AddChild on this node. */
  method BuildChild(s: Settings, scene: Scene, node: Handle, o: Object, ghost before: map<array<Vec4>, seq<Vec4>>,
                    i: nat, ghost start: seq<Event>)
    requires Ready(s.version, o, before) && Disjoint(o)
    requires i < |o.children|
    requires ChildrenDone(s, scene, node, o, before, i, start)
    modifies scene, Buffers(o.children[i])
    ensures ChildrenDone(s, scene, node, o, before, i + 1, start)
    decreases o, 0
  {
    ghost var rest := BuffersFrom(o, i + 1);
    assert BuffersFrom(o, i) == Buffers(o.children[i]) + rest;
    assert Buffers(o.children[i]) !! rest;
    assert Snapshot(rest, before);
    EarlierBuffersApart(o, i);
    ghost var done := scene.log;
    var child := BuildNode(s, scene, o.children[i], before);
    ghost var sub := scene.log;
    assert Snapshot(rest, before);
    assert Converted(BuffersUpTo(o, i), before, scene.multT, s.unitScale);
    scene.Record(AddChild(node, child));
    ChildStep(s, scene.multT, node, o, before, i, child, start, done, sub, scene.log);
  }

  /** One more child: its subtree's calls and its AddChild extend the children's calls. */
  lemma {:induction false} ChildStep(s: Settings, multT: (AMatrix, Vec4) -> Vec4, h: Handle, o: Object,
                  before: map<array<Vec4>, seq<Vec4>>, i: nat, c: Handle,
                  start: seq<Event>, done: seq<Event>, sub: seq<Event>, now: seq<Event>)
    requires Ready(s.version, o, before)
    requires i < |o.children| && c == h + 1 + MeshCount(o) + SizeUpTo(o, i)
    requires done == start + ChildrenEvents(s, multT, h, o, before, i)
    requires sub == done + NodeEvents(s, multT, c, o.children[i], before)
    requires now == sub + [AddChild(h, c)]
    ensures now == start + ChildrenEvents(s, multT, h, o, before, i + 1)
    ensures SizeUpTo(o, i + 1) == SizeUpTo(o, i) + Size(o.children[i])
  {
  }
}
