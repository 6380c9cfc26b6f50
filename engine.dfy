/** The interchange-format SDK, seen from the exporter: a black box that records every call made
    on it. Its observable state is the call log plus the number of objects (nodes, meshes and
    materials) it has handed out; the answers it gives that the exporter branches on are fixed
    when the engine is constructed. */
module Engine {
  import opened Values

  /** Handle of an SDK object: the number of objects created before it. */
  type Handle = nat

  datatype MappingMode = ByPolygonVertex | ByPolygon
  datatype ReferenceMode = Direct | IndexToDirect

  /** FBX property data types used by define_property. */
  datatype DataType = FloatDT | Double3DT | BoolDT

  /** A value passed to FbxProperty::Set<T>; the C++ template argument decides the variant. */
  datatype PropertyValue =
    | IntValue(i: int)
    | DoubleValue(d: real)
    | Double3Value(x: real, y: real, z: real)
    | BoolValue(b: bool)

  /** One value appended to a geometry element's direct array. */
  datatype Attribute = NormalValue(normal: Vec4) | UvValue(uv: Vec2)

  datatype Event =
    // session
    | CreateManager
    | CreateScene(sceneName: string)
    | FindWriter(description: string)
    | CreateExporter
    | ExporterInitialize(path: string, format: string)
    | Export
    | ManagerDestroy
    // materials
    | CreateLambert(material: Handle, materialName: string)
    | CreateShaderMaterial(material: Handle, materialName: string)
    | AddProperty(material: Handle, propertyName: string, shaderName: string, dataType: DataType)
    | SetProperty(material: Handle, propertyName: string, value: PropertyValue)
    | SceneAddMaterial(material: Handle)
    // nodes
    | CreateNode(node: Handle, nodeName: string)
    | LclTranslation(node: Handle, matrix: seq<real>)
    | LclRotation(node: Handle, matrix: seq<real>)
    | LclScaling(node: Handle, matrix: seq<real>)
    | NodeAddMaterial(node: Handle, sceneMaterial: nat)
    | SetNodeAttribute(node: Handle, mesh: Handle)
    | AddChild(parent: Handle, child: Handle)
    | MoveToSceneRoot(from: Handle, childIndex: nat)
    // meshes
    | CreateMesh(mesh: Handle, meshName: string)
    | InitControlPoints(count: nat)
    | SetControlPoints(points: seq<Vec4>)
    | BeginPolygon(polygonMaterial: Option<nat>)
    | AddPolygon(vertex: nat)
    | EndPolygon
    | CreateElementNormal
    | CreateElementUV(uvName: string)
    | SetName(elementName: string)
    | SetMappingMode(mapping: MappingMode)
    | SetReferenceMode(reference: ReferenceMode)
    | AddDirect(attribute: Attribute)

  /** No call in es ends a session: neither Export nor the manager's destruction. */
  predicate Quiet(es: seq<Event>)
  {
    Export !in es && ManagerDestroy !in es
  }

  /** How many times the call e occurs in es. */
  function Occurrences(es: seq<Event>, e: Event): nat
  {
    if es == [] then 0
    else (if es[0] == e then 1 else 0) + Occurrences(es[1..], e)
  }

  /** es destroys the manager exactly once, and calls Export once when `exported` holds and
      never otherwise. */
  predicate ClosesOnce(es: seq<Event>, exported: bool)
  {
    Occurrences(es, Export) == (if exported then 1 else 0) && Occurrences(es, ManagerDestroy) == 1
  }

  /** A call occurs nowhere in es exactly when es counts none of it. */
  lemma {:induction false} NoOccurrences(es: seq<Event>, e: Event)
    ensures Occurrences(es, e) == 0 <==> e !in es
  {
    if es != [] {
      NoOccurrences(es[1..], e);
      assert es == [es[0]] + es[1..];
    }
  }

  /** Counting is additive over concatenation. */
  lemma {:induction false} OccurrencesAppend(a: seq<Event>, b: seq<Event>, e: Event)
    ensures Occurrences(a + b, e) == Occurrences(a, e) + Occurrences(b, e)
  {
    if a != [] {
      assert (a + b)[1..] == a[1..] + b;
      OccurrencesAppend(a[1..], b, e);
    } else {
      assert a + b == b;
    }
  }

  /** A quiet front leaves the calls that end a session to the back part. */
  lemma QuietFront(front: seq<Event>, back: seq<Event>, exported: bool, whole: seq<Event>)
    requires Quiet(front) && ClosesOnce(back, exported) && whole == front + back
    ensures ClosesOnce(whole, exported)
  {
    OccurrencesAppend(front, back, Export);
    OccurrencesAppend(front, back, ManagerDestroy);
    NoOccurrences(front, Export);
    NoOccurrences(front, ManagerDestroy);
  }

  /** es counts no call that ends a session. */
  predicate Silent(es: seq<Event>)
  {
    Occurrences(es, Export) == 0 && Occurrences(es, ManagerDestroy) == 0
  }

  /** Counting none of the closing calls is the same as containing none. */
  lemma QuietIsSilent(es: seq<Event>)
    ensures Quiet(es) <==> Silent(es)
  {
    NoOccurrences(es, Export);
    NoOccurrences(es, ManagerDestroy);
  }

  /** Two silent sequences make a silent one. */
  lemma SilentJoin(a: seq<Event>, b: seq<Event>)
    requires Silent(a) && Silent(b)
    ensures Silent(a + b)
  {
    OccurrencesAppend(a, b, Export);
    OccurrencesAppend(a, b, ManagerDestroy);
  }

  class Scene {
    /** Every SDK call made so far, in order. */
    var log: seq<Event>
    /** How many nodes, meshes and materials have been created. */
    var created: nat
    /** What FbxExporter::Initialize answers. */
    const initSucceeds: bool
    /** The names for which FbxSurfaceMaterialUtils::AddProperty yields a valid property. */
    const accepts: iset<string>
    /** FbxAMatrix::MultT: a matrix applied to a vector. */
    const multT: (AMatrix, Vec4) -> Vec4

    constructor (initSucceeds: bool, accepts: iset<string>, multT: (AMatrix, Vec4) -> Vec4)
      ensures log == [] && created == 0
      ensures this.initSucceeds == initSucceeds && this.accepts == accepts && this.multT == multT
    {
      log := [];
      created := 0;
      this.initSucceeds := initSucceeds;
      this.accepts := accepts;
      this.multT := multT;
    }

    /** A call whose only effect the exporter relies on is that it happened. */
    method Record(e: Event)
      modifies this
      ensures log == old(log) + [e] && created == old(created)
    {
      log := log + [e];
    }

    /** The creation of a node, mesh or material: hands out the next handle. */
    method Create(e: Handle -> Event) returns (h: Handle)
      modifies this
      ensures h == old(created) && created == h + 1
      ensures log == old(log) + [e(h)]
    {
      h := created;
      created := created + 1;
      log := log + [e(h)];
    }

    /** FbxExporter::Initialize. */
    method InitializeExporter(path: string, format: string) returns (ok: bool)
      modifies this
      ensures ok == initSucceeds
      ensures log == old(log) + [ExporterInitialize(path, format)] && created == old(created)
    {
      log := log + [ExporterInitialize(path, format)];
      ok := initSucceeds;
    }

    /** FbxSurfaceMaterialUtils::AddProperty followed by FbxProperty::IsValid. */
    method AddPropertyTo(material: Handle, name: string, shaderName: string, dataType: DataType)
      returns (valid: bool)
      modifies this
      ensures valid == (name in accepts)
      ensures log == old(log) + [AddProperty(material, name, shaderName, dataType)]
      ensures created == old(created)
    {
      log := log + [AddProperty(material, name, shaderName, dataType)];
      valid := name in accepts;
    }
  }
}
