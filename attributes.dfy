/** Per-corner attribute channels (set_normal, set_uv): a named geometry element in
    by-polygon-vertex / direct mode whose direct array receives the input values in order. */
module Attributes {
  import opened Values
  import opened Engine

  /** A named normal set of the flat mesh: one normal per polygon corner. */
  datatype NormalSet = NormalSet(name: string, normal: seq<Vec4>)

  /** A named UV set of the flat mesh: one texture coordinate per polygon corner. */
  datatype UvSet = UvSet(name: string, uv: seq<Vec2>)

  function NormalValues(vs: seq<Vec4>): (r: seq<Attribute>)
    ensures |r| == |vs|
  {
    seq(|vs|, i requires 0 <= i < |vs| => NormalValue(vs[i]))
  }

  function UvValues(vs: seq<Vec2>): (r: seq<Attribute>)
    ensures |r| == |vs|
  {
    seq(|vs|, i requires 0 <= i < |vs| => UvValue(vs[i]))
  }

  function DirectAdds(vs: seq<Attribute>): seq<Event>
  {
    seq(|vs|, i requires 0 <= i < |vs| => AddDirect(vs[i]))
  }

  /** The calls that fill one element: its name, mapping by polygon vertex, direct reference,
      then one append per value. */
  function ChannelEvents(name: string, vs: seq<Attribute>): seq<Event>
  {
    [SetName(name), SetMappingMode(ByPolygonVertex), SetReferenceMode(Direct)] + DirectAdds(vs)
  }

  /** The values a call stream appends to direct arrays, in order. */
  function Appended(es: seq<Event>): seq<Attribute>
  {
    if es == [] then []
    else (if es[0].AddDirect? then [es[0].attribute] else []) + Appended(es[1..])
  }

  lemma {:induction false} AppendedDirectAdds(vs: seq<Attribute>)
    ensures Appended(DirectAdds(vs)) == vs
  {
    if vs != [] {
      assert DirectAdds(vs)[1..] == DirectAdds(vs[1..]);
      AppendedDirectAdds(vs[1..]);
      assert [vs[0]] + vs[1..] == vs;
    }
  }

  /** A filled channel holds exactly the input values, in input order: no value is dropped,
      duplicated, reordered or shared between corners. */
  lemma ChannelHoldsInputInOrder(name: string, vs: seq<Attribute>)
    ensures Appended(ChannelEvents(name, vs)) == vs
  {
    var es := ChannelEvents(name, vs);
    assert es[1..][1..][1..] == DirectAdds(vs);
    assert Appended(es) == Appended(es[1..]);
    assert Appended(es[1..]) == Appended(es[1..][1..]);
    assert Appended(es[1..][1..]) == Appended(DirectAdds(vs));
    AppendedDirectAdds(vs);
  }

  /** Filling a channel never ends a session. */
  lemma ChannelQuiet(name: string, vs: seq<Attribute>)
    ensures Quiet(ChannelEvents(name, vs))
  {
    assert forall j :: 0 <= j < |vs| ==> DirectAdds(vs)[j].AddDirect?;
  }

  /** Fills an element with the first n values of `vs`, one append per value. */
  method FillChannel(scene: Scene, name: string, vs: seq<Attribute>, n: nat)
    requires n <= |vs|
    modifies scene
    ensures scene.log == old(scene.log) + ChannelEvents(name, vs[..n])
    ensures scene.created == old(scene.created)
  {
    scene.Record(SetName(name));
    scene.Record(SetMappingMode(ByPolygonVertex));
    scene.Record(SetReferenceMode(Direct));
    var i := 0;
    while i < n
      invariant i <= n
      invariant scene.log == old(scene.log) + ChannelEvents(name, vs[..i])
      invariant scene.created == old(scene.created)
    {
      scene.Record(AddDirect(vs[i]));
      assert vs[..i + 1] == vs[..i] + [vs[i]];
      i := i + 1;
    }
  }

  /** set_normal: appends input_count normals of the set, in order. */
  method SetNormal(scene: Scene, input: NormalSet, inputCount: nat)
    requires inputCount <= |input.normal|
    modifies scene
    ensures scene.log == old(scene.log) + ChannelEvents(input.name, NormalValues(input.normal[..inputCount]))
    ensures scene.created == old(scene.created)
  {
    var vs := NormalValues(input.normal);
    FillChannel(scene, input.name, vs, inputCount);
    assert vs[..inputCount] == NormalValues(input.normal[..inputCount]);
  }

  /** set_uv: appends input_count texture coordinates of the set, in order. */
  method SetUv(scene: Scene, input: UvSet, inputCount: nat)
    requires inputCount <= |input.uv|
    modifies scene
    ensures scene.log == old(scene.log) + ChannelEvents(input.name, UvValues(input.uv[..inputCount]))
    ensures scene.created == old(scene.created)
  {
    var vs := UvValues(input.uv);
    FillChannel(scene, input.name, vs, inputCount);
    assert vs[..inputCount] == UvValues(input.uv[..inputCount]);
  }
}
