/** The run-length polygon encoding of a mesh and the polygon call stream create_mesh turns it
    into. `polys[i]` is the offset into `indices` where polygon i starts; polygon i ends where the
    next one starts, or at index_count for the last one. Nothing is validated: a range whose end
    lies before its start is an empty polygon. */
module Codec {
  import opened Values
  import opened Engine

  /** A decoded polygon: the material index BeginPolygon receives (none in the older exporter)
      and the vertex index of every corner, in order. */
  datatype Polygon = Polygon(material: Option<nat>, corners: seq<nat>)

  /** Exclusive end of polygon i's corner range. */
  function PolygonEnd(polys: seq<nat>, indexCount: nat, i: nat): nat
    requires i < |polys|
  {
    if i == |polys| - 1 then indexCount else polys[i + 1]
  }

  /** Every index read the decoding loop performs lies inside `indices`: a non-empty range ends
      at or before index_count (an empty or inverted range reads nothing). */
  predicate InBounds(polys: seq<nat>, indexCount: nat)
  {
    forall i {:trigger PolygonEnd(polys, indexCount, i)} :: 0 <= i < |polys| && polys[i] < PolygonEnd(polys, indexCount, i) ==>
      PolygonEnd(polys, indexCount, i) <= indexCount
  }

  /** The table a well-formed mesh carries: it starts at 0, never decreases and stays inside
      the index buffer, so the ranges tile [0, index_count). */
  predicate WellFormed(polys: seq<nat>, indexCount: nat)
  {
    |polys| > 0 && polys[0] == 0 &&
    (forall i, j :: 0 <= i < j < |polys| ==> polys[i] <= polys[j]) &&
    (forall i :: 0 <= i < |polys| ==> polys[i] <= indexCount)
  }

  /** The corners the inner loop adds for polygon i: indices[polys[i] .. end), or none when the
      loop condition fails at once. */
  function Corners(polys: seq<nat>, indices: seq<nat>, i: nat): seq<nat>
    requires i < |polys| && InBounds(polys, |indices|)
  {
    var s, e := polys[i], PolygonEnd(polys, |indices|, i);
    if s < e then indices[s..e] else []
  }

  /** The polygons the offset table describes, one per entry of `polys`, polygon i tagged with
      materials[i]. */
  function Decode(polys: seq<nat>, indices: seq<nat>, materials: seq<Option<nat>>): (r: seq<Polygon>)
    requires |materials| == |polys| && InBounds(polys, |indices|)
    ensures |r| == |polys|
  {
    seq(|polys|, i requires 0 <= i < |polys| => Polygon(materials[i], Corners(polys, indices, i)))
  }

  /** The AddPolygon calls for a corner list. */
  function AddCalls(cs: seq<nat>): seq<Event>
  {
    seq(|cs|, j requires 0 <= j < |cs| => AddPolygon(cs[j]))
  }

  /** BeginPolygon, one AddPolygon per corner, EndPolygon. */
  function PolygonCalls(p: Polygon): seq<Event>
  {
    [BeginPolygon(p.material)] + AddCalls(p.corners) + [EndPolygon]
  }

  /** The call stream for a polygon list, polygon by polygon. */
  function Emit(ps: seq<Polygon>): seq<Event>
  {
    if ps == [] then [] else PolygonCalls(ps[0]) + Emit(ps[1..])
  }

  /** All corners of a polygon list, in order. */
  function Flatten(ps: seq<Polygon>): seq<nat>
  {
    if ps == [] then [] else ps[0].corners + Flatten(ps[1..])
  }

  /** The start offset of every polygon when the corners are laid out back to back from `base`:
      the offset table a polygon list re-encodes to. */
  function Starts(ps: seq<Polygon>, base: nat): (r: seq<nat>)
    ensures |r| == |ps|
  {
    if ps == [] then [] else [base] + Starts(ps[1..], base + |ps[0].corners|)
  }

  /** The material tags of a polygon list. */
  function Materials(ps: seq<Polygon>): (r: seq<Option<nat>>)
    ensures |r| == |ps|
  {
    seq(|ps|, i requires 0 <= i < |ps| => ps[i].material)
  }

  /** Reads the AddPolygon calls at the front of a call stream: their vertices and what follows. */
  function TakeCorners(es: seq<Event>): (r: (seq<nat>, seq<Event>))
    ensures |r.1| <= |es|
  {
    if es != [] && es[0].AddPolygon? then
      var (cs, rest) := TakeCorners(es[1..]);
      ([es[0].vertex] + cs, rest)
    else ([], es)
  }

  /** Reads a polygon call stream back into polygons; None when it is not a sequence of
      BeginPolygon, AddPolygon..., EndPolygon groups. */
  function Parse(es: seq<Event>): Option<seq<Polygon>>
    decreases |es|
  {
    if es == [] then Some([])
    else if !es[0].BeginPolygon? then None
    else
      var (cs, rest) := TakeCorners(es[1..]);
      if rest == [] || !rest[0].EndPolygon? then None
      else match Parse(rest[1..])
        case None => None
        case Some(ps) => Some([Polygon(es[0].polygonMaterial, cs)] + ps)
  }

  /** Adding one more corner appends one AddPolygon call. */
  lemma {:induction false} AddCallsSnoc(cs: seq<nat>, c: nat)
    ensures AddCalls(cs + [c]) == AddCalls(cs) + [AddPolygon(c)]
  {
    assert forall j :: 0 <= j < |cs| ==> (cs + [c])[j] == cs[j];
  }

  /** Emitting one more polygon appends its calls: the shape of the decoding loop. */
  lemma {:induction false} EmitSnoc(ps: seq<Polygon>, p: Polygon)
    ensures Emit(ps + [p]) == Emit(ps) + PolygonCalls(p)
  {
    if ps == [] {
      assert [p][1..] == [];
    } else {
      assert (ps + [p])[1..] == ps[1..] + [p];
      EmitSnoc(ps[1..], p);
    }
  }

  /** One more iteration of the polygon loop extends the emitted stream by one polygon's calls. */
  lemma {:induction false} EmitStep(prev: seq<Event>, before: seq<Event>, now: seq<Event>, ps: seq<Polygon>, i: nat)
    requires i < |ps|
    requires before == prev + Emit(ps[..i]) && now == before + PolygonCalls(ps[i])
    ensures now == prev + Emit(ps[..i + 1])
  {
    assert ps[..i + 1] == ps[..i] + [ps[i]];
    EmitSnoc(ps[..i], ps[i]);
  }

  lemma {:induction false} TakeCornersOfAddCalls(cs: seq<nat>, rest: seq<Event>)
    requires rest == [] || !rest[0].AddPolygon?
    ensures TakeCorners(AddCalls(cs) + rest) == (cs, rest)
  {
    if cs == [] {
      assert AddCalls(cs) + rest == rest;
    } else {
      var es := AddCalls(cs) + rest;
      assert es[0] == AddPolygon(cs[0]);
      assert es[1..] == AddCalls(cs[1..]) + rest;
      TakeCornersOfAddCalls(cs[1..], rest);
      assert [cs[0]] + cs[1..] == cs;
    }
  }

  /** The call stream create_mesh emits determines the polygons: it consists of exactly one
      BeginPolygon ... EndPolygon group per polygon, in order, each carrying that polygon's
      material tag and corner vertices. */
  lemma {:induction false} ParseEmit(ps: seq<Polygon>)
    ensures Parse(Emit(ps)) == Some(ps)
  {
    if ps != [] {
      var p := ps[0];
      var es := Emit(ps);
      var tail := [EndPolygon] + Emit(ps[1..]);
      assert es == [BeginPolygon(p.material)] + (AddCalls(p.corners) + tail);
      assert es[1..] == AddCalls(p.corners) + tail;
      TakeCornersOfAddCalls(p.corners, tail);
      assert tail[1..] == Emit(ps[1..]);
      ParseEmit(ps[1..]);
      assert [p] + ps[1..] == ps;
    }
  }

  lemma {:induction false} FlattenPrefix(ps: seq<Polygon>, i: nat)
    requires 0 < i <= |ps|
    ensures Flatten(ps[..i]) == ps[0].corners + Flatten(ps[1..i])
  {
    var q := ps[..i];
    assert q[0] == ps[0] && q[1..] == ps[1..i];
  }

  lemma {:induction false} StartsAt(ps: seq<Polygon>, base: nat, i: nat)
    requires i < |ps|
    ensures Starts(ps, base)[i] == base + |Flatten(ps[..i])|
  {
    if i == 0 {
      assert ps[..0] == [];
    } else {
      var b := base + |ps[0].corners|;
      StartsAt(ps[1..], b, i - 1);
      assert Starts(ps, base)[i] == Starts(ps[1..], b)[i - 1];
      assert ps[1..][..i - 1] == ps[1..i];
      FlattenPrefix(ps, i);
    }
  }

  lemma {:induction false} FlattenAt(ps: seq<Polygon>, i: nat)
    requires i < |ps|
    ensures Flatten(ps) == Flatten(ps[..i]) + ps[i].corners + Flatten(ps[i + 1..])
  {
    if i == 0 {
      assert ps[..0] == [];
      assert ps[1..] == ps[i + 1..];
    } else {
      FlattenAt(ps[1..], i - 1);
      assert ps[1..][..i - 1] == ps[1..i];
      assert ps[1..][i - 1] == ps[i];
      assert ps[1..][i..] == ps[i + 1..];
      FlattenPrefix(ps, i);
      assert Flatten(ps) == ps[0].corners + Flatten(ps[1..]);
    }
  }

  /** Where polygon i of an encoded list starts and ends, and that its range holds its corners. */
  lemma EncodedRange(ps: seq<Polygon>, i: nat)
    requires i < |ps|
    ensures var polys, indices := Starts(ps, 0), Flatten(ps);
      polys[i] <= PolygonEnd(polys, |indices|, i) <= |indices| &&
      indices[polys[i]..PolygonEnd(polys, |indices|, i)] == ps[i].corners
  {
    var polys, indices := Starts(ps, 0), Flatten(ps);
    StartsAt(ps, 0, i);
    FlattenAt(ps, i);
    var s := |Flatten(ps[..i])|;
    var e := PolygonEnd(polys, |indices|, i);
    if i < |ps| - 1 {
      StartsAt(ps, 0, i + 1);
      assert ps[..i + 1] == ps[..i] + [ps[i]];
      FlattenSnoc(ps[..i], ps[i]);
    }
    assert e == s + |ps[i].corners|;
    assert indices[s..e] == ps[i].corners;
  }

  /** Re-decoding an encoded polygon list gives it back: laying the corners out back to back and
      recording each start offset is a lossless encoding (empty polygons included). */
  lemma EncodeDecode(ps: seq<Polygon>)
    ensures InBounds(Starts(ps, 0), |Flatten(ps)|)
    ensures Decode(Starts(ps, 0), Flatten(ps), Materials(ps)) == ps
  {
    var polys, indices := Starts(ps, 0), Flatten(ps);
    forall i | 0 <= i < |ps|
      ensures polys[i] <= PolygonEnd(polys, |indices|, i) <= |indices|
      ensures indices[polys[i]..PolygonEnd(polys, |indices|, i)] == ps[i].corners
    {
      EncodedRange(ps, i);
    }
    var d := Decode(polys, indices, Materials(ps));
    forall i | 0 <= i < |ps| ensures d[i] == ps[i] {
      assert Corners(polys, indices, i) == ps[i].corners;
    }
  }

  lemma {:induction false} FlattenSnoc(ps: seq<Polygon>, p: Polygon)
    ensures Flatten(ps + [p]) == Flatten(ps) + p.corners
  {
    if ps == [] {
      assert [p][1..] == [];
    } else {
      assert (ps + [p])[1..] == ps[1..] + [p];
      FlattenSnoc(ps[1..], p);
    }
  }

  lemma {:induction false} DecodeSuffix(polys: seq<nat>, indices: seq<nat>, materials: seq<Option<nat>>, k: nat)
    requires |materials| == |polys| && WellFormed(polys, |indices|) && InBounds(polys, |indices|)
    requires k < |polys|
    ensures var d := Decode(polys, indices, materials)[k..];
      Flatten(d) == indices[polys[k]..] && Starts(d, polys[k]) == polys[k..]
    decreases |polys| - k
  {
    var d := Decode(polys, indices, materials);
    var s, e := polys[k], PolygonEnd(polys, |indices|, k);
    assert s <= e <= |indices| by {
      if k < |polys| - 1 { assert polys[k] <= polys[k + 1]; }
    }
    assert d[k].corners == indices[s..e];
    var dk := d[k..];
    assert dk[0] == d[k] && dk[1..] == d[k + 1..];
    assert Flatten(dk) == indices[s..e] + Flatten(d[k + 1..]);
    assert Starts(dk, s) == [s] + Starts(d[k + 1..], s + (e - s));
    if k == |polys| - 1 {
      assert d[k + 1..] == [];
      assert polys[k..] == [s];
    } else {
      DecodeSuffix(polys, indices, materials, k + 1);
      assert polys[k + 1] == e;
      assert indices[s..] == indices[s..e] + indices[e..];
      assert polys[k..] == [s] + polys[k + 1..];
    }
  }

  /** For a well-formed table, decoding and re-encoding reproduce the input exactly: the corners
      laid end to end are `indices`, and the polygons start where `polys` says. */
  lemma DecodeEncode(polys: seq<nat>, indices: seq<nat>, materials: seq<Option<nat>>)
    requires |materials| == |polys| && WellFormed(polys, |indices|)
    ensures InBounds(polys, |indices|)
    ensures Flatten(Decode(polys, indices, materials)) == indices
    ensures Starts(Decode(polys, indices, materials), 0) == polys
  {
    DecodeSuffix(polys, indices, materials, 0);
    var d := Decode(polys, indices, materials);
    assert d[0..] == d && polys[0..] == polys && indices[0..] == indices;
  }

  /** The polygon calls never end a session. */
  lemma {:induction false} EmitQuiet(ps: seq<Polygon>)
    ensures Quiet(Emit(ps))
  {
    if ps != [] {
      var cs := ps[0].corners;
      assert forall j :: 0 <= j < |cs| ==> AddCalls(cs)[j].AddPolygon?;
      EmitQuiet(ps[1..]);
    }
  }

  /** An offset smaller than the one before it is not an error: the earlier polygon is empty. */
  lemma InvertedRangeIsEmpty(polys: seq<nat>, indices: seq<nat>, materials: seq<Option<nat>>, i: nat)
    requires |materials| == |polys| && InBounds(polys, |indices|)
    requires i + 1 < |polys| && polys[i] > polys[i + 1]
    ensures Decode(polys, indices, materials)[i] == Polygon(materials[i], [])
  {
  }
}
