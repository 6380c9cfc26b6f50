/** Material-slot resolution. On export, each of a node's slots is a pointer that is looked up
    among the addresses of the export table's elements; on import, each material of an SDK node
    is looked up by name among the materials read from the scene. Both scans stop at the first
    match, and a slot that matches nothing is skipped. */
module Slots {
  import opened Values
  import opened Logs
  import opened Engine

  /** A memory address, as compared by pointer identity. */
  type Address = nat

  /** The first position of x in s, if any. */
  function FirstIndex<T(==)>(s: seq<T>, x: T): (r: Option<nat>)
    ensures r.Some? ==> r.value < |s| && s[r.value] == x
    ensures r.Some? ==> forall j :: 0 <= j < r.value ==> s[j] != x
    ensures r.None? <==> x !in s
  {
    if s == [] then None
    else if s[0] == x then Some(0)
    else match FirstIndex(s[1..], x)
      case None => None
      case Some(k) => Some(k + 1)
  }

  /** The scan with break shared by both slot loops: the first position of x in s. */
  method FindFirst<T(==)>(s: seq<T>, x: T) returns (r: Option<nat>)
    ensures r == FirstIndex(s, x)
  {
    r := None;
    var i := 0;
    while i < |s|
      invariant i <= |s|
      invariant forall j :: 0 <= j < i ==> s[j] != x
    {
      if s[i] == x {
        r := Some(i);
        break;
      }
      i := i + 1;
    }
    FirstIndexUnique(s, x, r);
  }

  /** A position that holds x and is preceded only by other values is the first one. */
  lemma FirstIndexUnique<T>(s: seq<T>, x: T, r: Option<nat>)
    requires r.Some? ==> r.value < |s| && s[r.value] == x && forall j :: 0 <= j < r.value ==> s[j] != x
    requires r.None? ==> x !in s
    ensures r == FirstIndex(s, x)
  {
  }

  // ---------------------------------------------------------------- export side

  /** The NodeAddMaterial calls for one node: each slot, in order, binds the first table index
      whose element address equals it; an unmatched slot adds nothing. */
  function Bindings(node: Handle, slots: seq<Address>, table: seq<Address>): seq<Event>
  {
    if slots == [] then []
    else
      var bound := match FirstIndex(table, slots[|slots| - 1])
        case None => []
        case Some(k) => [NodeAddMaterial(node, k)];
      Bindings(node, slots[..|slots| - 1], table) + bound
  }

  /** The slot loop of create_node_recursive. */
  method BindSlots(scene: Scene, node: Handle, slots: seq<Address>, table: seq<Address>)
    modifies scene
    ensures scene.created == old(scene.created)
    ensures scene.log == old(scene.log) + Bindings(node, slots, table)
  {
    var i := 0;
    while i < |slots|
      invariant i <= |slots|
      invariant scene.log == old(scene.log) + Bindings(node, slots[..i], table)
      invariant scene.created == old(scene.created)
    {
      var found := FindFirst(table, slots[i]);
      if found.Some? {
        scene.Record(NodeAddMaterial(node, found.value));
      }
      assert slots[..i + 1][..i] == slots[..i];
      i := i + 1;
    }
    TakeAll(slots);
  }

  /** Binding slots never ends a session. */
  lemma {:induction false} BindingsQuiet(node: Handle, slots: seq<Address>, table: seq<Address>)
    ensures Quiet(Bindings(node, slots, table))
  {
    if slots != [] {
      BindingsQuiet(node, slots[..|slots| - 1], table);
    }
  }

  /** The table indices a node's bindings name, in call order. */
  function BoundIndices(es: seq<Event>): seq<nat>
  {
    if es == [] then []
    else
      var last := es[|es| - 1];
      BoundIndices(es[..|es| - 1]) + (if last.NodeAddMaterial? then [last.sceneMaterial] else [])
  }

  lemma {:induction false} BoundIndicesAppend(a: seq<Event>, b: seq<Event>)
    ensures BoundIndices(a + b) == BoundIndices(a) + BoundIndices(b)
    decreases |b|
  {
    if b == [] {
      assert a + b == a;
    } else {
      assert (a + b)[..|a + b| - 1] == a + b[..|b| - 1];
      BoundIndicesAppend(a, b[..|b| - 1]);
    }
  }

  /** Slots that point at elements of a table whose elements have distinct addresses bind
      exactly those elements' indices, in slot order. */
  lemma {:induction false} TableSlotsBindTheirIndices(node: Handle, ks: seq<nat>, table: seq<Address>)
    requires forall i, j :: 0 <= i < j < |table| ==> table[i] != table[j]
    requires forall i :: 0 <= i < |ks| ==> ks[i] < |table|
    ensures BoundIndices(Bindings(node, seq(|ks|, i requires 0 <= i < |ks| => table[ks[i]]), table)) == ks
  {
    var slots := seq(|ks|, i requires 0 <= i < |ks| => table[ks[i]]);
    if ks != [] {
      var init := ks[..|ks| - 1];
      var k := ks[|ks| - 1];
      TableSlotsBindTheirIndices(node, init, table);
      assert slots[..|slots| - 1] == seq(|init|, i requires 0 <= i < |init| => table[init[i]]);
      FirstIndexUnique(table, table[k], Some(k));
      BoundIndicesAppend(Bindings(node, slots[..|slots| - 1], table), [NodeAddMaterial(node, k)]);
      assert BoundIndices([NodeAddMaterial(node, k)]) == [k] by {
        assert [NodeAddMaterial(node, k)][..0] == [];
      }
      assert init + [k] == ks;
    }
  }

  /** Slots that point outside the table bind nothing. */
  lemma {:induction false} ForeignSlotsBindNothing(node: Handle, slots: seq<Address>, table: seq<Address>)
    requires forall i :: 0 <= i < |slots| ==> slots[i] !in table
    ensures Bindings(node, slots, table) == []
  {
    if slots != [] {
      ForeignSlotsBindNothing(node, slots[..|slots| - 1], table);
    }
  }

  // ---------------------------------------------------------------- import side

  /** Where each of a node's materials resolves: the first table entry with the same name among
      the first `bound` entries, or no slot at all. */
  function ImportSlots(nodeMaterials: seq<string>, table: seq<string>, bound: nat): (r: seq<Option<nat>>)
    requires bound <= |table|
    ensures |r| == |nodeMaterials|
  {
    seq(|nodeMaterials|, i requires 0 <= i < |nodeMaterials| => FirstIndex(table[..bound], nodeMaterials[i]))
  }

  /** The slot loop of read_node_recursive as written: the name scan over the scene's materials
      stops at the node's own material count. */
  method ResolveImportSlotsAsWritten(nodeMaterials: seq<string>, table: seq<string>) returns (slots: array<Option<nat>>)
    requires |nodeMaterials| <= |table|
    ensures fresh(slots)
    ensures slots[..] == ImportSlots(nodeMaterials, table, |nodeMaterials|)
  {
    slots := ResolveWithin(nodeMaterials, table, |nodeMaterials|);
  }

  /** The slot loop with the scan running over every material of the scene. */
  method ResolveImportSlots(nodeMaterials: seq<string>, table: seq<string>) returns (slots: array<Option<nat>>)
    ensures fresh(slots)
    ensures slots[..] == ImportSlots(nodeMaterials, table, |table|)
  {
    slots := ResolveWithin(nodeMaterials, table, |table|);
  }

  /** The two nested loops, scanning the first `bound` table entries. A slot with no match keeps
      its initial value, modelled as no slot. */
  method ResolveWithin(nodeMaterials: seq<string>, table: seq<string>, bound: nat) returns (slots: array<Option<nat>>)
    requires bound <= |table|
    ensures fresh(slots)
    ensures slots[..] == ImportSlots(nodeMaterials, table, bound)
  {
    slots := new Option<nat>[|nodeMaterials|](_ => None);
    var i := 0;
    while i < |nodeMaterials|
      invariant i <= |nodeMaterials|
      invariant forall j :: 0 <= j < i ==> slots[j] == FirstIndex(table[..bound], nodeMaterials[j])
      invariant forall j :: i <= j < |nodeMaterials| ==> slots[j] == None
    {
      var found := FindFirst(table[..bound], nodeMaterials[i]);
      if found.Some? {
        slots[i] := found;
      }
      i := i + 1;
    }
  }

  /** With the full scan, a material resolves exactly when the table has one of that name, and
      then to the first such entry. */
  lemma ResolvedSlotsNameTheirMaterial(nodeMaterials: seq<string>, table: seq<string>, i: nat)
    requires i < |nodeMaterials|
    ensures ImportSlots(nodeMaterials, table, |table|)[i].Some? <==> nodeMaterials[i] in table
    ensures ImportSlots(nodeMaterials, table, |table|)[i].Some? ==>
      var k := ImportSlots(nodeMaterials, table, |table|)[i].value;
      k < |table| && table[k] == nodeMaterials[i] && forall j :: 0 <= j < k ==> table[j] != nodeMaterials[i]
  {
    assert table[..|table|] == table;
  }

  /** The bounded scan misses a material that sits past the node's own material count: a node
      with the single material "B" over the table ["A", "B"] ends with no slot, where the full
      scan finds entry 1. */
  lemma BoundedScanMissesLaterMaterial()
    ensures ImportSlots(["B"], ["A", "B"], 1) == [None]
    ensures ImportSlots(["B"], ["A", "B"], 2) == [Some(1)]
  {
    assert ["A", "B"][..1] == ["A"];
    assert ["A", "B"][..2] == ["A", "B"];
    assert FirstIndex(["A", "B"], "B") == Some(1) by {
      assert ["A", "B"][1..] == ["B"];
    }
  }
}
