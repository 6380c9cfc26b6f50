/** Material creation. The current exporter creates a Lambert material carrying only the name;
    the older one defines properties on a shader material through define_property, whose
    calls and their meaning are stated here for any list of definitions. */
module Materials {
  import opened Values
  import opened Logs
  import opened Engine

  /** A material of the export table: its name and the standard-surface parameters the caller
      fills in (forty scalar and colour fields, flattened here). */
  datatype Material = Material(name: string, standardSurface: seq<real>)

  /** One define_property call: property name, shader parameter name, data type and the value
      passed to FbxProperty::Set. */
  datatype PropertyDef = PropertyDef(name: string, shaderName: string, dataType: DataType, value: PropertyValue)

  /** The calls one define_property makes: AddProperty, then Set only if the property is valid. */
  function PropertyEvents(accepts: iset<string>, material: Handle, d: PropertyDef): seq<Event>
  {
    [AddProperty(material, d.name, d.shaderName, d.dataType)] +
    (if d.name in accepts then [SetProperty(material, d.name, d.value)] else [])
  }

  /** The calls a run of define_property makes, in order. */
  function DefineEvents(accepts: iset<string>, material: Handle, defs: seq<PropertyDef>): seq<Event>
  {
    if defs == [] then []
    else DefineEvents(accepts, material, defs[..|defs| - 1]) + PropertyEvents(accepts, material, defs[|defs| - 1])
  }

  /** The names handed to AddProperty, in order. */
  function AddedNames(es: seq<Event>): seq<string>
  {
    if es == [] then []
    else
      var last := es[|es| - 1];
      AddedNames(es[..|es| - 1]) + (if last.AddProperty? then [last.propertyName] else [])
  }

  /** The (name, value) pairs handed to SetProperty, in order. */
  function SetValues(es: seq<Event>): seq<(string, PropertyValue)>
  {
    if es == [] then []
    else
      var last := es[|es| - 1];
      SetValues(es[..|es| - 1]) + (if last.SetProperty? then [(last.propertyName, last.value)] else [])
  }

  /** The definitions whose property the SDK accepts, as (name, value) pairs. */
  function AcceptedValues(accepts: iset<string>, defs: seq<PropertyDef>): seq<(string, PropertyValue)>
  {
    if defs == [] then []
    else
      var last := defs[|defs| - 1];
      AcceptedValues(accepts, defs[..|defs| - 1]) + (if last.name in accepts then [(last.name, last.value)] else [])
  }

  lemma {:induction false} AddedNamesAppend(a: seq<Event>, b: seq<Event>)
    ensures AddedNames(a + b) == AddedNames(a) + AddedNames(b)
    decreases |b|
  {
    if b == [] {
      assert a + b == a;
    } else {
      assert a + b == (a + b[..|b| - 1]) + [b[|b| - 1]];
      assert (a + b)[..|a + b| - 1] == a + b[..|b| - 1];
      AddedNamesAppend(a, b[..|b| - 1]);
    }
  }

  lemma {:induction false} SetValuesAppend(a: seq<Event>, b: seq<Event>)
    ensures SetValues(a + b) == SetValues(a) + SetValues(b)
    decreases |b|
  {
    if b == [] {
      assert a + b == a;
    } else {
      assert (a + b)[..|a + b| - 1] == a + b[..|b| - 1];
      SetValuesAppend(a, b[..|b| - 1]);
    }
  }

  /** Every definition reaches AddProperty, in order, whatever the SDK answers. */
  lemma {:induction false} EveryPropertyIsAdded(accepts: iset<string>, material: Handle, defs: seq<PropertyDef>)
    ensures |AddedNames(DefineEvents(accepts, material, defs))| == |defs|
    ensures forall i :: 0 <= i < |defs| ==> AddedNames(DefineEvents(accepts, material, defs))[i] == defs[i].name
  {
    if defs != [] {
      var init, last := defs[..|defs| - 1], defs[|defs| - 1];
      EveryPropertyIsAdded(accepts, material, init);
      var p := PropertyEvents(accepts, material, last);
      AddedNamesAppend(DefineEvents(accepts, material, init), p);
      var add := [AddProperty(material, last.name, last.shaderName, last.dataType)];
      assert AddedNames(add) == [last.name] by {
        assert add[..0] == [];
      }
      if last.name in accepts {
        assert p[..|p| - 1] == add;
      } else {
        assert p == add;
      }
      var names := AddedNames(DefineEvents(accepts, material, init));
      assert AddedNames(DefineEvents(accepts, material, defs)) == names + [last.name];
      forall i | 0 <= i < |defs|
        ensures (names + [last.name])[i] == defs[i].name
      {
        if i < |init| {
          assert (names + [last.name])[i] == names[i];
        }
      }
    }
  }

  /** A value is set exactly for the definitions whose property the SDK accepts, and it is the
      definition's own value; a rejected property is skipped without any other effect. */
  lemma {:induction false} OnlyAcceptedPropertiesAreSet(accepts: iset<string>, material: Handle, defs: seq<PropertyDef>)
    ensures SetValues(DefineEvents(accepts, material, defs)) == AcceptedValues(accepts, defs)
  {
    if defs != [] {
      var init, last := defs[..|defs| - 1], defs[|defs| - 1];
      OnlyAcceptedPropertiesAreSet(accepts, material, init);
      var p := PropertyEvents(accepts, material, last);
      SetValuesAppend(DefineEvents(accepts, material, init), p);
      var add := [AddProperty(material, last.name, last.shaderName, last.dataType)];
      assert SetValues(add) == [] by {
        assert add[..0] == [];
      }
      if last.name in accepts {
        assert p[..|p| - 1] == add;
      } else {
        assert p == add;
      }
    }
  }

  /** Defining properties never ends a session. */
  lemma {:induction false} DefineEventsQuiet(accepts: iset<string>, material: Handle, defs: seq<PropertyDef>)
    ensures Quiet(DefineEvents(accepts, material, defs))
  {
    if defs != [] {
      DefineEventsQuiet(accepts, material, defs[..|defs| - 1]);
    }
  }

  /** define_property. */
  method DefineProperty(scene: Scene, material: Handle, name: string, shaderName: string, dataType: DataType,
                        value: PropertyValue)
    modifies scene
    ensures scene.created == old(scene.created)
    ensures scene.log == old(scene.log) + PropertyEvents(scene.accepts, material, PropertyDef(name, shaderName, dataType, value))
  {
    var valid := scene.AddPropertyTo(material, name, shaderName, dataType);
    if valid {
      scene.Record(SetProperty(material, name, value));
    }
  }

  /** create_material of the current exporter: a Lambert material named after the input. */
  method CreateMaterial(scene: Scene, input: Material) returns (material: Handle)
    modifies scene
    ensures material == old(scene.created) && scene.created == material + 1
    ensures scene.log == old(scene.log) + [CreateLambert(material, input.name)]
  {
    material := scene.Create((h: Handle) => CreateLambert(h, input.name));
  }

  lemma {:induction false} DefineEventsAppend(accepts: iset<string>, material: Handle, a: seq<PropertyDef>, b: seq<PropertyDef>)
    ensures DefineEvents(accepts, material, a + b) == DefineEvents(accepts, material, a) + DefineEvents(accepts, material, b)
    decreases |b|
  {
    if b == [] {
      assert a + b == a;
    } else {
      assert (a + b)[..|a + b| - 1] == a + b[..|b| - 1];
      DefineEventsAppend(accepts, material, a, b[..|b| - 1]);
    }
  }

  lemma {:induction false} GroupStep(accepts: iset<string>, material: Handle, start: seq<Event>, before: seq<Event>, after: seq<Event>,
                  done: seq<PropertyDef>, next: seq<PropertyDef>)
    requires before == start + DefineEvents(accepts, material, done)
    requires after == before + DefineEvents(accepts, material, next)
    ensures after == start + DefineEvents(accepts, material, done + next)
  {
    DefineEventsAppend(accepts, material, done, next);
    AppendStep(start, DefineEvents(accepts, material, done), DefineEvents(accepts, material, next),
               DefineEvents(accepts, material, done + next), before, after);
  }

  /** One more define_property call extends the run by the next definition of the list. */
  lemma {:induction false} DefineStep(accepts: iset<string>, material: Handle, defs: seq<PropertyDef>, k: nat,
                   start: seq<Event>, log: seq<Event>)
    requires k < |defs|
    requires log == start + DefineEvents(accepts, material, defs[..k]) + PropertyEvents(accepts, material, defs[k])
    ensures log == start + DefineEvents(accepts, material, defs[..k + 1])
  {
    assert defs[..k + 1][..k] == defs[..k];
  }

}
