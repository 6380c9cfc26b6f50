/** create_material of the older exporter: a shader material and the fixed list of
    standard-surface properties defined on it, each set to a constant default. */
module ShaderMaterial {
  import opened Values
  import opened Logs
  import opened Engine
  import opened Materials

  /** The definitions for the base and emission lobes. */
  function BaseProperties(): seq<PropertyDef>
  {
    [
      PropertyDef("Base", "base", FloatDT, IntValue(1)),
      PropertyDef("BaseColor", "base_color", Double3DT, Double3Value(1.0, 1.0, 1.0)),
      PropertyDef("Emission", "emission", FloatDT, DoubleValue(0.0)),
      PropertyDef("EmissionColor", "emission_color", Double3DT, Double3Value(1.0, 1.0, 1.0))
    ]
  }

  /** The definitions for the specular lobe. */
  function SpecularProperties(): seq<PropertyDef>
  {
    [
      PropertyDef("Specular", "specular", FloatDT, DoubleValue(0.2)),
      PropertyDef("SpecularIOR", "specular_IOR", FloatDT, DoubleValue(1.5)),
      PropertyDef("SpecularColor", "specular_color", Double3DT, Double3Value(1.0, 1.0, 1.0)),
      PropertyDef("SpecularAnisotropy", "specular_anisotropy", FloatDT, DoubleValue(0.0)),
      PropertyDef("SpecularRoughness", "specular_roughness", FloatDT, DoubleValue(0.4)),
      PropertyDef("SpecularRotation", "specular_rotation", FloatDT, DoubleValue(0.0))
    ]
  }

  /** The definitions for the transmission lobe. */
  function TransmissionProperties(): seq<PropertyDef>
  {
    [
      PropertyDef("Transmission", "transmission", FloatDT, DoubleValue(0.0)),
      PropertyDef("TransmissionDepth", "transmission_depth", FloatDT, DoubleValue(0.0)),
      PropertyDef("TransmissionColor", "transmission_color", Double3DT, Double3Value(1.0, 1.0, 1.0)),
      PropertyDef("TransmissionScatter", "transmission_scatter", Double3DT, Double3Value(0.0, 0.0, 0.0)),
      PropertyDef("TransmissionExtraRoughness", "transmission_extra_roughness", FloatDT, DoubleValue(0.0)),
      PropertyDef("TransmissionDispersion", "transmission_dispersion", FloatDT, DoubleValue(0.0)),
      PropertyDef("TransmissionScatterAnisotropy", "transmission_scatter_anisotropy", FloatDT, DoubleValue(0.0))
    ]
  }

  /** The definitions for the sheen lobe. */
  function SheenProperties(): seq<PropertyDef>
  {
    [
      PropertyDef("Sheen", "sheen", FloatDT, DoubleValue(0.0)),
      PropertyDef("SheenColor", "sheen_color", Double3DT, Double3Value(1.0, 1.0, 1.0)),
      PropertyDef("SheenRoughness", "sheen_roughness", FloatDT, DoubleValue(0.3))
    ]
  }

  /** The definitions for the coat lobe. */
  function CoatProperties(): seq<PropertyDef>
  {
    [
      PropertyDef("Coat", "coat", FloatDT, DoubleValue(0.0)),
      PropertyDef("CoatAffectColor", "coat_affect_color", FloatDT, DoubleValue(0.0)),
      PropertyDef("CoatNormal", "coat_normal", Double3DT, Double3Value(0.0, 0.0, 0.0)),
      PropertyDef("CoatRoughness", "coat_roughness", FloatDT, DoubleValue(0.1)),
      PropertyDef("CoatColor", "coat_color", Double3DT, Double3Value(1.0, 1.0, 1.0)),
      PropertyDef("CoatIOR", "coat_IOR", FloatDT, DoubleValue(1.5)),
      PropertyDef("CoatAffectRoughness", "coat_affect_roughness", FloatDT, DoubleValue(0.0)),
      PropertyDef("CoatRotation", "coat_rotation", FloatDT, DoubleValue(0.0)),
      PropertyDef("CoatAnisotropy", "coat_anisotropy", FloatDT, DoubleValue(0.0))
    ]
  }

  /** The definitions for the thin-walled and thin-film parameters. */
  function ThinFilmProperties(): seq<PropertyDef>
  {
    [
      PropertyDef("ThinWalled", "thin_walled", BoolDT, BoolValue(false)),
      PropertyDef("ThinFilmIOR", "thin_film_IOR", FloatDT, DoubleValue(1.5)),
      PropertyDef("ThinFilmThickness", "thin_film_thickness", FloatDT, DoubleValue(0.0))
    ]
  }

  /** The definitions for the subsurface lobe. */
  function SubsurfaceProperties(): seq<PropertyDef>
  {
    [
      PropertyDef("Subsurface", "subsurface", FloatDT, DoubleValue(0.0)),
      PropertyDef("SubsurfaceScale", "subsurface_scale", FloatDT, DoubleValue(1.0)),
      PropertyDef("SubsurfaceAnisotropy", "subsurface_anisotropy", FloatDT, DoubleValue(0.0)),
      PropertyDef("SubsurfaceRadius", "subsurface_radius", Double3DT, Double3Value(1.0, 1.0, 1.0)),
      PropertyDef("SubsurfaceColor", "subsurface_color", Double3DT, Double3Value(1.0, 1.0, 1.0))
    ]
  }

  /** The definitions for metalness, opacity and diffuse roughness. */
  function SurfaceProperties(): seq<PropertyDef>
  {
    [
      PropertyDef("Metalness", "metalness", FloatDT, DoubleValue(0.0)),
      PropertyDef("Opacity", "opacity", Double3DT, Double3Value(1.0, 1.0, 1.0)),
      PropertyDef("DiffuseRoughness", "diffuse_roughness", FloatDT, DoubleValue(0.0))
    ]
  }

  /** The properties the older create_material defines, in call order: forty of them. */
  function ShaderProperties(): seq<PropertyDef>
  {
    BaseProperties() + SpecularProperties() + TransmissionProperties() + SheenProperties() +
    CoatProperties() + ThinFilmProperties() + SubsurfaceProperties() + SurfaceProperties()
  }

  /** Whatever the SDK accepts, a shader material receives AddProperty for all forty
      definitions of the table, in table order. */
  lemma {:induction false} ShaderMaterialAddsEveryProperty(accepts: iset<string>, material: Handle)
    ensures var names := AddedNames(DefineEvents(accepts, material, ShaderProperties()));
      |names| == |ShaderProperties()| == 40 &&
      forall i :: 0 <= i < 40 ==> names[i] == ShaderProperties()[i].name
  {
    EveryPropertyIsAdded(accepts, material, ShaderProperties());
  }

  /** The eight groups of calls, one after another, make the whole property list. */
  lemma {:induction false} DefineGroups(accepts: iset<string>, material: Handle, start: seq<Event>,
                     l0: seq<Event>, l1: seq<Event>, l2: seq<Event>, l3: seq<Event>,
                     l4: seq<Event>, l5: seq<Event>, l6: seq<Event>, l7: seq<Event>)
    requires l0 == start + DefineEvents(accepts, material, BaseProperties())
    requires l1 == l0 + DefineEvents(accepts, material, SpecularProperties())
    requires l2 == l1 + DefineEvents(accepts, material, TransmissionProperties())
    requires l3 == l2 + DefineEvents(accepts, material, SheenProperties())
    requires l4 == l3 + DefineEvents(accepts, material, CoatProperties())
    requires l5 == l4 + DefineEvents(accepts, material, ThinFilmProperties())
    requires l6 == l5 + DefineEvents(accepts, material, SubsurfaceProperties())
    requires l7 == l6 + DefineEvents(accepts, material, SurfaceProperties())
    ensures l7 == start + DefineEvents(accepts, material, ShaderProperties())
  {
    var p1 := BaseProperties() + SpecularProperties();
    GroupStep(accepts, material, start, l0, l1, BaseProperties(), SpecularProperties());
    var p2 := p1 + TransmissionProperties();
    GroupStep(accepts, material, start, l1, l2, p1, TransmissionProperties());
    var p3 := p2 + SheenProperties();
    GroupStep(accepts, material, start, l2, l3, p2, SheenProperties());
    var p4 := p3 + CoatProperties();
    GroupStep(accepts, material, start, l3, l4, p3, CoatProperties());
    var p5 := p4 + ThinFilmProperties();
    GroupStep(accepts, material, start, l4, l5, p4, ThinFilmProperties());
    var p6 := p5 + SubsurfaceProperties();
    GroupStep(accepts, material, start, l5, l6, p5, SubsurfaceProperties());
    GroupStep(accepts, material, start, l6, l7, p6, SurfaceProperties());
    assert ShaderProperties() == p6 + SurfaceProperties();
  }

  /** create_material of the older exporter: a shader material named after the input, then the
      fixed property list, whatever the input's other fields hold. */
  method CreateShaderMaterial(scene: Scene, input: Material) returns (material: Handle)
    modifies scene
    ensures material == old(scene.created) && scene.created == material + 1
    ensures scene.log == old(scene.log) + [Engine.CreateShaderMaterial(material, input.name)] +
      DefineEvents(scene.accepts, material, ShaderProperties())
  {
    material := scene.Create((h: Handle) => Engine.CreateShaderMaterial(h, input.name));
    ghost var start := scene.log;
    DefineBaseProperties(scene, material);
    ghost var l0 := scene.log;
    DefineSpecularProperties(scene, material);
    ghost var l1 := scene.log;
    DefineTransmissionProperties(scene, material);
    ghost var l2 := scene.log;
    DefineSheenProperties(scene, material);
    ghost var l3 := scene.log;
    DefineCoatProperties(scene, material);
    ghost var l4 := scene.log;
    DefineThinFilmProperties(scene, material);
    ghost var l5 := scene.log;
    DefineSubsurfaceProperties(scene, material);
    ghost var l6 := scene.log;
    DefineSurfaceProperties(scene, material);
    ghost var l7 := scene.log;
    DefineGroups(scene.accepts, material, start, l0, l1, l2, l3, l4, l5, l6, l7);
  }

  /** The define_property calls for the base and emission lobes. */
  method DefineBaseProperties(scene: Scene, material: Handle)
    modifies scene
    ensures scene.created == old(scene.created)
    ensures scene.log == old(scene.log) + DefineEvents(scene.accepts, material, BaseProperties())
  {
    ghost var start := scene.log;
    assert BaseProperties()[..0] == [];
    DefineProperty(scene, material, "Base", "base", FloatDT, IntValue(1));
    DefineStep(scene.accepts, material, BaseProperties(), 0, start, scene.log);
    DefineProperty(scene, material, "BaseColor", "base_color", Double3DT, Double3Value(1.0, 1.0, 1.0));
    DefineStep(scene.accepts, material, BaseProperties(), 1, start, scene.log);
    DefineProperty(scene, material, "Emission", "emission", FloatDT, DoubleValue(0.0));
    DefineStep(scene.accepts, material, BaseProperties(), 2, start, scene.log);
    DefineProperty(scene, material, "EmissionColor", "emission_color", Double3DT, Double3Value(1.0, 1.0, 1.0));
    DefineStep(scene.accepts, material, BaseProperties(), 3, start, scene.log);
    TakeAll(BaseProperties());
  }

  /** The define_property calls for the specular lobe. */
  method DefineSpecularProperties(scene: Scene, material: Handle)
    modifies scene
    ensures scene.created == old(scene.created)
    ensures scene.log == old(scene.log) + DefineEvents(scene.accepts, material, SpecularProperties())
  {
    ghost var start := scene.log;
    assert SpecularProperties()[..0] == [];
    DefineProperty(scene, material, "Specular", "specular", FloatDT, DoubleValue(0.2));
    DefineStep(scene.accepts, material, SpecularProperties(), 0, start, scene.log);
    DefineProperty(scene, material, "SpecularIOR", "specular_IOR", FloatDT, DoubleValue(1.5));
    DefineStep(scene.accepts, material, SpecularProperties(), 1, start, scene.log);
    DefineProperty(scene, material, "SpecularColor", "specular_color", Double3DT, Double3Value(1.0, 1.0, 1.0));
    DefineStep(scene.accepts, material, SpecularProperties(), 2, start, scene.log);
    DefineProperty(scene, material, "SpecularAnisotropy", "specular_anisotropy", FloatDT, DoubleValue(0.0));
    DefineStep(scene.accepts, material, SpecularProperties(), 3, start, scene.log);
    DefineProperty(scene, material, "SpecularRoughness", "specular_roughness", FloatDT, DoubleValue(0.4));
    DefineStep(scene.accepts, material, SpecularProperties(), 4, start, scene.log);
    DefineProperty(scene, material, "SpecularRotation", "specular_rotation", FloatDT, DoubleValue(0.0));
    DefineStep(scene.accepts, material, SpecularProperties(), 5, start, scene.log);
    TakeAll(SpecularProperties());
  }

  /** The define_property calls for the transmission lobe. */
  method DefineTransmissionProperties(scene: Scene, material: Handle)
    modifies scene
    ensures scene.created == old(scene.created)
    ensures scene.log == old(scene.log) + DefineEvents(scene.accepts, material, TransmissionProperties())
  {
    ghost var start := scene.log;
    assert TransmissionProperties()[..0] == [];
    DefineProperty(scene, material, "Transmission", "transmission", FloatDT, DoubleValue(0.0));
    DefineStep(scene.accepts, material, TransmissionProperties(), 0, start, scene.log);
    DefineProperty(scene, material, "TransmissionDepth", "transmission_depth", FloatDT, DoubleValue(0.0));
    DefineStep(scene.accepts, material, TransmissionProperties(), 1, start, scene.log);
    DefineProperty(scene, material, "TransmissionColor", "transmission_color", Double3DT, Double3Value(1.0, 1.0, 1.0));
    DefineStep(scene.accepts, material, TransmissionProperties(), 2, start, scene.log);
    DefineProperty(scene, material, "TransmissionScatter", "transmission_scatter", Double3DT, Double3Value(0.0, 0.0, 0.0));
    DefineStep(scene.accepts, material, TransmissionProperties(), 3, start, scene.log);
    DefineProperty(scene, material, "TransmissionExtraRoughness", "transmission_extra_roughness", FloatDT, DoubleValue(0.0));
    DefineStep(scene.accepts, material, TransmissionProperties(), 4, start, scene.log);
    DefineProperty(scene, material, "TransmissionDispersion", "transmission_dispersion", FloatDT, DoubleValue(0.0));
    DefineStep(scene.accepts, material, TransmissionProperties(), 5, start, scene.log);
    DefineProperty(scene, material, "TransmissionScatterAnisotropy", "transmission_scatter_anisotropy", FloatDT, DoubleValue(0.0));
    DefineStep(scene.accepts, material, TransmissionProperties(), 6, start, scene.log);
    TakeAll(TransmissionProperties());
  }

  /** The define_property calls for the sheen lobe. */
  method DefineSheenProperties(scene: Scene, material: Handle)
    modifies scene
    ensures scene.created == old(scene.created)
    ensures scene.log == old(scene.log) + DefineEvents(scene.accepts, material, SheenProperties())
  {
    ghost var start := scene.log;
    assert SheenProperties()[..0] == [];
    DefineProperty(scene, material, "Sheen", "sheen", FloatDT, DoubleValue(0.0));
    DefineStep(scene.accepts, material, SheenProperties(), 0, start, scene.log);
    DefineProperty(scene, material, "SheenColor", "sheen_color", Double3DT, Double3Value(1.0, 1.0, 1.0));
    DefineStep(scene.accepts, material, SheenProperties(), 1, start, scene.log);
    DefineProperty(scene, material, "SheenRoughness", "sheen_roughness", FloatDT, DoubleValue(0.3));
    DefineStep(scene.accepts, material, SheenProperties(), 2, start, scene.log);
    TakeAll(SheenProperties());
  }

  /** The define_property calls for the coat lobe. */
  method DefineCoatProperties(scene: Scene, material: Handle)
    modifies scene
    ensures scene.created == old(scene.created)
    ensures scene.log == old(scene.log) + DefineEvents(scene.accepts, material, CoatProperties())
  {
    ghost var start := scene.log;
    assert CoatProperties()[..0] == [];
    DefineProperty(scene, material, "Coat", "coat", FloatDT, DoubleValue(0.0));
    DefineStep(scene.accepts, material, CoatProperties(), 0, start, scene.log);
    DefineProperty(scene, material, "CoatAffectColor", "coat_affect_color", FloatDT, DoubleValue(0.0));
    DefineStep(scene.accepts, material, CoatProperties(), 1, start, scene.log);
    DefineProperty(scene, material, "CoatNormal", "coat_normal", Double3DT, Double3Value(0.0, 0.0, 0.0));
    DefineStep(scene.accepts, material, CoatProperties(), 2, start, scene.log);
    DefineProperty(scene, material, "CoatRoughness", "coat_roughness", FloatDT, DoubleValue(0.1));
    DefineStep(scene.accepts, material, CoatProperties(), 3, start, scene.log);
    DefineProperty(scene, material, "CoatColor", "coat_color", Double3DT, Double3Value(1.0, 1.0, 1.0));
    DefineStep(scene.accepts, material, CoatProperties(), 4, start, scene.log);
    DefineProperty(scene, material, "CoatIOR", "coat_IOR", FloatDT, DoubleValue(1.5));
    DefineStep(scene.accepts, material, CoatProperties(), 5, start, scene.log);
    DefineProperty(scene, material, "CoatAffectRoughness", "coat_affect_roughness", FloatDT, DoubleValue(0.0));
    DefineStep(scene.accepts, material, CoatProperties(), 6, start, scene.log);
    DefineProperty(scene, material, "CoatRotation", "coat_rotation", FloatDT, DoubleValue(0.0));
    DefineStep(scene.accepts, material, CoatProperties(), 7, start, scene.log);
    DefineProperty(scene, material, "CoatAnisotropy", "coat_anisotropy", FloatDT, DoubleValue(0.0));
    DefineStep(scene.accepts, material, CoatProperties(), 8, start, scene.log);
    TakeAll(CoatProperties());
  }

  /** The define_property calls for the thin-walled and thin-film parameters. */
  method DefineThinFilmProperties(scene: Scene, material: Handle)
    modifies scene
    ensures scene.created == old(scene.created)
    ensures scene.log == old(scene.log) + DefineEvents(scene.accepts, material, ThinFilmProperties())
  {
    ghost var start := scene.log;
    assert ThinFilmProperties()[..0] == [];
    DefineProperty(scene, material, "ThinWalled", "thin_walled", BoolDT, BoolValue(false));
    DefineStep(scene.accepts, material, ThinFilmProperties(), 0, start, scene.log);
    DefineProperty(scene, material, "ThinFilmIOR", "thin_film_IOR", FloatDT, DoubleValue(1.5));
    DefineStep(scene.accepts, material, ThinFilmProperties(), 1, start, scene.log);
    DefineProperty(scene, material, "ThinFilmThickness", "thin_film_thickness", FloatDT, DoubleValue(0.0));
    DefineStep(scene.accepts, material, ThinFilmProperties(), 2, start, scene.log);
    TakeAll(ThinFilmProperties());
  }

  /** The define_property calls for the subsurface lobe. */
  method DefineSubsurfaceProperties(scene: Scene, material: Handle)
    modifies scene
    ensures scene.created == old(scene.created)
    ensures scene.log == old(scene.log) + DefineEvents(scene.accepts, material, SubsurfaceProperties())
  {
    ghost var start := scene.log;
    assert SubsurfaceProperties()[..0] == [];
    DefineProperty(scene, material, "Subsurface", "subsurface", FloatDT, DoubleValue(0.0));
    DefineStep(scene.accepts, material, SubsurfaceProperties(), 0, start, scene.log);
    DefineProperty(scene, material, "SubsurfaceScale", "subsurface_scale", FloatDT, DoubleValue(1.0));
    DefineStep(scene.accepts, material, SubsurfaceProperties(), 1, start, scene.log);
    DefineProperty(scene, material, "SubsurfaceAnisotropy", "subsurface_anisotropy", FloatDT, DoubleValue(0.0));
    DefineStep(scene.accepts, material, SubsurfaceProperties(), 2, start, scene.log);
    DefineProperty(scene, material, "SubsurfaceRadius", "subsurface_radius", Double3DT, Double3Value(1.0, 1.0, 1.0));
    DefineStep(scene.accepts, material, SubsurfaceProperties(), 3, start, scene.log);
    DefineProperty(scene, material, "SubsurfaceColor", "subsurface_color", Double3DT, Double3Value(1.0, 1.0, 1.0));
    DefineStep(scene.accepts, material, SubsurfaceProperties(), 4, start, scene.log);
    TakeAll(SubsurfaceProperties());
  }

  /** The define_property calls for metalness, opacity and diffuse roughness. */
  method DefineSurfaceProperties(scene: Scene, material: Handle)
    modifies scene
    ensures scene.created == old(scene.created)
    ensures scene.log == old(scene.log) + DefineEvents(scene.accepts, material, SurfaceProperties())
  {
    ghost var start := scene.log;
    assert SurfaceProperties()[..0] == [];
    DefineProperty(scene, material, "Metalness", "metalness", FloatDT, DoubleValue(0.0));
    DefineStep(scene.accepts, material, SurfaceProperties(), 0, start, scene.log);
    DefineProperty(scene, material, "Opacity", "opacity", Double3DT, Double3Value(1.0, 1.0, 1.0));
    DefineStep(scene.accepts, material, SurfaceProperties(), 1, start, scene.log);
    DefineProperty(scene, material, "DiffuseRoughness", "diffuse_roughness", FloatDT, DoubleValue(0.0));
    DefineStep(scene.accepts, material, SurfaceProperties(), 2, start, scene.log);
    TakeAll(SurfaceProperties());
  }
}
