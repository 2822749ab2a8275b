/**
  URDF <visual> and <collision> elements: the checks on the element itself,
  the shape of its <geometry>, its material or proximity properties, and the
  name under which the geometry is registered in the link's set of geometry
  names, which both parsers update in place.

  The pose given by <origin> is not part of this model.
 */
module UrdfGeometryElements {
  import opened UrdfResult
  import opened UrdfXml
  import opened UrdfMaterials
  import opened UrdfShapes

  /** The names of the geometries of the enclosing link, owned by the caller. */
  class GeometryNames {
    var names: set<string>

    constructor ()
      ensures names == {}
    {
      names := {};
    }
  }

  /** The name a geometry is registered under: its own `name` attribute when it
      has one (even an empty one), else a default name not yet in `names`. */
  function GeometryName(node: Element, shape: Shape, names: set<string>): (r: Result<string>)
    ensures StringAttribute(node, "name").Some? ==> r == Ok(StringAttribute(node, "name").value)
    ensures StringAttribute(node, "name").None? ==> r == DefaultGeometryName(shape, names)
    ensures StringAttribute(node, "name").None? && r.Ok? ==> r.value !in names
  {
    var attribute := StringAttribute(node, "name");
    if attribute.Some? then Ok(attribute.value) else DefaultGeometryName(shape, names)
  }

  /** Registers the geometry under its own `name` attribute or, without one,
      under a default name; nothing is registered when no default name is left. */
  method RegisterGeometryName(node: Element, shape: Shape, geometryNames: GeometryNames)
    returns (r: Result<string>)
    modifies geometryNames
    ensures r == GeometryName(node, shape, old(geometryNames.names))
    ensures geometryNames.names == if r.Ok? then old(geometryNames.names) + {r.value}
                                   else old(geometryNames.names)
  {
    var nameAttribute := StringAttribute(node, "name");
    if nameAttribute.Some? {
      r := Ok(nameAttribute.value);
    } else {
      r := MakeDefaultGeometryName(shape, geometryNames.names);
      if r.Err? {
        return;
      }
    }
    geometryNames.names := geometryNames.names + {r.value};
  }

  // ---------------------------------------------------------------------------
  // <visual>

  const AcceptingTag := "drake:accepting_renderer"

  /** Whether every accepting-renderer element among the first k children has a name. */
  predicate AcceptingNamedUpTo(children: seq<Element>, k: nat) {
    forall i :: 0 <= i < k && i < |children| && children[i].name == AcceptingTag ==>
      "name" in children[i].attributes
  }

  /** The names of the accepting-renderer elements among the first k children. */
  function AcceptingNamesUpTo(children: seq<Element>, k: nat): set<string> {
    set i | 0 <= i < k && i < |children| && children[i].name == AcceptingTag &&
            "name" in children[i].attributes :: children[i].attributes["name"].text
  }

  /** The renderers a visual accepts: None without any accepting-renderer
      element, otherwise the non-empty set of their names, each of which must
      be given. */
  function AcceptingRenderers(node: Element): (r: Result<Option<set<string>>>)
    ensures !HasChild(node, AcceptingTag) ==> r == Ok(None)
    ensures r.Ok? && r.value.Some? ==> r.value.value != {}
    ensures r.Err? <==> !AcceptingNamedUpTo(node.children, |node.children|)
    ensures r.Err? ==> r.error == AcceptingRendererWithoutName
    // otherwise the result is the set of the names of the accepting-renderer elements
    ensures r.Ok? && HasChild(node, AcceptingTag) ==>
              r.value.Some? &&
              forall x :: x in r.value.value <==>
                exists i :: 0 <= i < |node.children| && node.children[i].name == AcceptingTag &&
                            "name" in node.children[i].attributes && node.children[i].attributes["name"].text == x
  {
    var children := node.children;
    if !HasChild(node, AcceptingTag) then Ok(None)
    else if !AcceptingNamedUpTo(children, |children|) then Err(AcceptingRendererWithoutName)
    else
      var k :| 0 <= k < |children| && children[k].name == AcceptingTag;
      assert children[k].attributes["name"].text in AcceptingNamesUpTo(children, |children|);
      Ok(Some(AcceptingNamesUpTo(children, |children|)))
  }

  /** Moving from accepting-renderer element k to the next one adds exactly k's name. */
  lemma AcceptingNamesStep(children: seq<Element>, k: nat, next: nat)
    requires k < next <= |children|
    requires children[k].name == AcceptingTag && "name" in children[k].attributes
    requires forall i :: k < i < next ==> children[i].name != AcceptingTag
    requires AcceptingNamedUpTo(children, k)
    ensures AcceptingNamedUpTo(children, next)
    ensures AcceptingNamesUpTo(children, next) ==
              AcceptingNamesUpTo(children, k) + {children[k].attributes["name"].text}
  {
    var before := AcceptingNamesUpTo(children, k);
    var after := AcceptingNamesUpTo(children, next);
    forall x | x in after ensures x in before + {children[k].attributes["name"].text} {
      var i :| 0 <= i < next && i < |children| && children[i].name == AcceptingTag &&
               "name" in children[i].attributes && x == children[i].attributes["name"].text;
      if i < k {
        assert x in before;
      }
    }
  }

  /** Collects the names of the accepting-renderer elements, walking from
      each to its next sibling of the same name. */
  method ParseAcceptingRenderers(node: Element) returns (r: Result<Option<set<string>>>)
    ensures r == AcceptingRenderers(node)
  {
    var children := node.children;
    var k := FirstIndexOf(children, AcceptingTag, 0);
    if k == |children| {
      return Ok(None);
    }
    var names: set<string> := {};
    while k < |children|
      invariant k <= |children|
      invariant k < |children| ==> children[k].name == AcceptingTag
      invariant AcceptingNamedUpTo(children, k)
      invariant names == AcceptingNamesUpTo(children, k)
      decreases |children| - k
    {
      var name := StringAttribute(children[k], "name");
      if name.None? {
        return Err(AcceptingRendererWithoutName);
      }
      var next := FirstIndexOf(children, AcceptingTag, k + 1);
      AcceptingNamesStep(children, k, next);
      names := names + {name.value};
      k := next;
    }
    r := Ok(Some(names));
  }

  /** Illustration properties: the phong diffuse colour and diffuse map of the
      material, and the renderers that accept the geometry. */
  datatype Illustration = Illustration(
    diffuse: Option<Rgba>,
    diffuseMap: Option<string>,
    acceptingRenderers: Option<set<string>>)

  datatype VisualInstance = VisualInstance(name: string, shape: Shape, illustration: Illustration)

  /** The shape of a visual: the element must be a <visual> with a <geometry>. */
  function VisualShape(node: Element, table: UriTable): Result<Shape> {
    if node.name != "visual" then Err(NotVisualElement)
    else if !HasChild(node, "geometry") then Err(VisualWithoutGeometry)
    else ShapeOf(FirstChild(node, "geometry").value, table)
  }

  /** The material of a visual, parsed against `materials` with no name required. */
  function VisualMaterial(node: Element, table: UriTable, materials: map<string, UrdfMaterial>): MaterialUpdate
    requires HasChild(node, "material")
  {
    MaterialOf(FirstChild(node, "material").value, false, table, materials)
  }

  /** The illustration a visual's material gives, before its accepting
      renderers are read: none without a <material>. */
  function MaterialIllustration(node: Element, table: UriTable, materials: map<string, UrdfMaterial>)
    : Result<Illustration>
  {
    if !HasChild(node, "material") then Ok(Illustration(None, None, None))
    else
      var material :- VisualMaterial(node, table, materials).result;
      Ok(Illustration(material.rgba, material.diffuseMap, None))
  }

  /** ParseVisual on values: the visual parsed against the material map and
      the geometry names it starts from. */
  function VisualOf(node: Element, table: UriTable, materials: map<string, UrdfMaterial>,
                    names: set<string>): (r: Result<VisualInstance>)
    ensures r.Ok? <==>
              VisualShape(node, table).Ok? &&
              (HasChild(node, "material") ==> VisualMaterial(node, table, materials).result.Ok?) &&
              AcceptingRenderers(node).Ok? &&
              GeometryName(node, VisualShape(node, table).value, names).Ok?
    ensures node.name != "visual" ==> r == Err(NotVisualElement)
    ensures node.name == "visual" && !HasChild(node, "geometry") ==> r == Err(VisualWithoutGeometry)
    ensures VisualShape(node, table).Err? ==> r == Err(VisualShape(node, table).error)
    // after the shape: the material, the accepting renderers, the default name, each reported as it is
    ensures VisualShape(node, table).Ok? && HasChild(node, "material") &&
            VisualMaterial(node, table, materials).result.Err? ==>
              r == Err(VisualMaterial(node, table, materials).result.error)
    ensures VisualShape(node, table).Ok? &&
            (HasChild(node, "material") ==> VisualMaterial(node, table, materials).result.Ok?) &&
            AcceptingRenderers(node).Err? ==>
              r == Err(AcceptingRendererWithoutName)
    ensures VisualShape(node, table).Ok? &&
            (HasChild(node, "material") ==> VisualMaterial(node, table, materials).result.Ok?) &&
            AcceptingRenderers(node).Ok? &&
            GeometryName(node, VisualShape(node, table).value, names).Err? ==>
              r == Err(TooManyDefaultNames)
    ensures r.Ok? ==> r.value.shape == VisualShape(node, table).value
    ensures r.Ok? ==> r.value.name == GeometryName(node, r.value.shape, names).value
    ensures r.Ok? && StringAttribute(node, "name").None? ==> r.value.name !in names
    ensures r.Ok? && !HasChild(node, "material") ==>
              r.value.illustration.diffuse.None? && r.value.illustration.diffuseMap.None?
    ensures r.Ok? && HasChild(node, "material") ==>
              var material := VisualMaterial(node, table, materials).result.value;
              r.value.illustration.diffuse == material.rgba &&
              r.value.illustration.diffuseMap == material.diffuseMap
    ensures r.Ok? ==> r.value.illustration.acceptingRenderers == AcceptingRenderers(node).value
  {
    var shape :- VisualShape(node, table);
    var illustration :- MaterialIllustration(node, table, materials);
    var accepting :- AcceptingRenderers(node);
    var name :- GeometryName(node, shape, names);
    Ok(VisualInstance(name, shape, illustration.(acceptingRenderers := accepting)))
  }

  /** Parses a <visual> element. The material map is updated as soon as the
      material is parsed; the geometry name is registered only on success. */
  method ParseVisual(node: Element, table: UriTable, materials: MaterialMap, geometryNames: GeometryNames)
    returns (r: Result<VisualInstance>)
    modifies materials, geometryNames
    ensures r == VisualOf(node, table, old(materials.entries), old(geometryNames.names))
    // the material map changes only through a material parsed after the shape
    ensures materials.entries ==
              if VisualShape(node, table).Ok? && HasChild(node, "material")
              then VisualMaterial(node, table, old(materials.entries)).materials
              else old(materials.entries)
    // the chosen name, and nothing else, is added to the names
    ensures geometryNames.names == if r.Ok? then old(geometryNames.names) + {r.value.name}
                                   else old(geometryNames.names)
  {
    if node.name != "visual" {
      return Err(NotVisualElement);
    }
    var geometryNode := FirstChild(node, "geometry");
    if geometryNode.None? {
      return Err(VisualWithoutGeometry);
    }
    var shape := ParseGeometry(geometryNode.value, table);
    assert shape == VisualShape(node, table);
    if shape.Err? {
      return Err(shape.error);
    }

    var illustration := Illustration(None, None, None);
    var materialNode := FirstChild(node, "material");
    if materialNode.Some? {
      var material := ParseMaterial(materialNode.value, false, table, materials);
      if material.Err? {
        return Err(material.error);
      }
      illustration := illustration.(diffuse := material.value.rgba, diffuseMap := material.value.diffuseMap);
    }

    var accepting := ParseAcceptingRenderers(node);
    if accepting.Err? {
      return Err(accepting.error);
    }
    illustration := illustration.(acceptingRenderers := accepting.value);

    var geometryName := RegisterGeometryName(node, shape.value, geometryNames);
    if geometryName.Err? {
      return Err(geometryName.error);
    }
    r := Ok(VisualInstance(geometryName.value, shape.value, illustration));
  }

  // ---------------------------------------------------------------------------
  // <collision>

  /** A Coulomb friction: the default one, or static and dynamic coefficients. */
  datatype Friction = DefaultFriction | Coulomb(staticFriction: real, dynamicFriction: real)

  /** The numeric text of the `tag` child of a <drake_compliance> element. */
  function FrictionCoefficient(compliance: Element, tag: string): (r: Result<Option<real>>)
    ensures r == Ok(None) <==> !HasChild(compliance, tag)
    ensures r.Ok? && r.value.Some? ==> TextAsReal(FirstChild(compliance, tag).value) == r.value
    ensures r.Err? <==> HasChild(compliance, tag) && TextAsReal(FirstChild(compliance, tag).value).None?
    ensures r.Err? ==> r.error == UnparsableFriction(tag)
  {
    var child := FirstChild(compliance, tag);
    if child.None? then Ok(None)
    else
      var x := TextAsReal(child.value);
      if x.None? then Err(UnparsableFriction(tag)) else Ok(x)
  }

  /** The legacy <drake_compliance> friction: both coefficients or neither. */
  function ParseCoulombFrictionFromDrakeCompliance(node: Element): (r: Result<Friction>)
    ensures !HasChild(node, "drake_compliance") ==> r == Ok(DefaultFriction)
    ensures HasChild(node, "drake_compliance") ==>
              var compliance := FirstChild(node, "drake_compliance").value;
              var hasStatic := HasChild(compliance, "static_friction");
              var hasDynamic := HasChild(compliance, "dynamic_friction");
              var staticReading := FrictionCoefficient(compliance, "static_friction");
              var dynamicReading := FrictionCoefficient(compliance, "dynamic_friction");
              // the static coefficient is read first, then the dynamic one
              (staticReading.Err? ==> r == Err(UnparsableFriction("static_friction"))) &&
              (staticReading.Ok? && dynamicReading.Err? ==> r == Err(UnparsableFriction("dynamic_friction"))) &&
              // both readable but exactly one present: both must be defined
              (staticReading.Ok? && dynamicReading.Ok? && hasStatic != hasDynamic ==> r == Err(IncompleteFriction)) &&
              // exactly one coefficient is always an error
              (hasStatic != hasDynamic ==> r.Err?) &&
              (r == Err(IncompleteFriction) ==> hasStatic != hasDynamic) &&
              // neither falls back to the default
              (!hasStatic && !hasDynamic ==> r == Ok(DefaultFriction)) &&
              // both, when readable, give the coefficients
              (hasStatic && hasDynamic ==>
                 (r.Ok? <==> FrictionCoefficient(compliance, "static_friction").Ok? &&
                             FrictionCoefficient(compliance, "dynamic_friction").Ok?)) &&
              (hasStatic && hasDynamic && r.Ok? ==>
                 r.value == Coulomb(FrictionCoefficient(compliance, "static_friction").value.value,
                                    FrictionCoefficient(compliance, "dynamic_friction").value.value))
  {
    var compliance := FirstChild(node, "drake_compliance");
    if compliance.None? then Ok(DefaultFriction)
    else
      var staticFriction :- FrictionCoefficient(compliance.value, "static_friction");
      var dynamicFriction :- FrictionCoefficient(compliance.value, "dynamic_friction");
      if staticFriction.Some? != dynamicFriction.Some? then Err(IncompleteFriction)
      else if staticFriction.Some? then Ok(Coulomb(staticFriction.value, dynamicFriction.value))
      else Ok(DefaultFriction)
  }

  /** The hydroelastic compliance declared in <drake:proximity_properties>. */
  datatype Hydroelastic = Hydroelastic(rigid: bool, compliant: bool)

  const SoftTag := "drake:soft_hydroelastic"
  const RigidTag := "drake:rigid_hydroelastic"
  const CompliantTag := "drake:compliant_hydroelastic"

  /** The retired soft tag is rejected, and rigid and compliant exclude each other. */
  function HydroelasticTags(properties: Element): (r: Result<Hydroelastic>)
    ensures HasChild(properties, SoftTag) ==> r == Err(SoftHydroelasticUnsupported)
    ensures !HasChild(properties, SoftTag) && HasChild(properties, RigidTag) && HasChild(properties, CompliantTag) ==>
              r == Err(ConflictingHydroelastic)
    ensures r.Ok? <==>
              !HasChild(properties, SoftTag) && !(HasChild(properties, RigidTag) && HasChild(properties, CompliantTag))
    ensures r.Ok? ==> !(r.value.rigid && r.value.compliant) &&
                      r.value.rigid == HasChild(properties, RigidTag) &&
                      r.value.compliant == HasChild(properties, CompliantTag)
  {
    var rigid := HasChild(properties, RigidTag);
    var compliant := HasChild(properties, CompliantTag);
    if HasChild(properties, SoftTag) then Err(SoftHydroelasticUnsupported)
    else if rigid && compliant then Err(ConflictingHydroelastic)
    else Ok(Hydroelastic(rigid, compliant))
  }

  datatype Proximity = Proximity(hydroelastic: Hydroelastic, friction: Friction)

  datatype CollisionInstance = CollisionInstance(name: string, shape: Shape, proximity: Proximity)

  const ProximityTag := "drake:proximity_properties"

  /** The shape of a collision: the element must be a <collision> with a <geometry>. */
  function CollisionShape(node: Element, table: UriTable): Result<Shape> {
    if node.name != "collision" then Err(NotCollisionElement)
    else if !HasChild(node, "geometry") then Err(CollisionWithoutGeometry)
    else ShapeOf(FirstChild(node, "geometry").value, table)
  }

  /** The hydroelastic tags of the collision: none without proximity properties. */
  function CollisionHydroelastic(node: Element): Result<Hydroelastic> {
    var properties := FirstChild(node, ProximityTag);
    if properties.None? then Ok(Hydroelastic(false, false)) else HydroelasticTags(properties.value)
  }

  /** The friction of the collision: the one set by the proximity properties
      when they set one, otherwise the legacy <drake_compliance> friction. */
  function CollisionFriction(node: Element, proximityFriction: Option<Friction>): Result<Friction> {
    if HasChild(node, ProximityTag) && proximityFriction.Some? then Ok(proximityFriction.value)
    else ParseCoulombFrictionFromDrakeCompliance(node)
  }

  /** The proximity properties of a collision: its hydroelastic tags, then its friction. */
  function ProximityOf(node: Element, proximityFriction: Option<Friction>): (p: Result<Proximity>)
    ensures p.Ok? <==> CollisionHydroelastic(node).Ok? && CollisionFriction(node, proximityFriction).Ok?
    ensures CollisionHydroelastic(node).Err? ==> p == Err(CollisionHydroelastic(node).error)
    ensures CollisionHydroelastic(node).Ok? && CollisionFriction(node, proximityFriction).Err? ==>
              p == Err(CollisionFriction(node, proximityFriction).error)
    ensures p.Ok? ==> p.value == Proximity(CollisionHydroelastic(node).value,
                                           CollisionFriction(node, proximityFriction).value)
  {
    var hydroelastic :- CollisionHydroelastic(node);
    var friction :- CollisionFriction(node, proximityFriction);
    Ok(Proximity(hydroelastic, friction))
  }

  /** Reads the hydroelastic tags of <drake:proximity_properties>, then takes
      the friction it sets or, failing that, the legacy <drake_compliance> one. */
  method CollisionProximity(node: Element, proximityFriction: Option<Friction>) returns (p: Result<Proximity>)
    ensures p == ProximityOf(node, proximityFriction)
  {
    var hydroelastic := Hydroelastic(false, false);
    var friction: Option<Friction> := None;
    var properties := FirstChild(node, ProximityTag);
    if properties.Some? {
      var tags := HydroelasticTags(properties.value);
      if tags.Err? {
        return Err(tags.error);
      }
      hydroelastic := tags.value;
      friction := proximityFriction;
    }
    assert CollisionHydroelastic(node) == Ok(hydroelastic);

    if friction.None? {
      var legacy := ParseCoulombFrictionFromDrakeCompliance(node);
      if legacy.Err? {
        return Err(legacy.error);
      }
      friction := Some(legacy.value);
    }
    p := Ok(Proximity(hydroelastic, friction.value));
  }

  /** ParseCollision on values: the shape, then the hydroelastic tags, then the
      friction, then the name, the first failure being the result.
      `proximityFriction` is the friction that the parse of
      <drake:proximity_properties> (not part of this model) sets, if any; it is
      used only when that element is present. */
  function CollisionOf(node: Element, table: UriTable, proximityFriction: Option<Friction>,
                       names: set<string>): (r: Result<CollisionInstance>)
    ensures r.Ok? <==>
              CollisionShape(node, table).Ok? && CollisionHydroelastic(node).Ok? &&
              CollisionFriction(node, proximityFriction).Ok? &&
              GeometryName(node, CollisionShape(node, table).value, names).Ok?
    ensures node.name != "collision" ==> r == Err(NotCollisionElement)
    ensures node.name == "collision" && !HasChild(node, "geometry") ==> r == Err(CollisionWithoutGeometry)
    ensures CollisionShape(node, table).Err? ==> r == Err(CollisionShape(node, table).error)
    ensures CollisionShape(node, table).Ok? && CollisionHydroelastic(node).Err? ==>
              r == Err(CollisionHydroelastic(node).error)
    // then the friction, then the default name, each reported as it is
    ensures CollisionShape(node, table).Ok? && CollisionHydroelastic(node).Ok? &&
            CollisionFriction(node, proximityFriction).Err? ==>
              r == Err(CollisionFriction(node, proximityFriction).error)
    ensures CollisionShape(node, table).Ok? && CollisionHydroelastic(node).Ok? &&
            CollisionFriction(node, proximityFriction).Ok? &&
            GeometryName(node, CollisionShape(node, table).value, names).Err? ==>
              r == Err(TooManyDefaultNames)
    ensures r.Ok? ==> r.value.shape == CollisionShape(node, table).value
    ensures r.Ok? ==> r.value.name == GeometryName(node, r.value.shape, names).value
    ensures r.Ok? && StringAttribute(node, "name").None? ==> r.value.name !in names
    ensures r.Ok? ==> r.value.proximity == Proximity(CollisionHydroelastic(node).value,
                                                     CollisionFriction(node, proximityFriction).value)

  {
    var shape :- CollisionShape(node, table);
    var proximity :- ProximityOf(node, proximityFriction);
    var name :- GeometryName(node, shape, names);
    Ok(CollisionInstance(name, shape, proximity))
  }

  /** The friction of a collision comes from the proximity properties when
      they set one, and otherwise from <drake_compliance>, whose failure is
      then the collision's; without proximity properties it is not hydroelastic. */
  lemma CollisionFrictionSource(node: Element, table: UriTable, proximityFriction: Option<Friction>,
                                names: set<string>)
    ensures var r := CollisionOf(node, table, proximityFriction, names);
            CollisionShape(node, table).Ok? && CollisionHydroelastic(node).Ok? &&
            !(HasChild(node, ProximityTag) && proximityFriction.Some?) &&
            ParseCoulombFrictionFromDrakeCompliance(node).Err? ==>
              r == Err(ParseCoulombFrictionFromDrakeCompliance(node).error)
    ensures var r := CollisionOf(node, table, proximityFriction, names);
            r.Ok? && HasChild(node, ProximityTag) && proximityFriction.Some? ==>
              r.value.proximity.friction == proximityFriction.value
    ensures var r := CollisionOf(node, table, proximityFriction, names);
            r.Ok? && !(HasChild(node, ProximityTag) && proximityFriction.Some?) ==>
              r.value.proximity.friction == ParseCoulombFrictionFromDrakeCompliance(node).value
    ensures var r := CollisionOf(node, table, proximityFriction, names);
            r.Ok? && !HasChild(node, ProximityTag) ==> r.value.proximity.hydroelastic == Hydroelastic(false, false)
  {
  }

  /** Parses a <collision> element, registering its name in `geometryNames`. */
  method ParseCollision(node: Element, table: UriTable, proximityFriction: Option<Friction>,
                        geometryNames: GeometryNames)
    returns (r: Result<CollisionInstance>)
    modifies geometryNames
    ensures r == CollisionOf(node, table, proximityFriction, old(geometryNames.names))
    // the chosen name, and nothing else, is added to the names
    ensures geometryNames.names == if r.Ok? then old(geometryNames.names) + {r.value.name}
                                   else old(geometryNames.names)
  {
    if node.name != "collision" {
      return Err(NotCollisionElement);
    }
    var geometryNode := FirstChild(node, "geometry");
    if geometryNode.None? {
      return Err(CollisionWithoutGeometry);
    }
    var shape := ParseGeometry(geometryNode.value, table);
    if shape.Err? {
      return Err(shape.error);
    }
    assert shape == CollisionShape(node, table);

    var proximity := CollisionProximity(node, proximityFriction);
    if proximity.Err? {
      return Err(proximity.error);
    }

    var geometryName := RegisterGeometryName(node, shape.value, geometryNames);
    if geometryName.Err? {
      return Err(geometryName.error);
    }
    r := Ok(CollisionInstance(geometryName.value, shape.value, proximity.value));
  }
}
