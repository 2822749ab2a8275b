/**
  URDF <material> handling: the compatibility rules that decide whether a
  material may be redefined under a name already in the material map, the
  insertion of a new material (with transparent black as the default colour),
  and the parse of a <material> element.

  The material map is a caller-owned dictionary that these operations update
  in place; it is the class MaterialMap.
 */
module UrdfMaterials {
  import opened UrdfResult
  import opened UrdfXml

  datatype Rgba = Rgba(r: real, g: real, b: real, a: real)

  datatype UrdfMaterial = UrdfMaterial(rgba: Option<Rgba>, diffuseMap: Option<string>)

  /** The colour stored for a new material that defines none. */
  const TransparentBlack := Rgba(0.0, 0.0, 0.0, 0.0)

  /** The square of the tolerance 1e-10 on the Euclidean distance of two colours. */
  const ColorToleranceSquared: real := 0.00000000000000000001

  function SquaredDistance(x: Rgba, y: Rgba): real {
    (x.r - y.r) * (x.r - y.r) + (x.g - y.g) * (x.g - y.g) +
    (x.b - y.b) * (x.b - y.b) + (x.a - y.a) * (x.a - y.a)
  }

  /** Two colours match when their distance is at most 1e-10. */
  predicate Close(x: Rgba, y: Rgba) {
    SquaredDistance(x, y) <= ColorToleranceSquared
  }

  lemma CloseIsReflexiveAndSymmetric(x: Rgba, y: Rgba)
    ensures Close(x, x)
    ensures Close(x, y) == Close(y, x)
  {
    assert SquaredDistance(x, y) == SquaredDistance(y, x) by {
      assert (x.r - y.r) * (x.r - y.r) == (y.r - x.r) * (y.r - x.r);
      assert (x.g - y.g) * (x.g - y.g) == (y.g - x.g) * (y.g - x.g);
      assert (x.b - y.b) * (x.b - y.b) == (y.b - x.b) * (y.b - x.b);
      assert (x.a - y.a) * (x.a - y.a) == (y.a - x.a) * (y.a - x.a);
    }
  }

  /** Whether redefining a diffuse map conflicts with the cached one: the
      optional values differ, except that leaving the map out is compatible
      with a cached map. */
  predicate DiffuseMapConflict(cached: Option<string>, input: Option<string>)
    ensures cached.None? && input.None? ==> !DiffuseMapConflict(cached, input)
    ensures cached.None? && input.Some? ==> DiffuseMapConflict(cached, input)
    ensures cached.Some? && input.None? ==> !DiffuseMapConflict(cached, input)
    ensures cached.Some? && input.Some? ==>
              (DiffuseMapConflict(cached, input) <==> cached.value != input.value)
  {
    cached != input && !(cached.Some? && input.None?)
  }

  /** Whether redefining a colour conflicts with the cached one: two colours
      conflict unless they are close, a new colour conflicts with no cached
      colour, and leaving the colour out never conflicts. */
  predicate RgbaConflict(cached: Option<Rgba>, input: Option<Rgba>)
    ensures cached.None? && input.None? ==> !RgbaConflict(cached, input)
    ensures cached.None? && input.Some? ==> RgbaConflict(cached, input)
    ensures input.None? ==> !RgbaConflict(cached, input)
    ensures cached.Some? && input.Some? ==>
              (RgbaConflict(cached, input) <==> !Close(cached.value, input.value))
  {
    if cached.Some? && input.Some? then !Close(cached.value, input.value)
    else cached.None? && input.Some?
  }

  /** A redefinition with the same values as the cached material never conflicts. */
  lemma SameDefinitionNeverConflicts(m: UrdfMaterial)
    ensures !DiffuseMapConflict(m.diffuseMap, m.diffuseMap)
    ensures !RgbaConflict(m.rgba, m.rgba)
  {
    if m.rgba.Some? {
      CloseIsReflexiveAndSymmetric(m.rgba.value, m.rgba.value);
    }
  }

  /** The material stored for a new name: its colour defaults to transparent black. */
  function WithDefaultColor(material: UrdfMaterial): (stored: UrdfMaterial)
    ensures stored.rgba.Some? && stored.diffuseMap == material.diffuseMap
    ensures material.rgba.Some? ==> stored == material
    ensures material.rgba.None? ==> stored.rgba == Some(TransparentBlack)
  {
    if material.rgba.None? then material.(rgba := Some(TransparentBlack)) else material
  }

  /** What a map operation returns together with the map it leaves behind. */
  datatype MaterialUpdate = MaterialUpdate(result: Result<UrdfMaterial>, materials: map<string, UrdfMaterial>)

  /** AddMaterialToMaterialMap on values. */
  function AddMaterial(materials: map<string, UrdfMaterial>, name: string, material: UrdfMaterial,
                       errorIfNameClash: bool): (u: MaterialUpdate)
    // a new name is inserted, with transparent black if it has no colour, and nothing else changes
    ensures name !in materials ==>
              u.result == Ok(WithDefaultColor(material)) &&
              u.materials == materials[name := WithDefaultColor(material)]
    // an existing name never changes the map
    ensures name in materials ==> u.materials == materials
    ensures name in materials && errorIfNameClash ==> u.result == Err(MaterialRedefinition)
    ensures name in materials && !errorIfNameClash ==>
              (u.result.Err? <==>
                 DiffuseMapConflict(materials[name].diffuseMap, material.diffuseMap) ||
                 RgbaConflict(materials[name].rgba, material.rgba))
    // on success the cached entry, not the input, is returned
    ensures u.result.Ok? ==> name in u.materials && u.result.value == u.materials[name]
    ensures u.result.Err? ==> u.result.error == MaterialRedefinition
  {
    if name in materials then
      var cached := materials[name];
      if errorIfNameClash || DiffuseMapConflict(cached.diffuseMap, material.diffuseMap) ||
         RgbaConflict(cached.rgba, material.rgba)
      then MaterialUpdate(Err(MaterialRedefinition), materials)
      else MaterialUpdate(Ok(cached), materials)
    else
      MaterialUpdate(Ok(WithDefaultColor(material)), materials[name := WithDefaultColor(material)])
  }

  /** Re-adding a material under its own name is accepted when clashes are not
      errors, and returns what is stored. */
  lemma ReAddIsAccepted(materials: map<string, UrdfMaterial>, name: string)
    requires name in materials
    ensures AddMaterial(materials, name, materials[name], false) ==
              MaterialUpdate(Ok(materials[name]), materials)
  {
    SameDefinitionNeverConflicts(materials[name]);
  }

  /** Adding a material twice under the same name leaves what the first call stored. */
  lemma AddTwiceKeepsFirst(materials: map<string, UrdfMaterial>, name: string, material: UrdfMaterial)
    requires name !in materials
    ensures var once := AddMaterial(materials, name, material, false).materials;
            AddMaterial(once, name, material, false) == MaterialUpdate(Ok(once[name]), once)
  {
    var once := AddMaterial(materials, name, material, false).materials;
    var stored := WithDefaultColor(material);
    assert once[name] == stored;
    if material.rgba.Some? {
      CloseIsReflexiveAndSymmetric(material.rgba.value, material.rgba.value);
    }
  }

  // ---------------------------------------------------------------------------
  // <material> elements

  /** The `name` attribute of a material, empty when absent. */
  function MaterialName(node: Element): string {
    var name := StringAttribute(node, "name");
    if name.Some? then name.value else ""
  }

  /** The texture path: the resolved `filename` of the first <texture> child,
      when that attribute is present and non-empty. */
  function TexturePath(node: Element, table: UriTable): (r: Result<Option<string>>)
    ensures r.Ok? && r.value.Some? ==> r.value.value != ""
    ensures !HasChild(node, "texture") ==> r == Ok(None)
    ensures HasChild(node, "texture") ==>
              var filename := StringAttribute(FirstChild(node, "texture").value, "filename");
              // an absent or empty filename names no texture
              (filename.None? || filename.value == "" ==> r == Ok(None)) &&
              // a given one must resolve, and the texture is the resolved file
              (filename.Some? && filename.value != "" ==>
                 (r.Ok? <==> ResolveUri(filename.value, table).Ok?) &&
                 (r.Ok? ==> r == Ok(Some(ResolveUri(filename.value, table).value))) &&
                 (r.Err? ==> r == Err(UnresolvedUri(filename.value))))
  {
    var texture := FirstChild(node, "texture");
    if texture.None? then Ok(None)
    else
      var filename := StringAttribute(texture.value, "filename");
      if filename.None? || filename.value == "" then Ok(None)
      else
        match ResolveUri(filename.value, table)
        case Err(error) => Err(error)
        case Ok(path) => Ok(Some(path))
  }

  /** The colour: the `rgba` of the first <color> child, which must be present
      when the child is. */
  function Color(node: Element): (r: Result<Option<Rgba>>)
    ensures !HasChild(node, "color") ==> r == Ok(None)
    ensures HasChild(node, "color") ==> r.Err? || r.value.Some?
    ensures HasChild(node, "color") ==>
              var color := FirstChild(node, "color").value;
              // success exactly when rgba reads as four numbers, which are the colour
              (r.Ok? <==> ReadsAs(color, "rgba", 4)) &&
              (r.Ok? ==> color.attributes["rgba"].numbers ==
                           Some([r.value.value.r, r.value.value.g, r.value.value.b, r.value.value.a])) &&
              ("rgba" !in color.attributes ==> r == Err(ColorWithoutRgba)) &&
              ("rgba" in color.attributes && !ReadsAs(color, "rgba", 4) ==> r == Err(MalformedAttribute("rgba")))
  {
    var color := FirstChild(node, "color");
    if color.None? then Ok(None)
    else
      match VectorAttribute(color.value, "rgba", 4)
      case Err(error) => Err(error)
      case Ok(None) => Err(ColorWithoutRgba)
      case Ok(Some(v)) =>
        assert v == [v[0], v[1], v[2], v[3]];
        Ok(Some(Rgba(v[0], v[1], v[2], v[3])))
  }

  /** ParseMaterial on values. */
  function MaterialOf(node: Element, nameRequired: bool, table: UriTable,
                      materials: map<string, UrdfMaterial>): (u: MaterialUpdate)
    ensures node.name != "material" ==> u == MaterialUpdate(Err(NotMaterialElement), materials)
    ensures node.name == "material" && nameRequired && MaterialName(node) == "" ==>
              u == MaterialUpdate(Err(MaterialNameMissing), materials)
    ensures node.name == "material" && !(nameRequired && MaterialName(node) == "") &&
            TexturePath(node, table) == Ok(None) && Color(node) == Ok(None) &&
            MaterialName(node) != "" && MaterialName(node) !in materials ==>
              u == MaterialUpdate(Err(MaterialWithoutProperties), materials)
    // the texture is read before the colour, and each failure is reported as it is
    ensures node.name == "material" && !(nameRequired && MaterialName(node) == "") &&
            TexturePath(node, table).Err? ==>
              u == MaterialUpdate(Err(TexturePath(node, table).error), materials)
    ensures node.name == "material" && !(nameRequired && MaterialName(node) == "") &&
            TexturePath(node, table).Ok? && Color(node).Err? ==>
              u == MaterialUpdate(Err(Color(node).error), materials)
    // with a name required, redefining a known name is an error, whatever the definition
    ensures node.name == "material" && nameRequired && MaterialName(node) != "" &&
            MaterialName(node) in materials && TexturePath(node, table).Ok? && Color(node).Ok? ==>
              u == MaterialUpdate(Err(MaterialRedefinition), materials)
    // a material is accepted exactly when it is a <material> with its required name, its
    // texture and colour read, it is not an unknown name without properties, and a named
    // one is accepted by the material map
    ensures u.result.Ok? <==>
              node.name == "material" && !(nameRequired && MaterialName(node) == "") &&
              TexturePath(node, table).Ok? && Color(node).Ok? &&
              !(Color(node).value.None? && TexturePath(node, table).value.None? &&
                MaterialName(node) != "" && MaterialName(node) !in materials) &&
              (MaterialName(node) != "" ==>
                 AddMaterial(materials, MaterialName(node),
                             UrdfMaterial(Color(node).value, TexturePath(node, table).value), nameRequired).result.Ok?)
    // a named material that passes the element checks goes through the material map
    ensures node.name == "material" && MaterialName(node) != "" &&
            TexturePath(node, table).Ok? && Color(node).Ok? &&
            !(Color(node).value.None? && TexturePath(node, table).value.None? && MaterialName(node) !in materials) ==>
              u == AddMaterial(materials, MaterialName(node),
                               UrdfMaterial(Color(node).value, TexturePath(node, table).value), nameRequired)
    // only the material's own name can be added, and no existing entry ever changes
    ensures u.materials.Keys <= materials.Keys + {MaterialName(node)}
    ensures forall k :: k in materials ==> k in u.materials && u.materials[k] == materials[k]
    ensures u.result.Err? ==> u.materials == materials
    ensures u.result.Ok? ==> node.name == "material" && TexturePath(node, table).Ok? && Color(node).Ok?
    // an unnamed material is returned as written and is not stored
    ensures u.result.Ok? && MaterialName(node) == "" ==>
              u.materials == materials &&
              u.result.value == UrdfMaterial(Color(node).value, TexturePath(node, table).value)
    // a named material is the one the map holds afterwards
    ensures u.result.Ok? && MaterialName(node) != "" ==>
              MaterialName(node) in u.materials && u.result.value == u.materials[MaterialName(node)]
  {
    if node.name != "material" then MaterialUpdate(Err(NotMaterialElement), materials)
    else
      var name := MaterialName(node);
      if name == "" && nameRequired then MaterialUpdate(Err(MaterialNameMissing), materials)
      else
        match TexturePath(node, table)
        case Err(error) => MaterialUpdate(Err(error), materials)
        case Ok(texturePath) =>
          match Color(node)
          case Err(error) => MaterialUpdate(Err(error), materials)
          case Ok(rgba) =>
            if rgba.None? && texturePath.None? && name != "" && name !in materials then
              MaterialUpdate(Err(MaterialWithoutProperties), materials)
            else
              var material := UrdfMaterial(rgba, texturePath);
              if name != "" then AddMaterial(materials, name, material, nameRequired)
              else MaterialUpdate(Ok(material), materials)
  }

  /** A material with no colour and no texture is only accepted as a
      reference to a material defined earlier, and then returns that one. */
  lemma ReferenceToDefinedMaterial(node: Element, table: UriTable, materials: map<string, UrdfMaterial>)
    requires node.name == "material" && MaterialName(node) != ""
    requires TexturePath(node, table) == Ok(None) && Color(node) == Ok(None)
    ensures var u := MaterialOf(node, false, table, materials);
            u.result.Ok? <==> MaterialName(node) in materials
    ensures var u := MaterialOf(node, false, table, materials);
            u.result.Ok? ==> u == MaterialUpdate(Ok(materials[MaterialName(node)]), materials)
  {
    var name := MaterialName(node);
    if name in materials {
      var cached := materials[name];
      assert !DiffuseMapConflict(cached.diffuseMap, None);
      assert !RgbaConflict(cached.rgba, None);
    }
  }

  // ---------------------------------------------------------------------------
  // The material map, updated in place

  class MaterialMap {
    var entries: map<string, UrdfMaterial>

    constructor ()
      ensures entries == map[]
    {
      entries := map[];
    }
  }

  /** Looks `name` up and either checks the new definition against the cached
      one or stores the new one. */
  method AddMaterialToMaterialMap(name: string, material: UrdfMaterial, errorIfNameClash: bool,
                                  materials: MaterialMap)
    returns (r: Result<UrdfMaterial>)
    modifies materials
    ensures r == AddMaterial(old(materials.entries), name, material, errorIfNameClash).result
    ensures materials.entries == AddMaterial(old(materials.entries), name, material, errorIfNameClash).materials
  {
    if name in materials.entries {
      var cached := materials.entries[name];
      var error := errorIfNameClash;
      if !error {
        error := DiffuseMapConflict(cached.diffuseMap, material.diffuseMap);
      }
      if !error {
        error := RgbaConflict(cached.rgba, material.rgba);
      }
      if error {
        return Err(MaterialRedefinition);
      }
    } else {
      var stored := material;
      if stored.rgba.None? {
        stored := stored.(rgba := Some(TransparentBlack));
      }
      materials.entries := materials.entries[name := stored];
    }
    r := Ok(materials.entries[name]);
  }

  /** Parses a <material> element, adding a named material to the map. */
  method ParseMaterial(node: Element, nameRequired: bool, table: UriTable, materials: MaterialMap)
    returns (r: Result<UrdfMaterial>)
    modifies materials
    ensures r == MaterialOf(node, nameRequired, table, old(materials.entries)).result
    ensures materials.entries == MaterialOf(node, nameRequired, table, old(materials.entries)).materials
  {
    if node.name != "material" {
      return Err(NotMaterialElement);
    }
    var name := MaterialName(node);
    if name == "" && nameRequired {
      return Err(MaterialNameMissing);
    }
    var texturePath := TexturePath(node, table);
    if texturePath.Err? {
      return Err(texturePath.error);
    }
    var rgba := Color(node);
    if rgba.Err? {
      return Err(rgba.error);
    }
    if rgba.value.None? && texturePath.value.None? {
      if name != "" && name !in materials.entries {
        return Err(MaterialWithoutProperties);
      }
    }
    r := Ok(UrdfMaterial(rgba.value, texturePath.value));
    if name != "" {
      r := AddMaterialToMaterialMap(name, r.value, nameRequired, materials);
    }
  }
}
