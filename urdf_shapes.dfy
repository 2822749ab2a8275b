/**
  URDF <geometry> elements: the shape each kind of child element describes,
  the fixed priority in which the children are tried, and the default name
  invented for a geometry that has none.
 */
module UrdfShapes {
  import opened UrdfResult
  import opened UrdfXml

  /** The shapes a <geometry> element can describe. Their physical validation
      (positive sizes and so on) belongs to the shape types and is not part of
      this model. */
  datatype Shape =
    | Box(width: real, depth: real, height: real)
    | Sphere(radius: real)
    | Cylinder(radius: real, length: real)
    | Capsule(radius: real, length: real)
    | Ellipsoid(a: real, b: real, c: real)
    | Mesh(filename: string, scale: real)
    | Convex(filename: string, scale: real)

  /** The name of the shape's type, the base of invented geometry names. */
  function ShapeName(shape: Shape): (name: string)
    ensures name != ""
  {
    match shape
    case Box(_, _, _) => "Box"
    case Sphere(_) => "Sphere"
    case Cylinder(_, _) => "Cylinder"
    case Capsule(_, _) => "Capsule"
    case Ellipsoid(_, _, _) => "Ellipsoid"
    case Mesh(_, _) => "Mesh"
    case Convex(_, _) => "Convex"
  }

  /** A scalar attribute the shape `shape` cannot do without. */
  function RequiredScalar(e: Element, shape: string, name: string): (r: Result<real>)
    ensures name !in e.attributes ==> r == Err(MissingAttribute(shape, name))
    ensures r.Ok? <==> ReadsAs(e, name, 1)
    ensures r.Ok? ==> e.attributes[name].numbers == Some([r.value])
    ensures name in e.attributes && !ReadsAs(e, name, 1) ==> r == Err(MalformedAttribute(name))
    ensures r.Err? ==> r.error == MissingAttribute(shape, name) || r.error == MalformedAttribute(name)
  {
    match ScalarAttribute(e, name)
    case Err(error) => Err(error)
    case Ok(None) => Err(MissingAttribute(shape, name))
    case Ok(Some(x)) => Ok(x)
  }

  // ---------------------------------------------------------------------------
  // One parser per shape element

  function ParseBox(node: Element): (r: Result<Shape>)
    ensures "size" !in node.attributes ==> r == Err(MissingAttribute("box", "size"))
    ensures "size" in node.attributes && !ReadsAs(node, "size", 3) ==> r == Err(MalformedAttribute("size"))
    ensures r.Ok? <==> ReadsAs(node, "size", 3)
    ensures r.Ok? ==> var size := node.attributes["size"].numbers.value;
                      r.value == Box(size[0], size[1], size[2])
    ensures r.Err? ==> r.error.MissingAttribute? || r.error.MalformedAttribute?
  {
    match VectorAttribute(node, "size", 3)
    case Err(error) => Err(error)
    case Ok(None) => Err(MissingAttribute("box", "size"))
    case Ok(Some(size)) => Ok(Box(size[0], size[1], size[2]))
  }

  function ParseSphere(node: Element): (r: Result<Shape>)
    ensures "radius" !in node.attributes ==> r == Err(MissingAttribute("sphere", "radius"))
    ensures "radius" in node.attributes && !ReadsAs(node, "radius", 1) ==> r == Err(MalformedAttribute("radius"))
    ensures r.Ok? <==> ReadsAs(node, "radius", 1)
    ensures r.Ok? ==> r.value.Sphere? && node.attributes["radius"].numbers == Some([r.value.radius])
    ensures r.Err? ==> r.error.MissingAttribute? || r.error.MalformedAttribute?
  {
    var radius :- RequiredScalar(node, "sphere", "radius");
    Ok(Sphere(radius))
  }

  /** A radius followed by a length, as cylinders and capsules have; `shape`
      names the element in the error. */
  function RadiusAndLength(node: Element, shape: string): (r: Result<(real, real)>)
    // the radius is read first: its failure is reported whatever the length is
    ensures "radius" !in node.attributes ==> r == Err(MissingAttribute(shape, "radius"))
    ensures "radius" in node.attributes && !ReadsAs(node, "radius", 1) ==> r == Err(MalformedAttribute("radius"))
    ensures ReadsAs(node, "radius", 1) && "length" in node.attributes && !ReadsAs(node, "length", 1) ==>
              r == Err(MalformedAttribute("length"))
    ensures ReadsAs(node, "radius", 1) && "length" !in node.attributes ==>
              r == Err(MissingAttribute(shape, "length"))
    ensures r.Ok? <==> ReadsAs(node, "radius", 1) && ReadsAs(node, "length", 1)
    ensures r.Ok? ==> node.attributes["radius"].numbers == Some([r.value.0]) &&
                      node.attributes["length"].numbers == Some([r.value.1])
    ensures r.Err? ==> r.error.MissingAttribute? || r.error.MalformedAttribute?
  {
    var radius :- RequiredScalar(node, shape, "radius");
    var length :- RequiredScalar(node, shape, "length");
    Ok((radius, length))
  }

  function ParseCylinder(node: Element): (r: Result<Shape>)
    ensures r.Ok? <==> RadiusAndLength(node, "cylinder").Ok?
    ensures r.Ok? ==> var (radius, length) := RadiusAndLength(node, "cylinder").value;
                      r.value == Cylinder(radius, length)
    ensures r.Err? ==> r.error == RadiusAndLength(node, "cylinder").error
  {
    var (radius, length) :- RadiusAndLength(node, "cylinder");
    Ok(Cylinder(radius, length))
  }

  /** Parses <capsule> and <drake:capsule>, which are read alike. */
  function ParseCapsule(node: Element): (r: Result<Shape>)
    ensures r.Ok? <==> RadiusAndLength(node, "capsule").Ok?
    ensures r.Ok? ==> var (radius, length) := RadiusAndLength(node, "capsule").value;
                      r.value == Capsule(radius, length)
    ensures r.Err? ==> r.error == RadiusAndLength(node, "capsule").error
  {
    var (radius, length) :- RadiusAndLength(node, "capsule");
    Ok(Capsule(radius, length))
  }

  const EllipsoidAxes: seq<string> := ["a", "b", "c"]

  /** The scalar attributes `names` of an ellipsoid, read in order; the first
      one missing or malformed decides the error (AxisFirstError). */
  function AxisReadings(node: Element, names: seq<string>): (r: Result<seq<real>>)
    ensures r.Ok? <==> forall i :: 0 <= i < |names| ==> ReadsAs(node, names[i], 1)
    ensures r.Ok? ==> |r.value| == |names| &&
                      forall i :: 0 <= i < |names| ==> node.attributes[names[i]].numbers == Some([r.value[i]])
    ensures r.Err? ==> r.error.MissingAttribute? || r.error.MalformedAttribute?
    decreases |names|
  {
    if names == [] then Ok([])
    else
      var last := |names| - 1;
      match AxisReadings(node, names[..last])
      case Err(error) => Err(error)
      case Ok(prefix) =>
        match RequiredScalar(node, "ellipsoid", names[last])
        case Err(error) => Err(error)
        case Ok(x) => Ok(prefix + [x])
  }

  /** Once a prefix of the axes fails, reading more axes keeps its error. */
  lemma {:induction false} AxisErrorPersists(node: Element, names: seq<string>, i: nat)
    requires i <= |names|
    requires AxisReadings(node, names[..i]).Err?
    ensures AxisReadings(node, names) == AxisReadings(node, names[..i])
    decreases |names| - i
  {
    if i < |names| {
      var last := |names| - 1;
      assert names[..last][..i] == names[..i];
      AxisErrorPersists(node, names[..last], i);
    } else {
      assert names[..i] == names;
    }
  }

  /** The error is the one of the first axis that does not read as a number. */
  lemma AxisFirstError(node: Element, names: seq<string>, i: nat)
    requires i < |names| && !ReadsAs(node, names[i], 1)
    requires forall j :: 0 <= j < i ==> ReadsAs(node, names[j], 1)
    ensures AxisReadings(node, names) == Err(RequiredScalar(node, "ellipsoid", names[i]).error)
  {
    var prefix := names[..i + 1];
    assert prefix[..i] == names[..i];
    assert AxisReadings(node, names[..i]).Ok?;
    AxisErrorPersists(node, names, i + 1);
  }

  /** ParseEllipsoid on values. */
  function EllipsoidOf(node: Element): (r: Result<Shape>)
    ensures r.Ok? <==> ReadsAs(node, "a", 1) && ReadsAs(node, "b", 1) && ReadsAs(node, "c", 1)
    ensures r.Ok? ==> r.value.Ellipsoid? &&
                      node.attributes["a"].numbers == Some([r.value.a]) &&
                      node.attributes["b"].numbers == Some([r.value.b]) &&
                      node.attributes["c"].numbers == Some([r.value.c])
    ensures r.Err? ==> r.error.MissingAttribute? || r.error.MalformedAttribute?
  {
    var axes :- AxisReadings(node, EllipsoidAxes);
    Ok(Ellipsoid(axes[0], axes[1], axes[2]))
  }

  /** The ellipsoid reports the first of a, b and c that is missing or malformed. */
  lemma EllipsoidFirstError(node: Element, i: nat)
    requires i < |EllipsoidAxes| && !ReadsAs(node, EllipsoidAxes[i], 1)
    requires forall j :: 0 <= j < i ==> ReadsAs(node, EllipsoidAxes[j], 1)
    ensures EllipsoidOf(node) == Err(RequiredScalar(node, "ellipsoid", EllipsoidAxes[i]).error)
  {
    AxisFirstError(node, EllipsoidAxes, i);
  }

  /** Reads the axes a, b and c in turn into a three-element buffer. */
  method ParseEllipsoid(node: Element) returns (r: Result<Shape>)
    ensures r == EllipsoidOf(node)
  {
    var axes := new real[3];
    for i := 0 to 3
      invariant AxisReadings(node, EllipsoidAxes[..i]) == Ok(axes[..i])
    {
      var reading := RequiredScalar(node, "ellipsoid", EllipsoidAxes[i]);
      if reading.Err? {
        assert AxisReadings(node, EllipsoidAxes[..i + 1]) == Err(reading.error) by {
          assert EllipsoidAxes[..i + 1][..i] == EllipsoidAxes[..i];
        }
        AxisErrorPersists(node, EllipsoidAxes, i + 1);
        assert AxisReadings(node, EllipsoidAxes) == Err(reading.error);
        return Err(reading.error);
      }
      axes[i] := reading.value;
      assert EllipsoidAxes[..i + 1][..i] == EllipsoidAxes[..i];
      assert axes[..i + 1] == axes[..i] + [reading.value];
    }
    assert EllipsoidAxes[..3] == EllipsoidAxes;
    assert AxisReadings(node, EllipsoidAxes) == Ok(axes[..3]);
    assert axes[..3][0] == axes[0] && axes[..3][1] == axes[1] && axes[..3][2] == axes[2];
    r := Ok(Ellipsoid(axes[0], axes[1], axes[2]));
  }

  /** The mesh scale: 1 when absent, otherwise three equal factors. */
  function MeshScale(node: Element): (r: Result<real>)
    ensures "scale" !in node.attributes ==> r == Ok(1.0)
    ensures r.Ok? && "scale" in node.attributes ==>
              node.attributes["scale"].numbers == Some([r.value, r.value, r.value])
    ensures r == Err(AnisotropicMeshScale) <==>
              ReadsAs(node, "scale", 3) &&
              var v := node.attributes["scale"].numbers.value; !(v[0] == v[1] == v[2])
    // three equal factors are accepted, as their common value
    ensures ReadsAs(node, "scale", 3) ==>
              var v := node.attributes["scale"].numbers.value;
              (r.Ok? <==> v[0] == v[1] == v[2]) && (r.Ok? ==> r.value == v[0])
    ensures "scale" in node.attributes && !ReadsAs(node, "scale", 3) ==> r == Err(MalformedAttribute("scale"))
    ensures r.Err? ==> r.error == AnisotropicMeshScale || r.error == MalformedAttribute("scale")
  {
    match VectorAttribute(node, "scale", 3)
    case Err(error) => Err(error)
    case Ok(None) => Ok(1.0)
    case Ok(Some(v)) =>
      if v[0] == v[1] && v[0] == v[2] then
        assert v == [v[0], v[0], v[0]];
        Ok(v[0])
      else Err(AnisotropicMeshScale)
  }

  /** Parses <mesh>: the resolved file with an isotropic scale, as a Convex
      shape when the mesh declares itself convex. */
  function ParseMesh(node: Element, table: UriTable): (r: Result<Shape>)
    ensures "filename" !in node.attributes ==> r == Err(MeshWithoutFilename)
    ensures r.Ok? <==> "filename" in node.attributes &&
                       ResolveUri(node.attributes["filename"].text, table).Ok? && MeshScale(node).Ok?
    ensures r.Ok? ==> (r.value.Mesh? || r.value.Convex?) &&
                      r.value.filename == ResolveUri(node.attributes["filename"].text, table).value &&
                      r.value.filename != ""
    ensures r.Ok? ==> (r.value.Convex? <==> HasChild(node, "drake:declare_convex"))
    ensures r.Ok? ==> MeshScale(node) == Ok(r.value.scale)
    ensures "filename" in node.attributes && ResolveUri(node.attributes["filename"].text, table).Ok? ==>
              (r == Err(AnisotropicMeshScale) <==> MeshScale(node) == Err(AnisotropicMeshScale))
    // an unresolvable file name, then a bad scale, is reported as it is
    ensures "filename" in node.attributes && ResolveUri(node.attributes["filename"].text, table).Err? ==>
              r == Err(UnresolvedUri(node.attributes["filename"].text))
    ensures "filename" in node.attributes && ResolveUri(node.attributes["filename"].text, table).Ok? &&
            MeshScale(node).Err? ==>
              r == Err(MeshScale(node).error)
    ensures r.Err? ==> r.error != NoRecognizableShape
  {
    match StringAttribute(node, "filename")
    case None => Err(MeshWithoutFilename)
    case Some(filename) =>
      var resolved :- ResolveUri(filename, table);
      var scale :- MeshScale(node);
      if HasChild(node, "drake:declare_convex") then Ok(Convex(resolved, scale))
      else Ok(Mesh(resolved, scale))
  }

  // ---------------------------------------------------------------------------
  // Choosing the shape element

  /** The shape elements, in the order they are tried. */
  const ShapeTags: seq<string> :=
    ["box", "sphere", "cylinder", "capsule", "drake:capsule", "mesh", "drake:ellipsoid"]

  /** Whether ShapeTags[k] is the first shape element `node` has. */
  predicate IsFirstShapeTag(node: Element, k: nat) {
    k < |ShapeTags| && HasChild(node, ShapeTags[k]) &&
    forall j :: 0 <= j < k ==> !HasChild(node, ShapeTags[j])
  }

  /** The first k at or after `from` for which `node` has a ShapeTags[k] child. */
  function ShapeIndex(node: Element, from: nat): (k: Option<nat>)
    requires from <= |ShapeTags|
    ensures k.Some? ==> from <= k.value < |ShapeTags| && HasChild(node, ShapeTags[k.value]) &&
                        forall j :: from <= j < k.value ==> !HasChild(node, ShapeTags[j])
    ensures k.None? ==> forall j :: from <= j < |ShapeTags| ==> !HasChild(node, ShapeTags[j])
    decreases |ShapeTags| - from
  {
    if from == |ShapeTags| then None
    else if HasChild(node, ShapeTags[from]) then Some(from)
    else ShapeIndex(node, from + 1)
  }

  /** The parser for the shape element ShapeTags[k]. */
  function ShapeFromElement(k: nat, child: Element, table: UriTable): (r: Result<Shape>)
    requires k < |ShapeTags|
    ensures r.Err? ==> r.error != NoRecognizableShape
  {
    if k == 0 then ParseBox(child)
    else if k == 1 then ParseSphere(child)
    else if k == 2 then ParseCylinder(child)
    else if k == 3 || k == 4 then ParseCapsule(child)
    else if k == 5 then ParseMesh(child, table)
    else EllipsoidOf(child)
  }

  /** ParseGeometry on values: each shape element is tried in turn, and a
      geometry without any is an error. */
  function ShapeOf(node: Element, table: UriTable): Result<Shape>
  {
    if HasChild(node, "box") then ParseBox(FirstChild(node, "box").value)
    else if HasChild(node, "sphere") then ParseSphere(FirstChild(node, "sphere").value)
    else if HasChild(node, "cylinder") then ParseCylinder(FirstChild(node, "cylinder").value)
    else if HasChild(node, "capsule") then ParseCapsule(FirstChild(node, "capsule").value)
    else if HasChild(node, "drake:capsule") then ParseCapsule(FirstChild(node, "drake:capsule").value)
    else if HasChild(node, "mesh") then ParseMesh(FirstChild(node, "mesh").value, table)
    else if HasChild(node, "drake:ellipsoid") then EllipsoidOf(FirstChild(node, "drake:ellipsoid").value)
    else Err(NoRecognizableShape)
  }

  /** Each kind of shape comes only from its own element. */
  lemma ShapeOfKind(node: Element, table: UriTable, shape: Shape)
    requires ShapeOf(node, table) == Ok(shape)
    ensures shape.Box? ==> HasChild(node, "box")
    ensures shape.Sphere? ==> HasChild(node, "sphere")
    ensures shape.Cylinder? ==> HasChild(node, "cylinder")
    ensures shape.Capsule? ==> HasChild(node, "capsule") || HasChild(node, "drake:capsule")
    ensures shape.Mesh? || shape.Convex? ==> HasChild(node, "mesh")
    ensures shape.Ellipsoid? ==> HasChild(node, "drake:ellipsoid")
  {
  }

  /** Every error other than the missing shape comes from parsing one of the
      shape elements. */
  lemma ShapeOfError(node: Element, table: UriTable, error: ParseError)
    requires ShapeOf(node, table) == Err(error) && error != NoRecognizableShape
    ensures HasChild(node, "box") || HasChild(node, "sphere") || HasChild(node, "cylinder") ||
            HasChild(node, "capsule") || HasChild(node, "drake:capsule") || HasChild(node, "mesh") ||
            HasChild(node, "drake:ellipsoid")
  {
  }

  /** The shape comes from the first element of ShapeTags the geometry has,
      whatever follows it, and there is no shape exactly when it has none. */
  lemma ShapeOfFollowsPriority(node: Element, table: UriTable)
    ensures ShapeOf(node, table) == Err(NoRecognizableShape) <==>
              forall j :: 0 <= j < |ShapeTags| ==> !HasChild(node, ShapeTags[j])
    ensures forall k: nat :: IsFirstShapeTag(node, k) ==>
              ShapeOf(node, table) == ShapeFromElement(k, FirstChild(node, ShapeTags[k]).value, table)
  {
    match ShapeIndex(node, 0)
    case None =>
      assert forall k: nat :: !IsFirstShapeTag(node, k);
    case Some(k) =>
      assert IsFirstShapeTag(node, k);
      forall k': nat | IsFirstShapeTag(node, k') ensures k' == k {
        if k' < k {
          assert false;
        } else if k < k' {
          assert false;
        }
      }
      FirstShapeDecides(node, table, k);
  }

  /** When ShapeTags[k] is the first shape element present, its parser decides. */
  lemma FirstShapeDecides(node: Element, table: UriTable, k: nat)
    requires IsFirstShapeTag(node, k)
    ensures ShapeOf(node, table) == ShapeFromElement(k, FirstChild(node, ShapeTags[k]).value, table)
  {
    // each element before ShapeTags[k] is absent, so ShapeOf falls through to it
    if k > 0 {
      assert !HasChild(node, ShapeTags[0]);
      if k > 1 {
        assert !HasChild(node, ShapeTags[1]);
        if k > 2 {
          assert !HasChild(node, ShapeTags[2]);
          if k > 3 {
            assert !HasChild(node, ShapeTags[3]);
            if k > 4 {
              assert !HasChild(node, ShapeTags[4]);
              if k > 5 {
                assert !HasChild(node, ShapeTags[5]);
              }
            }
          }
        }
      }
    }
  }

  /** Finds the first shape element in ShapeTags order and hands it to its
      parser; the <drake:ellipsoid> axes are read by the ParseEllipsoid loop. */
  method ParseGeometry(node: Element, table: UriTable) returns (r: Result<Shape>)
    ensures r == ShapeOf(node, table)
  {
    ShapeOfFollowsPriority(node, table);
    var k := ShapeIndex(node, 0);
    if k.None? {
      return Err(NoRecognizableShape);
    }
    FirstShapeDecides(node, table, k.value);
    var child := FirstChild(node, ShapeTags[k.value]).value;
    if k.value == 6 {
      r := ParseEllipsoid(child);
    } else {
      r := ShapeFromElement(k.value, child, table);
    }
  }

  // ---------------------------------------------------------------------------
  // Default geometry names

  /** Guessed names end in a number below this bound. */
  const DefaultNameSuffixBound: nat := 10000

  function DigitChar(d: nat): (c: char)
    requires d < 10
    ensures '0' <= c <= '9'
  {
    "0123456789"[d]
  }

  /** The decimal digits of `n`, as a formatted integer is written. */
  function Decimal(n: nat): (s: string)
    ensures |s| > 0
    ensures forall i :: 0 <= i < |s| ==> '0' <= s[i] <= '9'
  {
    if n < 10 then [DigitChar(n)] else Decimal(n / 10) + [DigitChar(n % 10)]
  }

  /** The i-th guess: the shape name followed by i. */
  function Guess(shapeName: string, i: nat): string {
    shapeName + Decimal(i)
  }

  /** The first guess from the i-th on that is not in `names`. */
  function FirstFreeGuess(shapeName: string, names: set<string>, i: nat): (r: Result<string>)
    ensures r.Ok? ==> r.value !in names &&
                      exists k :: i <= k < DefaultNameSuffixBound && r.value == Guess(shapeName, k) &&
                                  forall j :: i <= j < k ==> Guess(shapeName, j) in names
    ensures r.Err? <==> forall j :: i <= j < DefaultNameSuffixBound ==> Guess(shapeName, j) in names
    ensures r.Err? ==> r.error == TooManyDefaultNames
    decreases DefaultNameSuffixBound - i
  {
    if i >= DefaultNameSuffixBound then Err(TooManyDefaultNames)
    else if Guess(shapeName, i) !in names then Ok(Guess(shapeName, i))
    else FirstFreeGuess(shapeName, names, i + 1)
  }

  /** MakeDefaultGeometryName on values: the shape name when it is free,
      otherwise the first free guess numbered from 1. */
  function DefaultGeometryName(shape: Shape, names: set<string>): (r: Result<string>)
    ensures r.Ok? ==> r.value !in names
    ensures ShapeName(shape) !in names ==> r == Ok(ShapeName(shape))
    ensures ShapeName(shape) in names ==>
              (r.Err? <==> forall j :: 1 <= j < DefaultNameSuffixBound ==> Guess(ShapeName(shape), j) in names)
    ensures ShapeName(shape) in names && r.Ok? ==>
              exists k :: 1 <= k < DefaultNameSuffixBound && r.value == Guess(ShapeName(shape), k) &&
                          forall j :: 1 <= j < k ==> Guess(ShapeName(shape), j) in names
    ensures r.Err? ==> r.error == TooManyDefaultNames
  {
    if ShapeName(shape) !in names then Ok(ShapeName(shape))
    else FirstFreeGuess(ShapeName(shape), names, 1)
  }

  /** Searches the numbered guesses for a name not in `names`. */
  method MakeDefaultGeometryName(shape: Shape, names: set<string>) returns (r: Result<string>)
    ensures r == DefaultGeometryName(shape, names)
  {
    var shapeName := ShapeName(shape);
    if shapeName !in names {
      return Ok(shapeName);
    }
    var i := 1;
    while i < DefaultNameSuffixBound
      invariant 1 <= i <= DefaultNameSuffixBound
      invariant FirstFreeGuess(shapeName, names, 1) == FirstFreeGuess(shapeName, names, i)
    {
      var guess := Guess(shapeName, i);
      if guess !in names {
        return Ok(guess);
      }
      i := i + 1;
    }
    r := Err(TooManyDefaultNames);
  }
}
