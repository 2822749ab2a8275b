# URDF geometry and material parsing, modelled in Dafny

This project models the part of Drake's URDF parser that reads the geometry
of a link: `multibody/parsing/detail_urdf_geometry.cc`. It covers the
`<material>`, `<geometry>`, `<visual>` and `<collision>` elements of the ROS
Unified Robot Description Format, plus Drake's extensions to them
(`drake:capsule`, `drake:ellipsoid`, `drake:declare_convex`,
`drake:accepting_renderer`, `drake:proximity_properties` and the legacy
`drake_compliance`).

The XML document is an element tree: `UrdfXml.Element` has a name, attributes,
children and text. Every error this model covers is a
`UrdfResult.ParseError` constructor; most name one failing branch, while
`UnresolvedUri` and `MalformedAttribute` are shared by every place a URI or
an attribute is read. Two objects are
updated in place, as in the source: the material map (`UrdfMaterials.MaterialMap`)
and the link's set of geometry names (`UrdfGeometryElements.GeometryNames`). The
operations that work on them are methods. Each method is proved equal to a
pure specification function, or it states its whole new state directly. The
pure rules are functions whose contracts state what the source promises:
- the material compatibility table;
- the shape priority order;
- the per-shape "missing attribute" errors;
- isotropic mesh scale;
- the fresh default name;
- the both-or-neither friction rule;
- hydroelastic tag exclusion.

Files, one module each:
- `urdf_result.dfy`: `Option`, `ParseError`, `Result`.
- `urdf_xml.dfy`: the element tree and its lookups (first child, next sibling, attributes, numeric text), plus URI resolution.
- `urdf_materials.dfy`: the colour tolerance, the conflict rules, `AddMaterialToMaterialMap` and `ParseMaterial`.
- `urdf_shapes.dfy`: the per-shape parsers, `ParseGeometry` and `MakeDefaultGeometryName`.
- `urdf_geometry_elements.dfy`: accepting renderers, `ParseVisual`, the `drake_compliance` friction, hydroelastic tags and `ParseCollision`.

## Model

| member | source | states |
|---|---|---|
| UrdfMaterials.CloseIsReflexiveAndSymmetric | multibody/parsing/detail_urdf_geometry.cc:79-80 | the colour match "distance at most 1e-10" is reflexive and symmetric |
| UrdfMaterials.DiffuseMapConflict | multibody/parsing/detail_urdf_geometry.cc:45-70 | the diffuse-map rows of the table: both absent and cached-only are compatible, input without cached conflicts, and two values conflict exactly when they differ |
| UrdfMaterials.RgbaConflict | multibody/parsing/detail_urdf_geometry.cc:72-85 | cached absent with input present conflicts; input absent never conflicts; two colours conflict exactly when they are not close |
| UrdfMaterials.SameDefinitionNeverConflicts | multibody/parsing/detail_urdf_geometry.cc:45-85 | a definition identical to the cached one conflicts in neither diffuse map nor colour |
| UrdfMaterials.WithDefaultColor | multibody/parsing/detail_urdf_geometry.cc:108-109 | a stored material always has a colour: its own, or transparent black when it has none; the diffuse map is kept |
| UrdfMaterials.AddMaterial | multibody/parsing/detail_urdf_geometry.cc:33-113 | a new name is inserted (transparent black if uncoloured) and no other key changes; an existing name never changes the map; with `error_if_name_clash` an existing name is always an error; otherwise the error happens exactly when the diffuse map or the colour conflicts; on success the stored entry, not the input, is returned |
| UrdfMaterials.ReAddIsAccepted | multibody/parsing/detail_urdf_geometry.cc:57-112 | re-adding the stored material under its own name, with clashes allowed, succeeds, returns it and leaves the map unchanged |
| UrdfMaterials.AddTwiceKeepsFirst | multibody/parsing/detail_urdf_geometry.cc:41-112 | adding the same new material twice with clashes allowed: the second call succeeds and changes nothing |
| UrdfXml.ResolveUri | multibody/parsing/detail_urdf_geometry.cc:262-264 | a resolved file name is never empty; an unresolvable URI is an error |
| UrdfMaterials.TexturePath | multibody/parsing/detail_urdf_geometry.cc:135-149 | without a `<texture>` child, or with an absent or empty `filename`, there is no texture; a given `filename` gives the resolved, non-empty path when it resolves and the unresolved-URI error otherwise |
| UrdfMaterials.Color | multibody/parsing/detail_urdf_geometry.cc:151-162 | without a `<color>` child there is no colour; with one, success exactly when `rgba` reads as four numbers, which are the colour's r, g, b, a; a missing `rgba` is the colour-without-rgba error and a malformed one is a malformed-attribute error |
| UrdfMaterials.MaterialOf | multibody/parsing/detail_urdf_geometry.cc:115-188 | a non-`material` element is an error; a missing required name is an error; then a texture failure, and only after it a colour failure, is returned as it is; a new non-empty name with no colour and no texture is an error; with a name required, a name already in the map is the redefinition error; success exactly when the element checks pass, texture and colour read, and (for a named material) the material map accepts it; a named material that passes the checks gets exactly the result and map of AddMaterial on its colour and texture; on error the map is unchanged; only the material's own name can be added and no existing entry ever changes; an unnamed material is returned as read and not stored |
| UrdfMaterials.ReferenceToDefinedMaterial | multibody/parsing/detail_urdf_geometry.cc:164-186 | a named material with no colour and no texture succeeds exactly when the name is already defined, and then returns the cached material without changing the map |
| UrdfMaterials.AddMaterialToMaterialMap | multibody/parsing/detail_urdf_geometry.cc:33-113 | the in-place update returns and leaves exactly what AddMaterial specifies |
| UrdfMaterials.ParseMaterial | multibody/parsing/detail_urdf_geometry.cc:115-188 | the in-place parse returns and leaves exactly what MaterialOf specifies |
| UrdfShapes.ParseBox | multibody/parsing/detail_urdf_geometry.cc:192-199 | a missing `size` is the "missing box attribute" error and a `size` that does not read as three numbers is the malformed-attribute error; success exactly when it does, and those numbers are the box's dimensions |
| UrdfShapes.ParseSphere | multibody/parsing/detail_urdf_geometry.cc:201-209 | a missing `radius` is the "missing sphere attribute" error and a `radius` that is not one number is the malformed-attribute error; success exactly when it reads as one number, the radius |
| UrdfShapes.RadiusAndLength | multibody/parsing/detail_urdf_geometry.cc:211-237 | `radius` is checked before `length`: a missing or malformed `radius` is reported whatever `length` is, and only a well-read radius lets a missing or malformed `length` be the error; success needs both as numbers, which are returned |
| UrdfShapes.ParseCylinder | multibody/parsing/detail_urdf_geometry.cc:211-223 | a cylinder succeeds exactly when radius and length read, and is built from them; otherwise their error |
| UrdfShapes.ParseCapsule | multibody/parsing/detail_urdf_geometry.cc:225-237 | a capsule (either tag) succeeds exactly when radius and length read, and is built from them; otherwise their error |
| UrdfShapes.AxisReadings | multibody/parsing/detail_urdf_geometry.cc:240-247 | the named axes all read as numbers exactly when the reading succeeds, one value per axis in order |
| UrdfShapes.AxisErrorPersists | multibody/parsing/detail_urdf_geometry.cc:242-247 | once an axis fails, reading further axes keeps that error |
| UrdfShapes.AxisFirstError | multibody/parsing/detail_urdf_geometry.cc:242-247 | the error reported is that of the first axis that does not read |
| UrdfShapes.EllipsoidOf | multibody/parsing/detail_urdf_geometry.cc:239-249 | an ellipsoid succeeds exactly when a, b and c all read as numbers, and has them as its axes |
| UrdfShapes.EllipsoidFirstError | multibody/parsing/detail_urdf_geometry.cc:242-247 | the ellipsoid reports the first of a, b, c that is missing or malformed |
| UrdfShapes.ParseEllipsoid | multibody/parsing/detail_urdf_geometry.cc:239-249 | the loop over the three axes into a fixed buffer gives exactly EllipsoidOf |
| UrdfShapes.MeshScale | multibody/parsing/detail_urdf_geometry.cc:266-280 | scale defaults to 1; a scale that reads as three numbers is accepted exactly when they are equal, and is then their common value; otherwise it is the anisotropic-scale error; a given scale that does not read as three numbers is a malformed-attribute error |
| UrdfShapes.ParseMesh | multibody/parsing/detail_urdf_geometry.cc:251-288 | no `filename` is an error; a filename that does not resolve is the unresolved-URI error for that text, and then a bad scale is the scale's own error; success exactly when the filename resolves and the scale is valid; the result is a Convex exactly when `drake:declare_convex` is present, otherwise a Mesh, with the resolved non-empty file and the scale |
| UrdfShapes.ShapeIndex | multibody/parsing/detail_urdf_geometry.cc:293-321 | finds the first tag in the priority list that the geometry has, or reports that it has none |
| UrdfShapes.ShapeFromElement | multibody/parsing/detail_urdf_geometry.cc:293-321 | no shape parser ever yields the "no recognizable shape" error |
| UrdfShapes.ShapeOfFollowsPriority | multibody/parsing/detail_urdf_geometry.cc:290-327 | the shape comes from the first of box, sphere, cylinder, capsule, drake:capsule, mesh, drake:ellipsoid that is present, whatever follows; "no recognizable shape" happens exactly when none is present |
| UrdfShapes.FirstShapeDecides | multibody/parsing/detail_urdf_geometry.cc:293-321 | when a tag is the first present in priority order, its parser decides the shape |
| UrdfShapes.ShapeOfKind | multibody/parsing/detail_urdf_geometry.cc:290-327 | ShapeOf, the value form of ParseGeometry, makes a box only from `<box>`, a sphere only from `<sphere>`, a cylinder only from `<cylinder>`, a capsule only from `<capsule>` or `<drake:capsule>`, a mesh or convex shape only from `<mesh>` and an ellipsoid only from `<drake:ellipsoid>` |
| UrdfShapes.ShapeOfError | multibody/parsing/detail_urdf_geometry.cc:290-327 | any error of ShapeOf other than "no recognizable shape" comes from one of the shape elements being present |
| UrdfShapes.ParseGeometry | multibody/parsing/detail_urdf_geometry.cc:290-327 | finding the first shape element by index and handing it to its parser (the ellipsoid through the ParseEllipsoid loop) gives exactly ShapeOf, whose priority order is proved above |
| UrdfShapes.FirstFreeGuess | multibody/parsing/detail_urdf_geometry.cc:345-351 | the result is not in the set and is the lowest-numbered free guess below 10000; the error "too many geometries" happens exactly when all guesses are taken |
| UrdfShapes.DefaultGeometryName | multibody/parsing/detail_urdf_geometry.cc:338-352 | the name is never in `geometry_names`; it is the shape name when that is free, otherwise the shape name followed by the smallest free i in 1..9999; it fails exactly when all of those are taken |
| UrdfShapes.MakeDefaultGeometryName | multibody/parsing/detail_urdf_geometry.cc:338-352 | the bounded search loop returns exactly DefaultGeometryName |
| UrdfGeometryElements.GeometryName | multibody/parsing/detail_urdf_geometry.cc:426-429 | a geometry with a `name` attribute is registered under that text, even an empty one; one without gets DefaultGeometryName for its shape, which is not already in the set |
| UrdfGeometryElements.AcceptingRenderers | multibody/parsing/detail_urdf_geometry.cc:408-424 | no accepting-renderer element gives no property; an unnamed one is an error; otherwise the result holds exactly the names of the accepting-renderer elements, a non-empty set |
| UrdfGeometryElements.AcceptingNamesStep | multibody/parsing/detail_urdf_geometry.cc:412-421 | stepping to the next accepting-renderer sibling adds exactly the current element's name |
| UrdfGeometryElements.ParseAcceptingRenderers | multibody/parsing/detail_urdf_geometry.cc:408-424 | the sibling-walking loop computes exactly AcceptingRenderers |
| UrdfGeometryElements.VisualOf | multibody/parsing/detail_urdf_geometry.cc:357-436 | non-`visual` elements and visuals without geometry are errors; after the shape, a material failure, then an unnamed accepting renderer, then running out of default names is each returned as its own error; success exactly when shape, material, accepting renderers and name all succeed; an unnamed visual gets a name not yet taken; the illustration carries the material's colour and diffuse map (none without a material) and the accepting renderers |
| UrdfGeometryElements.ParseVisual | multibody/parsing/detail_urdf_geometry.cc:357-436 | the in-place parse returns exactly VisualOf for the material map and names it started with; the material map changes only through the material parsed after the shape; the chosen name, and nothing else, is added to the names, only on success |
| UrdfGeometryElements.ParseCoulombFrictionFromDrakeCompliance | multibody/parsing/detail_urdf_geometry.cc:448-506 | no `drake_compliance` gives the default friction; an unreadable static coefficient is its unparsable error, checked before the dynamic one; with both readable, exactly one present is the both-must-be-defined error; neither present gives the default; both present give those coefficients |
| UrdfGeometryElements.HydroelasticTags | multibody/parsing/detail_urdf_geometry.cc:574-599 | `drake:soft_hydroelastic` is rejected; rigid and compliant together are rejected; otherwise success, never with both flags set |
| UrdfGeometryElements.RegisterGeometryName | multibody/parsing/detail_urdf_geometry.cc:426-429 | the geometry is registered under exactly GeometryName's result, and the names gain that name only when there is one |
| UrdfGeometryElements.ProximityOf | multibody/parsing/detail_urdf_geometry.cc:550-631 | success exactly when the hydroelastic tags and the friction both succeed; a hydroelastic failure comes first, then a friction failure; the proximity holds both values |
| UrdfGeometryElements.CollisionProximity | multibody/parsing/detail_urdf_geometry.cc:550-631 | reading the hydroelastic tags and then the friction step by step gives exactly ProximityOf |
| UrdfGeometryElements.CollisionOf | multibody/parsing/detail_urdf_geometry.cc:511-643 | non-`collision` elements and collisions without geometry are errors; success exactly when shape, hydroelastic tags, friction and name all succeed; after the shape, a hydroelastic failure, then a friction failure, then running out of default names is each returned as its own error; the shape, name and proximity are those of the parts; an unnamed collision gets a name not yet taken |
| UrdfGeometryElements.CollisionFrictionSource | multibody/parsing/detail_urdf_geometry.cc:604-631 | a collision's friction is the one the proximity properties set when they set one, else the `drake_compliance` one, whose failure is then the collision's; without proximity properties the collision is not hydroelastic |
| UrdfGeometryElements.ParseCollision | multibody/parsing/detail_urdf_geometry.cc:511-643 | the in-place parse returns exactly CollisionOf for the names it started with, and adds the chosen name, and nothing else, to the names, only on success |

## Left out

- The pose from `<origin>` (`OriginAttributesToTransform`, `RigidTransformd`) is floating-point transform code and is not part of this model.
- Log-once warnings have no observable contract here. These are the unused `youngs_modulus` and `dissipation` tags, the `group` attribute, and `drake_compliance` being ignored when proximity properties give friction.
- Error message text and line numbers are not modelled. Only which branch failed is modelled. This matters for the unnamed accepting renderer: its format string at multibody/parsing/detail_urdf_geometry.cc:416 has an unbalanced brace, so what the formatter does with it is not modelled.
- `ParseProximityProperties` is not part of this model. `ParseCollision` receives the friction it would set as a parameter. Its other properties and its `read_double` errors are not modelled.
- `ResolveUri` (package map and root directory) is not part of this model. It is replaced by a table from URI to resolved file name. A missing or empty entry is an error.
- The attribute readers of `detail_tinyxml` (`ParseStringAttribute`, `ParseScalarAttribute`, `ParseVectorAttribute`, `ParseThreeVectorAttribute`) are not part of this model. Each attribute carries its numeric reading, and the model assumes this contract: an absent attribute is "not found", and a present one that does not read as the expected count of numbers is a `MalformedAttribute` error.
- TinyXML's `QueryDoubleText` is not part of this model either. An element's text carries its numeric reading in the same way. When a `drake_compliance` coefficient's text does not read as one number, the model gives that coefficient's `UnparsableFriction` error.
- Numbers are exact reals, not doubles. The colour tolerance `norm > 1e-10` is stated exactly as squared distance greater than 1e-20.
- Physical validation is not modelled. This covers the shape constructors (positive sizes) and the `CoulombFriction` constructor.
- `geometry::ShapeName` is not part of this model. The model takes the shape type names Box, Sphere, Cylinder, Capsule, Ellipsoid, Mesh and Convex.
- The value of `default_friction()` is not part of this model. It is the constructor `DefaultFriction`.
- `MakePhongIllustrationProperties` and the property bag are reduced to a record. The record holds the diffuse colour, the diffuse map and the accepting renderers.
- In `AddMaterialToMaterialMap`, the diagnostic policy's error report followed by an empty result is modelled as an error result. `ParseMaterial` uses the default policy, which throws.

