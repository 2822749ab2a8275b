/**
  Outcomes of the URDF geometry parser: an optional value, the error raised by
  each failing branch, and a failure-compatible Result.
 */
module UrdfResult {

  datatype Option<+T> = None | Some(value: T)

  /** Every error this model covers. Most constructors name one failing check;
      MissingAttribute, MalformedAttribute and UnresolvedUri are shared by every
      place an attribute or a URI is read. The message text is not modelled. */
  datatype ParseError =
    // <material>
    | NotMaterialElement
    | MaterialNameMissing
    | ColorWithoutRgba
    | MaterialWithoutProperties
    | MaterialRedefinition
    // attributes and URIs
    | MalformedAttribute(attribute: string)
    | UnresolvedUri(uri: string)
    // shapes
    | MissingAttribute(shape: string, attribute: string)
    | MeshWithoutFilename
    | AnisotropicMeshScale
    | NoRecognizableShape
    | TooManyDefaultNames
    // <visual>
    | NotVisualElement
    | VisualWithoutGeometry
    | AcceptingRendererWithoutName
    // <collision>
    | NotCollisionElement
    | CollisionWithoutGeometry
    | UnparsableFriction(tag: string)
    | IncompleteFriction
    | SoftHydroelasticUnsupported
    | ConflictingHydroelastic

  datatype Result<+T> = Ok(value: T) | Err(error: ParseError) {
    predicate IsFailure() {
      Err?
    }

    function PropagateFailure<U>(): Result<U>
      requires Err?
    {
      Err(error)
    }

    function Extract(): T
      requires Ok?
    {
      value
    }
  }
}
