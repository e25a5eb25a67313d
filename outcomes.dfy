/** Failure-compatible result type and the error conditions the keycap tools raise.
    Each error names the Python exception the source raises for it. */
module Outcomes {

  datatype Error =
    | ZeroLengthVector         // ValueError("Zero-length vector.") from unit_vector
    | NormalEvaluationFailed   // an exception out of face.normalAt
    | NoSuitableFace           // RuntimeError: no face accepted for the direction
    | ObjectNotFound           // ValueError: template object not found in the document
    | ShapeAccessFailed        // an exception (other than AttributeError) from reading obj.Shape
    | ShapeUnavailable         // AttributeError: the template object has no usable Shape to copy
    | TemplateHasNoSolid       // RuntimeError: template shape is null or has no solid
    | UnknownFaceChoice        // ValueError: face label not in the direction table (core.py)
    | UnknownFaceKey           // KeyError: face label not in FACE_DIRECTIONS (keycap_exporter_core.py)
    | OutlineGenerationFailed  // Draft.makeShapeString could not render the text
    | NonPositiveDepth         // ValueError: legend height/depth must be > 0
    | InvalidMode              // ValueError: mode must be "engrave" or "raise"
    | NonPositiveDeflection    // ValueError: linear deflection must be > 0
    | NoActiveDocument         // RuntimeError: no active document
    | FontFileNotFound         // FileNotFoundError: font path empty or not a file
    | EmptyOutputDirectory     // ValueError: output folder is empty
    | LayoutFileNotFound       // FileNotFoundError: layout path empty or not a file
    | NoPrimaryLabels          // ValueError: layout file has no primary labels
    | MissingArguments         // TypeError: a call that does not match the callee's signature

  datatype Option<+T> = None | Some(value: T)

  datatype Result<+T> = Success(value: T) | Failure(error: Error) {

    predicate IsFailure() {
      Failure?
    }

    function PropagateFailure<U>(): Result<U>
      requires Failure?
    {
      Failure(error)
    }

    function Extract(): T
      requires Success?
    {
      value
    }
  }
}
