/**
 * The checks `execute` makes before it creates anything: a template object is
 * chosen, its Y dimension is positive, and the requested length exceeds the
 * half circle's arc length.
 */
module Guards {
  import opened Wrappers
  import opened Geometry

  datatype Error =
    | MissingTemplate            // "No custom object selected."
    | InvalidYDimension          // "Custom object has an invalid Y-dimension."
    | ArcTooLong(arcLength: real) // "Length must be greater than arc length (...)."

  /**
   * The prechecks in the order `execute` makes them. `templateDimY` is `None` when
   * no template is chosen, and its `dimensions.y` otherwise. `None` means go ahead.
   */
  function Precheck(templateDimY: Option<real>, radius: real, length: real): (r: Option<Error>)
    ensures r.None? <==> templateDimY.Some? && templateDimY.value > 0.0 && length > ArcLength(radius)
    ensures r == Some(MissingTemplate) <==> templateDimY.None?
    ensures r == Some(InvalidYDimension) <==> templateDimY.Some? && templateDimY.value <= 0.0
    ensures r == Some(ArcTooLong(ArcLength(radius))) <==>
              templateDimY.Some? && templateDimY.value > 0.0 && length <= ArcLength(radius)
  {
    if templateDimY.None? then Some(MissingTemplate)
    else if templateDimY.value <= 0.0 then Some(InvalidYDimension)
    else if length <= ArcLength(radius) then Some(ArcTooLong(ArcLength(radius)))
    else None
  }

  /** A run that passes the prechecks extrudes each leg by a positive amount. */
  lemma PassedPrecheckGivesPositiveLegs(templateDimY: Option<real>, radius: real, length: real)
    requires Precheck(templateDimY, radius, length).None?
    ensures ExtrudeAmount(radius, length) > 0.0
  {
  }

  /** The property bounds (radius at least 0.01, length at least 0) do not rule out the arc check. */
  lemma ArcCheckStillNeeded(radius: real)
    requires radius >= 0.01
    ensures Precheck(Some(1.0), radius, 0.0) == Some(ArcTooLong(ArcLength(radius)))
  {
  }
}
