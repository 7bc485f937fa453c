/**
 * Planned foot phases: a stance on a convex foothold or a swing between two
 * terrain planes. The splines that shape a swing and the normal-direction
 * and normal-constraint evaluations are not modelled; those queries are kept
 * as symbolic terms that name the phase and the time they were asked about.
 */
module FootPhases {
  import opened Wrappers
  import opened Terrain

  /** A lift-off or touch-down event; `time` is `None` for a NaN time, `terrainPlane` for a null plane. */
  datatype SwingEvent = SwingEvent(time: Option<real>, velocity: real, terrainPlane: Option<TerrainPlane>)

  /** The position inequality constraints derived from a stance terrain; their numbers are not modelled. */
  datatype FootTangentialConstraintMatrix = TangentialConstraintsFromConvexTerrain(stanceTerrain: ConvexTerrain)

  /** Information for the constraint sdf(x) >= minimumDistance; `None` is a null field. */
  datatype SignedDistanceConstraint = SignedDistanceConstraint(signedDistanceField: Option<SignedDistanceField>, minimumDistance: real)

  /** A stance or a swing, with the constructor defaults of the source (gain 0, no distance field). */
  datatype FootPhase =
    | StancePhase(stanceTerrain: ConvexTerrain, positionGain: real := 0.0)
    | SwingPhase(liftOff: SwingEvent, swingHeight: real, touchDown: SwingEvent,
                 signedDistanceField: Option<SignedDistanceField> := None, positionGain: real := 0.0)

  /** The unit normal a phase reports at a time (spline evaluation, not modelled). */
  datatype NormalDirection = NormalDirectionInWorldFrame(phase: FootPhase, time: real)

  /** The normal velocity constraint a phase reports at a time (spline evaluation, not modelled). */
  datatype FootNormalConstraintMatrix = FootNormalConstraintInWorldFrame(phase: FootPhase, time: real)

  /** Stance phases are in contact, swing phases are not. */
  function ContactFlag(phase: FootPhase): (inContact: bool)
    ensures inContact <==> phase.StancePhase?
  {
    match phase
    case StancePhase(_, _) => true
    case SwingPhase(_, _, _, _, _) => false
  }

  /**
   * Only a stance phase has tangential constraints, built from its own
   * foothold; the base class answers with a null pointer.
   */
  function GetFootTangentialConstraintInWorldFrame(phase: FootPhase): (r: Option<FootTangentialConstraintMatrix>)
    ensures r.Some? <==> ContactFlag(phase)
    ensures r.Some? ==> r.value.stanceTerrain == phase.stanceTerrain
  {
    match phase
    case StancePhase(terrain, _) => Some(TangentialConstraintsFromConvexTerrain(terrain))
    case SwingPhase(_, _, _, _, _) => None
  }

  /**
   * The signed distance constraint at a time. Only a swing phase overrides
   * the base class's null field with zero distance; what the swing override
   * returns is computed from its clearance spline (not modelled) and is
   * passed in as `swingConstraint`.
   */
  function GetSignedDistanceConstraint(phase: FootPhase, swingConstraint: SignedDistanceConstraint): (r: SignedDistanceConstraint)
    ensures ContactFlag(phase) ==> r.signedDistanceField.None? && r.minimumDistance == 0.0
    ensures !ContactFlag(phase) ==> r == swingConstraint
  {
    match phase
    case StancePhase(_, _) => SignedDistanceConstraint(None, 0.0)
    case SwingPhase(_, _, _, _, _) => swingConstraint
  }
}
