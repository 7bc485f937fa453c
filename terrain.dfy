/**
 * The abstract terrain model the swing planner queries: a local plane
 * projected along gravity (which every terrain model must supply), a convex
 * foothold region and an optional signed distance field, the last two with
 * defaults that a concrete terrain may override.
 */
module Terrain {
  import opened Wrappers
  import opened Rotations

  /** A local terrain plane: a point on it and the rotation from world to terrain frame. */
  datatype TerrainPlane = TerrainPlane(positionInWorld: Vec3, orientationWorldToTerrain: Mat3)

  /** A foothold region: a plane and the polygon boundary in its frame (empty means unbounded). */
  datatype ConvexTerrain = ConvexTerrain(plane: TerrainPlane, boundary: seq<(real, real)>)

  /** An opaque handle for a signed distance field; its evaluation is not modelled. */
  datatype SignedDistanceField = SignedDistanceField(id: nat)

  /**
   * A terrain model. `alongGravity` is the mandatory query; `convexOverride`
   * and `sdfOverride` are a subclass's overrides of the two queries that
   * have defaults (`None` means the subclass keeps the default). The class
   * cannot be copied in the source; as a value here, copying is not an issue.
   */
  datatype TerrainModel = TerrainModel(
    alongGravity: Vec3 -> TerrainPlane,
    convexOverride: Option<Vec3 -> ConvexTerrain>,
    sdfOverride: Option<Option<SignedDistanceField>>)

  function GetLocalTerrainAtPositionInWorldAlongGravity(terrain: TerrainModel, positionInWorld: Vec3): TerrainPlane {
    terrain.alongGravity(positionInWorld)
  }

  /**
   * The convex region at a point. By default it is the along-gravity plane
   * with an empty boundary.
   */
  function GetConvexTerrainAtPositionInWorld(terrain: TerrainModel, positionInWorld: Vec3): (r: ConvexTerrain)
    ensures terrain.convexOverride.None? ==>
      r.plane == GetLocalTerrainAtPositionInWorldAlongGravity(terrain, positionInWorld) && r.boundary == []
  {
    match terrain.convexOverride
    case None => ConvexTerrain(GetLocalTerrainAtPositionInWorldAlongGravity(terrain, positionInWorld), [])
    case Some(query) => query(positionInWorld)
  }

  /** The signed distance field, if any; by default there is none. */
  function GetSignedDistanceField(terrain: TerrainModel): (r: Option<SignedDistanceField>)
    ensures terrain.sdfOverride.None? ==> r.None?
  {
    match terrain.sdfOverride
    case None => None
    case Some(field) => field
  }

  /** A terrain model that overrides nothing: only the along-gravity query is its own. */
  function PlanarLike(alongGravity: Vec3 -> TerrainPlane): TerrainModel {
    TerrainModel(alongGravity, None, None)
  }

  /**
   * For a terrain that keeps both defaults, the convex region's plane is the
   * along-gravity plane everywhere and there is no signed distance field.
   */
  lemma DefaultsAgreeWithAlongGravity(alongGravity: Vec3 -> TerrainPlane, p: Vec3)
    ensures GetConvexTerrainAtPositionInWorld(PlanarLike(alongGravity), p) == ConvexTerrain(alongGravity(p), [])
    ensures GetSignedDistanceField(PlanarLike(alongGravity)).None?
  {}
}
