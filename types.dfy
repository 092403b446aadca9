/**
 * The two dataclasses of the SDK's types module. A Python dataclass does not check
 * its annotations, so the fields hold whatever the mission program supplied.
 */
module Types {
  import opened Json

  datatype Pose = Pose(frameId: Json, x: Json, y: Json, theta: Json)

  datatype SpatialTolerance = SpatialTolerance(positionMeters: Json, angularRadians: Json)
}
