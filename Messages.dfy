/** The ROS messages the pressure visualizer reads and writes, as plain
    values holding only the fields the node touches. Floating-point fields
    are `real`; the pressure readings (`int16[]` in pr2_msgs/PressureState)
    are unbounded integers. */
module Messages {

  /** geometry_msgs/Vector3 (also used for geometry_msgs/Point). */
  datatype Vector3 = Vector3(x: real, y: real, z: real)

  /** geometry_msgs/Quaternion. */
  datatype Quaternion = Quaternion(x: real, y: real, z: real, w: real)

  /** A ROS time stamp. */
  datatype Time = Time(secs: int, nsecs: int)

  /** std_msgs/Header, without the sequence number. */
  datatype Header = Header(frameId: string, stamp: Time)

  datatype Pose = Pose(position: Vector3, orientation: Quaternion)

  datatype ColorRGBA = ColorRGBA(r: real, g: real, b: real, a: real)

  /** visualization_msgs/Marker, restricted to the fields the node sets. */
  datatype Marker = Marker(
    header: Header,
    ns: string,
    kind: int,
    action: int,
    id: int,
    pose: Pose,
    scale: Vector3,
    color: ColorRGBA,
    points: seq<Vector3>)

  /** Marker.LINE_STRIP and Marker.ADD in visualization_msgs/Marker. */
  const LineStrip: int := 4
  const ActionAdd: int := 0

  const Origin := Vector3(0.0, 0.0, 0.0)

  /** A freshly constructed message: every number zero, every string and list empty. */
  const BlankMarker := Marker(
    Header("", Time(0, 0)), "", 0, 0, 0,
    Pose(Origin, Quaternion(0.0, 0.0, 0.0, 0.0)),
    Origin, ColorRGBA(0.0, 0.0, 0.0, 0.0), [])

  /** fingertip_pressure/PressureInfoElement: the geometry of one fingertip
      sensor, one entry per cell in each list. */
  datatype PressureInfoElement = PressureInfoElement(
    frameId: string,
    center: seq<Vector3>,
    halfside1: seq<Vector3>,
    halfside2: seq<Vector3>)

  /** fingertip_pressure/PressureInfo. */
  datatype PressureInfo = PressureInfo(sensor: seq<PressureInfoElement>)

  /** pr2_msgs/PressureState: one reading per cell for each fingertip. */
  datatype PressureState = PressureState(stamp: Time, lFingerTip: seq<int>, rFingerTip: seq<int>)
}
