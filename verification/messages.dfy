/** The message shapes of humanoid_league_msgs that the vision node publishes and the
    evaluator reads back. Pixel coordinates are whole numbers; the float fields of the wire
    messages carry them unchanged. */
module Messages {

  /** Frame id and time stamp copied from the camera image onto every output message. */
  datatype Header = Header(frameId: string, stamp: int)

  datatype Point = Point(x: int, y: int)

  /** One ball candidate of a BallsInImage message. */
  datatype BallInImage = BallInImage(center: Point, diameter: int, confidence: real)

  datatype BallsInImage = BallsInImage(header: Header, candidates: seq<BallInImage>)

  /** The colour classes of ObstacleInImage that the vision node assigns. */
  datatype ObstacleColor = Undefined | RobotMagenta | RobotCyan

  /** The player number a fresh ObstacleInImage carries until it is set. */
  const DefaultPlayerNumber: int := 0

  datatype ObstacleInImage = ObstacleInImage(
    color: ObstacleColor,
    topLeft: Point,
    height: int,
    width: int,
    confidence: real,
    playerNumber: int)

  datatype ObstaclesInImage = ObstaclesInImage(header: Header, obstacles: seq<ObstacleInImage>)

  datatype LineSegmentInImage = LineSegmentInImage(start: Point, end: Point)

  datatype LineInformationInImage = LineInformationInImage(header: Header, segments: seq<LineSegmentInImage>)

  datatype HorizonInImage = HorizonInImage(header: Header, points: seq<Point>)

  /** The region the FCNN ball strategy looked at, as an ImageWithRegionOfInterest. */
  datatype ImageWithRegionOfInterest = ImageWithRegionOfInterest(stamp: int, pixels: seq<int>)
}
