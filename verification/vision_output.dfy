/** What the vision node emits for one camera frame (vision.py, handle_image), as a function
    of what its detectors report. The detectors themselves are not modelled: their results
    arrive as a Detections value. */
module VisionOutput {
  import opened Wrappers
  import opened Messages

  /** The ball detector's top candidate: centre, diameter and rating. */
  datatype BallCandidate = BallCandidate(centerX: int, centerY: int, diameter: int, rating: real)

  /** An obstacle candidate: its upper-left corner and its extents as the detector measured them. */
  datatype ObstacleCandidate = ObstacleCandidate(upperLeftX: int, upperLeftY: int, width: real, height: real)

  /** Everything the detector stack reports for one frame. */
  datatype Detections = Detections(
    topCandidate: Option<BallCandidate>,
    redObstacles: seq<ObstacleCandidate>,
    blueObstacles: seq<ObstacleCandidate>,
    otherObstacles: seq<ObstacleCandidate>,
    linePoints: seq<Point>,
    horizonPoints: seq<Point>,
    croppedImage: ImageWithRegionOfInterest)

  /** The player number written on every obstacle that has a team colour. */
  const TeamPlayerNumber: int := 42

  /** The selector value of the heatmap ball strategy. */
  const FcnnClassifier: string := "fcnn"

  /** Python's int() of a float: truncation toward zero. */
  function TruncateToInt(r: real): (n: int)
    ensures 0.0 <= r ==> n as real <= r < n as real + 1.0
    ensures r < 0.0 ==> n as real - 1.0 < r <= n as real
  {
    if r >= 0.0 then r.Floor else -((-r).Floor)
  }

  /** The ball message of a frame, or None when the gate suppresses it. */
  function BallsMessage(header: Header, top: Option<BallCandidate>, threshold: real): Option<BallsInImage>
  {
    if top.Some? && top.value.rating > threshold then
      var c := top.value;
      Some(BallsInImage(header, [BallInImage(Point(c.centerX, c.centerY), c.diameter, 1.0)]))
    else
      None
  }

  /** One obstacle message entry for a candidate of the given colour class. */
  function ObstacleMessage(o: ObstacleCandidate, color: ObstacleColor, playerNumber: int): ObstacleInImage
  {
    ObstacleInImage(color, Point(o.upperLeftX, o.upperLeftY), TruncateToInt(o.height), TruncateToInt(o.width),
                    1.0, playerNumber)
  }

  /** The entries for one colour group, in the detector's order. */
  function TaggedObstacles(obs: seq<ObstacleCandidate>, color: ObstacleColor, playerNumber: int): seq<ObstacleInImage>
  {
    seq(|obs|, i requires 0 <= i < |obs| => ObstacleMessage(obs[i], color, playerNumber))
  }

  /** The obstacle message of a frame: red, then blue, then the other obstacles. */
  function ObstaclesMessage(header: Header, d: Detections): ObstaclesInImage
  {
    ObstaclesInImage(header,
      TaggedObstacles(d.redObstacles, RobotMagenta, TeamPlayerNumber)
      + TaggedObstacles(d.blueObstacles, RobotCyan, TeamPlayerNumber)
      + TaggedObstacles(d.otherObstacles, Undefined, DefaultPlayerNumber))
  }

  /** The line message of a frame: one zero-length segment per line point. */
  function LineMessage(header: Header, points: seq<Point>): LineInformationInImage
  {
    LineInformationInImage(header, seq(|points|, i requires 0 <= i < |points| => LineSegmentInImage(points[i], points[i])))
  }

  /** The horizon message the node builds on every frame (and never publishes). */
  function HorizonMessage(header: Header, points: seq<Point>): HorizonInImage
  {
    HorizonInImage(header, points)
  }

  /** One call of a publisher's publish(). */
  datatype Publication =
    | PublishBalls(balls: BallsInImage)
    | PublishObstacles(obstacles: ObstaclesInImage)
    | PublishLines(lines: LineInformationInImage)
    | PublishFcnnImage(region: ImageWithRegionOfInterest)
    | PublishDebugImage   // the debug drawing of the frame; its pixels are not modelled

  /** The publications of one frame, in the order the node makes them. */
  function FramePublications(header: Header, d: Detections, threshold: real, classifier: string,
                             publishFcnnOutput: bool, debugImageMsg: bool): seq<Publication>
  {
    (match BallsMessage(header, d.topCandidate, threshold)
     case Some(m) => [PublishBalls(m)]
     case None => [])
    + [PublishObstacles(ObstaclesMessage(header, d)), PublishLines(LineMessage(header, d.linePoints))]
    + (if publishFcnnOutput && classifier == FcnnClassifier then [PublishFcnnImage(d.croppedImage)] else [])
    + (if debugImageMsg then [PublishDebugImage] else [])
  }

  /** The gate is strict: a top candidate whose rating equals the threshold is not published,
      and a published message holds exactly that candidate with confidence 1. */
  lemma BallGate(header: Header, top: Option<BallCandidate>, threshold: real)
    ensures BallsMessage(header, top, threshold).Some? <==> top.Some? && top.value.rating > threshold
    ensures top.Some? && top.value.rating == threshold ==> BallsMessage(header, top, threshold).None?
    ensures BallsMessage(header, top, threshold).Some? ==>
      var m := BallsMessage(header, top, threshold).value;
      && m.header == header
      && |m.candidates| == 1
      && m.candidates[0].center == Point(top.value.centerX, top.value.centerY)
      && m.candidates[0].diameter == top.value.diameter
      && m.candidates[0].confidence == 1.0
  {
  }

  /** The obstacle message lists the red, blue and other obstacles group after group, each
      group in input order, with its colour tag, confidence 1.0, and player number 42 exactly
      on the coloured ones. */
  lemma ObstaclesMessageLayout(header: Header, d: Detections)
    ensures var m := ObstaclesMessage(header, d);
      && m.header == header
      && |m.obstacles| == |d.redObstacles| + |d.blueObstacles| + |d.otherObstacles|
      && (forall i :: 0 <= i < |d.redObstacles| ==>
            m.obstacles[i] == ObstacleMessage(d.redObstacles[i], RobotMagenta, TeamPlayerNumber))
      && (forall i :: 0 <= i < |d.blueObstacles| ==>
            m.obstacles[|d.redObstacles| + i] == ObstacleMessage(d.blueObstacles[i], RobotCyan, TeamPlayerNumber))
      && (forall i :: 0 <= i < |d.otherObstacles| ==>
            m.obstacles[|d.redObstacles| + |d.blueObstacles| + i]
              == ObstacleMessage(d.otherObstacles[i], Undefined, DefaultPlayerNumber))
      && (forall i :: 0 <= i < |m.obstacles| ==> m.obstacles[i].confidence == 1.0)
      && (forall i :: 0 <= i < |m.obstacles| ==>
            (m.obstacles[i].playerNumber == TeamPlayerNumber <==> m.obstacles[i].color != Undefined))
  {
  }

  /** An entry keeps the candidate's corner, and its extents are the candidate's extents
      rounded toward zero. */
  lemma ObstacleMessageGeometry(o: ObstacleCandidate, color: ObstacleColor, playerNumber: int)
    ensures var m := ObstacleMessage(o, color, playerNumber);
      && m.topLeft == Point(o.upperLeftX, o.upperLeftY)
      && (0.0 <= o.width ==> 0 <= m.width && m.width as real <= o.width < m.width as real + 1.0)
      && (0.0 <= o.height ==> 0 <= m.height && m.height as real <= o.height < m.height as real + 1.0)
  {
  }

  /** Every line point becomes one segment that starts and ends at that point; count and
      order follow the line points. */
  lemma LineSegmentsAreDegenerate(header: Header, points: seq<Point>)
    ensures var m := LineMessage(header, points);
      && m.header == header
      && |m.segments| == |points|
      && forall i :: 0 <= i < |points| ==> m.segments[i].start == points[i] && m.segments[i].end == points[i]
  {
  }

  /** Obstacles and lines are published on every frame whatever the ball gate decides; the ball
      message is published iff the gate lets it through; the FCNN region is published iff its
      flag is set and the FCNN strategy is active, independently of the gate; the debug image is
      published iff debug image messages are on; nothing else is published (in particular no
      horizon message). */
  lemma FramePublicationsShape(header: Header, d: Detections, threshold: real, classifier: string,
                               publishFcnnOutput: bool, debugImageMsg: bool)
    ensures var pubs := FramePublications(header, d, threshold, classifier, publishFcnnOutput, debugImageMsg);
      && PublishObstacles(ObstaclesMessage(header, d)) in pubs
      && PublishLines(LineMessage(header, d.linePoints)) in pubs
      && ((exists p :: p in pubs && p.PublishBalls?) <==>
            d.topCandidate.Some? && d.topCandidate.value.rating > threshold)
      && ((exists p :: p in pubs && p.PublishFcnnImage?) <==> publishFcnnOutput && classifier == FcnnClassifier)
      && (PublishDebugImage in pubs <==> debugImageMsg)
      && |pubs| == 2 + (if BallsMessage(header, d.topCandidate, threshold).Some? then 1 else 0)
                     + (if publishFcnnOutput && classifier == FcnnClassifier then 1 else 0)
                     + (if debugImageMsg then 1 else 0)
  {
    var pubs := FramePublications(header, d, threshold, classifier, publishFcnnOutput, debugImageMsg);
    var balls := BallsMessage(header, d.topCandidate, threshold);
    var fcnn := publishFcnnOutput && classifier == FcnnClassifier;
    if balls.Some? {
      assert pubs[0] == PublishBalls(balls.value);
    }
    if fcnn {
      assert pubs[|pubs| - 1 - (if debugImageMsg then 1 else 0)].PublishFcnnImage?;
    }
    if debugImageMsg {
      assert pubs[|pubs| - 1] == PublishDebugImage;
    }
  }
}
