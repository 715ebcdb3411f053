/** The vision node's object (class Vision in vision.py): the per-frame handler and the
    reconfigure callback that rebuilds its detector stack. The detectors, the ROS transport and
    the file system are outside the model: detector results arrive as a Detections value, the
    existing files as a set of paths, and subscribers and publishers as Binding values whose
    registrations are returned as a list of transport actions. The node's attributes are
    grouped by what builds them: the plain parameters, the detector stack, the ball stack and
    the transport. */
module Vision {
  import opened Wrappers
  import opened Messages
  import opened VisionOutput
  import opened VisionConfig

  datatype ArtifactKind =
    | WhiteColorDetector | RedColorDetector | BlueColorDetector | FieldColorDetector
    | HorizonDetector | LineDetector | ObstacleDetector
    | CascadeClassifier | LiveClassifier | Fcnn03
    | DummyBallDetector | ClassifierHandler | FcnnHandler | BallFinder

  /** A detector or model object the callback constructs: what it is, the file it was loaded
      from ("" when none), the objects it was built on, and the number of the reconfiguration
      that built it. Objects built by different calls are different objects. */
  datatype Artifact = Artifact(kind: ArtifactKind, source: string, parts: seq<Artifact>, builtAt: nat)

  /** The plain parameters the callback takes over on every call (lines 212-226). */
  datatype Parameters = Parameters(
    threshold: real,
    yOffset: Option<Value>,
    debugImage: bool,
    debugImageMsg: bool,
    debug: bool,
    fcnnPublishOutput: bool)

  /** The parameters a snapshot sets; debug output is on when either debug flag is. */
  function ParametersOf(c: Config): (p: Parameters)
    ensures p.debug <==> c.debugImage || c.debugImageMsg
    ensures p.threshold == c.ballCandidateRatingThreshold && p.fcnnPublishOutput == c.ballFcnnPublishOutput
  {
    Parameters(c.ballCandidateRatingThreshold, Some(c.ballCandidateHorizonYOffset),
               c.debugImage, c.debugImageMsg, c.debugImage || c.debugImageMsg, c.ballFcnnPublishOutput)
  }

  /** The colour detectors and the detectors built on them (lines 232-273). */
  datatype Detectors = Detectors(
    white: Artifact,
    red: Artifact,
    blue: Artifact,
    field: Artifact,
    horizon: Artifact,
    line: Artifact,
    obstacle: Artifact)

  /** The wiring of lines 232-273 for reconfiguration `n`: every detector is built by that call,
      the field colour detector is loaded from `fieldPath`, the horizon detector works on the
      field colour detector, the line detector on the white, field colour and horizon detectors,
      and the obstacle detector on the red, blue, white and horizon detectors, the very objects
      held next to them. */
  predicate DetectorStack(d: Detectors, fieldPath: string, n: nat)
  {
    && d.white == Artifact(WhiteColorDetector, "", [], n)
    && d.red == Artifact(RedColorDetector, "", [], n)
    && d.blue == Artifact(BlueColorDetector, "", [], n)
    && d.field == Artifact(FieldColorDetector, fieldPath, [], n)
    && d.horizon == Artifact(HorizonDetector, "", [d.field], n)
    && d.line == Artifact(LineDetector, "", [d.white, d.field, d.horizon], n)
    && d.obstacle == Artifact(ObstacleDetector, "", [d.red, d.blue, d.white, d.horizon], n)
  }

  /** Lines 232-273: build the colour detectors, then the detectors that work on them. */
  method BuildDetectors(fieldPath: string, n: nat) returns (d: Detectors)
    ensures DetectorStack(d, fieldPath, n)
  {
    var white := Artifact(WhiteColorDetector, "", [], n);
    var red := Artifact(RedColorDetector, "", [], n);
    var blue := Artifact(BlueColorDetector, "", [], n);
    var field := Artifact(FieldColorDetector, fieldPath, [], n);
    var horizon := Artifact(HorizonDetector, "", [field], n);
    var line := Artifact(LineDetector, "", [white, field, horizon], n);
    var obstacle := Artifact(ObstacleDetector, "", [red, blue, white, horizon], n);
    d := Detectors(white, red, blue, field, horizon, line, obstacle);
  }

  /** The configuration handed to the FCNN ball handler (lines 300-310). */
  datatype FcnnConfig = FcnnConfig(
    debug: bool,
    threshold: Value,
    expandStepsize: Value,
    pointcloudStepsize: Value,
    shuffleCandidateList: Value,
    minCandidateDiameter: Value,
    maxCandidateDiameter: Value,
    candidateRefinementIterationCount: Value,
    publishHorizonOffset: Value)

  /** The handler's configuration for a snapshot: its debug output needs both the FCNN debug
      flag and debug images; the tuning values are passed on unchanged. */
  function FcnnConfigOf(c: Config, debugImage: bool): (f: FcnnConfig)
    ensures f.debug <==> c.ballFcnnDebug && debugImage
    ensures f.threshold == c.ballFcnnThreshold && f.publishHorizonOffset == c.ballFcnnPublishHorizonOffset
  {
    FcnnConfig(c.ballFcnnDebug && debugImage, c.ballFcnnThreshold, c.ballFcnnExpandStepsize,
               c.ballFcnnPointcloudStepsize, c.ballFcnnShuffleCandidateList, c.ballFcnnMinBallDiameter,
               c.ballFcnnMaxBallDiameter, c.ballFcnnCandidateRefinementIterationCount, c.ballFcnnPublishHorizonOffset)
  }

  /** The ball attributes: the cascade's path and object, the live classifier, the FCNN model,
      the ball detector the frame handler asks, the cascade ball finder and the FCNN handler's
      configuration. None is an attribute that was never set. */
  datatype BallStack = BallStack(
    cascadePath: Option<string>,
    cascade: Option<Artifact>,
    classifier: Option<Artifact>,
    fcnn: Option<Artifact>,
    detector: Option<Artifact>,
    finder: Option<Artifact>,
    fcnnConfig: Option<FcnnConfig>)

  /** What the held snapshot guarantees about the ball stack: the model artifacts of the strategy
      it selects exist, and so does the cascade ball finder when that strategy is the cascade. */
  predicate BallStackReady(config: Option<Config>, b: BallStack)
  {
    && (config.Some? && Strategy(config.value) == CascadeStrategy ==>
          b.cascade.Some? && b.classifier.Some? && b.finder.Some?)
    && (config.Some? && Strategy(config.value) == FcnnStrategy ==> b.fcnn.Some?)
  }

  /** The held ball detector is the kind the snapshot's strategy builds (lines 229, 292 and
      322): the cascade branch of the frame handler calls `set_image` with two arguments and the
      FCNN branch with one, and only the FCNN handler has `get_cropped_msg`. A selector that
      names no strategy calls nothing strategy-specific on the detector. */
  predicate DetectorMatches(c: Config, detector: Artifact)
  {
    match Strategy(c)
    case DummyStrategy => detector.kind == DummyBallDetector
    case CascadeStrategy => detector.kind == ClassifierHandler
    case FcnnStrategy => detector.kind == FcnnHandler
    case UnknownStrategy => true
  }

  /** The ball stack after reconfiguration `n` for the snapshot `next`, given the snapshot `prev`
      held before, the ball stack before, and the horizon detector just built (lines 228 and
      275-325). The cascade is loaded only from an existing file, the FCNN model whether or not
      its file exists. `ok` is false when the cascade strategy is selected and no cascade was
      ever loaded: line 294 then evaluates `self.cascade` as the argument of BallFinder, which
      raises AttributeError before BallFinder is called; the callback stops there, and the FCNN
      configuration is not rebuilt. */
  predicate BallStackRebuilt(prev: Option<Config>, next: Config, existing: set<string>, n: nat,
                             packagePath: string, horizon: Artifact, before: BallStack, after: BallStack, ok: bool)
  {
    var p := Plan(prev, next);
    var strategy := Strategy(next);
    var cascadePath := packagePath + next.cascadeClassifierPath;
    && after.cascadePath == (if strategy == CascadeStrategy then Some(cascadePath) else before.cascadePath)
    && after.cascade == (if p.reloadCascade && cascadePath in existing
                         then Some(Artifact(CascadeClassifier, cascadePath, [], n)) else before.cascade)
    && after.classifier == (if p.reloadClassifier
                            then Some(Artifact(LiveClassifier, packagePath + next.classifierModelPath, [], n))
                            else before.classifier)
    && after.fcnn == (if p.reloadFcnn
                      then Some(Artifact(Fcnn03, packagePath + next.ballFcnnModelPath, [], n)) else before.fcnn)
    && (ok <==> !(strategy == CascadeStrategy && after.cascade.None?))
    && (strategy == DummyStrategy ==> after.detector == Some(Artifact(DummyBallDetector, "", [], n)))
    && (strategy == CascadeStrategy ==>
          after.classifier.Some? && after.detector == Some(Artifact(ClassifierHandler, "", [after.classifier.value], n)))
    && (strategy == FcnnStrategy ==>
          after.fcnn.Some? && after.detector == Some(Artifact(FcnnHandler, "", [after.fcnn.value, horizon], n)))
    && (strategy == UnknownStrategy ==> after.detector == before.detector)
    && after.finder == (if strategy == CascadeStrategy && ok
                        then Some(Artifact(BallFinder, "", [after.cascade.value], n)) else before.finder)
    && after.fcnnConfig == (if ok then Some(FcnnConfigOf(next, next.debugImage)) else before.fcnnConfig)
  }

  /** Lines 228 and 275-325: rebuild the ball stack of the selected strategy. */
  method RebuildBallStack(prev: Option<Config>, next: Config, existing: set<string>, n: nat, packagePath: string,
                          horizon: Artifact, before: BallStack) returns (after: BallStack, ok: bool)
    requires BallStackReady(prev, before)
    ensures BallStackRebuilt(prev, next, existing, n, packagePath, horizon, before, after, ok)
    ensures ok ==> BallStackReady(Some(next), after)
  {
    var plan := Plan(prev, next);
    after := before;
    ok := true;
    if Strategy(next) == DummyStrategy {
      after := after.(detector := Some(Artifact(DummyBallDetector, "", [], n)));
    }
    if Strategy(next) == CascadeStrategy {
      var cascadePath := packagePath + next.cascadeClassifierPath;
      after := after.(cascadePath := Some(cascadePath));
      if plan.reloadCascade && cascadePath in existing {
        after := after.(cascade := Some(Artifact(CascadeClassifier, cascadePath, [], n)));
      }
      if plan.reloadClassifier {
        after := after.(classifier := Some(Artifact(LiveClassifier, packagePath + next.classifierModelPath, [], n)));
      } else {
        // Neither the path nor the selector changed, so the previous snapshot selected the
        // cascade strategy too and its classifier exists.
        assert prev.Some? && Strategy(prev.value) == CascadeStrategy;
      }
      after := after.(detector := Some(Artifact(ClassifierHandler, "", [after.classifier.value], n)));
      if after.cascade.None? {
        ok := false;
        return;
      }
      after := after.(finder := Some(Artifact(BallFinder, "", [after.cascade.value], n)));
    }
    after := after.(fcnnConfig := Some(FcnnConfigOf(next, next.debugImage)));
    if Strategy(next) == FcnnStrategy {
      if plan.reloadFcnn {
        after := after.(fcnn := Some(Artifact(Fcnn03, packagePath + next.ballFcnnModelPath, [], n)));
      } else {
        assert prev.Some? && Strategy(prev.value) == FcnnStrategy;
      }
      after := after.(detector := Some(Artifact(FcnnHandler, "", [after.fcnn.value, horizon], n)));
    }
  }

  /** A subscriber or publisher: its topic and its queue size. */
  datatype Binding = Binding(topic: string, queueSize: int)

  datatype TransportAction = Register(binding: Binding) | Unregister(binding: Binding)

  /** The image subscriber, the four publishers the frame handler uses, and the debug image
      publisher. None is an attribute that was never set. */
  datatype Transport = Transport(
    imageSub: Option<Binding>,
    pubBalls: Option<Binding>,
    pubLines: Option<Binding>,
    pubObstacle: Option<Binding>,
    pubBallFcnn: Option<Binding>,
    pubDebugImage: Option<Binding>)

  const NoTransport: Transport := Transport(None, None, None, None, None, None)

  function ImageBinding(c: Config): Binding
  {
    Binding(c.imgMsgTopic, c.imgQueueSize)
  }

  function BallsBinding(c: Config): Binding
  {
    Binding(c.ballMsgTopic, 1)
  }

  function LinesBinding(c: Config): Binding
  {
    Binding(c.lineMsgTopic, 5)
  }

  function ObstaclesBinding(c: Config): Binding
  {
    Binding(c.obstacleMsgTopic, 3)
  }

  function FcnnImageBinding(c: Config): Binding
  {
    Binding(c.fcnnImgMsgTopic, 1)
  }

  /** The debug image publisher, created anew on every reconfiguration. */
  const DebugImageBinding: Binding := Binding("debug_image", 1)

  /** Re-registering a binding: unregister the current one if there is one, then register. */
  function Rebind(current: Option<Binding>, replacement: Binding, stale: bool): seq<TransportAction>
  {
    if !stale then []
    else (if current.Some? then [Unregister(current.value)] else []) + [Register(replacement)]
  }

  /** The binding held after a reconfiguration: the replacement when stale, else the current one. */
  function Rebound(current: Option<Binding>, replacement: Binding, stale: bool): Option<Binding>
  {
    if stale then Some(replacement) else current
  }

  /** The transport actions of one reconfiguration, given the transport held before it: every
      stale binding in the order of lines 327-375, then the debug image publisher. */
  function TransportActions(t: Transport, p: RebuildPlan, next: Config): seq<TransportAction>
  {
    Rebind(t.imageSub, ImageBinding(next), p.rebindImage)
    + Rebind(t.pubBalls, BallsBinding(next), p.rebindBalls)
    + Rebind(t.pubLines, LinesBinding(next), p.rebindLines)
    + Rebind(t.pubObstacle, ObstaclesBinding(next), p.rebindObstacles)
    + Rebind(t.pubBallFcnn, FcnnImageBinding(next), p.rebindFcnnImage)
    + [Register(DebugImageBinding)]
  }

  /** The transport after a reconfiguration from `prev` to `next`, given the transport held
      before, and the transport actions it took (lines 327-381). */
  predicate TransportRebound(prev: Option<Config>, next: Config, before: Transport, after: Transport,
                             actions: seq<TransportAction>)
  {
    var p := Plan(prev, next);
    && after.imageSub == Rebound(before.imageSub, ImageBinding(next), p.rebindImage)
    && after.pubBalls == Rebound(before.pubBalls, BallsBinding(next), p.rebindBalls)
    && after.pubLines == Rebound(before.pubLines, LinesBinding(next), p.rebindLines)
    && after.pubObstacle == Rebound(before.pubObstacle, ObstaclesBinding(next), p.rebindObstacles)
    && after.pubBallFcnn == Rebound(before.pubBallFcnn, FcnnImageBinding(next), p.rebindFcnnImage)
    && after.pubDebugImage == Some(DebugImageBinding)
    && actions == TransportActions(before, p, next)
  }

  /** One block of lines 327-375: when the binding is stale, unregister the current one if the
      attribute exists and register the replacement. */
  method RebindOne(current: Option<Binding>, replacement: Binding, stale: bool)
    returns (held: Option<Binding>, taken: seq<TransportAction>)
    ensures held == Rebound(current, replacement, stale) && taken == Rebind(current, replacement, stale)
  {
    held, taken := current, [];
    if stale {
      if current.Some? {
        taken := [Unregister(current.value)];
      }
      held := Some(replacement);
      taken := taken + [Register(replacement)];
    }
  }

  /** Lines 327-381: re-register every stale binding, then create the debug image publisher. */
  method RebindTransport(prev: Option<Config>, next: Config, before: Transport)
    returns (after: Transport, actions: seq<TransportAction>)
    ensures TransportRebound(prev, next, before, after, actions)
  {
    var plan := Plan(prev, next);
    var image, a1 := RebindOne(before.imageSub, ImageBinding(next), plan.rebindImage);
    var balls, a2 := RebindOne(before.pubBalls, BallsBinding(next), plan.rebindBalls);
    var lines, a3 := RebindOne(before.pubLines, LinesBinding(next), plan.rebindLines);
    var obstacles, a4 := RebindOne(before.pubObstacle, ObstaclesBinding(next), plan.rebindObstacles);
    var fcnnImage, a5 := RebindOne(before.pubBallFcnn, FcnnImageBinding(next), plan.rebindFcnnImage);
    after := Transport(image, balls, lines, obstacles, fcnnImage, Some(DebugImageBinding));
    actions := a1 + a2 + a3 + a4 + a5 + [Register(DebugImageBinding)];
  }

  /** The model files: a cascade whose file is missing keeps the cascade held before (on the
      first reconfiguration there is none, and the callback stops); an FCNN model due for
      reloading is built from its path whether or not the file exists. */
  lemma MissingModelFiles(prev: Option<Config>, next: Config, existing: set<string>, n: nat, packagePath: string,
                          horizon: Artifact, before: BallStack, after: BallStack, ok: bool)
    requires BallStackRebuilt(prev, next, existing, n, packagePath, horizon, before, after, ok)
    ensures packagePath + next.cascadeClassifierPath !in existing ==> after.cascade == before.cascade
    ensures Plan(prev, next).reloadFcnn ==>
      after.fcnn == Some(Artifact(Fcnn03, packagePath + next.ballFcnnModelPath, [], n))
    ensures (prev.None? && Strategy(next) == CascadeStrategy && before.cascade.None? &&
             packagePath + next.cascadeClassifierPath !in existing) ==> !ok
  {
  }

  /** A reconfiguration that changes none of the selector, the model paths and the topics keeps
      every model and every binding, and its only transport action is the new debug image
      publisher. */
  lemma QuietReconfiguration(prev: Config, next: Config, existing: set<string>, n: nat, packagePath: string,
                             horizon: Artifact, before: BallStack, after: BallStack, ok: bool,
                             transportBefore: Transport, transportAfter: Transport, actions: seq<TransportAction>)
    requires AgreeOnPlanKeys(prev, next)
    requires BallStackRebuilt(Some(prev), next, existing, n, packagePath, horizon, before, after, ok)
    requires TransportRebound(Some(prev), next, transportBefore, transportAfter, actions)
    ensures after.cascade == before.cascade && after.classifier == before.classifier && after.fcnn == before.fcnn
    ensures transportAfter == transportBefore.(pubDebugImage := Some(DebugImageBinding))
    ensures actions == [Register(DebugImageBinding)]
  {
    UnrelatedChangeIsQuiet(prev, next);
  }

  /** The first reconfiguration registers every binding, and nothing is unregistered since no
      attribute existed before. */
  lemma FirstReconfigurationRegistersAll(next: Config, transportAfter: Transport, actions: seq<TransportAction>)
    requires TransportRebound(None, next, NoTransport, transportAfter, actions)
    ensures transportAfter == Transport(Some(ImageBinding(next)), Some(BallsBinding(next)), Some(LinesBinding(next)),
                                        Some(ObstaclesBinding(next)), Some(FcnnImageBinding(next)),
                                        Some(DebugImageBinding))
    ensures actions == [Register(ImageBinding(next)), Register(BallsBinding(next)), Register(LinesBinding(next)),
                        Register(ObstaclesBinding(next)), Register(FcnnImageBinding(next)),
                        Register(DebugImageBinding)]
  {
    FirstSnapshotBuildsEverything(next);
  }

  /** A first snapshot whose selector names none of the strategies is accepted, yet it builds no
      ball detector: every later frame then fails before publishing (see HandleImage). */
  lemma UnknownSelectorBuildsNoDetector(next: Config, existing: set<string>, n: nat, packagePath: string,
                                        horizon: Artifact, after: BallStack, ok: bool)
    requires Strategy(next) == UnknownStrategy
    requires BallStackRebuilt(None, next, existing, n, packagePath, horizon,
                              BallStack(None, None, None, None, None, None, None), after, ok)
    ensures ok && after.detector.None?
    ensures BallStackReady(Some(next), after)
  {
  }

  /** A cascade call that fails at line 294 has already replaced the ball detector with a
      classifier handler at line 292, while the snapshot held before is kept: when that snapshot
      selected the FCNN or the dummy, the held detector no longer matches it. */
  lemma FailedCascadeCallMismatches(prev: Config, next: Config, existing: set<string>, n: nat,
                                    packagePath: string, horizon: Artifact, before: BallStack, after: BallStack)
    requires Strategy(prev) == FcnnStrategy || Strategy(prev) == DummyStrategy
    requires Strategy(next) == CascadeStrategy
    requires BallStackRebuilt(Some(prev), next, existing, n, packagePath, horizon, before, after, false)
    ensures after.detector.Some? && after.detector.value.kind == ClassifierHandler
    ensures !DetectorMatches(prev, after.detector.value)
  {
  }

  /** Lines 78-199: the publications of one frame handled with a ball detector in place: the
      gated ball, the tagged obstacles, the line segments, the FCNN image and the debug image,
      in the order the handler publishes them; the horizon message is assembled and dropped. */
  method AssembleFrame(header: Header, d: Detections, threshold: real, classifier: string,
                       publishFcnnOutput: bool, debugImageMsg: bool) returns (published: seq<Publication>)
    ensures published == FramePublications(header, d, threshold, classifier, publishFcnnOutput, debugImageMsg)
  {
    published := [];
    var top := d.topCandidate;
    if top.Some? && top.value.rating > threshold {
      var ball := BallInImage(Point(top.value.centerX, top.value.centerY), top.value.diameter, 1.0);
      published := published + [PublishBalls(BallsInImage(header, [ball]))];
    }
    assert published == match BallsMessage(header, d.topCandidate, threshold)
                        case Some(m) => [PublishBalls(m)]
                        case None => [];

    var obstacles: seq<ObstacleInImage> := [];
    for i := 0 to |d.redObstacles|
      invariant obstacles == TaggedObstacles(d.redObstacles[..i], RobotMagenta, TeamPlayerNumber)
    {
      obstacles := obstacles + [ObstacleMessage(d.redObstacles[i], RobotMagenta, TeamPlayerNumber)];
    }
    assert d.redObstacles[..|d.redObstacles|] == d.redObstacles;
    var red := obstacles;
    for i := 0 to |d.blueObstacles|
      invariant obstacles == red + TaggedObstacles(d.blueObstacles[..i], RobotCyan, TeamPlayerNumber)
    {
      obstacles := obstacles + [ObstacleMessage(d.blueObstacles[i], RobotCyan, TeamPlayerNumber)];
    }
    assert d.blueObstacles[..|d.blueObstacles|] == d.blueObstacles;
    var redAndBlue := obstacles;
    for i := 0 to |d.otherObstacles|
      invariant obstacles == redAndBlue + TaggedObstacles(d.otherObstacles[..i], Undefined, DefaultPlayerNumber)
    {
      obstacles := obstacles + [ObstacleMessage(d.otherObstacles[i], Undefined, DefaultPlayerNumber)];
    }
    assert d.otherObstacles[..|d.otherObstacles|] == d.otherObstacles;
    assert obstacles == ObstaclesMessage(header, d).obstacles;
    published := published + [PublishObstacles(ObstaclesInImage(header, obstacles))];

    var segments: seq<LineSegmentInImage> := [];
    for i := 0 to |d.linePoints|
      invariant |segments| == i
      invariant forall k :: 0 <= k < i ==> segments[k] == LineSegmentInImage(d.linePoints[k], d.linePoints[k])
    {
      var start := d.linePoints[i];
      segments := segments + [LineSegmentInImage(start, start)];
    }
    assert segments == LineMessage(header, d.linePoints).segments;
    published := published + [PublishLines(LineInformationInImage(header, segments))];

    var horizonMsg := HorizonMessage(header, d.horizonPoints);

    if publishFcnnOutput && classifier == FcnnClassifier {
      published := published + [PublishFcnnImage(d.croppedImage)];
    }

    if debugImageMsg {
      published := published + [PublishDebugImage];
    }
  }

  class Vision {
    const packagePath: string

    /** How many times the reconfigure callback has run; it stamps what each call builds. */
    var reconfigurations: nat

    /** The last snapshot the callback accepted; None is the empty dictionary of line 30. */
    var config: Option<Config>
    var parameters: Parameters
    var detectors: Option<Detectors>
    var ball: BallStack
    var transport: Transport

    /** The model artifacts of the selected strategy exist, and once a snapshot was accepted the
        detectors exist. */
    ghost predicate Valid()
      reads this
    {
      && BallStackReady(config, ball)
      && (config.Some? ==> detectors.Some?)
    }

    /** Line 30: the node before its first configuration, with an empty snapshot and nothing
        built or registered. */
    constructor (packagePath: string)
      ensures Valid() && this.packagePath == packagePath && config == None && reconfigurations == 0
      ensures detectors == None && ball == BallStack(None, None, None, None, None, None, None)
      ensures transport == NoTransport
    {
      this.packagePath := packagePath;
      reconfigurations := 0;
      config := None;
      parameters := Parameters(0.0, None, false, false, false, false);
      detectors := None;
      ball := BallStack(None, None, None, None, None, None, None);
      transport := NoTransport;
    }

    /** Lines 42-199: one camera frame. A node that has no snapshot or no ball detector fails
        before it publishes anything: the snapshot lookup of line 53 raises KeyError, and the
        ball detector is read at line 66 or 75, raising AttributeError when no call ever set it
        (a first snapshot whose selector names no strategy). A held detector that does not
        match the snapshot (see FailedCascadeCallMismatches) is reported as a failed frame too.
        Otherwise gate and assemble the detections and return what is published, in order; the
        horizon message is assembled and dropped. */
    method HandleImage(header: Header, d: Detections) returns (published: seq<Publication>, ok: bool)
      requires Valid()
      ensures ok <==> config.Some? && ball.detector.Some? && DetectorMatches(config.value, ball.detector.value)
      ensures !ok ==> published == []
      ensures ok ==> published == FramePublications(header, d, parameters.threshold, config.value.ballClassifier,
                                                    parameters.fcnnPublishOutput,
                                                    parameters.debug && parameters.debugImageMsg)
    {
      if config.None? || ball.detector.None? || !DetectorMatches(config.value, ball.detector.value) {
        return [], false;
      }
      ok := true;
      published := AssembleFrame(header, d, parameters.threshold, config.value.ballClassifier,
                                 parameters.fcnnPublishOutput, parameters.debug && parameters.debugImageMsg);
    }

    /** Lines 205-385: _dynamic_reconfigure_callback for the snapshot `next`; `existing` holds
        the paths that exist on disk. `ok` is false when the callback stops with an exception at
        line 294 (see BallStackRebuilt): what comes after it is then not done. */
    method ReconfigureCallback(next: Config, existing: set<string>) returns (ok: bool, actions: seq<TransportAction>)
      requires Valid()
      modifies this
      ensures Valid() && reconfigurations == old(reconfigurations) + 1
      ensures parameters == ParametersOf(next)
      // The colour, horizon, line and obstacle detectors are rebuilt on every call.
      ensures detectors.Some? && DetectorStack(detectors.value, packagePath + next.fieldColorDetectorPath, reconfigurations)
      ensures BallStackRebuilt(old(config), next, existing, reconfigurations, packagePath, detectors.value.horizon,
                               old(ball), ball, ok)
      // A failed call registers nothing and keeps the previous snapshot.
      ensures !ok ==> config == old(config) && transport == old(transport) && actions == []
      // A successful call re-registers exactly the stale bindings, recreates the debug publisher
      // and takes over the new snapshot.
      ensures ok ==> config == Some(next) && TransportRebound(old(config), next, old(transport), transport, actions)
    {
      reconfigurations := reconfigurations + 1;
      parameters := ParametersOf(next);
      // The dummy detector (line 228) is set before the detectors are built; the two touch
      // different attributes, so RebuildBallStack sets it afterwards.
      var d := BuildDetectors(packagePath + next.fieldColorDetectorPath, reconfigurations);
      detectors := Some(d);
      var b;
      b, ok := RebuildBallStack(config, next, existing, reconfigurations, packagePath, d.horizon, ball);
      ball := b;
      if !ok {
        actions := [];
        return;
      }
      var t;
      t, actions := RebindTransport(config, next, transport);
      transport := t;
      config := Some(next);
    }
  }
}
