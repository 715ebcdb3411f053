/** The configuration snapshot the vision node receives from dynamic_reconfigure and the
    decisions _dynamic_reconfigure_callback (vision.py) takes by comparing it with the
    previous snapshot: which expensive ball artifacts are reloaded and which topic bindings
    are registered again. */
module VisionConfig {
  import opened Wrappers

  /** A value the callback only passes on, in whatever form dynamic_reconfigure delivers it. */
  datatype Value = Text(text: string) | Flag(flag: bool) | Number(number: int) | Decimal(decimal: real)

  /** One snapshot of the parameters the callback reads. dynamic_reconfigure always delivers
      every parameter, so a snapshot is a record with one field per parameter name
      (vision_ball_classifier, cascade_classifier_path, ...). The node's own copy starts as the
      empty dictionary, which is `None` in an `Option<Config>`. */
  datatype Config = Config(
    ballClassifier: string,
    cascadeClassifierPath: string,
    classifierModelPath: string,
    ballFcnnModelPath: string,
    fieldColorDetectorPath: string,
    ballCandidateRatingThreshold: real,
    ballCandidateHorizonYOffset: Value,
    debugImage: bool,
    debugImageMsg: bool,
    ballFcnnPublishOutput: bool,
    ballFcnnDebug: bool,
    imgMsgTopic: string,
    imgQueueSize: int,
    ballMsgTopic: string,
    lineMsgTopic: string,
    obstacleMsgTopic: string,
    fcnnImgMsgTopic: string,
    ballFcnnThreshold: Value,
    ballFcnnExpandStepsize: Value,
    ballFcnnPointcloudStepsize: Value,
    ballFcnnShuffleCandidateList: Value,
    ballFcnnMinBallDiameter: Value,
    ballFcnnMaxBallDiameter: Value,
    ballFcnnCandidateRefinementIterationCount: Value,
    ballFcnnPublishHorizonOffset: Value)

  /** The ball strategy a snapshot selects. */
  datatype BallStrategy = DummyStrategy | CascadeStrategy | FcnnStrategy | UnknownStrategy

  function Strategy(c: Config): (s: BallStrategy)
    ensures s == DummyStrategy <==> c.ballClassifier == "dummy"
    ensures s == CascadeStrategy <==> c.ballClassifier == "cascade"
    ensures s == FcnnStrategy <==> c.ballClassifier == "fcnn"
  {
    match c.ballClassifier
    case "dummy" => DummyStrategy
    case "cascade" => CascadeStrategy
    case "fcnn" => FcnnStrategy
    case _ => UnknownStrategy
  }

  /** The decisions the callback takes for one new snapshot. Artifacts of a strategy are only
      considered while that strategy is selected. */
  datatype RebuildPlan = RebuildPlan(
    reloadCascade: bool,
    reloadClassifier: bool,
    reloadFcnn: bool,
    rebindImage: bool,
    rebindBalls: bool,
    rebindLines: bool,
    rebindObstacles: bool,
    rebindFcnnImage: bool)

  /** Each test reads `key not in self.config or self.config[key] != config[key]`, where the key
      is missing exactly when there is no previous snapshot; an artifact is also stale when the
      strategy selector changed. */
  function Plan(prev: Option<Config>, next: Config): RebuildPlan
  {
    var first := prev.None?;
    var selectorChanged := first || prev.value.ballClassifier != next.ballClassifier;
    RebuildPlan(
      Strategy(next) == CascadeStrategy
        && (first || prev.value.cascadeClassifierPath != next.cascadeClassifierPath || selectorChanged),
      Strategy(next) == CascadeStrategy
        && (first || prev.value.classifierModelPath != next.classifierModelPath || selectorChanged),
      Strategy(next) == FcnnStrategy
        && (first || prev.value.ballFcnnModelPath != next.ballFcnnModelPath || selectorChanged),
      first || prev.value.imgMsgTopic != next.imgMsgTopic,
      first || prev.value.ballMsgTopic != next.ballMsgTopic,
      first || prev.value.lineMsgTopic != next.lineMsgTopic,
      first || prev.value.obstacleMsgTopic != next.obstacleMsgTopic,
      first || prev.value.fcnnImgMsgTopic != next.fcnnImgMsgTopic)
  }

  /** Nothing is reloaded or re-registered. */
  predicate Quiet(p: RebuildPlan)
  {
    !p.reloadCascade && !p.reloadClassifier && !p.reloadFcnn
    && !p.rebindImage && !p.rebindBalls && !p.rebindLines && !p.rebindObstacles && !p.rebindFcnnImage
  }

  /** The two snapshots agree on the topics. */
  predicate SameTopics(a: Config, b: Config)
  {
    && a.imgMsgTopic == b.imgMsgTopic && a.ballMsgTopic == b.ballMsgTopic && a.lineMsgTopic == b.lineMsgTopic
    && a.obstacleMsgTopic == b.obstacleMsgTopic && a.fcnnImgMsgTopic == b.fcnnImgMsgTopic
  }

  /** The two snapshots agree on every parameter the plan compares. */
  predicate AgreeOnPlanKeys(a: Config, b: Config)
  {
    && a.ballClassifier == b.ballClassifier && a.cascadeClassifierPath == b.cascadeClassifierPath
    && a.classifierModelPath == b.classifierModelPath && a.ballFcnnModelPath == b.ballFcnnModelPath
    && SameTopics(a, b)
  }

  /** The first snapshot registers every binding and loads every artifact of the selected
      strategy, and only those. */
  lemma FirstSnapshotBuildsEverything(next: Config)
    ensures var p := Plan(None, next);
      && p.rebindImage && p.rebindBalls && p.rebindLines && p.rebindObstacles && p.rebindFcnnImage
      && (p.reloadCascade <==> Strategy(next) == CascadeStrategy)
      && (p.reloadClassifier <==> Strategy(next) == CascadeStrategy)
      && (p.reloadFcnn <==> Strategy(next) == FcnnStrategy)
  {
  }

  /** Two snapshots that differ only in parameters outside the plan keys (thresholds, colour
      ranges, debug flags, FCNN tuning, the queue size) reload and re-register nothing. */
  lemma UnrelatedChangeIsQuiet(prev: Config, next: Config)
    requires AgreeOnPlanKeys(prev, next)
    ensures Quiet(Plan(Some(prev), next))
  {
  }

  /** Re-delivering the same snapshot reloads and re-registers nothing. */
  lemma SameSnapshotIsQuiet(c: Config)
    ensures Quiet(Plan(Some(c), c))
  {
    UnrelatedChangeIsQuiet(c, c);
  }

  /** Switching the strategy selector reloads every artifact of the newly selected strategy even
      when its paths are unchanged, reloads nothing of the other strategies, and touches no
      binding when the topics are unchanged. */
  lemma StrategySwitchForcesReload(prev: Config, next: Config)
    requires prev.ballClassifier != next.ballClassifier
    requires SameTopics(prev, next)
    ensures var p := Plan(Some(prev), next);
      && (p.reloadCascade <==> Strategy(next) == CascadeStrategy)
      && (p.reloadClassifier <==> Strategy(next) == CascadeStrategy)
      && (p.reloadFcnn <==> Strategy(next) == FcnnStrategy)
      && !p.rebindImage && !p.rebindBalls && !p.rebindLines && !p.rebindObstacles && !p.rebindFcnnImage
  {
  }

  /** With the selector unchanged, an artifact is reloaded exactly when its own path changed
      (and its strategy is selected); a binding is re-registered exactly when its own topic
      changed. */
  lemma ChangesAreLocal(prev: Config, next: Config)
    requires prev.ballClassifier == next.ballClassifier
    ensures var p := Plan(Some(prev), next);
      && (p.reloadCascade <==>
            Strategy(next) == CascadeStrategy && prev.cascadeClassifierPath != next.cascadeClassifierPath)
      && (p.reloadClassifier <==>
            Strategy(next) == CascadeStrategy && prev.classifierModelPath != next.classifierModelPath)
      && (p.reloadFcnn <==> Strategy(next) == FcnnStrategy && prev.ballFcnnModelPath != next.ballFcnnModelPath)
      && (p.rebindImage <==> prev.imgMsgTopic != next.imgMsgTopic)
      && (p.rebindBalls <==> prev.ballMsgTopic != next.ballMsgTopic)
      && (p.rebindLines <==> prev.lineMsgTopic != next.lineMsgTopic)
      && (p.rebindObstacles <==> prev.obstacleMsgTopic != next.obstacleMsgTopic)
      && (p.rebindFcnnImage <==> prev.fcnnImgMsgTopic != next.fcnnImgMsgTopic)
  {
  }
}
