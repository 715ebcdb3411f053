# Bit-Bots vision: frame output, reconfiguration, evaluator bookkeeping and white balance

This project is a Dafny model of three parts of the Hamburg Bit-Bots RoboCup vision stack.

- **The vision node** (`bitbots_vision/src/bitbots_vision/vision.py`).
  - `handle_image` turns what the detectors report for one camera frame into the messages the node publishes:
    - the gated ball message;
    - the obstacle message, with red, blue and other obstacles tagged by colour;
    - the line segments;
    - the horizon message, which is built but never published;
    - the FCNN region of interest;
    - the debug image, when debug image messages are on.

    A node that holds no snapshot, or never built a ball detector, fails before it publishes anything. The second case arises when the first snapshot's selector names no strategy. A frame is also reported as failed when the held ball detector is not the kind the held snapshot's strategy builds. That happens after a cascade call that fails at line 294: line 292 has already installed a classifier handler, while the previous snapshot is kept.
  - `_dynamic_reconfigure_callback` compares a new parameter snapshot with the one it holds. It decides which detectors and ball models are rebuilt or reloaded and which subscribers and publishers are registered again.
- **The evaluator** (`bitbots_vision_tools/scripts/evaluator.py`) covers:
  - the evaluated classes;
  - the filtering of the label file;
  - per-image measurements and their maximum duration;
  - the image counters;
  - the "all messages received" test;
  - the pixel-mask confusion counts;
  - the circle and rectangle geometry derived from annotation vectors and obstacle messages.
- **The white balancer** (`white_balancer/src/white_balancer.cpp`) covers:
  - the colour temperature table from 1000 K to 12000 K;
  - `set_temp`, which rounds toward zero to a multiple of 100;
  - the per-channel scaling of every pixel of a BGR image, clamped at 255. The branch-free clamp is proved equal to `min(x, 255)` on 32-bit ints.

## Modules

| Module | What it models |
|---|---|
| `Wrappers` | `Option` |
| `Sequences` | list-comprehension filtering and its laws |
| `Messages` | the ROS message records |
| `VisionOutput` | `handle_image` as a function of the detections |
| `VisionConfig` | the parameter snapshot and the reload/re-register plan |
| `Vision` | the node object: ball stack, transport and the two methods |
| `Labels` | annotations, type filtering, masks and vector geometry |
| `Evaluator` | the measurement classes, label analysis and the evaluator node |
| `KelvinTable` | the temperature table |
| `WhiteBalance` | the white balancer node |

Three behaviours of the code are easy to misread; the model follows the code:

- **The ball gate is strict.** A top candidate whose rating equals the threshold is not published (`vision.py:81`).
- **The FCNN model is built whether or not its file exists.** A missing file is only reported with `rospy.logerr` (`vision.py:318-320`).
- **A missing cascade file does not reset the cascade.** The cascade loaded earlier is kept (`vision.py:278-285`). If there is none, the callback raises AttributeError at line 294 while evaluating `self.cascade` as the argument for `BallFinder`, before `BallFinder` is called. In that case nothing after line 294 happens: no FCNN configuration, no re-registration, and no snapshot takeover (`ok == false` in the model).

## Model

| member | source | states |
|---|---|---|
| VisionOutput.TruncateToInt | bitbots_vision/src/bitbots_vision/vision.py:105-106 | `int()` of a float truncates toward zero: the result is within one of the argument, on the side of zero |
| VisionOutput.BallsMessage | bitbots_vision/src/bitbots_vision/vision.py:81-94 | the ball message of a frame: present only for a top candidate rated above the threshold (contract in `VisionOutput.BallGate`) |
| VisionOutput.ObstacleMessage | bitbots_vision/src/bitbots_vision/vision.py:101-108 | one obstacle entry: colour tag, corner, truncated extents, confidence 1.0 and player number (contract in `VisionOutput.ObstacleMessageGeometry`) |
| VisionOutput.ObstaclesMessage | bitbots_vision/src/bitbots_vision/vision.py:96-128 | the obstacle message: red, blue and other groups in order (contract in `VisionOutput.ObstaclesMessageLayout`) |
| VisionOutput.LineMessage | bitbots_vision/src/bitbots_vision/vision.py:131-140 | the line message: one zero-length segment per line point (contract in `VisionOutput.LineSegmentsAreDegenerate`) |
| VisionOutput.HorizonMessage | bitbots_vision/src/bitbots_vision/vision.py:143-146 | the horizon message with the frame header and the horizon points; it is never published (`VisionOutput.FramePublicationsShape`) |
| VisionOutput.FramePublications | bitbots_vision/src/bitbots_vision/vision.py:78-199 | the publications of one frame, in order (contract in `VisionOutput.FramePublicationsShape`) |
| VisionOutput.BallGate | bitbots_vision/src/bitbots_vision/vision.py:81-94 | a ball message exists iff there is a top candidate whose rating is strictly above the threshold; a rating equal to the threshold publishes nothing; the message carries exactly that candidate's centre and diameter with confidence 1 and the frame's header |
| VisionOutput.ObstaclesMessageLayout | bitbots_vision/src/bitbots_vision/vision.py:96-129 | red, then blue, then other obstacles, each group in input order; tagged magenta, cyan or undefined; confidence 1.0 everywhere; player number 42 exactly on the coloured ones |
| VisionOutput.ObstacleMessageGeometry | bitbots_vision/src/bitbots_vision/vision.py:103-106 | an entry keeps the candidate's corner, and its width and height are the candidate's extents truncated |
| VisionOutput.LineSegmentsAreDegenerate | bitbots_vision/src/bitbots_vision/vision.py:131-141 | one segment per line point, in order, each starting and ending at that point |
| VisionOutput.FramePublicationsShape | bitbots_vision/src/bitbots_vision/vision.py:78-199 | obstacles and lines are published on every frame; balls iff the gate passes; the FCNN region iff its flag is set and the selector is "fcnn"; the debug image iff debug image messages are on; nothing else, so the horizon is never published |
| Vision.Vision.HandleImage | bitbots_vision/src/bitbots_vision/vision.py:42-199 | a frame succeeds iff a snapshot is held and the held ball detector exists and is the kind its strategy builds; a failed frame publishes nothing; otherwise the frame handler's publications are the frame output, in the node's order |
| Vision.AssembleFrame | bitbots_vision/src/bitbots_vision/vision.py:78-199 | the publications built from the detections are exactly the frame output: gated ball, tagged obstacles, degenerate line segments, FCNN image and debug image, in that order |
| Vision.DetectorMatches | bitbots_vision/src/bitbots_vision/vision.py:53-62 | the held detector is the dummy, classifier or FCNN handler the strategy builds, as the strategy-specific calls of the frame handler require |
| Vision.FailedCascadeCallMismatches | bitbots_vision/src/bitbots_vision/vision.py:288-294 | a cascade call failing at line 294 after an FCNN or dummy snapshot leaves a classifier handler that does not match the kept snapshot |
| Vision.Vision.constructor | bitbots_vision/src/bitbots_vision/vision.py:30 | the node starts with an empty snapshot and with nothing built or registered |
| Vision.ParametersOf | bitbots_vision/src/bitbots_vision/vision.py:212-222 | debug output is on iff either debug flag is; the threshold and the FCNN publish flag are taken from the snapshot |
| Vision.BuildDetectors | bitbots_vision/src/bitbots_vision/vision.py:231-273 | every detector is built by this call; the horizon works on the field colour detector; the line and obstacle detectors work on the very colour and horizon detectors held next to them |
| Vision.FcnnConfigOf | bitbots_vision/src/bitbots_vision/vision.py:300-310 | FCNN debug output needs both the FCNN debug flag and debug images; the tuning values are passed on |
| Vision.RebuildBallStack | bitbots_vision/src/bitbots_vision/vision.py:228-325 | the ball stack is rebuilt per strategy: the cascade is reloaded only when stale and its file exists; the classifier and FCNN are reloaded when stale; the detector and finder are rebuilt; the call fails exactly when the cascade strategy has no cascade; on success the selected strategy's models exist |
| Vision.BallStackRebuilt | bitbots_vision/src/bitbots_vision/vision.py:228-325 | the ball attributes after one call: what is reloaded, what is kept, what is rebuilt, and when the call fails at line 294 (established by `Vision.RebuildBallStack`) |
| Vision.UnknownSelectorBuildsNoDetector | bitbots_vision/src/bitbots_vision/vision.py:228-325 | a first snapshot whose selector names no strategy is accepted but builds no ball detector |
| Vision.MissingModelFiles | bitbots_vision/src/bitbots_vision/vision.py:278-320 | a missing cascade file keeps the old cascade, and the first such call fails; a stale FCNN model is built from its path even when the file is missing |
| Vision.RebindOne | bitbots_vision/src/bitbots_vision/vision.py:327-337 | a stale binding unregisters the current binding, if any, then registers the replacement; a fresh one keeps the current binding and does nothing |
| Vision.RebindTransport | bitbots_vision/src/bitbots_vision/vision.py:327-381 | exactly the stale bindings are re-registered, in the order image, balls, lines, obstacles, FCNN image; the debug publisher is recreated every time |
| Vision.TransportActions | bitbots_vision/src/bitbots_vision/vision.py:327-381 | the registrations of one call in source order: for each stale binding an unregister of the current one, if any, then a register; then the debug publisher (established by `Vision.RebindTransport`) |
| Vision.QuietReconfiguration | bitbots_vision/src/bitbots_vision/vision.py:275-381 | a snapshot that changes none of the selector, model paths and topics keeps every model and binding; the only action is the new debug publisher |
| Vision.FirstReconfigurationRegistersAll | bitbots_vision/src/bitbots_vision/vision.py:327-381 | the first snapshot registers all five bindings and the debug publisher, in order, and unregisters nothing |
| Vision.Vision.ReconfigureCallback | bitbots_vision/src/bitbots_vision/vision.py:205-385 | parameters and detectors are rebuilt on every call; the ball stack is rebuilt as specified; a failed call keeps the snapshot and registers nothing; a successful one re-registers exactly the stale bindings and takes over the snapshot; the model-existence invariant is kept |
| VisionConfig.Strategy | bitbots_vision/src/bitbots_vision/vision.py:228-313 | each of the three strategies is selected iff the selector has its exact name |
| VisionConfig.Plan | bitbots_vision/src/bitbots_vision/vision.py:275-375 | a model or binding is stale when there is no previous snapshot, its own key changed, or, for models, the selector changed; models only while their strategy is selected (contract in `VisionConfig.ChangesAreLocal` and the lemmas below) |
| VisionConfig.FirstSnapshotBuildsEverything | bitbots_vision/src/bitbots_vision/vision.py:278-375 | against the empty snapshot every binding is stale, and exactly the models of the selected strategy are reloaded |
| VisionConfig.UnrelatedChangeIsQuiet | bitbots_vision/src/bitbots_vision/vision.py:278-375 | snapshots that agree on the selector, model paths and topics reload and re-register nothing |
| VisionConfig.SameSnapshotIsQuiet | bitbots_vision/src/bitbots_vision/vision.py:278-375 | re-delivering the held snapshot reloads and re-registers nothing |
| VisionConfig.StrategySwitchForcesReload | bitbots_vision/src/bitbots_vision/vision.py:278-375 | a changed selector reloads the new strategy's models even with unchanged paths, reloads nothing of the others, and touches no binding when the topics are unchanged |
| VisionConfig.ChangesAreLocal | bitbots_vision/src/bitbots_vision/vision.py:278-375 | with the selector unchanged, each model is reloaded iff its own path changed, and each binding is re-registered iff its own topic changed |
| Evaluator.ImageMeasurement.constructor | bitbots_vision_tools/scripts/evaluator.py:22-27 | one fresh evaluation per evaluated class, and no other key |
| Evaluator.ImageMeasurement.GetMaxDuration | bitbots_vision_tools/scripts/evaluator.py:35-41 | None iff no evaluation has a duration; otherwise a duration some evaluation has, and no evaluation's duration exceeds it |
| Evaluator.EvaluatedClasses | bitbots_vision_tools/scripts/evaluator.py:49-81 | "ball" iff balls are listened for, "line" iff lines, and "obstacle", "goalpost" and "robot" iff obstacles; no other class |
| Evaluator.Verdict | bitbots_vision_tools/scripts/evaluator.py:362-379 | the in_image entry of a type after some annotations (contract in `Evaluator.VerdictMeans`) |
| Evaluator.Consistent | bitbots_vision_tools/scripts/evaluator.py:362-379 | the inner loop finds no contradiction (contract in `Evaluator.ConsistentMeansNoContradiction`) |
| Evaluator.VerdictMeans | bitbots_vision_tools/scripts/evaluator.py:362-379 | the in_image entry of a type is None iff no annotation has that type; otherwise it is the `in` value of the first annotation of that type |
| Evaluator.NoContradictionSnoc | bitbots_vision_tools/scripts/evaluator.py:362-379 | one more annotation keeps the list contradiction-free iff it agrees with the entry of its type |
| Evaluator.ConsistentMeansNoContradiction | bitbots_vision_tools/scripts/evaluator.py:362-379 | the loop's incremental check holds iff no two annotations of an evaluated class disagree |
| Evaluator.InconsistentPrefix | bitbots_vision_tools/scripts/evaluator.py:368-377 | stopping at the first contradiction is sound: an inconsistent prefix makes the whole image inconsistent |
| Evaluator.InImageSnoc | bitbots_vision_tools/scripts/evaluator.py:364-379 | an annotation sets the entry of its class only when that class is evaluated and still unset; every other entry is unchanged |
| Evaluator.NoVerdicts | bitbots_vision_tools/scripts/evaluator.py:356-360 | the initial in_image dictionary maps every evaluated class to None |
| Evaluator.ReadAnnotation | bitbots_vision_tools/scripts/evaluator.py:363-379 | one pass reports a contradiction iff the annotation is evaluated and disagrees with its type's entry; otherwise the dictionary advances by that annotation |
| Evaluator.CheckImage | bitbots_vision_tools/scripts/evaluator.py:355-379 | an image is added iff its annotations are consistent |
| Evaluator.AnalyzeLabels | bitbots_vision_tools/scripts/evaluator.py:346-387 | the result is exactly the consistent images of the label list |
| Evaluator.KeptImages | bitbots_vision_tools/scripts/evaluator.py:353-387 | the images `_analyze_labels` keeps (contracts in `Evaluator.KeptImagesSubsequence`, `Evaluator.KeptImagesComplete`, `Evaluator.KeptImagesIdempotent`) |
| Evaluator.KeptImagesSubsequence | bitbots_vision_tools/scripts/evaluator.py:353-387 | the kept images are an order-preserving subsequence of the input, and each kept image is consistent |
| Evaluator.KeptImagesComplete | bitbots_vision_tools/scripts/evaluator.py:353-387 | each contradiction-free image is kept as often as it occurs; each contradictory one is dropped |
| Evaluator.KeptImagesIdempotent | bitbots_vision_tools/scripts/evaluator.py:346-387 | analysing an analysed list changes nothing |
| Evaluator.UnevaluatedClassesIgnored | bitbots_vision_tools/scripts/evaluator.py:364-365 | annotations of classes that are not evaluated never drop an image |
| Evaluator.VerdictOfEvaluated | bitbots_vision_tools/scripts/evaluator.py:364-368 | the in_image entry of an evaluated class is the same whether or not the annotations of other classes are dropped |
| Evaluator.EvaluatedAnnotationsDecide | bitbots_vision_tools/scripts/evaluator.py:362-373 | an image is kept iff it is kept after dropping every annotation of an unevaluated class |
| Evaluator.AllReceivedMeansEvery | bitbots_vision_tools/scripts/evaluator.py:327-332 | when every class has an evaluation, the loop answers whether every class's message arrived, and answers true for no classes |
| Evaluator.AllReceived | bitbots_vision_tools/scripts/evaluator.py:327-332 | the loop of `_recieved_all_messages_for_image` over a measurement (contract in `Evaluator.AllReceivedMeansEvery`) |
| Evaluator.Evaluator.constructor | bitbots_vision_tools/scripts/evaluator.py:49-109 | the classes follow the listen flags; the images are the analysed label list; both counters are 0; no image size and no measurement are held |
| Evaluator.Evaluator.UpdateImageCounter | bitbots_vision_tools/scripts/evaluator.py:132-137 | the send counter advances by one iff it is at most the message's sequence number |
| Evaluator.Evaluator.ReceivedAllMessagesForImage | bitbots_vision_tools/scripts/evaluator.py:327-332 | a KeyError (None) for an unknown image; otherwise the loop's answer over the evaluated classes, which in a valid evaluator is whether every evaluated class's message arrived |
| Evaluator.Evaluator.RecordMessage | bitbots_vision_tools/scripts/evaluator.py:179-201 | an unknown image or class is an error that changes nothing; otherwise exactly that class's evaluation becomes received, with the duration and the mask rates, and the outcome says whether every class has arrived |
| Evaluator.Evaluator.SendImage | bitbots_vision_tools/scripts/evaluator.py:139-166 | an index past the list or an unreadable image changes nothing; otherwise the image size is fixed once, the current counter becomes the send counter, and a fresh unevaluated measurement for that image is stored under it while the other measurements are kept |
| Labels.FilterTypeExact | bitbots_vision_tools/scripts/evaluator.py:335-337 | the filtered list is an order-preserving subsequence with only that type, and keeps every annotation of that type as often as it occurs |
| Labels.FilterTypeIdempotent | bitbots_vision_tools/scripts/evaluator.py:335-337 | filtering twice by the same type is filtering once |
| Labels.FilterType | bitbots_vision_tools/scripts/evaluator.py:335-337 | `_filter_type` (contracts in `Labels.FilterTypeExact` and `Labels.FilterTypeIdempotent`) |
| Labels.ExtractVectors | bitbots_vision_tools/scripts/evaluator.py:340-344 | never more vectors than annotations; with a falsy type (None or empty) the vectors of all annotations, in order |
| Labels.ExtractVectorsMatchesFilterType | bitbots_vision_tools/scripts/evaluator.py:335-344 | with a truthy type, the vectors are exactly those of the annotations `_filter_type` selects, in order |
| Labels.Count | bitbots_vision_tools/scripts/evaluator.py:317-323 | a mask never has more set pixels than pixels |
| Labels.CountDisjointUnion | bitbots_vision_tools/scripts/evaluator.py:317-320 | counts add over pixelwise disjoint masks |
| Labels.CountComplement | bitbots_vision_tools/scripts/evaluator.py:318-324 | a mask and its complement together count every pixel |
| Labels.ConfusionCounts | bitbots_vision_tools/scripts/evaluator.py:317-320 | tp + fp is the detected count, tp + fn the labelled count, and fn + tn the undetected count |
| Labels.MatchMasks | bitbots_vision_tools/scripts/evaluator.py:313-325 | the eight rates of two masks as pixel counts (contract in `Labels.MatchMasksPartition`) |
| Labels.MatchMasksPartition | bitbots_vision_tools/scripts/evaluator.py:313-325 | tp, fp, fn and tn partition the pixels; tp + fp = dp and tp + fn = lp; ln and dn are the non-negative complements of lp and dp |
| Labels.CircleOf | bitbots_vision_tools/scripts/evaluator.py:282-283 | a circle exists iff the vector has two points; the centre is the floor midpoint of the first two points, and the radius is the floor half of the sum of the two half extents |
| Labels.CircleInsideBox | bitbots_vision_tools/scripts/evaluator.py:282-283 | for a box given by its corners, the centre lies inside the box and four times the radius is the width plus the height, less at most 4 for the floor divisions' rounding |
| Labels.RectangleOf | bitbots_vision_tools/scripts/evaluator.py:302 | a rectangle starts at the obstacle's top-left corner and spans its width and height |
| Labels.ObstacleVectors | bitbots_vision_tools/scripts/evaluator.py:299-304 | one rectangle per message obstacle, in order, from its top-left corner to the corner offset by its width and height |
| Labels.ObstacleRectangleOfCandidate | bitbots_vision_tools/scripts/evaluator.py:302 | the rectangle the evaluator draws for an obstacle the vision node reported starts at the candidate's corner and is within one pixel of its extents |
| Sequences.Filter | bitbots_vision_tools/scripts/evaluator.py:337 | a filtered list is never longer than its input |
| Sequences.FilterIsSubsequence | bitbots_vision_tools/scripts/evaluator.py:337 | a filtered list is an order-preserving subsequence whose every element satisfies the predicate |
| Sequences.FilterCount | bitbots_vision_tools/scripts/evaluator.py:337 | an element occurs in the filtered list as often as in the input if it satisfies the predicate, otherwise never |
| Sequences.FilterKeepsAll | bitbots_vision_tools/scripts/evaluator.py:337 | filtering a list whose every element satisfies the predicate returns it unchanged |
| Sequences.FilterIdempotent | bitbots_vision_tools/scripts/evaluator.py:337 | filtering twice is filtering once |
| Sequences.FilterSnoc | bitbots_vision_tools/scripts/evaluator.py:337 | filtering distributes over appending one element |
| KelvinTable.Part0 | white_balancer/src/white_balancer.cpp:22-35 | defined exactly at the multiples of 100 from 1000 K to 2300 K; every component lies in 1..255 |
| KelvinTable.Part1 | white_balancer/src/white_balancer.cpp:36-49 | defined exactly at the multiples of 100 from 2400 K to 3700 K; components in 1..255 |
| KelvinTable.Part2 | white_balancer/src/white_balancer.cpp:50-63 | defined exactly at the multiples of 100 from 3800 K to 5100 K; components in 1..255 |
| KelvinTable.Part3 | white_balancer/src/white_balancer.cpp:64-77 | defined exactly at the multiples of 100 from 5200 K to 6500 K; components in 1..255 |
| KelvinTable.Part4 | white_balancer/src/white_balancer.cpp:78-91 | defined exactly at the multiples of 100 from 6600 K to 7900 K; components in 1..255 |
| KelvinTable.Part5 | white_balancer/src/white_balancer.cpp:92-105 | defined exactly at the multiples of 100 from 8000 K to 9300 K; components in 1..255 |
| KelvinTable.Part6 | white_balancer/src/white_balancer.cpp:106-119 | defined exactly at the multiples of 100 from 9400 K to 10700 K; components in 1..255 |
| KelvinTable.Part7 | white_balancer/src/white_balancer.cpp:120-132 | defined exactly at the multiples of 100 from 10800 K to 12000 K; components in 1..255 |
| KelvinTable.Lookup | white_balancer/src/white_balancer.cpp:21-132 | `kelvin.at` succeeds exactly for the multiples of 100 from 1000 to 12000, and every white vector lies in 1..255, so no channel divides by zero |
| WhiteBalance.TruncDiv | white_balancer/src/white_balancer.cpp:156 | C++ integer division truncates toward zero, for either sign of the dividend |
| WhiteBalance.RoundedTemp | white_balancer/src/white_balancer.cpp:156 | the temperature `set_temp` stores (contracts in `WhiteBalance.RoundedTempBounds` and `WhiteBalance.RoundedTempIsKey`) |
| WhiteBalance.RoundedTempBounds | white_balancer/src/white_balancer.cpp:154-157 | the stored temperature is a multiple of 100 within 100 of the request, rounded toward zero |
| WhiteBalance.RoundedTempIsKey | white_balancer/src/white_balancer.cpp:154-165 | after `set_temp(t)` the table lookup succeeds iff 1000 <= t <= 12099 |
| WhiteBalance.ClampBits | white_balancer/src/white_balancer.cpp:187 | the branch-free clamp (contract in `WhiteBalance.ClampBitsIsMin`) |
| WhiteBalance.ClampBitsIsMin | white_balancer/src/white_balancer.cpp:187 | the bit trick equals min(x, 255) for every 32-bit int |
| WhiteBalance.Balanced | white_balancer/src/white_balancer.cpp:171-188 | the new value of one channel (contract in `WhiteBalance.BalancedBounds`) |
| WhiteBalance.BalancedBounds | white_balancer/src/white_balancer.cpp:171-188 | scaling never darkens a channel and never exceeds 255; a white component of 255 leaves the channel unchanged |
| WhiteBalance.BalancedImage | white_balancer/src/white_balancer.cpp:169-188 | for every channel and its divisor from a table entry, the balanced value (what the callback writes) lies between the old value and 255, and equals it when that white component is 255 |
| WhiteBalance.WhiteBalancer.constructor | white_balancer/src/white_balancer.cpp:134 | the temperature starts at 1000 K, a key of the table |
| WhiteBalance.WhiteBalancer.SetTemp | white_balancer/src/white_balancer.cpp:154-157 | the stored temperature is the request rounded toward zero to a multiple of 100 |
| WhiteBalance.WhiteBalancer.CallbackRC | white_balancer/src/white_balancer.cpp:205-207 | the configured temperature is passed to `set_temp`, and later lookups succeed iff it is in 1000..12099 |
| WhiteBalance.Divisors | white_balancer/src/white_balancer.cpp:167-172 | channel c of the BGR image is divided by entry 2 - c of the RGB white vector, and that entry lies in 1..255 |
| WhiteBalance.BalancePixel | white_balancer/src/white_balancer.cpp:183-189 | the three channels of one pixel are balanced and no other cell changes |
| WhiteBalance.WhiteBalancer.ImageCallback | white_balancer/src/white_balancer.cpp:159-200 | a temperature outside the table throws `out_of_range` with the image untouched; a failed conversion is logged and changes nothing; otherwise every channel of every pixel is balanced by its channel's white component and the image is published |

## Left out

- `Vision.Vision.HandleImage` reports a frame as failed, publishing nothing, when the held ball detector is not the kind the held snapshot's strategy builds. In that case the source calls `set_image(image)` and `get_cropped_msg()` on a classifier handler (FCNN snapshot), or asks a classifier handler that never received an image (dummy snapshot). Whether those calls raise depends on `classifier.py`, which is not part of this model, so the model does not promise the source's outcome there.
- ROS plumbing is outside the model:
  - node and parameter setup;
  - publishers and subscribers, which are modelled as topic and queue-size bindings;
  - timers, signal handlers, `rospy.spin`;
  - message serialisation and `cv_bridge` conversions.
- The detectors and models themselves are left out: colour, field, horizon, line and obstacle detectors, the cascade and live classifiers, and FCNN inference. Their results enter `handle_image` as a `Detections` value, and their construction is a value recording kind, source file, inputs and the reconfiguration that built it.
- Several parts of `handle_image` are left out:
  - the precalculation and threading of `vision_parallelize`;
  - debug drawing and the debug printer: the debug image publication of line 199 is modelled, but not its pixels;
  - the `imshow` window of line 197;
  - the runtime evaluator.
- The header copied into each message is modelled as frame id and stamp. The ball, obstacle and line messages copy only these two fields (`vision.py:83-84`, `98-99`, `133-134`), so the sequence number is not copied there.
- `VisionOutput.HorizonMessage` does not carry the sequence number. The horizon message takes the whole image header, sequence number included (`vision.py:144`), but it is never published.
- The stamp that line 151 writes on the first cropped FCNN message is not modelled, because line 152 publishes the result of a second `get_cropped_msg()` call.
- Only the parameters the callback compares or passes on are modelled. The colour detectors' many range parameters are left out, and so are the parameters read only inside the detectors. A snapshot is a record with one field per parameter, because dynamic_reconfigure always delivers every parameter. The node's empty dictionary before the first call is `None`.
- File existence is an input set of paths. The FCNN model loading and the cascade file loading are not run; only their decisions are modelled.
- The evaluator constructor invokes its callbacks at registration instead of passing them (`evaluator.py:57`, `:113` and the other subscribers). Those calls would fail or set the stop flag at once. The model keeps only the bookkeeping the constructor performs: classes, analysed labels, counters and the empty measurement map.
- The `_stop` flag, the resend timer, and writing measurements to a file are left out.
- `Evaluator.Evaluator.SendImage` models `_send_image` with no name given and a running node. File reading is a `readable` flag and the image's shape is an input.
- `_read_labels` is left out, including YAML parsing and its `None` result on a parse error. The constructor takes the parsed label list.
- `Evaluator.Evaluator.RecordMessage` takes the label and detection masks as inputs. Rasterising annotations and messages into masks with OpenCV (`cv2.circle`, `cv2.rectangle`, `cv2.line`, `cv2.fillConvexPoly`) is not modelled; only the vector arithmetic before rasterising is (`Labels.CircleOf`, `Labels.RectangleOf`, `Labels.ObstacleVectors`).
- `Evaluator.Evaluator.RecordMessage` does not model the lookup of the image's annotations, which can raise an IndexError. It does not call `_send_image` either; its outcome reports the condition on which the callback would. The callbacks never call `_update_image_counter`. With obstacles listened for, "goalpost" and "robot" are evaluated but no callback records them: `_goalpost_callback` (`evaluator.py:222`) is never subscribed, since the obstacle subscription (`evaluator.py:77-79`) registers only `_obstacles_callback`.
- `Evaluator.Evaluator.RecordMessage` models the duration as an integer of nanoseconds taken as an input; the clock is left out.
- `Labels.MatchMasksPartition` is stated on pixel counts, not means: the source's rates are these counts divided by the pixel count, as floats. Masks are boolean sequences.
- `Labels.MatchMasks` gives the evidently intended boolean semantics of `_match_masks`. As written, the source raises. Its masks come from `np.zeros` as float64 (`evaluator.py:265-304`), and `np.bitwise_and` and `np.bitwise_not` reject float arrays with a TypeError (`evaluator.py:317-320`). Even on 0/1 integer masks, `np.bitwise_not` yields -1 and -2, which would make `tn` negative.
- `not_in_image_count` and `found_label` in `_analyze_labels` are never read afterwards, so they are not modelled.
- `Evaluator.ImageMeasurement.GetMaxDuration` treats durations as integers. Python 2's ordering of `None` below every number is modelled by `ExceedsPy2`.
- `WhiteBalance.WhiteBalancer.ImageCallback` computes each channel as `min((255 * color) / white, 255)` on integers. The source multiplies the float `255.0 / white` by the colour and truncates, which can differ by one where float rounding falls just below an integer. The branch-free clamp of line 187 is proved separately over 32-bit patterns (`WhiteBalance.ClampBitsIsMin`).
- `WhiteBalance.WhiteBalancer.ImageCallback` does not model the timing printout or the header of the published message.
- `WhiteBalance.WhiteBalancer.SetTemp` does not model the `int` width of `temp`. Division by 100 cannot overflow, so the integer model agrees with the source.
