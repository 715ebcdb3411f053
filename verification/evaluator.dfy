/** The bookkeeping of the vision evaluator (evaluator.py): which images of the label file take
    part in the evaluation, the per-image measurements, the image counters, and the record of
    which detection messages have arrived for the image currently under evaluation. */
module Evaluator {
  import opened Wrappers
  import opened Sequences
  import opened Labels

  /** The result for one class of one image: whether its message arrived, the rates of its
      masks, and how long the vision took (in nanoseconds). */
  datatype Evaluation = Evaluation(receivedMessage: bool, pixelMaskRates: Option<Rates>, duration: Option<int>)

  /** A fresh Evaluation(): nothing received, no rates, no duration. */
  const Unevaluated: Evaluation := Evaluation(false, None, None)

  /** The classes of a list, as the key set of a dictionary built from it. */
  function ClassKeys(classes: seq<string>): set<string>
  {
    set c | c in classes
  }

  /** Python 2 orders None below every number, so `d > m` holds for every number d when m is None. */
  predicate ExceedsPy2(d: int, m: Option<int>)
  {
    m.None? || d > m.value
  }

  /** The measurement of one sent image: one Evaluation per evaluated class. */
  class ImageMeasurement {
    var evaluations: map<string, Evaluation>
    const imageData: LabelledImage

    /** Every evaluated class gets a fresh Evaluation, and no other key exists. */
    constructor (imageData: LabelledImage, evalClasses: seq<string>)
      ensures this.imageData == imageData
      ensures evaluations.Keys == ClassKeys(evalClasses)
      ensures forall c :: c in evaluations ==> evaluations[c] == Unevaluated
    {
      this.imageData := imageData;
      var evs := map[];
      for i := 0 to |evalClasses|
        invariant evs.Keys == ClassKeys(evalClasses[..i])
        invariant forall c :: c in evs ==> evs[c] == Unevaluated
      {
        evs := evs[evalClasses[i] := Unevaluated];
        assert evalClasses[..i + 1] == evalClasses[..i] + [evalClasses[i]];
      }
      assert evalClasses[..|evalClasses|] == evalClasses;
      evaluations := evs;
    }

    /** get_max_duration: the largest duration any evaluation recorded, or None when no
        evaluation has one. The values are visited in no particular order. */
    method GetMaxDuration() returns (m: Option<int>)
      ensures m.None? <==> forall e :: e in evaluations.Values ==> e.duration.None?
      ensures m.Some? ==> exists e :: e in evaluations.Values && e.duration == m
      ensures m.Some? ==> forall e :: e in evaluations.Values && e.duration.Some? ==> e.duration.value <= m.value
    {
      m := None;
      var rest := evaluations.Values;
      while rest != {}
        invariant rest <= evaluations.Values
        invariant m.None? <==> forall e :: e in evaluations.Values - rest ==> e.duration.None?
        invariant m.Some? ==> exists e :: e in evaluations.Values - rest && e.duration == m
        invariant m.Some? ==>
          forall e :: e in evaluations.Values - rest && e.duration.Some? ==> e.duration.value <= m.value
        decreases |rest|
      {
        var e :| e in rest;
        if e.duration.Some? && ExceedsPy2(e.duration.value, m) {
          m := e.duration;
        }
        rest := rest - {e};
      }
    }
  }

  /** The classes the evaluator listens for, in the order the constructor appends them. */
  function EvaluatedClasses(listenBalls: bool, listenLines: bool, listenObstacle: bool): (classes: seq<string>)
    ensures "ball" in classes <==> listenBalls
    ensures "line" in classes <==> listenLines
    ensures ("obstacle" in classes <==> listenObstacle) && ("goalpost" in classes <==> listenObstacle)
      && ("robot" in classes <==> listenObstacle)
    ensures forall c :: c in classes ==> c in ["ball", "line", "obstacle", "goalpost", "robot"]
  {
    (if listenBalls then ["ball"] else [])
    + (if listenLines then ["line"] else [])
    + (if listenObstacle then ["obstacle", "goalpost", "robot"] else [])
  }

  // ---------------------------------------------------------------------------------------
  // _analyze_labels

  /** The `in` value of the first annotation of the given type, or None when there is none:
      the in_image entry of that type once these annotations have been read. */
  function Verdict(annotations: seq<Annotation>, typename: string): Option<bool>
    decreases |annotations|
  {
    if |annotations| == 0 then None
    else
      var v := Verdict(annotations[..|annotations| - 1], typename);
      var last := annotations[|annotations| - 1];
      if v.Some? then v else if last.typename == typename then Some(last.inImage) else None
  }

  /** The verdict is None exactly when no annotation has the type, and otherwise the `in` value
      of the first one that has it. */
  lemma {:induction false} VerdictMeans(annotations: seq<Annotation>, typename: string)
    ensures Verdict(annotations, typename).None? <==>
      forall i :: 0 <= i < |annotations| ==> annotations[i].typename != typename
    ensures Verdict(annotations, typename).Some? ==>
      exists i :: 0 <= i < |annotations| && annotations[i].typename == typename
                  && annotations[i].inImage == Verdict(annotations, typename).value
                  && forall j :: 0 <= j < i ==> annotations[j].typename != typename
    decreases |annotations|
  {
    if |annotations| != 0 {
      var init := annotations[..|annotations| - 1];
      VerdictMeans(init, typename);
      assert forall i :: 0 <= i < |init| ==> init[i] == annotations[i];
    }
  }

  /** An annotation agrees with the in_image entry of its type when the type is not evaluated,
      has no entry yet, or has the annotation's own `in` value. */
  predicate Agrees(seen: Option<bool>, a: Annotation, classes: seq<string>)
  {
    a.typename in classes && seen.Some? ==> seen.value == a.inImage
  }

  /** What the inner loop of _analyze_labels checks: every annotation agrees with the entry its
      type has after the annotations before it. */
  predicate Consistent(annotations: seq<Annotation>, classes: seq<string>)
    decreases |annotations|
  {
    |annotations| == 0 ||
    (var init, last := annotations[..|annotations| - 1], annotations[|annotations| - 1];
     Consistent(init, classes) && Agrees(Verdict(init, last.typename), last, classes))
  }

  /** No two annotations of an evaluated class disagree about whether the object is in the image. */
  predicate NoContradiction(annotations: seq<Annotation>, classes: seq<string>)
  {
    forall i, j :: 0 <= i < j < |annotations| && annotations[i].typename in classes
                   && annotations[j].typename == annotations[i].typename
                   ==> annotations[i].inImage == annotations[j].inImage
  }

  /** The images _analyze_labels keeps: those whose annotations are consistent, in order. */
  function KeptImages(images: seq<LabelledImage>, classes: seq<string>): seq<LabelledImage>
  {
    Filter(images, (img: LabelledImage) => Consistent(img.annotations, classes))
  }

  /** Appending one annotation to a contradiction-free list keeps it contradiction-free exactly
      when the annotation agrees with the entry of its type. */
  lemma NoContradictionSnoc(annotations: seq<Annotation>, a: Annotation, classes: seq<string>)
    ensures NoContradiction(annotations + [a], classes) <==>
      NoContradiction(annotations, classes) && Agrees(Verdict(annotations, a.typename), a, classes)
  {
    var s := annotations + [a];
    var v := Verdict(annotations, a.typename);
    VerdictMeans(annotations, a.typename);
    assert forall i :: 0 <= i < |annotations| ==> s[i] == annotations[i];
    assert s[|annotations|] == a;
    if NoContradiction(s, classes) && a.typename in classes && v.Some? {
      var i :| 0 <= i < |annotations| && annotations[i].typename == a.typename && annotations[i].inImage == v.value
               && forall j :: 0 <= j < i ==> annotations[j].typename != a.typename;
      assert s[i].inImage == s[|annotations|].inImage;
    }
    if NoContradiction(annotations, classes) && Agrees(v, a, classes) {
      forall i, j | 0 <= i < j < |s| && s[i].typename in classes && s[j].typename == s[i].typename
        ensures s[i].inImage == s[j].inImage
      {
        if j == |annotations| {
          assert v.Some?;
        }
      }
    }
  }

  /** The loop's check is the pairwise condition: an image passes exactly when no two
      annotations of an evaluated class contradict each other. */
  lemma {:induction false} ConsistentMeansNoContradiction(annotations: seq<Annotation>, classes: seq<string>)
    ensures Consistent(annotations, classes) <==> NoContradiction(annotations, classes)
    decreases |annotations|
  {
    if |annotations| != 0 {
      var init, last := annotations[..|annotations| - 1], annotations[|annotations| - 1];
      ConsistentMeansNoContradiction(init, classes);
      NoContradictionSnoc(init, last, classes);
      assert init + [last] == annotations;
    }
  }

  /** An inconsistent prefix makes the whole list inconsistent. */
  lemma {:induction false} InconsistentPrefix(annotations: seq<Annotation>, k: nat, classes: seq<string>)
    requires k <= |annotations| && !Consistent(annotations[..k], classes)
    ensures !Consistent(annotations, classes)
    decreases |annotations| - k
  {
    if k < |annotations| {
      var init := annotations[..|annotations| - 1];
      assert init[..k] == annotations[..k];
      InconsistentPrefix(init, k, classes);
    } else {
      assert annotations[..k] == annotations;
    }
  }

  /** The in_image dictionary after the given annotations: the verdict of every evaluated class. */
  function InImage(annotations: seq<Annotation>, classes: seq<string>): map<string, Option<bool>>
  {
    map c | c in classes :: Verdict(annotations, c)
  }

  /** One more annotation sets the entry of its class when that class is evaluated and has no
      verdict yet, and changes nothing else. */
  lemma InImageSnoc(annotations: seq<Annotation>, a: Annotation, classes: seq<string>)
    ensures InImage(annotations + [a], classes)
            == if a.typename in classes && Verdict(annotations, a.typename).None?
               then InImage(annotations, classes)[a.typename := Some(a.inImage)]
               else InImage(annotations, classes)
  {
    assert (annotations + [a])[..|annotations|] == annotations;
  }

  /** The initial in_image dictionary: None for every evaluated class. */
  method NoVerdicts(classes: seq<string>) returns (inImage: map<string, Option<bool>>)
    ensures inImage == InImage([], classes)
  {
    inImage := map[];
    for i := 0 to |classes|
      invariant inImage == InImage([], classes[..i])
    {
      assert classes[..i + 1] == classes[..i] + [classes[i]];
      inImage := inImage[classes[i] := None];
    }
    assert classes[..|classes|] == classes;
  }

  /** One pass of the annotation loop: an annotation of an unevaluated type is skipped, one that
      contradicts the entry of its type stops the loop, and otherwise the first annotation of a
      type sets its entry. */
  method ReadAnnotation(inImage: map<string, Option<bool>>, ghost prefix: seq<Annotation>, a: Annotation,
                        classes: seq<string>) returns (next: map<string, Option<bool>>, contradiction: bool)
    requires inImage == InImage(prefix, classes)
    ensures contradiction <==> !Agrees(Verdict(prefix, a.typename), a, classes)
    ensures !contradiction ==> next == InImage(prefix + [a], classes)
  {
    InImageSnoc(prefix, a, classes);
    next, contradiction := inImage, false;
    if a.typename !in classes {
      return;
    }
    var seen := inImage[a.typename];
    if seen == Some(true) {
      contradiction := !a.inImage;
    } else if seen == Some(false) {
      contradiction := a.inImage;
    } else {
      next := inImage[a.typename := Some(a.inImage)];
    }
  }

  /** The contradiction check for one image: the inner loop of _analyze_labels, which stops at
      the first annotation that contradicts an earlier one of the same evaluated class. */
  method CheckImage(annotations: seq<Annotation>, classes: seq<string>) returns (addImage: bool)
    ensures addImage <==> Consistent(annotations, classes)
  {
    addImage := true;
    var inImage := NoVerdicts(classes);
    var k := 0;
    while k < |annotations|
      invariant 0 <= k <= |annotations|
      invariant inImage == InImage(annotations[..k], classes)
      invariant Consistent(annotations[..k], classes)
      decreases |annotations| - k
    {
      var a := annotations[k];
      assert annotations[..k + 1] == annotations[..k] + [a];
      assert annotations[..k + 1][..k] == annotations[..k];
      var contradiction;
      inImage, contradiction := ReadAnnotation(inImage, annotations[..k], a, classes);
      if contradiction {
        addImage := false;
        InconsistentPrefix(annotations, k + 1, classes);
        break;
      }
      k := k + 1;
    }
    if addImage {
      assert annotations[..k] == annotations;
    }
  }

  /** _analyze_labels: the images whose annotations are consistent, in their original order. */
  method AnalyzeLabels(images: seq<LabelledImage>, classes: seq<string>) returns (filtered: seq<LabelledImage>)
    ensures filtered == KeptImages(images, classes)
  {
    filtered := [];
    for n := 0 to |images|
      invariant filtered == KeptImages(images[..n], classes)
    {
      var addImage := CheckImage(images[n].annotations, classes);
      assert images[..n + 1][..n] == images[..n];
      if addImage {
        filtered := filtered + [images[n]];
      }
    }
    assert images[..|images|] == images;
  }

  /** The kept images are an order-preserving subsequence of the label file, and every one of
      them is consistent. */
  lemma KeptImagesSubsequence(images: seq<LabelledImage>, classes: seq<string>)
    ensures IsSubsequence(KeptImages(images, classes), images)
    ensures forall img :: img in KeptImages(images, classes) ==> img in images && Consistent(img.annotations, classes)
  {
    FilterIsSubsequence(images, (img: LabelledImage) => Consistent(img.annotations, classes));
  }

  /** An image is dropped exactly when two annotations of an evaluated class contradict each
      other: every other image is kept as often as it occurs. */
  lemma KeptImagesComplete(images: seq<LabelledImage>, classes: seq<string>, img: LabelledImage)
    ensures multiset(KeptImages(images, classes))[img]
            == if NoContradiction(img.annotations, classes) then multiset(images)[img] else 0
  {
    ConsistentMeansNoContradiction(img.annotations, classes);
    FilterCount(images, (img: LabelledImage) => Consistent(img.annotations, classes), img);
  }

  /** Analysing an analysed label list changes nothing. */
  lemma KeptImagesIdempotent(images: seq<LabelledImage>, classes: seq<string>)
    ensures KeptImages(KeptImages(images, classes), classes) == KeptImages(images, classes)
  {
    FilterIdempotent(images, (img: LabelledImage) => Consistent(img.annotations, classes));
  }

  /** Annotations of classes that are not evaluated never make an image inconsistent. */
  lemma UnevaluatedClassesIgnored(annotations: seq<Annotation>, classes: seq<string>)
    requires forall i :: 0 <= i < |annotations| ==> annotations[i].typename !in classes
    ensures Consistent(annotations, classes)
  {
    ConsistentMeansNoContradiction(annotations, classes);
  }

  /** The annotations of evaluated classes, in order. */
  function EvaluatedOnly(annotations: seq<Annotation>, classes: seq<string>): seq<Annotation>
  {
    Filter(annotations, (a: Annotation) => a.typename in classes)
  }

  /** The in_image entry of an evaluated class depends only on the annotations of evaluated
      classes. */
  lemma {:induction false} VerdictOfEvaluated(annotations: seq<Annotation>, classes: seq<string>, typename: string)
    requires typename in classes
    ensures Verdict(EvaluatedOnly(annotations, classes), typename) == Verdict(annotations, typename)
    decreases |annotations|
  {
    if |annotations| > 0 {
      var init, last := annotations[..|annotations| - 1], annotations[|annotations| - 1];
      VerdictOfEvaluated(init, classes, typename);
      var kept := EvaluatedOnly(init, classes);
      var v := Verdict(init, typename);
      assert Verdict(annotations, typename)
          == if v.Some? then v else if last.typename == typename then Some(last.inImage) else None;
      if last.typename in classes {
        assert EvaluatedOnly(annotations, classes) == kept + [last];
        assert (kept + [last])[..|kept + [last]| - 1] == kept;
      } else {
        assert EvaluatedOnly(annotations, classes) == kept;
        assert last.typename != typename;
      }
    }
  }

  /** Whether an image is kept is decided by the annotations of evaluated classes alone:
      dropping every other annotation never changes the outcome. */
  lemma {:induction false} EvaluatedAnnotationsDecide(annotations: seq<Annotation>, classes: seq<string>)
    ensures Consistent(EvaluatedOnly(annotations, classes), classes) <==> Consistent(annotations, classes)
    decreases |annotations|
  {
    if |annotations| > 0 {
      var init, last := annotations[..|annotations| - 1], annotations[|annotations| - 1];
      EvaluatedAnnotationsDecide(init, classes);
      var kept := EvaluatedOnly(init, classes);
      if last.typename in classes {
        VerdictOfEvaluated(init, classes, last.typename);
        assert EvaluatedOnly(annotations, classes) == kept + [last];
        assert (kept + [last])[..|kept + [last]| - 1] == kept;
      } else {
        assert EvaluatedOnly(annotations, classes) == kept;
      }
    }
  }

  // ---------------------------------------------------------------------------------------
  // _recieved_all_messages_for_image

  /** The outcome of the loop over the evaluated classes: false at the first class whose message
      has not arrived, None (a KeyError) at the first class without an evaluation, true at the
      end. */
  function AllReceived(classes: seq<string>, evaluations: map<string, Evaluation>): Option<bool>
    decreases |classes|
  {
    if |classes| == 0 then Some(true)
    else if classes[0] !in evaluations then None
    else if !evaluations[classes[0]].receivedMessage then Some(false)
    else AllReceived(classes[1..], evaluations)
  }

  /** With an evaluation for every class, the loop answers whether every class's message has
      arrived; in particular it answers true when no class is evaluated. */
  lemma {:induction false} AllReceivedMeansEvery(classes: seq<string>, evaluations: map<string, Evaluation>)
    requires forall c :: c in classes ==> c in evaluations
    ensures AllReceived(classes, evaluations)
            == Some(forall i :: 0 <= i < |classes| ==> evaluations[classes[i]].receivedMessage)
    decreases |classes|
  {
    if |classes| != 0 {
      AllReceivedMeansEvery(classes[1..], evaluations);
      assert forall i :: 1 <= i < |classes| ==> classes[i] == classes[1..][i - 1];
    }
  }

  /** The outcome of a detection callback for one message. */
  datatype RecordOutcome =
    | UnknownImage          // no measurement for the sequence number: the lookup returns None
    | UnknownClass          // the measurement has no evaluation for the class: KeyError
    | Recorded(allReceived: bool)

  /** The vision evaluator node. */
  class Evaluator {
    const evaluatedClasses: seq<string>
    const images: seq<LabelledImage>
    var sendImageCounter: nat
    var currentImageCounter: nat
    var imageSize: Option<(nat, nat)>
    var measurements: map<int, ImageMeasurement>

    /** Every measurement holds exactly one evaluation per evaluated class. */
    ghost predicate Valid()
      reads this, measurements.Values
    {
      forall k :: k in measurements ==> measurements[k].evaluations.Keys == ClassKeys(evaluatedClasses)
    }

    /** The constructor's bookkeeping: the evaluated classes follow the listen flags, the label
        file is reduced to its consistent images, both counters start at 0 and no image has been
        measured yet. */
    constructor (listenBalls: bool, listenLines: bool, listenObstacle: bool, labels: seq<LabelledImage>)
      ensures evaluatedClasses == EvaluatedClasses(listenBalls, listenLines, listenObstacle)
      ensures images == KeptImages(labels, evaluatedClasses)
      ensures sendImageCounter == 0 && currentImageCounter == 0 && imageSize == None && measurements == map[]
      ensures Valid()
    {
      var classes := EvaluatedClasses(listenBalls, listenLines, listenObstacle);
      evaluatedClasses := classes;
      var kept := AnalyzeLabels(labels, classes);
      images := kept;
      sendImageCounter := 0;
      currentImageCounter := 0;
      imageSize := None;
      measurements := map[];
    }

    /** _update_image_counter: move on to the next image once a message for the image being
        sent (or a later one) arrives. */
    method UpdateImageCounter(seqNumber: int)
      modifies this`sendImageCounter
      ensures sendImageCounter == if old(sendImageCounter) <= seqNumber then old(sendImageCounter) + 1
                                  else old(sendImageCounter)
    {
      if sendImageCounter <= seqNumber {
        sendImageCounter := sendImageCounter + 1;
      }
    }

    /** _recieved_all_messages_for_image: None when there is no measurement for the sequence
        number or the loop hits a class without an evaluation (both KeyErrors). In a valid
        evaluator the second never happens: the answer for a measured image is whether every
        evaluated class's message has arrived. */
    method ReceivedAllMessagesForImage(seqNumber: int) returns (r: Option<bool>)
      ensures seqNumber !in measurements ==> r.None?
      ensures seqNumber in measurements ==> r == AllReceived(evaluatedClasses, measurements[seqNumber].evaluations)
      ensures seqNumber in measurements && Valid() ==>
        r == Some(forall c :: c in evaluatedClasses ==> measurements[seqNumber].evaluations[c].receivedMessage)
    {
      if seqNumber in measurements && Valid() {
        AllReceivedMeansEvery(evaluatedClasses, measurements[seqNumber].evaluations);
      }
      if seqNumber !in measurements {
        return None;
      }
      var evaluations := measurements[seqNumber].evaluations;
      for i := 0 to |evaluatedClasses|
        invariant forall j :: 0 <= j < i ==> evaluatedClasses[j] in evaluations
                                             && evaluations[evaluatedClasses[j]].receivedMessage
        invariant AllReceived(evaluatedClasses, evaluations) == AllReceived(evaluatedClasses[i..], evaluations)
      {
        assert evaluatedClasses[i..][1..] == evaluatedClasses[i + 1..];
        var c := evaluatedClasses[i];
        if c !in evaluations {
          return None;
        }
        if !evaluations[c].receivedMessage {
          return Some(false);
        }
      }
      return Some(true);
    }

    /** What a detection callback records for the image with sequence number seqNumber: the
        message arrived, the processing took `duration`, and the rates of the label mask
        against the detection mask. It then reports whether every class has arrived, on which
        the callback calls _send_image again. */
    method RecordMessage(seqNumber: int, evalClass: string, duration: int, labelMask: seq<bool>,
                         detectedMask: seq<bool>) returns (outcome: RecordOutcome)
      requires Valid()
      requires |labelMask| == |detectedMask|
      modifies if seqNumber in measurements then {measurements[seqNumber]} else {}
      ensures Valid()
      ensures seqNumber !in measurements ==> outcome == UnknownImage
      ensures seqNumber in measurements && evalClass !in evaluatedClasses ==>
        outcome == UnknownClass && measurements[seqNumber].evaluations == old(measurements[seqNumber].evaluations)
      ensures seqNumber in measurements && evalClass in evaluatedClasses ==>
        && measurements[seqNumber].evaluations
             == old(measurements[seqNumber].evaluations)[evalClass :=
                  Evaluation(true, Some(MatchMasks(labelMask, detectedMask)), Some(duration))]
        && outcome == Recorded(forall c :: c in evaluatedClasses ==> measurements[seqNumber].evaluations[c].receivedMessage)
    {
      if seqNumber !in measurements {
        return UnknownImage;
      }
      var measurement := measurements[seqNumber];
      if evalClass !in measurement.evaluations {
        return UnknownClass;
      }
      measurement.evaluations := measurement.evaluations[evalClass :=
        Evaluation(true, Some(MatchMasks(labelMask, detectedMask)), Some(duration))];
      var all := ReceivedAllMessagesForImage(seqNumber);
      outcome := Recorded(all.value);
    }

    /** _send_image with no name given: the image the send counter points at is published with
        the counter as its sequence number, becomes the current image, and gets a fresh
        measurement. `readable` says whether the image file could be read and `shape` is its
        height and width, which fix the mask size on the first image. */
    method SendImage(readable: bool, shape: (nat, nat)) returns (outcome: SendOutcome)
      requires Valid()
      modifies this
      ensures Valid()
      ensures old(sendImageCounter) >= |images| ==> outcome == IndexOutOfRange && unchanged(this)
      ensures old(sendImageCounter) < |images| && !readable ==> outcome == Unreadable && unchanged(this)
      ensures old(sendImageCounter) < |images| && readable ==>
        && outcome == Sent(sendImageCounter)
        && sendImageCounter == old(sendImageCounter)
        && currentImageCounter == sendImageCounter
        && imageSize == (if old(imageSize).None? then Some(shape) else old(imageSize))
        && measurements.Keys == old(measurements.Keys) + {sendImageCounter}
        && fresh(measurements[sendImageCounter])
        && measurements[sendImageCounter].imageData == images[sendImageCounter]
        && (forall c :: c in measurements[sendImageCounter].evaluations ==>
              measurements[sendImageCounter].evaluations[c] == Unevaluated)
        && (forall k :: k in old(measurements) && k != sendImageCounter ==> measurements[k] == old(measurements[k]))
    {
      if sendImageCounter >= |images| {
        return IndexOutOfRange;
      }
      if !readable {
        return Unreadable;
      }
      if imageSize.None? {
        imageSize := Some(shape);
      }
      currentImageCounter := sendImageCounter;
      var m := new ImageMeasurement(images[sendImageCounter], evaluatedClasses);
      measurements := measurements[sendImageCounter := m];
      outcome := Sent(sendImageCounter);
    }
  }

  /** The outcome of sending the image the send counter points at. */
  datatype SendOutcome = IndexOutOfRange | Unreadable | Sent(seqNumber: nat)
}
