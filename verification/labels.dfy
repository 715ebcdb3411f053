/** The pure part of the vision evaluator (evaluator.py): selecting annotations by type,
    extracting their vectors, comparing a label mask with a detection mask, and turning
    annotation vectors and obstacle messages into the circles and rectangles that are drawn
    into the masks. */
module Labels {
  import opened Wrappers
  import opened Sequences
  import opened Messages
  import VisionOutput

  /** One point of an annotation's vector, in pixels. */
  datatype Corner = Corner(x: int, y: int)

  /** One entry of an image's annotation list in the label file: its type ("ball", "line",
      "obstacle", ...), whether the object is in the image, and its vector of points. */
  datatype Annotation = Annotation(typename: string, inImage: bool, vector: seq<Corner>)

  /** One image of the label file: its name and its annotations. */
  datatype LabelledImage = LabelledImage(name: string, annotations: seq<Annotation>)

  // ---------------------------------------------------------------------------------------
  // _filter_type and _extract_vectors_from_annotations

  predicate OfType(a: Annotation, typename: string)
  {
    a.typename == typename
  }

  /** _filter_type: the annotations of the given type, in order. */
  function FilterType(annotations: seq<Annotation>, typename: string): seq<Annotation>
  {
    Filter(annotations, a => OfType(a, typename))
  }

  /** The filtered list is a subsequence of the input that holds every annotation of the type
      exactly as often as the input does, and nothing else. */
  lemma FilterTypeExact(annotations: seq<Annotation>, typename: string)
    ensures IsSubsequence(FilterType(annotations, typename), annotations)
    ensures forall a :: a in FilterType(annotations, typename) ==> a.typename == typename
    ensures forall a :: multiset(FilterType(annotations, typename))[a]
                          == if a.typename == typename then multiset(annotations)[a] else 0
  {
    FilterIsSubsequence(annotations, a => OfType(a, typename));
    forall a ensures multiset(FilterType(annotations, typename))[a]
                       == if a.typename == typename then multiset(annotations)[a] else 0
    {
      FilterCount(annotations, a => OfType(a, typename), a);
    }
  }

  /** Filtering by a type twice is filtering once. */
  lemma FilterTypeIdempotent(annotations: seq<Annotation>, typename: string)
    ensures FilterType(FilterType(annotations, typename), typename) == FilterType(annotations, typename)
  {
    FilterIdempotent(annotations, a => OfType(a, typename));
  }

  /** Python's truth value of the optional type argument: None and "" are false. */
  predicate Truthy(typename: Option<string>)
  {
    typename.Some? && typename.value != ""
  }

  /** _extract_vectors_from_annotations: with a truthy type, the vectors of the annotations of
      that type; otherwise the vectors of all annotations. Both are list comprehensions. */
  function ExtractVectors(annotations: seq<Annotation>, typename: Option<string>): (r: seq<seq<Corner>>)
    ensures |r| <= |annotations|
    ensures !Truthy(typename) ==>
      |r| == |annotations| && forall i :: 0 <= i < |r| ==> r[i] == annotations[i].vector
    decreases |annotations|
  {
    if |annotations| == 0 then []
    else
      var last := annotations[|annotations| - 1];
      ExtractVectors(annotations[..|annotations| - 1], typename)
      + (if !Truthy(typename) || last.typename == typename.value then [last.vector] else [])
  }

  /** With a truthy type, extraction yields the vectors of exactly the annotations _filter_type
      selects, in the same order. */
  lemma {:induction false} ExtractVectorsMatchesFilterType(annotations: seq<Annotation>, typename: string)
    requires typename != ""
    ensures var r := ExtractVectors(annotations, Some(typename));
      var f := FilterType(annotations, typename);
      |r| == |f| && forall i :: 0 <= i < |r| ==> r[i] == f[i].vector
    decreases |annotations|
  {
    if |annotations| != 0 {
      var init := annotations[..|annotations| - 1];
      ExtractVectorsMatchesFilterType(init, typename);
      FilterSnoc(init, annotations[|annotations| - 1], a => OfType(a, typename));
      assert init + [annotations[|annotations| - 1]] == annotations;
    }
  }

  // ---------------------------------------------------------------------------------------
  // _match_masks: pixel masks as sequences of booleans, rates as pixel counts.

  /** The number of set pixels of a mask: N times np.mean(mask). */
  function Count(mask: seq<bool>): (n: nat)
    ensures n <= |mask|
    decreases |mask|
  {
    if |mask| == 0 then 0 else Count(mask[..|mask| - 1]) + (if mask[|mask| - 1] then 1 else 0)
  }

  function And(a: seq<bool>, b: seq<bool>): seq<bool>
    requires |a| == |b|
  {
    seq(|a|, i requires 0 <= i < |a| => a[i] && b[i])
  }

  function Or(a: seq<bool>, b: seq<bool>): seq<bool>
    requires |a| == |b|
  {
    seq(|a|, i requires 0 <= i < |a| => a[i] || b[i])
  }

  function Not(a: seq<bool>): seq<bool>
  {
    seq(|a|, i requires 0 <= i < |a| => !a[i])
  }

  /** The rates of _match_masks, as pixel counts over `pixels` pixels. */
  datatype Rates = Rates(pixels: nat, tp: nat, tn: nat, fp: nat, fn: nat, lp: nat, ln: int, dp: nat, dn: int)

  /** _match_masks for two masks of the same image size. */
  function MatchMasks(labelled: seq<bool>, detected: seq<bool>): Rates
    requires |labelled| == |detected|
  {
    var lp := Count(labelled);
    var dp := Count(detected);
    Rates(|labelled|,
          Count(And(labelled, detected)),
          Count(Not(Or(labelled, detected))),
          Count(And(detected, Not(labelled))),
          Count(And(Not(detected), labelled)),
          lp, |labelled| - lp, dp, |labelled| - dp)
  }

  function Bit(b: bool): nat
  {
    if b then 1 else 0
  }

  /** Two masks whose set pixels never overlap and together make up a third mask count up to
      that mask. */
  lemma {:induction false} CountDisjointUnion(x: seq<bool>, y: seq<bool>, z: seq<bool>)
    requires |x| == |y| == |z|
    requires forall i :: 0 <= i < |z| ==> Bit(x[i]) + Bit(y[i]) == Bit(z[i])
    ensures Count(x) + Count(y) == Count(z)
    decreases |z|
  {
    if |z| != 0 {
      var n := |z| - 1;
      CountDisjointUnion(x[..n], y[..n], z[..n]);
    }
  }

  /** A mask and its complement count up to the number of pixels. */
  lemma {:induction false} CountComplement(x: seq<bool>)
    ensures Count(x) + Count(Not(x)) == |x|
    decreases |x|
  {
    if |x| != 0 {
      var n := |x| - 1;
      CountComplement(x[..n]);
      assert Not(x)[..n] == Not(x[..n]);
    }
  }

  /** The four cells of the confusion matrix: true and false positives make up the detected
      pixels, true positives and false negatives the labelled ones, and false negatives and
      true negatives the pixels not detected. */
  lemma ConfusionCounts(labelled: seq<bool>, detected: seq<bool>)
    requires |labelled| == |detected|
    ensures Count(And(labelled, detected)) + Count(And(detected, Not(labelled))) == Count(detected)
    ensures Count(And(labelled, detected)) + Count(And(Not(detected), labelled)) == Count(labelled)
    ensures Count(And(Not(detected), labelled)) + Count(Not(Or(labelled, detected))) == Count(Not(detected))
  {
    CountDisjointUnion(And(labelled, detected), And(detected, Not(labelled)), detected);
    CountDisjointUnion(And(labelled, detected), And(Not(detected), labelled), labelled);
    CountDisjointUnion(And(Not(detected), labelled), Not(Or(labelled, detected)), Not(detected));
  }

  /** The rates partition the image: tp + fp + fn + tn is every pixel, tp + fp the detected
      positives, tp + fn the labelled positives, and ln and dn are the complements of lp and
      dp, none of them negative. */
  lemma MatchMasksPartition(labelled: seq<bool>, detected: seq<bool>)
    requires |labelled| == |detected|
    ensures var r := MatchMasks(labelled, detected);
      && r.pixels == |labelled|
      && r.tp + r.fp + r.fn + r.tn == r.pixels
      && r.tp + r.fp == r.dp
      && r.tp + r.fn == r.lp
      && r.lp + r.ln == r.pixels && 0 <= r.ln
      && r.dp + r.dn == r.pixels && 0 <= r.dn
  {
    ConfusionCounts(labelled, detected);
    CountComplement(detected);
  }

  // ---------------------------------------------------------------------------------------
  // The vector arithmetic of _generate_circle_mask_from_vectors and
  // _generate_obstacle_mask_from_msg.

  datatype Circle = Circle(centerX: int, centerY: int, radius: int)

  /** The circle drawn for an annotation vector: centred at the midpoint of its first two
      points, with half the sum of the half width and the half height as its radius, every
      division being Python 2's floor division. A vector with fewer than two points makes the
      source fail with an IndexError: None. */
  function CircleOf(vector: seq<Corner>): (c: Option<Circle>)
    ensures c.Some? <==> |vector| >= 2
    ensures c.Some? ==>
      var a, b := vector[0], vector[1];
      && 2 * (c.value.centerX - a.x) <= b.x - a.x < 2 * (c.value.centerX - a.x) + 2
      && 2 * (c.value.centerY - a.y) <= b.y - a.y < 2 * (c.value.centerY - a.y) + 2
      && 2 * c.value.radius <= (c.value.centerX - a.x) + (c.value.centerY - a.y) < 2 * c.value.radius + 2
  {
    if |vector| < 2 then None
    else
      var a, b := vector[0], vector[1];
      Some(Circle(a.x + (b.x - a.x) / 2, a.y + (b.y - a.y) / 2, ((b.x - a.x) / 2 + (b.y - a.y) / 2) / 2))
  }

  /** For a box given by its upper-left and lower-right corners, the centre lies inside the box
      and four times the radius is the width plus the height, less at most 4 for the rounding
      of the floor divisions. */
  lemma CircleInsideBox(vector: seq<Corner>)
    requires |vector| >= 2 && vector[0].x <= vector[1].x && vector[0].y <= vector[1].y
    ensures var c := CircleOf(vector).value;
      var w, h := vector[1].x - vector[0].x, vector[1].y - vector[0].y;
      && vector[0].x <= c.centerX <= vector[1].x
      && vector[0].y <= c.centerY <= vector[1].y
      && 0 <= c.radius
      && 4 * c.radius <= w + h
      && w + h <= 4 * c.radius + 4
  {
  }

  /** The rectangle drawn for a message obstacle: from its top-left corner to the corner offset
      by its width and height. */
  datatype Rectangle = Rectangle(first: Corner, second: Corner)

  function RectangleOf(o: ObstacleInImage): (r: Rectangle)
    ensures r.first == Corner(o.topLeft.x, o.topLeft.y)
    ensures r.second.x - r.first.x == o.width && r.second.y - r.first.y == o.height
  {
    Rectangle(Corner(o.topLeft.x, o.topLeft.y), Corner(o.topLeft.x + o.width, o.topLeft.y + o.height))
  }

  /** _generate_obstacle_mask_from_msg collects the rectangle of every obstacle of the message,
      in order, before drawing them. */
  method ObstacleVectors(msg: ObstaclesInImage) returns (vectors: seq<Rectangle>)
    ensures |vectors| == |msg.obstacles|
    ensures forall i :: 0 <= i < |vectors| ==>
      && vectors[i].first == Corner(msg.obstacles[i].topLeft.x, msg.obstacles[i].topLeft.y)
      && vectors[i].second.x == msg.obstacles[i].topLeft.x + msg.obstacles[i].width
      && vectors[i].second.y == msg.obstacles[i].topLeft.y + msg.obstacles[i].height
  {
    vectors := [];
    for i := 0 to |msg.obstacles|
      invariant |vectors| == i
      invariant forall k :: 0 <= k < i ==> vectors[k] == RectangleOf(msg.obstacles[k])
    {
      vectors := vectors + [RectangleOf(msg.obstacles[i])];
    }
  }

  /** The evaluator reads back what the vision node publishes: the rectangle of an obstacle the
      node reported starts at the candidate's corner and spans the candidate's extents rounded
      toward zero, so for non-negative extents it lies within one pixel of the candidate. */
  lemma ObstacleRectangleOfCandidate(o: VisionOutput.ObstacleCandidate, color: ObstacleColor, playerNumber: int)
    requires 0.0 <= o.width && 0.0 <= o.height
    ensures var r := RectangleOf(VisionOutput.ObstacleMessage(o, color, playerNumber));
      && r.first == Corner(o.upperLeftX, o.upperLeftY)
      && r.first.x <= r.second.x && r.first.y <= r.second.y
      && (r.second.x - r.first.x) as real <= o.width < (r.second.x - r.first.x) as real + 1.0
      && (r.second.y - r.first.y) as real <= o.height < (r.second.y - r.first.y) as real + 1.0
  {
    VisionOutput.ObstacleMessageGeometry(o, color, playerNumber);
  }
}
