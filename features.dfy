/**
 * The per-frame feature vector built in `EmotionProcessor.recv` (music.py).
 * Landmarks are pairs of reals: the layout properties below (lengths, slice
 * positions, zero padding, zero deltas at the anchors) do not depend on
 * floating-point behaviour.
 */
module Features {
  import opened Wrappers

  /** One detected landmark; only its x and y coordinates enter the vector. */
  datatype Point = Point(x: real, y: real)

  /** The face landmark every face coordinate is taken relative to. */
  const FaceAnchor: nat := 1
  /** The hand landmark (the index fingertip) every hand coordinate is taken relative to. */
  const HandAnchor: nat := 8
  /** How many zeros stand in for a hand that was not detected. */
  const AbsentHandWidth: nat := 42

  /** The coordinates of `pts` relative to `anchor`: x then y for each point, in order. */
  function Deltas(pts: seq<Point>, anchor: Point): (r: seq<real>)
    ensures |r| == 2 * |pts|
    decreases |pts|
  {
    if |pts| == 0 then []
    else
      var last := pts[|pts| - 1];
      Deltas(pts[..|pts| - 1], anchor) + [last.x - anchor.x, last.y - anchor.y]
  }

  function Zeros(n: nat): seq<real>
  {
    seq(n, _ => 0.0)
  }

  /** A hand the code can process without indexing out of range: absent, or holding its anchor. */
  predicate HandOk(hand: Option<seq<Point>>)
  {
    hand.None? || |hand.value| > HandAnchor
  }

  /** Landmark sets the feature builder accepts: the face holds its anchor, so does each present hand. */
  predicate WellFormed(face: seq<Point>, left: Option<seq<Point>>, right: Option<seq<Point>>)
  {
    |face| > FaceAnchor && HandOk(left) && HandOk(right)
  }

  /** How many entries a hand contributes to the vector. */
  function HandWidth(hand: Option<seq<Point>>): (width: nat)
    ensures hand.None? ==> width == AbsentHandWidth
    ensures hand.Some? ==> width == 2 * |hand.value|
  {
    match hand
    case None => AbsentHandWidth
    case Some(pts) => 2 * |pts|
  }

  /** What a hand contributes: deltas to its own anchor when present, zeros when absent. */
  function HandSlice(hand: Option<seq<Point>>): (r: seq<real>)
    requires HandOk(hand)
    ensures |r| == HandWidth(hand)
  {
    match hand
    case None => Zeros(AbsentHandWidth)
    case Some(pts) => Deltas(pts, pts[HandAnchor])
  }

  /** The whole feature vector: face deltas, then the left hand's slice, then the right hand's. */
  function FeatureSpec(face: seq<Point>, left: Option<seq<Point>>, right: Option<seq<Point>>): (r: seq<real>)
    requires WellFormed(face, left, right)
    ensures |r| == 2 * |face| + HandWidth(left) + HandWidth(right)
  {
    Deltas(face, face[FaceAnchor]) + HandSlice(left) + HandSlice(right)
  }

  /** Appends the deltas of `pts` relative to `anchor`, one point per iteration. */
  method AppendDeltas(prefix: seq<real>, pts: seq<Point>, anchor: Point) returns (lst: seq<real>)
    ensures lst == prefix + Deltas(pts, anchor)
  {
    lst := prefix;
    for i := 0 to |pts|
      invariant lst == prefix + Deltas(pts[..i], anchor)
    {
      assert pts[..i + 1][..i] == pts[..i];
      lst := lst + [pts[i].x - anchor.x, pts[i].y - anchor.y];
    }
    assert pts[..|pts|] == pts;
  }

  /** Appends `n` zeros, one per iteration. */
  method AppendZeros(prefix: seq<real>, n: nat) returns (lst: seq<real>)
    ensures lst == prefix + Zeros(n)
  {
    lst := prefix;
    for i := 0 to n
      invariant lst == prefix + Zeros(i)
    {
      assert Zeros(i + 1) == Zeros(i) + [0.0];
      lst := lst + [0.0];
    }
  }

  /** Appends one hand's slice: its deltas when detected, 42 zeros otherwise. */
  method AppendHand(prefix: seq<real>, hand: Option<seq<Point>>) returns (lst: seq<real>)
    requires HandOk(hand)
    ensures lst == prefix + HandSlice(hand)
  {
    if hand.Some? {
      lst := AppendDeltas(prefix, hand.value, hand.value[HandAnchor]);
    } else {
      lst := AppendZeros(prefix, AbsentHandWidth);
    }
  }

  /** Builds the feature vector by appending, face first, then the left hand, then the right hand. */
  method BuildFeatures(face: seq<Point>, left: Option<seq<Point>>, right: Option<seq<Point>>)
    returns (lst: seq<real>)
    requires WellFormed(face, left, right)
    ensures lst == FeatureSpec(face, left, right)
  {
    lst := AppendDeltas([], face, face[FaceAnchor]);
    lst := AppendHand(lst, left);
    lst := AppendHand(lst, right);
  }

  /** Entries 2i and 2i+1 of the deltas are point i's coordinates minus the anchor's. */
  lemma {:induction false} DeltasAt(pts: seq<Point>, anchor: Point, i: nat)
    requires i < |pts|
    ensures Deltas(pts, anchor)[2 * i] == pts[i].x - anchor.x
    ensures Deltas(pts, anchor)[2 * i + 1] == pts[i].y - anchor.y
    decreases |pts|
  {
    var init := pts[..|pts| - 1];
    if i < |pts| - 1 {
      DeltasAt(init, anchor, i);
      assert init[i] == pts[i];
    }
  }

  /** The face slice: entry 2i is face[i].x - face[1].x, entry 2i+1 is face[i].y - face[1].y. */
  lemma FaceEntries(face: seq<Point>, left: Option<seq<Point>>, right: Option<seq<Point>>, i: nat)
    requires WellFormed(face, left, right) && i < |face|
    ensures FeatureSpec(face, left, right)[2 * i] == face[i].x - face[FaceAnchor].x
    ensures FeatureSpec(face, left, right)[2 * i + 1] == face[i].y - face[FaceAnchor].y
  {
    DeltasAt(face, face[FaceAnchor], i);
  }

  /** The face anchor's own pair is (0, 0). */
  lemma FaceAnchorZero(face: seq<Point>, left: Option<seq<Point>>, right: Option<seq<Point>>)
    requires WellFormed(face, left, right)
    ensures FeatureSpec(face, left, right)[2 * FaceAnchor] == 0.0
    ensures FeatureSpec(face, left, right)[2 * FaceAnchor + 1] == 0.0
  {
    FaceEntries(face, left, right, FaceAnchor);
  }

  /** The left slice starts right after the face slice, the right slice right after the left one. */
  lemma SlicePositions(face: seq<Point>, left: Option<seq<Point>>, right: Option<seq<Point>>)
    requires WellFormed(face, left, right)
    ensures FeatureSpec(face, left, right)[..2 * |face|] == Deltas(face, face[FaceAnchor])
    ensures FeatureSpec(face, left, right)[2 * |face|..2 * |face| + HandWidth(left)] == HandSlice(left)
    ensures FeatureSpec(face, left, right)[2 * |face| + HandWidth(left)..] == HandSlice(right)
  {
    ThreeParts(Deltas(face, face[FaceAnchor]), HandSlice(left), HandSlice(right));
  }

  lemma ThreeParts(f: seq<real>, l: seq<real>, r: seq<real>)
    ensures (f + l + r)[..|f|] == f
    ensures (f + l + r)[|f|..|f| + |l|] == l
    ensures (f + l + r)[|f| + |l|..] == r
  {
  }

  /** Pair i of a present hand's slice is that landmark's coordinates minus those of landmark 8. */
  lemma HandEntries(hand: Option<seq<Point>>, i: nat)
    requires HandOk(hand) && hand.Some? && i < |hand.value|
    ensures HandSlice(hand)[2 * i] == hand.value[i].x - hand.value[HandAnchor].x
    ensures HandSlice(hand)[2 * i + 1] == hand.value[i].y - hand.value[HandAnchor].y
  {
    DeltasAt(hand.value, hand.value[HandAnchor], i);
  }

  /** A present hand's anchor pair is (0, 0), at its place after the face (left) or after the left slice (right). */
  lemma HandAnchorZero(face: seq<Point>, left: Option<seq<Point>>, right: Option<seq<Point>>)
    requires WellFormed(face, left, right)
    ensures left.Some? ==>
      FeatureSpec(face, left, right)[2 * |face| + 2 * HandAnchor] == 0.0 &&
      FeatureSpec(face, left, right)[2 * |face| + 2 * HandAnchor + 1] == 0.0
    ensures right.Some? ==>
      FeatureSpec(face, left, right)[2 * |face| + HandWidth(left) + 2 * HandAnchor] == 0.0 &&
      FeatureSpec(face, left, right)[2 * |face| + HandWidth(left) + 2 * HandAnchor + 1] == 0.0
  {
    SlicePositions(face, left, right);
    var v := FeatureSpec(face, left, right);
    if left.Some? {
      HandEntries(left, HandAnchor);
      var s := 2 * |face|;
      assert v[s..s + HandWidth(left)][2 * HandAnchor] == v[s + 2 * HandAnchor];
      assert v[s..s + HandWidth(left)][2 * HandAnchor + 1] == v[s + 2 * HandAnchor + 1];
    }
    if right.Some? {
      HandEntries(right, HandAnchor);
      var s := 2 * |face| + HandWidth(left);
      assert v[s..][2 * HandAnchor] == v[s + 2 * HandAnchor];
      assert v[s..][2 * HandAnchor + 1] == v[s + 2 * HandAnchor + 1];
    }
  }

  /** An absent hand occupies exactly 42 entries at its fixed place, all zero. */
  lemma AbsentHandZero(face: seq<Point>, left: Option<seq<Point>>, right: Option<seq<Point>>)
    requires WellFormed(face, left, right)
    ensures left.None? ==> forall k :: 2 * |face| <= k < 2 * |face| + AbsentHandWidth ==>
      FeatureSpec(face, left, right)[k] == 0.0
    ensures right.None? ==> forall k :: 2 * |face| + HandWidth(left) <= k < 2 * |face| + HandWidth(left) + AbsentHandWidth ==>
      FeatureSpec(face, left, right)[k] == 0.0
  {
  }

  /** A full face mesh of 468 points and no hands gives the classifier's 1020 inputs. */
  lemma FaceOnlyLength(face: seq<Point>)
    requires |face| == 468
    ensures |FeatureSpec(face, None, None)| == 1020
  {
  }

  /** A fully detected hand (21 landmarks) takes as many entries as an absent one, so the length is fixed. */
  lemma FullHandsKeepLength(face: seq<Point>, left: Option<seq<Point>>, right: Option<seq<Point>>)
    requires WellFormed(face, left, right)
    requires left.Some? ==> |left.value| == 21
    requires right.Some? ==> |right.value| == 21
    ensures |FeatureSpec(face, left, right)| == 2 * |face| + 2 * AbsentHandWidth
  {
  }
}
