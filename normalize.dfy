/**
 * `normalizeLandmarks` of api-call.js: translate a 21-point hand skeleton so
 * that the wrist is the origin and divide by the largest wrist distance.
 *
 * `Math.sqrt` has no counterpart over Dafny's reals, so the distance that
 * `distance3D` computes is a parameter `dist`; the lemmas that need its
 * meaning assume `IsEuclideanLike(dist)`.
 */
module Normalize {
  import opened Options
  import opened Geometry

  /** Number of landmarks in a hand skeleton; any other length passes through. */
  const HandSize: nat := 21
  /** Index of the wrist, the origin of the normalised frame. */
  const WristIndex: nat := 0
  /** Index of the landmark the source calls the mid-finger tip. */
  const MidFingerTipIndex: nat := 9

  /** `Math.max` on two (non-NaN) numbers. */
  function Max(a: real, b: real): (m: real)
    ensures a <= m && b <= m
    ensures m == a || m == b
  {
    if a >= b then a else b
  }

  /**
   * The value of `maxDist` after the `for...of` loop has visited `pts`:
   * it starts at 0 and is replaced by every strictly larger wrist distance.
   */
  function MaxWristDist(wrist: Point3, pts: seq<Point3>, dist: (Point3, Point3) -> real): (m: real)
    ensures 0.0 <= m
  {
    if |pts| == 0 then 0.0
    else
      var m := MaxWristDist(wrist, pts[..|pts| - 1], dist);
      var d := dist(wrist, pts[|pts| - 1]);
      if d > m then d else m
  }

  /** The running maximum is non-negative and dominates every wrist distance. */
  lemma {:induction false} MaxWristDistDominates(wrist: Point3, pts: seq<Point3>, dist: (Point3, Point3) -> real)
    ensures 0.0 <= MaxWristDist(wrist, pts, dist)
    ensures forall i :: 0 <= i < |pts| ==> dist(wrist, pts[i]) <= MaxWristDist(wrist, pts, dist)
  {
    if |pts| > 0 {
      var init := pts[..|pts| - 1];
      MaxWristDistDominates(wrist, init, dist);
      forall i | 0 <= i < |pts| - 1
        ensures dist(wrist, pts[i]) <= MaxWristDist(wrist, pts, dist)
      {
        assert pts[i] == init[i];
      }
    }
  }

  /** The running maximum is either its initial 0 or some wrist distance. */
  lemma {:induction false} MaxWristDistAttained(wrist: Point3, pts: seq<Point3>, dist: (Point3, Point3) -> real)
    ensures MaxWristDist(wrist, pts, dist) == 0.0
         || exists j :: 0 <= j < |pts| && dist(wrist, pts[j]) == MaxWristDist(wrist, pts, dist)
  {
    if |pts| > 0 {
      var init := pts[..|pts| - 1];
      MaxWristDistAttained(wrist, init, dist);
      if MaxWristDist(wrist, pts, dist) != 0.0 && MaxWristDist(wrist, pts, dist) != dist(wrist, pts[|pts| - 1]) {
        var j :| 0 <= j < |init| && dist(wrist, init[j]) == MaxWristDist(wrist, init, dist);
        assert init[j] == pts[j];
      }
    }
  }

  /** The scale of a hand: `Math.max(scale1, maxDist)`. */
  function Scale(pts: seq<Point3>, dist: (Point3, Point3) -> real): (scale: real)
    requires |pts| == HandSize
    ensures 0.0 <= scale
    ensures dist(pts[WristIndex], pts[MidFingerTipIndex]) <= scale
  {
    Max(dist(pts[WristIndex], pts[MidFingerTipIndex]), MaxWristDist(pts[WristIndex], pts, dist))
  }

  /**
   * The scale dominates the wrist distance of every landmark (index 9
   * included), and the `scale1` term is redundant: the scale is the
   * loop's maximum alone.
   */
  lemma ScaleDominates(pts: seq<Point3>, dist: (Point3, Point3) -> real)
    requires |pts| == HandSize
    ensures 0.0 <= Scale(pts, dist)
    ensures forall i :: 0 <= i < |pts| ==> dist(pts[WristIndex], pts[i]) <= Scale(pts, dist)
    ensures Scale(pts, dist) == MaxWristDist(pts[WristIndex], pts, dist)
  {
    MaxWristDistDominates(pts[WristIndex], pts, dist);
  }

  /** What `normalizeLandmarks` returns; `None` stands for a null or undefined argument. */
  function Normalized(landmarks: Option<seq<Point3>>, dist: (Point3, Point3) -> real): (r: Option<seq<Point3>>)
    ensures r.None? <==> landmarks.None?
    ensures landmarks.Some? ==> |r.value| == |landmarks.value|
  {
    match landmarks
    case None => None
    case Some(pts) =>
      if |pts| != HandSize then landmarks
      else
        var scale := Scale(pts, dist);
        if scale == 0.0 then Some(seq(|pts|, i requires 0 <= i < |pts| => pts[i]))
        else Some(seq(|pts|, i requires 0 <= i < |pts| => Rescale(pts[i], pts[WristIndex], scale)))
  }

  /**
   * `normalizeLandmarks`: the guard, the scale computed with a running
   * maximum, the copy when the scale is zero, the per-point map otherwise.
   */
  method NormalizeLandmarks(landmarks: Option<seq<Point3>>, dist: (Point3, Point3) -> real)
    returns (r: Option<seq<Point3>>)
    ensures r == Normalized(landmarks, dist)
  {
    if landmarks.None? || |landmarks.value| != HandSize {
      return landmarks;
    }
    var pts := landmarks.value;
    var wrist := pts[WristIndex];
    var midFingerTip := pts[MidFingerTipIndex];
    var scale1 := dist(wrist, midFingerTip);

    var maxDist := 0.0;
    for k := 0 to |pts|
      invariant maxDist == MaxWristDist(wrist, pts[..k], dist)
    {
      assert pts[..k + 1][..k] == pts[..k];
      var d := dist(wrist, pts[k]);
      if d > maxDist {
        maxDist := d;
      }
    }
    assert pts[..|pts|] == pts;

    var scale := Max(scale1, maxDist);
    if scale == 0.0 {
      return Some(seq(|pts|, i requires 0 <= i < |pts| => pts[i]));
    }
    r := Some(seq(|pts|, i requires 0 <= i < |pts| => Rescale(pts[i], wrist, scale)));
  }

  // ---- properties of the specification ----

  /** Absent input, or input whose length is not 21, is returned as it is. */
  lemma PassThrough(landmarks: Option<seq<Point3>>, dist: (Point3, Point3) -> real)
    requires landmarks.None? || |landmarks.value| != HandSize
    ensures Normalized(landmarks, dist) == landmarks
  {
  }

  /** Present input keeps its length, on every branch. */
  lemma LengthPreserved(pts: seq<Point3>, dist: (Point3, Point3) -> real)
    ensures Normalized(Some(pts), dist).Some?
    ensures |Normalized(Some(pts), dist).value| == |pts|
  {
  }

  /** With a zero scale the result is a pointwise copy equal to the input. */
  lemma ZeroScaleCopies(pts: seq<Point3>, dist: (Point3, Point3) -> real)
    requires |pts| == HandSize && Scale(pts, dist) == 0.0
    ensures Normalized(Some(pts), dist) == Some(pts)
  {
    var r := Normalized(Some(pts), dist).value;
    assert forall i :: 0 <= i < |pts| ==> r[i] == pts[i];
    assert r == pts;
  }

  /**
   * With a nonzero scale, output point `i` is `(landmarks[i] - wrist) / scale`
   * componentwise, and the wrist itself lands on the origin.
   */
  lemma NonzeroScaleFormula(pts: seq<Point3>, dist: (Point3, Point3) -> real, i: nat)
    requires |pts| == HandSize && Scale(pts, dist) != 0.0 && i < |pts|
    ensures Normalized(Some(pts), dist).Some?
    ensures |Normalized(Some(pts), dist).value| == |pts|
    ensures Normalized(Some(pts), dist).value[i]
         == Point3((pts[i].x - pts[WristIndex].x) / Scale(pts, dist),
                   (pts[i].y - pts[WristIndex].y) / Scale(pts, dist),
                   (pts[i].z - pts[WristIndex].z) / Scale(pts, dist))
    ensures Normalized(Some(pts), dist).value[WristIndex] == Origin
  {
  }

  // ---- properties that need the Euclidean distance ----

  /** The scale is zero exactly when every landmark sits on the wrist. */
  lemma ScaleZeroIffCollapsed(pts: seq<Point3>, dist: (Point3, Point3) -> real)
    requires IsEuclideanLike(dist) && |pts| == HandSize
    ensures Scale(pts, dist) == 0.0 <==> forall i :: 0 <= i < |pts| ==> pts[i] == pts[WristIndex]
  {
    var wrist := pts[WristIndex];
    ScaleDominates(pts, dist);
    if Scale(pts, dist) != 0.0 {
      MaxWristDistAttained(wrist, pts, dist);
      var j :| 0 <= j < |pts| && dist(wrist, pts[j]) == Scale(pts, dist);
      assert pts[j] != wrist;
    }
  }

  /**
   * A landmark whose (in fact all) coordinates coincide with the wrist's
   * normalises, through the zero-scale branch, to an unchanged copy.
   */
  lemma CollapsedHandCopies(pts: seq<Point3>, dist: (Point3, Point3) -> real)
    requires IsEuclideanLike(dist) && |pts| == HandSize
    requires forall i :: 0 <= i < |pts| ==> pts[i] == pts[WristIndex]
    ensures Normalized(Some(pts), dist) == Some(pts)
  {
    ScaleZeroIffCollapsed(pts, dist);
    ZeroScaleCopies(pts, dist);
  }

  /** In the normalised frame a landmark's distance from the origin is its wrist distance over the scale. */
  lemma RescaledDistance(dist: (Point3, Point3) -> real, p: Point3, wrist: Point3, scale: real)
    requires IsEuclideanLike(dist) && 0.0 < scale
    ensures dist(Origin, Rescale(p, wrist, scale)) == dist(wrist, p) / scale
  {
    RescaleOrigin(wrist, scale);
    assert dist(Rescale(wrist, wrist, scale), Rescale(p, wrist, scale)) == dist(wrist, p) / scale;
  }

  /** A distance no larger than a positive scale is at most one scale unit, and exactly one when equal. */
  lemma RatioAtMostOne(d: real, scale: real)
    requires 0.0 <= d <= scale && 0.0 < scale
    ensures d / scale <= 1.0
    ensures d == scale ==> d / scale == 1.0
  {
  }

  /**
   * With a nonzero scale every normalised landmark lies within distance 1 of
   * the origin, and the landmark farthest from the wrist lies at distance 1.
   */
  lemma NormalizedInUnitBall(pts: seq<Point3>, dist: (Point3, Point3) -> real)
    requires IsEuclideanLike(dist) && |pts| == HandSize && Scale(pts, dist) != 0.0
    ensures forall i :: 0 <= i < |pts| ==> dist(Origin, Normalized(Some(pts), dist).value[i]) <= 1.0
    ensures exists j :: 0 <= j < |pts| && dist(Origin, Normalized(Some(pts), dist).value[j]) == 1.0
  {
    var wrist := pts[WristIndex];
    var scale := Scale(pts, dist);
    var r := Normalized(Some(pts), dist).value;
    ScaleDominates(pts, dist);
    forall i | 0 <= i < |pts| ensures dist(Origin, r[i]) <= 1.0 {
      RescaledDistance(dist, pts[i], wrist, scale);
      RatioAtMostOne(dist(wrist, pts[i]), scale);
    }
    MaxWristDistAttained(wrist, pts, dist);
    var j :| 0 <= j < |pts| && dist(wrist, pts[j]) == scale;
    RescaledDistance(dist, pts[j], wrist, scale);
    RatioAtMostOne(dist(wrist, pts[j]), scale);
    assert dist(Origin, r[j]) == 1.0;
  }
}
