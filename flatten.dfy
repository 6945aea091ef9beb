/**
 * The loop of `getPredictedLabel` that flattens landmarks into the request
 * payload `[x0, y0, z0, x1, y1, z1, ...]`.
 */
module Flatten {
  import opened Geometry

  /** The payload for `pts`: each point's coordinates in order, point after point. */
  function Flattened(pts: seq<Point3>): (flat: seq<real>)
    ensures |flat| == 3 * |pts|
  {
    if |pts| == 0 then []
    else
      var p := pts[|pts| - 1];
      Flattened(pts[..|pts| - 1]) + [p.x, p.y, p.z]
  }

  /** Flattening fixes the position of every coordinate: 3 entries per point, point-major. */
  lemma {:induction false} FlattenedAt(pts: seq<Point3>)
    ensures |Flattened(pts)| == 3 * |pts|
    ensures forall i :: 0 <= i < |pts| ==>
              Flattened(pts)[3 * i] == pts[i].x
              && Flattened(pts)[3 * i + 1] == pts[i].y
              && Flattened(pts)[3 * i + 2] == pts[i].z
  {
    if |pts| > 0 {
      var init := pts[..|pts| - 1];
      FlattenedAt(init);
      forall i | 0 <= i < |init|
        ensures Flattened(pts)[3 * i] == pts[i].x
        ensures Flattened(pts)[3 * i + 1] == pts[i].y
        ensures Flattened(pts)[3 * i + 2] == pts[i].z
      {
        assert pts[i] == init[i];
      }
    }
  }

  /** The inverse of flattening: regroup a payload into points, three numbers each. */
  function Unflatten(flat: seq<real>): (pts: seq<Point3>)
    requires |flat| % 3 == 0
    ensures |pts| * 3 == |flat|
  {
    seq(|flat| / 3, i requires 0 <= i < |flat| / 3 => Point3(flat[3 * i], flat[3 * i + 1], flat[3 * i + 2]))
  }

  /** Regrouping a payload recovers the landmarks it was flattened from. */
  lemma UnflattenFlattened(pts: seq<Point3>)
    ensures |Flattened(pts)| % 3 == 0
    ensures Unflatten(Flattened(pts)) == pts
  {
    FlattenedAt(pts);
  }

  /** Every payload whose length is a multiple of 3 is the flattening of its regrouping. */
  lemma FlattenedUnflatten(flat: seq<real>)
    requires |flat| % 3 == 0
    ensures Flattened(Unflatten(flat)) == flat
  {
    var pts := Unflatten(flat);
    FlattenedAt(pts);
    var again := Flattened(pts);
    forall k | 0 <= k < |flat| ensures again[k] == flat[k] {
      var i := k / 3;
      assert k == 3 * i + k % 3;
      assert pts[i] == Point3(flat[3 * i], flat[3 * i + 1], flat[3 * i + 2]);
    }
  }

  /**
   * The flatten loop: starting from an empty array, push the x, y and z of
   * each landmark in index order.
   */
  method FlattenLandmarks(pts: seq<Point3>) returns (flat: seq<real>)
    ensures |flat| == 3 * |pts|
    ensures forall i :: 0 <= i < |pts| ==>
              flat[3 * i] == pts[i].x && flat[3 * i + 1] == pts[i].y && flat[3 * i + 2] == pts[i].z
    ensures flat == Flattened(pts)
  {
    flat := [];
    for i := 0 to |pts|
      invariant flat == Flattened(pts[..i])
    {
      var point := pts[i];
      assert pts[..i + 1][..i] == pts[..i];
      flat := flat + [point.x, point.y, point.z];
    }
    assert pts[..|pts|] == pts;
    FlattenedAt(pts);
  }
}
