/**
 * `getPredictedLabel`: normalise, flatten, send one request, check the
 * label. The HTTP exchange itself is a parameter `server`: it maps the
 * request payload to how the exchange ended.
 */
module Predictor {
  import opened Options
  import opened Geometry
  import opened Normalize
  import opened Flatten
  import opened Labels

  /** How the single POST ends, as the client sees it. */
  datatype Response =
    | TransportFailure              // `fetch` rejects, or `response.json()` throws
    | HttpError(status: int)        // `response.ok` is false
    | Reply(prediction: Prediction) // a parsed body and its `prediction` field

  /**
   * The payload `getPredictedLabel` posts, or `None` when it throws before
   * posting: with a null argument, reading `.length` in the flatten loop
   * throws and the `catch` returns null.
   */
  function RequestPayload(landmarks: Option<seq<Point3>>, dist: (Point3, Point3) -> real): (payload: Option<seq<real>>)
    ensures payload.None? <==> landmarks.None?
    ensures landmarks.Some? ==> |payload.value| == 3 * |landmarks.value|
  {
    match Normalized(landmarks, dist)
    case None => None
    case Some(pts) => Some(Flattened(pts))
  }

  /** What `getPredictedLabel` resolves to when the exchange goes as `server` says. */
  function PredictedLabel(landmarks: Option<seq<Point3>>, dist: (Point3, Point3) -> real,
                          server: seq<real> -> Response): (r: Option<string>)
    ensures r.None? || r.value in ValidLabels
  {
    match RequestPayload(landmarks, dist)
    case None => None
    case Some(payload) =>
      match server(payload)
      case Reply(prediction) => CheckLabel(prediction)
      case _ => None
  }

  /** `getPredictedLabel`, with the `fetch` exchange given by `server`. */
  method GetPredictedLabel(landmarks: Option<seq<Point3>>, dist: (Point3, Point3) -> real,
                           server: seq<real> -> Response)
    returns (r: Option<string>)
    ensures r == PredictedLabel(landmarks, dist, server)
    ensures r.None? || r.value in ValidLabels
  {
    var normalizedLandmarks := NormalizeLandmarks(landmarks, dist);
    if normalizedLandmarks.None? {
      return None;
    }
    var flattenedData := FlattenLandmarks(normalizedLandmarks.value);
    var response := server(flattenedData);
    match response
    case Reply(prediction) =>
      r := CheckLabel(prediction);
    case _ =>
      r := None;
  }

  /** A null argument posts nothing and resolves to null, whatever the server would do. */
  lemma AbsentInputYieldsNull(dist: (Point3, Point3) -> real, server: seq<real> -> Response)
    ensures RequestPayload(None, dist) == None
    ensures PredictedLabel(None, dist, server) == None
  {
  }

  /** A failed exchange (transport error, unparsable body, non-success status) resolves to null. */
  lemma FailureYieldsNull(landmarks: Option<seq<Point3>>, dist: (Point3, Point3) -> real,
                          server: seq<real> -> Response)
    requires RequestPayload(landmarks, dist).Some?
    requires !server(RequestPayload(landmarks, dist).value).Reply?
    ensures PredictedLabel(landmarks, dist, server) == None
  {
  }

  /**
   * For a 21-point hand the payload holds 63 numbers: entries 3i, 3i+1 and
   * 3i+2 are the normalised x, y and z of landmark i.
   */
  lemma HandPayload(pts: seq<Point3>, dist: (Point3, Point3) -> real)
    requires |pts| == HandSize
    ensures RequestPayload(Some(pts), dist).Some?
    ensures |RequestPayload(Some(pts), dist).value| == 63
    ensures forall i :: 0 <= i < |pts| ==>
              var q := Normalized(Some(pts), dist).value[i];
              var payload := RequestPayload(Some(pts), dist).value;
              payload[3 * i] == q.x && payload[3 * i + 1] == q.y && payload[3 * i + 2] == q.z
  {
    LengthPreserved(pts, dist);
    FlattenedAt(Normalized(Some(pts), dist).value);
  }

  /**
   * Any other present input is posted as it is: 3n numbers, the raw
   * coordinates, with no shape check before the request.
   */
  lemma OtherShapePayload(pts: seq<Point3>, dist: (Point3, Point3) -> real)
    requires |pts| != HandSize
    ensures RequestPayload(Some(pts), dist).Some?
    ensures |RequestPayload(Some(pts), dist).value| == 3 * |pts|
    ensures forall i :: 0 <= i < |pts| ==>
              var payload := RequestPayload(Some(pts), dist).value;
              payload[3 * i] == pts[i].x && payload[3 * i + 1] == pts[i].y && payload[3 * i + 2] == pts[i].z
  {
    FlattenedAt(pts);
  }

  /** A reply is accepted exactly when its prediction is a string equal, ignoring case, to an allowed label. */
  lemma ReplyAccepted(landmarks: Option<seq<Point3>>, dist: (Point3, Point3) -> real,
                      server: seq<real> -> Response, s: string, l: string)
    requires RequestPayload(landmarks, dist).Some?
    requires server(RequestPayload(landmarks, dist).value) == Reply(Text(s))
    ensures PredictedLabel(landmarks, dist, server) == Some(l) <==> l in ValidLabels && EqualsIgnoringCase(s, l)
  {
    CheckLabelIff(s, l);
  }
}
