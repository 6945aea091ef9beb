# Hand-landmark normaliser and label client, modelled in Dafny

`api-call.js` turns a hand skeleton of 21 three-dimensional landmarks into a
directional gesture label. `normalizeLandmarks` moves the skeleton into a
frame whose origin is the wrist (landmark 0) and whose unit is the largest
wrist distance. `getPredictedLabel` flattens the result into
`[x0, y0, z0, x1, ...]`, posts it to a classifier, and accepts the reply's
`prediction` only when, lower-cased, it is one of `up`, `down`, `left`,
`right`. Every failure resolves to `null`.

The model has six modules:

- `Options` (`options.dfy`): `Option`, standing for "a value or `null`".
- `Geometry` (`geometry.dfy`): `Point3` over `real`, the vector operations,
  and `IsEuclideanLike`. That predicate lists the properties of the Euclidean
  distance the proofs rely on: it is non-negative, it is zero exactly between
  equal points, and moving to a frame with a new origin and a positive unit
  `s` divides it by `s`.
- `Normalize` (`normalize.dfy`): `normalizeLandmarks` as a method
  `NormalizeLandmarks`. Its running maximum is a `for` loop, proved equal to
  the specification function `Normalized`. Lemmas prove the source's
  promises about `Normalized`.
- `Flatten` (`flatten.dfy`): the flatten loop as a method
  `FlattenLandmarks`, proved against `Flattened`. `Unflatten` is its inverse,
  with round trips proved in both directions.
- `Labels` (`labels.dfy`): the allow-list check `CheckLabel` with ASCII
  lower-casing.
- `Predictor` (`predictor.dfy`): `getPredictedLabel` as the method
  `GetPredictedLabel`. The HTTP exchange is a parameter
  `server: seq<real> -> Response`. It maps the posted payload to a transport
  failure, a non-success status, or a parsed reply.

`Math.sqrt` has no counterpart over Dafny's reals, so the distance
`distance3D` computes is a parameter `dist` of the normaliser. Every
property that needs no geometry holds for any `dist`. These include the
branches, the lengths, the formula, and the fact that the scale dominates
every wrist distance. The lemmas that need geometry assume
`IsEuclideanLike(dist)`.

Two facts about the code are worth stating plainly:

- Input of the wrong shape is not rejected before the request:
  `normalizeLandmarks` passes it through unchanged, and `getPredictedLabel`
  flattens it and posts it. `Predictor.OtherShapePayload` states what is
  then sent.
- The scale is `Math.max(scale1, maxDist)`, where `scale1` is the distance
  to landmark 9. Over real numbers the loop already covers landmark 9, so
  `scale1` never changes the scale (`Normalize.ScaleDominates`). In
  floating point it can: see "## Left out".

## Model

| member | source | states |
|---|---|---|
| `Normalize.Max` | api-call.js:33 | `Math.max` of two numbers is at least each of them and equal to one of them |
| `Normalize.MaxWristDist` | api-call.js:27-31 | defines `maxDist` after the loop: it starts at 0 and is replaced by each strictly larger wrist distance, front to back; the value is never negative |
| `Normalize.Scale` | api-call.js:24-33 | defines the scale as `Math.max(scale1, maxDist)`; it is never negative and is at least the wrist-to-landmark-9 distance |
| `Normalize.Normalized` | api-call.js:2-48 | defines the result of `normalizeLandmarks`: absent input stays absent, and present input yields a present output of the same length |
| `Normalize.MaxWristDistDominates` | api-call.js:27-31 | the running maximum `maxDist` is non-negative and at least the wrist distance of every landmark visited |
| `Normalize.MaxWristDistAttained` | api-call.js:27-31 | `maxDist` is either its initial 0 or the wrist distance of some landmark |
| `Normalize.ScaleDominates` | api-call.js:24-33 | the scale is non-negative, at least the wrist distance of every landmark (index 9 included), and equal to `maxDist` alone, so `scale1` never changes it |
| `Normalize.NormalizeLandmarks` | api-call.js:2-48 | the guard, the loop computing `maxDist`, `Math.max`, the zero-scale copy and the per-point map produce exactly `Normalized` |
| `Normalize.PassThrough` | api-call.js:3-6 | absent input, or input whose length is not 21, is returned unchanged |
| `Normalize.LengthPreserved` | api-call.js:35-45 | present input yields a present output of the same length, on every branch |
| `Normalize.ZeroScaleCopies` | api-call.js:35-38 | when the scale is zero the output is a pointwise copy equal to the input |
| `Normalize.NonzeroScaleFormula` | api-call.js:40-45 | when the scale is nonzero, output point i is `(landmarks[i] - wrist) / scale` componentwise, and the wrist maps to (0, 0, 0) |
| `Geometry.RescaleOrigin` | api-call.js:41-45 | the frame's origin (the wrist) is mapped to (0, 0, 0) |
| `Normalize.ScaleZeroIffCollapsed` | api-call.js:24-35 | for a Euclidean-like distance, the scale is zero exactly when every landmark coincides with the wrist |
| `Normalize.CollapsedHandCopies` | api-call.js:35-38 | a hand whose landmarks all sit on the wrist goes through the zero-scale branch and comes back as an equal copy |
| `Normalize.RescaledDistance` | api-call.js:41-45 | in the normalised frame, a landmark's distance from the origin is its wrist distance divided by the scale |
| `Normalize.NormalizedInUnitBall` | api-call.js:24-45 | with a nonzero scale, every normalised landmark lies within distance 1 of the origin, and the landmark farthest from the wrist lies at distance exactly 1 |
| `Flatten.Flattened` | api-call.js:56-60 | defines the payload, with each point's x, y and z appended in index order; it has exactly three entries per point |
| `Flatten.FlattenedAt` | api-call.js:56-60 | the payload has 3n entries, and entries 3i, 3i+1 and 3i+2 are the x, y and z of point i |
| `Flatten.FlattenLandmarks` | api-call.js:56-60 | the push loop yields 3n entries, with point i's x, y and z at 3i, 3i+1 and 3i+2, in point-major index order |
| `Flatten.UnflattenFlattened` | api-call.js:56-60 | regrouping the payload three numbers at a time recovers the landmarks, so flattening loses nothing |
| `Flatten.FlattenedUnflatten` | api-call.js:56-60 | every payload whose length is a multiple of 3 is the flattening of its regrouping |
| `Labels.LowerChar` | api-call.js:81 | lower-casing never leaves an ASCII upper-case letter, maps each to the lower-case letter at the same alphabet position, and leaves every other character alone |
| `Labels.ToLower` | api-call.js:81-82 | defines `toLowerCase` over ASCII, applied character by character; the result has the input's length and contains no upper-case ASCII letter |
| `Labels.CheckLabel` | api-call.js:79-85 | the check yields null or one of exactly "up", "down", "left", "right" |
| `Labels.LabelsAreLowerCase` | api-call.js:79 | every allowed label is non-empty and already lower case |
| `Labels.CheckLabelIff` | api-call.js:81-84 | a string is accepted as `l` if and only if `l` is allowed and the string equals `l` ignoring case |
| `Labels.NonTextRejected` | api-call.js:81-85 | a missing, null or non-string prediction yields null |
| `Labels.CheckLabelIdempotent` | api-call.js:81-82 | checking an accepted label again accepts it unchanged |
| `Labels.CheckLabelExamples` | api-call.js:81-84 | "Up" yields "up" and "RIGHT" yields "right"; "sideways", "" and a missing prediction yield null |
| `Predictor.RequestPayload` | api-call.js:53-60 | defines the payload that is posted: nothing when the argument is null, because reading `.length` at line 57 throws before `fetch`; otherwise the flattened normalised landmarks, three numbers per landmark |
| `Predictor.PredictedLabel` | api-call.js:50-90 | the client's result is null or one of the four labels, whatever the server does |
| `Predictor.GetPredictedLabel` | api-call.js:50-90 | normalising, flattening, one exchange and the label check yield exactly `PredictedLabel`, which is null or an allowed label |
| `Predictor.AbsentInputYieldsNull` | api-call.js:53-57 | a null argument posts nothing and resolves to null whatever the server would answer |
| `Predictor.FailureYieldsNull` | api-call.js:70-73 | a transport failure, an unparsable body or a non-success status resolves to null |
| `Predictor.HandPayload` | api-call.js:53-67 | for a 21-point hand the posted payload has 63 numbers, and entries 3i, 3i+1 and 3i+2 are the normalised coordinates of landmark i |
| `Predictor.OtherShapePayload` | api-call.js:53-67 | any other present input is posted unnormalised, as 3n raw coordinates, with no shape check |
| `Predictor.ReplyAccepted` | api-call.js:75-85 | a reply is accepted as `l` exactly when its prediction is a string equal to the allowed label `l` ignoring case |

## Left out

- The `fetch` POST, its URL and headers, `JSON.stringify` and
  `response.json()` are foreign network and serialisation calls. They are
  reduced to the `server` parameter. The model does not check the exact
  request body text.
- `async`/`await`: there is one awaited exchange per call and no shared
  state, so there is nothing to interleave.
- `console.log` and `console.error` are logging side effects with no
  influence on control flow.
- Floating point: coordinates are `real`. IEEE-754 rounding, infinities,
  NaN and the `isNaN(scale)` test are outside the model. JavaScript's `-`
  and `**` convert their operands to numbers first. So a coordinate such as
  `null` (0), `true` (1) or `"2"` (2) gives a finite distance and a finite
  output. A coordinate that does not convert to a number (missing or
  `undefined`, a non-numeric string, an object) gives a NaN distance. What
  happens next depends on the landmark:
  - On the wrist, every distance is NaN. `scale1` is NaN, `Math.max`
    propagates it, and the copy branch returns the input.
  - On landmark 9, the loop skips its NaN distance, because `dist > maxDist`
    is false. But `scale1` is NaN and `Math.max` propagates it, so the copy
    branch returns the input. This is the one case where `scale1` changes
    the result.
  - On any other landmark, the loop skips the NaN distance and the scale
    stays finite. If the scale is zero, the copy branch returns the input.
    Otherwise the per-point map makes only the bad component of that
    landmark NaN.
- `Math.sqrt` cannot be defined over Dafny's reals. `distance3D` is the
  parameter `dist`, and the geometric lemmas assume `IsEuclideanLike(dist)`.
  The model does not prove that the square-root formula satisfies it.
- Object identity: a passed-through argument is the caller's own array in
  the source, while the zero-scale branch makes fresh copies. Over values
  both are equal to the input. The model also does not capture that
  `{...p}` keeps any extra properties of a point, while the normalised
  points carry only `x`, `y` and `z`.
- JavaScript's dynamic typing of the argument: the model's argument is a
  sequence of points or absent (`null` or `undefined`). Any argument that is
  not an array of point objects is outside the model, including these:
  - A falsy non-null value (`0`, `false`, `""`), or a truthy value without
    `length` (`5`, `true`, `{}`). `normalizeLandmarks` returns it
    unchanged. Unlike `null`, it does not throw in the flatten loop: its
    `length` is undefined or 0, so the loop does not run and an empty
    payload is posted.
  - A truthy non-array that has a `length` property, such as a string.
  - An array with a `null` or `undefined` entry. Reading `.x` on it throws
    a TypeError: in `distance3D` for a 21-entry array, in the flatten loop
    for any other length. The `catch` then returns null and nothing is
    posted.
- `toLowerCase` is modelled over ASCII only. Other characters are left
  unchanged.
