# Face-comparison demo: a Dafny model

This project models the two parts of the facial-recognition marketing site that
have behaviour of their own:

- `src/lib/faceApi.ts`, the helpers around face-api.js: the load-once guard for
  the five networks (`loadModels`), the detector wrapper (`analyzeFace`), the
  distance-to-similarity score (`compareFaces`), the landmark measurements
  (`getFacialFeatures`) and the ratio-band facial-structure summary
  (`estimateEthnicity`);
- `src/pages/Demo.tsx`, the demo page: two image slots filled by upload or by
  camera capture, a camera modal bound to one slot, a simulated comparison and a
  reset.

Modules, one per concern:

- `Wrappers` (`wrappers.dfy`): `Option` for the source's `T | null`, `Outcome` for a
  promise that resolves or rejects.
- `JsNumber` (`js_number.dfy`): the JavaScript number semantics the code relies on,
  over exact reals. `Math.round(x)` is `Floor(x + 1/2)`. Division by zero yields an
  infinity or NaN, and comparisons with NaN are false. `parseFloat(x.toFixed(2))`
  is modelled for values that are not below zero, the only ones the code passes it.
  It rounds them to the nearest hundredth, a tie going up.
- `FaceApi` (`face_api.dfy`): `faceApi.ts`. The module-level `modelsLoaded` flag is
  the field of class `ModelLoader`. The other helpers are functions, except
  `EstimateEthnicity`, which builds its phrase list step by step as the source does.
- `DemoPage` (`demo_page.dfy`): `Demo.tsx`. Class `Demo` has one field per `useState`
  cell (`referenceImage`, `comparisonImage`, `isComparing`, `result`, `showCamera`)
  and one method per handler. Its invariant `Valid()` says that a verdict on display
  is within its confidence range.

Facts supplied by the browser or by face-api.js are parameters:

- `loadModels`: how each network load settles.
- `analyzeFace`: how the detector run ends (throws, finds no face, finds a face).
- `compareFaces`: the Euclidean distance between the two descriptors.
- `getFacialFeatures`: the eye distance, pinned down by its defining equation
  `e >= 0 && e * e == dx * dx + dy * dy`.
- `estimateEthnicity` and the comparison: the `Math.random()` draws, each in [0, 1).
- `handleImageUpload`: the data URL the file reader produced, or none when no file
  was chosen.
- `startCamera`: whether camera permission was granted.
- `capturePhoto` and `stopCamera`: whether the video element and its stream exist,
  and the captured frame.

What the code does, as opposed to what the page advertises:

- The page's own text (`src/pages/Demo.tsx:133`, `138`) advertises face detection and
  auto-capture. The code has neither: capturing a photo is always a manual action, and
  no live-detection loop, quality score or lighting score exists.
- The demo page never calls `faceApi.ts`. Its verdict comes from two `Math.random()`
  draws (`src/pages/Demo.tsx:104-108`). It uses no match threshold and checks neither
  image for a face.
- `reset` clears the camera target but does not stop the stream's tracks
  (`src/pages/Demo.tsx:112-119`).

## Model

| member | source | states |
|---|---|---|
| `JsNumber.Round` | src/lib/faceApi.ts:68 | `Math.round`: the result is the integer within one half below or strictly less than one half above the argument |
| `JsNumber.RoundIsNearest` | src/lib/faceApi.ts:68 | no integer is closer to the argument than `Math.round`'s result, and an equally close one lies below it (ties go towards +Infinity) |
| `JsNumber.RoundMonotone` | src/lib/faceApi.ts:68 | `Math.round` is non-decreasing |
| `JsNumber.Abs` | src/lib/faceApi.ts:87-88 | `Math.abs` is non-negative and equals the argument or its negation |
| `JsNumber.Max` | src/lib/faceApi.ts:67 | `Math.max` is at least both arguments and equals one of them |
| `JsNumber.Divide` | src/lib/faceApi.ts:94 | JavaScript division: a finite quotient for a non-zero divisor; NaN for 0/0; an infinity of the dividend's sign otherwise |
| `JsNumber.ToFixed2` | src/lib/faceApi.ts:113 | for a number not below zero, `parseFloat(x.toFixed(2))` keeps Infinity and NaN, and maps a finite value to a whole number of hundredths within 0.005 of it |
| `JsNumber.ToFixed2IsNearest` | src/lib/faceApi.ts:94 | for a value not below zero, no multiple of 0.01 is closer than `toFixed(2)`'s choice, and an equally close one lies below it (for these values the tie goes away from zero, as `toFixed` breaks ties) |
| `JsNumber.GreaterThan` | src/lib/faceApi.ts:117-134 | JavaScript `>` against a constant: the real comparison on a finite value, false of NaN, and never true together with `<` |
| `JsNumber.LessThan` | src/lib/faceApi.ts:119 | JavaScript `<` against a constant: the real comparison on a finite value, false of NaN and of +Infinity |
| `FaceApi.ModelLoader.constructor` | src/lib/faceApi.ts:3 | the page starts with the models not loaded |
| `FaceApi.ModelLoader.LoadModels` | src/lib/faceApi.ts:5-23 | when already loaded: fetches nothing and resolves. Otherwise: requests all five networks from the CDN base URL, and sets the flag and resolves exactly when every load succeeds. A rejection rethrows one of the load errors and leaves the flag false |
| `FaceApi.SettleAll` | src/lib/faceApi.ts:11-17 | the `Promise.all` over the five loads rejects only with the error of one of the loads |
| `FaceApi.SettleAllResolves` | src/lib/faceApi.ts:11-17 | the `Promise.all` resolves exactly when every network load resolves |
| `FaceApi.LoadTwice` | src/lib/faceApi.ts:5-23 | on a fresh page a second call fetches nothing after a successful first call. After a failed first call it fetches all five networks again and succeeds only if all loads succeed |
| `FaceApi.AnalyzeFace` | src/lib/faceApi.ts:36-62 | null both when the detector finds no face and when it throws. A value exactly for a found face, carrying that detection's descriptor, landmarks, expressions, age, gender, gender probability and box |
| `FaceApi.CompareFaces` | src/lib/faceApi.ts:64-69 | the similarity is a non-negative integer. It is at most 100 for any distance >= 0, exactly 100 at distance 0, and 0 for every distance >= 1 |
| `FaceApi.CompareFacesMonotone` | src/lib/faceApi.ts:66-68 | lower distance never gives lower similarity |
| `FaceApi.CompareFacesAtLeast` | src/lib/faceApi.ts:67-68 | for k >= 1 the similarity is at least k exactly when the distance is at most (100.5 - k)/100, which determines the score for every distance |
| `FaceApi.CompareFacesExtremes` | src/lib/faceApi.ts:67-68 | for distance >= 0, the score is 100 exactly when the distance is <= 0.005, and 0 exactly when it is > 0.995 |
| `FaceApi.JawWidth` | src/lib/faceApi.ts:87 | the face width is the non-negative absolute difference of the two ends of the jaw outline |
| `FaceApi.ChinToBridge` | src/lib/faceApi.ts:88 | the face height is the non-negative absolute difference between the chin and the top of the nose bridge |
| `FaceApi.EyeSpanBounds` | src/lib/faceApi.ts:82-85 | the eye distance, which `IsEyeSpan` fixes by `e >= 0 && e * e == dx * dx + dy * dy`, lies between the larger coordinate offset and the sum of both offsets |
| `FaceApi.GetFacialFeatures` | src/lib/faceApi.ts:71-99 | eye distance, face width, face height, nose width and mouth width are `Math.round` of their absolute differences, hence >= 0. `totalLandmarks` is the number of positions. For a non-zero width, `faceRatio` is a non-negative whole number of hundredths within 0.005 of the unrounded height/width. For a zero width it is NaN or Infinity |
| `FaceApi.ProportionBand` | src/lib/faceApi.ts:116-123 | "Elongated" exactly when ratio > 1.3, "Round" exactly when ratio < 1.1, "Balanced" exactly otherwise |
| `FaceApi.NasalBand` | src/lib/faceApi.ts:125-131 | "Wider nasal bridge" exactly when nose/face > 0.25, otherwise "Narrow nasal bridge" |
| `FaceApi.EyeSpacingBand` | src/lib/faceApi.ts:133-138 | "Wide-set eyes" exactly when eye/face > 0.4, otherwise "Close-set eyes" |
| `FaceApi.ProportionBandOfRatio` | src/lib/faceApi.ts:94-123 | measured on the unrounded height/width ratio, rounding to hundredths puts "Elongated" at ratio >= 1.305 and "Round" at ratio < 1.095 |
| `FaceApi.ProportionBandMonotone` | src/lib/faceApi.ts:117-123 | a larger ratio never falls in a rounder band; the bounds 1.1 and 1.3 are themselves balanced |
| `FaceApi.StructurePhrases` | src/lib/faceApi.ts:116-138 | three phrases: a proportion phrase, then a nasal one, then an eye-spacing one, each from its band |
| `FaceApi.EstimateEthnicity` | src/lib/faceApi.ts:101-150 | exactly three phrases, in order from the proportion, nasal and eye-spacing bands of the measured features. Each is one of seven geometric descriptions, never a demographic label. The headline is the same constant for every input, and the confidence lies in [75, 90) |
| `DemoPage.SimulatedResult` | src/pages/Demo.tsx:104-108 | a match exactly when the first draw exceeds 0.5. The confidence is `Math.round` of the drawn value, an integer in [85, 100] for a match and in [20, 60] otherwise |
| `DemoPage.Present` | src/pages/Demo.tsx:89 | JavaScript truthiness of an image cell: false for null and for the empty string, true for any non-empty image |
| `DemoPage.Demo.CompareEnabled` | src/pages/Demo.tsx:288 | the compare button is enabled exactly when nothing is being compared and both slots hold a non-empty image |
| `DemoPage.Demo.constructor` | src/pages/Demo.tsx:10-14 | both slots empty, not comparing, no result, camera closed |
| `DemoPage.Demo.HandleImageUpload` | src/pages/Demo.tsx:21-38 | a chosen file fills only the addressed slot. No file changes nothing. The other cells are untouched |
| `DemoPage.Demo.StartCamera` | src/pages/Demo.tsx:40-59 | granted: the camera target becomes the requested slot and nothing is shown. Denied: the target is unchanged and the camera-error toast is shown. The images and the result are untouched |
| `DemoPage.Demo.StopCamera` | src/pages/Demo.tsx:80-86 | the camera target is null whether or not a stream was attached. The tracks are stopped exactly when one was. Nothing else changes |
| `DemoPage.Demo.CapturePhoto` | src/pages/Demo.tsx:61-78 | with a video element, the frame goes into the reference slot when the target is "reference" and otherwise into the comparison slot; the other slot is untouched and the target ends null. Without one, nothing changes |
| `DemoPage.Demo.CompareFaces` | src/pages/Demo.tsx:88-110 | with a slot empty: only the missing-images toast; result, `isComparing` and slots unchanged. With both filled: the simulated verdict for the draws, `isComparing` false, slots and camera unchanged. When the button was enabled a verdict in range is shown |
| `DemoPage.Demo.Reset` | src/pages/Demo.tsx:112-119 | both slots, the result and the camera target are null |
| `DemoPage.CompareAfterReset` | src/pages/Demo.tsx:88-119 | after a reset the compare button is disabled (line 288), and a comparison shows only the missing-images toast and no verdict |
| `DemoPage.UploadCaptureCompare` | src/pages/Demo.tsx:21-110 | uploading one image and capturing the other enables the compare button. The comparison then shows the simulated verdict and keeps both images |

## Left out

- Network weight fetching, neural-network inference and `faceapi.euclideanDistance`: their results are parameters. So the symmetry of the score in its two descriptors is not stated.
- The landmark accessors (`getJawOutline`, `getLeftEye`, `getRightEye`, `getNose`, `getMouth`): the groups are inputs. `HasMeasuredPoints` asks only for the indices the code reads; a 68-point set from face-api.js always has them.
- `Math.sqrt` in the eye distance: the caller supplies the root, fixed by its defining equation.
- IEEE-754 rounding and the string forms of `toFixed`: numbers are exact reals. `FacialFeatures.faceRatio` holds the parsed value rather than the string `getFacialFeatures` returns. The exponential notation `toFixed` uses for values of 1e21 and above is not modelled.
- `FaceApi.SettleAll`: a real `Promise.all` rejects with the error of whichever load fails first in time. The model takes the first failure in request order, so the rethrown error is promised only to be one of the load errors.
- The unused `dominantExpression` reduction in `estimateEthnicity`: when it returns, it does not affect the result. With no initial value, `reduce` throws on an empty entries list. face-api.js always supplies seven expression scores, so `EstimateEthnicity` requires a non-empty expression map and does not model that throw.
- `console.log` and `console.error` calls.
- `Math.random()`: each draw is a parameter in [0, 1).
- `FileReader`, `getUserMedia`, canvas drawing, the toast renderer, and the clearing of the two file inputs' values in `reset`: their results are parameters or outputs.
- `DemoPage.Demo.CompareFaces`: the 2-second `await` is not modelled, so the comparison is one atomic step. So the model does not show the intermediate state (`isComparing` true, result null). It also does not show other handlers running during the wait, such as a reset whose cleared result then gets overwritten by the late verdict.
- `FaceApi.ModelLoader.LoadModels`: a call is one atomic step. In the source the flag is read before the `await` of the five loads and set only after it (`src/lib/faceApi.ts:6`, `11-18`). So two overlapping calls both fetch all five networks, and the load-once guard holds only for calls that do not overlap. The model does not show that interleaving.
- `DemoPage.Demo.HandleImageUpload`: a call is one atomic step. In the source the slot is filled only in the file reader's `onload` callback (`src/pages/Demo.tsx:28-35`). So a reset clicked before the read finishes is overwritten by the late image. The model does not show that interleaving.
- `DemoPage.Demo.StartCamera`: the 100 ms delay before the stream is attached to the video element is not modelled. So the stream acquired by a camera cancelled within that window, whose tracks `stopCamera` cannot reach, is not shown.
- JSX rendering, styling, the presentational sections, navigation, scroll and animation components.
