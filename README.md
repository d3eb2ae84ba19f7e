# Storefront demo: body-shape analyzer, classifier and catalog, modelled in Dafny

The repository is a storefront demo with a body-shape analyzer. This project
models its decision rules and state machines:

- **Analyzer page** (`src/detectShape.jsx`). This is the `DetectShape` component, modelled as a class
  (`ShapeAnalyzer.DetectShape`). Its fields are `mode`, `image`, `results`, `loading`, `error`, `isLive`
  and `facingMode`, plus the remembered stream (`streamRef`) and the video element's source.
  - A `MediaStream` object owns an array of track states. `stopCamera` ends the tracks one by one in a loop.
  - Every `await` is split into a begin step and a complete step. The begin step returns the outstanding
    request. The complete step takes the camera or HTTP outcome as a parameter.
  - The component has no generation counter, so a completion applies to whatever state it finds.
  - The shape description and colour tables are pure functions.
  - `AnalyzerScenarios` runs event sequences on a fresh component and states what the code makes of them.
- **Analysis server** (`pythoncode/server.py`), in module `BodyShapeServer`.
  - The threshold rule that names one of five body shapes from three ratios. The ratios are IEEE doubles
    reduced to a finite real, an infinity or NaN.
  - `determine_body_shape` twice: on plain Python floats, where a zero divisor raises and is reported, and
    on the NumPy float64 values the handler passes it, where a zero divisor yields an infinity or NaN and
    a label.
  - The recommendations table with its fallback.
  - The `/analyze` handler: it validates the request and stops at the first stage that reports an error.
- **Catalog pages** (`src/App.jsx` in `CatalogApp`, `src/components/themaine3dmodel.jsx` in `ModelShowcase`).
  - Case-insensitive search over name and description, defined once in `Catalog`.
  - The file-name lookup table.
  - Which list is shown, and how upload and search reset each other.
  - The detail view.
- **Product card** (`src/components/ProductCard.jsx`), in module `ProductCard`.
  - The five-star rating, built in a loop.
  - The review-count default.
  - The discount and original-price slots.

What the analyzer code does with overlapping work and failed starts:
- It keeps no limit on requests in flight. The interval tick posts a frame whether or not `loading` is set
  (`OverlappingTicks`).
- It applies late replies. A reply to a real-time analysis that arrives after the switch to upload mode
  becomes the results (`LateReplyApplied`).
- It can be live with no stream. A refused camera start leaves `isLive` true with nothing attached
  (`RefusedCameraStart`). When the refusal comes after the user has switched to upload mode, the page is in
  upload mode with `isLive` true.

## Model

| member | source | states |
|---|---|---|
| `Text.ToLower` | src/App.jsx:147-148 | lower-casing keeps the length and maps each character to its lower-case form, position by position |
| `Text.ContainsIffOccurs` | src/App.jsx:147-148 | `includes` holds exactly when the needle occurs at some position of the haystack (both directions) |
| `Text.ContainsEmpty` | src/App.jsx:146-149 | every string includes the empty string |
| `BodyShapeServer.Float64Div` | pythoncode/server.py:114-116 | a float64 quotient is finite exactly when the divisor is non-zero, and then multiplies back to the dividend; a zero divisor gives +inf, -inf or NaN by the dividend's sign, and never raises |
| `BodyShapeServer.Classify` | pythoncode/server.py:118-132 | the if/elif chain on the three ratios always yields one of the five labels, whatever infinities or NaN the ratios hold |
| `BodyShapeServer.MissingKey` | pythoncode/server.py:109-111 | the keys are read in the order shoulder, waist, hips; the first absent one is reported, and none exactly when all three are present |
| `BodyShapeServer.DetermineBodyShape` | pythoncode/server.py:107-135 | on plain Python floats: yields a label from the five, or an error dict exactly when a key is missing or a divisor (hips, shoulder) is zero; a missing shoulder key is reported as `'shoulder'` |
| `BodyShapeServer.DetermineBodyShapeFloat64` | pythoncode/server.py:94-99 | on the float64 measurements of `estimate_measurements`: an error dict exactly when a key is missing; with non-zero hips and shoulders the label equals the plain-float one |
| `BodyShapeServer.ZeroHipsStillLabelled` | pythoncode/server.py:113-135 | with zero hips and positive shoulders and waist, the float64 path names Apple when the waist exceeds 85 % of the shoulders and Rectangle otherwise, where plain floats report "float division by zero" |
| `BodyShapeServer.ShapeByProportions` | pythoncode/server.py:113-132 | for positive measurements, each label holds exactly when its proportions hold, stated without division; ratios of exactly 0.95 and 1.05 in the narrow-waist branch give Pear; Apple needs a full waist and broad shoulders; everything else outside the narrow-waist branch is Rectangle |
| `BodyShapeServer.ErrorTestMatchesOutcome` | pythoncode/server.py:159-162 | the handler's `"error" in body_shape` test is true exactly for the error dict: none of the five labels contains "error" as a substring |
| `BodyShapeServer.Recommendations` | pythoncode/server.py:165-196 | each of the five labels gets four recommendations; any other label gets only the general one, and only then |
| `BodyShapeServer.Analyze` | pythoncode/server.py:137-206 | status is 200 or 400; 400 exactly when the body is an error; a missing body or image gives "No image provided"; a success carries a known label, that label's recommendations and the elapsed time |
| `BodyShapeServer.AnalyzeStages` | pythoncode/server.py:145-206 | processing, measurement and classification run in order; the first stage's error dict is returned with 400; measurements with all three keys are always classified, so the reply is then 200; the handler succeeds only when all three stages succeed, and the response then carries the measurements, label, recommendations, annotated image and time |
| `ShapeAnalyzer.Flip` | src/detectShape.jsx:72-74 | switching the facing always changes it; there are two facings, so switching twice restores the original |
| `ShapeAnalyzer.StartRequest` | src/detectShape.jsx:47-54 | the camera is requested with the current facing, an ideal 1280x720 resolution and no audio |
| `ShapeAnalyzer.AnalysisErrorText` | src/detectShape.jsx:114-115 | the error shown is never empty: it is the server's `error` field when that is non-empty; in every other case (no reply, an empty `error`, a reply without one) it is "Analysis failed. Please try again." |
| `ShapeAnalyzer.DetectShape.constructor` | src/detectShape.jsx:6-16 | the page starts in upload mode, not live, front camera, with no image, result, error or stream |
| `ShapeAnalyzer.DetectShape.ShowsResults` | src/detectShape.jsx:281 | the results panel is rendered only with a result, and always when the result is an analysis |
| `ShapeAnalyzer.DetectShape.CaptureFrame` | src/detectShape.jsx:90-103 | a frame exists exactly when the video element is mounted (real-time mode) |
| `ShapeAnalyzer.DetectShape.StopCamera` | src/detectShape.jsx:65-70 | with no remembered stream nothing changes; otherwise every track is ended and the video is detached, while the stream stays remembered |
| `ShapeAnalyzer.DetectShape.SwitchMode` | src/detectShape.jsx:20-33 | choosing the current mode changes nothing; otherwise the mode is set and image, results and error cleared; tracks are stopped and isLive cleared only when leaving real-time mode while live |
| `ShapeAnalyzer.DetectShape.BeginToggleCamera` | src/detectShape.jsx:36-43 | when live: the camera is stopped and isLive becomes false at once; otherwise nothing changes yet and a start with the current facing is outstanding |
| `ShapeAnalyzer.DetectShape.CompleteStartCamera` | src/detectShape.jsx:45-62 | a granted stream is attached and remembered if the video element still exists; a refusal, or a stream arriving after the element is gone, sets "Camera access denied: " with the message and clears isLive |
| `ShapeAnalyzer.DetectShape.CompleteToggleCamera` | src/detectShape.jsx:40-42 | after the start completes, isLive ends true whatever the outcome, overriding the reset in the catch block |
| `ShapeAnalyzer.DetectShape.CompleteToggleCameraChecked` | src/detectShape.jsx:36-62 | corrected toggle: isLive is true exactly when the camera started, and then a stream is attached |
| `ShapeAnalyzer.DetectShape.SwitchCamera` | src/detectShape.jsx:72-74 | the facing flips between user and environment |
| `ShapeAnalyzer.DetectShape.RestartOnFacingChange` | src/detectShape.jsx:143-148 | after a facing change, a live camera is stopped and a start with the new facing is outstanding; when not live nothing happens |
| `ShapeAnalyzer.DetectShape.HandleImageUpload` | src/detectShape.jsx:77-87 | no file changes nothing; a file stores the reader's data URL and clears the error, without starting an analysis |
| `ShapeAnalyzer.DetectShape.AnalyzeImage` | src/detectShape.jsx:106-111 | loading is set and the given image is posted |
| `ShapeAnalyzer.DetectShape.AnalyzeUpload` | src/detectShape.jsx:199-201 | the upload button, usable only with an image and while not loading, posts the stored image |
| `ShapeAnalyzer.DetectShape.AnalyzeNow` | src/detectShape.jsx:261-264 | the live button, usable only while live and not loading, posts the captured frame |
| `ShapeAnalyzer.DetectShape.AutoAnalysisTick` | src/detectShape.jsx:122-131 | a tick of the interval, which runs only while live in real-time mode, always posts the captured frame, whether or not a request is in flight |
| `ShapeAnalyzer.DetectShape.CompleteAnalysis` | src/detectShape.jsx:112-118 | loading ends false; a 2xx reply becomes the results and clears the error; any failure sets the error text and keeps the previous results |
| `ShapeAnalyzer.DetectShape.Unmount` | src/detectShape.jsx:134-140 | the cleanup stops the remembered stream's tracks again if a stream was ever remembered |
| `ShapeAnalyzer.ShapeDescription` | src/detectShape.jsx:350-359 | the description differs from the default exactly for the five labels |
| `ShapeAnalyzer.ShapeColor` | src/detectShape.jsx:361-370 | the colour differs from the default grey exactly for the five labels |
| `ShapeAnalyzer.ShapeColorsDistinct` | src/detectShape.jsx:361-370 | the five labels get five different colours |
| `ShapeAnalyzer.ServedShapesAreDecorated` | src/detectShape.jsx:300-312 | every label in a successful server reply gets its own description and colour, never the defaults |
| `AnalyzerScenarios.UploadAndAnalyze` | src/detectShape.jsx:77-119 | uploading and analysing posts the data URL; the results panel is rendered exactly on a 200 reply and then shows the server's analysis with a known label; otherwise the failing stage's message is shown; loading ends off |
| `AnalyzerScenarios.RefusedCameraStart` | src/detectShape.jsx:36-62 | a refused camera start shows the refusal, attaches no stream, and still leaves isLive true |
| `AnalyzerScenarios.RefusedCameraStartChecked` | src/detectShape.jsx:36-62 | with the corrected toggle the same refusal leaves isLive false |
| `AnalyzerScenarios.OverlappingTicks` | src/detectShape.jsx:106-131 | two ticks before a reply both send a request, and the first reply clears loading while the second is outstanding |
| `AnalyzerScenarios.LateReplyApplied` | src/detectShape.jsx:106-119 | a reply to a real-time analysis that arrives after switching to upload mode still becomes the results |
| `AnalyzerScenarios.SwitchCameraTwice` | src/detectShape.jsx:143-148 | each switch while live stops the current stream and requests the other facing; two switches restore the user facing and the page stays live |
| `AnalyzerScenarios.StopThenUnmount` | src/detectShape.jsx:134-140 | after stopping the camera the stream stays remembered, and the unmount cleanup re-stops it; its tracks stay ended |
| `AnalyzerScenarios.DoubleStart` | src/detectShape.jsx:45-57 | pressing Start twice before the camera answers leaves the first stream live and no longer remembered by anything |
| `Catalog.FilterProducts` | src/App.jsx:146-149 | the result holds exactly the products whose lower-cased name or description includes the lower-cased term, and is no longer than the input |
| `Catalog.FilterAppend` | src/App.jsx:146-149 | filtering distributes over concatenation, so the original order is kept |
| `Catalog.EmptyTermKeepsAll` | src/App.jsx:146-149 | an empty search term keeps every product, in order |
| `Catalog.FilterIgnoresTermCase` | src/App.jsx:146-149 | a term and its lower-cased form give the same results |
| `CatalogApp.Lookup` | src/App.jsx:138 | a key is found exactly when some entry has it, and the result is that entry's list |
| `CatalogApp.AllProductsInKeyOrder` | src/App.jsx:15-57 | `allProducts` is the two gowns of the first key followed by the two suits of the second |
| `CatalogApp.MatchesForFile` | src/App.jsx:133-138 | the lower-cased file name selects its products, which all belong to the catalog; any other name gives an empty list |
| `CatalogApp.App.constructor` | src/App.jsx:117-122 | the page starts with an empty term, no selection, no uploaded image and no matches |
| `CatalogApp.App.ProductsToShow` | src/App.jsx:152 | with an uploaded image the grid shows its matches; otherwise exactly the catalog products matching the term; every product shown is from the catalog |
| `CatalogApp.App.HandleFileUpload` | src/App.jsx:130-143 | no file changes nothing; a file shows its image and the products filed under its lower-cased name, and resets the selection and the search term |
| `CatalogApp.App.ChangeSearch` | src/App.jsx:236-240 | typing sets the term and drops the uploaded image and its matches |
| `CatalogApp.App.HandleProductClick` | src/App.jsx:154-156 | clicking a product selects it |
| `CatalogApp.App.GoBack` | src/App.jsx:158-160 | going back clears the selection |
| `CatalogApp.UploadThenSearch` | src/App.jsx:130-152 | after an upload the grid shows the file's matches and no detail view; typing a term then shows exactly the matching catalog products |
| `CatalogApp.OpenAndClose` | src/App.jsx:154-162 | the detail view is shown after a click and hidden after going back |
| `ModelShowcase.App.constructor` | src/components/themaine3dmodel.jsx:75-97 | the page holds the two fixed products, an empty term and no selection |
| `ModelShowcase.App.FilteredProducts` | src/components/themaine3dmodel.jsx:111-114 | the result holds exactly the page's products that match the term; an empty term keeps them all |
| `ModelShowcase.App.HandleFileUpload` | src/components/themaine3dmodel.jsx:104-109 | an upload changes no state; with a file it raises the alert naming it |
| `ModelShowcase.App.ChangeSearch` | src/components/themaine3dmodel.jsx:198 | typing sets the term |
| `ModelShowcase.App.HandleProductClick` | src/components/themaine3dmodel.jsx:116-118 | clicking a product selects it |
| `ModelShowcase.App.GoBack` | src/components/themaine3dmodel.jsx:120-122 | going back clears the selection |
| `ModelShowcase.SearchUploadBrowse` | src/components/themaine3dmodel.jsx:104-124 | the product list never changes; an upload leaves the search results as they were; the detail view follows the selection |
| `ProductCard.EffectiveRating` | src/components/ProductCard.jsx:7 | a missing or zero rating counts as 4; any other rating counts as itself |
| `ProductCard.RemainderOne` | src/components/ProductCard.jsx:8 | JavaScript's `% 1` takes the sign of the rating: the fractional part for non-negative ratings, at most zero for negative ones |
| `ProductCard.RenderRating` | src/components/ProductCard.jsx:5-21 | the loop produces exactly five stars, the star at position i being the one the rating prescribes for i |
| `ProductCard.StarsLayout` | src/components/ProductCard.jsx:10-18 | the stars are floor(r) filled ones (clamped to 0..5), then a half star exactly when there is room and r % 1 >= 0.5, then outlines |
| `ProductCard.DefaultRatingStars` | src/components/ProductCard.jsx:7-8 | a missing or zero rating shows four filled stars and one outline |
| `ProductCard.ExtremeRatings` | src/components/ProductCard.jsx:10-14 | a rating of 5 or more fills all five stars with no half star; a negative rating shows only outlines |
| `ProductCard.ReviewCount` | src/components/ProductCard.jsx:43 | the review count is never zero: a missing or zero count shows 124 |
| `ProductCard.NumberSlot` | src/components/ProductCard.jsx:34-36 | a decoration appears exactly when its number is present and non-zero; a zero prints the text "0" instead |
| `ProductCard.Extras` | src/components/ProductCard.jsx:34-49 | the discount badge and the original price appear exactly when their numbers are truthy, and the review count is never zero |

## Findings

| source | as written | input that shows it | evidently intended | confidence | as-written member | corrected member |
|---|---|---|---|---|---|---|
| src/detectShape.jsx:36-62 | `toggleCamera` ends with `setIsLive(!isLive)`, using the value read on entry, so a failed start still sets isLive to true and overrides the `setIsLive(false)` in `startCamera`'s catch | real-time mode, camera off, press Start, and `getUserMedia` rejects (permission denied) | isLive stays false when the camera did not start | high (not executed) | `ShapeAnalyzer.DetectShape.CompleteToggleCamera`, exhibited by `AnalyzerScenarios.RefusedCameraStart` | `ShapeAnalyzer.DetectShape.CompleteToggleCameraChecked`, exercised by `AnalyzerScenarios.RefusedCameraStartChecked` |

The other scenarios model the code as written, so they use the as-written toggle.

## Left out

- Browser and device calls are parameters of the model, not code in it: `getUserMedia`, `video.play()`,
  the canvas capture (`drawImage`/`toDataURL`), `FileReader`, `URL.createObjectURL`, `axios.post` and `alert`.
  A rejected `play()` promise is not modelled.
- Timers and scheduling are not modelled: `setInterval` timing, React's re-render and effect order, and
  cancellation. `AutoAnalysisTick` is one tick, callable while the interval exists.
- ShapeAnalyzer.DetectShape.HandleImageUpload: merges the input handler with the reader's `onloadend`.
  The handler itself changes no state, so a late reader completion is the same method called later.
- ShapeAnalyzer.DetectShape.Unmount: runs `stopCamera` as if the video element still existed. React may
  already have detached the ref at unmount, and then the detach on line 68 would throw after the tracks stop.
- The server's image pipeline is a function parameter of `Analyze`:
  - `process_image`: base64 decoding, OpenCV and MediaPipe pose detection, JPEG encoding;
  - `estimate_measurements`: floating-point geometry and rounding.
  The processing time is a parameter; its rounding is not modelled.
- Flask routing, CORS and `app.run` are not modelled. Request bodies are treated as an optional JSON object
  of strings. Non-object JSON, non-string image values and Flask's rejection of non-JSON bodies are not modelled.
- IEEE floating point is modelled only for the three ratios, as a finite real, an infinity or NaN.
  Measurements, ratings and prices are reals. NaN (a falsy rating) and rounding at the
  0.75/0.85/0.95/1.05 boundaries do not exist in the model.
- BodyShapeServer.DetermineBodyShape: describes the function on plain Python floats, which no caller in the
  server passes; the handler's behaviour on float64 measurements is `DetermineBodyShapeFloat64`.
- BodyShapeServer.DetermineBodyShapeFloat64: takes the measurements as finite reals. Infinite or NaN
  measurements (a zero `height_px` makes the scale factor infinite) and the sign of a zero divisor are not
  modelled, and NumPy's divide-by-zero warning is not.
- `toLowerCase` is modelled on ASCII letters only; Unicode case mapping is not.
- Inherited object keys are not modelled. A name like "constructor" in `productsByImage[...]`, the
  description table or the colour table returns a truthy inherited value in JavaScript; the model treats
  such names as unknown.
- Rendering is not modelled: 3D model viewers, product viewer rotation, styles, JSX markup, `toFixed`
  price formatting, the detail view's `Array(rating)` stars, and the thin pages (home, image upload,
  product page, router).
