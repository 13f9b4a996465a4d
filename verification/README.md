# ObjectDetector: a Dafny model

This is a model of `src/components/ObjectDetector.jsx`, a React component. The
user picks an image file. The component shows the image, runs the COCO-SSD
object-detection model on it, and overlays one labelled marker per detection.
The model covers the component's two pieces of logic:

- **Bounding-box rescaling** (`normalizePredictions`). The model reports each
  box `[x, y, width, height]` in the pixels of the image it was given
  (`imgSize`). The component rescales each box into the pixels of the `<img>`
  element as rendered (`display`). x and width are scaled by
  `display.width / imgSize.width`. y and height are scaled by
  `display.height / imgSize.height`. Every other field of a detection is kept.
  This is the module `Normalize` (`normalize.dfy`), written as pure functions
  over `seq<Detection>` with `real` arithmetic.
- **The selection pipeline** (`onSelectImage`, `detectObjectsOnImage`). The
  component holds three state variables: `imgData`, `predictions` and
  `isLoading`. A selection updates them in a fixed order, split at its `await`
  points. This is the class `Pipeline.ObjectDetector` (`pipeline.dfy`). Its
  fields are the three state variables and its methods are the steps. A ghost
  field `phase` records where the latest selection stands, and `Valid()` ties
  that phase to the fields.

The render derivations are in module `Overlay` (`overlay.dfy`):
`isEmptyPredictions`, one marker per prediction, the image shown only when
`imgData` is set, and the button label. The values themselves are in module
`Types` (`types.dfy`).

Some things are parameters of the model rather than computed by it:

- The file read (`readImage`) and the decoded image's size (the `onload`
  handler).
- The model's detections (`cocoSsd.load` and `model.detect`).
- The rendered size `imageRef.current.width/height`.

Each asynchronous step is given as an `Outcome` (resolved or rejected) or an
`Option` (the `onload` event may never fire).

The model states the code's behaviour as it is written:

- The code has no zero-size guard. It divides by `imgSize.width` and
  `imgSize.height` directly. The model therefore requires both to be
  non-zero, but only when there is a detection to divide (`Normalize.Divisible`).
- The only passthroughs are at line 19. A missing `predictions` gives `[]`, and a
  missing `imgSize` returns `predictions` unchanged. `!imageRef` is never true,
  because `useRef` always returns an object.
- The previous image is not cleared when a selection starts. Only `predictions`
  is cleared. `imgData` is replaced once the new file has been read.
- The code has no failure state. A read failure, an image that never loads, or a
  model failure leaves `isLoading` true. Only a run that completes clears it.
- The code has no run counter, so nothing discards the result of a superseded
  selection.

## Model

| member | source | states |
|---|---|---|
| Normalize.NormalizeAll | src/components/ObjectDetector.jsx:20-36 | the map keeps the length, and element i of the output is the rescaling of element i of the input |
| Normalize.NormalizePredictions | src/components/ObjectDetector.jsx:18-37 | a missing list gives `[]`; a missing `imgSize` gives the list unchanged; otherwise same length, class and score kept per index, and box `(x*dW/iW, y*dH/iH, w*dW/iW, h*dH/iH)` |
| Normalize.UniformRatios | src/components/ObjectDetector.jsx:27-33 | every detection of one call is scaled by the one pair of ratios `(dW/iW, dH/iH)`, x and width by the first and y and height by the second, with every other field unchanged |
| Normalize.AxesIndependent | src/components/ObjectDetector.jsx:30-33 | the x and width of every output box depend only on the widths, and the y and height only on the heights |
| Normalize.NormalizeAppend | src/components/ObjectDetector.jsx:20-35 | rescaling a concatenation is the concatenation of the rescalings, so order and pairing are kept |
| Normalize.NormalizeSameSize | src/components/ObjectDetector.jsx:30-33 | rescaling into a display size equal to `imgSize` returns the detections unchanged |
| Normalize.Compose | src/components/ObjectDetector.jsx:30-33 | rescaling from s to m and then from m to d equals rescaling from s to d |
| Normalize.RoundTrip | src/components/ObjectDetector.jsx:30-33 | rescaling into the display size and back into `imgSize` returns the model's detections |
| Normalize.ScalingExample | src/components/ObjectDetector.jsx:30-33 | a 300x300 input rendered at 600x450 maps box (30, 30, 60, 60) to (60, 45, 120, 90) |
| Overlay.IsEmptyPredictions | src/components/ObjectDetector.jsx:12 | the flag is set for a null list and, for a list, exactly when it is empty; the state's list is never null, so for the state `!predictions` cannot hold and the flag means "no predictions" |
| Overlay.Markers | src/components/ObjectDetector.jsx:80-82 | markers exist exactly when `isEmptyPredictions` is false; there is one per prediction, keyed by its index, carrying that prediction's class and score |
| Overlay.MarkersFrom | src/components/ObjectDetector.jsx:81-82 | the markers built from a list have its length, and the marker at position i carries the key `first + i` and prediction i's class and score |
| Overlay.ShownImage | src/components/ObjectDetector.jsx:79 | the image is shown exactly when `imgData` is neither null nor the empty string, and then it shows `imgData` |
| Overlay.ButtonLabel | src/components/ObjectDetector.jsx:106-108 | the button reads "Recognizing..." exactly when loading, and "Select Image" exactly when not |
| Overlay.Render | src/components/ObjectDetector.jsx:76-108 | one render shows the image exactly when `imgData` is neither null nor empty, and then it is `imgData`; markers exist exactly when there are predictions, one per prediction keyed by index with its class and score; the label is "Recognizing..." exactly when loading and "Select Image" exactly when not |
| Pipeline.ObjectDetector.constructor | src/components/ObjectDetector.jsx:8-10 | the initial state has no image, no predictions and is not loading |
| Pipeline.ObjectDetector.Rendered | src/components/ObjectDetector.jsx:76-108 | what the component shows: the image is `imgData` when that is neither null nor empty, one marker per prediction, and "Recognizing..." exactly when loading, "Select Image" exactly when not; while the file is read or the model runs, no marker is shown and the button reads "Recognizing..." |
| Pipeline.ObjectDetector.BeginSelection | src/components/ObjectDetector.jsx:56-57 | before anything is awaited, the predictions are empty and loading is set; the previous image stays |
| Pipeline.ObjectDetector.StoreImage | src/components/ObjectDetector.jsx:59-61 | only once the file read has completed is `imgData` set, to its result; nothing else changes |
| Pipeline.ObjectDetector.DetectObjectsOnImage | src/components/ObjectDetector.jsx:39-44 | the predictions become the rescaled detections, while loading is still set |
| Pipeline.ObjectDetector.FinishLoading | src/components/ObjectDetector.jsx:71-72 | loading is cleared after the predictions are stored, and nothing else changes |
| Pipeline.ObjectDetector.OnSelectImage | src/components/ObjectDetector.jsx:55-74 | a failed read leaves no predictions, loading set and the old image; an image that never loads, or a model failure, leaves no predictions and loading set with the new image; a run that completes ends not loading, with the rescaled detections |

## Left out

- Reading the file, creating the `<img>` element and its `onload` handler, and
  the file-picker click (lines 14-16, 46-53, 63-66) are browser I/O. Their
  results are parameters of the step methods.
- `cocoSsd.load` and `model.detect(imageElement, 6)` (lines 40-41) are a foreign
  model. Its output is an arbitrary, possibly null, sequence of detections. The
  cap of 6 is only an argument to that library, so the model assumes nothing
  about it.
- The `document.querySelector(".data").style.setProperty(...)` calls (lines
  86-101) are DOM side effects during render. They always address the first
  `.data` element in the document. The box does not position each marker from
  its own detection, so markers carry no position in this model.
- The score label `(score * 100).toFixed(1)` (lines 83-85) is floating-point
  string formatting. A marker carries the class and the raw score.
- Overlapping selections can interleave, because the code has no run counter or
  cancellation. The model runs one selection at a time. The ghost `phase`
  orders the steps of a single selection.
- Arithmetic is `real`, not IEEE double: no rounding, and no `Infinity` or `NaN`
  for a zero size. A zero size is excluded by the precondition wherever the
  code would divide by it.
- A null `imageRef.current` would throw in the code. The model takes the
  rendered size as a parameter.
