/**
 * The component's state and the steps a selection takes through it. The
 * component keeps `imgData` (the data URL of the selected file), `predictions`
 * (the rescaled detections) and `isLoading`. A selection runs
 * `onSelectImage`, which is split here at its suspension points: the file
 * read, the image's `onload`, and the model load and detection. What the
 * browser and the model deliver at those points comes in as parameters.
 */
module Pipeline {
  import opened Types
  import opened Normalize
  import opened Overlay

  /**
   * Where the latest selection stands: `Reading` the file, `Recognizing`
   * (waiting for `onload`, the model and its detections), `Detected` (the
   * predictions are stored, the loading flag not yet cleared) or `Ready`.
   */
  datatype Phase = Idle | Reading | Recognizing | Detected | Ready

  class ObjectDetector {
    var imgData: Option<string>
    var predictions: seq<Detection>
    var isLoading: bool
    ghost var phase: Phase

    /**
     * The component is busy exactly while a selection is under way; no
     * predictions are kept while the file is read or the model runs; and once
     * the file has been read there is an image.
     */
    ghost predicate Valid()
      reads this
    {
      (isLoading <==> phase in {Reading, Recognizing, Detected}) &&
      (phase == Idle ==> imgData == None && predictions == []) &&
      (phase in {Reading, Recognizing} ==> predictions == []) &&
      (phase in {Recognizing, Detected, Ready} ==> imgData.Some?)
    }

    /** The initial state: no image, no predictions, not loading. */
    constructor ()
      ensures Valid() && phase == Idle
      ensures imgData == None && predictions == [] && !isLoading
    {
      imgData := None;
      predictions := [];
      isLoading := false;
      phase := Idle;
    }

    /** What the component renders from its current state. */
    function Rendered(): (v: View)
      reads this
      ensures v.image.Some? <==> imgData.Some? && imgData.value != ""
      ensures v.image.Some? ==> v.image == imgData
      ensures |v.markers| == |predictions|
      ensures v.buttonLabel == BusyLabel <==> isLoading
      ensures v.buttonLabel == IdleLabel <==> !isLoading
      ensures Valid() && phase in {Reading, Recognizing} ==> v.markers == [] && v.buttonLabel == BusyLabel
      ensures Valid() && phase == Ready ==> v.buttonLabel == IdleLabel
    {
      Render(imgData, predictions, isLoading)
    }

    /**
     * The synchronous start of a selection: the predictions are cleared and
     * loading is set before anything is awaited; the previous image stays.
     */
    method BeginSelection()
      requires Valid()
      modifies this
      ensures Valid() && phase == Reading
      ensures predictions == [] && isLoading && imgData == old(imgData)
    {
      predictions := [];
      isLoading := true;
      phase := Reading;
    }

    /** The file has been read: its data URL becomes the displayed image. */
    method StoreImage(data: string)
      requires Valid() && phase == Reading
      modifies this
      ensures Valid() && phase == Recognizing
      ensures imgData == Some(data)
      ensures predictions == old(predictions) && isLoading == old(isLoading)
    {
      imgData := Some(data);
      phase := Recognizing;
    }

    /**
     * `detectObjectsOnImage` after the model has answered: the detections,
     * rescaled from `imgSize` to the rendered size `display`, become the
     * predictions. Loading is not cleared here.
     */
    method DetectObjectsOnImage(detected: Option<seq<Detection>>, imgSize: Size, display: Size)
      requires Valid() && phase == Recognizing
      requires Divisible(detected, Some(imgSize))
      modifies this
      ensures Valid() && phase == Detected
      ensures predictions == NormalizePredictions(detected, Some(imgSize), display)
      ensures imgData == old(imgData) && isLoading == old(isLoading)
    {
      predictions := NormalizePredictions(detected, Some(imgSize), display);
      phase := Detected;
    }

    /** After detection has been awaited, loading is cleared. */
    method FinishLoading()
      requires Valid() && phase == Detected
      modifies this
      ensures Valid() && phase == Ready
      ensures !isLoading
      ensures imgData == old(imgData) && predictions == old(predictions)
    {
      isLoading := false;
      phase := Ready;
    }

    /**
     * `onSelectImage` run to its end, given how each asynchronous step
     * settles: `read` is the file read, `loaded` the size of the decoded image
     * (`None` when `onload` never fires), `detected` the model load and
     * detection together, and `display` the rendered size of the image.
     * Only a run in which every step succeeds clears loading.
     */
    method OnSelectImage(read: Outcome<string>, loaded: Option<Size>,
                         detected: Outcome<Option<seq<Detection>>>, display: Size)
      requires Valid()
      requires read.Resolved? && loaded.Some? && detected.Resolved? ==>
                 Divisible(detected.value, loaded)
      modifies this
      ensures Valid()
      ensures read.Rejected? ==>
                phase == Reading && predictions == [] && isLoading && imgData == old(imgData)
      ensures read.Resolved? ==> imgData == Some(read.value)
      ensures read.Resolved? && (loaded.None? || detected.Rejected?) ==>
                phase == Recognizing && predictions == [] && isLoading
      ensures read.Resolved? && loaded.Some? && detected.Resolved? ==>
                phase == Ready && !isLoading &&
                predictions == NormalizePredictions(detected.value, loaded, display)
    {
      BeginSelection();
      if read.Rejected? {
        return;
      }
      StoreImage(read.value);
      if loaded.None? || detected.Rejected? {
        return;
      }
      DetectObjectsOnImage(detected.value, loaded.value, display);
      FinishLoading();
    }
  }
}
