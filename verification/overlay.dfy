/**
 * What the component's render derives from its three state variables: whether
 * there are predictions to show, one marker per prediction, whether the
 * selected image is shown, and the label of the button.
 */
module Overlay {
  import opened Types

  /** One overlay marker: its React key and the detection it labels. */
  datatype Marker = Marker(key: nat, className: string, score: real)

  /** What one render of the component shows. */
  datatype View = View(image: Option<string>, markers: seq<Marker>, buttonLabel: string)

  const BusyLabel: string := "Recognizing..."
  const IdleLabel: string := "Select Image"

  /**
   * `isEmptyPredictions`: true when the list is null or has length zero. The
   * state's list is never null (it starts as `[]` and is only ever set to a
   * list), so for the state it holds exactly when the list is empty.
   */
  predicate IsEmptyPredictions(predictions: Option<seq<Detection>>)
    ensures predictions.None? ==> IsEmptyPredictions(predictions)
    ensures predictions.Some? ==> (IsEmptyPredictions(predictions) <==> predictions.value == [])
  {
    predictions.None? || |predictions.value| == 0
  }

  /**
   * The markers: none when there are no predictions, otherwise one per
   * prediction, keyed by its index and carrying its class and score, in order.
   */
  function Markers(predictions: seq<Detection>): (ms: seq<Marker>)
    ensures (ms != []) <==> !IsEmptyPredictions(Some(predictions))
    ensures |ms| == |predictions|
    ensures forall i :: 0 <= i < |ms| ==>
      ms[i].key == i && ms[i].className == predictions[i].className &&
      ms[i].score == predictions[i].score
  {
    if IsEmptyPredictions(Some(predictions)) then []
    else MarkersFrom(predictions, 0)
  }

  /** The markers of `predictions`, keyed from `first` on. */
  function MarkersFrom(predictions: seq<Detection>, first: nat): (ms: seq<Marker>)
    ensures |ms| == |predictions|
    ensures forall i :: 0 <= i < |ms| ==>
      ms[i] == Marker(first + i, predictions[i].className, predictions[i].score)
    decreases |predictions|
  {
    if predictions == [] then []
    else [Marker(first, predictions[0].className, predictions[0].score)]
         + MarkersFrom(predictions[1..], first + 1)
  }

  /**
   * `imgData && <img .../>`: the image is shown when the data URL is neither
   * null nor the empty string.
   */
  function ShownImage(imgData: Option<string>): (shown: Option<string>)
    ensures shown.Some? <==> imgData.Some? && imgData.value != ""
    ensures shown.Some? ==> shown == imgData
  {
    if imgData.Some? && imgData.value != "" then imgData else None
  }

  /** The button reads "Recognizing..." while loading, "Select Image" otherwise. */
  function ButtonLabel(isLoading: bool): (text: string)
    ensures text == BusyLabel <==> isLoading
    ensures text == IdleLabel <==> !isLoading
  {
    if isLoading then BusyLabel else IdleLabel
  }

  /** One render of the component from its state. */
  function Render(imgData: Option<string>, predictions: seq<Detection>, isLoading: bool): (v: View)
    ensures v.image.Some? <==> imgData.Some? && imgData.value != ""
    ensures v.image.Some? ==> v.image == imgData
    ensures (v.markers != []) <==> |predictions| > 0
    ensures |v.markers| == |predictions|
    ensures forall i :: 0 <= i < |v.markers| ==>
      v.markers[i].key == i && v.markers[i].className == predictions[i].className &&
      v.markers[i].score == predictions[i].score
    ensures v.buttonLabel == BusyLabel <==> isLoading
    ensures v.buttonLabel == IdleLabel <==> !isLoading
  {
    View(ShownImage(imgData), Markers(predictions), ButtonLabel(isLoading))
  }
}
