/**
 * The values the object detector works with: a detection reported by the
 * COCO-SSD model (class, confidence and bounding box), a pair of image
 * dimensions, and the outcome of an asynchronous step.
 */
module Types {

  /** A JavaScript value that may be `null`/`undefined` (the falsy case). */
  datatype Option<+T> = None | Some(value: T)

  /** The settled state of a promise: resolved with a value, or rejected. */
  datatype Outcome<+T> = Resolved(value: T) | Rejected

  /**
   * A bounding box `[x, y, width, height]`: the top-left corner and the extent,
   * in pixels of some image.
   */
  datatype Box = Box(x: real, y: real, width: real, height: real)

  /** Width and height of an image, in pixels. */
  datatype Size = Size(width: real, height: real)

  /**
   * One detection as the model reports it: its `class` (here `className`, since `class` is a Dafny keyword), its
   * `score` and its `bbox`.
   */
  datatype Detection = Detection(className: string, score: real, bbox: Box)
}
