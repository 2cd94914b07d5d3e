/** The region of interest: the caller's `scanFrame`, with absent fields
    filled in from the image's extent, moved from a top-left origin (the
    caller's) to CoreImage's bottom-left origin. */
module ScanRegion {
  import opened Sdk

  datatype Rect = Rect(x: int, y: int, width: int, height: int)

  /** `scanFrame[key] ?? fallback` */
  function FieldOr(scanFrame: map<string, int64>, key: string, fallback: int): int {
    if key in scanFrame then scanFrame[key] else fallback
  }

  /** The region the caller asked for, in top-left-origin coordinates of an
      image `imageWidth` by `imageHeight` pixels. An absent origin coordinate
      is 0; an absent extent reaches the image's right or bottom edge. */
  function RequestedRegion(scanFrame: map<string, int64>, imageWidth: int, imageHeight: int): (r: Rect)
    ensures "x" in scanFrame ==> r.x == scanFrame["x"]
    ensures "y" in scanFrame ==> r.y == scanFrame["y"]
    ensures "width" in scanFrame ==> r.width == scanFrame["width"]
    ensures "height" in scanFrame ==> r.height == scanFrame["height"]
    ensures "x" !in scanFrame ==> r.x == 0
    ensures "y" !in scanFrame ==> r.y == 0
    ensures "width" !in scanFrame ==> r.x + r.width == imageWidth
    ensures "height" !in scanFrame ==> r.y + r.height == imageHeight
  {
    var x := FieldOr(scanFrame, "x", 0);
    var y := FieldOr(scanFrame, "y", 0);
    var height := FieldOr(scanFrame, "height", imageHeight - y);
    var width := FieldOr(scanFrame, "width", imageWidth - x);
    Rect(x, y, width, height)
  }

  /** The rectangle lies between the bottom and the top edge of the image. */
  predicate VerticallyInside(r: Rect, imageHeight: int) {
    0 <= r.y && r.y + r.height <= imageHeight
  }

  /** The same rectangle with its origin moved from the top-left to the
      bottom-left corner of an image `imageHeight` pixels high. The move keeps
      a rectangle inside the image exactly when it was inside before. */
  function ToBottomLeft(r: Rect, imageHeight: int): (f: Rect)
    ensures f.x == r.x && f.width == r.width && f.height == r.height
    ensures f.y + f.height == imageHeight - r.y
    ensures VerticallyInside(f, imageHeight) <==> VerticallyInside(r, imageHeight)
  {
    r.(y := imageHeight - r.y - r.height)
  }

  /** Moving the origin twice gives back the rectangle: the bottom-left
      rectangle determines the one the caller asked for. */
  lemma ToBottomLeftInvolutive(r: Rect, imageHeight: int)
    ensures ToBottomLeft(ToBottomLeft(r, imageHeight), imageHeight) == r
  {
  }

  /** The rectangle `callback` crops the pixel buffer to. */
  function CropRect(scanFrame: map<string, int64>, imageWidth: int, imageHeight: int): (r: Rect)
    ensures r.x == FieldOr(scanFrame, "x", 0)
    ensures "height" !in scanFrame ==> r.y == 0
    ensures "y" !in scanFrame && "height" !in scanFrame ==> r.y == 0 && r.height == imageHeight
    ensures "x" !in scanFrame && "width" !in scanFrame ==> r.x == 0 && r.width == imageWidth
    ensures "y" in scanFrame && "height" in scanFrame ==>
              r.height == scanFrame["height"] && r.y == imageHeight - scanFrame["y"] - scanFrame["height"]
    ensures VerticallyInside(r, imageHeight) <==>
              VerticallyInside(RequestedRegion(scanFrame, imageWidth, imageHeight), imageHeight)
  {
    ToBottomLeft(RequestedRegion(scanFrame, imageWidth, imageHeight), imageHeight)
  }
}
