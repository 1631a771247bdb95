/** The client-side image resizer: the rule that fits a decoded picture into
    maxWidth x maxHeight by its longer side, the choice between the two browser decoders
    that feed it, and the hook state that `processFile` keeps. */
module ImageProcessor {
  import opened Wrappers

  const DefaultMaxWidth: nat := 1024
  const DefaultMaxHeight: nat := 1024
  const UnsupportedFormat: string := "Image format unsupported by browser. Please try a screenshot or different photo."
  const DefaultProcessError: string := "Failed to process image"

  /** Math.round(a * m / d) for non-negative a and m and positive d: the nearest integer
      to a * m / d, halves rounded up. */
  function RoundedScale(a: nat, m: nat, d: nat): (r: nat)
    requires d > 0
    ensures 2 * d * r <= 2 * a * m + d < 2 * d * r + 2 * d
  {
    (2 * a * m + d) / (2 * d)
  }

  lemma MulLeftMono(c: nat, x: int, y: int)
    requires x <= y
    ensures c * x <= c * y
  {
  }

  /** Scaling the shorter side a <= d by m / d never gives more than m. */
  lemma RoundedScaleAtMost(a: nat, m: nat, d: nat)
    requires 0 < d && a <= d
    ensures RoundedScale(a, m, d) <= m
  {
    var r := RoundedScale(a, m, d);
    MulLeftMono(2 * m, a, d);
    assert 2 * d * r < 2 * d * (m + 1);
    MulLeftCancel(2 * d, r, m + 1);
  }

  lemma MulLeftCancel(c: nat, x: int, y: int)
    requires c > 0 && c * x < c * y
    ensures x < y
  {
    if x >= y {
      MulLeftMono(c, y, x);
    }
  }

  /** The width and height the canvas gets (both copies of the rule in the hook). */
  function Fit(width: nat, height: nat, maxWidth: nat, maxHeight: nat): (dims: (nat, nat))
    ensures width > height && width > maxWidth ==>
      dims == (maxWidth, RoundedScale(height, maxWidth, width))
    ensures width <= height && height > maxHeight ==>
      dims == (RoundedScale(width, maxHeight, height), maxHeight)
    ensures (width > height ==> width <= maxWidth) && (width <= height ==> height <= maxHeight) ==>
      dims == (width, height)
    ensures width > height ==> dims.0 >= dims.1
    ensures width <= height ==> dims.0 <= dims.1
    ensures maxWidth == maxHeight ==> dims.0 <= maxWidth && dims.1 <= maxHeight
  {
    if width > height then
      if width > maxWidth then
        RoundedScaleAtMost(height, maxWidth, width);
        (maxWidth, RoundedScale(height, maxWidth, width))
      else (width, height)
    else
      if height > maxHeight then
        RoundedScaleAtMost(width, maxHeight, height);
        (RoundedScale(width, maxHeight, height), maxHeight)
      else (width, height)
  }

  /** The dimension rule as the hook runs it, on the reassigned locals `width` and `height`. */
  method FitDimensions(imageWidth: nat, imageHeight: nat, maxWidth: nat, maxHeight: nat)
    returns (width: nat, height: nat)
    ensures (width, height) == Fit(imageWidth, imageHeight, maxWidth, maxHeight)
  {
    width, height := imageWidth, imageHeight;
    if width > height {
      if width > maxWidth {
        height := RoundedScale(height, maxWidth, width);
        width := maxWidth;
      }
    } else {
      if height > maxHeight {
        width := RoundedScale(width, maxHeight, height);
        height := maxHeight;
      }
    }
  }

  /** An error as the hook sees it: `err.message` may be undefined (the FileReader
      rejects with an event, which has no message). */
  datatype JsError = JsError(message: Option<string>)

  /** How the FileReader + Image fallback ends. */
  datatype FallbackLoad = ReaderFailed | ImageRejected | ImageLoaded(width: nat, height: nat)

  /** The size of the drawn canvas; the JPEG data URL drawn onto it is not modelled. */
  datatype Canvas = Canvas(width: nat, height: nat)

  /** The picture size the browser decodes: createImageBitmap's when it succeeds (a
      failure there is swallowed), otherwise the fallback's. */
  function DecodedSize(bitmap: Option<(nat, nat)>, fallback: FallbackLoad): (r: Result<(nat, nat), JsError>)
    ensures bitmap.Some? ==> r == Success(bitmap.value)
    ensures bitmap.None? && fallback.ImageLoaded? ==> r == Success((fallback.width, fallback.height))
    ensures bitmap.None? && fallback.ImageRejected? ==> r == Failure(JsError(Some(UnsupportedFormat)))
    ensures bitmap.None? && fallback.ReaderFailed? ==> r == Failure(JsError(None))
  {
    if bitmap.Some? then Success(bitmap.value)
    else match fallback
      case ReaderFailed => Failure(JsError(None))
      case ImageRejected => Failure(JsError(Some(UnsupportedFormat)))
      case ImageLoaded(w, h) => Success((w, h))
  }

  /** resizeImage: whichever decoder supplied the size, the canvas size is Fit of it. */
  method ResizeImage(bitmap: Option<(nat, nat)>, fallback: FallbackLoad, maxWidth: nat, maxHeight: nat)
    returns (r: Result<Canvas, JsError>)
    ensures r.Success? <==> DecodedSize(bitmap, fallback).Success?
    ensures r.Success? ==>
      var (w, h) := DecodedSize(bitmap, fallback).value;
      (r.value.width, r.value.height) == Fit(w, h, maxWidth, maxHeight)
    ensures r.Failure? ==> r.error == DecodedSize(bitmap, fallback).error
  {
    if bitmap.Some? {
      var (w, h) := bitmap.value;
      var width, height := FitDimensions(w, h, maxWidth, maxHeight);
      return Success(Canvas(width, height));
    }
    match fallback {
      case ReaderFailed =>
        r := Failure(JsError(None));
      case ImageRejected =>
        r := Failure(JsError(Some(UnsupportedFormat)));
      case ImageLoaded(w, h) =>
        var width, height := FitDimensions(w, h, maxWidth, maxHeight);
        r := Success(Canvas(width, height));
    }
  }

  /** `err.message || 'Failed to process image'`. */
  function ErrorText(e: JsError): (s: string)
    ensures s != ""
    ensures Truthy(e.message) ==> s == e.message.value
    ensures !Truthy(e.message) ==> s == DefaultProcessError
  {
    if Truthy(e.message) then e.message.value else DefaultProcessError
  }

  /** The state of the useImageProcessor hook. */
  class ImageProcessorHook {
    var isProcessing: bool
    var processError: Option<string>

    constructor ()
      ensures !isProcessing && processError == None
    {
      isProcessing := false;
      processError := None;
    }

    /** processFile: resize with the default 1024 x 1024 bound; on failure record the
        message and rethrow the same error. */
    method ProcessFile(bitmap: Option<(nat, nat)>, fallback: FallbackLoad) returns (r: Result<Canvas, JsError>)
      modifies this
      ensures !isProcessing
      ensures r.Success? <==> DecodedSize(bitmap, fallback).Success?
      ensures r.Success? ==>
        var (w, h) := DecodedSize(bitmap, fallback).value;
        (r.value.width, r.value.height) == Fit(w, h, DefaultMaxWidth, DefaultMaxHeight)
        && processError == None
      ensures r.Failure? ==>
        r.error == DecodedSize(bitmap, fallback).error && processError == Some(ErrorText(r.error))
    {
      isProcessing := true;
      processError := None;
      r := ResizeImage(bitmap, fallback, DefaultMaxWidth, DefaultMaxHeight);
      isProcessing := false;
      if r.Failure? {
        processError := Some(ErrorText(r.error));
      }
    }
  }
}
