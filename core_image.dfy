/**
 * The Core Image capabilities the editor calls. Their pixel semantics are not
 * modelled: images are abstract values and every filter is an uninterpreted
 * total function supplied in an `Engine`, which may produce no output.
 */
module CoreImage {
  import opened Wrappers

  /** A `CIImage`: the intermediate image the filters consume and produce. */
  type Image

  /** A `UIImage`: the photo the picker delivers and the view displays. */
  type Photo(==)

  datatype Vector = Vector(x: real, y: real)

  datatype Rect = Rect(x: real, y: real, width: real, height: real)

  datatype Color = Color(red: real, green: real, blue: real, alpha: real)

  /**
   * The configuration of one filter that takes an input image, holding only
   * the input the editor sets on it (every other input keeps the filter's
   * own default).
   */
  datatype Adjustment =
    | ExposureAdjust(ev: real)                      // CIExposureAdjust
    | ColorControlsBrightness(brightness: real)     // CIColorControls
    | ColorControlsContrast(contrast: real)         // CIColorControls
    | ColorControlsSaturation(saturation: real)     // CIColorControls
    | HighlightAmount(highlightAmount: real)        // CIHighlightShadowAdjust
    | ShadowAmount(shadowAmount: real)              // CIHighlightShadowAdjust
    | VibranceAmount(amount: real)                  // CIVibrance
    | TemperatureAndTint(neutral: Vector)           // CITemperatureAndTint

  /** The inputs of the CILinearGradient generator. */
  datatype LinearGradient = LinearGradient(point0: Vector, point1: Vector, color0: Color, color1: Color)

  /**
   * The foreign operators. `filter(a, i)` is the output of the filter configured
   * by `a` on input `i`; `sourceOver(fg, bg)` is CISourceOverCompositing;
   * `ciImage` is `CIImage(image:)`; `render` is `CIContext.createCGImage` over the
   * image's extent followed by `UIImage(cgImage:)`.
   */
  datatype Engine = Engine(
    filter: (Adjustment, Image) -> Option<Image>,
    linearGradient: LinearGradient -> Option<Image>,
    sourceOver: (Image, Image) -> Option<Image>,
    extent: Image -> Rect,
    cropped: (Image, Rect) -> Image,
    ciImage: Photo -> Option<Image>,
    render: Image -> Option<Photo>)
  {
    /**
     * `filter.inputImage = input; filter.outputImage`: a filter given no input
     * image has no output.
     */
    function Output(adjustment: Adjustment, input: Option<Image>): Option<Image> {
      match input
      case None => None
      case Some(image) => filter(adjustment, image)
    }
  }
}
