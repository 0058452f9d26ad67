/**
 * The editor's parameter record, its defaults, and the pure conversions from
 * slider values to the inputs of the Core Image filters.
 */
module Adjustments {
  import opened Wrappers
  import opened CoreImage

  /** The values of the editor's sliders and filter picker. */
  datatype Adjustments = Adjustments(
    exposure: real,
    brilliance: real,
    highlights: real,
    shadows: real,
    contrast: real,
    brightness: real,
    blackPoint: real,
    saturation: real,
    vibrance: real,
    warmth: real,
    tint: real,
    gradient: real,
    selectedFilter: string,
    filterIntensity: real)

  /**
   * The initial values of the fields, which a reset restores. Each lies in the
   * range its control offers, and the initial look is one the picker lists.
   */
  function Defaults(): (d: Adjustments)
    ensures InSliderRanges(d)
    ensures d.selectedFilter in Filters
  {
    Adjustments(
      exposure := 0.0, brilliance := 0.0, highlights := 0.0, shadows := 0.0,
      contrast := 1.0, brightness := 0.0, blackPoint := 0.0, saturation := 1.0,
      vibrance := 0.0, warmth := 0.0, tint := 0.0, gradient := 0.0,
      selectedFilter := "None", filterIntensity := 0.5)
  }

  /** The names the filter picker offers. */
  const Filters: seq<string> := ["None", "Vivid", "Vivid Warm"]

  predicate InSlider(value: real) {
    -100.0 <= value <= 100.0
  }

  /** Every value lies in the range its slider allows. */
  predicate InSliderRanges(s: Adjustments) {
    && InSlider(s.exposure) && InSlider(s.brilliance) && InSlider(s.highlights)
    && InSlider(s.shadows) && InSlider(s.contrast) && InSlider(s.brightness)
    && InSlider(s.blackPoint) && InSlider(s.saturation) && InSlider(s.vibrance)
    && InSlider(s.warmth) && InSlider(s.tint) && InSlider(s.gradient)
    && 0.0 <= s.filterIntensity <= 1.0
  }

  // ---------------------------------------------------------------------------
  // Remapping from slider values to filter inputs

  /** The exposure slider in EV stops: a full slider swing is two stops. */
  function ExposureEV(exposure: real): (ev: real)
    ensures InSlider(exposure) ==> -2.0 <= ev <= 2.0
    ensures (ev == 0.0) == (exposure == 0.0)
  {
    exposure / 50.0
  }

  /** A percentage slider as a fraction, used for brilliance, highlights, brightness and vibrance. */
  function Percent(value: real): (amount: real)
    ensures InSlider(value) ==> -1.0 <= amount <= 1.0
    ensures (amount == 0.0) == (value == 0.0)
  {
    value / 100.0
  }

  /** Raising the black point darkens: it is brightness of the opposite sign. */
  function BlackPointBrightness(blackPoint: real): (brightness: real)
    ensures InSlider(blackPoint) ==> -1.0 <= brightness <= 1.0
    ensures brightness + Percent(blackPoint) == 0.0
  {
    -blackPoint / 100.0
  }

  /** The shadows slider as a shadow amount; the slider's neutral 0 maps to the midpoint. */
  function ShadowAmountOf(shadows: real): (amount: real)
    ensures InSlider(shadows) ==> 0.0 <= amount <= 1.0
    ensures (amount == 0.5) == (shadows == 0.0)
  {
    (shadows + 100.0) / 200.0
  }

  /** The contrast slider as a contrast multiplier. */
  function ContrastFactor(contrast: real): (factor: real)
    ensures InSlider(contrast) ==> 0.0 <= factor <= 4.0
    ensures (factor == 2.0) == (contrast == 0.0)
  {
    (contrast + 100.0) / 50.0
  }

  /** The saturation slider as a saturation multiplier. */
  function SaturationFactor(saturation: real): (factor: real)
    ensures InSlider(saturation) ==> 0.0 <= factor <= 2.0
    ensures (factor == 1.0) == (saturation == 0.0)
  {
    (saturation + 100.0) / 100.0
  }

  /**
   * The neutral point of CITemperatureAndTint: warmth shifts the temperature
   * around 6500 K and tint is passed through unclamped.
   */
  function WarmthNeutral(warmth: real, tint: real): (neutral: Vector)
    ensures InSlider(warmth) ==> 6400.0 <= neutral.x <= 6600.0
    ensures neutral.x - warmth == 6500.0
    ensures neutral.y == tint
  {
    Vector(warmth + 6500.0, tint + 0.0)
  }

  /** The gradient slider as a blend intensity. */
  function GradientIntensity(gradient: real): (intensity: real)
    ensures InSlider(gradient) ==> 0.0 <= intensity <= 1.0
  {
    (gradient + 100.0) / 200.0
  }

  /**
   * The linear gradient overlaid on an image with the given extent: from red at
   * the top centre to blue at the bottom centre, with complementary opacities.
   */
  function GradientFor(extent: Rect, gradient: real): (g: LinearGradient)
    ensures g.point0.x == g.point1.x == extent.width / 2.0
    ensures g.point0.y == 0.0 && g.point1.y - g.point0.y == extent.height
    ensures g.color0.alpha + g.color1.alpha == 1.0
    ensures InSlider(gradient) ==> 0.0 <= g.color0.alpha <= 1.0 && 0.0 <= g.color1.alpha <= 1.0
    ensures (g.color0.red, g.color0.green, g.color0.blue) == (1.0, 0.0, 0.0)
    ensures (g.color1.red, g.color1.green, g.color1.blue) == (0.0, 0.0, 1.0)
  {
    var intensity := GradientIntensity(gradient);
    LinearGradient(
      Vector(extent.width / 2.0, 0.0),
      Vector(extent.width / 2.0, extent.height),
      Color(1.0, 0.0, 0.0, intensity),
      Color(0.0, 0.0, 1.0, 1.0 - intensity))
  }

  // ---------------------------------------------------------------------------
  // Look filters

  /** The saturation of the "Vivid" look. */
  function VividSaturation(intensity: real): (saturation: real)
    ensures 0.0 <= intensity <= 1.0 ==> 0.0 <= saturation <= 2.0
    ensures (saturation == 1.0) == (intensity == 0.5)
  {
    intensity * 2.0
  }

  /** The neutral point of the "Vivid Warm" look. */
  function VividWarmNeutral(intensity: real): (neutral: Vector)
    ensures 0.0 <= intensity <= 1.0 ==> 0.0 <= neutral.x <= 7000.0
    ensures neutral.y == 0.0
  {
    Vector(7000.0 * intensity, 0.0)
  }

  /** The look filters by name. */
  function Looks(intensity: real): map<string, Adjustment> {
    map[
      "Vivid" := ColorControlsSaturation(VividSaturation(intensity)),
      "Vivid Warm" := TemperatureAndTint(VividWarmNeutral(intensity))]
  }

  /**
   * The filter a look name selects, if any. Of the names the picker offers,
   * exactly the ones other than "None" select a filter.
   */
  function LookFilter(name: string, intensity: real): (look: Option<Adjustment>)
    ensures look.Some? <==> name == "Vivid" || name == "Vivid Warm"
    ensures name == "Vivid" ==> look == Some(ColorControlsSaturation(VividSaturation(intensity)))
    ensures name == "Vivid Warm" ==> look == Some(TemperatureAndTint(VividWarmNeutral(intensity)))
    ensures name in Filters ==> (look.None? <==> name == "None")
  {
    var looks := Looks(intensity);
    if name in looks then Some(looks[name]) else None
  }

  // ---------------------------------------------------------------------------
  // The adjustment stages

  /** The adjustment stages that a single slider gates and that run one filter. */
  datatype StageKind =
    | Exposure | Brilliance | Highlights | Shadows | Contrast
    | Brightness | BlackPoint | Saturation | Vibrance | Warmth

  /** The number of adjustment stages before the gradient overlay. */
  const StageCount: nat := 10

  /** The stage at each position of the running order. */
  function StageAt(i: nat): StageKind
    requires i < StageCount
  {
    match i
    case 0 => Exposure
    case 1 => Brilliance
    case 2 => Highlights
    case 3 => Shadows
    case 4 => Contrast
    case 5 => Brightness
    case 6 => BlackPoint
    case 7 => Saturation
    case 8 => Vibrance
    case _ => Warmth
  }

  /** The position of a stage in the order; every kind appears exactly once. */
  function IndexOf(kind: StageKind): (i: nat)
    ensures i < StageCount && StageAt(i) == kind
    ensures forall j: nat :: j < StageCount && StageAt(j) == kind ==> j == i
  {
    match kind
    case Exposure => 0
    case Brilliance => 1
    case Highlights => 2
    case Shadows => 3
    case Contrast => 4
    case Brightness => 5
    case BlackPoint => 6
    case Saturation => 7
    case Vibrance => 8
    case Warmth => 9
  }

  /**
   * The slider that gates a stage. Every stage is gated on one of the ten
   * adjustment sliders: never on tint, the gradient or the look controls.
   */
  function Knob(s: Adjustments, kind: StageKind): (knob: real)
    ensures knob in {s.exposure, s.brilliance, s.highlights, s.shadows, s.contrast,
                     s.brightness, s.blackPoint, s.saturation, s.vibrance, s.warmth}
  {
    match kind
    case Exposure => s.exposure
    case Brilliance => s.brilliance
    case Highlights => s.highlights
    case Shadows => s.shadows
    case Contrast => s.contrast
    case Brightness => s.brightness
    case BlackPoint => s.blackPoint
    case Saturation => s.saturation
    case Vibrance => s.vibrance
    case Warmth => s.warmth
  }

  /**
   * The slider value at which a stage is skipped: 1 for contrast and saturation,
   * else 0. It is always the slider's initial value.
   */
  function Neutral(kind: StageKind): (neutral: real)
    ensures neutral == Knob(Defaults(), kind)
  {
    match kind
    case Contrast | Saturation => 1.0
    case _ => 0.0
  }

  /**
   * The filter a stage runs, configured from the sliders. The color-controls
   * filter serves five stages; only the warmth stage uses temperature and tint.
   */
  function Configure(s: Adjustments, kind: StageKind): (adjustment: Adjustment)
    ensures adjustment.ColorControlsBrightness? || adjustment.ColorControlsContrast?
            || adjustment.ColorControlsSaturation?
            <==> kind in {Brilliance, Contrast, Brightness, BlackPoint, Saturation}
    ensures adjustment.TemperatureAndTint? <==> kind == Warmth
  {
    match kind
    case Exposure => ExposureAdjust(ExposureEV(s.exposure))
    case Brilliance => ColorControlsBrightness(Percent(s.brilliance))
    case Highlights => HighlightAmount(Percent(s.highlights))
    case Shadows => ShadowAmount(ShadowAmountOf(s.shadows))
    case Contrast => ColorControlsContrast(ContrastFactor(s.contrast))
    case Brightness => ColorControlsBrightness(Percent(s.brightness))
    case BlackPoint => ColorControlsBrightness(BlackPointBrightness(s.blackPoint))
    case Saturation => ColorControlsSaturation(SaturationFactor(s.saturation))
    case Vibrance => VibranceAmount(Percent(s.vibrance))
    case Warmth => TemperatureAndTint(WarmthNeutral(s.warmth, s.tint))
  }

  /** Increasing a slider never decreases its filter input (black point: never increases). */
  lemma RemapsMonotone(lo: real, hi: real)
    requires lo <= hi
    ensures ExposureEV(lo) <= ExposureEV(hi)
    ensures Percent(lo) <= Percent(hi)
    ensures ShadowAmountOf(lo) <= ShadowAmountOf(hi)
    ensures ContrastFactor(lo) <= ContrastFactor(hi)
    ensures SaturationFactor(lo) <= SaturationFactor(hi)
    ensures WarmthNeutral(lo, 0.0).x <= WarmthNeutral(hi, 0.0).x
    ensures BlackPointBrightness(hi) <= BlackPointBrightness(lo)
    ensures GradientIntensity(lo) <= GradientIntensity(hi)
  {
  }

  /**
   * Tint is not clamped: any two different tints, however far outside the
   * slider's range, configure different neutrals, and the tint reaches the
   * filter unchanged.
   */
  lemma TintNotClamped(warmth: real, tint: real, other: real)
    requires tint != other
    ensures WarmthNeutral(warmth, tint) != WarmthNeutral(warmth, other)
    ensures WarmthNeutral(warmth, tint).y == tint
  {
  }

  /**
   * Skipping a stage is not the same as running it at an identity setting. At
   * the skip value 1, contrast would be configured with factor 2.02 and
   * saturation with 1.01, whereas Core Image's identity factor 1 is reached at
   * contrast -50 and saturation 0. So moving either slider off 1 by a small
   * step switches the stage from skipped to a clearly visible change.
   */
  lemma NeutralIsNotIdentitySetting()
    ensures ContrastFactor(Neutral(Contrast)) == 2.02 && ContrastFactor(-50.0) == 1.0
    ensures SaturationFactor(Neutral(Saturation)) == 1.01 && SaturationFactor(0.0) == 1.0
  {
  }
}
