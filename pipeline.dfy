/**
 * What one processing pass computes: the ten gated adjustment stages, the
 * gradient overlay, the look filter and the final render. The stages are
 * defined twice, once as the straight-line sequence the editor runs and once
 * as a fold over a table of stages, and the two are proved equal. The
 * editor's methods are proved to compute these functions; the lemmas state
 * what the functions promise.
 */
module Pipeline {
  import opened Wrappers
  import opened CoreImage
  import opened Adjustments

  /** One guarded stage: the filter runs only when `active`. */
  datatype Stage = Stage(kind: StageKind, active: bool, adjustment: Adjustment)

  /** The table entry for one stage: gated on its slider leaving the neutral value. */
  function StageFor(s: Adjustments, kind: StageKind): Stage {
    Stage(kind, Knob(s, kind) != Neutral(kind), Configure(s, kind))
  }

  /** The table of adjustment stages for the given sliders, in running order. */
  function AdjustmentStages(s: Adjustments): (stages: seq<Stage>)
    ensures |stages| == StageCount
    ensures forall i :: 0 <= i < |stages| ==> stages[i] == StageFor(s, StageAt(i))
  {
    seq(StageCount, i requires 0 <= i < StageCount => StageFor(s, StageAt(i)))
  }

  /**
   * One stage applied to an image: an inactive stage passes the image through,
   * and an active stage whose filter has no output keeps the image it was given.
   */
  function Step(e: Engine, stage: Stage, image: Image): (output: Image)
    ensures !stage.active ==> output == image
    ensures output == image || e.filter(stage.adjustment, image) == Some(output)
  {
    if stage.active then e.filter(stage.adjustment, image).GetOr(image) else image
  }

  /** Threads an image through stages, first to last. */
  function RunStages(e: Engine, stages: seq<Stage>, image: Image): Image
    decreases |stages|
  {
    if stages == [] then image else RunStages(e, stages[1..], Step(e, stages[0], image))
  }

  /**
   * The ten stages as the editor writes them out, one after another, each
   * gated on its own slider and configured from it.
   */
  function Staged(e: Engine, s: Adjustments, image: Image): (staged: Image)
    ensures staged == RunStages(e, AdjustmentStages(s), image)
  {
    StageTable(s);
    RunTenStages(e, AdjustmentStages(s), image);
    var image := Step(e, Stage(Exposure, s.exposure != 0.0, ExposureAdjust(ExposureEV(s.exposure))), image);
    var image := Step(e, Stage(Brilliance, s.brilliance != 0.0, ColorControlsBrightness(Percent(s.brilliance))), image);
    var image := Step(e, Stage(Highlights, s.highlights != 0.0, HighlightAmount(Percent(s.highlights))), image);
    var image := Step(e, Stage(Shadows, s.shadows != 0.0, ShadowAmount(ShadowAmountOf(s.shadows))), image);
    var image := Step(e, Stage(Contrast, s.contrast != 1.0, ColorControlsContrast(ContrastFactor(s.contrast))), image);
    var image := Step(e, Stage(Brightness, s.brightness != 0.0, ColorControlsBrightness(Percent(s.brightness))), image);
    var image := Step(e, Stage(BlackPoint, s.blackPoint != 0.0, ColorControlsBrightness(BlackPointBrightness(s.blackPoint))), image);
    var image := Step(e, Stage(Saturation, s.saturation != 1.0, ColorControlsSaturation(SaturationFactor(s.saturation))), image);
    var image := Step(e, Stage(Vibrance, s.vibrance != 0.0, VibranceAmount(Percent(s.vibrance))), image);
    var image := Step(e, Stage(Warmth, s.warmth != 0.0, TemperatureAndTint(WarmthNeutral(s.warmth, s.tint))), image);
    image
  }

  /**
   * The adjustment pass. With the gradient at 0 it yields the staged image; otherwise
   * it overlays the cropped gradient (keeping the staged image when compositing has
   * no output), except that when the gradient generator has no output the whole
   * pass is abandoned and its input is kept.
   */
  function Adjusted(e: Engine, s: Adjustments, input: Option<Image>): (output: Option<Image>)
    ensures output.Some? <==> input.Some?
  {
    match input
    case None => None
    case Some(original) =>
      var staged := Staged(e, s, original);
      if s.gradient == 0.0 then Some(staged)
      else
        var extent := e.extent(staged);
        match e.linearGradient(GradientFor(extent, s.gradient))
        case None => Some(original)
        case Some(generated) =>
          Some(e.sourceOver(e.cropped(generated, extent), staged).GetOr(staged))
  }

  /** The look-filter pass: the selected look's output, which replaces the image even when absent. */
  function Looked(e: Engine, s: Adjustments, input: Option<Image>): (output: Option<Image>)
    ensures LookFilter(s.selectedFilter, s.filterIntensity).None? ==> output == input
    ensures input.None? ==> output.None?
  {
    match LookFilter(s.selectedFilter, s.filterIntensity)
    case None => input
    case Some(look) => e.Output(look, input)
  }

  /** The photo one processing pass renders from `photo`, if every step has an output. */
  function Process(e: Engine, s: Adjustments, photo: Photo): (rendered: Option<Photo>)
    ensures rendered.Some? ==> e.ciImage(photo).Some?
  {
    match Looked(e, s, Adjusted(e, s, e.ciImage(photo)))
    case None => None
    case Some(image) => e.render(image)
  }

  /** The displayed photo after a processing pass over `input`, given the one displayed before. */
  function Refreshed(e: Engine, s: Adjustments, input: Option<Photo>, previous: Option<Photo>): (shown: Option<Photo>)
    ensures previous.Some? ==> shown.Some?
    ensures shown != previous ==> input.Some? && shown == Process(e, s, input.value)
  {
    match input
    case None => previous
    case Some(photo) =>
      match Process(e, s, photo)
      case None => previous
      case Some(rendered) => Some(rendered)
  }

  // ---------------------------------------------------------------------------
  // The stage chain

  /** Running two stage lists in turn is running their concatenation. */
  lemma {:induction false} RunStagesAppend(e: Engine, first: seq<Stage>, second: seq<Stage>, image: Image)
    ensures RunStages(e, first + second, image) == RunStages(e, second, RunStages(e, first, image))
    decreases |first|
  {
    if first == [] {
      assert first + second == second;
    } else {
      assert (first + second)[1..] == first[1..] + second;
      RunStagesAppend(e, first[1..], second, Step(e, first[0], image));
    }
  }

  /** Running the stages from position `k` is running stage `k` and then the ones after it. */
  lemma RunStagesFrom(e: Engine, stages: seq<Stage>, k: nat, image: Image)
    requires k < |stages|
    ensures RunStages(e, stages[k..], image) == RunStages(e, stages[k + 1..], Step(e, stages[k], image))
  {
    assert stages[k..][1..] == stages[k + 1..];
  }

  /** Ten stages run as ten nested steps, first to last. */
  lemma RunTenStages(e: Engine, stages: seq<Stage>, image: Image)
    requires |stages| == 10
    ensures RunStages(e, stages, image) ==
      Step(e, stages[9], Step(e, stages[8], Step(e, stages[7], Step(e, stages[6], Step(e, stages[5],
      Step(e, stages[4], Step(e, stages[3], Step(e, stages[2], Step(e, stages[1], Step(e, stages[0], image))))))))))
  {
    var i1 := Step(e, stages[0], image);
    var i2 := Step(e, stages[1], i1);
    var i3 := Step(e, stages[2], i2);
    var i4 := Step(e, stages[3], i3);
    var i5 := Step(e, stages[4], i4);
    var i6 := Step(e, stages[5], i5);
    var i7 := Step(e, stages[6], i6);
    var i8 := Step(e, stages[7], i7);
    var i9 := Step(e, stages[8], i8);
    assert stages[0..] == stages;
    RunStagesFrom(e, stages, 0, image);
    RunStagesFrom(e, stages, 1, i1);
    RunStagesFrom(e, stages, 2, i2);
    RunStagesFrom(e, stages, 3, i3);
    RunStagesFrom(e, stages, 4, i4);
    RunStagesFrom(e, stages, 5, i5);
    RunStagesFrom(e, stages, 6, i6);
    RunStagesFrom(e, stages, 7, i7);
    RunStagesFrom(e, stages, 8, i8);
    RunStagesFrom(e, stages, 9, i9);
    assert stages[10..] == [];
  }

  /**
   * The stage table spelled out: each stage is gated on its own slider leaving
   * its neutral value (1 for contrast and saturation, 0 for the others) and runs
   * the filter configured from that slider; warmth alone also reads the tint.
   */
  lemma StageTable(s: Adjustments)
    ensures var stages := AdjustmentStages(s);
            stages[0] == Stage(Exposure, s.exposure != 0.0, ExposureAdjust(ExposureEV(s.exposure)))
            && stages[1] == Stage(Brilliance, s.brilliance != 0.0, ColorControlsBrightness(Percent(s.brilliance)))
            && stages[2] == Stage(Highlights, s.highlights != 0.0, HighlightAmount(Percent(s.highlights)))
            && stages[3] == Stage(Shadows, s.shadows != 0.0, ShadowAmount(ShadowAmountOf(s.shadows)))
            && stages[4] == Stage(Contrast, s.contrast != 1.0, ColorControlsContrast(ContrastFactor(s.contrast)))
            && stages[5] == Stage(Brightness, s.brightness != 0.0, ColorControlsBrightness(Percent(s.brightness)))
            && stages[6] == Stage(BlackPoint, s.blackPoint != 0.0, ColorControlsBrightness(BlackPointBrightness(s.blackPoint)))
            && stages[7] == Stage(Saturation, s.saturation != 1.0, ColorControlsSaturation(SaturationFactor(s.saturation)))
            && stages[8] == Stage(Vibrance, s.vibrance != 0.0, VibranceAmount(Percent(s.vibrance)))
            && stages[9] == Stage(Warmth, s.warmth != 0.0, TemperatureAndTint(WarmthNeutral(s.warmth, s.tint)))
  {
  }

  /** A chain of stages that are all inactive leaves the image unchanged. */
  lemma {:induction false} InactiveStagesAreIdentity(e: Engine, stages: seq<Stage>, image: Image)
    requires forall i :: 0 <= i < |stages| ==> !stages[i].active
    ensures RunStages(e, stages, image) == image
    decreases |stages|
  {
    if stages != [] {
      InactiveStagesAreIdentity(e, stages[1..], image);
    }
  }

  /**
   * A stage's filter is consulted only when the stage is active: two chains that
   * agree on which stages are active and on the filters of the active ones give
   * the same image, whatever the inactive stages would have configured.
   */
  lemma {:induction false} OnlyActiveStagesMatter(e: Engine, a: seq<Stage>, b: seq<Stage>, image: Image)
    requires |a| == |b|
    requires forall i :: 0 <= i < |a| ==> a[i].active == b[i].active
    requires forall i :: 0 <= i < |a| && a[i].active ==> a[i].adjustment == b[i].adjustment
    ensures RunStages(e, a, image) == RunStages(e, b, image)
    decreases |a|
  {
    if a != [] {
      assert Step(e, a[0], image) == Step(e, b[0], image);
      OnlyActiveStagesMatter(e, a[1..], b[1..], Step(e, a[0], image));
    }
  }

  /** A stage that leaves the image it is given unchanged can be dropped from the chain. */
  lemma StageWithoutEffectRemovable(e: Engine, stages: seq<Stage>, i: nat, image: Image)
    requires i < |stages|
    requires Step(e, stages[i], RunStages(e, stages[..i], image)) == RunStages(e, stages[..i], image)
    ensures RunStages(e, stages, image) == RunStages(e, stages[..i] + stages[i + 1..], image)
  {
    var before := RunStages(e, stages[..i], image);
    assert stages == stages[..i] + ([stages[i]] + stages[i + 1..]);
    RunStagesAppend(e, stages[..i], [stages[i]] + stages[i + 1..], image);
    RunStagesAppend(e, stages[..i], stages[i + 1..], image);
  }

  /** A stage whose slider is at its neutral value is skipped: the chain runs as if it were absent. */
  lemma NeutralStageSkipped(e: Engine, s: Adjustments, kind: StageKind, image: Image)
    requires Knob(s, kind) == Neutral(kind)
    ensures var stages, i := AdjustmentStages(s), IndexOf(kind);
            RunStages(e, stages, image) == RunStages(e, stages[..i] + stages[i + 1..], image)
  {
    StageWithoutEffectRemovable(e, AdjustmentStages(s), IndexOf(kind), image);
  }

  /**
   * A stage whose filter has no output falls back to the image before it, and
   * the later stages still run: the chain runs as if that stage were absent.
   */
  lemma FailedStageFallsBack(e: Engine, s: Adjustments, kind: StageKind, image: Image)
    requires e.filter(Configure(s, kind), RunStages(e, AdjustmentStages(s)[..IndexOf(kind)], image)).None?
    ensures var stages, i := AdjustmentStages(s), IndexOf(kind);
            RunStages(e, stages, image) == RunStages(e, stages[..i] + stages[i + 1..], image)
  {
    StageWithoutEffectRemovable(e, AdjustmentStages(s), IndexOf(kind), image);
  }

  /** The stage order does not depend on the slider values. */
  lemma StageOrderFixed(s: Adjustments, t: Adjustments)
    ensures |AdjustmentStages(s)| == |AdjustmentStages(t)| == 10
    ensures forall i :: 0 <= i < 10 ==>
      AdjustmentStages(s)[i].kind == AdjustmentStages(t)[i].kind == StageAt(i)
  {
  }

  // ---------------------------------------------------------------------------
  // The whole pass

  /** At the defaults every stage is skipped and the gradient is off, so the pass is the identity. */
  lemma DefaultsAreIdentity(e: Engine, image: Image)
    ensures Adjusted(e, Defaults(), Some(image)) == Some(image)
    ensures Looked(e, Defaults(), Some(image)) == Some(image)
  {
    var stages := AdjustmentStages(Defaults());
    forall i | 0 <= i < |stages| ensures !stages[i].active {
    }
    InactiveStagesAreIdentity(e, stages, image);
  }

  /** With the gradient at 0, the pass yields the result of the ten stages. */
  lemma GradientOffKeepsStages(e: Engine, s: Adjustments, image: Image)
    requires s.gradient == 0.0
    ensures Adjusted(e, s, Some(image)) == Some(RunStages(e, AdjustmentStages(s), image))
  {
  }

  /**
   * When the gradient generator has no output, every earlier adjustment is
   * discarded and the pass yields its unmodified input.
   */
  lemma GradientFailureDiscardsStages(e: Engine, s: Adjustments, image: Image)
    requires s.gradient != 0.0
    requires e.linearGradient(GradientFor(e.extent(RunStages(e, AdjustmentStages(s), image)), s.gradient)).None?
    ensures Adjusted(e, s, Some(image)) == Some(image)
  {
  }

  /**
   * When the gradient is on and its generator has an output but compositing
   * has none, the pass keeps the result of the ten stages.
   */
  lemma CompositeFailureKeepsStages(e: Engine, s: Adjustments, image: Image)
    requires s.gradient != 0.0
    requires var staged := RunStages(e, AdjustmentStages(s), image);
             var generated := e.linearGradient(GradientFor(e.extent(staged), s.gradient));
             generated.Some? && e.sourceOver(e.cropped(generated.value, e.extent(staged)), staged).None?
    ensures Adjusted(e, s, Some(image)) == Some(RunStages(e, AdjustmentStages(s), image))
  {
  }

  /** Tint is read only by the warmth stage: with warmth at 0 it has no effect on the result. */
  lemma TintNeedsWarmth(e: Engine, s: Adjustments, tint: real, photo: Photo)
    requires s.warmth == 0.0
    ensures Process(e, s, photo) == Process(e, s.(tint := tint), photo)
  {
    var t := s.(tint := tint);
    var a, b := AdjustmentStages(s), AdjustmentStages(t);
    forall i | 0 <= i < |a| ensures a[i].active == b[i].active && (a[i].active ==> a[i].adjustment == b[i].adjustment) {
    }
    match e.ciImage(photo)
    case None =>
    case Some(image) =>
      OnlyActiveStagesMatter(e, a, b, image);
  }

  /** The filter intensity is read only by a look filter: with none selected it has no effect. */
  lemma IntensityNeedsLook(e: Engine, s: Adjustments, intensity: real, photo: Photo)
    requires s.selectedFilter != "Vivid" && s.selectedFilter != "Vivid Warm"
    ensures Process(e, s, photo) == Process(e, s.(filterIntensity := intensity), photo)
  {
    var t := s.(filterIntensity := intensity);
    match e.ciImage(photo)
    case None =>
    case Some(image) =>
      assert Adjusted(e, s, Some(image)) == Adjusted(e, t, Some(image)) by {
        assert Staged(e, s, image) == Staged(e, t, image);
      }
  }

  /**
   * A look filter has no fallback: when the selected look has no output the pass
   * renders nothing, and the displayed photo stays what it was.
   */
  lemma LookFailureKeepsDisplayedPhoto(e: Engine, s: Adjustments, photo: Photo, previous: Option<Photo>)
    requires LookFilter(s.selectedFilter, s.filterIntensity).Some?
    requires Adjusted(e, s, e.ciImage(photo)).Some?
    requires e.filter(LookFilter(s.selectedFilter, s.filterIntensity).value, Adjusted(e, s, e.ciImage(photo)).value).None?
    ensures Looked(e, s, Adjusted(e, s, e.ciImage(photo))).None?
    ensures Refreshed(e, s, Some(photo), previous) == previous
  {
  }

  /** Without a photo a pass changes nothing. */
  lemma NoPhotoNoChange(e: Engine, s: Adjustments, previous: Option<Photo>)
    ensures Refreshed(e, s, None, previous) == previous
  {
  }

  /** Processing again with nothing changed displays the same photo: a pass is idempotent. */
  lemma RefreshIdempotent(e: Engine, s: Adjustments, input: Option<Photo>, previous: Option<Photo>)
    ensures Refreshed(e, s, input, Refreshed(e, s, input, previous)) == Refreshed(e, s, input, previous)
  {
  }

  /**
   * A freshly loaded photo with the defaults is shown as Core Image renders it
   * unadjusted, or as it came when that conversion or rendering has no output.
   */
  lemma LoadedPhotoShownUnadjusted(e: Engine, photo: Photo)
    ensures Refreshed(e, Defaults(), Some(photo), Some(photo)) ==
      match e.ciImage(photo)
      case None => Some(photo)
      case Some(image) => Some(e.render(image).GetOr(photo))
  {
    match e.ciImage(photo)
    case None =>
    case Some(image) => DefaultsAreIdentity(e, image);
  }
}
