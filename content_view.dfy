/**
 * The editor's state and its processing methods. Each method is proved to
 * compute the reference definition in module Pipeline.
 */
module PhotoEditor {
  import opened Wrappers
  import opened CoreImage
  import opened Adjustments
  import opened Pipeline

  class ContentView {
    /** Core Image: the rendering context and the built-in filters. */
    const engine: Engine

    var inputImage: Option<Photo>
    var processedImage: Option<Photo>

    /** The sliders and the look picker, which the editor keeps as separate state values. */
    var controls: Adjustments

    /** A new editor: no photo, every control at its initial value. */
    constructor (engine: Engine)
      ensures this.engine == engine
      ensures inputImage == None && processedImage == None
      ensures controls == Defaults()
    {
      this.engine := engine;
      inputImage, processedImage := None, None;
      controls := Defaults();
    }

    /** Restores every control to its initial value; the photos are untouched. */
    method ResetAdjustments()
      modifies this`controls
      ensures controls == Defaults()
    {
      controls := controls.(
        exposure := 0.0, brilliance := 0.0, highlights := 0.0, shadows := 0.0,
        contrast := 1.0, brightness := 0.0, blackPoint := 0.0, saturation := 1.0,
        vibrance := 0.0, warmth := 0.0, tint := 0.0, filterIntensity := 0.5,
        selectedFilter := "None", gradient := 0.0);
    }

    /**
     * Called when the picker is dismissed: with a photo, resets the controls,
     * shows the photo and processes it; without one, does nothing.
     */
    method LoadImage()
      modifies this
      ensures inputImage == old(inputImage)
      ensures old(inputImage).None? ==> controls == old(controls) && processedImage == old(processedImage)
      ensures old(inputImage).Some? ==> controls == Defaults()
      ensures old(inputImage).Some? ==> processedImage == Refreshed(engine, Defaults(), inputImage, inputImage)
    {
      if inputImage.None? {
        return;
      }
      ResetAdjustments();
      processedImage := inputImage;
      ApplyProcessing();
    }

    /**
     * One full pass from the input photo: adjustments, then the look filter,
     * then rendering. The displayed photo is replaced only when every step has
     * an output.
     */
    method ApplyProcessing()
      modifies this`processedImage
      ensures processedImage == Refreshed(engine, controls, inputImage, old(processedImage))
    {
      if inputImage.None? {
        return;
      }
      var ciImage := engine.ciImage(inputImage.value);
      var outputImage := ciImage;
      outputImage := ApplyAdjustments(outputImage);
      outputImage := ApplyFilters(outputImage);
      if outputImage.Some? {
        var rendered := engine.render(outputImage.value);
        if rendered.Some? {
          processedImage := Some(rendered.value);
        }
      }
    }

    /** The adjustment pass over `outputImage` (an in-out parameter in the editor). */
    method ApplyAdjustments(outputImage: Option<Image>) returns (result: Option<Image>)
      ensures result == Adjusted(engine, controls, outputImage)
    {
      if outputImage.None? {
        return outputImage;
      }
      var image := outputImage.value;
      var c := controls;
      ghost var original := image;

      image := RunStage(Stage(Exposure, c.exposure != 0.0, ExposureAdjust(ExposureEV(c.exposure))), image);
      image := RunStage(Stage(Brilliance, c.brilliance != 0.0, ColorControlsBrightness(Percent(c.brilliance))), image);
      image := RunStage(Stage(Highlights, c.highlights != 0.0, HighlightAmount(Percent(c.highlights))), image);
      image := RunStage(Stage(Shadows, c.shadows != 0.0, ShadowAmount(ShadowAmountOf(c.shadows))), image);
      image := RunStage(Stage(Contrast, c.contrast != 1.0, ColorControlsContrast(ContrastFactor(c.contrast))), image);
      image := RunStage(Stage(Brightness, c.brightness != 0.0, ColorControlsBrightness(Percent(c.brightness))), image);
      image := RunStage(Stage(BlackPoint, c.blackPoint != 0.0, ColorControlsBrightness(BlackPointBrightness(c.blackPoint))), image);
      image := RunStage(Stage(Saturation, c.saturation != 1.0, ColorControlsSaturation(SaturationFactor(c.saturation))), image);
      image := RunStage(Stage(Vibrance, c.vibrance != 0.0, VibranceAmount(Percent(c.vibrance))), image);
      image := RunStage(Stage(Warmth, c.warmth != 0.0, TemperatureAndTint(WarmthNeutral(c.warmth, c.tint))), image);
      assert image == Staged(engine, c, original);

      if c.gradient != 0.0 {
        var extent := engine.extent(image);
        var generated := engine.linearGradient(GradientFor(extent, c.gradient));
        if generated.None? {
          return outputImage;
        }
        var gradientImage := engine.cropped(generated.value, extent);
        image := engine.sourceOver(gradientImage, image).GetOr(image);
      } else {
        return Some(image);
      }
      return Some(image);
    }

    /**
     * One gated stage: when the stage is active its filter runs on `image`,
     * and the image is kept when the filter has no output.
     */
    method RunStage(stage: Stage, image: Image) returns (output: Image)
      ensures output == Step(engine, stage, image)
      ensures !stage.active ==> output == image
      ensures stage.active && engine.filter(stage.adjustment, image).Some? ==>
        output == engine.filter(stage.adjustment, image).value
    {
      output := image;
      if stage.active {
        output := engine.filter(stage.adjustment, image).GetOr(image);
      }
    }

    /** The look-filter pass over `outputImage` (an in-out parameter in the editor). */
    method ApplyFilters(outputImage: Option<Image>) returns (result: Option<Image>)
      ensures result == Looked(engine, controls, outputImage)
    {
      result := outputImage;
      if controls.selectedFilter == "Vivid" {
        result := engine.Output(ColorControlsSaturation(VividSaturation(controls.filterIntensity)), result);
      }
      if controls.selectedFilter == "Vivid Warm" {
        result := engine.Output(TemperatureAndTint(VividWarmNeutral(controls.filterIntensity)), result);
      }
    }

    /**
     * The picker hands over a photo (or none); a change of input photo
     * triggers a processing pass with the current controls.
     */
    method PickPhoto(photo: Option<Photo>)
      modifies this`inputImage, this`processedImage
      ensures inputImage == photo
      ensures processedImage ==
        if photo != old(inputImage) then Refreshed(engine, controls, photo, old(processedImage))
        else old(processedImage)
    {
      var changed := photo != inputImage;
      inputImage := photo;
      if changed {
        ApplyProcessing();
      }
    }

    /**
     * The sliders and picker set new values; any change triggers a processing
     * pass with the new values.
     */
    method SetAdjustments(s: Adjustments)
      modifies this`controls, this`processedImage
      ensures controls == s
      ensures processedImage ==
        if s != old(controls) then Refreshed(engine, s, inputImage, old(processedImage))
        else old(processedImage)
    {
      var changed := s != controls;
      controls := s;
      if changed {
        ApplyProcessing();
      }
    }
  }
}
