# PhotoEditorApp processing pipeline in Dafny

This project models the processing core of PhotoEditorApp, a SwiftUI photo editor.
The core is the part of `ContentView` that turns the loaded photo and the editor's
controls into the photo on screen:

- the fourteen control values: twelve sliders, the look picker and its intensity;
- `resetAdjustments` and `loadImage`;
- `applyProcessing`, which converts the photo to a Core Image image, runs the
  adjustment pass and then the look pass, and renders the result;
- `applyAdjustments`, ten gated adjustment stages followed by an optional
  gradient overlay;
- `applyFilters`, the "Vivid" and "Vivid Warm" looks.

The files:

- `wrappers.dfy`: `Option`, with `GetOr` for Swift's `??`.
- `core_image.dfy`: Core Image as an injected `Engine`. It holds the built-in
  filters, the linear-gradient generator, source-over compositing, extent and
  cropping, and the conversions between `UIImage` and `CIImage`. The filters, the
  gradient generator, compositing and the two conversions may have no output;
  extent and cropping always have one. Images and photos are abstract types, so
  every proved property holds for every engine.
- `adjustments.dfy`: the control record `Adjustments` and its `Defaults`. It also
  holds the conversions from slider values to filter inputs (EV stops, percentages,
  the shadow amount, contrast and saturation factors, the temperature/tint neutral,
  the gradient geometry and opacities), the look filters by name, and the stage
  table (which slider gates each stage, its neutral value, the configured filter).
- `pipeline.dfy`: the reference definition of one pass. `Staged` is the ten
  stages written out one after another, as the editor runs them. `RunStages` over
  `AdjustmentStages` is the same computation as a fold over the stage table, and
  the contract of `Staged` states that the two are equal. `Adjusted` adds the
  gradient overlay, `Looked` the look filter, and `Process` and `Refreshed` rendering and display.
  The lemmas state what a pass promises: neutral stages are skipped, a failing
  stage falls back to its input, the order is fixed, the defaults are the
  identity, and a pass is idempotent.
- `content_view.dfy`: class `ContentView` holds the photos and the controls. Its
  methods are proved to compute the functions of `Pipeline`.

The fourteen `@State` control values are kept in one field, `controls`, of record
type `Adjustments`. Its field names are the source's variable names. The
`onChange` handlers re-run processing whenever a control or the input photo
changes. They are modelled by `SetAdjustments` and `PickPhoto`.

In these places the code behaves in ways a reader might not expect; the model follows the code:

- Tint reaches the temperature/tint filter unclamped (`TintNotClamped`).
- A gradient of 0 keeps the result of the earlier stages (`GradientOffKeepsStages`).
- The pass is abandoned only when the gradient generator has no output. In that
  case the earlier stages are discarded as well (`GradientFailureDiscardsStages`).
- A look filter has no fallback. When it has no output, nothing is rendered and
  the displayed photo stays as it was (`LookFailureKeepsDisplayedPhoto`).
- Contrast and saturation are gated on the value 1, their initial value, not on 0.
- Skipping a stage is not the same as running it at an identity setting. At 1
  the contrast and saturation stages are skipped, but a slider at 1.01 already
  configures a contrast factor of about 2.02 and a saturation factor of about
  1.01. The settings at which Core Image leaves the image as it is are contrast
  -50 and saturation 0 (`NeutralIsNotIdentitySetting`).

## Model

| member | source | states |
|---|---|---|
| Adjustments.Defaults | PhotoEditorApp/ContentView.swift:24-38 | every initial slider value lies in its slider's range and the initial look is one the picker offers |
| Adjustments.ExposureEV | PhotoEditorApp/ContentView.swift:200 | a full slider swing is at most two EV stops either way; the EV is 0 exactly when the slider is 0 |
| Adjustments.Percent | PhotoEditorApp/ContentView.swift:208 | slider values map into [-1, 1], and to 0 exactly when the slider is 0 (brilliance, highlights, brightness, vibrance) |
| Adjustments.BlackPointBrightness | PhotoEditorApp/ContentView.swift:248 | the black point brightens in the direction opposite to brightness: it is the exact negation of the brightness mapping, within [-1, 1] |
| Adjustments.ShadowAmountOf | PhotoEditorApp/ContentView.swift:224 | the shadow amount lies in [0, 1] and is 0.5 exactly when the slider is 0 |
| Adjustments.ContrastFactor | PhotoEditorApp/ContentView.swift:232 | the contrast factor lies in [0, 4] and is 2 exactly when the slider is 0 |
| Adjustments.SaturationFactor | PhotoEditorApp/ContentView.swift:256 | the saturation factor lies in [0, 2] and is 1 exactly when the slider is 0 |
| Adjustments.WarmthNeutral | PhotoEditorApp/ContentView.swift:272 | the neutral temperature is 6500 K shifted by the warmth, within [6400, 6600]; the tint passes through unchanged |
| Adjustments.GradientIntensity | PhotoEditorApp/ContentView.swift:286 | the gradient slider maps into a blend intensity in [0, 1] |
| Adjustments.GradientFor | PhotoEditorApp/ContentView.swift:279-288 | the gradient runs vertically through the image's centre line over its full height, from red to blue, and the two opacities always sum to 1 (each in [0, 1] for slider values) |
| Adjustments.VividSaturation | PhotoEditorApp/ContentView.swift:313 | the Vivid saturation lies in [0, 2] and is neutral (1) exactly at intensity 0.5 |
| Adjustments.VividWarmNeutral | PhotoEditorApp/ContentView.swift:320 | the Vivid Warm neutral lies in [0, 7000] K with tint 0 |
| Adjustments.LookFilter | PhotoEditorApp/ContentView.swift:309-322 | a look filter runs exactly for "Vivid" and "Vivid Warm", with the configuration of each; of the picker's names exactly "None" selects no filter |
| Adjustments.IndexOf | PhotoEditorApp/ContentView.swift:196-274 | every stage kind occurs at exactly one position of the running order |
| Adjustments.Knob | PhotoEditorApp/ContentView.swift:197-272 | every stage is gated on one of the ten adjustment sliders, never on tint, the gradient or the look controls |
| Adjustments.Neutral | PhotoEditorApp/ContentView.swift:197-272 | the value at which a stage is skipped is always its slider's initial value, so at the initial values every stage is skipped |
| Adjustments.Configure | PhotoEditorApp/ContentView.swift:197-272 | the color-controls filter serves exactly brilliance, contrast, brightness, black point and saturation; the temperature/tint filter serves exactly warmth |
| Adjustments.RemapsMonotone | PhotoEditorApp/ContentView.swift:200-286 | raising a slider never lowers its filter input, except black point, which never raises it |
| Adjustments.TintNotClamped | PhotoEditorApp/ContentView.swift:272 | tint is not clamped: it reaches the filter unchanged, and any two different tints configure different neutrals |
| Adjustments.NeutralIsNotIdentitySetting | PhotoEditorApp/ContentView.swift:229-232 | at the skip value 1 contrast would be configured with factor 2.02 and saturation with 1.01; the identity factor 1 lies at contrast -50 and saturation 0 |
| Pipeline.AdjustmentStages | PhotoEditorApp/ContentView.swift:196-274 | the table has ten stages, the i-th gated on its slider leaving the neutral value and configured from it |
| Pipeline.RunStagesAppend | PhotoEditorApp/ContentView.swift:196-274 | running two stage lists in turn is running their concatenation |
| Pipeline.RunStagesFrom | PhotoEditorApp/ContentView.swift:196-274 | running the stages from position k is stage k followed by the stages after it |
| Pipeline.RunTenStages | PhotoEditorApp/ContentView.swift:196-274 | ten stages run as ten nested steps, first to last |
| Pipeline.StageTable | PhotoEditorApp/ContentView.swift:197-273 | each stage is gated on its own slider (contrast and saturation at 1, the rest at 0) and runs the filter configured from that slider; only warmth also reads tint |
| Pipeline.Step | PhotoEditorApp/ContentView.swift:197-201 | a skipped stage returns its input; otherwise the result is the input or the stage filter's output |
| Pipeline.Staged | PhotoEditorApp/ContentView.swift:196-274 | the straight-line stages equal the fold over the table, in the fixed order exposure, brilliance, highlights, shadows, contrast, brightness, black point, saturation, vibrance, warmth |
| Pipeline.Adjusted | PhotoEditorApp/ContentView.swift:190-306 | the adjustment pass has an image exactly when it is given one |
| Pipeline.Looked | PhotoEditorApp/ContentView.swift:309-323 | without a look the input passes through unchanged; without an input there is no output |
| Pipeline.Process | PhotoEditorApp/ContentView.swift:171-189 | a photo is rendered only when it converts to a Core Image image |
| Pipeline.Refreshed | PhotoEditorApp/ContentView.swift:171-189 | a pass never clears a displayed photo; when the display changes, it becomes the rendered pass over the input photo |
| Pipeline.InactiveStagesAreIdentity | PhotoEditorApp/ContentView.swift:197-273 | a chain of skipped stages leaves the image unchanged |
| Pipeline.OnlyActiveStagesMatter | PhotoEditorApp/ContentView.swift:197-273 | a skipped stage's configuration is never consulted: chains that agree on active stages and their filters give the same image |
| Pipeline.StageWithoutEffectRemovable | PhotoEditorApp/ContentView.swift:201 | a stage that returns the image it is given can be dropped from the chain |
| Pipeline.NeutralStageSkipped | PhotoEditorApp/ContentView.swift:229 | a stage whose slider is at its neutral value runs as if it were absent from the order |
| Pipeline.FailedStageFallsBack | PhotoEditorApp/ContentView.swift:217 | an active stage whose filter has no output keeps the image before it and the later stages still run: the result is the chain without that stage |
| Pipeline.StageOrderFixed | PhotoEditorApp/ContentView.swift:196-274 | the order of the stages does not depend on the slider values |
| Pipeline.DefaultsAreIdentity | PhotoEditorApp/ContentView.swift:24-38 | with the initial values both the adjustment pass and the look pass return their input image |
| Pipeline.GradientOffKeepsStages | PhotoEditorApp/ContentView.swift:298-301 | with the gradient at 0 the pass yields the result of the ten stages |
| Pipeline.GradientFailureDiscardsStages | PhotoEditorApp/ContentView.swift:290 | when the gradient generator has no output, the pass yields its unmodified input, discarding the stages |
| Pipeline.CompositeFailureKeepsStages | PhotoEditorApp/ContentView.swift:293-297 | when compositing has no output, the pass keeps the result of the ten stages |
| Pipeline.TintNeedsWarmth | PhotoEditorApp/ContentView.swift:269-273 | with warmth at 0 the tint has no effect on the rendered photo |
| Pipeline.IntensityNeedsLook | PhotoEditorApp/ContentView.swift:309-322 | without a look selected the filter intensity has no effect on the rendered photo |
| Pipeline.LookFailureKeepsDisplayedPhoto | PhotoEditorApp/ContentView.swift:314 | a look filter without output leaves no image, so nothing is rendered and the displayed photo stays as it was |
| Pipeline.NoPhotoNoChange | PhotoEditorApp/ContentView.swift:172 | without an input photo a pass leaves the displayed photo as it was |
| Pipeline.RefreshIdempotent | PhotoEditorApp/ContentView.swift:171-189 | a second pass with nothing changed displays the same photo |
| Pipeline.LoadedPhotoShownUnadjusted | PhotoEditorApp/ContentView.swift:147-152 | a freshly loaded photo with the defaults is shown as Core Image renders it unadjusted, or as loaded when conversion or rendering has no output |
| PhotoEditor.ContentView.constructor | PhotoEditorApp/ContentView.swift:24-38 | a new editor has no photos and every control at its initial value |
| PhotoEditor.ContentView.ResetAdjustments | PhotoEditorApp/ContentView.swift:154-169 | every control returns to its initial value and nothing else changes |
| PhotoEditor.ContentView.LoadImage | PhotoEditorApp/ContentView.swift:147-152 | without a photo nothing changes; with one the controls are reset and the display becomes the pass over the photo with the defaults, or the photo itself where that pass has no output |
| PhotoEditor.ContentView.ApplyProcessing | PhotoEditorApp/ContentView.swift:171-189 | the displayed photo becomes the rendered result of the adjustment and look passes when every step has an output, and stays as it was otherwise |
| PhotoEditor.ContentView.ApplyAdjustments | PhotoEditorApp/ContentView.swift:190-306 | the result is the reference adjustment pass: the ten gated stages in order, then the gradient overlay |
| PhotoEditor.ContentView.RunStage | PhotoEditorApp/ContentView.swift:197-202 | a skipped stage returns its input; an active stage returns its filter's output, or its input when the filter has none |
| PhotoEditor.ContentView.ApplyFilters | PhotoEditorApp/ContentView.swift:309-323 | the result is the reference look pass: the selected look's output, with no fallback |
| PhotoEditor.ContentView.PickPhoto | PhotoEditorApp/ContentView.swift:127 | a different input photo triggers a pass with the current controls; the same photo changes nothing on screen |
| PhotoEditor.ContentView.SetAdjustments | PhotoEditorApp/ContentView.swift:128-141 | the new control values are stored, and any change triggers a pass with them |

## Left out

- The SwiftUI view body (ContentView.swift:45-143), `AdjustmentSlider` and `PhotoPicker` are not modelled: they are layout and UIKit glue. The picker is only the photo it hands over (`PickPhoto`).
- PhotoEditorAppApp.swift is not part of this model; it only creates the window.
- The pixel arithmetic of the Core Image filters, the gradient generator and compositing is not modelled. They are functions of an injected `Engine`, so the properties hold for any such functions.
- `CIContext.createCGImage` and the conversions between `UIImage` and `CIImage` are modelled only as conversions that may have no output (`Engine.render`, `Engine.ciImage`).
- Floating point is modelled as exact real arithmetic. The `Float` and `CGFloat` conversions and their rounding are not modelled.
- `originalImage` (ContentView.swift:194) is never read by the editor and is not modelled.
- The force-unwrapped filter constructors `CIFilter(name:)!` (ContentView.swift:278, 293) are taken to succeed; the model does not cover a missing built-in filter.
- When a look filter's input image is absent, its output is taken to be absent too, as Core Image does.
- `showingImagePicker` and the sheet presentation are UI state and are not modelled.
- SwiftUI may call `applyProcessing` once per changed value. `SetAdjustments` runs one pass for a batch of changes. By `RefreshIdempotent`, further passes with the same values display the same photo.
- PhotoEditor.ContentView.RunStage: the editor writes each stage's `if` inline; the model routes each stage through this one method, with the same gate, filter configuration and fallback.
