# Cardboard VR toolkit, modelled in Dafny

This project models the core of the Xamarin port of Google's Cardboard VR
toolkit (namespace `Com.Google.VRToolkit.CardBoard`).

- **Screen and viewer parameters.** `ScreenParams` holds the phone's screen size and pixel density. `CardboardDeviceParams` holds the viewer's lens geometry, read from the NFC tag.
- **Head pose and tracking.** `HeadTransform` holds the 4x4 head view matrix and its derived vectors, quaternion and Euler angles. `HeadTracker` remaps sensor axes, forwards samples to the orientation filter, and predicts the head view one frame ahead.
- **Eyes and viewports.** `EyeParams` and `Viewport` describe one eye's projection and rectangle.
- **Lens-distortion compositor.** `DistortionRenderer` lays out the two eyes in an off-screen texture, builds a 40 x 40 distortion mesh per eye (vertex buffer and triangle-strip index buffer), and brackets each frame with framebuffer save and restore.
- **`CardboardView` and its `RendererHelper`.**
  - The view keeps the settings and queues every change for the GL thread.
  - The helper applies the queued changes. Each frame it recomputes eye views and projections when they changed, then calls the application's renderer.
  - The stereo adapter splits a frame into per-eye calls.
- **`MagnetSensor`.** Detects a pull of the magnet trigger in a sliding window of magnetometer samples.
- **`NfcSensor`.** Keeps a registry of listeners, accepts Cardboard tags, and reports insertion into and removal from a viewer.
- **`CardboardActivity`.** Wires all of these together and decides what the volume keys do.

Floats are `real`. A division by zero reads as 0.0 (`Common.FDiv`); IEEE infinities and NaN are outside the model.

C# and Java numeric behaviour is written out explicitly:

- truncating integer division;
- the `(int)` cast;
- `Math.round` saturating at the 32-bit range;
- 32-bit wrap-around.

Trigonometry, square roots and the lens distortion polynomial are opaque function values in a `Numerics` record. Every fact about them is a precondition.

Objects are immutable values, and every mutator returns the new object. `equals(Object)` takes an `ObjectArg`: null, the same instance, another type, or another instance.

Out-of-range writes into caller arrays are `Result` errors (`IllegalArgument`, `IndexOutOfRange`, `NullReference`, `IllegalState`), matching the exception the source would throw.

The modules follow the source files:

| file | module | source |
|---|---|---|
| common.dfy | `Common` | C#/Java numeric semantics, `Option`/`Result`, array writes |
| viewport.dfy | `Viewports` | Viewport.cs |
| eye_params.dfy | `Eyes` | EyeParams.cs (and the FieldOfView, EyeTransform and Eye types it uses) |
| screen_params.dfy | `Screen` | ScreenParams.cs |
| device_params.dfy | `Device` | CardboardDeviceParams.cs |
| head_transform.dfy | `HeadPose` | HeadTransform.cs |
| head_tracker.dfy | `HeadTracking` | Sensors/HeadTracker.cs |
| distortion_mesh.dfy | `Mesh` | DistortionRenderer.cs, nested class DistortionMesh |
| distortion_renderer.dfy | `DistortionRendering` | DistortionRenderer.cs |
| magnet_sensor.dfy | `Magnet` | Sensors/MagnetSensor.cs |
| nfc_sensor.dfy | `Nfc` | Sensors/NfcSensor.cs |
| renderer_helper.dfy | `RenderHelper` | CardboardView.cs, nested RendererHelper and StereoRendererHelper |
| cardboard_view.dfy | `CardboardViews` | CardboardView.cs |
| cardboard_activity.dfy | `Activity` | CardboardActivity.cs |

The GL thread is modelled as a FIFO of commands. `QueueEvent` appends to the queue. The helper's `Drain` runs the queue before the next frame. Where the view blocks on a latch until the helper has shut down, the model runs the queue.

## Model

| member | source | states |
|---|---|---|
| Common.Wrap32 | CardboardXamarin/Cardboard/Sensors/HeadTracker.cs:114 | The sum `offset + 16` as a C# `int`: it is in the 32-bit range, congruent to the true sum modulo 2^32, and equal to it when no overflow happens |
| Common.CsDiv | CardboardXamarin/Cardboard/CardboardView.cs:571-573 | C# integer division truncates toward zero: Euclidean for non-negative operands, the negated quotient for a negative dividend, never negative when the signs agree |
| Common.TruncToInt | CardboardXamarin/Cardboard/CardboardView.cs:600-602 | The `(int)` cast of a float rounds toward zero: below x by less than 1 for x >= 0, above it by less than 1 for x < 0 |
| Common.RoundToInt | CardboardXamarin/Cardboard/DistortionRenderer.cs:176-181 | `Math.round` returns a 32-bit int and, inside the int range, the nearest integer with halves rounded up |
| Common.MinR | CardboardXamarin/Cardboard/Sensors/MagnetSensor.cs:186-194 | `Math.Min` is a lower bound of both arguments and equals one of them |
| Common.MaxR | CardboardXamarin/Cardboard/Sensors/MagnetSensor.cs:176-184 | `Math.Max` is an upper bound of both arguments and equals one of them |
| Common.StoreAll | CardboardXamarin/Cardboard/Viewport.cs:48-59 | Writing n values into a caller array at an offset succeeds exactly when they fit, fails with IllegalArgument when they overrun, and then changes exactly those n slots |
| Viewports.SetViewport | CardboardXamarin/Cardboard/Viewport.cs:30-36 | All four fields take the given values |
| Viewports.GetAsArray | CardboardXamarin/Cardboard/Viewport.cs:48-59 | The array gets x, y, width and height at the offset and is otherwise unchanged; it fails exactly when four slots do not fit |
| Viewports.SetThenGetAsArray | CardboardXamarin/Cardboard/Viewport.cs:30-59 | Reading back a viewport that was just set yields the four values set, in order |
| Viewports.Scaled | CardboardXamarin/Cardboard/CardboardView.cs:600-602 | Every field is its scaled value truncated toward zero, as the `(int)` cast does. Scaling by 1 leaves the viewport unchanged, and a scale between 0 and 1 keeps each non-negative field between 0 and its old value |
| Eyes.CodeRoundTrip | CardboardXamarin/Cardboard/EyeParams.cs:55-60 | The eye constants MONOCULAR, LEFT and RIGHT decode back to the same eye, and only its own code decodes to it |
| Eyes.NewEyeParams | CardboardXamarin/Cardboard/EyeParams.cs:26-32 | A new eye keeps its id and starts with an empty viewport, a default field of view and an unset transform |
| Screen.FromDisplay | CardboardXamarin/Cardboard/ScreenParams.cs:34-62 | The screen is landscape: the larger side is the width and keeps its own axis's density (the axes are swapped for a portrait display); border 3 mm |
| Screen.FromDisplayMeters | CardboardXamarin/Cardboard/ScreenParams.cs:34-62 | The metre sizes of a display-built screen are its pixel counts times the density of the same physical axis, in either orientation |
| Screen.EqualsIsValueEquality | CardboardXamarin/Cardboard/ScreenParams.cs:113-132 | `equals` holds against another screen exactly when all five fields agree |
| Screen.Copy | CardboardXamarin/Cardboard/ScreenParams.cs:64-71 | A copy is `equals` to its original in both directions |
| Screen.SetWidth | CardboardXamarin/Cardboard/ScreenParams.cs:73-76 | Only the width changes |
| Screen.SetHeight | CardboardXamarin/Cardboard/ScreenParams.cs:83-86 | Only the height changes |
| Screen.SetBorderSizeMeters | CardboardXamarin/Cardboard/ScreenParams.cs:103-106 | Only the border changes |
| Screen.SetHeightCanLeaveLandscape | CardboardXamarin/Cardboard/ScreenParams.cs:83-86 | The setters do not keep the landscape invariant the constructor establishes: a height above the width is accepted |
| Device.NewDeviceParams | CardboardXamarin/Cardboard/CardboardDeviceParams.cs:27-36 | The defaults: com.google / cardboard / 1.0, IPD 60 mm, lens centre 35 mm, lens 25 mm, screen-to-lens 37 mm, eye-to-lens 11 mm, viewport 60 mm, field of view 65 degrees, no tag |
| Device.EqualsIgnoresOnlyTagContents | CardboardXamarin/Cardboard/CardboardDeviceParams.cs:219-238 | `equals` holds exactly when every field except the tag contents agrees |
| Device.Copy | CardboardXamarin/Cardboard/CardboardDeviceParams.cs:68-86 | The copy equals the original field for field, and `equals` holds both ways |
| Device.SetVendor | CardboardXamarin/Cardboard/CardboardDeviceParams.cs:114-117 | Only the vendor changes |
| Device.SetModel | CardboardXamarin/Cardboard/CardboardDeviceParams.cs:124-127 | Only the model changes |
| Device.SetVersion | CardboardXamarin/Cardboard/CardboardDeviceParams.cs:134-137 | Only the version changes |
| Device.SetInterpupillaryDistance | CardboardXamarin/Cardboard/CardboardDeviceParams.cs:144-147 | Only the interpupillary distance changes |
| Device.SetVerticalDistanceToLensCenter | CardboardXamarin/Cardboard/CardboardDeviceParams.cs:154-157 | Only the lens-centre height changes |
| Device.SetVisibleViewportSize | CardboardXamarin/Cardboard/CardboardDeviceParams.cs:164-167 | Only the visible viewport size changes |
| Device.SetFovY | CardboardXamarin/Cardboard/CardboardDeviceParams.cs:174-177 | Only the vertical field of view changes |
| Device.SetLensDiameter | CardboardXamarin/Cardboard/CardboardDeviceParams.cs:184-187 | Only the lens diameter changes |
| Device.SetScreenToLensDistance | CardboardXamarin/Cardboard/CardboardDeviceParams.cs:194-197 | Only the screen-to-lens distance changes |
| Device.SetEyeToLensDistance | CardboardXamarin/Cardboard/CardboardDeviceParams.cs:204-207 | Only the eye-to-lens distance changes |
| Device.ParseNfcUri | CardboardXamarin/Cardboard/CardboardDeviceParams.cs:240-266 | A record is taken exactly when it has a URI whose host is v1.0.0, or whose path has two segments; the scheme is not looked at. The first kind sets the default vendor/model/version; the second sets host/segment 0/segment 1; nothing else changes; a rejected record leaves the parameters as they were |
| Device.ParseRecords | CardboardXamarin/Cardboard/CardboardDeviceParams.cs:88-107 | Only the first parsable record counts; with none the parameters are unchanged; the tag contents are never touched |
| Device.CreateFromNfcContents | CardboardXamarin/Cardboard/CardboardDeviceParams.cs:88-107 | Null contents give null. Otherwise: the defaults updated by the first parsable record, or the plain defaults when no record parses |
| HeadPose.NewHeadTransform | CardboardXamarin/Cardboard/HeadTransform.cs:31-35 | A new head view is the 4x4 identity |
| HeadPose.GetHeadView | CardboardXamarin/Cardboard/HeadTransform.cs:42-51 | The 16 entries are copied at the offset exactly when they fit; otherwise IllegalArgument |
| HeadPose.GetTranslation | CardboardXamarin/Cardboard/HeadTransform.cs:53-62 | Writes entries 12, 13, 14 of the head view exactly when three slots fit |
| HeadPose.GetForwardVector | CardboardXamarin/Cardboard/HeadTransform.cs:64-73 | Writes entries 2, 6, 10 of the head view, negated, exactly when three slots fit |
| HeadPose.GetUpVector | CardboardXamarin/Cardboard/HeadTransform.cs:75-84 | Writes entries 1, 5, 9 of the head view exactly when three slots fit |
| HeadPose.GetRightVector | CardboardXamarin/Cardboard/HeadTransform.cs:86-95 | Writes entries 0, 4, 8 of the head view exactly when three slots fit |
| HeadPose.BranchFollowsLargestDiagonal | CardboardXamarin/Cardboard/HeadTransform.cs:99-147 | The quaternion extraction takes the w branch exactly when the trace is non-negative, and otherwise the branch of the largest diagonal entry. The square root's argument is then at least 1 |
| HeadPose.GetQuaternion | CardboardXamarin/Cardboard/HeadTransform.cs:97-153 | Four slots at the offset are written, the rest kept, and the error case is as for the other getters. The component of the chosen branch is half the square root of its argument |
| HeadPose.GetEulerAngles | CardboardXamarin/Cardboard/HeadTransform.cs:155-177 | Writes the negated pitch, yaw and roll; pitch is asin(m[6]). Near gimbal lock (cos pitch < 0.01) yaw is 0 and roll comes from m[1], m[0]; otherwise yaw and roll are the atan2 of the other entries. The three slots are written, the rest kept, and the error case is as for the other getters |
| HeadTracking.SetAlignedToNorth | CardboardXamarin/Cardboard/Sensors/HeadTracker.cs:45 | Only the north-alignment flag changes |
| HeadTracking.Remap | CardboardXamarin/Cardboard/Sensors/HeadTracker.cs:136-138 | The remapped sample has three components |
| HeadTracking.RemapIsQuarterTurn | CardboardXamarin/Cardboard/Sensors/HeadTracker.cs:136-138 | The axis remap (-y, x, z) keeps the vector's length. Applied twice it is a half turn about z, and four times the identity |
| HeadTracking.ProcessSensorEvent | CardboardXamarin/Cardboard/Sensors/HeadTracker.cs:132-158 | A sample with fewer than three values throws IndexOutOfRange. Otherwise tracking state is unchanged, only a gyroscope sample moves the gyro timestamp (to now), and the filter sees at most one new call appended |
| HeadTracking.FilterSeesRemappedSamples | CardboardXamarin/Cardboard/Sensors/HeadTracker.cs:139-157 | Accelerometer and gyroscope samples reach the filter remapped. Magnetometer samples reach it only when aligned to north; other sensors are ignored |
| HeadTracking.StartTracking | CardboardXamarin/Cardboard/Sensors/HeadTracker.cs:64-94 | Starting is a no-op while tracking; otherwise the filter is reset and tracking is on |
| HeadTracking.StopTracking | CardboardXamarin/Cardboard/Sensors/HeadTracker.cs:96-110 | Stopping is a no-op while stopped; otherwise tracking is off |
| HeadTracking.StartStopGuards | CardboardXamarin/Cardboard/Sensors/HeadTracker.cs:64-110 | Start and stop are idempotent, and start-then-stop returns a stopped tracker to where it was, apart from the filter reset |
| HeadTracking.PredictionHorizon | CardboardXamarin/Cardboard/Sensors/HeadTracker.cs:120-121 | The prediction horizon is the time since the last gyro event, in seconds, plus one frame (1/30 s) |
| HeadTracking.HorizonMonotone | CardboardXamarin/Cardboard/Sensors/HeadTracker.cs:120-121 | A later clock reading never predicts less far ahead |
| HeadTracking.GetLastHeadViewAsWritten | CardboardXamarin/Cardboard/Sensors/HeadTracker.cs:112-130 | As written, the copy loop runs to the caller array's length over a 16-slot scratch. It only succeeds for a 16-entry array at offset 0, and then returns the predicted matrix |
| HeadTracking.AsWrittenHeadViewRejectsRoomyArray | CardboardXamarin/Cardboard/Sensors/HeadTracker.cs:114-126 | A 32-entry array at offset 16 passes the size check and then overruns the scratch array |
| HeadTracking.GetLastHeadView | CardboardXamarin/Cardboard/Sensors/HeadTracker.cs:112-130 | With the loop bounded by 16: succeeds exactly when 16 slots fit at the offset and writes the predicted head view there; otherwise IllegalArgument |
| HeadTracking.HeadViewReadsAgree | CardboardXamarin/Cardboard/Sensors/HeadTracker.cs:112-130 | Wherever the as-written read succeeds, the corrected one gives the same result |
| Mesh.Clamp | CardboardXamarin/Cardboard/DistortionRenderer.cs:396-399 | `max(min, min(max, v))`: in range when the range is non-empty, v itself inside it, the nearer bound outside it, and `min` for an empty range |
| Mesh.Overshoot | CardboardXamarin/Cardboard/DistortionRenderer.cs:452-454 | The signed distance from a coordinate to the clamped one: 0 inside the range, negative below it, positive above it |
| Mesh.Vignette | CardboardXamarin/Cardboard/DistortionRenderer.cs:458 | The vignette weight lies in [0, 1]. It is 1 at distance 0 and 0 beyond the vignette size, and falls linearly in between |
| Mesh.BuildVertexData | CardboardXamarin/Cardboard/DistortionRenderer.cs:427-469 | The vertex loop fills 8000 floats. Vertex (row, col) sits at 200 row + 5 col as position x, y, vignette, u, v, each of which is what that grid point computes |
| Mesh.VignetteInUnitRange | CardboardXamarin/Cardboard/DistortionRenderer.cs:458 | Every vertex's vignette weight is in [0, 1] |
| Mesh.FullBrightnessInsideTrimmedViewport | CardboardXamarin/Cardboard/DistortionRenderer.cs:450-458 | A texture point at least one vignette size inside the eye's viewport is drawn at full brightness |
| Mesh.LensCentreMapsToScreenOffset | CardboardXamarin/Cardboard/DistortionRenderer.cs:440-448 | The lens centre in the texture lands on the eye's offset on the screen, whatever the distortion |
| Mesh.Normalised | CardboardXamarin/Cardboard/DistortionRenderer.cs:448-461 | The clip-space coordinate 2 u - 1 maps back to the screen coordinate |
| Mesh.PositionIsNormalisedScreenPoint | CardboardXamarin/Cardboard/DistortionRenderer.cs:446-461 | A vertex's position is its distorted screen point, rescaled from metres to [-1, 1] on both axes |
| Mesh.GridSpansViewport | CardboardXamarin/Cardboard/DistortionRenderer.cs:434-439 | The first and last grid columns (rows) sit exactly on the left and right (bottom and top) edges of the eye's viewport in the texture |
| Mesh.TextureCoordinatesInUnitRange | CardboardXamarin/Cardboard/DistortionRenderer.cs:434 | When the eye's viewport lies inside the texture, every u texture coordinate is in [0, 1] |
| Mesh.BuildIndexData | CardboardXamarin/Cardboard/DistortionRenderer.cs:471-499 | The index loop makes 3158 indices, all naming one of the 1600 vertices. Every pair is a strip vertex of a zig-zag row and the vertex below it; every row after the first starts by repeating the previous index |
| Mesh.AppendRow | CardboardXamarin/Cardboard/DistortionRenderer.cs:477-498 | One outer pass extends a layout of `row` rows to `row + 1` rows and leaves the offset where the next row starts |
| Mesh.StripTurnsDown | CardboardXamarin/Cardboard/DistortionRenderer.cs:498 | The last vertex of a row, stepped down 40, is the first vertex the next row walks from |
| Mesh.RowExtendsLayout | CardboardXamarin/Cardboard/DistortionRenderer.cs:477-497 | A layout extended by the bridge and one row of pairs is the layout with one more row |
| Mesh.PairsExtend | CardboardXamarin/Cardboard/DistortionRenderer.cs:482-497 | After a row of pairs is appended, every pair of every row so far is in place |
| Mesh.BridgesExtend | CardboardXamarin/Cardboard/DistortionRenderer.cs:477-481 | After the bridge is appended, every bridge so far repeats the index before it |
| Mesh.RangeExtends | CardboardXamarin/Cardboard/DistortionRenderer.cs:477-497 | Appending in-range indices keeps every index in range |
| Mesh.RowPairs | CardboardXamarin/Cardboard/DistortionRenderer.cs:482-497 | The inner loop emits 40 pairs: the row's vertex left-to-right (even rows) or right-to-left (odd rows), then the one below it |
| Mesh.BridgesAreDegenerate | CardboardXamarin/Cardboard/DistortionRenderer.cs:477-481 | Each bridge index equals its two neighbours, so the triangles joining two rows are degenerate |
| Mesh.StripCoversGrid | CardboardXamarin/Cardboard/DistortionRenderer.cs:471-499 | Every grid vertex of rows 0 to 39 appears in the strip |
| DistortionRendering.EyeViewportFor | CardboardXamarin/Cardboard/DistortionRenderer.cs:154-175 | The eye's rectangle in metres starts at the x offset and y 0. The eye sits tan(angle) times the eye-to-screen distance from each edge, per side of the field of view |
| DistortionRendering.EyeInsideItsViewport | CardboardXamarin/Cardboard/DistortionRenderer.cs:154-175 | With non-negative angles the eye lies inside its rectangle |
| DistortionRendering.PixelViewportAsWritten | CardboardXamarin/Cardboard/DistortionRenderer.cs:176-181 | As written, y and height are converted to pixels with the horizontal density |
| DistortionRendering.AsWrittenViewportMisreadsHeight | CardboardXamarin/Cardboard/DistortionRenderer.cs:176-181 | On a 2 x 2 screen with 1 m by 0.5 m pixels, the whole screen comes out 1 pixel high |
| DistortionRendering.PixelViewport | CardboardXamarin/Cardboard/DistortionRenderer.cs:176-181 | Corrected conversion: x and width as in the source, y and height with the vertical density. It equals the source's conversion whenever pixels are square |
| DistortionRendering.ToPixelsExact | CardboardXamarin/Cardboard/DistortionRenderer.cs:176-181 | A length that is a whole number of pixels rounds to exactly that number |
| DistortionRendering.WholeScreenInPixels | CardboardXamarin/Cardboard/DistortionRenderer.cs:176-181 | A metre rectangle covering the screen converts to the full pixel screen |
| DistortionRendering.SetResolutionScale | CardboardXamarin/Cardboard/DistortionRenderer.cs:110-113 | Only the resolution scale changes |
| DistortionRendering.OnProjectionChanged | CardboardXamarin/Cardboard/DistortionRenderer.cs:115-152 | After a projection change the compositor holds a projection for this viewer and these fields of view, keeping scale and saved framebuffer. Each eye keeps its id, field of view and eye view and gets the off-axis perspective for its field of view and z planes. The eye viewports are converted to pixels as written |
| DistortionRendering.EyesTileTheTexture | CardboardXamarin/Cardboard/DistortionRenderer.cs:115-152 | The two eyes sit side by side in one shared texture: left at x 0, right directly after it, together exactly the texture width, both at y 0 and within its height. Both meshes use the screen's metre size |
| DistortionRendering.LensCentresMirror | CardboardXamarin/Cardboard/DistortionRenderer.cs:115-152 | The lens centres on the screen are mirrored about its middle, half the IPD either side, at the lens-centre height above the border |
| DistortionRendering.EyeViewportsMatchMeshes | CardboardXamarin/Cardboard/DistortionRenderer.cs:115-184 | Each eye's pixel viewport is its mesh's texture rectangle converted to pixels as the source does (horizontal density for every field), and its lens centre sits the left-angle distance inside it |
| DistortionRendering.BeforeDrawFrame | CardboardXamarin/Cardboard/DistortionRenderer.cs:61-65 | Saves the bound framebuffer and binds the compositor's own; nothing else changes |
| DistortionRendering.AfterDrawFrame | CardboardXamarin/Cardboard/DistortionRenderer.cs:67-108 | Fails with a null reference exactly when no projection was set. Otherwise it runs two mesh passes (left then right) at the resolution scale, rebinds the saved framebuffer and restores cull-face and scissor state |
| DistortionRendering.FrameRestoresGlState | CardboardXamarin/Cardboard/DistortionRenderer.cs:61-108 | Over a frame the framebuffer is restored and the viewport left at the full screen. The two scissor halves tile the screen width (the odd pixel left over) at full height |
| Magnet.SetListener | CardboardXamarin/Cardboard/Sensors/MagnetSensor.cs:88-92 | Only the listener changes |
| Magnet.Offsets | CardboardXamarin/Cardboard/Sensors/MagnetSensor.cs:154-164 | 20 offsets, the i-th the distance of sample start + i from the baseline |
| Magnet.SeqMin | CardboardXamarin/Cardboard/Sensors/MagnetSensor.cs:186-194 | The minimum is a lower bound that occurs in the sequence |
| Magnet.SeqMax | CardboardXamarin/Cardboard/Sensors/MagnetSensor.cs:176-184 | The maximum is an upper bound that occurs in the sequence |
| Magnet.ComputeMinimum | CardboardXamarin/Cardboard/Sensors/MagnetSensor.cs:186-194 | As written the loop starts from 1.0, so it returns min(1, the true minimum) and never more than 1 |
| Magnet.ComputeMaximum | CardboardXamarin/Cardboard/Sensors/MagnetSensor.cs:176-184 | Starts from -1.0, so it returns max(-1, the true maximum) |
| Magnet.ComputeMean | CardboardXamarin/Cardboard/Sensors/MagnetSensor.cs:166-174 | The mean times the count is the sum |
| Magnet.MaximumStartIsHarmless | CardboardXamarin/Cardboard/Sensors/MagnetSensor.cs:176-184 | Offsets are distances, so the -1 start of the maximum never matters |
| Magnet.AsWrittenIgnoresFirstSegment | CardboardXamarin/Cardboard/Sensors/MagnetSensor.cs:105-134 | As written the trigger test fires exactly when the second segment's maximum exceeds 130, whatever the first segment holds |
| Magnet.FiresMeansNearThenFar | CardboardXamarin/Cardboard/Sensors/MagnetSensor.cs:105-134 | Corrected test: fires exactly when some offset in the first segment is below 30 and some offset in the second is above 130 |
| Magnet.AsWrittenFiresWithoutApproach | CardboardXamarin/Cardboard/Sensors/MagnetSensor.cs:105-134 | A magnet that stays far (50) and then moves farther (200) fires as written but not under the corrected test |
| Magnet.HandleButtonPressed | CardboardXamarin/Cardboard/Sensors/MagnetSensor.cs:137-151 | A trigger empties the window and is reported exactly when a listener is set |
| Magnet.Slide | CardboardXamarin/Cardboard/Sensors/MagnetSensor.cs:94-103 | The sample is appended and the oldest dropped once the window exceeds 40, so the window never exceeds 41 |
| Magnet.AddData | CardboardXamarin/Cardboard/Sensors/MagnetSensor.cs:94-103 | After sliding, a window on which the trigger test as written fires acts as a button press; otherwise the slid window is kept and nothing is reported |
| Magnet.AddDataCorrected | CardboardXamarin/Cardboard/Sensors/MagnetSensor.cs:94-103 | Corrected step: the same, with the trigger test using the true minimum of the first segment |
| Magnet.AsWrittenEvaluateIgnoresApproach | CardboardXamarin/Cardboard/Sensors/MagnetSensor.cs:105-134 | On the window, the test as written fires exactly when the window is full and the second segment strays beyond 130 from the newest sample |
| Magnet.CorrectedFiringIsStricter | CardboardXamarin/Cardboard/Sensors/MagnetSensor.cs:105-134 | Wherever the corrected test fires, the test as written fires too |
| Magnet.OnSensorChanged | CardboardXamarin/Cardboard/Sensors/MagnetSensor.cs:209-221 | Non-magnetometer and all-zero readings are ignored; the rest go through AddData, the step as written |
| Magnet.WindowStaysBounded | CardboardXamarin/Cardboard/Sensors/MagnetSensor.cs:94-103 | The window stays within 41 samples, and a kept reading is the window's newest entry |
| Magnet.NoTriggerBeforeFullWindow | CardboardXamarin/Cardboard/Sensors/MagnetSensor.cs:105-110 | No trigger fires before the window holds 40 samples; the sample is just appended |
| Magnet.FiringEmptiesWindow | CardboardXamarin/Cardboard/Sensors/MagnetSensor.cs:137-151 | The window is emptied exactly when the test as written fires, and a trigger is reported exactly when it fires with a listener set |
| Nfc.NewNfcSensor | CardboardXamarin/Cardboard/Sensors/NfcSensor.cs:59-76 | A new sensor has no listeners, no tag, no failures and no timer |
| Nfc.AddListener | CardboardXamarin/Cardboard/Sensors/NfcSensor.cs:78-96 | Null and already-registered listeners are ignored; a new one is appended |
| Nfc.AddKeepsRegistryDuplicateFree | CardboardXamarin/Cardboard/Sensors/NfcSensor.cs:78-96 | Adding keeps the registry free of duplicates, registers the listener, and keeps every earlier one |
| Nfc.RemoveFirst | CardboardXamarin/Cardboard/Sensors/NfcSensor.cs:98-113 | Removing an absent listener changes nothing; removing a present one shortens the list by one and adds nothing |
| Nfc.FirstIndex | CardboardXamarin/Cardboard/Sensors/NfcSensor.cs:102-111 | The position of the first registration: the listener is there and nowhere before it. It equals the length exactly when the listener is absent |
| Nfc.RemoveFirstCutsAtFirstIndex | CardboardXamarin/Cardboard/Sensors/NfcSensor.cs:98-113 | Removal cuts out exactly the first registration and keeps the rest in order |
| Nfc.RemoveFirstShifts | CardboardXamarin/Cardboard/Sensors/NfcSensor.cs:98-113 | After removal, entries before the cut stay put and later ones move down by one |
| Nfc.RemoveFirstKeepsOthers | CardboardXamarin/Cardboard/Sensors/NfcSensor.cs:98-113 | In a duplicate-free registry, removal unregisters the listener, keeps every other one, and stays duplicate-free |
| Nfc.RemoveListener | CardboardXamarin/Cardboard/Sensors/NfcSensor.cs:98-113 | Null and unregistered listeners change nothing, and nothing but the registry changes |
| Nfc.EnabledImpliesSupported | CardboardXamarin/Cardboard/Sensors/NfcSensor.cs:115-123 | NFC counts as enabled exactly when an adapter exists and is on, so enabled implies supported |
| Nfc.GetCardboardDeviceParams | CardboardXamarin/Cardboard/Sensors/NfcSensor.cs:130-150 | Parameters exist exactly when a tag is current and has contents, and they are what the tag's contents parse to |
| Nfc.AsWrittenUriTestIsInverted | CardboardXamarin/Cardboard/Sensors/NfcSensor.cs:206-222 | The source's URI filter rejects a vendor URI with two path segments, which the parser accepts. It lets through a bare URI, which the parser rejects |
| Nfc.AcceptedUrisAreParsable | CardboardXamarin/Cardboard/Sensors/NfcSensor.cs:206-222 | Corrected filter: an intent URI is accepted exactly when it is a `cardboard` URI that the viewer parser can read |
| Nfc.RemovedAll | CardboardXamarin/Cardboard/Sensors/NfcSensor.cs:196-202 | One removal event per listener, in registration order |
| Nfc.InsertedAll | CardboardXamarin/Cardboard/Sensors/NfcSensor.cs:262-272 | One insertion event per listener, in registration order, all with the same parameters |
| Nfc.CloseCurrentTag | CardboardXamarin/Cardboard/Sensors/NfcSensor.cs:177-194 | Closing drops the current tag and cancels the timer; listeners and adapter are untouched |
| Nfc.OnNfcIntent | CardboardXamarin/Cardboard/Sensors/NfcSensor.cs:204-278 | An intent the filter rejects changes nothing and reports nothing; the filter uses the URI test as written. No intent changes the listeners or the adapter |
| Nfc.ReadFailureReportsRemoval | CardboardXamarin/Cardboard/Sensors/NfcSensor.cs:228-250 | A tag that cannot be read leaves the phone out of the viewer; every listener hears of the removal if a tag was current |
| Nfc.GoodReadSwitchesTag | CardboardXamarin/Cardboard/Sensors/NfcSensor.cs:228-276 | A readable tag becomes current and the timer starts. The same tag again reports nothing; a different tag reports removal of the old one, if any, then insertion with its parameters to every listener |
| Nfc.NullIdsAreDifferentTags | CardboardXamarin/Cardboard/Sensors/NfcSensor.cs:228-232 | A tag without an id never counts as the current tag |
| Nfc.TimerTick | CardboardXamarin/Cardboard/Sensors/NfcSensor.cs:289-304 | The timer does nothing unless it is scheduled, the tag is gone and failures exceed the limit; it never changes the listeners |
| Nfc.FailureCounterStaysZero | CardboardXamarin/Cardboard/Sensors/NfcSensor.cs:289-304 | The failure counter is never incremented, so the timer never reports a disconnection |
| RenderHelper.UpdateFieldOfView | CardboardXamarin/Cardboard/CardboardView.cs:659-693 | The right eye mirrors the left. Each side of the left eye is either the ideal angle or the lens's angle on that side, and none exceeds the ideal |
| RenderHelper.UndistortedFovs | CardboardXamarin/Cardboard/CardboardView.cs:544-565 | Without distortion correction, the right eye mirrors the left. The left eye's angles are the atan2 of the screen half minus half the IPD, and of half the IPD, over the eye-to-screen distance |
| RenderHelper.MonoAspectAsWritten | CardboardXamarin/Cardboard/CardboardView.cs:534 | As written the aspect ratio is an integer division: a whole number, or a divide-by-zero error for height 0 |
| RenderHelper.AsWrittenAspectTruncates | CardboardXamarin/Cardboard/CardboardView.cs:534 | A 1920 x 1080 screen gets aspect 1 instead of 16/9 |
| RenderHelper.MonoAspect | CardboardXamarin/Cardboard/CardboardView.cs:534 | Corrected: the ratio times the height is the width, and height 0 gives a non-finite aspect |
| RenderHelper.NewHelperAsWritten | CardboardXamarin/Cardboard/CardboardView.cs:372-394 | As written, the helper copies the view's settings, but the compositor is freshly built with scale 1 |
| RenderHelper.AsWrittenHelperMisscales | CardboardXamarin/Cardboard/DistortionRenderer.cs:49-60 | With a scale of 0.5 set before the renderer, the as-written helper's compositor disagrees with it |
| RenderHelper.NewHelper | CardboardXamarin/Cardboard/CardboardView.cs:372-394 | Corrected: the helper copies the view's settings, a projection change is pending, and the compositor has no projection yet and uses the view's scale. Stereo exactly when a stereo renderer is given |
| RenderHelper.NewHelperIsGood | CardboardXamarin/Cardboard/CardboardView.cs:372-394 | Both the as-written and the corrected helper satisfy the helper invariant (a ready compositor, stereo mode following VR mode); only the corrected one has its compositor at the view's scale |
| RenderHelper.OnSurfaceChanged | CardboardXamarin/Cardboard/CardboardView.cs:623-647 | After shutdown nothing happens. Otherwise the renderer hears the size, and the surface is invalid exactly when it differs from the screen's size |
| RenderHelper.OnSurfaceCreated | CardboardXamarin/Cardboard/CardboardView.cs:649-657 | The renderer hears of it unless shutting down |
| RenderHelper.Apply | CardboardXamarin/Cardboard/CardboardView.cs:396-493 | Each queued command makes the helper's settings follow the view's; Shutdown latches shutting down; only a scale command touches the compositor (its scale). Every command except a no-op VR switch, Shutdown and the scale command marks the projection changed; a no-op VR switch does nothing |
| RenderHelper.ApplyKeepsGood | CardboardXamarin/Cardboard/CardboardView.cs:396-493 | Every command keeps the helper invariant |
| RenderHelper.ApplyKeepsScaleAgreement | CardboardXamarin/Cardboard/CardboardView.cs:396-493 | Only a scale command touches either scale: every command keeps the compositor's scale equal to the helper's, and a scale command makes them equal |
| RenderHelper.VrSwitchRevalidatesSurface | CardboardXamarin/Cardboard/CardboardView.cs:474-493 | Switching VR mode re-announces the screen size as the surface size, which makes the surface valid |
| RenderHelper.DrainAppend | CardboardXamarin/Cardboard/CardboardView.cs:396-493 | Running two queues one after the other is running their concatenation |
| RenderHelper.DrainFollowsSettings | CardboardXamarin/Cardboard/CardboardView.cs:396-493 | Draining a queue gives the settings folded over its commands, keeps the invariant and the scale agreement, and never clears shutting down |
| RenderHelper.FoldSettingsSnoc | CardboardXamarin/Cardboard/CardboardView.cs:71-204 | The settings after a queue with one more command are that command applied to the settings after the queue |
| RenderHelper.HeadViewReadSucceeds | CardboardXamarin/Cardboard/CardboardView.cs:505 | The helper's own 16-entry read at offset 0 always succeeds, as written and corrected, and yields the prediction |
| RenderHelper.UpdateEyeViews | CardboardXamarin/Cardboard/CardboardView.cs:507-526 | In VR the eyes see the head view shifted by +/- half the IPD (difference the IPD, sum 0). Otherwise the monocular eye sees the head view; nothing else changes |
| RenderHelper.UpdateProjection | CardboardXamarin/Cardboard/CardboardView.cs:528-577 | Fails with a division by zero exactly when a change is pending without VR on a screen of height 0. Otherwise only a pending change does work, and it clears the flag and sets the monocular viewport to the screen. With VR and correction on, the compositor gets a projection for this viewer with the lens-limited fields of view; otherwise the compositor is unchanged. Settings and eye views are kept |
| RenderHelper.ScaledEye | CardboardXamarin/Cardboard/CardboardView.cs:591-602 | Scaling touches only the eye's viewport, and scale 1 changes nothing |
| RenderHelper.Draw | CardboardXamarin/Cardboard/CardboardView.cs:579-620 | Fails (null reference in the compositor) exactly when VR and correction are on without a projection. Otherwise it makes one draw call and a finish call with the monocular viewport, and changes only the compositor |
| RenderHelper.OnDrawFrame | CardboardXamarin/Cardboard/CardboardView.cs:495-621 | A shut-down helper or invalid surface draws nothing. A pending change without VR on a screen of height 0 throws a division by zero; otherwise a ready compositor never fails. A drawn frame clears the pending projection, draws with the predicted head view, then finishes with the monocular viewport |
| RenderHelper.FrameKeepsGood | CardboardXamarin/Cardboard/CardboardView.cs:495-621 | Under the helper invariant a frame fails exactly when a pending change without VR divides by a screen height of 0; a drawn frame keeps the invariant |
| RenderHelper.FrameDrawsTheEyes | CardboardXamarin/Cardboard/CardboardView.cs:509-618 | In a drawn frame, mono draws the monocular eye alone. VR draws left then right with eye views shifted by +/- half the IPD, scaled to the helper's scale when correction is on |
| RenderHelper.CompositorSamplesWhatWasDrawn | CardboardXamarin/Cardboard/CardboardView.cs:579-611 | With correction on, both mesh passes of a drawn frame sample the texture at the compositor's scale, which equals the scale the eyes were drawn at exactly when the two scales agree; they use the two eyes' meshes, and the framebuffer is restored |
| RenderHelper.FrameAppliesPendingProjection | CardboardXamarin/Cardboard/CardboardView.cs:528-577 | In a drawn frame, a pending change sets the monocular viewport to the screen. In mono it sets the symmetric perspective with the integer quotient of pixel width by pixel height. In VR without correction it mirrors the fields of view and splits the screen in two halves; in VR with correction it hands the viewer to the compositor. Without a pending change the eyes' projections are untouched |
| RenderHelper.ToStereo | CardboardXamarin/Cardboard/CardboardView.cs:306-349 | A draw becomes new-frame, then one draw per eye. A surface change keeps its height; its width is halved, to within one pixel, in VR and kept otherwise |
| RenderHelper.StereoEyesFollowVrMode | CardboardXamarin/Cardboard/CardboardView.cs:306-323 | In a drawn frame a stereo renderer is asked for two eyes in VR mode and one otherwise |
| CardboardViews.NewView | CardboardXamarin/Cardboard/CardboardView.cs:37-48 | A new view: VR on, correction on at scale 1, z planes 0.1 and 100, the display's screen and default viewer, no renderer, nothing queued |
| CardboardViews.NewViewIsConsistent | CardboardXamarin/Cardboard/CardboardView.cs:273-282 | A new view satisfies the view/helper consistency invariant |
| CardboardViews.SetRenderer | CardboardXamarin/Cardboard/CardboardView.cs:60-69 | A renderer makes a helper with the view's settings, a pending projection and a compositor at scale 1 (the constructor as written); a stereo renderer gets the stereo adapter; null makes none |
| CardboardViews.SetRendererKeepsConsistent | CardboardXamarin/Cardboard/CardboardView.cs:60-69 | Setting the renderer, as written, keeps the view consistent with its helper |
| CardboardViews.RescaleAfterSetRendererAgrees | CardboardXamarin/Cardboard/CardboardView.cs:60-69 | The new helper's compositor agrees with the view's scale exactly when that scale is 1; after the next scale change has run, the two agree |
| CardboardViews.Change | CardboardXamarin/Cardboard/CardboardView.cs:71-204 | A setter updates the view's settings and, when a helper exists, queues the same command for it |
| CardboardViews.ChangeKeepsConsistent | CardboardXamarin/Cardboard/CardboardView.cs:71-204 | The helper's settings with the queue folded in stay equal to the view's settings |
| CardboardViews.SetVRModeEnabled | CardboardXamarin/Cardboard/CardboardView.cs:71-77 | VR mode takes the value and the change is queued |
| CardboardViews.SetAlignedToNorth | CardboardXamarin/Cardboard/CardboardView.cs:84-87 | Only the tracker's north flag changes |
| CardboardViews.SetObserver | CardboardXamarin/Cardboard/CardboardView.cs:112-115 | Only the observer changes |
| CardboardViews.UpdateCardboardDeviceParams | CardboardXamarin/Cardboard/CardboardView.cs:94-110 | Null or `equals` parameters change nothing. New ones are taken, reported to the observer if one is set, and queued |
| CardboardViews.UpdateCardboardIsIdempotent | CardboardXamarin/Cardboard/CardboardView.cs:94-110 | Updating twice with the same parameters is updating once |
| CardboardViews.UpdateScreenParams | CardboardXamarin/Cardboard/CardboardView.cs:122-133 | Null or `equals` screens change nothing; a new one is taken and queued |
| CardboardViews.UpdateScreenIsIdempotent | CardboardXamarin/Cardboard/CardboardView.cs:122-133 | Updating twice with the same screen is updating once |
| CardboardViews.SetInterpupillaryDistance | CardboardXamarin/Cardboard/CardboardView.cs:140-146 | The viewer's IPD takes the value and the change is queued |
| CardboardViews.SetFovY | CardboardXamarin/Cardboard/CardboardView.cs:153-159 | The viewer's field of view takes the value and the change is queued |
| CardboardViews.SetZPlanes | CardboardXamarin/Cardboard/CardboardView.cs:166-173 | Both z planes take the values and the change is queued |
| CardboardViews.SetDistortionCorrectionEnabled | CardboardXamarin/Cardboard/CardboardView.cs:185-191 | The flag takes the value and the change is queued |
| CardboardViews.SetDistortionCorrectionScale | CardboardXamarin/Cardboard/CardboardView.cs:198-204 | The scale takes the value and the change is queued |
| CardboardViews.SettersKeepConsistent | CardboardXamarin/Cardboard/CardboardView.cs:71-133 | The VR, viewer and screen setters keep the view consistent with its helper |
| CardboardViews.ParameterSettersKeepConsistent | CardboardXamarin/Cardboard/CardboardView.cs:140-204 | The IPD, field-of-view, z-plane and correction setters keep the view consistent with its helper |
| CardboardViews.OnResume | CardboardXamarin/Cardboard/CardboardView.cs:211-220 | Without a renderer nothing happens; otherwise head tracking is on |
| CardboardViews.OnPause | CardboardXamarin/Cardboard/CardboardView.cs:222-231 | Without a renderer nothing happens; otherwise head tracking is off |
| CardboardViews.RunQueue | CardboardXamarin/Cardboard/CardboardView.cs:238-271 | Running the GL queue empties it and leaves the view's settings alone; the helper becomes the drained helper |
| CardboardViews.RunQueueSyncsHelper | CardboardXamarin/Cardboard/CardboardView.cs:238-271 | After the queue runs, the helper's settings equal the view's, the view stays consistent, and the next frame fails exactly when a pending change without VR meets a screen height of 0 |
| CardboardViews.OnDetachedFromWindow | CardboardXamarin/Cardboard/CardboardView.cs:238-271 | Without a renderer nothing happens; otherwise Shutdown is queued and the queue runs |
| CardboardViews.DetachSilencesRenderer | CardboardXamarin/Cardboard/CardboardView.cs:238-271 | After detaching, the helper is shut down and the renderer's last call is its shutdown. Whatever is queued later, frames and surface events reach the renderer no more |
| Activity.SetVolumeKeysMode | CardboardXamarin/Cardboard/CardboardActivity.cs:58-61 | The mode becomes the given int, whatever it is, and nothing else changes |
| Activity.VolumeKeysModeRoundTrip | CardboardXamarin/Cardboard/CardboardActivity.cs:58-66 | The mode read back is the last one set |
| Activity.AreVolumeKeysDisabled | CardboardXamarin/Cardboard/CardboardActivity.cs:68-81 | An IllegalState error exactly when the mode is not one of the three constants |
| Activity.VolumeKeysDecisionTable | CardboardXamarin/Cardboard/CardboardActivity.cs:68-81 | Never disabled in mode 0, always in mode 1, and in mode 2 exactly while a viewer tag is current |
| Activity.OnKeyDown | CardboardXamarin/Cardboard/CardboardActivity.cs:206-220 | A volume key fires the magnet's fake trigger and is consumed; other keys are passed on untouched |
| Activity.VolumeKeyDownAlwaysTriggers | CardboardXamarin/Cardboard/CardboardActivity.cs:206-220 | Whatever the volume keys mode, even an invalid one, a volume key press empties the trigger window and notifies a listener if set |
| Activity.OnKeyUp | CardboardXamarin/Cardboard/CardboardActivity.cs:222-230 | A volume key release is consumed exactly when the keys are disabled. It throws exactly when the mode is invalid; other keys never consult the mode |
| Activity.OnCreate | CardboardXamarin/Cardboard/CardboardActivity.cs:107-130 | The activity starts with no view, a listening magnet detector and mode 2, and is registered with the NFC sensor |
| Activity.OnDestroy | CardboardXamarin/Cardboard/CardboardActivity.cs:182-186 | The activity is unregistered from the NFC sensor and nothing else changes |
| Activity.DestroyedActivityHearsNothing | CardboardXamarin/Cardboard/CardboardActivity.cs:182-186 | After destruction the sensor no longer lists the activity, and every other listener stays |
| Activity.InitialParams | CardboardXamarin/Cardboard/CardboardActivity.cs:37-51 | A newly set view gets the current tag's parameters, or the defaults when there are none |
| Activity.SetCardboardView | CardboardXamarin/Cardboard/CardboardActivity.cs:37-51 | A non-null view is kept and given the viewer's parameters; null is kept as null |
| Activity.SetViewPushesParams | CardboardXamarin/Cardboard/CardboardActivity.cs:37-51 | After setting a view, its viewer parameters are `equals` to the tag's (or the defaults) |
| Activity.SetContentView | CardboardXamarin/Cardboard/CardboardActivity.cs:188-204 | A cardboard view goes through SetCardboardView; any other view leaves the activity alone |
| Activity.OnInsertedIntoCardboard | CardboardXamarin/Cardboard/CardboardActivity.cs:88-92 | The parameters are forwarded to the view, if any |
| Activity.Deliver | CardboardXamarin/Cardboard/Sensors/NfcSensor.cs:337-350 | Removal callbacks and callbacks for other listeners leave the activity unchanged |
| Activity.OnResume | CardboardXamarin/Cardboard/CardboardActivity.cs:156-167 | The view, if any, is resumed; nothing else changes |
| Activity.OnPause | CardboardXamarin/Cardboard/CardboardActivity.cs:169-180 | The view, if any, is paused; nothing else changes |

## Left out

- GL calls are not modelled: shaders, textures, buffers and draw calls. The compositor's GL state is reduced to the framebuffer, viewport, scissor and enable flags, and what the application draws is a parameter.
- Threads, `Looper`s, `Handler` posting, `QueueEvent` timing and the shutdown latch are not modelled. The GL queue is an ordered list run before the next frame, and NFC callbacks are an ordered event list.
- The clock (`NanoTime`) and the orientation filter's prediction (`OrientationEKF`) are parameters. OrientationEKF, Distortion, FieldOfView internals and Matrix.PerspectiveM are not part of this model: the lens distortion is an opaque function, and perspective matrices are recorded as the parameters they are built from.
- Android plumbing is not modelled:
  - window flags, fullscreen mode, `OnWindowFocusChanged`, the UI-visibility listener;
  - NFC foreground dispatch in `NfcSensor.onResume`/`onPause`;
  - the magnet sensor's `start`/`stop` threads;
  - the broadcast receiver;
  - the singleton `getInstance`.
- `CardboardView.SetRenderer(GLSurfaceView.IRenderer)` always throws, and is not modelled. It is unreachable from the modelled API.
- Trivial getters (`GetVRMode`, `GetInterpupillaryDistance`, `getEye`, ...) are not modelled. They read a field.
- Aliasing is not modelled. Objects are values, so a caller's later mutation of a `CardboardDeviceParams` object the view holds does not reach the view.
- `CardboardViews.SetRenderer` requires that no renderer was set before. `GLSurfaceView` throws on a second call, and that exception comes from the base class, which is not part of this model.
- Floats are not modelled as IEEE. There is no rounding error, infinity or NaN, and a division by zero is 0.0.
- `RenderHelper.OnDrawFrame`: `DistortionRenderer.afterDrawFrame` reads the saved viewport after setting the full screen, so the restored viewport is the full screen, not the one saved. This is modelled as written and stated in `FrameRestoresGlState`.
- `Activity.OnKeyDown`: the volume-keys test after the fake trigger is unreachable, because the method has already returned. This is modelled as written.
- `HeadTracking.Remap`: its own contract only gives the length. The rotation is stated by `RemapIsQuarterTurn`.
- `Device.Uri`: the scheme and host are plain strings and are never null. The source calls `Host.Equals` on URIs without a host (CardboardDeviceParams.cs:248, NfcSensor.cs:219), which throws `NullReferenceException`. That exception is not modelled.
- `Nfc.OnNfcIntent`: its own contract covers the rejected intents and the untouched registry. The tag switch is stated by `ReadFailureReportsRemoval`, `GoodReadSwitchesTag` and `FailureCounterStaysZero`.

## Findings

The operations follow the source as written, including each of the defects below. Each corrected definition is a separate member, with its intended property proved; no operation is built on it.

| source | as written | input that shows it | evidently intended | confidence | as-written member | corrected member |
|---|---|---|---|---|---|---|
| CardboardXamarin/Cardboard/Sensors/MagnetSensor.cs:186-194 | `computeMinimum` starts from 1.0, so the first segment's minimum is always below the 30 threshold | offsets 50 then 200 everywhere: fires without the magnet ever coming near | the minimum of the offsets, so a pull needs near-then-far | not executed | Magnet.AsWrittenFiresWithoutApproach | Magnet.FiresMeansNearThenFar |
| CardboardXamarin/Cardboard/Sensors/NfcSensor.cs:206-222 | the URI filter rejects URIs whose host is not v1.0.0 and that have two path segments | `cardboard://google.com/cardboard/v1` is rejected; `cardboard://google.com` is accepted | accept exactly the URIs `parseNfcUri` can read | not executed | Nfc.AsWrittenUriTestIsInverted | Nfc.AcceptedUrisAreParsable |
| CardboardXamarin/Cardboard/CardboardView.cs:534 | the mono aspect ratio divides two ints | 1920 x 1080 gives 1.0 | the real ratio 16/9 | not executed | RenderHelper.AsWrittenAspectTruncates | RenderHelper.MonoAspect |
| CardboardXamarin/Cardboard/Sensors/HeadTracker.cs:123 | the copy loop runs to the caller array's length over a 16-entry scratch array | a 32-entry array at offset 16 passes the size check, then overruns | copy 16 entries | not executed | HeadTracking.AsWrittenHeadViewRejectsRoomyArray | HeadTracking.GetLastHeadView |
| CardboardXamarin/Cardboard/DistortionRenderer.cs:176-181 | y and height are converted with the horizontal pixel density | a 2 x 2 screen of 1 m x 0.5 m pixels: full-screen height comes out 1 | use the vertical density for y and height | not executed | DistortionRendering.AsWrittenViewportMisreadsHeight | DistortionRendering.WholeScreenInPixels |
| CardboardXamarin/Cardboard/CardboardView.cs:372-394 | the helper takes the view's distortion scale but the new DistortionRenderer starts at scale 1 | scale set to 0.5 before SetRenderer: eyes drawn at half size, texture sampled at full | the compositor starts at the view's scale | not executed | RenderHelper.AsWrittenHelperMisscales | RenderHelper.NewHelperIsGood |
