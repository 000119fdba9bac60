# FarmVision core logic in Dafny

FarmVision is an augmented-reality farm monitor. A Unity app pins virtual
sensor objects to GPS positions and colours each one by whether its simulated
temperature and humidity are ideal. A React landing page shows an image
carousel. This project models three pieces of logic and proves what they
promise:

- **GPS smoothing** (`location_smoothing.dfy`, module `LocationSmoothing`).
  The `ARLocationManager` component admits a raw fix only if its horizontal
  accuracy is at most `minAccuracyThreshold`. Admitted fixes go into a
  first-in-first-out buffer of at most `locationSmoothingBufferSize` entries.
  The position handed to the sensors is the mean of the buffered coordinates,
  each weighted by `1 / (accuracy + 1)`, together with the plain mean of the
  buffered accuracies. With an empty buffer the last raw fix is returned
  instead. The component is a class whose `locationBuffer` is a `seq` field.
  `GetSmoothedLocation` keeps the source's single accumulating loop and is
  proved equal to the specification function `Smoothed`. The lemmas about
  `Smoothed` and `Enqueue` state what the smoothing guarantees.
- **Sensor simulation** (`sensor_simulation.dfy`, module `SensorSimulation`).
  Each tick adds noise to both readings and clamps them into their simulated
  ranges, exactly as Unity's `Mathf.Clamp` does. The sensor is painted good
  (green) if and only if both readings lie in their ideal ranges, bounds
  included. The random noise of each tick and the random initial readings are
  parameters.
- **Image carousel** (`carousel.dfy`, module `Carousel`). The `Home`
  component's `currentSlide` steps forward with `(i + 1) % n` and backward
  with `(i - 1 + n) % n`, where `%` is JavaScript's truncating remainder. It
  starts at 0 and the alt text shows `currentSlide + 1`.

Single-precision floats are modelled as exact reals.

The component has no reset. With an empty buffer `GetSmoothedLocation`
returns `lastLocation`, which is the all-zero default before any fix is
admitted.

## Model

| member | source | states |
|---|---|---|
| LocationSmoothing.Enqueue | Assets/Scripts/ARLocationManager.cs:183-190 | below capacity the fix is appended; at capacity the oldest fix is dropped and the new one appended; the new fix is always last when the size is at least 1; the capacity is never exceeded |
| LocationSmoothing.EnqueueCount | Assets/Scripts/ARLocationManager.cs:183-190 | the buffer grows by one per admitted fix until it reaches `max(size, 0)`, then stays there |
| LocationSmoothing.EnqueueAllIsSuffix | Assets/Scripts/ARLocationManager.cs:183-190 | after any run of admitted fixes, the buffer is the last `max(size, 0)` elements of everything it has held, oldest first (FIFO eviction from the front) |
| LocationSmoothing.FromEmpty | Assets/Scripts/ARLocationManager.cs:183-190 | starting empty, after k admitted fixes the buffer is exactly the last `min(k, size)` of them |
| LocationSmoothing.Weight | Assets/Scripts/ARLocationManager.cs:206 | the weight `1 / (accuracy + 1)` of a fix with non-negative accuracy lies in (0, 1] |
| LocationSmoothing.WeightDecreasing | Assets/Scripts/ARLocationManager.cs:206 | a better fix (smaller accuracy value) gets a strictly larger weight |
| LocationSmoothing.WeightSum | Assets/Scripts/ARLocationManager.cs:204-211 | the weight total is non-negative, and positive for a non-empty buffer, so the division at lines 214-215 is defined |
| LocationSmoothing.WeightSumIsSum | Assets/Scripts/ARLocationManager.cs:204-211 | the loop's running weight total is the plain sum of the per-fix weights |
| LocationSmoothing.WeightedSumIsDot | Assets/Scripts/ARLocationManager.cs:204-211 | the loop's running weighted coordinate sum is the dot product of the coordinates with the weights |
| LocationSmoothing.Smoothed | Assets/Scripts/ARLocationManager.cs:192-218 | the position defined for a buffer: the last raw fix, field for field, when the buffer is empty; otherwise the weighted coordinate means and the plain mean accuracy, which is non-negative |
| LocationSmoothing.MeanBetween | Assets/Scripts/ARLocationManager.cs:204-218 | each smoothed coordinate lies between any lower and upper bound of the buffered coordinates |
| LocationSmoothing.QuotientBetween | Assets/Scripts/ARLocationManager.cs:204-218 | a weighted mean with positive weights lies between any bounds of the values |
| LocationSmoothing.MeanOfEqual | Assets/Scripts/ARLocationManager.cs:204-218 | when every buffered coordinate is the same, that value comes back unchanged |
| LocationSmoothing.SingleSample | Assets/Scripts/ARLocationManager.cs:192-218 | a one-fix buffer smooths to that fix exactly, accuracy included |
| LocationSmoothing.MeanAccuracyWithinThreshold | Assets/Scripts/ARLocationManager.cs:153 | the smoothed accuracy (the plain mean of buffered accuracies, lines 209 and 216) is non-negative and at most the admission threshold |
| LocationSmoothing.TwoSamplesFavourBetterFix | Assets/Scripts/ARLocationManager.cs:204-215 | with two fixes of different coordinate and different accuracy, in either admission order, the smoothed coordinate is strictly closer to the fix with the smaller accuracy value |
| LocationSmoothing.TwoSampleSums | Assets/Scripts/ARLocationManager.cs:204-211 | over two fixes the loop's totals are `wa + wb` and `xa * wa + xb * wb` |
| LocationSmoothing.MeanOfTwo | Assets/Scripts/ARLocationManager.cs:213-215 | the weighted mean of two distinct values is strictly closer to the value with the larger weight |
| LocationSmoothing.ARLocationManager.constructor | Assets/Scripts/ARLocationManager.cs:67-74 | `Awake` starts with an empty buffer; `lastLocation` is the zero default and the debug text is empty |
| LocationSmoothing.ARLocationManager.AddToLocationBuffer | Assets/Scripts/ARLocationManager.cs:183-190 | the new buffer is `Enqueue` of the old one; the capacity and admission invariants are kept and nothing else changes |
| LocationSmoothing.ARLocationManager.GetSmoothedLocation | Assets/Scripts/ARLocationManager.cs:192-218 | the loop's result equals `Smoothed(buffer, lastLocation)`: the last raw fix for an empty buffer, otherwise the weighted coordinate means and the mean accuracy, which is within the threshold |
| LocationSmoothing.ARLocationManager.UpdateSensorPositionsStep | Assets/Scripts/ARLocationManager.cs:148-176 | when the service is not running nothing changes; a fix over the threshold only sets the poor-accuracy text; an admitted fix is enqueued with its timestamp, smoothed before `lastLocation` is replaced, and shown as debug text only when `showDebugInfo` is set |
| LocationSmoothing.AdmittedFixComesFromBuffer | Assets/Scripts/ARLocationManager.cs:160-165 | with a size of at least 1, the position computed right after an admission comes from the buffer (which ends with the new fix), never from the previous raw fix, and its accuracy is within the threshold |
| LocationSmoothing.ZeroSizeReturnsPreviousFix | Assets/Scripts/ARLocationManager.cs:186-199 | with a size of 0 or less the buffer stays empty, so the "smoothed" position is the previous raw fix |
| SensorSimulation.Clamp | Assets/Scripts/SensorDataSimulator.cs:52-62 | for a non-empty range the result lies in it, equals the input exactly when the input is in range, and is no further from the input than either bound |
| SensorSimulation.ClampIdempotent | Assets/Scripts/SensorDataSimulator.cs:52-62 | clamping twice is clamping once |
| SensorSimulation.ClampNonExpansive | Assets/Scripts/SensorDataSimulator.cs:52-62 | clamping never moves a value further from any point of the range |
| SensorSimulation.WalkStep | Assets/Scripts/SensorDataSimulator.cs:52-62 | one tick keeps a reading inside its simulated range |
| SensorSimulation.WalkStepBounded | Assets/Scripts/SensorDataSimulator.cs:52-62 | a reading in range moves by at most `noiseAmount` in one tick |
| SensorSimulation.WalkStepZeroNoise | Assets/Scripts/SensorDataSimulator.cs:52-62 | with zero noise a reading in range stays put |
| SensorSimulation.IsInIdealRange | Assets/Scripts/SensorDataSimulator.cs:84-89 | both readings are ideal exactly when clamping each into its ideal range leaves it unchanged (bounds included); no reading is ideal against an empty ideal range |
| SensorSimulation.ColorFor | Assets/Scripts/SensorDataSimulator.cs:65-66 | the colour is the good colour if and only if both readings are in their ideal ranges, and the bad colour otherwise |
| SensorSimulation.IdealRangeInclusive | Assets/Scripts/SensorDataSimulator.cs:84-89 | both ends of each ideal range count as ideal; a reading just above the temperature range or below the humidity range does not |
| SensorSimulation.DefaultIdealInsideSimulated | Assets/Scripts/SensorDataSimulator.cs:9-19 | with the shipped settings the ideal ranges lie inside the simulated ranges, so both colours are reachable |
| SensorSimulation.SensorDataSimulator.Start | Assets/Scripts/SensorDataSimulator.cs:41-42 | the initial readings are draws inside the simulated ranges |
| SensorSimulation.SensorDataSimulator.SimulateStep | Assets/Scripts/SensorDataSimulator.cs:49-66 | each reading becomes its clamped noisy successor and stays in range; it moves by at most `noiseAmount`; the returned colour is good if and only if the new readings are ideal |
| Carousel.JsRemainder | farmVision/src/components/Home.jsx:14 | JavaScript's `%`: on a non-negative dividend it is the Euclidean remainder in `[0, n)`; on a negative one it lies in `(-n, 0]` |
| Carousel.Next | farmVision/src/components/Home.jsx:14 | from a valid slide, the result is a valid slide: the next one, or 0 exactly from the last slide |
| Carousel.Prev | farmVision/src/components/Home.jsx:18 | from a valid slide, the result is a valid slide: the previous one, or the last exactly from slide 0 |
| Carousel.PrevAfterNext | farmVision/src/components/Home.jsx:13-19 | "previous" undoes "next" |
| Carousel.NextAfterPrev | farmVision/src/components/Home.jsx:13-19 | "next" undoes "previous" |
| Carousel.NextTimesAdvances | farmVision/src/components/Home.jsx:14 | k presses of "next" advance the slide by k modulo the number of images |
| Carousel.FullCycle | farmVision/src/components/Home.jsx:14 | as many presses of "next" as there are images return to the starting slide |
| Carousel.Home.constructor | farmVision/src/components/Home.jsx:11 | the carousel starts on slide 0 |
| Carousel.Home.NextSlide | farmVision/src/components/Home.jsx:13-15 | the slide becomes `Next` of the old one and stays valid |
| Carousel.Home.PrevSlide | farmVision/src/components/Home.jsx:17-19 | the slide becomes `Prev` of the old one and stays valid |
| Carousel.Home.SlideNumber | farmVision/src/components/Home.jsx:24 | the number shown is `currentSlide + 1`, between 1 and the number of images |

## Left out

- Sensor placement is left out: `UpdateAllSensors` and `UpdateSensorPosition` put each sensor at `distance * sin(bearing)`, `distance * cos(bearing)` from the smoothed fix, using the haversine distance and the initial bearing. This is floating-point trigonometry on scene objects.
- `GPSSensorAnchor` is not part of this model: its equirectangular projection of a sensor's coordinates relative to the farm centre and its division by a scale factor are trigonometric scene placement. `TestMovement` is not part of this model: it moves an object on a circle with `cos`/`sin` of the time. `SensorLabel` is not part of this model: it renders the label text.
- Permissions, `Input.location`, the compass, coroutine scheduling and waits, `OnGUI` and `OnDisable` are left out. They are platform I/O. One pass of the `UpdateSensorPositions` loop is modelled as `UpdateSensorPositionsStep`, with the device status, fix and time as parameters.
- The endless `while (true)` loop of `SimulateSensorData` is modelled by its body, `SimulateStep`. Material colouring and label updates are left out because they are rendering side effects.
- `UpdateDebugInfo` string formatting is left out. The debug text is a datatype recording which message is shown and with which values. Number formatting and the optional accuracy and heading lines are not modelled.
- `Random.Range` draws are parameters: the noise of each tick and the initial readings.
- Single-precision rounding is left out. Arithmetic is exact over the reals, so the proved bounds hold for the exact computation, not the float one.
- LocationSmoothing.ARLocationManager.UpdateSensorPositionsStep: requires a non-negative horizontal accuracy, as the device reports it. The code does not check it. A reported accuracy of -1 would make the weight `1 / 0`.
- The web dashboard, `App`, `Navbar` and `Why` are left out. They are presentation only.
- Carousel.Home: the image list is fixed at two entries as in the source. An empty list would make `%` by zero yield `NaN` in JavaScript, which is not modelled.
