# Dual-axis solar tracker: the per-cycle control law in Dafny

The tracker reads four light sensors (top-left, top-right, bottom-left,
bottom-right), each in 0..1023. It smooths each sensor over a rolling window
of five samples and forms a vertical error (top minus bottom) and a
horizontal error (right minus left) from half-sums of the smoothed values.
Errors smaller than the dead-band are ignored. A proportional step, capped at
three degrees, is added to the pan and tilt angles, and each angle is
saturated at its mechanical stops (pan 10..170, tilt 20..160).

The model is functional. One immutable `Tracker` record holds the two angles
and the four windows. `Tracker.Cycle` is one pass of `loop`, and
`Tracker.Run` is a sequence of passes.

Modules:

- `Config`: the constants of the sketch and the four-quadrant `Quad`.
- `Clamping`: `clampi`, and what repeated clamped steps do.
- `Smoothing`: the rolling windows, with `push`, `avg` and `seedBufs`.
  `Ring` is the view of one channel. The sketch's `iBuf` is `index` and its
  `bufFull` is `full`. `Window` lists the samples a ring holds, oldest
  first. The main smoothing result rests on it: the smoothed value is the
  truncating mean of the last five samples pushed, or of all of them before
  the window first wraps.
- `Control`: the directional errors, the dead-band and the step cap.
- `Tracker`: the state, start-up, the cycle and multi-cycle runs.
- `Scenarios`: one fully worked cycle.

The sketch's gain is the float product `Kp * err` truncated to an integer.
It is a parameter `gain: int -> int` here. Properties that need something of
the gain say so through `FixesZero` (zero maps to zero) or `SignPreserving`
(the step never has the opposite sign of the error).

Every division in the sketch has non-negative operands, because the readings
are non-negative. So Dafny's `/` agrees with C's truncating division here,
and the model requires non-negative readings and buffer entries.

The sketch has no polarity flag: a comment (solarTracking.cpp:139-140) only
suggests negating a step by hand, and the model follows the code.

## Model

| member | source | states |
|---|---|---|
| Config.Settings | solarTracking.cpp:14-27 | The deployment values: pan stops 10..170, tilt stops 20..160, start angle 90, dead-band 30, step cap 3, window of 5. Both stop ranges are non-empty and contain the start angle, and the step cap is positive and below the dead-band. |
| Config.NoOverflow | solarTracking.cpp:43-53 | Readings are at most 1023. A full window's sum fits the 32-bit `long` accumulator, every half-sum and every angle plus or minus a step fits a 16-bit `int`, and the window index fits a byte. |
| Clamping.Clamp | solarTracking.cpp:36-40 | With `lo <= hi` the result lies in `[lo, hi]`. An in-range input is returned unchanged. Below `lo` gives `lo`. Otherwise, above `hi` gives `hi`, even when the range is empty. |
| Clamping.ClampNearest | solarTracking.cpp:36-40 | The clamp returns the point of the range nearest to its input. |
| Clamping.ClampIdempotent | solarTracking.cpp:36-40 | Clamping an already clamped value changes nothing. |
| Clamping.ClampMonotone | solarTracking.cpp:36-40 | The clamp preserves order. |
| Clamping.ClampedMove | solarTracking.cpp:141-142 | From an angle inside its stops, adding a step and clamping moves the angle by at most the step's magnitude. It never moves against the step's sign. |
| Clamping.DriveClosedForm | solarTracking.cpp:141-142 | Repeating a clamped constant step `k` times equals clamping `start + k * step` once. |
| Clamping.DriveSaturates | solarTracking.cpp:141-142 | A persistent positive step raises the angle monotonically. Once `k * step` covers the distance, the angle reaches the upper stop and stays there without exceeding it. |
| Clamping.DriveSaturatesLow | solarTracking.cpp:141-142 | A persistent negative step lowers the angle monotonically. Once `k * step` covers the distance, the angle reaches the lower stop and stays there. |
| Smoothing.Divisor | solarTracking.cpp:50-51 | The divisor of the average is never zero and never exceeds the window size. It is the window size once full. Otherwise it is the count written so far, or 1 when nothing has been written (`max(index, 1)`). |
| Smoothing.Avg | solarTracking.cpp:48-54 | The smoothed value is non-negative and, for readings in 0..1023, a valid reading. With nothing yet written it is slot 0 divided by one. |
| Smoothing.ComputeAvg | solarTracking.cpp:48-54 | The summing loop followed by the division computes exactly the reference `Avg`. |
| Smoothing.AvgWithin | solarTracking.cpp:48-54 | With non-negative entries, the average lies within any bounds that hold of the entries averaged, so it lies between their minimum and maximum. |
| Smoothing.Push | solarTracking.cpp:57-61 | The reading lands in slot `index` and every other slot is unchanged. The index advances modulo the window size, so it stays a valid slot. The full flag is set when the index wraps and is never cleared. Reading bounds are preserved. |
| Smoothing.Window | solarTracking.cpp:57-61 | The ring's samples, oldest first, number the window size once full and the write count before that. |
| Smoothing.PushSlides | solarTracking.cpp:57-61 | A push appends the sample to the window. Once the window holds five samples, the oldest drops out. |
| Smoothing.PushAllWindow | solarTracking.cpp:57-61 | After any run of pushes, the window is the last five samples of everything ever held, in order. |
| Smoothing.AvgIsMean | solarTracking.cpp:48-54 | Whenever the window is non-empty, the smoothed value is the truncating mean of the window's samples. |
| Smoothing.AvgOfRecent | solarTracking.cpp:48-61 | After any run of pushes, the smoothed value is the truncating mean of the five most recent samples, or of all of them before the first wrap. |
| Smoothing.SeededStaysPut | solarTracking.cpp:48-69 | A channel seeded with `v` averages exactly `v`, and keeps doing so however many further `v`s are pushed. |
| Smoothing.SeededThenOne | solarTracking.cpp:48-69 | One sample `x` pushed into a window seeded with `v` averages `(4v + x) / 5`. |
| Smoothing.EmptyRing | solarTracking.cpp:28-30 | A channel before any write has zeroed slots and an empty window. |
| Smoothing.SeedRing | solarTracking.cpp:64-69 | A seeded channel's window is five copies of the seed. |
| Smoothing.FillFromEmpty | solarTracking.cpp:48-61 | Any positive number of identical samples pushed into an empty channel make its average exactly that sample. |
| Smoothing.PushQuad | solarTracking.cpp:57-61 | `push` keeps the four windows well formed. Each channel behaves exactly like its own ring pushed with that sensor's reading. |
| Smoothing.Seed | solarTracking.cpp:64-69 | `seedBufs` leaves every channel holding its reading in every slot, with index zero and the full flag set. |
| Smoothing.Empty | solarTracking.cpp:28-30 | The zero-initialised windows are well formed and every channel is empty. |
| Smoothing.Smoothed | solarTracking.cpp:108-111 | The four smoothed values are valid readings, and each is its channel's average. |
| Smoothing.SeedFixedPoint | solarTracking.cpp:64-69 | After `seedBufs(q)`, and after any number of further pushes of `q`, the four smoothed values are exactly `q`. |
| Smoothing.PushQuadAllChannel | solarTracking.cpp:57-61 | Each channel of a run of four-way pushes is the run of that sensor's samples pushed into its own ring. |
| Smoothing.FillQuadFromEmpty | solarTracking.cpp:48-61 | Pushing the same reading into zeroed windows any positive number of times gives smoothed values equal to that reading. |
| Control.Directional | solarTracking.cpp:115-122 | Each error is half the difference of the two quadrant sums, off by at most one half, despite the truncated half-sums. |
| Control.DirectionalSigns | solarTracking.cpp:115-122 | An error is positive only when its own side has the larger sum, and negative only when the opposite side has. It is zero when the sums agree. |
| Control.BalancedHasNoError | solarTracking.cpp:115-122 | Four equal smoothed values give zero error on both axes. |
| Control.ApplyDeadBand | solarTracking.cpp:125-126 | The result is either zero or the unchanged error of magnitude at least `DeadBand`. An error of magnitude at least `DeadBand` always passes. |
| Control.DeadBandBoundary | solarTracking.cpp:125-126 | The threshold is exclusive: ±29 is zeroed and ±30 is kept. |
| Control.DeadBandIdempotentOdd | solarTracking.cpp:125-126 | The dead-band is idempotent and symmetric about zero. |
| Control.BandedErrors | solarTracking.cpp:115-126 | Neither banded error has a non-zero magnitude below `DeadBand`. |
| Control.CapStep | solarTracking.cpp:133-136 | The capped step has magnitude at most `MaxStep`. An in-range step is kept and larger ones saturate at `±MaxStep`. The sign never changes. |
| Control.CapIsClamp | solarTracking.cpp:133-136 | The two-sided cap equals `clampi` on `[-MaxStep, MaxStep]`. |
| Control.StepsFor | solarTracking.cpp:129-136 | Both steps are bounded by `MaxStep`. A zero error gives a zero step for a gain that fixes zero. A sign-preserving gain makes each step follow its error's sign, pan from the horizontal error and tilt from the vertical one. |
| Tracker.Startup | solarTracking.cpp:78-96 | After start-up (`setup` without its I/O), both angles are centred inside their stops and the windows are seeded, so the smoothed values equal the start-up reading. |
| Tracker.Apply | solarTracking.cpp:141-142 | Both angles end inside their stops, whatever the steps. An angle that began inside moves by at most its step's magnitude. |
| Tracker.CycleSteps | solarTracking.cpp:108-136 | Whatever the readings and the gain, the steps of a cycle are bounded by `MaxStep`. |
| Tracker.Cycle | solarTracking.cpp:99-142 | After every cycle both angles are inside their stops, whatever the inputs. An angle that began inside changes by at most `MaxStep`. The windows stay well formed. |
| Tracker.HoldsInsideDeadBand | solarTracking.cpp:115-142 | When both raw errors of a cycle are below `DeadBand` and the gain fixes zero, neither angle changes. |
| Tracker.HoldsWhenBalanced | solarTracking.cpp:115-142 | Four equal smoothed values hold both angles still for a gain that fixes zero. |
| Tracker.FollowsError | solarTracking.cpp:125-142 | With a sign-preserving gain, each angle moves only toward the side its error points to. It stays put when the banded error is zero. |
| Tracker.Run | solarTracking.cpp:99-142 | Over any run of cycles the windows stay well formed and the angles stay inside their stops. |
| Tracker.RunDrift | solarTracking.cpp:133-142 | Over a run of `n` cycles, an angle that began inside its stops drifts by at most `n * MaxStep` either way. |
| Tracker.StepAt | solarTracking.cpp:107-136 | The steps cycle `i` of a run takes are bounded by `MaxStep`. |
| Tracker.RunPanIsDrive | solarTracking.cpp:99-142 | When every cycle of a run takes the same pan step `d`, the tracker's pan equals the clamped iteration `Drive` of `d` from the start angle. |
| Tracker.RunTiltIsDrive | solarTracking.cpp:99-142 | When every cycle of a run takes the same tilt step `d`, the tracker's tilt equals the clamped iteration `Drive` of `d` from the start angle. |
| Tracker.PanSaturates | solarTracking.cpp:133-142 | A pan step held at `d > 0` for long enough carries the tracker's pan to its upper stop. One held at `d < 0` carries it to the lower stop. |
| Tracker.TiltSaturates | solarTracking.cpp:133-142 | A tilt step held at `d > 0` for long enough carries the tracker's tilt to its upper stop. One held at `d < 0` carries it to the lower stop. |
| Tracker.SteadyLightSteadyTracker | solarTracking.cpp:64-142 | Seeded with a balanced reading and fed it every cycle, the tracker never leaves its start position. |
| Scenarios.OneBrightCorner | solarTracking.cpp:99-142 | Seeded at 500, one cycle with 900 on the top-left sensor smooths it to 580. That gives errors +40 vertical and -40 horizontal, both outside the dead-band. Each angle moves from 90 by exactly its capped step. |

## Left out

- Sensor reads (`readLDR`, `analogRead`): the readings are inputs, required to lie in 0..1023.
- Servo output (`pokeServos`), and `Serial` and `delay` in `setup`: these are hardware I/O and library calls. `Tracker.Startup` keeps only the centred angles and the seeding.
- The float product `Kp * err` and its rounding: the pre-cap step is the abstract parameter `gain`.
- The endless `loop()` scheduling: one pass is `Tracker.Cycle`, and a finite sequence of passes is `Tracker.Run`.
- 16-bit `int` overflow: it cannot happen with readings in 0..1023, so integers are unbounded here. The half-sums stay below 2047 and the angles below 200, and the `avg` accumulator reaches at most 5 × 1023 = 5115 in a 32-bit `long` (`Config.NoOverflow`).
- A polarity flag on the errors: the code has none.
