# Arm strength test: posture verdict and test session

A Dafny model of the logic core of the `ArmStrengthTest` React component
(`Arm.js`). The user holds an arm raised at 45 degrees for 15 seconds while a
pose tracker reports body landmarks for each camera frame.

- `geometry.dfy` (module `Geometry`): the per-side geometry. It folds the raw
  angle difference into [0, 180], tests whether the wrist is above the
  shoulder in canvas pixels, and applies the target window `|angle - 45| < 10`.
- `posture.dfy` (module `Posture`): `processResults` without its drawing. It
  has the two early returns, the lookup of landmarks 11, 12, 15 and 16, and the
  loop over `left` then `right`. Each eligible side overwrites
  `allInPosition`. `EvaluateFrame` is the loop as a method. It is proved equal
  to `ProcessResults`, which is built on the reference definition
  `FrameVerdict`: the right side decides when it is eligible, else the left
  side, else `false`.
- `session.dfy` (module `Session`): the component's state variables
  (`isReady`, `isInPosition`, `testStarted`, `countdown`, `showPopup`,
  `testCompleted`, `progress`). Each transition is a function on
  `SessionState`: `startTest`, `resetTest`, the one-second interval tick, the
  frame callback and the tracker becoming ready. The class `TestSession` holds
  the same fields, and each of its methods is proved to follow its function.
  Lemmas over arbitrary event sequences prove these facts:
  - the invariant holds (`countdown` in [0, 15], `progress` matching it);
  - the countdown never rises without a start or a reset;
  - completion is sticky;
  - holding the position for the remaining seconds completes the test.
- `wrappers.dfy`: `Option`.

The angle is an input. For each side the model takes the raw difference of
the two ray directions in degrees, as `calculateAngle` computes it before
`Math.abs`. The model folds that value exactly as the code does.

Behaviour of the code worth knowing, all of it captured by the model:

- The frame verdict is the last eligible side's verdict, not an OR over the
  sides. A raised right arm outside the window overrules a left arm inside it
  (`Posture.VerdictIsNotOr`).
- A frame with no landmarks returns before `setIsInPosition` (Arm.js:115-116),
  so the position flag keeps its previous value (`Posture.ProcessResults`,
  `Session.FrameStep`).
- The on-screen instructions ask the user to "Hold the position for 15
  seconds" (Arm.js:223), but the hold the code implements is cumulative, not
  continuous. Leaving the position only stops the
  interval, and the countdown keeps its value (`Session.FrameStep`,
  `Session.CumulativeHold`).
- `startTest` and `resetTest` do not clear `isInPosition`. A new test can
  count its first second before any frame was processed
  (`Session.StalePositionCarriesOver`).
- The angle is measured at the wrist, between the shoulder and the point
  `(wrist.x, shoulder.y)`. That is the complement of the arm's elevation. The
  window (35, 55) is symmetric about 45, so the verdict is the same as for the
  elevation itself (`Geometry.ComplementKeepsVerdict`).
- Drawing the shoulder line reads both shoulders for every side whose own
  shoulder and wrist are present. When the other shoulder is missing, this
  throws before `setIsInPosition`, and the frame leaves the position flag
  unchanged (`Posture.Throws`, `Posture.ProcessResults`).

## Model

| member | source | states |
|---|---|---|
| `Geometry.FoldIsShorterRotation` | Arm.js:88-92 | for a raw difference in (-360, 360) the folded angle is the shorter rotation min(abs(d), 360 - abs(d)), so it lies in [0, 180]; a difference up to 180 is kept, a larger one becomes 360 - abs(d) |
| `Geometry.FoldIsSymmetric` | Arm.js:89-91 | swapping the outer points (negating the raw difference) leaves the angle unchanged |
| `Geometry.FoldNeedsRange` | Arm.js:90-91 | outside the atan2 range the fold would give a negative angle (400 gives -40) |
| `Geometry.WristAboveIsUnscaled` | Arm.js:95-97 | for a positive canvas height the wrist is above exactly when its normalized y is smaller; a zero-height canvas never reports it above |
| `Geometry.WithinTargetIsOpenWindow` | Arm.js:154 | with target 45 and tolerance 10 a side is in position iff 35 < angle < 55; 35 and 55 are rejected |
| `Geometry.ComplementKeepsVerdict` | Arm.js:148-154 | the angle measured at the wrist (90 minus the elevation) gives the same verdict as the elevation |
| `Posture.ScanSides` | Arm.js:123-175 | the side loop returns its starting flag when no visited side is eligible, and otherwise the verdict of an eligible visited side |
| `Posture.ScanIsLastEligible` | Arm.js:123-177 | visiting left then right from `false` gives the right side's verdict if it is eligible, else the left side's, else false |
| `Posture.ProcessResults` | Arm.js:99-177 | a verdict exists iff there is a video, there are landmarks and the shoulder-line drawing does not throw; it is true iff the deciding eligible side is within target |
| `Posture.EvaluateFrame` | Arm.js:99-177 | the loop with its early returns computes exactly `ProcessResults` |
| `Posture.IneligibleSideKeepsFlag` | Arm.js:129-154 | a side missing its shoulder or wrist, or with the wrist not above the shoulder, leaves the flag unchanged |
| `Posture.VerdictMeansDecidingSideInWindow` | Arm.js:123-177 | the frame verdict holds iff the deciding side's folded angle is strictly between 35 and 55 |
| `Posture.VerdictIsNotOr` | Arm.js:125-177 | a left arm in the window with a raised right arm outside it yields `false` |
| `Posture.RaisedArmScenario` | Arm.js:129-154 | shoulder (100,100) and wrist (140,58) are in position; a wrist below its shoulder is never eligible |
| `Session.ProgressBounds` | Arm.js:69 | progress lies in [0, 100], is 0 exactly at 15 s left and 100 exactly at 0 s left, and grows as the countdown falls |
| `Session.Initial` | Arm.js:14-20 | the first rendered state satisfies the invariant: 15 s left, progress 0, not completed, popup shown, test not started, tracker not ready, not in position |
| `Session.ReadyStep` | Arm.js:42-43 | only `isReady` changes, and the invariant is kept |
| `Session.StartStep` | Arm.js:185-191 | starting gives a started test with 15 s left, 0 progress, no completion and no popup; the position flag is untouched |
| `Session.ResetStep` | Arm.js:193-199 | resetting gives a stopped test with 15 s left, 0 progress, no completion and the popup shown; the position flag is untouched |
| `Session.TickStep` | Arm.js:64-80 | outside `isInPosition && testStarted && countdown > 0` nothing changes; inside, one second less, progress recomputed, and completion (test stopped) exactly when the last second runs out; the invariant is kept |
| `Session.FrameStep` | Arm.js:38-40 | a frame changes only `isInPosition`, and only when the tracker is ready, the test is started and processing reached `setIsInPosition`; the countdown is never reset |
| `Session.RunKeepsInv` | Arm.js:64-199 | every sequence of operations keeps `countdown` in [0, 15] with matching progress and consistent flags |
| `Session.CountdownNeverRises` | Arm.js:64-86 | without a start or a reset the countdown never goes up |
| `Session.CompletionIsSticky` | Arm.js:72-77 | a completed test stays completed with 0 s left and progress 100 until it is started or reset |
| `Session.TicksCountDown` | Arm.js:66-79 | k ticks in position, fewer than the seconds left, take exactly k seconds off |
| `Session.HoldCompletes` | Arm.js:64-80 | ticking in position for the remaining seconds completes the test with progress 100 |
| `Session.CumulativeHold` | Arm.js:64-86 | 5 s in position, a frame out of position, then 10 s in position complete the test |
| `Session.StaleTickIsNoop` | Arm.js:65-66 | a tick after a reset or after completion has no effect |
| `Session.StalePositionCarriesOver` | Arm.js:185-199 | after a completed test reset and restarted, the first tick counts before any frame |
| `Session.TestSession.constructor` | Arm.js:14-20 | the fields start as the initial state |
| `Session.TestSession.MarkReady` | Arm.js:42-43 | sets `isReady` and follows `ReadyStep` |
| `Session.TestSession.StartTest` | Arm.js:185-191 | updates the fields as `StartStep` says and keeps the invariant |
| `Session.TestSession.ResetTest` | Arm.js:193-199 | updates the fields as `ResetStep` says and keeps the invariant |
| `Session.TestSession.Tick` | Arm.js:64-86 | updates the fields as `TickStep` says, keeps the invariant and never raises the countdown |
| `Session.TestSession.Frame` | Arm.js:38-40 | runs `EvaluateFrame` only when ready and started, updates as `FrameStep` says, and keeps the countdown |

## Left out

- The `Math.atan2` and `Math.PI` part of `calculateAngle` is floating-point trigonometry. The raw degree difference per side is an input (`Posture.Readings`). Not-a-number results of degenerate geometry are not modelled either.
- Geometry.WristAboveIsUnscaled: landmark coordinates, canvas sizes and angles are modelled as exact reals, while the code computes in IEEE doubles. Scaling by the canvas height can round two y-values one ulp apart to the same product, so the code can report "not above" for a wrist one ulp above its shoulder where the model reports "above".
- `Math.round` of the angle label is display only. `progress` is an exact real, not a floating-point number.
- All canvas drawing is left out: clearing, the mirroring transform, strokes, colours, labels and `drawConnectors`. Only the two effects of drawing on control flow are kept: the early return when there is no video, and the throw when a shoulder is missing. Canvas width enters only through the angle, which is an input (`Posture.Readings`). Canvas height is the video height (a natural number).
- The MediaPipe `Pose` and `Camera` setup, `send`, `close` and the CDN `locateFile` are foreign library calls and I/O. A camera frame reaches the model as `TestSession.Frame` with the tracker's output as its arguments.
- React scheduling is left out: batching of state setters, closures that capture `isReady` and `testStarted` when the effect runs, and the interval that is re-created whenever `countdown` changes. Each transition is one atomic step, and a tick is one firing of the interval under its guard.
- The JSX markup, the popup, the progress circle and the CSS are presentation. The buttons that call `startTest` and `resetTest` are shown only in some states, but the functions themselves check nothing, so the model puts no precondition on them.
