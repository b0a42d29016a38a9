# Squat analysis core, modelled in Dafny

This project models the two pieces of logic at the centre of the squat coach:

- **`AngleUtils`** (`AngleUtils.dfy`): the geometry library. It holds the `Landmark` point, the
  pose index constants, `calculateAngle` (the angle at a vertex, with a zero-magnitude guard and a
  clamped cosine) and `calculateDistance` (planar Euclidean distance). Both read only `x` and `y`.
- **`SquatAnalyzer`** (`SquatAnalyzer.dfy`): the analysis engine. It holds the five pieces of
  component state (`feedback`, `repCount`, `isAnalyzing`, `prevKneeAngle`, `lastRepTime`) and
  handles one frame at a time:
  1. It checks the paused and absent-frame guards.
  2. It reads the left hip, knee, ankle and shoulder (indices 23, 25, 27, 11).
  3. It computes the knee angle and the trunk angle.
  4. It runs the debounced two-phase repetition detector.
  5. It stores the knee angle.
  6. It grades form on a first-match ladder.

  It also has the two buttons, toggle and reset.

Each step is specified by a pure function on an `AnalysisState` value (`FrameStep`, `ToggleStep`,
`ResetStep`). The pure functions are built from `LeftSideJoints`, `CountReps`, `Classify` and
`Transition`. The class `SquatAnalyzer.SquatAnalyzer` keeps the five fields and changes them in
place. Each of its methods is proved to produce exactly the state its step function gives. The
properties are proved as lemmas about the step functions.

The runtime's `Math.sqrt`, `Math.acos` and `Math.PI` cannot be computed over the reals. They are
the fields of a `MathLib` value passed to the geometry. `Lawful(math)` states the laws the proofs
use:
- `sqrt(x) >= 0` and `sqrt(x) * sqrt(x) == x` for `x >= 0`;
- `acos` maps `[-1, 1]` into `[0, pi]`;
- `pi > 0`, which the type of the `pi` field enforces.

Lemmas that need these laws require `Lawful(math)`. Some lemmas about the trunk angle use one more
law of the real arc cosine, named where it is used:
- `AcosObtuse(math)` (a cosine in `[-1, 0]` gives at least `pi / 2`) is required by
  `HipBelowShoulderIsObtuse` and `HipBelowShoulderNeverCorrect`;
- `AcosOfOneIsZero(math)` (`acos(1) == 0`) is required by `UprightTrunkLeansZero` and
  `UprightSquatIsCorrect`, and is the hypothesis of one ensures of `UprightTrunkReadsZero`.

Nothing else assumes them. The wall-clock time
of a frame (`Date.now()`) is a parameter `now` of the frame step.

The model follows the code exactly in these details, which a reader might expect otherwise:
- A landmark array that is present but empty or too short is not "waiting". It reaches the index
  check and reports Incomplete (`IncompleteFrame`).
- Reset sets `lastRepTime` back to `0`, not to "unset".
- The debounce comparison is strict (`DebounceIsStrict`).
- A down move stamps the time without counting. So a stand-up within one second of it is ignored,
  and that repetition is lost, because the stored angle is overwritten anyway
  (`QuickStandIsDebounced`).

The detector compares two consecutive measured frames. A repetition counts only when the knee angle
goes from below 100 to above 160 between two analysed frames. A motion that changes the angle by at
most 60 degrees per frame never fires either transition (`SmoothMotionNeverCounts`,
`SmoothRunNeverCounts`); see "Findings".

## Model

| member | source | states |
|---|---|---|
| `AngleUtils.CalculateAngle` | src/utils/angleUtils.ts:62-91 | no contract of its own (it only computes); its properties are stated by `DegenerateIffCoincident`, `ClampIsExactOverReals`, `AngleInRange`, `AngleSymmetric` and `AngleIgnoresZ` |
| `AngleUtils.Clamp` | src/utils/angleUtils.ts:82-83 | the clamped cosine lies in [-1, 1], equals its input when the input is already there, is 1 for any input above 1 and -1 for any input below -1 |
| `AngleUtils.CosineAt` | src/utils/angleUtils.ts:64-83 | no contract of its own (it only computes the value handed to `acos`); its properties are stated by `DegenerateIffCoincident`, `ClampIsExactOverReals`, `AngleSymmetric`, `RightAngleCosine`, `StraightAngleCosine`, `SquatAnalyzer.UprightTrunkReadsStraight` and `SquatAnalyzer.UprightTrunkReadsZero` |
| `AngleUtils.CosineOf` | src/utils/angleUtils.ts:74-83 | past the zero-magnitude guard, the value handed to `acos` lies in [-1, 1] |
| `AngleUtils.DegenerateIffCoincident` | src/utils/angleUtils.ts:71-77 | the zero-magnitude guard fires exactly when `a` or `c` coincides with the vertex in the plane, and the angle is then exactly 0 |
| `AngleUtils.CoincidentTriple` | src/utils/__tests__/angleUtils.test.ts:19-23 | the triple (1,1), (1,1), (2,2) gives exactly 0 |
| `AngleUtils.ClampIsExactOverReals` | src/utils/angleUtils.ts:80-83 | over the reals the ratio is already in [-1, 1] (Cauchy-Schwarz), so for non-degenerate input the clamped cosine times the product of magnitudes is exactly the dot product |
| `AngleUtils.AngleInRange` | src/utils/angleUtils.ts:85-90 | the angle always lies in [0, 180] degrees |
| `AngleUtils.AngleSymmetric` | src/utils/angleUtils.ts:64-80 | swapping `a` and `c` leaves the cosine and the angle unchanged |
| `AngleUtils.AngleIgnoresZ` | src/utils/angleUtils.ts:64-65 | changing any point's `z` leaves the angle unchanged |
| `AngleUtils.RightAngleCosine` | src/utils/__tests__/angleUtils.test.ts:5-10 | for (0,0), (0,1), (1,1) the cosine handed to `acos` is exactly 0 |
| `AngleUtils.StraightAngleCosine` | src/utils/__tests__/angleUtils.test.ts:12-17 | for (0,0), (0,1), (0,2) the cosine handed to `acos` is exactly -1 |
| `AngleUtils.CalculateDistance` | src/utils/angleUtils.ts:100-104 | no contract of its own (it only computes); its properties are stated by `DistanceNonNegative`, `DistanceSymmetric` and `DistanceIgnoresZ` |
| `AngleUtils.DistanceNonNegative` | src/utils/angleUtils.ts:100-104 | the distance is non-negative, and zero exactly for points that coincide in the plane (so a point is at distance 0 from itself) |
| `AngleUtils.DistanceSymmetric` | src/utils/angleUtils.ts:101-103 | the distance is symmetric in its arguments |
| `AngleUtils.DistanceIgnoresZ` | src/utils/angleUtils.ts:101-102 | changing either point's `z` leaves the distance unchanged |
| `AngleUtils.DistanceThreeFour` | src/utils/__tests__/angleUtils.test.ts:27-32 | (0,0) to (3,4) is exactly 5, from the square-root laws alone |
| `SquatAnalyzer.InitialState` | src/components/SquatAnalyzer.tsx:9-15 | no contract of its own: the mount-time values, which `SquatAnalyzer.SquatAnalyzer.constructor` establishes and `ResetRestoresDefaults` returns to |
| `SquatAnalyzer.LeftSideJoints` | src/components/SquatAnalyzer.tsx:34-43 | the joints are found exactly when indices 23, 25, 27 and 11 all exist and hold a landmark, and they are those entries |
| `SquatAnalyzer.VerticalReference` | src/components/SquatAnalyzer.tsx:49-53 | the reference point lies one unit from the shoulder towards smaller `y`, so the reference arm is never degenerate |
| `SquatAnalyzer.KneeAngle` | src/components/SquatAnalyzer.tsx:46 | no contract of its own: the hip-knee-ankle angle; `RunKeepsAnglesInRange` bounds it through `AngleInRange` |
| `SquatAnalyzer.TrunkAngle` | src/components/SquatAnalyzer.tsx:49-53 | no contract of its own: the angle at the shoulder between the reference point and the hip; `HipBelowShoulderIsObtuse` states what it measures for an upright body |
| `SquatAnalyzer.CountReps` | src/components/SquatAnalyzer.tsx:56-67 | the count rises by at most one, and exactly on an up move with the gate open; a gated down move stamps the time without counting; otherwise nothing changes |
| `SquatAnalyzer.Classify` | src/components/SquatAnalyzer.tsx:71-80 | first-match ladder: knee < 70 gives KneeOverBent, else knee > 140 gives NotLowEnough, else trunk > 30 gives ForwardLean, else Correct |
| `SquatAnalyzer.Transition` | src/components/SquatAnalyzer.tsx:46-80 | a measured frame keeps the flag, raises the count by at most one, stores the knee angle and gives a form outcome |
| `SquatAnalyzer.FrameStep` | src/components/SquatAnalyzer.tsx:18-85 | a frame never changes `isAnalyzing` and raises the count by at most one |
| `SquatAnalyzer.ToggleStep` | src/components/SquatAnalyzer.tsx:99-106 | no contract of its own; `ToggleFlips` states its effect |
| `SquatAnalyzer.ResetStep` | src/components/SquatAnalyzer.tsx:108-113 | no contract of its own; `ResetRestoresDefaults` states its effect |
| `SquatAnalyzer.PausedFrame` | src/components/SquatAnalyzer.tsx:19-26 | while paused, any frame only sets the feedback to Stopped |
| `SquatAnalyzer.AbsentFrame` | src/components/SquatAnalyzer.tsx:19-26 | while analysing, a null frame only sets the feedback to Waiting |
| `SquatAnalyzer.IncompleteFrame` | src/components/SquatAnalyzer.tsx:34-43 | the feedback is Incomplete exactly when a joint is missing, and then nothing else changes; a short or empty array is such a frame |
| `SquatAnalyzer.MeasuredFrame` | src/components/SquatAnalyzer.tsx:46-80 | on a measured frame the count rises exactly on a gated up move, the time is stamped exactly on a gated down or up move, the knee angle is always stored and the form is graded |
| `SquatAnalyzer.RerunIsIdempotent` | src/components/SquatAnalyzer.tsx:57-85 | re-running the analysis on the same landmarks right after it stored the knee angle changes nothing, at any later time |
| `SquatAnalyzer.SmoothMotionNeverCounts` | src/components/SquatAnalyzer.tsx:57-67 | a knee angle that moves by at most 60 degrees between measured frames fires neither transition |
| `SquatAnalyzer.DebounceIsStrict` | src/components/SquatAnalyzer.tsx:57 | exactly 1000 ms after the last transition the gate is still closed |
| `SquatAnalyzer.TextIsInjective` | src/components/SquatAnalyzer.tsx:9-113 | the feedback strings are pairwise distinct |
| `SquatAnalyzer.ResetRestoresDefaults` | src/components/SquatAnalyzer.tsx:108-113 | reset gives the mount-time state except for `isAnalyzing`, which it keeps; resetting twice equals resetting once |
| `SquatAnalyzer.ToggleFlips` | src/components/SquatAnalyzer.tsx:99-106 | toggle flips the flag, says Starting when enabling and Stopped when disabling, and changes nothing else |
| `SquatAnalyzer.CountNeverDecreases` | src/components/SquatAnalyzer.tsx:55-67 | with no reset among the events, the count never decreases and rises by at most one per event |
| `SquatAnalyzer.PausedFramesChangeNothing` | src/components/SquatAnalyzer.tsx:19-26 | while paused, any run of frames leaves everything but the feedback unchanged, and the feedback says Stopped |
| `SquatAnalyzer.RunKeepsAnglesInRange` | src/components/SquatAnalyzer.tsx:46-69 | every event keeps the stored knee angle in [0, 180] |
| `SquatAnalyzer.SquatCycleCountsOneRep` | src/components/SquatAnalyzer.tsx:55-69 | knee angles 170, 170, 60, 60, 170 with the stand more than a second after the down move count one repetition |
| `SquatAnalyzer.QuickStandIsDebounced` | src/components/SquatAnalyzer.tsx:55-69 | a stand-up within a second of the down move is not counted, and the repetition is lost |
| `SquatAnalyzer.UprightTrunkReadsStraight` | src/components/SquatAnalyzer.tsx:49-53 | with the hip straight below the shoulder, the cosine at the shoulder is exactly -1 (a straight angle) |
| `SquatAnalyzer.HipBelowShoulderIsObtuse` | src/components/SquatAnalyzer.tsx:49-53 | whenever the hip is below the shoulder, the trunk angle is at least 90 degrees |
| `SquatAnalyzer.HipBelowShoulderNeverCorrect` | src/components/SquatAnalyzer.tsx:46-80 | a measured frame whose hip lies below the shoulder is never graded Correct |
| `SquatAnalyzer.DownwardReference` | src/components/SquatAnalyzer.tsx:49-53 | the corrected reference point lies one unit from the shoulder towards larger `y`, so its arm is never degenerate |
| `SquatAnalyzer.UprightTrunkReadsZero` | src/components/SquatAnalyzer.tsx:49-53 | against the corrected reference an upright trunk has cosine exactly 1, and angle 0 once `acos(1) == 0` |
| `SquatAnalyzer.UprightTrunkLeansZero` | src/components/SquatAnalyzer.tsx:49-53 | the corrected trunk angle of an upright body is 0 |
| `SquatAnalyzer.UprightSquatIsCorrect` | src/components/SquatAnalyzer.tsx:71-80 | with the corrected trunk angle, an upright body with a knee angle in [70, 140] is graded Correct |
| `SquatAnalyzer.DetectorRun` | src/components/SquatAnalyzer.tsx:57-69 | no contract of its own: the detector alone over measured frames, each compared with the one before; `DetectorAgreesWithRun` ties it to the engine |
| `SquatAnalyzer.DetectorAgreesWithRun` | src/components/SquatAnalyzer.tsx:57-69 | while analysing, over any run of measured frame events, the engine's count and timestamp equal those of `DetectorRun` on the frames' knee angles and times |
| `SquatAnalyzer.SmoothRunNeverCounts` | src/components/SquatAnalyzer.tsx:57-67 | over any run of measured frames whose knee angle moves by at most 60 degrees per frame, the detector neither counts nor stamps the time |
| `SquatAnalyzer.SmoothCycleIsMissed` | src/components/SquatAnalyzer.tsx:57-67 | a full squat 170 to 70 to 170 in 20-degree steps, two seconds apart, counts no repetition |
| `SquatAnalyzer.PhaseCount` | src/components/SquatAnalyzer.tsx:57-67 | corrected detector: with the gate open, a standing body whose knee angle drops below 100 becomes squatting (time stamped); the count rises by at most one, and exactly when a squatting body rises above 160 with the gate open; the phase changes exactly when the time is stamped |
| `SquatAnalyzer.PhaseRunNeverDecreases` | src/components/SquatAnalyzer.tsx:57-67 | the corrected detector's count never decreases over a run |
| `SquatAnalyzer.SquatEventuallyCounts` | src/components/SquatAnalyzer.tsx:57-67 | once squatting, a later rise above 160 more than a second after the descent counts a repetition, whatever came in between |
| `SquatAnalyzer.SquatCycleCounts` | src/components/SquatAnalyzer.tsx:57-67 | standing, a gated descent below 100 followed more than a second later by a rise above 160 counts a repetition, for frames in time order |
| `SquatAnalyzer.SmoothCycleCountsOnce` | src/components/SquatAnalyzer.tsx:57-67 | the same smooth squat counts exactly one repetition with the corrected detector |
| `SquatAnalyzer.SquatAnalyzer.constructor` | src/components/SquatAnalyzer.tsx:9-15 | the component mounts with Waiting, count 0, analysing, no stored angle and time 0 |
| `SquatAnalyzer.SquatAnalyzer.AnalyzeFrame` | src/components/SquatAnalyzer.tsx:18-85 | updating the fields in place yields exactly `FrameStep` of the old state |
| `SquatAnalyzer.SquatAnalyzer.ToggleAnalysis` | src/components/SquatAnalyzer.tsx:99-106 | updating the fields in place yields exactly `ToggleStep` of the old state |
| `SquatAnalyzer.SquatAnalyzer.ResetAnalysis` | src/components/SquatAnalyzer.tsx:108-113 | updating the fields in place yields exactly `ResetStep` of the old state, which is the mount-time state with the old flag |

## Left out

- Message bridge (src/components/SquatAnalyzer.tsx:88-97): the `JSON.parse` of messages from the
  embedded web view is transport. The component also keeps the latest landmark array in its own state
  (line 11). Here `AnalyzeFrame` takes that array, already parsed, as an optional parameter.
- The error path (src/components/SquatAnalyzer.tsx:81-83): once every index is checked, nothing in
  the modelled step can throw, so the "analysis error" feedback never arises.
- Rendering and styles (src/components/SquatAnalyzer.tsx:115-215) and App.tsx are UI only.
- Effect scheduling: the framework re-runs the analysis whenever the landmarks, the flag or the
  stored angle change. Here each handler and each analysis run is one atomic step. So the model does
  not show that the run after a toggle immediately overwrites Starting. Nor does it show that after
  a reset, clearing the stored angle re-runs the analysis on the retained landmarks, which stores a
  knee angle again and replaces Waiting with a form grade. `RerunIsIdempotent` covers the re-run
  caused by storing the angle.
- Floating point: coordinates and angles are reals. `Math.sqrt`, `Math.acos` and `Math.PI` are the
  parameter `math`, which satisfies only the laws in `Lawful`. NaN and infinite coordinates are not
  modelled.
- `AngleUtils.RightAngleCosine`: proves the cosine 0 for the triple (0,0), (0,1), (1,1), not the final
  90 degrees, because that would need the value of `acos(0)`.
- `AngleUtils.StraightAngleCosine`: proves the cosine -1 for the triple (0,0), (0,1), (0,2), not the
  final 180 degrees, because that would need the value of `acos(-1)`.
- Wall-clock time is the parameter `now` of each frame. It is not read from a clock.

## Findings

Pose coordinates grow downward (`y` is larger lower in the image), so an upright body has its hip
below its shoulder. The engine model (`FrameStep`, `AnalyzeFrame`) keeps the code as written; the
corrected definitions stand beside it with their properties proved. `DetectorAgreesWithRun` shows
that the detector run used by the second row is the engine's own count over measured frames.

| source | as written | input that shows it | evidently intended | confidence | as-written member | corrected member |
|---|---|---|---|---|---|---|
| src/components/SquatAnalyzer.tsx:49-53 | the trunk reference point is at `shoulder.y - 1`, above the shoulder, so the angle is measured from the upward vertical | shoulder (0, 0), hip (0, 1): cosine -1, a 180-degree trunk angle; any hip below the shoulder gives at least 90 degrees, so with a knee angle in [70, 140] the grade is always ForwardLean and never Correct | lean measured from the downward vertical (`shoulder.y + 1`), so an upright trunk reads 0 degrees | medium; not executed | `SquatAnalyzer.HipBelowShoulderNeverCorrect` | `SquatAnalyzer.UprightSquatIsCorrect` |
| src/components/SquatAnalyzer.tsx:57-67 | a repetition counts only when the knee angle rises from below 100 to above 160 between two consecutive measured frames; the descent, which only stamps the time, may be gradual | knee angles 170, 150, ..., 70, ..., 150, 170, two seconds apart: no repetition is counted | a standing/squatting phase, so that a descent below 100 and a later rise above 160 count one repetition however gradually the angle moves | medium; not executed | `SquatAnalyzer.SmoothCycleIsMissed` | `SquatAnalyzer.SquatCycleCounts` |
