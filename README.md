# Liveness and step gating of the browser identity verifiers

This project models, in Dafny, the per-frame logic of the two face
verification classes of the repository: `AdvancedVerificationSystem`
(`public/js/advanced-verification.js`) and `LivenessVerification`
(`public/js/liveness-verification.js`). Both classes take one face
observation per camera frame. They decide whether a live person is present
and whether it is the same person throughout.

The advanced verifier is a seven-step state machine held in `currentStep`:

1. face;
2. two blinks;
3. a head movement;
4. an expression;
5. a liveness score above 0.4;
6. a simulated 3-second analysis;
7. done.

It keeps:

- a closed-eye run counter that turns into blink events;
- the last head pose, which turns into movement events;
- the dominant expression, which turns into expression events;
- three event lists, each pruned by a recency window (15 s, 20 s and 15 s);
- a 30-frame history;
- a 0–1 liveness score;
- a reference descriptor captured once, when the history reaches ten
  frames. The identity confidence is then `max(0, 1 - d)`.

The basic verifier keeps monotone counters and flags:

- closed-eye frames;
- head turns beyond 15°;
- a smile.

Its score is 0.3 + 0.3 + 0.4. The first face seen becomes the reference.
Verification completes on a frame whose similarity `1 - d` exceeds 0.6 while
liveness is verified.

Files:

- `common.dfy` (module `Common`): `Option`, descriptors, `Abs`, and `Recent`, the
  timestamp-window filter both classes use (JavaScript `filter`), with its lemmas.
- `advanced_detectors.dfy` (module `AdvancedDetectors`): the advanced verifier's
  thresholds and its pure rules:
  - blink run length;
  - movement test;
  - dominant-expression reduce;
  - score;
  - identity confidence;
  - bounded history.
- `advanced_system.dfy` (module `AdvancedSystem`): class `AdvancedVerificationSystem`.
  Its methods update the fields in place. The per-step methods name the fields
  they may change in a `modifies this`field` frame; `ProcessFrame` and
  `ProcessFaceDetection`, which can change every field, declare `modifies this`.
- `liveness_rules.dfy` (module `LivenessRules`): the basic verifier's thresholds and its
  eye aspect ratio, with scale and translation invariance.
- `liveness_system.dfy` (module `LivenessSystem`): class `LivenessVerification`,
  written the same way; `StartDetection` declares `modifies this`.

Inputs that come from outside the core are parameters:

- The frame time (`Date.now()`) is one `now` per frame.
- The simulated texture quality (`Math.random() * 0.3 + 0.7`) is a `quality` in [0.7, 1).
- The distance computed by `faceapi.euclideanDistance` is a non-negative
  `distance` in each detection.
- The advanced verifier's average EAR and head pose are detection fields.
- The basic verifier's head yaw is a detection field. Its eye landmarks are
  given as points, because its eye aspect ratio uses no square root.

Behaviour of the code worth noting:

- The dominant expression is found by a reduce with a strict `>`, so on a tie the
  **later** label wins.
- The step checks run one after another inside a frame, each on the step the
  previous one left. A single frame can therefore pass several steps, from 1 up
  to 6; it cannot reach 7.
- Thresholds are constants in the code. Each class hard-codes its own identity
  policy:
  - the basic class gates completion on similarity > 0.6 and liveness;
  - the advanced class only reports a confidence.
- From step 6 on, every frame schedules another 3-second timer; nothing prevents
  several from being pending. `pendingTimers` counts them, and `TimerFired`
  consumes one.
- The basic verifier's `blinkCount` counts frames with a closed-eye ratio below 0.2,
  not completed blinks.
- In the advanced verifier, step 2 is passed on the list length measured right
  after the new blink is pushed and before stale blinks are pruned.

## Model

| member | source | states |
|---|---|---|
| `Common.Recent` | public/js/advanced-verification.js:450-453 | pruning never grows the list; which events it keeps is stated by `RecentContents`, and their order by `RecentAppend` |
| `Common.RecentContents` | public/js/advanced-verification.js:450-453 | the pruned list holds exactly the events stamped less than the window before `now`: every kept event is an input event and fresh, and every fresh input event is kept |
| `Common.RecentAppend` | public/js/advanced-verification.js:436-453 | pruning a list with one pushed event equals pruning the old list and then appending that event when it is fresh, so pruning keeps push order |
| `Common.RecentKeepsFresh` | public/js/advanced-verification.js:499-502 | pruning removes nothing when every event is inside the window |
| `Common.RecentExpires` | public/js/advanced-verification.js:556-559 | when no event is newer than `last` and the clock is a full window past `last`, the pruned list is empty |
| `AdvancedDetectors.ClosureAfter` | public/js/advanced-verification.js:432-448 | a closed-eye frame (EAR < 0.25) lengthens the run; an open frame resets it to 0 |
| `AdvancedDetectors.BlinkEvents` | public/js/advanced-verification.js:434-437 | an open frame appends exactly one timestamp, `now`, iff the run before it was longer than 1 and shorter than 15 frames; otherwise nothing |
| `AdvancedDetectors.RecentBlinks` | public/js/advanced-verification.js:450-453 | every kept blink is less than 15000 ms before `now` |
| `AdvancedDetectors.ClosedRunEmitsNothing` | public/js/advanced-verification.js:432-433 | a sequence of closed-eye frames grows the run by one per frame and emits no blink |
| `AdvancedDetectors.OneBlinkPerClosure` | public/js/advanced-verification.js:429-448 | from run 0, a closure of k frames followed by one open frame emits one blink iff 1 < k < 15 and leaves the run at 0; a one-frame flicker or a closure of 15 or more emits none |
| `AdvancedDetectors.MovementFrom` | public/js/advanced-verification.js:472-485 | a movement is emitted iff a previous pose exists and yaw or pitch changed by more than 2°; the first frame emits none; the event carries `now` and the absolute yaw and pitch differences between the two poses |
| `AdvancedDetectors.MovementSymmetric` | public/js/advanced-verification.js:475-479 | moving from pose a to b is detected iff moving from b to a is, with the same differences |
| `AdvancedDetectors.RecentMovements` | public/js/advanced-verification.js:499-502 | every kept movement is less than 20000 ms before `now` |
| `AdvancedDetectors.DominantIndex` | public/js/advanced-verification.js:534-536 | the chosen label has the highest confidence, and every later label has a strictly lower one, so on a tie the last label wins |
| `AdvancedDetectors.ExpressionEventOf` | public/js/advanced-verification.js:534-545 | an event is emitted iff some label's confidence exceeds 0.4; it carries `now` and a label of the frame with the maximal confidence |
| `AdvancedDetectors.ExpressionEventIsLastMaximum` | public/js/advanced-verification.js:534-536 | the emitted label and confidence are those of a label that every later label falls strictly below, so of several maximal labels the last one is reported |
| `AdvancedDetectors.RecentExpressions` | public/js/advanced-verification.js:556-559 | every kept expression event is less than 15000 ms before `now` |
| `AdvancedDetectors.LivenessScore` | public/js/advanced-verification.js:571-594 | the weighted sum, capped with `min(·, 1)`, is at most 1, and at least 0 for a non-negative quality |
| `AdvancedDetectors.LivenessGate` | public/js/advanced-verification.js:571-602 | for quality in [0.7, 1], the score exceeds 0.4 iff there are two blinks, or a movement, or one blink together with an expression |
| `AdvancedDetectors.IdentityConfidence` | public/js/advanced-verification.js:627-629 | the result is `max(0, 1 - d)`: never negative, at most 1 for d ≥ 0, 1 when d = 0, and 0 when d ≥ 1 |
| `AdvancedDetectors.StepAfterChecks` | public/js/advanced-verification.js:402-420 | the four checks of one frame in their call order (blink, movement, expression, score): the step either stays or rises within 2..6; a rise past step s needs the gate of step s; and from step s the gate of step s moves it on, to 6 when it is step 5 |
| `AdvancedDetectors.CascadeTwoToFour` | public/js/advanced-verification.js:407-413 | a frame at step 2 that completes its second blink and turns the head, but shows only a weak expression, ends at step 4 |
| `AdvancedDetectors.CascadeStopsAtFirstFailure` | public/js/advanced-verification.js:407-419 | with every gate holding, step 2 becomes 6 in one frame; when the blink gate fails, step 2 stays whatever the later gates say |
| `AdvancedDetectors.PushBounded` | public/js/advanced-verification.js:379-390 | the new entry is last; a history of at most 30 stays at most 30; below 30 nothing is dropped; at 30 only the oldest entry is dropped |
| `AdvancedSystem.AdvancedVerificationSystem.constructor` | public/js/advanced-verification.js:8-29 | the session starts at step 1 with empty lists, no pose, no reference and zero scores |
| `AdvancedSystem.AdvancedVerificationSystem.ProcessFrame` | public/js/advanced-verification.js:340-354 | one face is processed; more than one changes nothing; none only zeroes the face confidence. With one face, the new state is exactly that of `ProcessFaceDetection`. The step never decreases, and a frame never reaches step 7. A stored reference is never replaced |
| `AdvancedSystem.AdvancedVerificationSystem.HandleNoFaceDetected` | public/js/advanced-verification.js:730-738 | the face confidence becomes 0; the step and everything else are kept |
| `AdvancedSystem.AdvancedVerificationSystem.ProcessFaceDetection` | public/js/advanced-verification.js:363-400 | the whole new state of a one-face frame (`FaceFrameDone`). Step 1 becomes 2 on a score above 0.5; then `StepAfterChecks` gives the step, with the gates evaluated on this frame: a completed blink making at least two, a movement, a qualifying expression, a score above 0.4. Each event list is its detector's push followed by pruning. The history is the bounded push. One timer is added from step 6 on. The reference is captured once, on the frame where the history reaches 10; the confidence changes only after that |
| `AdvancedSystem.AdvancedVerificationSystem.RecordFace` | public/js/advanced-verification.js:364-390 | step 1 becomes 2 iff the detection score exceeds 0.5; the frame is pushed onto the 30-entry history |
| `AdvancedSystem.AdvancedVerificationSystem.AnalyzeLiveness` | public/js/advanced-verification.js:402-420 | the blink, movement and expression updates, the quality and the score recomputed from the updated lists (`LivenessAnalysed`); the step is `StepAfterChecks` of the step it started from, so step 1 is never left here |
| `AdvancedSystem.AdvancedVerificationSystem.AnalyzeBlinking` | public/js/advanced-verification.js:422-454 | the new run, the pruned blink list, and the step 2 → 3 transition on a completed blink that makes at least two |
| `AdvancedSystem.AdvancedVerificationSystem.AnalyzeHeadMovement` | public/js/advanced-verification.js:471-503 | the last pose is always replaced; the movement list is pushed and pruned; step 3 → 4 happens on an emitted movement |
| `AdvancedSystem.AdvancedVerificationSystem.AnalyzeExpressions` | public/js/advanced-verification.js:530-560 | the expression list is pushed and pruned; step 4 → 5 happens on an emitted event labelled happy or surprised, or with confidence above 0.6 |
| `AdvancedSystem.AdvancedVerificationSystem.CalculateLivenessScore` | public/js/advanced-verification.js:571-603 | the stored score equals `LivenessScore` of the current list lengths and quality, so recomputing gives the same value; step 5 → 6 happens iff the score exceeds 0.4 |
| `AdvancedSystem.AdvancedVerificationSystem.AnalyzeBiometrics` | public/js/advanced-verification.js:605-609 | one more analysis timer is pending iff the step is at least 6 |
| `AdvancedSystem.AdvancedVerificationSystem.TimerFired` | public/js/advanced-verification.js:609-614 | a firing timer turns step 6 into 7 and otherwise leaves the step alone; timers exist only from step 6 on |
| `AdvancedSystem.AdvancedVerificationSystem.VerifyIdentity` | public/js/advanced-verification.js:617-630 | without a reference, the current descriptor becomes the reference once the history holds 10 frames, and the confidence is untouched; with one, the reference is kept and the confidence is `max(0, 1 - d)` |
| `LivenessRules.EyeAspectRatio` | public/js/liveness-verification.js:183-191 | the mean of \|height\|/\|width\| over both eyes is non-negative; it is absent exactly when a width is zero, which is the source's division by zero |
| `LivenessRules.EyeAspectRatioScaleInvariant` | public/js/liveness-verification.js:183-191 | multiplying every landmark coordinate by the same nonzero factor leaves the ratio unchanged |
| `LivenessRules.EyeAspectRatioTranslationInvariant` | public/js/liveness-verification.js:183-191 | shifting every landmark by the same offset leaves the ratio unchanged |
| `LivenessSystem.LivenessVerification.constructor` | public/js/liveness-verification.js:9-33 | all flags start false, counters at 0, no reference, instruction 0 |
| `LivenessSystem.LivenessVerification.CalculateLivenessScore` | public/js/liveness-verification.js:214-222 | the score lies in [0, 1] and exceeds 0.8 iff blinkCount ≥ 3, headMovementCount ≥ 2 and a smile was seen |
| `LivenessSystem.LivenessVerification.Progress` | public/js/liveness-verification.js:304-310 | progress is one of 0, 25, 50, 75 and 100; it is 100 iff all four flags hold and 0 iff none does |
| `LivenessSystem.LivenessVerification.StartDetection` | public/js/liveness-verification.js:105-122 | `faceDetected` records whether a face was seen. The counters, the smile, liveness and completion never go back. The first face fixes the reference for good. Completion happens only on a frame with a stored reference, similarity above 0.6 and liveness verified. With a face, the new state is exactly `FaceChecked`: the counters and the smile updated, liveness re-evaluated, the instruction moved from 0 to 1 and then set by the liveness rule, and either the reference captured or `identityMatched` set to `1 - d > 0.6`, with completion when it matches while liveness holds |
| `LivenessSystem.LivenessVerification.UpdateFaceDetection` | public/js/liveness-verification.js:252-270 | the flag takes the given value; instruction 0 becomes 1 only on a frame with a face |
| `LivenessSystem.LivenessVerification.CheckLiveness` | public/js/liveness-verification.js:144-181 | a closed-eye frame (ratio < 0.2) adds one to `blinkCount`. A happy score above 0.7 sets the smile. A yaw beyond 15° adds one to `headMovementCount`. Liveness holds iff the score exceeds 0.8. The instruction is 5 when liveness holds, otherwise 2 on a closed-eye frame after more than three, otherwise unchanged |
| `LivenessSystem.LivenessVerification.CheckIdentity` | public/js/liveness-verification.js:224-250 | the first descriptor becomes the reference, with no matching on that frame. Later, `identityMatched` is `1 - d > 0.6`, and completion becomes true when it matches while liveness is verified |
| `LivenessSystem.LivenessVerification.UpdateLivenessStatus` | public/js/liveness-verification.js:272-273 | the liveness flag takes the given value |
| `LivenessSystem.LivenessVerification.UpdateIdentityStatus` | public/js/liveness-verification.js:288-289 | the identity flag takes the given value |
| `LivenessSystem.LivenessVerification.CompleteVerification` | public/js/liveness-verification.js:320-323 | afterwards the verification is complete; a call on a completed verification changes nothing, so the call is idempotent |

The class invariants (`Valid()`) also state the following.

- Advanced verifier:
  - the step is in 1..7;
  - the history holds at most 30 entries;
  - the confidences, the quality and the score lie in [0, 1];
  - a reference exists only once the history has reached 10;
  - timers are pending only from step 6.
- Basic verifier:
  - liveness is verified iff the current score exceeds 0.8;
  - verified liveness keeps the instruction at 5;
  - a match or a completion implies a stored reference;
  - completion implies verified liveness.

`AdvancedSystem.FirstFaceScenario` and `LivenessSystem.FirstFaceScenario` show what
callers can derive from these contracts. A new advanced session fed one face with
score 0.9 is at step 2 afterwards. A new basic verifier fed one face stores it as the
reference, matches nothing and shows instruction 1.

## Left out

- Model and camera setup:
  - `initializeSystem`, `loadModels`, `setupCamera`, `setupCameraFallback`,
    `requestCameraPermission` and `requestCameraLegacy` (advanced);
  - `initializeSystem`, `loadModels` and `setupCamera` (basic).
  - These are asynchronous browser and network I/O. The model starts from an
    initialised session, so the `isModelLoaded`/`isInitialized` guard is not
    modelled.
- Canvas, DOM and console output. This covers `drawAdvancedVisualization`,
  `drawLivenessIndicators`, `drawSecurityOverlay`, `adjustCanvasSize`,
  `updateCurrentStep`, `updateMetricsDisplay`, `updateFeedback`, `showWarning`,
  `completeStep`, `completeVerificationProcess`, `getStatusColor`,
  `drawDetections`, `updateInstructions`, and the indicator and progress-bar writes.
  They are presentation only. `Progress` models the value written to the bar.
- `checkBrowserCompatibility`, `showBrowserCompatibilityError` and
  `handleCameraError`: browser probing and message text.
- `startCompleteVerification` and `startFullVerification`: timed alerts with fixed
  text.
- The advanced `calculateEAR` and both `estimateHeadPose` functions. They use
  `Math.sqrt` and `Math.atan2` on floating point; their results (average EAR, yaw,
  pitch) are detection inputs.
- `faceapi.euclideanDistance` is foreign code. Its result is a non-negative
  `distance` input, so a descriptor-length mismatch inside that library is not
  modelled.
- `Math.random` in `analyzeTextureConsistency` is replaced by a `quality` input in
  [0.7, 1).
- Scheduling (`requestAnimationFrame`, the self-rescheduling `setTimeout` loops).
  The 3-second `setTimeout` of `analyzeBiometrics` becomes the `pendingTimers`
  counter plus the explicit `TimerFired` method; which timer fires when is left
  to the caller.
- Floating point: scores, ratios and thresholds are exact `real`s. Rounding of
  sums such as 0.3 + 0.3 + 0.4 in IEEE doubles is not modelled.
- Several `Date.now()` calls inside one frame are modelled as one timestamp `now`.
- The landmarks and expression map stored in each history entry are represented
  by the whole `Detection` value.
- An expression map without labels is excluded by a precondition. The source's
  `reduce` without an initial value throws on it, and the face detector always
  reports all of its labels.
