/** The per-frame state machine of the advanced verifier
    (class AdvancedVerificationSystem): seven steps held in `currentStep`,
    fed one face detection per frame. Camera, canvas and DOM work is not
    modelled; the clock, the simulated texture quality and the descriptor
    distance computed by the face library arrive as inputs. */
module AdvancedSystem {
  import opened Common
  import opened AdvancedDetectors

  /** What the face detector reports for one face: detection score, the
      average eye aspect ratio of both eyes, the estimated head pose, the
      expression probabilities, the descriptor and its distance to the
      stored reference descriptor (ignored while none is stored). */
  datatype Detection = Detection(
    score: real,
    avgEar: real,
    pose: HeadPose,
    expressions: Expressions,
    descriptor: Descriptor,
    distance: real)

  /** What the detector guarantees: a probability as score, all expression
      labels present, and a distance that is a Euclidean distance. */
  predicate WellFormed(d: Detection)
  {
    0.0 <= d.score <= 1.0 && |d.expressions| > 0 && d.distance >= 0.0
  }

  /** The simulated texture consistency: `Math.random() * 0.3 + 0.7`. */
  predicate ValidQuality(q: real)
  {
    0.7 <= q < 1.0
  }

  datatype HistoryEntry = HistoryEntry(timestamp: int, detection: Detection)

  class AdvancedVerificationSystem {
    var currentStep: int
    var faceDetectionConfidence: real
    var livenessScore: real
    var biometricQuality: real
    var identityConfidence: real
    var blinkDetections: seq<int>
    var headMovements: seq<Movement>
    var expressionChanges: seq<ExpressionEvent>
    var lastHeadPose: Option<HeadPose>
    var eyeClosureFrames: nat
    var referenceFaceData: Option<Descriptor>
    var currentFaceDescriptor: Option<Descriptor>
    var faceHistory: seq<HistoryEntry>
    /** The number of scheduled 3-second analysis timers that have not fired. */
    var pendingTimers: nat

    ghost predicate Valid()
      reads this
    {
      && 1 <= currentStep <= 7
      && |faceHistory| <= HISTORY_LIMIT
      && 0.0 <= faceDetectionConfidence <= 1.0
      && 0.0 <= biometricQuality <= 1.0
      && 0.0 <= livenessScore <= 1.0
      && 0.0 <= identityConfidence <= 1.0
      && (referenceFaceData.Some? ==> |faceHistory| >= REFERENCE_MIN_HISTORY)
      && (pendingTimers > 0 ==> currentStep >= 6)
    }

    constructor ()
      ensures Valid()
      ensures currentStep == 1 && eyeClosureFrames == 0 && pendingTimers == 0
      ensures faceDetectionConfidence == 0.0 && livenessScore == 0.0
      ensures biometricQuality == 0.0 && identityConfidence == 0.0
      ensures blinkDetections == [] && headMovements == [] && expressionChanges == []
      ensures lastHeadPose.None? && referenceFaceData.None? && currentFaceDescriptor.None?
      ensures faceHistory == []
    {
      currentStep := 1;
      faceDetectionConfidence := 0.0;
      livenessScore := 0.0;
      biometricQuality := 0.0;
      identityConfidence := 0.0;
      blinkDetections := [];
      headMovements := [];
      expressionChanges := [];
      lastHeadPose := None;
      eyeClosureFrames := 0;
      referenceFaceData := None;
      currentFaceDescriptor := None;
      faceHistory := [];
      pendingTimers := 0;
    }

    /** One pass of the detection loop: exactly one face is processed; several
        faces only raise a warning; no face clears the face confidence. */
    method ProcessFrame(detections: seq<Detection>, now: int, quality: real)
      requires Valid()
      requires forall i :: 0 <= i < |detections| ==> WellFormed(detections[i])
      requires ValidQuality(quality)
      modifies this
      ensures Valid()
      ensures old(currentStep) <= currentStep
      ensures currentStep == 7 ==> old(currentStep) == 7
      ensures old(referenceFaceData).Some? ==> referenceFaceData == old(referenceFaceData)
      ensures |detections| > 1 ==> unchanged(this)
      ensures |detections| == 0 ==> faceDetectionConfidence == 0.0
      ensures |detections| == 0 ==>
        && currentStep == old(currentStep) && blinkDetections == old(blinkDetections)
        && headMovements == old(headMovements) && expressionChanges == old(expressionChanges)
        && eyeClosureFrames == old(eyeClosureFrames) && lastHeadPose == old(lastHeadPose)
        && faceHistory == old(faceHistory) && referenceFaceData == old(referenceFaceData)
        && livenessScore == old(livenessScore) && identityConfidence == old(identityConfidence)
        && pendingTimers == old(pendingTimers) && biometricQuality == old(biometricQuality)
        && currentFaceDescriptor == old(currentFaceDescriptor)
      ensures |detections| == 1 ==> FaceFrameDone(detections[0], now, quality)
    {
      if |detections| == 1 {
        ProcessFaceDetection(detections[0], now, quality);
      } else if |detections| > 1 {
        // Several subjects: only a warning is shown.
      } else {
        HandleNoFaceDetected();
      }
    }

    /** The liveness fields once the face `d` has been analysed, starting
        from step `step` and from the earlier closure count `closed`, blinks
        `blinks`, pose `pose`, movements `moves` and expressions `changes`:
        each detector's update, the quality signal, the score recomputed from
        the updated lists, and each step 2 to 5 passed in turn while its gate
        holds on this frame. */
    predicate LivenessAnalysed(step: int, closed: nat, blinks: seq<int>, pose: Option<HeadPose>,
                               moves: seq<Movement>, changes: seq<ExpressionEvent>,
                               d: Detection, now: int, quality: real)
      requires WellFormed(d)
      reads this`currentStep, this`eyeClosureFrames, this`blinkDetections, this`lastHeadPose,
        this`headMovements, this`expressionChanges, this`biometricQuality, this`livenessScore
    {
      && currentStep
         == StepAfterChecks(step, BlinkStepPassed(closed, d.avgEar, |blinks|),
                            MovementFrom(pose, d.pose, now).Some?,
                            ExpressionStepPassed(d.expressions, now), livenessScore > LIVENESS_THRESHOLD)
      && eyeClosureFrames == ClosureAfter(closed, d.avgEar)
      && blinkDetections == RecentBlinks(blinks + BlinkEvents(closed, d.avgEar, now), now)
      && lastHeadPose == Some(d.pose)
      && headMovements == RecentMovements(moves + ToSeq(MovementFrom(pose, d.pose, now)), now)
      && expressionChanges
         == RecentExpressions(changes + ToSeq(ExpressionEventOf(d.expressions, now)), now)
      && biometricQuality == quality
      && livenessScore == LivenessScore(|blinkDetections|, |headMovements|, |expressionChanges|, quality)
    }

    /** The whole new state of a frame with exactly the face `d`, against
        the state before it. */
    twostate predicate FaceFrameDone(d: Detection, now: int, quality: real)
      requires WellFormed(d)
      reads this
    {
      && LivenessAnalysed(FaceStep(old(currentStep), d.score), old(eyeClosureFrames), old(blinkDetections),
                          old(lastHeadPose), old(headMovements), old(expressionChanges), d, now, quality)
      && faceDetectionConfidence == d.score
      && currentFaceDescriptor == Some(d.descriptor)
      && faceHistory == PushBounded(old(faceHistory), HistoryEntry(now, d))
      && pendingTimers == old(pendingTimers) + (if currentStep >= 6 then 1 else 0)
      && (old(referenceFaceData).Some? ==>
            referenceFaceData == old(referenceFaceData) && identityConfidence == IdentityConfidence(d.distance))
      && (old(referenceFaceData).None? ==>
            && identityConfidence == old(identityConfidence)
            && referenceFaceData == if |faceHistory| >= REFERENCE_MIN_HISTORY then Some(d.descriptor) else None)
    }

    method HandleNoFaceDetected()
      requires Valid()
      modifies this`faceDetectionConfidence
      ensures Valid()
      ensures faceDetectionConfidence == 0.0
    {
      faceDetectionConfidence := 0.0;
    }

    /** The work done for a frame with exactly one face: record it, run the
        liveness analysis, schedule the analysis timer from step 6 on, and
        check identity. No frame reaches step 7: only the analysis timer
        does. */
    method ProcessFaceDetection(d: Detection, now: int, quality: real)
      requires Valid() && WellFormed(d) && ValidQuality(quality)
      modifies this
      ensures Valid()
      ensures FaceFrameDone(d, now, quality)
    {
      ghost var closed, blinks, pose, moves, changes :=
        eyeClosureFrames, blinkDetections, lastHeadPose, headMovements, expressionChanges;
      RecordFace(d, now);
      assert currentStep == FaceStep(old(currentStep), d.score);
      assert eyeClosureFrames == closed && blinkDetections == blinks && lastHeadPose == pose;
      assert headMovements == moves && expressionChanges == changes;
      AnalyzeLiveness(d, now, quality);
      AnalyzeBiometrics();
      VerifyIdentity(d.distance);
    }

    /** Take the detection score, pass step 1 on a confident face, and
        append the frame to the 30-frame history. */
    method RecordFace(d: Detection, now: int)
      requires Valid() && WellFormed(d)
      modifies this`faceDetectionConfidence, this`currentStep, this`currentFaceDescriptor, this`faceHistory
      ensures Valid()
      ensures faceDetectionConfidence == d.score
      ensures currentStep == FaceStep(old(currentStep), d.score)
      ensures currentFaceDescriptor == Some(d.descriptor)
      ensures faceHistory == PushBounded(old(faceHistory), HistoryEntry(now, d))
      ensures |faceHistory| >= |old(faceHistory)|
    {
      faceDetectionConfidence := d.score;
      if currentStep == 1 && faceDetectionConfidence > FACE_CONFIDENCE {
        currentStep := 2;
      }

      currentFaceDescriptor := Some(d.descriptor);
      faceHistory := faceHistory + [HistoryEntry(now, d)];
      if |faceHistory| > HISTORY_LIMIT {
        faceHistory := faceHistory[1..];
      }
    }

    /** Blink, head-movement and expression analysis, the simulated texture
        check, then the liveness score. */
    method AnalyzeLiveness(d: Detection, now: int, quality: real)
      requires Valid() && WellFormed(d) && ValidQuality(quality)
      modifies this`eyeClosureFrames, this`blinkDetections, this`lastHeadPose, this`headMovements,
        this`expressionChanges, this`biometricQuality, this`livenessScore, this`currentStep
      ensures Valid()
      ensures LivenessAnalysed(old(currentStep), old(eyeClosureFrames), old(blinkDetections), old(lastHeadPose),
                               old(headMovements), old(expressionChanges), d, now, quality)
    {
      AnalyzeBlinking(d.avgEar, now);
      AnalyzeHeadMovement(d.pose, now);
      AnalyzeExpressions(d.expressions, now);
      biometricQuality := quality;
      ghost var blinks, moves, changes := blinkDetections, headMovements, expressionChanges;
      CalculateLivenessScore();
      assert blinkDetections == blinks && headMovements == moves && expressionChanges == changes;
      assert livenessScore == LivenessScore(|blinks|, |moves|, |changes|, quality);
    }

    /** The blink detector: count closed-eye frames; on reopening, record a
        blink when the closure lasted 2 to 14 frames, and pass step 2 once two
        blinks are recorded; then forget blinks older than 15 seconds. */
    method AnalyzeBlinking(avgEar: real, now: int)
      requires Valid()
      modifies this`eyeClosureFrames, this`blinkDetections, this`currentStep
      ensures Valid()
      ensures eyeClosureFrames == ClosureAfter(old(eyeClosureFrames), avgEar)
      ensures blinkDetections
           == RecentBlinks(old(blinkDetections) + BlinkEvents(old(eyeClosureFrames), avgEar, now), now)
      ensures forall i :: 0 <= i < |blinkDetections| ==> now - blinkDetections[i] < BLINK_WINDOW_MS
      ensures currentStep
           == if old(currentStep) == 2 && BlinkStepPassed(old(eyeClosureFrames), avgEar, |old(blinkDetections)|)
              then 3 else old(currentStep)
    {
      if avgEar < EAR_THRESHOLD {
        eyeClosureFrames := eyeClosureFrames + 1;
      } else {
        if eyeClosureFrames > BLINK_MIN_FRAMES && eyeClosureFrames < BLINK_MAX_FRAMES {
          blinkDetections := blinkDetections + [now];
          if currentStep == 2 && |blinkDetections| >= BLINKS_REQUIRED {
            currentStep := 3;
          }
        }
        eyeClosureFrames := 0;
      }
      assert blinkDetections == old(blinkDetections) + BlinkEvents(old(eyeClosureFrames), avgEar, now);
      blinkDetections := RecentBlinks(blinkDetections, now);
    }

    /** The head-movement detector: compare the pose with the previous
        frame's, record a movement above 2 degrees and pass step 3 on it;
        keep the pose; forget movements older than 20 seconds. */
    method AnalyzeHeadMovement(pose: HeadPose, now: int)
      requires Valid()
      modifies this`lastHeadPose, this`headMovements, this`currentStep
      ensures Valid()
      ensures lastHeadPose == Some(pose)
      ensures headMovements
           == RecentMovements(old(headMovements) + ToSeq(MovementFrom(old(lastHeadPose), pose, now)), now)
      ensures forall i :: 0 <= i < |headMovements| ==> now - headMovements[i].timestamp < MOVEMENT_WINDOW_MS
      ensures currentStep
           == if old(currentStep) == 3 && MovementFrom(old(lastHeadPose), pose, now).Some?
              then 4 else old(currentStep)
    {
      if lastHeadPose.Some? {
        var yawDiff := Abs(pose.yaw - lastHeadPose.value.yaw);
        var pitchDiff := Abs(pose.pitch - lastHeadPose.value.pitch);
        if yawDiff > MOVEMENT_DEGREES || pitchDiff > MOVEMENT_DEGREES {
          headMovements := headMovements + [Movement(now, yawDiff, pitchDiff)];
          if currentStep == 3 && |headMovements| >= MOVEMENTS_REQUIRED {
            currentStep := 4;
          }
        }
      }
      assert headMovements == old(headMovements) + ToSeq(MovementFrom(old(lastHeadPose), pose, now));
      lastHeadPose := Some(pose);
      headMovements := RecentMovements(headMovements, now);
    }

    /** The expression detector: record the dominant expression when its
        confidence is above 0.4, pass step 4 on a happy or surprised face or
        any expression above 0.6, and forget expressions older than 15
        seconds. */
    method AnalyzeExpressions(expressions: Expressions, now: int)
      requires Valid() && |expressions| > 0
      modifies this`expressionChanges, this`currentStep
      ensures Valid()
      ensures expressionChanges
           == RecentExpressions(old(expressionChanges) + ToSeq(ExpressionEventOf(expressions, now)), now)
      ensures forall i :: 0 <= i < |expressionChanges| ==> now - expressionChanges[i].timestamp < EXPRESSION_WINDOW_MS
      ensures currentStep
           == if old(currentStep) == 4 && ExpressionStepPassed(expressions, now) then 5 else old(currentStep)
    {
      var dominant := DominantIndex(expressions);
      var expression := expressions[dominant].0;
      var confidence := expressions[dominant].1;
      if confidence > EXPRESSION_CONFIDENCE {
        expressionChanges := expressionChanges + [ExpressionEvent(now, expression, confidence)];
        if currentStep == 4 && (expression == "happy" || expression == "surprised" || confidence > STRONG_EXPRESSION) {
          currentStep := 5;
        }
      }
      assert expressionChanges == old(expressionChanges) + ToSeq(ExpressionEventOf(expressions, now));
      expressionChanges := RecentExpressions(expressionChanges, now);
    }

    /** Recompute the liveness score from the event lists and the quality
        signal, and pass step 5 when it exceeds the liveness threshold. */
    method CalculateLivenessScore()
      requires Valid()
      modifies this`livenessScore, this`currentStep
      ensures Valid()
      ensures livenessScore
           == LivenessScore(|blinkDetections|, |headMovements|, |expressionChanges|, biometricQuality)
      ensures currentStep
           == if old(currentStep) == 5 && livenessScore > LIVENESS_THRESHOLD then 6 else old(currentStep)
    {
      var score := 0.0;
      if |blinkDetections| >= 2 {
        score := score + 0.30;
      } else if |blinkDetections| >= 1 {
        score := score + 0.20;
      }
      if |headMovements| >= 1 {
        score := score + 0.30;
      }
      if |expressionChanges| >= 1 {
        score := score + 0.20;
      }
      score := score + biometricQuality * 0.20;
      livenessScore := if score < 1.0 then score else 1.0;
      if livenessScore > LIVENESS_THRESHOLD && currentStep == 5 {
        currentStep := 6;
      }
    }

    /** From step 6 on, every frame schedules the 3-second analysis timer. */
    method AnalyzeBiometrics()
      requires Valid()
      modifies this`pendingTimers
      ensures Valid()
      ensures pendingTimers == old(pendingTimers) + (if currentStep >= 6 then 1 else 0)
    {
      if currentStep < 6 {
        return;
      }
      pendingTimers := pendingTimers + 1;
    }

    /** One scheduled analysis timer fires: step 6 becomes 7; at step 7 it
        does nothing. */
    method TimerFired()
      requires Valid() && pendingTimers > 0
      modifies this`pendingTimers, this`currentStep
      ensures Valid()
      ensures pendingTimers == old(pendingTimers) - 1
      ensures currentStep == if old(currentStep) == 6 then 7 else old(currentStep)
      ensures old(currentStep) >= 6
    {
      pendingTimers := pendingTimers - 1;
      if currentStep == 6 {
        currentStep := 7;
      }
    }

    /** The identity matcher: once the history holds ten frames, keep the
        current descriptor as the reference (that frame computes no
        confidence); afterwards the confidence is max(0, 1 - distance). */
    method VerifyIdentity(distance: real)
      requires Valid() && distance >= 0.0
      modifies this`referenceFaceData, this`identityConfidence
      ensures Valid()
      ensures old(referenceFaceData).Some? ==>
        referenceFaceData == old(referenceFaceData) && identityConfidence == IdentityConfidence(distance)
      ensures old(referenceFaceData).None? ==> identityConfidence == old(identityConfidence)
      ensures old(referenceFaceData).None? ==>
        referenceFaceData == if |faceHistory| >= REFERENCE_MIN_HISTORY then currentFaceDescriptor else None
    {
      if referenceFaceData.None? {
        if |faceHistory| >= REFERENCE_MIN_HISTORY {
          referenceFaceData := currentFaceDescriptor;
        }
        return;
      }
      identityConfidence := IdentityConfidence(distance);
    }
  }

  /** A fresh session fed one confident face moves from step 1 to step 2
      and no further: no blink can be completed on the first frame. */
  method FirstFaceScenario(d: Detection, now: int, quality: real)
    requires WellFormed(d) && d.score == 0.9 && ValidQuality(quality)
  {
    var system := new AdvancedVerificationSystem();
    system.ProcessFrame([d], now, quality);
    assert system.currentStep == 2;
    assert system.faceHistory == [HistoryEntry(now, d)];
    assert system.referenceFaceData.None?;
  }
}
