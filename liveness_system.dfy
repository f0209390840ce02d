/** The per-frame state of the basic verifier (class LivenessVerification):
    monotone counters and flags for closed-eye frames, head turns and a
    smile, a reference descriptor taken from the first face, and identity
    gating at similarity above 0.6 combined with liveness. Camera, canvas
    and DOM work is not modelled; the head yaw and the descriptor distance
    computed by the face library arrive as inputs. */
module LivenessSystem {
  import opened Common
  import opened LivenessRules

  /** What the face detector reports for the first face of a frame: the
      six landmarks of each eye, the probability of a happy expression, the
      estimated head yaw in degrees, the descriptor and its distance to the
      stored reference descriptor (ignored while none is stored). */
  datatype Detection = Detection(
    leftEye: seq<Point>,
    rightEye: seq<Point>,
    happy: real,
    yaw: real,
    descriptor: Descriptor,
    distance: real)

  /** What the detector guarantees: six landmarks per eye. */
  predicate WellFormed(d: Detection)
  {
    IsEye(d.leftEye) && IsEye(d.rightEye)
  }

  /** The index of the last instruction, "verifying your identity". */
  const FINAL_INSTRUCTION: nat := 5

  class LivenessVerification {
    var faceDetected: bool
    var livenessVerified: bool
    var identityMatched: bool
    var verificationComplete: bool
    /** The number of closed-eye frames seen (the source calls it a blink count). */
    var blinkCount: nat
    /** The number of frames with the head turned more than 15 degrees. */
    var headMovementCount: nat
    var smileDetected: bool
    var referenceFace: Option<Descriptor>
    var currentFaceDescriptor: Option<Descriptor>
    var currentInstructionIndex: nat

    ghost predicate Valid()
      reads this
    {
      && currentInstructionIndex in {0, 1, 2, FINAL_INSTRUCTION}
      && (livenessVerified <==> CalculateLivenessScore() > LIVENESS_THRESHOLD)
      && (livenessVerified ==> currentInstructionIndex == FINAL_INSTRUCTION)
      && (identityMatched ==> referenceFace.Some?)
      && (verificationComplete ==> livenessVerified && referenceFace.Some?)
    }

    constructor ()
      ensures Valid()
      ensures !faceDetected && !livenessVerified && !identityMatched && !verificationComplete
      ensures blinkCount == 0 && headMovementCount == 0 && !smileDetected
      ensures referenceFace.None? && currentFaceDescriptor.None? && currentInstructionIndex == 0
    {
      faceDetected := false;
      livenessVerified := false;
      identityMatched := false;
      verificationComplete := false;
      blinkCount := 0;
      headMovementCount := 0;
      smileDetected := false;
      referenceFace := None;
      currentFaceDescriptor := None;
      currentInstructionIndex := 0;
    }

    /** The liveness score: 0.3 for three closed-eye frames, 0.3 for two head
        turns, 0.4 for a smile. It passes 0.8 only when all three hold. */
    function CalculateLivenessScore(): (r: real)
      reads this
      ensures 0.0 <= r <= 1.0
      ensures r > LIVENESS_THRESHOLD
          <==> blinkCount >= BLINKS_REQUIRED && headMovementCount >= TURNS_REQUIRED && smileDetected
    {
      (if blinkCount >= BLINKS_REQUIRED then 0.3 else 0.0)
      + (if headMovementCount >= TURNS_REQUIRED then 0.3 else 0.0)
      + (if smileDetected then 0.4 else 0.0)
    }

    /** The progress bar: 25 points for each of face detected, liveness
        verified, identity matched and verification complete. */
    function Progress(): (p: nat)
      reads this
      ensures p in {0, 25, 50, 75, 100}
      ensures p == 100 <==> faceDetected && livenessVerified && identityMatched && verificationComplete
      ensures p == 0 <==> !faceDetected && !livenessVerified && !identityMatched && !verificationComplete
    {
      (if faceDetected then 25 else 0)
      + (if livenessVerified then 25 else 0)
      + (if identityMatched then 25 else 0)
      + (if verificationComplete then 25 else 0)
    }

    /** The whole new state of a frame whose first face is `d`, against the
        state before it: the face is recorded and the instructions leave 0;
        the closed-eye, turn and smile signals are counted and liveness is
        re-evaluated (which moves the instructions to the last one, or to 2 on
        a closed-eye frame past the third); then the first descriptor becomes
        the reference, or a later one is matched against it. */
    twostate predicate FaceChecked(d: Detection)
      requires WellFormed(d)
      reads this
    {
      && faceDetected
      && blinkCount == old(blinkCount) + (if EyesClosed(d.leftEye, d.rightEye) then 1 else 0)
      && smileDetected == (old(smileDetected) || d.happy > SMILE_CONFIDENCE)
      && headMovementCount == old(headMovementCount) + (if Abs(d.yaw) > TURN_DEGREES then 1 else 0)
      && livenessVerified == (CalculateLivenessScore() > LIVENESS_THRESHOLD)
      && currentInstructionIndex
         == (if livenessVerified then FINAL_INSTRUCTION
             else if EyesClosed(d.leftEye, d.rightEye) && blinkCount > BLINK_INSTRUCTION_AFTER then 2
             else if old(currentInstructionIndex) == 0 then 1
             else old(currentInstructionIndex))
      && currentFaceDescriptor == Some(d.descriptor)
      && (old(referenceFace).None? ==>
            && referenceFace == Some(d.descriptor)
            && identityMatched == old(identityMatched)
            && verificationComplete == old(verificationComplete))
      && (old(referenceFace).Some? ==>
            && referenceFace == old(referenceFace)
            && identityMatched == (1.0 - d.distance > SIMILARITY_THRESHOLD)
            && verificationComplete == (old(verificationComplete) || (identityMatched && livenessVerified)))
    }

    /** One pass of the detection loop: the first face of the frame, if any,
        is checked for liveness and then for identity. */
    method StartDetection(detections: seq<Detection>)
      requires Valid()
      requires forall i :: 0 <= i < |detections| ==> WellFormed(detections[i])
      modifies this
      ensures Valid()
      ensures faceDetected == (|detections| > 0)
      ensures old(blinkCount) <= blinkCount && old(headMovementCount) <= headMovementCount
      ensures old(smileDetected) ==> smileDetected
      ensures old(livenessVerified) ==> livenessVerified
      ensures old(verificationComplete) ==> verificationComplete
      ensures old(referenceFace).Some? ==> referenceFace == old(referenceFace)
      ensures |detections| > 0 && old(referenceFace).None? ==> referenceFace == Some(detections[0].descriptor)
      ensures !old(verificationComplete) && verificationComplete ==>
        |detections| > 0 && old(referenceFace).Some? && 1.0 - detections[0].distance > SIMILARITY_THRESHOLD
        && livenessVerified
      ensures |detections| == 0 ==>
        && blinkCount == old(blinkCount) && headMovementCount == old(headMovementCount)
        && smileDetected == old(smileDetected) && livenessVerified == old(livenessVerified)
        && identityMatched == old(identityMatched) && verificationComplete == old(verificationComplete)
        && referenceFace == old(referenceFace) && currentInstructionIndex == old(currentInstructionIndex)
        && currentFaceDescriptor == old(currentFaceDescriptor)
      ensures |detections| > 0 ==> FaceChecked(detections[0])
    {
      if |detections| > 0 {
        var detection := detections[0];
        UpdateFaceDetection(true);
        CheckLiveness(detection);
        CheckIdentity(detection.descriptor, detection.distance);
      } else {
        UpdateFaceDetection(false);
      }
    }

    /** Record whether a face is present; the first face moves the
        instructions from 0 to 1. */
    method UpdateFaceDetection(detected: bool)
      requires Valid()
      modifies this`faceDetected, this`currentInstructionIndex
      ensures Valid()
      ensures faceDetected == detected
      ensures currentInstructionIndex
           == if detected && old(currentInstructionIndex) == 0 then 1 else old(currentInstructionIndex)
    {
      faceDetected := detected;
      if detected {
        if currentInstructionIndex == 0 {
          currentInstructionIndex := 1;
        }
      }
    }

    /** Count a closed-eye frame, a smile and a head turn, then mark liveness
        verified when the score exceeds 0.8. A closed-eye frame after more
        than three sets the instruction to 2 even when it was further; the
        score branch raises it back to 5. */
    method CheckLiveness(d: Detection)
      requires Valid() && WellFormed(d)
      modifies this`blinkCount, this`smileDetected, this`headMovementCount, this`livenessVerified,
        this`currentInstructionIndex
      ensures Valid()
      ensures blinkCount == old(blinkCount) + (if EyesClosed(d.leftEye, d.rightEye) then 1 else 0)
      ensures smileDetected == (old(smileDetected) || d.happy > SMILE_CONFIDENCE)
      ensures headMovementCount == old(headMovementCount) + (if Abs(d.yaw) > TURN_DEGREES then 1 else 0)
      ensures livenessVerified == (CalculateLivenessScore() > LIVENESS_THRESHOLD)
      ensures old(livenessVerified) ==> livenessVerified
      ensures currentInstructionIndex
           == if CalculateLivenessScore() > LIVENESS_THRESHOLD then FINAL_INSTRUCTION
              else if EyesClosed(d.leftEye, d.rightEye) && blinkCount > BLINK_INSTRUCTION_AFTER then 2
              else old(currentInstructionIndex)
    {
      if EyesClosed(d.leftEye, d.rightEye) {
        blinkCount := blinkCount + 1;
        if blinkCount > BLINK_INSTRUCTION_AFTER {
          currentInstructionIndex := 2;
        }
      }

      if d.happy > SMILE_CONFIDENCE {
        smileDetected := true;
      }

      if Abs(d.yaw) > TURN_DEGREES {
        headMovementCount := headMovementCount + 1;
      }

      var livenessScore := CalculateLivenessScore();
      if livenessScore > LIVENESS_THRESHOLD {
        UpdateLivenessStatus(true);
        if currentInstructionIndex < FINAL_INSTRUCTION {
          currentInstructionIndex := FINAL_INSTRUCTION;
        }
      }
    }

    /** Keep the first descriptor seen as the reference and match nothing on
        that frame; afterwards the identity matches when the similarity
        1 - distance exceeds 0.6, and a match with liveness verified
        completes the verification. */
    method CheckIdentity(descriptor: Descriptor, distance: real)
      requires Valid()
      modifies this`currentFaceDescriptor, this`referenceFace, this`identityMatched, this`verificationComplete
      ensures Valid()
      ensures currentFaceDescriptor == Some(descriptor)
      ensures old(referenceFace).None? ==>
        && referenceFace == Some(descriptor)
        && identityMatched == old(identityMatched)
        && verificationComplete == old(verificationComplete)
      ensures old(referenceFace).Some? ==>
        && referenceFace == old(referenceFace)
        && identityMatched == (1.0 - distance > SIMILARITY_THRESHOLD)
        && verificationComplete == (old(verificationComplete) || (identityMatched && livenessVerified))
    {
      currentFaceDescriptor := Some(descriptor);

      if referenceFace.None? {
        referenceFace := Some(descriptor);
        return;
      }

      var similarity := 1.0 - distance;
      if similarity > SIMILARITY_THRESHOLD {
        UpdateIdentityStatus(true);
        if livenessVerified {
          CompleteVerification();
        }
      } else {
        UpdateIdentityStatus(false);
      }
    }

    /** Set the liveness flag (the source only ever passes true). */
    method UpdateLivenessStatus(verified: bool)
      modifies this`livenessVerified
      ensures livenessVerified == verified
    {
      livenessVerified := verified;
    }

    method UpdateIdentityStatus(matched: bool)
      modifies this`identityMatched
      ensures identityMatched == matched
    {
      identityMatched := matched;
    }

    /** Mark the verification complete; a second call does nothing. */
    method CompleteVerification()
      modifies this`verificationComplete
      ensures verificationComplete
      ensures old(verificationComplete) ==> unchanged(this)
    {
      if verificationComplete {
        return;
      }
      verificationComplete := true;
    }
  }

  /** A fresh verifier fed one face keeps its descriptor as the reference
      and matches nothing on that frame, whatever its distance; one frame
      cannot verify liveness, so the instructions move from 0 to 1 only. */
  method FirstFaceScenario(d: Detection)
    requires WellFormed(d)
  {
    var verifier := new LivenessVerification();
    verifier.StartDetection([d]);
    assert verifier.faceDetected;
    assert verifier.referenceFace == Some(d.descriptor);
    assert !verifier.identityMatched && !verifier.verificationComplete;
    assert !verifier.livenessVerified && verifier.currentInstructionIndex == 1;
  }
}
