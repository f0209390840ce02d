/** The pure rules of the advanced verifier: the blink run-length rule, the
    head-movement test, the dominant-expression choice, the liveness score,
    the identity confidence and the bounded frame history. The class in
    module AdvancedSystem applies them frame by frame. */
module AdvancedDetectors {
  import opened Common

  // Thresholds of the advanced verifier.
  const FACE_CONFIDENCE: real := 0.5
  const LIVENESS_THRESHOLD: real := 0.4
  const EAR_THRESHOLD: real := 0.25
  /** A closed-eye run of more than BLINK_MIN_FRAMES and fewer than
      BLINK_MAX_FRAMES frames is a blink. */
  const BLINK_MIN_FRAMES: nat := 1
  const BLINK_MAX_FRAMES: nat := 15
  const BLINKS_REQUIRED: nat := 2
  const MOVEMENT_DEGREES: real := 2.0
  const MOVEMENTS_REQUIRED: nat := 1
  const EXPRESSION_CONFIDENCE: real := 0.4
  const STRONG_EXPRESSION: real := 0.6
  const BLINK_WINDOW_MS: int := 15000
  const MOVEMENT_WINDOW_MS: int := 20000
  const EXPRESSION_WINDOW_MS: int := 15000
  const HISTORY_LIMIT: nat := 30
  const REFERENCE_MIN_HISTORY: nat := 10

  // ---------------------------------------------------------------- blinks

  /** The closed-eye run length after a frame whose average EAR is `avgEar`. */
  function ClosureAfter(closedFrames: nat, avgEar: real): (r: nat)
    ensures avgEar < EAR_THRESHOLD ==> r == closedFrames + 1
    ensures avgEar >= EAR_THRESHOLD ==> r == 0
  {
    if avgEar < EAR_THRESHOLD then closedFrames + 1 else 0
  }

  /** Whether a frame whose average EAR is `avgEar`, following a closed-eye
      run of `closedFrames` frames, completes a blink. */
  predicate BlinkCompleted(closedFrames: nat, avgEar: real)
  {
    avgEar >= EAR_THRESHOLD && BLINK_MIN_FRAMES < closedFrames < BLINK_MAX_FRAMES
  }

  /** The blink timestamps a frame appends: one, or none. */
  function BlinkEvents(closedFrames: nat, avgEar: real, now: int): (r: seq<int>)
    ensures |r| <= 1
    ensures r != [] <==> BlinkCompleted(closedFrames, avgEar)
    ensures forall i :: 0 <= i < |r| ==> r[i] == now
  {
    if BlinkCompleted(closedFrames, avgEar) then [now] else []
  }

  function BlinkStamp(t: int): int { t }

  /** The blink list after pruning at time `now`. */
  function RecentBlinks(blinks: seq<int>, now: int): (r: seq<int>)
    ensures forall i :: 0 <= i < |r| ==> now - r[i] < BLINK_WINDOW_MS
  {
    RecentContents(blinks, BlinkStamp, now, BLINK_WINDOW_MS);
    Recent(blinks, BlinkStamp, now, BLINK_WINDOW_MS)
  }

  /** Run the blink detector over a sequence of per-frame average EARs,
      starting from a closed-eye run of `run` frames: the final run length
      and the number of blinks emitted. */
  function FeedBlinks(run: nat, ears: seq<real>): (nat, nat)
  {
    if ears == [] then (run, 0)
    else
      var prev := FeedBlinks(run, ears[..|ears| - 1]);
      var ear := ears[|ears| - 1];
      (ClosureAfter(prev.0, ear), prev.1 + |BlinkEvents(prev.0, ear, 0)|)
  }

  /** While the eyes stay closed the run grows by one per frame and nothing
      is emitted. */
  lemma {:induction false} ClosedRunEmitsNothing(run: nat, ears: seq<real>)
    requires forall i :: 0 <= i < |ears| ==> ears[i] < EAR_THRESHOLD
    ensures FeedBlinks(run, ears) == (run + |ears|, 0)
  {
    if ears != [] {
      ClosedRunEmitsNothing(run, ears[..|ears| - 1]);
    }
  }

  /** A closure of `closed` frames followed by one open frame emits exactly
      one blink when 1 < closed < 15 and none otherwise (a one-frame flicker
      or a long closure), and resets the run. */
  lemma OneBlinkPerClosure(closed: seq<real>, open: real)
    requires forall i :: 0 <= i < |closed| ==> closed[i] < EAR_THRESHOLD
    requires open >= EAR_THRESHOLD
    ensures FeedBlinks(0, closed + [open])
         == (0, if BLINK_MIN_FRAMES < |closed| < BLINK_MAX_FRAMES then 1 else 0)
  {
    var s := closed + [open];
    assert s[..|s| - 1] == closed;
    assert s[|s| - 1] == open;
    ClosedRunEmitsNothing(0, closed);
    assert FeedBlinks(0, s) == (ClosureAfter(|closed|, open), |BlinkEvents(|closed|, open, 0)|);
  }

  // ---------------------------------------------------------- head movement

  datatype HeadPose = HeadPose(yaw: real, pitch: real)

  datatype Movement = Movement(timestamp: int, yawDiff: real, pitchDiff: real)

  /** Whether two consecutive poses differ by more than the movement angle
      in yaw or in pitch. */
  predicate Moved(last: HeadPose, current: HeadPose)
  {
    Abs(current.yaw - last.yaw) > MOVEMENT_DEGREES || Abs(current.pitch - last.pitch) > MOVEMENT_DEGREES
  }

  /** The movement event a frame emits, given the pose of the previous frame. */
  function MovementFrom(last: Option<HeadPose>, current: HeadPose, now: int): (m: Option<Movement>)
    ensures last.None? ==> m.None?
    ensures m.Some? <==> last.Some? && Moved(last.value, current)
    ensures m.Some? ==> m.value.timestamp == now && m.value.yawDiff >= 0.0 && m.value.pitchDiff >= 0.0
    ensures m.Some? ==> m.value.yawDiff > MOVEMENT_DEGREES || m.value.pitchDiff > MOVEMENT_DEGREES
    ensures m.Some? ==> last.Some? && m.value.yawDiff == Abs(current.yaw - last.value.yaw)
                        && m.value.pitchDiff == Abs(current.pitch - last.value.pitch)
  {
    if last.Some? && Moved(last.value, current) then
      Some(Movement(now, Abs(current.yaw - last.value.yaw), Abs(current.pitch - last.value.pitch)))
    else None
  }

  /** Moving from a to b is detected exactly when moving back from b to a
      is, with the same angular differences. */
  lemma MovementSymmetric(a: HeadPose, b: HeadPose, now: int)
    ensures MovementFrom(Some(a), b, now) == MovementFrom(Some(b), a, now)
  {
    assert Abs(b.yaw - a.yaw) == Abs(a.yaw - b.yaw);
    assert Abs(b.pitch - a.pitch) == Abs(a.pitch - b.pitch);
  }

  function MovementStamp(m: Movement): int { m.timestamp }

  /** The movement list after pruning at time `now`. */
  function RecentMovements(moves: seq<Movement>, now: int): (r: seq<Movement>)
    ensures forall i :: 0 <= i < |r| ==> now - r[i].timestamp < MOVEMENT_WINDOW_MS
  {
    RecentContents(moves, MovementStamp, now, MOVEMENT_WINDOW_MS);
    Recent(moves, MovementStamp, now, MOVEMENT_WINDOW_MS)
  }

  // ------------------------------------------------------------ expressions

  /** The expression probabilities of one face, in the key order of the
      detector's result object. */
  type Expressions = seq<(string, real)>

  datatype ExpressionEvent = ExpressionEvent(timestamp: int, expression: string, confidence: real)

  /** The index a left-to-right reduce with `a > b ? a : b` settles on: a
      label of highest confidence, and the last such label on a tie. */
  function DominantIndex(e: Expressions): (k: nat)
    requires |e| > 0
    ensures k < |e|
    ensures forall j :: 0 <= j < |e| ==> e[j].1 <= e[k].1
    ensures forall j :: k < j < |e| ==> e[j].1 < e[k].1
  {
    if |e| == 1 then 0
    else
      var k := DominantIndex(e[..|e| - 1]);
      if e[k].1 > e[|e| - 1].1 then k else |e| - 1
  }

  /** The expression event a frame emits: the dominant label, when its
      confidence is above the expression threshold. */
  function ExpressionEventOf(e: Expressions, now: int): (r: Option<ExpressionEvent>)
    requires |e| > 0
    ensures r.Some? <==> exists j :: 0 <= j < |e| && e[j].1 > EXPRESSION_CONFIDENCE
    ensures r.Some? ==> r.value.timestamp == now && r.value.confidence > EXPRESSION_CONFIDENCE
    ensures r.Some? ==> exists j :: 0 <= j < |e| && e[j] == (r.value.expression, r.value.confidence)
    ensures r.Some? ==> forall j :: 0 <= j < |e| ==> e[j].1 <= r.value.confidence
  {
    var k := DominantIndex(e);
    if e[k].1 > EXPRESSION_CONFIDENCE then Some(ExpressionEvent(now, e[k].0, e[k].1)) else None
  }

  /** On a tie the event carries the last of the labels of maximal
      confidence: the one it carries comes after every other label that
      reaches its confidence. */
  lemma ExpressionEventIsLastMaximum(e: Expressions, now: int)
    requires |e| > 0 && ExpressionEventOf(e, now).Some?
    ensures var ev := ExpressionEventOf(e, now).value;
      exists j :: 0 <= j < |e| && e[j] == (ev.expression, ev.confidence)
                 && forall i :: j < i < |e| ==> e[i].1 < ev.confidence
  {
    var k := DominantIndex(e);
    assert e[k] == (ExpressionEventOf(e, now).value.expression, ExpressionEventOf(e, now).value.confidence);
  }

  /** Whether an emitted expression event passes the expression step. */
  predicate PassesExpressionStep(ev: ExpressionEvent)
  {
    ev.expression == "happy" || ev.expression == "surprised" || ev.confidence > STRONG_EXPRESSION
  }

  function ExpressionStamp(ev: ExpressionEvent): int { ev.timestamp }

  /** The expression list after pruning at time `now`. */
  function RecentExpressions(events: seq<ExpressionEvent>, now: int): (r: seq<ExpressionEvent>)
    ensures forall i :: 0 <= i < |r| ==> now - r[i].timestamp < EXPRESSION_WINDOW_MS
  {
    RecentContents(events, ExpressionStamp, now, EXPRESSION_WINDOW_MS);
    Recent(events, ExpressionStamp, now, EXPRESSION_WINDOW_MS)
  }

  // ---------------------------------------------------------- liveness score

  function BlinkPoints(blinks: nat): real
  {
    if blinks >= 2 then 0.30 else if blinks >= 1 then 0.20 else 0.0
  }

  /** The liveness score: 30% for blinks (20% for a single one), 30% for a
      head movement, 20% for an expression, 20% of the quality signal,
      capped at 1. */
  function LivenessScore(blinks: nat, moves: nat, expressions: nat, quality: real): (r: real)
    ensures r <= 1.0
    ensures 0.0 <= quality ==> 0.0 <= r
  {
    var score := BlinkPoints(blinks) + (if moves >= 1 then 0.30 else 0.0)
      + (if expressions >= 1 then 0.20 else 0.0) + quality * 0.20;
    if score < 1.0 then score else 1.0
  }

  /** With a quality signal in [0.7, 1], the score passes the liveness
      threshold exactly when there are two blinks, or a head movement, or a
      blink together with an expression: one blink alone, or one expression
      alone, never does. */
  lemma LivenessGate(blinks: nat, moves: nat, expressions: nat, quality: real)
    requires 0.7 <= quality <= 1.0
    ensures LivenessScore(blinks, moves, expressions, quality) > LIVENESS_THRESHOLD
        <==> blinks >= 2 || moves >= 1 || (blinks >= 1 && expressions >= 1)
  {
  }

  // ------------------------------------------------------------------ steps

  /** The step after the face-detection check: a face above the detection
      confidence passes step 1. */
  function FaceStep(step: int, score: real): int
  {
    if step == 1 && score > FACE_CONFIDENCE then 2 else step
  }

  /** Whether a frame passes the blink check: it completes a blink, and with
      it the recorded blinks (`blinks` before the frame) reach two. */
  predicate BlinkStepPassed(closedFrames: nat, avgEar: real, blinks: nat)
  {
    BlinkCompleted(closedFrames, avgEar) && blinks + 1 >= BLINKS_REQUIRED
  }

  /** Whether the frame's expression event passes the expression step. */
  predicate ExpressionStepPassed(expressions: Expressions, now: int)
    requires |expressions| > 0
  {
    var ev := ExpressionEventOf(expressions, now);
    ev.Some? && PassesExpressionStep(ev.value)
  }

  /** The step after the liveness checks of one frame, applied in the order
      the frame runs them, each check seeing the step the previous one left:
      blinks (2 to 3), head movement (3 to 4), expression (4 to 5), score
      (5 to 6). Each flag says whether that check held on the frame. */
  function StepAfterChecks(step: int, blinked: bool, moved: bool, expressed: bool, live: bool): (r: int)
    // a step is only ever passed forward, and never beyond 6
    ensures r == step || 2 <= step < r <= 6
    // a step is passed only when its own check held on this frame
    ensures step <= 2 < r ==> blinked
    ensures step <= 3 < r ==> moved
    ensures step <= 4 < r ==> expressed
    ensures step <= 5 < r ==> live
    // and a step whose check held is passed
    ensures step == 2 && blinked ==> r >= 3
    ensures step == 3 && moved ==> r >= 4
    ensures step == 4 && expressed ==> r >= 5
    ensures step == 5 && live ==> r == 6
  {
    var afterBlinks := if step == 2 && blinked then 3 else step;
    var afterMovement := if afterBlinks == 3 && moved then 4 else afterBlinks;
    var afterExpression := if afterMovement == 4 && expressed then 5 else afterMovement;
    if afterExpression == 5 && live then 6 else afterExpression
  }

  /** One frame can pass several steps: a second blink completed together
      with a head movement takes step 2 to step 4, even with no expression
      and a low score. */
  lemma CascadeTwoToFour(now: int)
    ensures StepAfterChecks(2, BlinkStepPassed(3, 0.9, 1),
                            MovementFrom(Some(HeadPose(0.0, 0.0)), HeadPose(10.0, 0.0), now).Some?,
                            ExpressionStepPassed([("neutral", 0.3)], now),
                            0.3 > LIVENESS_THRESHOLD) == 4
  {
    assert BlinkStepPassed(3, 0.9, 1);
    assert MovementFrom(Some(HeadPose(0.0, 0.0)), HeadPose(10.0, 0.0), now).Some?;
    assert !ExpressionStepPassed([("neutral", 0.3)], now);
  }

  /** A frame stops at the first check that fails: with every check
      holding, step 2 becomes 6, and a failed blink check keeps step 2 even
      when all later checks hold. */
  lemma CascadeStopsAtFirstFailure(moved: bool, expressed: bool, live: bool)
    ensures StepAfterChecks(2, true, true, true, true) == 6
    ensures StepAfterChecks(2, false, moved, expressed, live) == 2
  {
  }

  // --------------------------------------------------------------- identity

  /** The identity confidence for a descriptor distance: max(0, 1 - d). */
  function IdentityConfidence(distance: real): (c: real)
    ensures c >= 0.0 && c >= 1.0 - distance
    ensures c == 0.0 || c == 1.0 - distance
    ensures distance >= 0.0 ==> c <= 1.0
    ensures distance == 0.0 ==> c == 1.0
    ensures distance >= 1.0 ==> c == 0.0
  {
    if 1.0 - distance > 0.0 then 1.0 - distance else 0.0
  }

  // ---------------------------------------------------------------- history

  /** Append `x` and, when that overflows the limit, drop the oldest entry. */
  function PushBounded<T>(h: seq<T>, x: T): (r: seq<T>)
    ensures |r| > 0 && r[|r| - 1] == x
    ensures |h| <= HISTORY_LIMIT ==> |r| <= HISTORY_LIMIT
    ensures |h| < HISTORY_LIMIT ==> r == h + [x]
    ensures |h| >= HISTORY_LIMIT ==> r == h[1..] + [x]
  {
    var pushed := h + [x];
    if |pushed| > HISTORY_LIMIT then pushed[1..] else pushed
  }
}
