/** The pure rules of the basic verifier (LivenessVerification): its
    simplified eye aspect ratio over eye landmarks and the properties that
    make it a ratio. */
module LivenessRules {
  import opened Common

  // Thresholds of the basic verifier.
  const CLOSED_EYE_RATIO: real := 0.2
  const SMILE_CONFIDENCE: real := 0.7
  const TURN_DEGREES: real := 15.0
  const BLINKS_REQUIRED: nat := 3
  const TURNS_REQUIRED: nat := 2
  const LIVENESS_THRESHOLD: real := 0.8
  const SIMILARITY_THRESHOLD: real := 0.6
  /** The instruction shown once more than this many closed-eye frames were seen. */
  const BLINK_INSTRUCTION_AFTER: nat := 3

  datatype Point = Point(x: real, y: real)

  /** The six landmarks of one eye: 0 and 3 are the corners, 1 and 5 the
      upper and lower lid points used for the height. */
  predicate IsEye(eye: seq<Point>)
  {
    |eye| == 6
  }

  function Height(eye: seq<Point>): real
    requires IsEye(eye)
  {
    Abs(eye[1].y - eye[5].y)
  }

  function Width(eye: seq<Point>): real
    requires IsEye(eye)
  {
    Abs(eye[0].x - eye[3].x)
  }

  /** The mean of height/width over both eyes. When a width is zero the
      source divides by zero and obtains Infinity or NaN, neither of which
      is below any threshold; that case is None here. */
  function EyeAspectRatio(left: seq<Point>, right: seq<Point>): (r: Option<real>)
    requires IsEye(left) && IsEye(right)
    ensures r.None? <==> left[0].x == left[3].x || right[0].x == right[3].x
    ensures r.Some? ==> r.value >= 0.0
  {
    if Width(left) == 0.0 || Width(right) == 0.0 then None
    else Some((EyeRatio(left) + EyeRatio(right)) / 2.0)
  }

  /** Height over width of one eye. */
  function EyeRatio(eye: seq<Point>): real
    requires IsEye(eye) && Width(eye) != 0.0
  {
    Height(eye) / Width(eye)
  }

  /** Whether a frame counts as a closed-eye frame. */
  predicate EyesClosed(left: seq<Point>, right: seq<Point>)
    requires IsEye(left) && IsEye(right)
  {
    var r := EyeAspectRatio(left, right);
    r.Some? && r.value < CLOSED_EYE_RATIO
  }

  function Scale(eye: seq<Point>, k: real): (r: seq<Point>)
    ensures |r| == |eye|
    ensures forall i :: 0 <= i < |eye| ==> r[i] == Point(k * eye[i].x, k * eye[i].y)
  {
    seq(|eye|, i requires 0 <= i < |eye| => Point(k * eye[i].x, k * eye[i].y))
  }

  function Translate(eye: seq<Point>, dx: real, dy: real): (r: seq<Point>)
    ensures |r| == |eye|
    ensures forall i :: 0 <= i < |eye| ==> r[i] == Point(eye[i].x + dx, eye[i].y + dy)
  {
    seq(|eye|, i requires 0 <= i < |eye| => Point(eye[i].x + dx, eye[i].y + dy))
  }

  /** Scaling both ends of a segment scales its length by |k|. */
  lemma ScaledDistance(k: real, a: real, b: real)
    ensures Abs(k * a - k * b) == Abs(k) * Abs(a - b)
  {
    assert k * a - k * b == k * (a - b);
    var v := a - b;
    if k < 0.0 && v < 0.0 {
      assert k * v == (-k) * (-v);
    } else if k < 0.0 {
      assert -(k * v) == (-k) * v;
    } else if v < 0.0 {
      assert -(k * v) == k * (-v);
    }
  }

  /** A ratio is unchanged when both of its terms are multiplied by the
      same positive factor. */
  lemma RatioScale(c: real, h: real, w: real)
    requires c > 0.0 && w != 0.0
    ensures (c * h) / (c * w) == h / w
  {
    assert c * h == (h / w) * (c * w);
  }

  /** Multiplying both terms of a ratio by the same positive factor keeps a
      zero denominator zero, a nonzero one nonzero, and the ratio itself. */
  lemma ScaledRatio(c: real, h: real, w: real, scaledH: real, scaledW: real)
    requires c > 0.0 && scaledH == c * h && scaledW == c * w
    ensures scaledW == 0.0 <==> w == 0.0
    ensures w != 0.0 ==> scaledH / scaledW == h / w
  {
    if scaledW == 0.0 {
      assert w == scaledW / c;
    }
    if w != 0.0 {
      RatioScale(c, h, w);
    }
  }

  /** Scaling an eye multiplies its height by |k|. */
  lemma HeightScale(eye: seq<Point>, k: real)
    requires IsEye(eye)
    ensures IsEye(Scale(eye, k)) && Height(Scale(eye, k)) == Abs(k) * Height(eye)
  {
    var s := Scale(eye, k);
    assert s[1].y == k * eye[1].y && s[5].y == k * eye[5].y;
    ScaledDistance(k, eye[1].y, eye[5].y);
  }

  /** Scaling an eye multiplies its width by |k|. */
  lemma WidthScale(eye: seq<Point>, k: real)
    requires IsEye(eye)
    ensures IsEye(Scale(eye, k)) && Width(Scale(eye, k)) == Abs(k) * Width(eye)
  {
    var s := Scale(eye, k);
    assert s[0].x == k * eye[0].x && s[3].x == k * eye[3].x;
    ScaledDistance(k, eye[0].x, eye[3].x);
  }

  /** Scaling an eye by a nonzero factor keeps a zero width zero and a
      nonzero width nonzero. */
  lemma EyeWidthScale(eye: seq<Point>, k: real)
    requires IsEye(eye) && k != 0.0
    ensures IsEye(Scale(eye, k))
    ensures Width(Scale(eye, k)) == 0.0 <==> Width(eye) == 0.0
  {
    WidthScale(eye, k);
    var c := Abs(k);
    if Width(Scale(eye, k)) == 0.0 {
      assert Width(eye) == Width(Scale(eye, k)) / c;
    }
  }

  /** Scaling an eye by a nonzero factor leaves its ratio unchanged. */
  lemma EyeRatioScale(eye: seq<Point>, k: real)
    requires IsEye(eye) && k != 0.0 && Width(eye) != 0.0
    ensures IsEye(Scale(eye, k)) && Width(Scale(eye, k)) != 0.0
    ensures EyeRatio(Scale(eye, k)) == EyeRatio(eye)
  {
    HeightScale(eye, k);
    WidthScale(eye, k);
    ProportionalEyes(eye, Scale(eye, k), Abs(k));
  }

  /** Two eyes whose heights and widths are in the same positive proportion
      have the same ratio. */
  lemma ProportionalEyes(a: seq<Point>, b: seq<Point>, c: real)
    requires IsEye(a) && IsEye(b) && c > 0.0 && Width(a) != 0.0
    requires Height(b) == c * Height(a) && Width(b) == c * Width(a)
    ensures Width(b) != 0.0 && EyeRatio(b) == EyeRatio(a)
  {
    ScaledRatio(c, Height(a), Width(a), Height(b), Width(b));
  }

  /** The eye aspect ratio is unchanged when every landmark coordinate is
      multiplied by the same nonzero factor (the face moving closer to or
      away from the camera). */
  lemma EyeAspectRatioScaleInvariant(left: seq<Point>, right: seq<Point>, k: real)
    requires IsEye(left) && IsEye(right) && k != 0.0
    ensures IsEye(Scale(left, k)) && IsEye(Scale(right, k))
    ensures EyeAspectRatio(Scale(left, k), Scale(right, k)) == EyeAspectRatio(left, right)
  {
    EyeWidthScale(left, k);
    EyeWidthScale(right, k);
    if Width(left) != 0.0 && Width(right) != 0.0 {
      EyeRatioScale(left, k);
      EyeRatioScale(right, k);
    }
  }

  /** The eye aspect ratio is unchanged when every landmark is shifted by
      the same offset (the face moving across the image). */
  lemma EyeAspectRatioTranslationInvariant(left: seq<Point>, right: seq<Point>, dx: real, dy: real)
    requires IsEye(left) && IsEye(right)
    ensures IsEye(Translate(left, dx, dy)) && IsEye(Translate(right, dx, dy))
    ensures EyeAspectRatio(Translate(left, dx, dy), Translate(right, dx, dy)) == EyeAspectRatio(left, right)
  {
    var l, r := Translate(left, dx, dy), Translate(right, dx, dy);
    assert l[1].y - l[5].y == left[1].y - left[5].y && l[0].x - l[3].x == left[0].x - left[3].x;
    assert r[1].y - r[5].y == right[1].y - right[5].y && r[0].x - r[3].x == right[0].x - right[3].x;
  }
}
