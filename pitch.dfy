/** Python's int() on a number, and the scaling of a normalized pitch into a band. */
module Pitch {

  /** int(x) for a float x: truncation toward zero. */
  function Trunc(x: real): (r: int)
    ensures 0.0 <= x ==> r as real <= x < r as real + 1.0
    ensures x < 0.0 ==> r as real - 1.0 < x <= r as real
  {
    if x >= 0.0 then x.Floor else -((-x).Floor)
  }

  /** True when x has no fractional part. */
  predicate IsIntegral(x: real) {
    x.Floor as real == x
  }

  /** int(min_pitch + normalized_pitch * pitch_range), shared by every mapper. */
  function Scale(minPitch: real, pitchRange: real, p: real): int {
    Trunc(minPitch + p * pitchRange)
  }

  /** int(x) == x exactly when x has no fractional part. */
  lemma TruncExact(x: real)
    ensures Trunc(x) as real == x <==> IsIntegral(x)
  {
    if x < 0.0 && IsIntegral(x) {
      assert (-x).Floor == -(x.Floor);
    }
  }

  /** Adding one keeps a number integral or not. */
  lemma IntegralShift(x: real)
    ensures IsIntegral(x + 1.0) <==> IsIntegral(x)
  {
    assert (x + 1.0).Floor == x.Floor + 1;
  }

  lemma TruncMonotone(x: real, y: real)
    requires x <= y
    ensures Trunc(x) <= Trunc(y)
  {
  }

  /** A normalized pitch in [0,1] lands between the truncated ends of the band. */
  lemma ScaleBounds(minPitch: real, pitchRange: real, p: real)
    requires 0.0 <= p <= 1.0 && pitchRange >= 0.0
    ensures Trunc(minPitch) <= Scale(minPitch, pitchRange, p) <= Trunc(minPitch + pitchRange)
  {
    assert p * pitchRange <= pitchRange by {
      assert (1.0 - p) * pitchRange >= 0.0;
    }
    assert 0.0 <= p * pitchRange;
    TruncMonotone(minPitch, minPitch + p * pitchRange);
    TruncMonotone(minPitch + p * pitchRange, minPitch + pitchRange);
  }

  /** A normalized pitch below 1 stays below the top of a non-negative band. */
  lemma ScaleBelowTop(minPitch: real, pitchRange: real, p: real)
    requires 0.0 <= p < 1.0 && pitchRange > 0.0 && minPitch >= 0.0
    ensures minPitch.Floor <= Scale(minPitch, pitchRange, p)
    ensures (Scale(minPitch, pitchRange, p) as real) < minPitch + pitchRange
  {
    var q := p * pitchRange;
    assert q < pitchRange by {
      assert pitchRange - q == (1.0 - p) * pitchRange;
      assert (1.0 - p) * pitchRange > 0.0;
    }
    assert 0.0 <= q;
    var x := minPitch + q;
    TruncMonotone(minPitch, x);
    assert 0.0 <= x < minPitch + pitchRange;
  }

  /** The ends of the normalized interval map to the truncated ends of the band. */
  lemma ScaleEnds(minPitch: real, pitchRange: real)
    ensures Scale(minPitch, pitchRange, 0.0) == Trunc(minPitch)
    ensures Scale(minPitch, pitchRange, 1.0) == Trunc(minPitch + pitchRange)
  {
  }
}
