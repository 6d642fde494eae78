/**
 * Ball detection (ball_tracker.py, `process_image`): the colour threshold that
 * turns a BGR frame into a 0/255 mask (cv2.inRange), the image moments of that
 * mask (cv2.moments) and the pixel count of the control loop (np.sum of the
 * cells equal to 255).
 *
 * Two views are kept apart on purpose. The mask-side functions compute what the
 * code computes: sums of cell intensities (0 or 255) weighted by coordinates.
 * The frame-side functions say what those numbers mean: how many pixels have
 * the ball colour, and the sums of their columns and rows. The lemmas connect
 * the two, so that the centroid stored by the tracker is the mean position of
 * the ball-coloured pixels.
 */
module Detection {

  /** One 8-bit colour channel, as produced by the bgr8 decoder. */
  type Channel = c: int | 0 <= c <= 255

  /** A pixel in OpenCV's blue, green, red channel order. */
  datatype Pixel = Pixel(b: Channel, g: Channel, r: Channel)

  /** A decoded camera frame: a sequence of rows (index y), each a sequence of pixels (index x). */
  type Frame = seq<seq<Pixel>>

  /** A single-channel image; inRange fills it with 0 and 255 only. */
  type Mask = seq<seq<int>>

  /** Inclusive colour bounds of the ball, as (blue, green, red) triples. */
  const BallLower: Pixel := Pixel(0, 0, 60)
  const BallUpper: Pixel := Pixel(50, 50, 255)

  /** Every channel of `p` lies within the inclusive bounds `lo`..`hi`. */
  predicate InRange(p: Pixel, lo: Pixel, hi: Pixel) {
    lo.b <= p.b <= hi.b && lo.g <= p.g <= hi.g && lo.r <= p.r <= hi.r
  }

  /** cv2.inRange applied to one row: 255 where the pixel is in range, 0 elsewhere. */
  function InRangeRow(row: seq<Pixel>, lo: Pixel, hi: Pixel): seq<int> {
    seq(|row|, x requires 0 <= x < |row| => if InRange(row[x], lo, hi) then 255 else 0)
  }

  /** cv2.inRange applied to a whole frame. */
  function InRangeMask(frame: Frame, lo: Pixel, hi: Pixel): seq<seq<int>> {
    seq(|frame|, y requires 0 <= y < |frame| => InRangeRow(frame[y], lo, hi))
  }

  /** The binary image of the ball colour: the mask of ball_tracker.py:37. */
  function BallMask(frame: Frame): (m: Mask)
    ensures |m| == |frame|
    ensures forall y :: 0 <= y < |frame| ==> |m[y]| == |frame[y]|
    ensures forall y, x :: 0 <= y < |frame| && 0 <= x < |frame[y]| ==>
      var p := frame[y][x];
      (m[y][x] == 255 <==> 0 <= p.b <= 50 && 0 <= p.g <= 50 && 60 <= p.r <= 255) &&
      (m[y][x] == 0 <==> !(0 <= p.b <= 50 && 0 <= p.g <= 50 && 60 <= p.r <= 255))
  {
    InRangeMask(frame, BallLower, BallUpper)
  }

  // ---------------------------------------------------------------------------
  // What the code computes: moments and the white-pixel count of a mask.
  // Each is a sum over a prefix (the first n cells of a row, the first k rows).

  /** Sum of the first `n` intensities of a row. */
  function RowMass(row: seq<int>, n: nat): int
    requires n <= |row|
  {
    if n == 0 then 0 else RowMass(row, n - 1) + row[n - 1]
  }

  /** Sum of x * intensity over the first `n` cells of a row. */
  function RowMomentX(row: seq<int>, n: nat): int
    requires n <= |row|
  {
    if n == 0 then 0 else RowMomentX(row, n - 1) + (n - 1) * row[n - 1]
  }

  /** Number of cells equal to 255 among the first `n` cells of a row. */
  function RowWhite(row: seq<int>, n: nat): nat
    requires n <= |row|
  {
    if n == 0 then 0 else RowWhite(row, n - 1) + (if row[n - 1] == 255 then 1 else 0)
  }

  /** m00 over the first `k` rows. */
  function MassUpTo(m: Mask, k: nat): int
    requires k <= |m|
  {
    if k == 0 then 0 else MassUpTo(m, k - 1) + RowMass(m[k - 1], |m[k - 1]|)
  }

  /** m10 over the first `k` rows. */
  function MomentXUpTo(m: Mask, k: nat): int
    requires k <= |m|
  {
    if k == 0 then 0 else MomentXUpTo(m, k - 1) + RowMomentX(m[k - 1], |m[k - 1]|)
  }

  /** m01 over the first `k` rows. */
  function MomentYUpTo(m: Mask, k: nat): int
    requires k <= |m|
  {
    if k == 0 then 0 else MomentYUpTo(m, k - 1) + (k - 1) * RowMass(m[k - 1], |m[k - 1]|)
  }

  /** Cells equal to 255 over the first `k` rows. */
  function WhiteUpTo(m: Mask, k: nat): nat
    requires k <= |m|
  {
    if k == 0 then 0 else WhiteUpTo(m, k - 1) + RowWhite(m[k - 1], |m[k - 1]|)
  }

  /** The three raw moments the tracker reads from cv2.moments. */
  datatype Moments = Moments(m00: int, m10: int, m01: int)

  function ImageMoments(m: Mask): Moments {
    Moments(MassUpTo(m, |m|), MomentXUpTo(m, |m|), MomentYUpTo(m, |m|))
  }

  /** `np.sum(binary_image == 255)`. */
  function WhitePixels(m: Mask): nat {
    WhiteUpTo(m, |m|)
  }

  // ---------------------------------------------------------------------------
  // What those numbers mean: the ball-coloured pixels of the frame.

  /** The colour test of ball_tracker.py:37 written out channel by channel. */
  predicate IsBallColour(p: Pixel) {
    0 <= p.b <= 50 && 0 <= p.g <= 50 && 60 <= p.r <= 255
  }

  /** Ball-coloured pixels among the first `n` of a row. */
  function RowMatches(row: seq<Pixel>, n: nat): nat
    requires n <= |row|
  {
    if n == 0 then 0 else RowMatches(row, n - 1) + (if IsBallColour(row[n - 1]) then 1 else 0)
  }

  /** Sum of the columns of the ball-coloured pixels among the first `n` of a row. */
  function RowColumnSum(row: seq<Pixel>, n: nat): nat
    requires n <= |row|
  {
    if n == 0 then 0 else RowColumnSum(row, n - 1) + (if IsBallColour(row[n - 1]) then n - 1 else 0)
  }

  function MatchesUpTo(frame: Frame, k: nat): nat
    requires k <= |frame|
  {
    if k == 0 then 0 else MatchesUpTo(frame, k - 1) + RowMatches(frame[k - 1], |frame[k - 1]|)
  }

  function ColumnSumUpTo(frame: Frame, k: nat): nat
    requires k <= |frame|
  {
    if k == 0 then 0 else ColumnSumUpTo(frame, k - 1) + RowColumnSum(frame[k - 1], |frame[k - 1]|)
  }

  function RowSumUpTo(frame: Frame, k: nat): nat
    requires k <= |frame|
  {
    if k == 0 then 0 else RowSumUpTo(frame, k - 1) + (k - 1) * RowMatches(frame[k - 1], |frame[k - 1]|)
  }

  /** Number of ball-coloured pixels in the frame. */
  function MatchCount(frame: Frame): nat {
    MatchesUpTo(frame, |frame|)
  }

  /** Mean column of the ball-coloured pixels. */
  function MeanX(frame: Frame): real
    requires MatchCount(frame) > 0
  {
    ColumnSumUpTo(frame, |frame|) as real / MatchCount(frame) as real
  }

  /** Mean row of the ball-coloured pixels. */
  function MeanY(frame: Frame): real
    requires MatchCount(frame) > 0
  {
    RowSumUpTo(frame, |frame|) as real / MatchCount(frame) as real
  }

  // ---------------------------------------------------------------------------
  // Lemmas connecting the two views.

  /** On one row of the ball mask, mass, x-moment and white count are 255, 255 and 1 per ball pixel. */
  lemma {:induction false} RowMomentsOfBallMask(row: seq<Pixel>, n: nat)
    requires n <= |row|
    ensures var mr := InRangeRow(row, BallLower, BallUpper);
      RowMass(mr, n) == 255 * RowMatches(row, n) &&
      RowMomentX(mr, n) == 255 * RowColumnSum(row, n) &&
      RowWhite(mr, n) == RowMatches(row, n)
  {
    if n > 0 {
      RowMomentsOfBallMask(row, n - 1);
    }
  }

  /** Over the first `k` rows, the moments of the ball mask are 255 times the frame-side sums. */
  lemma {:induction false} MomentsOfBallMaskUpTo(frame: Frame, k: nat)
    requires k <= |frame|
    ensures var m := BallMask(frame);
      MassUpTo(m, k) == 255 * MatchesUpTo(frame, k) &&
      MomentXUpTo(m, k) == 255 * ColumnSumUpTo(frame, k) &&
      MomentYUpTo(m, k) == 255 * RowSumUpTo(frame, k) &&
      WhiteUpTo(m, k) == MatchesUpTo(frame, k)
  {
    if k > 0 {
      MomentsOfBallMaskUpTo(frame, k - 1);
      var row := frame[k - 1];
      RowMomentsOfBallMask(row, |row|);
      assert BallMask(frame)[k - 1] == InRangeRow(row, BallLower, BallUpper);
      var c := RowMatches(row, |row|);
      assert (k - 1) * (255 * c) == 255 * ((k - 1) * c);
    }
  }

  /**
   * The moments of the ball mask, and its count of 255-cells, in terms of the
   * ball-coloured pixels of the frame: m00 = 255 * count, m10 = 255 * (sum of
   * columns), m01 = 255 * (sum of rows), and the white-pixel count is the count.
   */
  lemma BallMaskMoments(frame: Frame)
    ensures ImageMoments(BallMask(frame)) ==
      Moments(255 * MatchCount(frame), 255 * ColumnSumUpTo(frame, |frame|), 255 * RowSumUpTo(frame, |frame|))
    ensures WhitePixels(BallMask(frame)) == MatchCount(frame)
  {
    MomentsOfBallMaskUpTo(frame, |frame|);
  }

  /**
   * The centroid of ball_tracker.py:39-40 exists exactly when some pixel has the
   * ball colour, and then it is the mean column and mean row of those pixels.
   */
  lemma CentroidIsMean(frame: Frame)
    ensures var mo := ImageMoments(BallMask(frame));
      (mo.m00 != 0 <==> MatchCount(frame) > 0) &&
      (mo.m00 != 0 ==>
        mo.m10 as real / mo.m00 as real == MeanX(frame) &&
        mo.m01 as real / mo.m00 as real == MeanY(frame))
  {
    BallMaskMoments(frame);
    if MatchCount(frame) > 0 {
      var c := MatchCount(frame) as real;
      ScaledRatio(ColumnSumUpTo(frame, |frame|) as real, c);
      ScaledRatio(RowSumUpTo(frame, |frame|) as real, c);
    }
  }

  /** A common factor of 255 cancels in a ratio. */
  lemma ScaledRatio(a: real, c: real)
    requires c > 0.0
    ensures (255.0 * a) / (255.0 * c) == a / c
  {
  }

  /** In a row whose first `n` cells all lie in columns below `w`, the column sum is at most (w - 1) per ball pixel. */
  lemma {:induction false} RowColumnSumBound(row: seq<Pixel>, n: nat, w: int)
    requires n <= |row| && n <= w
    ensures RowColumnSum(row, n) <= (w - 1) * RowMatches(row, n)
  {
    if n > 0 {
      RowColumnSumBound(row, n - 1, w);
      Distribute(w - 1, RowMatches(row, n - 1), 1);
    }
  }

  /** Over the first `k` rows of a frame no wider than `w`, the column sum is at most (w - 1) per ball pixel. */
  lemma {:induction false} ColumnSumBound(frame: Frame, k: nat, w: int)
    requires k <= |frame|
    requires forall y :: 0 <= y < |frame| ==> |frame[y]| <= w
    ensures ColumnSumUpTo(frame, k) <= (w - 1) * MatchesUpTo(frame, k)
  {
    if k > 0 {
      ColumnSumBound(frame, k - 1, w);
      var row := frame[k - 1];
      RowColumnSumBound(row, |row|, w);
      Distribute(w - 1, MatchesUpTo(frame, k - 1), RowMatches(row, |row|));
    }
  }

  /** Over the first `k` rows of a frame of height `h`, the row sum is at most (h - 1) per ball pixel. */
  lemma {:induction false} RowSumBound(frame: Frame, k: nat, h: int)
    requires k <= |frame| && k <= h
    ensures RowSumUpTo(frame, k) <= (h - 1) * MatchesUpTo(frame, k)
  {
    if k > 0 {
      RowSumBound(frame, k - 1, h);
      var row := frame[k - 1];
      var d := RowMatches(row, |row|);
      Distribute(h - 1, MatchesUpTo(frame, k - 1), d);
      Distribute(d, k - 1, h - k);
      NonNegativeProduct(h - k, d);
    }
  }

  lemma Distribute(a: int, c: int, d: int)
    ensures a * (c + d) == a * c + a * d
    ensures (c + d) * a == c * a + d * a
  {
  }

  lemma NonNegativeProduct(a: int, b: int)
    requires a >= 0 && b >= 0
    ensures a * b >= 0
  {
  }

  /** A non-negative integer sum of at most b per item averages to a value within [0, b]. */
  lemma MeanWithin(s: int, c: int, b: int)
    requires c > 0 && 0 <= s <= b * c
    ensures 0.0 <= s as real / c as real <= b as real
  {
    assert s as real <= (b as real) * (c as real);
  }

  /**
   * The centroid lies inside the frame: for a frame whose rows are at most `w`
   * pixels wide, 0 <= mean column <= w - 1 and 0 <= mean row <= height - 1.
   */
  lemma CentroidInFrame(frame: Frame, w: int)
    requires forall y :: 0 <= y < |frame| ==> |frame[y]| <= w
    requires MatchCount(frame) > 0
    ensures 0.0 <= MeanX(frame) <= (w - 1) as real
    ensures 0.0 <= MeanY(frame) <= (|frame| - 1) as real
  {
    ColumnSumBound(frame, |frame|, w);
    RowSumBound(frame, |frame|, |frame|);
    MeanWithin(ColumnSumUpTo(frame, |frame|), MatchCount(frame), w - 1);
    MeanWithin(RowSumUpTo(frame, |frame|), MatchCount(frame), |frame| - 1);
  }

  /** A row has a ball-coloured pixel among its first `n` exactly when its match count is positive. */
  lemma {:induction false} RowMatchesPositive(row: seq<Pixel>, n: nat)
    requires n <= |row|
    ensures RowMatches(row, n) > 0 <==> exists x :: 0 <= x < n && IsBallColour(row[x])
  {
    if n > 0 {
      RowMatchesPositive(row, n - 1);
    }
  }

  /** The first `k` rows hold a ball-coloured pixel exactly when their match count is positive. */
  lemma {:induction false} MatchesPositive(frame: Frame, k: nat)
    requires k <= |frame|
    ensures MatchesUpTo(frame, k) > 0 <==>
      exists y, x :: 0 <= y < k && 0 <= x < |frame[y]| && IsBallColour(frame[y][x])
  {
    if k > 0 {
      MatchesPositive(frame, k - 1);
      RowMatchesPositive(frame[k - 1], |frame[k - 1]|);
    }
  }

  /**
   * The count is zero, and hence (CentroidIsMean) m00 is zero and no centroid is
   * computed, exactly when no pixel of the frame has the ball colour.
   */
  lemma NoBallColourNoCentroid(frame: Frame)
    ensures MatchCount(frame) == 0 <==>
      forall y, x :: 0 <= y < |frame| && 0 <= x < |frame[y]| ==> !IsBallColour(frame[y][x])
  {
    MatchesPositive(frame, |frame|);
  }

  /** A 4 by 4 dark frame whose only ball-coloured pixels are (1, 1) and (3, 1): two pixels, centroid (2, 1). */
  lemma TwoPixelExample()
    ensures var k := Pixel(0, 0, 0); var r := Pixel(0, 0, 255);
      var f := [[k, k, k, k], [k, r, k, r], [k, k, k, k], [k, k, k, k]];
      MatchCount(f) == 2 && MeanX(f) == 2.0 && MeanY(f) == 1.0
  {
    var k := Pixel(0, 0, 0); var r := Pixel(0, 0, 255);
    var dark, hit := [k, k, k, k], [k, r, k, r];
    var f := [dark, hit, dark, dark];
    assert RowMatches(dark, 1) == 0 && RowColumnSum(dark, 1) == 0;
    assert RowMatches(dark, 2) == 0 && RowColumnSum(dark, 2) == 0;
    assert RowMatches(dark, 3) == 0 && RowColumnSum(dark, 3) == 0;
    assert RowMatches(dark, 4) == 0 && RowColumnSum(dark, 4) == 0;
    assert RowMatches(hit, 1) == 0 && RowColumnSum(hit, 1) == 0;
    assert RowMatches(hit, 2) == 1 && RowColumnSum(hit, 2) == 1;
    assert RowMatches(hit, 3) == 1 && RowColumnSum(hit, 3) == 1;
    assert RowMatches(hit, 4) == 2 && RowColumnSum(hit, 4) == 4;
    assert MatchesUpTo(f, 1) == 0 && ColumnSumUpTo(f, 1) == 0 && RowSumUpTo(f, 1) == 0;
    assert MatchesUpTo(f, 2) == 2 && ColumnSumUpTo(f, 2) == 4 && RowSumUpTo(f, 2) == 2;
    assert MatchesUpTo(f, 3) == 2 && ColumnSumUpTo(f, 3) == 4 && RowSumUpTo(f, 3) == 2;
    assert MatchesUpTo(f, 4) == 2 && ColumnSumUpTo(f, 4) == 4 && RowSumUpTo(f, 4) == 2;
  }
}
