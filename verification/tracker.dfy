/**
 * The BallTracker node (ball_tracker.py): its state, the image callback and one
 * tick of the control loop. ROS transport is not modelled; the image callback
 * receives the already decoded frame, and a tick returns the Twist it would
 * publish (None when it publishes nothing).
 */
module Tracker {
  import opened Wrappers
  import opened Detection
  import opened Control

  class BallTracker {
    /** The latest frame, None until the first image arrives. */
    var cvImage: Option<Frame>
    /** The threshold mask of the latest frame, absent until the first image arrives. */
    var binaryImage: Option<Mask>
    /** Centroid column and row of the last frame that contained ball-coloured pixels. */
    var centerX: Option<real>
    var centerY: Option<real>
    /**
     * Whether the empty-mask branch has assigned the attribute `center`. It only
     * ever holds None and nothing reads it; `center_x` and `center_y` are left as they were.
     */
    var strayCenterSet: bool

    /**
     * The node's invariant: the mask is the ball mask of the stored frame, and
     * whenever that frame contains ball-coloured pixels the stored centroid is
     * their mean position. An empty mask says nothing about the centroid, which
     * may be stale or absent.
     */
    ghost predicate Valid()
      reads this
    {
      (cvImage.None? <==> binaryImage.None?) &&
      (centerX.None? <==> centerY.None?) &&
      (cvImage.Some? ==> binaryImage.value == BallMask(cvImage.value)) &&
      (cvImage.Some? && MatchCount(cvImage.value) > 0 ==>
        centerX == Some(MeanX(cvImage.value)) && centerY == Some(MeanY(cvImage.value)))
    }

    /**
     * `__init__`: no image, no centroid. The source sets only `cv_image` and
     * `center_x`; the attributes `binary_image` and `center_y` do not exist yet
     * and are modelled here as None.
     */
    constructor ()
      ensures Valid()
      ensures cvImage == None && binaryImage == None
      ensures centerX == None && centerY == None && !strayCenterSet
    {
      cvImage := None;
      binaryImage := None;
      centerX := None;
      centerY := None;
      strayCenterSet := false;
    }

    /**
     * `process_image`: store the frame and its mask; store the centroid from the
     * moments when m00 != 0, otherwise set the stray attribute and keep the old centroid.
     */
    method ProcessImage(frame: Frame)
      requires Valid()
      modifies this
      ensures Valid()
      ensures cvImage == Some(frame) && binaryImage == Some(BallMask(frame))
      ensures MatchCount(frame) > 0 ==>
        centerX == Some(MeanX(frame)) && centerY == Some(MeanY(frame)) &&
        strayCenterSet == old(strayCenterSet)
      ensures MatchCount(frame) == 0 ==>
        centerX == old(centerX) && centerY == old(centerY) && strayCenterSet
    {
      cvImage := Some(frame);
      var mask := BallMask(frame);
      binaryImage := Some(mask);
      var moments := ImageMoments(mask);
      CentroidIsMean(frame);
      if moments.m00 != 0 {
        centerX, centerY := Some(moments.m10 as real / moments.m00 as real), Some(moments.m01 as real / moments.m00 as real);
      } else {
        strayCenterSet := true;
      }
    }

    /**
     * One pass of the `run` loop: nothing before the first frame; afterwards the
     * command chosen from the white-pixel count and the stored centroid. With at
     * least 20 ball pixels the approach steers by the centroid of the current
     * frame, so the all-zero Twist is never published. This relies on the
     * image callback having run to completion, as the model takes each call.
     */
    method Tick() returns (cmd: Option<Twist>)
      requires Valid()
      ensures cmd.None? <==> cvImage.None?
      ensures cvImage.Some? && MatchCount(cvImage.value) < PixelThreshold ==> cmd == Some(SearchTwist)
      ensures cvImage.Some? && MatchCount(cvImage.value) >= PixelThreshold ==>
        cmd == Some(ApproachTwist(MeanX(cvImage.value)))
      ensures cmd != Some(ZeroTwist)
    {
      if cvImage.Some? {
        BallMaskMoments(cvImage.value);
        var whitePixels := WhitePixels(binaryImage.value);
        cmd := Some(Command(whitePixels, centerX));
      } else {
        cmd := None;
      }
    }
  }

  /** What happens next to the node: an image arrives, or the loop's rate timer fires. */
  datatype Event = ImageArrives(frame: Frame) | TimerFires

  /** Some image has arrived among `events`. */
  predicate HasImage(events: seq<Event>) {
    exists j :: 0 <= j < |events| && events[j].ImageArrives?
  }

  /** Timer events that come after the first image. */
  function TicksAfterFirstImage(events: seq<Event>): nat {
    if events == [] then 0
    else
      var prefix := events[..|events| - 1];
      TicksAfterFirstImage(prefix) + (if events[|events| - 1].TimerFires? && HasImage(prefix) then 1 else 0)
  }

  /**
   * The node from construction through an arbitrary interleaving of image
   * callbacks and loop iterations, each taken as atomic. Exactly one Twist is
   * published per timer event after the first image, none before; every one is
   * a search or an approach command, never the all-zero Twist.
   */
  method Run(events: seq<Event>) returns (published: seq<Twist>)
    ensures |published| == TicksAfterFirstImage(events)
    ensures forall i :: 0 <= i < |published| ==> IsSearch(published[i]) || IsApproach(published[i])
    ensures forall i :: 0 <= i < |published| ==> published[i] != ZeroTwist
  {
    var node := new BallTracker();
    published := [];
    var i := 0;
    while i < |events|
      invariant 0 <= i <= |events|
      invariant node.Valid()
      invariant node.cvImage.Some? <==> HasImage(events[..i])
      invariant |published| == TicksAfterFirstImage(events[..i])
      invariant forall j :: 0 <= j < |published| ==> IsSearch(published[j]) || IsApproach(published[j])
      invariant forall j :: 0 <= j < |published| ==> published[j] != ZeroTwist
    {
      assert events[..i + 1][..i] == events[..i];
      match events[i] {
        case ImageArrives(f) =>
          node.ProcessImage(f);
          assert events[..i + 1][i].ImageArrives?;
        case TimerFires =>
          var cmd := node.Tick();
          if cmd.Some? {
            published := published + [cmd.value];
          }
          assert HasImage(events[..i + 1]) ==> HasImage(events[..i]);
      }
      i := i + 1;
    }
    assert events[..|events|] == events;
  }
}
