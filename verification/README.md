# Ball tracker: a Dafny model

This project models the ball-following node of the `neato_soccer` package
(`neato_soccer/scripts/ball_tracker.py`). The node receives camera frames and
keeps the latest one. It thresholds each frame for the ball's colour with
`cv2.inRange` and takes the image moments of the resulting 0/255 mask. When the
mask is not empty it stores the centroid `center_x`, `center_y`. Five times a
second its `run` loop counts the white mask pixels and publishes a `Twist`:

- it spins in place when fewer than 20 pixels match;
- otherwise it drives forward while steering the ball towards column 300.

Modules:

- `Wrappers`: the `Option` type, standing for Python's `None`.
- `Detection`: the pure part of `process_image`. It has the colour threshold
  (`BallMask`), the moments and white-pixel count of a mask (`ImageMoments`,
  `WhitePixels`), and a frame-side reference (`MatchCount`, `MeanX`, `MeanY`)
  that says what those numbers mean. Lemmas prove that the moments are 255
  times the count and coordinate sums of the ball-coloured pixels. They also
  prove that the centroid is the mean position of those pixels and lies inside
  the frame.
- `Control`: the `Twist` value and the per-tick decision `Command`, with lemmas
  for the search and approach regimes and for the steering law.
- `Tracker`: the node as a class `BallTracker` with the fields the source
  updates (`cvImage`, `binaryImage`, `centerX`, `centerY`, and the stray
  `center` attribute). It has the constructor, `ProcessImage` (the image
  callback) and `Tick` (one pass of the `run` loop). `Run` drives a fresh node
  through any interleaving of image arrivals and timer ticks.

Facts about the code that the model keeps:

- Before the first frame the loop publishes nothing (ball_tracker.py:47).
- A frame with no ball-coloured pixel assigns the unused attribute `center`
  (line 41), so `center_x` and `center_y` keep their previous values.
- Frames are not validated.

The class invariant `Valid` shows that, when each image callback and each
loop pass run atomically, as modelled, the stale centroid is harmless.
Whenever the stored frame has at least one ball pixel, `centerX` and
`centerY` are that frame's centroid. So under that atomicity the branch of
`run` that would publish the untouched all-zero `Twist` (20 or more pixels but
`center_x` still `None`) is never taken.

## Model

| member | source | states |
|---|---|---|
| `Detection.BallMask` | neato_soccer/scripts/ball_tracker.py:37 | The mask has the frame's dimensions. A cell is 255 iff 0 ≤ blue ≤ 50, 0 ≤ green ≤ 50 and 60 ≤ red ≤ 255, and 0 otherwise. |
| `Detection.ImageMoments` | neato_soccer/scripts/ball_tracker.py:38 | m00, m10 and m01 of `cv2.moments` as sums of intensity, x·intensity and y·intensity. It has no ensures of its own; its contract is stated by `BallMaskMoments` and `CentroidIsMean`. |
| `Detection.WhitePixels` | neato_soccer/scripts/ball_tracker.py:53 | `np.sum(binary_image == 255)`, the number of 255-cells. It has no ensures of its own; `BallMaskMoments` states that on the ball mask it equals the number of ball-coloured pixels. |
| `Detection.RowMomentsOfBallMask` | neato_soccer/scripts/ball_tracker.py:37-38 | On one mask row, the mass is 255 per ball pixel, the x-moment is 255 times the sum of their columns, and the 255-cell count is the ball pixel count. |
| `Detection.MomentsOfBallMaskUpTo` | neato_soccer/scripts/ball_tracker.py:37-38 | Over any prefix of rows, m00, m10, m01 and the 255-cell count are 255·count, 255·Σx, 255·Σy and count of the ball pixels. |
| `Detection.BallMaskMoments` | neato_soccer/scripts/ball_tracker.py:37-38 | The moments of the ball mask are (255·count, 255·Σx, 255·Σy) of the ball pixels. `np.sum(mask == 255)` of line 53 equals their count. |
| `Detection.CentroidIsMean` | neato_soccer/scripts/ball_tracker.py:38-40 | m00 ≠ 0 iff the frame has a ball pixel. The ratios m10/m00 and m01/m00 are then the mean column and the mean row of the ball pixels. |
| `Detection.RowColumnSumBound` | neato_soccer/scripts/ball_tracker.py:38-40 | In a row no wider than w, the column sum of the ball pixels is at most (w − 1) per pixel. |
| `Detection.ColumnSumBound` | neato_soccer/scripts/ball_tracker.py:38-40 | In a frame whose rows are at most w wide, the column sum is at most (w − 1) per ball pixel. |
| `Detection.RowSumBound` | neato_soccer/scripts/ball_tracker.py:38-40 | In a frame of height h, the row sum is at most (h − 1) per ball pixel. |
| `Detection.CentroidInFrame` | neato_soccer/scripts/ball_tracker.py:38-40 | A stored centroid lies inside the frame: 0 ≤ center_x ≤ width − 1 and 0 ≤ center_y ≤ height − 1. |
| `Detection.RowMatchesPositive` | neato_soccer/scripts/ball_tracker.py:37 | A row's ball pixel count is positive iff the row has a ball-coloured pixel. |
| `Detection.MatchesPositive` | neato_soccer/scripts/ball_tracker.py:37 | A prefix of rows has a positive count iff it contains a ball-coloured pixel. |
| `Detection.NoBallColourNoCentroid` | neato_soccer/scripts/ball_tracker.py:37-41 | The count (and with it m00) is zero exactly when no pixel has the ball colour. This is when the code takes the `else` branch of line 41. |
| `Detection.TwoPixelExample` | neato_soccer/scripts/ball_tracker.py:37-40 | A dark 4×4 frame with ball pixels only at (1,1) and (3,1) has count 2 and centroid (2, 1). |
| `Control.Command` | neato_soccer/scripts/ball_tracker.py:56-63 | The Twist one tick builds from the white-pixel count and `center_x`. It has no ensures of its own; its contract is stated by `SearchBelowThreshold`, `ApproachAboveThreshold`, `ApproachSteersToCenter`, `ApproachMonotone`, `ZeroOnlyWithoutCentroid` and `CommandIsPlanar`. |
| `Control.SearchBelowThreshold` | neato_soccer/scripts/ball_tracker.py:57-59 | With fewer than 20 white pixels the command has linear (0,0,0) and angular (0,0,0.5), whatever the centroid. |
| `Control.ApproachAboveThreshold` | neato_soccer/scripts/ball_tracker.py:61-63 | With at least 20 white pixels and a centroid, linear is (1,0,0) and angular is (0,0,0.005·(300 − center_x)). |
| `Control.ApproachSteersToCenter` | neato_soccer/scripts/ball_tracker.py:63 | While approaching, angular.z is 0 iff center_x = 300. It is positive (turn left) iff center_x < 300 and negative iff center_x > 300. |
| `Control.ApproachMonotone` | neato_soccer/scripts/ball_tracker.py:63 | angular.z strictly decreases as center_x grows. The difference between two positions is 0.005 times their distance. |
| `Control.ZeroOnlyWithoutCentroid` | neato_soccer/scripts/ball_tracker.py:56-63 | The all-zero `Twist()` of line 56 is chosen iff the count is at least 20 and center_x is None. |
| `Control.CommandIsPlanar` | neato_soccer/scripts/ball_tracker.py:56-63 | Every command is search, approach or all-zero. linear.y, linear.z, angular.x and angular.y are always 0. |
| `Control.ApproachExample` | neato_soccer/scripts/ball_tracker.py:61-63 | 50 white pixels with center_x = 250 give linear.x = 1 and angular.z = 0.25. |
| `Tracker.BallTracker.constructor` | neato_soccer/scripts/ball_tracker.py:20-26 | A new node has no image, no mask and no centroid, and satisfies the invariant. |
| `Tracker.BallTracker.ProcessImage` | neato_soccer/scripts/ball_tracker.py:33-41 | The frame and its ball mask replace the old ones. With a ball pixel, the centroid becomes the mean ball position. Without one, the old centroid is kept and only the stray `center` is set. The invariant is preserved. |
| `Tracker.BallTracker.Tick` | neato_soccer/scripts/ball_tracker.py:47-68 | No command before the first frame. Otherwise exactly one: search below 20 ball pixels, else approach steered by the current frame's mean column. Never the all-zero Twist (with callbacks and passes atomic). |
| `Tracker.Run` | neato_soccer/scripts/ball_tracker.py:43-70 | Under any interleaving of image callbacks and loop passes, one Twist is published per tick after the first image and none before. Each is a search or approach command, never all-zero (each callback and pass taken as atomic). |

## Left out

- ROS plumbing: node initialisation, the subscriber, the publisher, `rospy.Rate(5)`, `is_shutdown` and `sleep`. Publishing is modelled as the value `Tick` returns. The rate timer is modelled as `TimerFires` events in `Run`.
- `CvBridge.imgmsg_to_cv2`: decoding of the wire format is not part of this model. `ProcessImage` receives the decoded BGR frame, with each channel in 0..255.
- OpenCV windows and console output (`namedWindow`, `imshow`, `waitKey`, `print`): they are not modelled. They do not change the node's fields, but `imshow` can raise and end `run` (see the next line).
- Empty frames: the model treats a frame with zero rows or zero columns as one with no ball pixels, so `Tick` then publishes the search command and `Run` keeps publishing. In the source, `cv2.imshow` at line 49 rejects an image with zero width or height, the exception leaves `run`, and nothing is published afterwards; `cv2.inRange` at line 37 may also reject such a frame.
- Concurrency between the subscriber thread and the run loop: `ProcessImage` and `Tick` are taken as atomic, and `Run` covers every order of whole calls, not thread interleavings inside one call. The source runs `process_image` on the subscriber thread while `run` loops on the main thread, and OpenCV may release the interpreter lock inside `inRange` and `moments`. The model therefore does not capture these outcomes of a loop pass that lands inside a callback: between lines 37 and 40 of the first callback whose frame has any ball pixel, when that frame has 20 or more, the pass sees the new mask while `center_x` is still `None` and publishes the all-zero `Twist()` of line 56; in the same window on a later frame, it steers by the previous frame's `center_x`; between lines 36 and 37 of the very first callback, it reads `binary_image` at line 50 before that attribute exists and `run` stops with `AttributeError`.
- Missing attributes: `__init__` never creates `binary_image` or `center_y`. Before the first image (and, for `center_y`, before the first non-empty mask) they do not exist, while the constructor models them as `None`.
- Floating point: centroid division and the steering product use exact `real` arithmetic, not IEEE-754 doubles.
- `cv2.moments` computes further moments (second and third order, central and normalised). The code reads only m00, m10 and m01, so only these are modelled.
