# pySSLVision vision-frame core, modelled in Dafny

pySSLVision receives SSL-Vision packets (ball and robot detections of a
robot-soccer field, in millimetres, origin at the field centre) and hands them
to a team's control software. This project models the two pieces of
`pySSLVision/VisionComm.py` that carry logic:

- **Frame normalisation** (`assign_empty_values`), module `Normalization` in
  `normalization.dfy`. A raw frame's `detection` section is rewritten into
  team-relative metres. Positions are divided by 1000 and shifted by half the
  field width and height. On the `'right'` side, x and y are negated first and
  pi is added to each robot's orientation. Missing keys have fixed policies:
  - no detection section returns `last_frame`;
  - no ball gives the sentinel (-1, -1), or the last ball when `ball_lp` is set;
  - missing robot keys read as 0.

  Decoded frames are dictionaries whose keys may be missing. Here they are
  datatypes whose optional keys are `Option`s. A normalised frame is the same
  `Detection` value with its `ball` key filled in and every robot complete.
  The per-ball and per-robot arithmetic are functions. The loop that rewrites
  a robot list is a method over an `array<Robot>` that updates each robot in
  place. `AssignEmptyValues` is the method. It is proved equal to the
  specification function `Normalized`, and the properties are lemmas about
  `Normalized`.
- **Frame-rate estimate** (`SSLVision.set_fps`), module `FrameRate` in
  `frame_rate.dfy`. The class `SSLVision` holds the `_frame_times` window
  (`frameTimes`, at most 60 arrival times) and the `_fps` estimate (`fps`).
  `SetFps` appends an arrival time; when full, the oldest time falls out. It
  recomputes the estimate only once more than 3 times are held. The estimate
  is the number of gaps divided by their sum, and the lemmas show this equals
  (n - 1) / (last - first).

`optional.dfy` holds the `Option` type used for missing dictionary keys.

Modelling choices:
- Coordinates, field sizes, angles and times are exact `real`s.
- `math.pi` is the real 3.141592653589793.
- `team_side` is `Side.Left` or `Side.Right`. The source tests only for
  `'right'`, so every other value behaves as `Left`.
- The arrival time that the source reads from the wall clock is a parameter
  of `SetFps`.

The model follows the code, including where its behaviour is surprising:
- the source rewrites the caller's `raw_frame['detection']` dictionary in
  place and returns it; the model returns the rewritten section as a new
  value (see Left out);
- in exact arithmetic, `set_fps` raises ZeroDivisionError whenever the window holds four or more
  times and its first and last times are equal (the gaps sum to last minus
  first; the other times may differ, since the wall clock can step back).
  It does not guard against this. `SetFps` models it as an error result:
  `ok == false`, with the time already appended and `fps` unchanged, which is
  the state the exception leaves behind.

## Model

| member | source | states |
|---|---|---|
| `Normalization.ToField` | pySSLVision/VisionComm.py:132-140 | undoing the half-field shift and the scaling gives back the raw millimetres, negated on the right side |
| `Normalization.BallOf` | pySSLVision/VisionComm.py:129-146 | with balls seen, undoing the half-field shift and the scaling gives back the first ball's raw millimetres (0 when missing), negated on the right; with none seen, the ball of `last_frame` under `ball_lp` and otherwise exactly (-1, -1). `OnlyFirstBallCounts`, `MissingBallSentinel` and `MissingBallCarriedOver` state these per case |
| `Normalization.NormalizeRobot` | pySSLVision/VisionComm.py:148-157 | a rewritten robot has all four keys; its `robotId` is kept when present and 0 when missing |
| `Normalization.NormalizeAll` | pySSLVision/VisionComm.py:148-168 | a rewritten robot list keeps its length and order, and robot i of the output is robot i of the input rewritten |
| `Normalization.NormalizeList` | pySSLVision/VisionComm.py:148-168 | a missing robot list stays missing, a present one stays present, and every robot in it is complete |
| `Normalization.Normalized` | pySSLVision/VisionComm.py:102-170 | no detection section gives exactly `last_frame`; otherwise the result has a ball and only complete robots, keeps `balls` unchanged, and keeps each colour list present exactly when it was present |
| `Normalization.NormalizeRobots` | pySSLVision/VisionComm.py:148-157 | the in-place loop leaves every array slot holding the rewritten robot of that slot |
| `Normalization.RewriteRobotList` | pySSLVision/VisionComm.py:148-168 | iterating `frame.get(key, [])` rewrites a present list and leaves a missing one missing |
| `Normalization.AssignEmptyValues` | pySSLVision/VisionComm.py:102-170 | the imperative procedure computes exactly `Normalized`; it is callable whenever reusing the last ball finds one |
| `Normalization.LeftBallScaled` | pySSLVision/VisionComm.py:130-140 | on the left, the output ball is the first raw ball over 1000 plus half the field, with a missing x or y read as 0 |
| `Normalization.BallMirror` | pySSLVision/VisionComm.py:132-140 | on the right, the first ball is negated before scaling, so the left and right x add up to the width and the y to the height |
| `Normalization.OnlyFirstBallCounts` | pySSLVision/VisionComm.py:130-137 | balls after the first do not affect the output ball |
| `Normalization.MissingBallSentinel` | pySSLVision/VisionComm.py:141-146 | a missing or empty ball list without `ball_lp` gives exactly (-1, -1) on either side |
| `Normalization.MissingBallCarriedOver` | pySSLVision/VisionComm.py:141-143 | a missing or empty ball list with `ball_lp` gives exactly the ball of `last_frame` |
| `Normalization.RobotRule` | pySSLVision/VisionComm.py:148-168 | each robot gets id (default 0), position x/1000 + w/2 and y/1000 + h/2 (negated first on the right, missing as 0), orientation unchanged on the left and plus pi on the right |
| `Normalization.RobotMirror` | pySSLVision/VisionComm.py:149-157 | one robot seen from both sides: same id, the two x add up to the width, the two y to the height, right orientation = left orientation + pi |
| `Normalization.FrameMirror` | pySSLVision/VisionComm.py:130-168 | one raw frame normalised for both sides: both colour lists are mirrored robot by robot, the first ball is mirrored, and a fallback ball is the same on both sides |
| `Normalization.ColoursSwapped` | pySSLVision/VisionComm.py:148-168 | yellow and blue are handled alike: swapping the raw lists swaps the output lists and leaves the ball alone |
| `Normalization.ColoursIndependent` | pySSLVision/VisionComm.py:148-168 | replacing one colour's raw list changes only that colour's output: the other colour's list and the ball stay the same |
| `Normalization.ResultFeedsNextCall` | pySSLVision/VisionComm.py:123-170 | starting from no frame or a normalised one, the result is no frame or a normalised one; a normalised result meets the next call's requirement on `last_frame` |
| `Normalization.ScalingExample` | pySSLVision/VisionComm.py:136-140 | raw ball (1000, 2000) mm on a 9 x 6 m field, left side, lands at (5.5, 5.0) |
| `Normalization.OrientationFlipExample` | pySSLVision/VisionComm.py:148-157 | yellow robot 3 at (500, 500) heading 0.5, right side, 9 x 6 m field, becomes (4.0, 2.5) heading 0.5 + pi |
| `FrameRate.Push` | pySSLVision/VisionComm.py:44-45 | appending to the `deque(maxlen=60)` window keeps the last min(n + 1, 60) entries of the old window followed by the new time |
| `FrameRate.PushKeepsLatest` | pySSLVision/VisionComm.py:44-45 | appending a time to the latest 60 times of a stream gives the latest 60 times of the extended stream |
| `FrameRate.Window` | pySSLVision/VisionComm.py:44-45 | the window built by successive appends never holds more than 60 times |
| `FrameRate.WindowHoldsLatest` | pySSLVision/VisionComm.py:44-45 | after any stream of arrivals, the window is exactly the latest 60 of them (all when fewer), oldest first |
| `FrameRate.Deltas` | pySSLVision/VisionComm.py:48-50 | the gap list has one entry fewer than the window (none for an empty window) |
| `FrameRate.Sum` | pySSLVision/VisionComm.py:51 | a sum of non-negative gaps is non-negative, and a sum of one or more positive gaps is positive |
| `FrameRate.Estimate` | pySSLVision/VisionComm.py:51 | defined only when the gaps do not sum to 0 (otherwise ZeroDivisionError); the estimate times the gap sum is the number of gaps, n - 1. `EstimateOverSpan` gives its value as (n - 1) / (last - first) |
| `FrameRate.SumOfDeltas` | pySSLVision/VisionComm.py:48-51 | the consecutive gaps of the window sum to last time minus first time |
| `FrameRate.EstimateOverSpan` | pySSLVision/VisionComm.py:48-51 | the estimate is defined exactly when the first and last times differ, and then equals (n - 1) / (last - first) |
| `FrameRate.IncreasingTimesPositiveRate` | pySSLVision/VisionComm.py:48-51 | strictly increasing times give a positive gap sum and a positive estimate |
| `FrameRate.UniformArrivals` | pySSLVision/VisionComm.py:48-51 | arrivals exactly `period` seconds apart give an estimate of exactly 1 / period (60 ms apart: 16.67 frames per second) |
| `FrameRate.SSLVision.constructor` | pySSLVision/VisionComm.py:34-35 | a new receiver has an empty window and an estimate of 0 |
| `FrameRate.SSLVision.SetFps` | pySSLVision/VisionComm.py:44-51 | the new time is appended to the bounded window. At 3 or fewer times the estimate is unchanged. Otherwise it becomes gaps / sum of gaps, or the call fails (ZeroDivisionError) with the estimate unchanged exactly when that sum is 0 |
| `FrameRate.WarmupKeepsZero` | pySSLVision/VisionComm.py:44-47 | a new receiver that has seen three arrivals still reports 0 |
| `FrameRate.FeedArrivals` | pySSLVision/VisionComm.py:44-45 | a new receiver fed any stream of arrival times by `SetFps` holds exactly the latest 60 of them, oldest first |

## Left out

- Socket creation, multicast membership and the discard-one-datagram start-up wait (`_create_socket`, `_wait_to_connect`): network I/O.
- The `run` receive loop, the `threading.Thread` base class and the unsynchronised `frame`/`last_frame` fields shared with reader threads: concurrency and blocking I/O.
- Protobuf parsing and `MessageToJson`: library calls. A decoded frame is given directly as a `RawFrame` value.
- `get_config` and the `VISION_PORT`/`MULTICAST_IP` environment overrides: file and environment I/O.
- `assign_vision`, the callback call and the `__main__` block: they only store, call or print.
- The wall clock read by `set_fps`: the time is a parameter of `SetFps`.
- Floating-point rounding: all quantities are exact reals, so `x_right + x_left == w` holds exactly in the model but only up to rounding in the source.
- Dictionary keys the normalisation does not touch (e.g. `confidence`, `pixelX`, `frameNumber`, `tCapture`, `cameraId`): the model keeps only `balls` as a pass-through key.
- `Normalization.AssignEmptyValues`: returns the rewritten detection section as a new value. The source rewrites the caller's `raw_frame['detection']` dictionary in place, and in the `ball_lp` case the result shares the ball dictionary with `last_frame`. Only the rewriting of each robot list is modelled in place, by `NormalizeRobots` on an array. A caller can see the difference: passing the same `raw_frame` twice rescales its robots a second time in the source, and when `last_frame` is that same dictionary, `VisionComm.py` line 129 empties `last_frame['ball']` before line 143 carries it over.
- `Normalization.AssignEmptyValues` (and `Normalized`): `LastBallAvailable` requires `last_frame` to exist and hold a `ball` when `ball_lp` is set and no ball is seen. In that case the source raises TypeError (no `last_frame`) or KeyError (no `ball`), and the model does not describe that failure.
- A robot dictionary listed twice in the same or both colour lists: the source would rewrite it twice. Decoded frames never share dictionaries, and the model's robots are values.
- `team_side` strings: only `'right'` and everything else (`Left`) are distinguished.
