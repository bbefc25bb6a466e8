# Stressball tracker: decision logic in Dafny

This project models the decision logic of a colour-blob tracker that steers a
pan-tilt actuator over a serial link. Each frame, the tracker picks the
largest contour of the colour mask. It turns that contour's centroid into a
normalised displacement from the frame centre. It can also re-derive its colour
range from a sample box at the centre of the frame. The serial controller adds
the displacement, scaled and possibly inverted per axis, to a position held in
[-1, 1] x [-1, 1]. It sends that position at most once per period.

Both versions of each component are modelled:

- `Serial` models the current controller (serialController.py). It starts
  paused, has a gain per axis and a configurable period.
- `SerialEarly` models the earlier controller (serialController/functions.py).
  It is always active, has one speed, uses a one-second gate and keeps an unused
  prescaler.
- `Tracker` models the current tracker (classicOCV.py). It has an area gate and
  auto-calibration.
- `TrackerEarly` models the earlier tracker (classicOCV/functions.py). It has no
  gate and returns only `(dx, dy)`.
- `Motion` holds the integrator and transmission-gate arithmetic shared by both
  controllers. It also states what runs of many updates do.
- `Tracking` holds the contour selection and displacement arithmetic shared by
  both trackers.
- `Numeric` models Python's `int()` on floats and numpy's `clip`.
- `Config` holds the defaults of config.py.

Modelling choices:

- A contour is a record `(area, m00, m10, m01)`, and a frame is its `(w, h)`.
- Floats are `real`.
- The wall clock is a `now: real` parameter. Each update reads it once.
- A serial write is an entry in a ghost log of sent positions, with a log of the
  clock readings at which they went out.
- `MIN_TRACK_AREA`, `MAX_TRACK_AREA`, `speedx` and `speedy` are read by the
  current code but not defined in config.py, so they are parameters.

The code's behaviour in these places:

- The controller sends only when strictly more than one period has passed
  (`now > last + period`), not when at least one period has passed.
- Ties in contour selection go to the first contour in list order, as Python's
  `max` does.
- The current controller always starts paused.
- `update` ignores the tracking flag.

## Model

| member | source | states |
|---|---|---|
| `Numeric.Trunc` | classicOCV.py:79-80 | Python `int()` truncates toward zero: for `v >= 0` the result is the whole number in `(v - 1, v]`, and for `v < 0` it is the one in `[v, v + 1)` |
| `Numeric.Clip` | classicOCV.py:127-133 | `np.clip` lands in `[lo, hi]`, is the identity inside it, and gives the nearer end outside it |
| `Motion.Clamp` | serialController.py:26-27 | the result lies in [-1, 1]; it is `v` itself when `v` is in [-1, 1], 1 above and -1 below (serialController/functions.py:24-25 is identical) |
| `Motion.AxisUpdate` | serialController.py:33-38 | one axis of `update` stays in [-1, 1]; it moves by exactly the signed, scaled step when that stays in range, and saturates at the bound it would pass |
| `Motion.InversionNegates` | serialController.py:33-36 | an inverted axis behaves exactly like a non-inverted one fed the negated displacement |
| `Motion.AxisSaturation` | serialController.py:37-38 | from inside the bounds, a non-negative step never lowers the coordinate or passes 1, and a non-positive step never raises it or passes -1 |
| `Motion.DriveBounded` | serialController.py:37-38 | across any run of updates an axis stays within [-1, 1] |
| `Motion.DriveRises` | serialController.py:37-38 | a run of non-negative steps never lowers the coordinate and never takes it above 1 |
| `Motion.DriveFalls` | serialController.py:37-38 | a run of non-positive steps never raises the coordinate and never takes it below -1 |
| `Motion.DriveProgress` | serialController.py:37-38 | after k steps of at least c each, the coordinate is 1 or at least `pos + k*c` |
| `Motion.DriveSaturates` | serialController.py:37-38 | steps of at least c > 0, with `k*c >= 2`, leave the coordinate at exactly 1 and never beyond it |
| `Motion.SendTimesSpaced` | serialController.py:40-42 | a run of updates sends at most once per update, only at update clock readings, first only after more than one period past the last send, and consecutive sends more than one period apart |
| `Motion.NoSendWithinPeriod` | serialController.py:40-42 | updates that all come within one period of the last send send nothing |
| `Motion.OneSendWithinTwoPeriods` | serialController.py:40-42 | updates within two periods of the last send, one of them past the first period, send exactly once (no burst catch-up) |
| `Serial.SerialController.constructor` | serialController.py:6-18 | a new controller is at (0, 0), paused, with its clock at the given time, the given gains, period and inversion flags, and an empty send log |
| `Serial.SerialController.Send` | serialController.py:44-51 | the current `(x, y)` is appended to the send log, with the clock reading of the call |
| `Serial.SerialController.Update` | serialController.py:29-42 | paused: position, clock and send log unchanged; otherwise each axis is updated from its own displacement, gain and inversion flag; a send of the new position at `now` happens exactly when `now > last_sent_time + com_period`, and the clock is left alone otherwise; the position bound and the spacing of sends are preserved |
| `SerialEarly.SerialController.constructor` | serialController/functions.py:5-22 | a new controller is at (0, 0) with speed 0.01, both axes inverted, the given prescaler, the counter at 0 and its clock at the given time |
| `SerialEarly.SerialController.Send` | serialController/functions.py:45-52 | the current `(x, y)` is appended to the send log, with the clock reading of the call |
| `SerialEarly.SerialController.Update` | serialController/functions.py:27-43 | always integrates, both axes with the same speed; sends the new position exactly when `now > last_sent_time + 1`; prescaler and counter unchanged; the position bound and the spacing of sends are preserved |
| `SerialEarly.SerialController.SetPrescaler` | serialController/functions.py:54-56 | the prescaler becomes `max(1, int(n))`: at least 1, and `n` itself for a whole `n >= 1` |
| `Tracking.MaxAreaIndex` | classicOCV.py:41 | `max(contours, key=area)` picks an index whose area is at least every other area, and is strictly larger than every area before it (first wins on ties) |
| `Tracking.Centre` | classicOCV.py:65-66 | the centre is `(w // 2, h // 2)`: twice it is `w` or `w - 1`, and likewise for `h` |
| `Tracking.Normalise` | classicOCV.py:82-94 | `2 * d / extent` times the extent is `2 * d`, and it has the sign of `d` |
| `Tracking.CenterToCentroid` | classicOCV.py:61-94 | no contour, or `m00 == 0`, gives (0, 0); otherwise each axis is the offset of the truncated centroid from the centre, as a fraction of half the frame's extent (classicOCV/functions.py:45-77 is identical apart from drawing) |
| `Tracking.CentredIsZero` | classicOCV.py:79-94 | a centroid exactly at the centre gives displacement (0, 0) |
| `Tracking.NormalisedInside` | classicOCV.py:66-94 | a coordinate inside `[0, extent)` normalises to a value in [-1, 1) |
| `Tracking.DisplacementInsideFrame` | classicOCV.py:79-94 | a centroid inside the frame gives a displacement in [-1, 1) on both axes |
| `Tracker.SelectedContour` | classicOCV.py:38-48 | no contours give `(None, False)`; otherwise the first contour of maximal area is selected, and `track` holds exactly when `MIN_TRACK_AREA <= area <= MAX_TRACK_AREA` |
| `Tracker.Process` | classicOCV.py:96-105 | no contours give `(0, 0, False)`; `track` holds exactly when there are contours and the first maximal contour's area lies in `[MIN_TRACK_AREA, MAX_TRACK_AREA]`; `(dx, dy)` is the displacement of the first maximal contour |
| `Tracker.OffsetBlobExample` | classicOCV.py:96-105 | a 100 x 100 blob 50 pixels right of and 30 below the centre of a 640 x 480 frame is tracked and gives (0.15625, 0.125) |
| `Tracker.GateBoundaries` | classicOCV.py:44-46 | with the gate [300, 40000], areas 300 and 40000 are tracked and 299 and 40001 are not |
| `Tracker.CenterBox` | classicOCV.py:108-115 | for `n >= 0` the sample box lies inside the frame with `x1 <= x2` and `y1 <= y2`, is at most `2 * (n // 2)` on each side, is exactly centred when it fits, and is non-empty for `n >= 2` in a frame of positive width and height |
| `Tracker.CalibratedRange` | classicOCV.py:127-133 | every new bound lies in its channel's domain: hue in [0, 179], saturation and value in [0, 255] |
| `Tracker.CalibratedOrdered` | classicOCV.py:127-133 | lower percentiles no greater than upper ones give `low <= high` on every channel |
| `Tracker.CalibrationCoversSample` | classicOCV.py:127-133 | every in-domain pixel whose channels lie between the truncated percentiles passes the new mask |
| `Tracker.ObjectTracker.constructor` | classicOCV.py:6-17 | a new tracker has the configured six bounds, which are in domain and ordered, and `dynBox` off |
| `Tracker.ObjectTracker.GetCenterHsvRange` | classicOCV.py:107-139 | for a non-empty centre box all six bounds are replaced by the range calibrated from that box's percentiles; for an empty box, where the source raises, nothing changes; `dynBox` is unchanged |
| `TrackerEarly.SelectedContour` | classicOCV/functions.py:29-32 | nothing for no contours; otherwise, whatever the area, the first contour of maximal area |
| `TrackerEarly.Process` | classicOCV/functions.py:79-88 | the result is exactly the pair `(dx, dy)`: (0, 0) for no contours, else the displacement of the first maximal contour |
| `TrackerEarly.GateOnlyAddsFlag` | classicOCV/functions.py:79-88 | for any gate bounds, the current tracker selects the same contour as the earlier one and returns the same `(dx, dy)` |

## Left out

- OpenCV calls (`cvtColor`, `inRange`, `medianBlur`, `erode`, `dilate`, `findContours`, `contourArea`, `moments`, `boundingRect`) are foreign library code. `get_hsv_mask`, `apply_filters` and `get_contours` are therefore not modelled. Contours arrive as records. `inRange` appears only as the per-pixel predicate `Tracker.InRange`.
- Drawing is presentation and does not change the returned numbers. This covers `draw_contours`, `draw_center_box`, and the lines, circle and text drawn in `center_to_centroid`.
- `process` stores the display buffers `filtered` and `contour_frame`. These buffers are not modelled.
- `np.percentile` is foreign numerics. `GetCenterHsvRange` takes it as a function from the sample box to the two percentile triples. The `low_pct` and `high_pct` arguments are part of that function.
- Serial I/O is not modelled: opening the port, `write`, `SerialException` handling and `print`. A send is an entry in the ghost log.
- The `.3f` text formatting of a sent position and binary floating-point rounding are not modelled. Positions are exact reals.
- `time.time()` is the `now` parameter. The source reads the clock twice in one update: once in the test and once for the new `last_sent_time`. The model uses one reading for both.
- Nothing in the current code clears `paused`, so no unpause operation is modelled. The paused flag is a field that `Update` only reads.
- The prescaler path of the earlier `update` is commented out. The model only shows that `Update` leaves `prescaler` and `_counter` alone.
- main.py is camera, key-binding and window wiring, and is not part of this model. hsv_tuner.py is an interactive trackbar tool and is not part of this model either.
- `classicOCV/config` is not part of this model. Its constants feed only the mask and the filters, which are left out.
- `CenterToCentroid` requires a frame with positive width and height. Its source divides by both. A captured frame always satisfies this.
