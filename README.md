# Line detection of the StarPi vision co-processor, in Dafny

StarPi runs on a robot's Raspberry Pi. For every camera frame it thresholds the
image in HSV, extracts contours, filters them by seven geometric bounds, and if
exactly one contour survives and its minimum-area rotated rectangle is large
enough, it publishes the line's area, angle and centre to NetworkTables through
the static `Brain` store. This project models that per-frame decision and the
rules around it:

- `Telemetry` (optional.dfy, telemetry.dfy): the Brain as a class holding a
  latest-value map from entry keys to doubles or strings, with its declared
  defaults, its setters (each overwrites one entry) and its threshold getters
  (the entry's double, or the default when unset).
- `Geometry` (geometry.dfy): OpenCV's `Rect`, `Size` and `RotatedRect` as
  records, the quadrant classification parameterised by the reference frame,
  the +90 degree correction for tall rectangles, the quadrant normalisation of
  the angle, and `minimumArea = (totalHeight / 3) ^ 2` with `^` as bitwise XOR on non-negative ints.
- `Pipeline` (pipeline.dfy): a contour as the record of its OpenCV metrics,
  the seven filter checks (`Passes`), the filter specification (`Filter`), and
  the class `LinePipeline` whose `FilterContours` clears its output field and
  appends passing contours in a loop, and whose `Process` thresholds, extracts
  and filters with the fixed GRIP constants.
- `Detection` (detection.dfy): the decision shared by both frame callbacks.
  `LineWrite` says, key by key, what one frame leaves in the store; `PublishLine`
  performs the writes step by step through switches that fall through from the
  camera's case to RIGHT, and is proved to leave exactly `LineWrite`.
- `MainDetection` (main_detection.dfy): Main.java's callback, which also writes
  the camera name and a time stamp, against the 120x160 frame.
- `VisionDetection` (vision.dfy): Vision.java's class bound to one camera
  position, against the 240x320 frame, with its `minimumArea` of 104.
- `Config` (config.dfy): the checks of `readConfig` and `readCameraConfig` on a
  parsed document, the static team/server/camera list they fill in, and the
  reports `parseError` prints.

Behaviour of the code worth knowing, which the model reproduces:

- The camera-position switches have no `break`. So a FRONT callback also
  writes the LEFT and RIGHT entries, and a LEFT callback also writes RIGHT.
  This is probably unintended.
- Suppose exactly one contour survives but its rotated rectangle is below
  `minimumArea`. Then no area, angle or centre is written, and the previous
  frame's values stay in the store.
- `minimumArea` is `(totalHeight / 3) ^ 2`, and `^` is Java's bitwise XOR.
  This gives 55 in Main.java and 104 in Vision.java, not the squares 2809 and
  11236.
- The solidity quotient `100 * area / hullArea` is not guarded. The hull is
  built from the contour's own points, so a zero hull area means the points
  are collinear and the contour's area is zero too. The quotient is then 0/0,
  which is NaN, and every comparison with NaN lets it through. So every
  degenerate hull passes the solidity test. A positive area over a zero hull
  would give Infinity and be rejected, but no contour from `findContours` has
  one. With the `process` bounds of 0 and 100, the solidity test never
  rejects a simple contour at all.
- Main.java's callback writes "Front", "Left" and "Right" into the FRONT
  camera's name entry in turn, so that entry always ends as "Right"; the
  other name entries are never written. Vision.java writes no name and no
  time stamp.

Two modelling choices:

- The model merges the two stores into one. Inside Main.java, `Brain` is
  the nested `Main.Brain`, whose entries `main` binds. Vision.java uses the
  top-level Brain.java, whose entries no code in these sources binds. The
  merged store has Main.Brain's time-stamp entries; only Main's callback
  writes them.
- Vision.java builds an unqualified `new LinePipeline()`, a class outside
  these sources. The model assumes it is Main.LinePipeline, with the same
  `process` constants.

## Model

| member | source | states |
|---|---|---|
| Telemetry.ReadDouble | src/main/java/Brain.java:163-185 | definition: `getDouble(default)`, the entry's double, or the default when the entry is unset or holds a string |
| Telemetry.ReadAfterWrite | src/main/java/Brain.java:84-185 | an unset entry, or one holding a string, reads as the default. After a double is written, its key reads as that double, and every other key reads as before |
| Telemetry.ThresholdDefaults | src/main/java/Brain.java:12-17 | hue defaults 0..180, saturation 0..146, value 232..255 |
| Telemetry.LineDefaultsZero | src/main/java/Brain.java:19-41 | every contour-count, area, angle and centre default of every camera is 0 |
| Telemetry.ThresholdDefault | src/main/java/Brain.java:12-17 | definition: the six colour-threshold defaults |
| Telemetry.Default | src/main/java/Brain.java:12-41 | definition: the declared default of every entry, from the camera names "Front Camera", "Left Camera", "Right Camera" to 0 for every count and line value |
| Telemetry.Brain.constructor | src/main/java/Brain.java:47-77 | initially no entry is set |
| Telemetry.Brain.SetCameraName | src/main/java/Brain.java:84-86 | the camera-name setter overwrites exactly that camera's name entry |
| Telemetry.Brain.SetLineContours | src/main/java/Brain.java:88-90 | the contour-count setter overwrites exactly that entry |
| Telemetry.Brain.SetLine | src/main/java/Brain.java:92-106 | the area/angle/centre setters overwrite exactly their own entry |
| Telemetry.Brain.SetPiTime | src/main/java/Main.java:513-515 | the time-stamp setter overwrites exactly that entry |
| Telemetry.Brain.GetThreshold | src/main/java/Brain.java:163-185 | a threshold that is unset, or holds a string, reads as its default; a numeric one reads as its value. The store is not changed |
| Geometry.GetQuadrant | src/main/java/Main.java:611-630 | upper exactly when y <= totalHeight/2 and left exactly when x <= totalWidth/2, halves by integer division |
| Geometry.SizeArea | src/main/java/Main.java:678 | definition: `rotRect.size.area()`, width times height |
| Geometry.CorrectedAngle | src/main/java/Main.java:686-689 | the correction turns the angle forward by at most 90 degrees; a raw angle in [-90, 0) ends in [-90, 90) |
| Geometry.NormalizeAngle | src/main/java/Main.java:690-702 | the result differs from the angle by 0 or ±180; upper quadrants keep it, lower left ends non-positive, lower right non-negative |
| Geometry.MirrorSymmetry | src/main/java/Main.java:696-701 | mirror-image angles in the two lower quadrants normalise to opposite values |
| Geometry.NormalizedRange | src/main/java/Main.java:686-702 | for raw angles in [-90, 0) the published angle lies in (-180, 0] lower left, [0, 180) lower right, [-90, 90) above |
| Geometry.Xor | src/main/java/Main.java:914 | definition: Java's `^` on non-negative ints, one binary digit at a time |
| Geometry.MinimumArea | src/main/java/Main.java:914 | `(totalHeight / 3) ^ 2` is a third of the height moved by exactly 2: +2 when that third is 0 or 1 modulo 4, -2 otherwise. The result stays below 2^31 |
| Geometry.XorTwo | src/main/java/Main.java:914 | for every non-negative int, XOR with 2 adds 2 when bit 1 is clear and subtracts 2 when it is set |
| Pipeline.Divide | src/main/java/Main.java:394-397 | a double quotient of non-negative operands is finite exactly when the divisor is positive, and then it multiplies back to the dividend. It is NaN exactly for 0/0 |
| Pipeline.Outside | src/main/java/Main.java:395-398 | definition: Java's `q < lo \|\| q > hi` on a quotient. Infinity exceeds every bound, and NaN is never outside |
| Pipeline.ProcessParams | src/main/java/Main.java:258-268 | definition: the filter constants of `process`: width 20..1000, height at most 1000, solidity 0..100, the other bounds open |
| Pipeline.Passes | src/main/java/Main.java:380-398 | definition: the seven `continue` conditions of the loop, negated, in the code's order: width, height, area, perimeter, solidity, vertex count, ratio |
| Pipeline.Filter | src/main/java/Main.java:375-401 | definition: the input contours that pass, in input order |
| Pipeline.FilterMembership | src/main/java/Main.java:375-401 | a contour is in the output exactly when it is in the input and passes all seven checks |
| Pipeline.FilterSound | src/main/java/Main.java:375-401 | every output contour passes, and the output is no longer than the input |
| Pipeline.FilterSubsequence | src/main/java/Main.java:376-400 | the output is a subsequence of the input, so input order is kept |
| Pipeline.FilterKeepsPassing | src/main/java/Main.java:375-401 | a list of contours that all pass is returned unchanged |
| Pipeline.FilterIdempotent | src/main/java/Main.java:375-401 | re-filtering the output returns it unchanged |
| Pipeline.ProcessDropsWidthOutOfRange | src/main/java/Main.java:258-281 | with the process constants a bounding box narrower than 20 or wider than 1000 is never in the output |
| Pipeline.DegenerateHullSolidity | src/main/java/Main.java:394-395 | with a zero hull area, a zero-area contour passes the solidity test (NaN). A positive-area one would fail it (Infinity), but no real contour has one |
| Pipeline.SolidityAlwaysPasses | src/main/java/Main.java:386-395 | for a contour whose area is at most its hull's, a zero hull gives NaN, and the `process` bounds 0 and 100 never reject it |
| Pipeline.HsvThreshold | src/main/java/Main.java:318-322 | the mask has one flag per pixel, set exactly when the pixel is within all three ranges |
| Pipeline.InRange | src/main/java/Main.java:320-321 | definition: `Core.inRange` on one pixel, each channel within its closed interval |
| Pipeline.InRangeBoundary | src/main/java/Main.java:320-321 | the range bounds are inclusive for hue, saturation and value. With the other two channels in range, a channel at its min or max is on; one unit outside any channel is off |
| Pipeline.Thresholds | src/main/java/Main.java:238-247 | definition: process reads its six thresholds through the Brain's getters |
| Pipeline.UnsetThresholdsUseDefaults | src/main/java/Main.java:580-602 | with no threshold entry set, process thresholds with 0..180, 0..146, 232..255 |
| Pipeline.LinePipeline.constructor | src/main/java/Main.java:222-224 | the three outputs start empty |
| Pipeline.LinePipeline.FilterContours | src/main/java/Main.java:362-401 | after clearing and the loop, the output field is exactly the filtered input |
| Pipeline.LinePipeline.Process | src/main/java/Main.java:234-282 | the outputs are the threshold mask, the contours found in it, and those contours filtered with the process constants |
| Detection.Center | src/main/java/Main.java:681-683 | the centre is the box origin plus the integer half of width and height, so it lies inside the box |
| Detection.Measure | src/main/java/Main.java:678-702 | definition: the published area w*h, the integer-halved centre of the bounding box, and the corrected angle normalised for that centre's quadrant |
| Detection.Accepted | src/main/java/Main.java:667-679 | definition: exactly one contour survives, and its rotated rectangle's area is at least `minimumArea` |
| Detection.LineWrite | src/main/java/Main.java:656-746 | definition: what one frame writes to each key. The count goes to every position from the entry case on. For those positions it writes the measurement for one accepted contour, the defaults for zero or several contours, and nothing for one contour below the gate |
| Detection.FallThroughTargets | src/main/java/Main.java:658-665 | the contour count is written for exactly the positions at or after the entry case: FRONT all, LEFT left and right, RIGHT right |
| Detection.ContourCountPublished | src/main/java/Main.java:656-665 | the camera's own contour entry holds the size of the filtered list |
| Detection.NoCandidateDefaults | src/main/java/Main.java:725-743 | with zero or several contours, area, angle and centre of every reached camera are set to 0 |
| Detection.BelowGateKeepsStale | src/main/java/Main.java:678-679 | with one contour below the area gate, area, angle and centre are not written and keep their previous values |
| Detection.DetectionPublished | src/main/java/Main.java:678-721 | with one accepted contour, the reached entries hold w*h, the integer-halved centre and the corrected, quadrant-normalised angle |
| Detection.AmbiguityIgnoresGeometry | src/main/java/Main.java:667-746 | two filtered lists of the same length other than 1 publish the same values, whatever their contours |
| Detection.SetMeasurement | src/main/java/Main.java:706-710 | one case of the result switch writes that camera's four measurement entries and nothing else |
| Detection.MeasurementWrite | src/main/java/Main.java:705-721 | definition: the value the result switch writes at a key, the measurement's field for each line entry of a reached position |
| Detection.SetMeasurementFrom | src/main/java/Main.java:705-721 | the result switch writes the measurement for every position from the entry case on |
| Detection.SetContoursFrom | src/main/java/Main.java:658-665 | the contour-count switch writes the count for every position from the entry case on |
| Detection.DefaultsAreDeclared | src/main/java/Main.java:420-442 | the values of the default switch are the Brain's declared line defaults |
| Detection.PublishLine | src/main/java/Main.java:656-746 | the store after the count, measurement and default switches is the old store overlaid with `LineWrite` |
| MainDetection.MainMinimumArea | src/main/java/Main.java:914 | Main's minimumArea is 53 XOR 2 = 55, not 53 * 53 |
| MainDetection.MainQuadrantBoundary | src/main/java/Main.java:608-630 | in the 120x160 frame (60, 80) is upper left; one pixel right or down changes side |
| MainDetection.NameAndTimeWrite | src/main/java/Main.java:644-654 | definition: the name-and-time switch leaves "Right" in the FRONT name entry and the time stamp in every position from the entry case on |
| MainDetection.MainWrite | src/main/java/Main.java:642-747 | definition: one frame of Main's callback, which is the name-and-time writes plus `LineWrite` on the 120x160 frame |
| MainDetection.SetNameAndTime | src/main/java/Main.java:643-654 | the first switch stamps the time of every position from the entry case on and leaves "Right" in the front name entry |
| MainDetection.OnFrame | src/main/java/Main.java:642-747 | a frame leaves the old store overlaid with the name/time writes and `LineWrite` for the 120x160 frame |
| MainDetection.FrontNameEndsRight | src/main/java/Main.java:644-654 | whatever the position, the front camera-name entry ends as "Right", and the other name entries are untouched |
| MainDetection.PiTimeFallThrough | src/main/java/Main.java:644-654 | FRONT stamps all three cameras, LEFT left and right, RIGHT right only |
| MainDetection.MainBelowGate | src/main/java/Main.java:656-724 | one contour below the gate changes only names, time stamps and contour counts |
| MainDetection.FrontOverwritesOthers | src/main/java/Main.java:705-721 | a FRONT detection is also written into the left and right cameras' entries |
| VisionDetection.VisionMinimumAreaIs104 | src/main/java/Vision.java:57 | Vision's minimumArea is 106 XOR 2 = 104 |
| VisionDetection.VisionQuadrantBoundary | src/main/java/Vision.java:21-43 | in the 240x320 frame (120, 160) is upper left and (121, 161) lower right |
| VisionDetection.Vision.constructor | src/main/java/Vision.java:46-50 | the constructor fixes the camera position |
| VisionDetection.Vision.OnFrame | src/main/java/Vision.java:59-152 | a frame leaves the old store overlaid with `LineWrite` for its position, the 240x320 frame and the gate 104 |
| VisionDetection.VisionWritesOnlyLineEntries | src/main/java/Vision.java:108-127 | Vision writes only contour and measurement entries of positions from its entry case on: no name, no time stamp |
| VisionDetection.VisionBelowGateOnlyCounts | src/main/java/Vision.java:60-82 | one contour below 104 square pixels writes only contour counts |
| VisionDetection.SquareExample | src/main/java/Vision.java:82-124 | a 50x50 rectangle at (10, 170) with raw angle -30 publishes area 2500, centre x 35 and angle -30 |
| Config.ReadCamera | src/main/java/Main.java:102-127 | a camera is accepted exactly when name and path are strings. A missing name or path is reported, and a non-string one is a failed `getAsString`. An accepted camera keeps name, path, the whole object and its "stream" member |
| Config.ReadCameraElement | src/main/java/Main.java:179 | definition: `getAsJsonObject` on one element of the array, which throws on a non-object, then readCameraConfig |
| Config.ReadCameras | src/main/java/Main.java:177-182 | definition: the camera loop. It appends each accepted camera in turn and stops at the first rejected one or at a failed conversion |
| Config.FirstUnread | src/main/java/Main.java:178-182 | the index of the first camera not accepted: all before it are accepted |
| Config.ReadCamerasPrefix | src/main/java/Main.java:177-182 | the camera loop leaves exactly the cameras before the first bad one appended, in order |
| Config.ReadCamerasKeepsMode | src/main/java/Main.java:177-182 | the camera loop leaves the team number and the client/server mode as they were |
| Config.ReadCamerasOutcome | src/main/java/Main.java:177-184 | the loop succeeds exactly when every camera is accepted; a rejected camera ends it with false and its report |
| Config.NtMode | src/main/java/Main.java:160-169 | "client" sets server false, "server" sets it true, any other value is reported and changes nothing else |
| Config.NtModeIgnoresCase | src/main/java/Main.java:162-164 | for all values, two ntmode strings equal up to letter case match "client" and "server" alike and select the same mode |
| Config.NtModeExamples | src/main/java/Main.java:162-164 | "CLIENT" and "Client" match "client", "SERVER" and "sErVeR" match "server"; "clients" does not match "client", and "client" does not match "server" |
| Config.EqualsIgnoreCase | src/main/java/Main.java:162-164 | definition: `equalsIgnoreCase` on ASCII letters, meaning equal length and equal characters after lower-casing |
| Config.ToJavaInt | src/main/java/Main.java:157 | `getAsInt` gives a Java int congruent to the JSON number modulo 2^32 |
| Config.ReadConfigSpec | src/main/java/Main.java:134-185 | definition: the checks of readConfig on a parsed document, in order. These are: an object, a team, an optional ntmode, the camera array, then the camera loop |
| Config.MissingTeamFails | src/main/java/Main.java:152-156 | without "team" readConfig fails and changes nothing but the report |
| Config.MissingCamerasFails | src/main/java/Main.java:172-176 | without "cameras" readConfig fails after setting the team, with no camera appended |
| Config.ReadConfigSuccess | src/main/java/Main.java:134-185 | readConfig succeeds exactly when the document is well formed and every camera is accepted; then all cameras are appended in order |
| Config.BadCameraStops | src/main/java/Main.java:178-182 | a bad camera makes readConfig fail with the earlier cameras still appended |
| Config.UnknownNtModeNotFatal | src/main/java/Main.java:160-169 | an unrecognised ntmode only adds its report: readConfig continues as if ntmode were absent |
| Config.MainConfig.constructor | src/main/java/Main.java:85-87 | team 0, server false, no cameras |
| Config.MainConfig.ReportError | src/main/java/Main.java:95-97 | `parseError`: exactly one report is appended |
| Config.MainConfig.ReadCameraConfig | src/main/java/Main.java:102-128 | an accepted camera is appended once and true returned; a rejected one is reported and false returned; nothing else changes |
| Config.MainConfig.ReadConfig | src/main/java/Main.java:134-185 | outcome and new state are those of `ReadConfigSpec` on the old state |

## Left out

- `DistanceMonitor` and both `TimeoutException` classes: GPIO hardware, busy-wait timing and a plain exception holder.
- Reading the configuration file and Gson's parser, including the "could not open" path: the model starts from the parsed element.
- JSON numbers with a fraction are not in the document model: the team number is an integer, narrowed to a Java int as `getAsInt` does.
- Gson's lenient conversions (a number or a boolean read with `getAsString`, which gives its text, so `"name": true` would be accepted; a numeric string read with `getAsInt`; a one-element array read as a primitive): the model treats every conversion of a value of another JSON type as the exception it may throw.
- EqualsIgnoreCase: folds ASCII letters only; Java's `equalsIgnoreCase` also matches a few non-ASCII letters (dotless i, long s) against "client" and "server".
- `startCamera`, the NetworkTables client/server start and entry lookup in `main`, and its three `startLineDetection` calls (including `cameras.get(i)` failing with fewer than three cameras): hardware and network wiring.
- `VisionThread`, its threads and the `Timer`: each callback is one sequential step, the elapsed time is a parameter of Main's callback, and logging (`println`, `cam.getName()`) does nothing. Interleaving of the three cameras' writes to the shared store is not modelled.
- OpenCV: `cvtColor` (the frame arrives already in HSV), `findContours` (a function parameter), and `boundingRect`, `contourArea`, `arcLength`, `convexHull` and `minAreaRect` (fields of a contour). The loop that copies the hull's points before measuring the hull's area only feeds `contourArea`, so it is part of the given hull area.
- Doubles are reals: rounding is not modelled; NaN and Infinity only for the two unguarded quotients of the filter. Java `int` overflow in `x + width / 2` is not modelled.
- A NetworkTables setter on an entry of another type is rejected by NetworkTables; the model's setters always overwrite.
- Brain.java and Main.Brain: the model merges the two into one store (see the modelling choices above). The time-stamp entries exist only in Main.Brain.
