# postured — a Dafny model of the posture and attention state engine

postured watches the user through a webcam. It dims the screen, or blinks the camera LED, while
the user slouches. This project models in Dafny the logic between the pose detector and the
outputs, and proves properties of it:

- **Gaze-to-monitor mapping** (`MonitorDetection`, postured/app.py). The camera X coordinate is
  mirrored and the screens are sorted left to right. The point falls into a cumulative width
  range, and a new monitor only becomes current after five identical detections.
- **Posture rules** (`PostureRules`, postured/app.py). Each frame is classified against two
  thresholds. An 8-frame debounce sets the slouching state. A quadratic rule maps slouch severity
  to a dimming opacity. An away counter locks the screen at most once per absence.
- **Application handlers** (`App`, postured/app.py). These cover pose and no-detection events,
  calibration start, completion and cancellation, enable toggling, screen lock and screen removal.
  Every call the application makes into the overlay, the tray, the LED blinker, the D-Bus adaptor
  or the OS is appended, in order, to an event log.
- **Sample smoother** (`Smoothing`, postured/pose_detector.py). A deque of the last five nose Y
  values, whose mean is emitted.
- **Calibration window** (`Calibration`, postured/calibration.py). Four corner captures, reported
  as minimum, maximum and mean.
- **Opacity rate limiter** (`Easing`). Three overlay back ends share it: `QtOverlay`
  (postured/overlay.py), `LayerShell` (postured/layer_shell_overlay.py) and `GnomeShell`
  (postured/gnome_overlay.py). From a clamped target it moves at most 0.015 up and 0.047 down per
  tick.
- **Settings** (`SettingsStore`, postured/settings.py). Typed properties over a key/value store.
  Values are clamped on read and written raw.
- **D-Bus adaptor** (`DBusService`, postured/dbus_service.py). The state string priority ladder,
  the status dictionary, and the guarded Pause and Resume calls.
- **LED blinker** (`LedBlink`, postured/led_blinker.py). A four-step stop/start machine with a
  repeat timer.

Values of the source that are pure computations are datatypes and functions. Objects whose fields
the source updates in place are classes. Their methods state their new state through the
functions, and the lemmas state the properties of those functions. Coordinates, thresholds and
opacities are `real`. `Stats` and `Common` hold shared helpers: sums, means, extremes, clamps and
an `Option`.

## Model

| member | source | states |
|---|---|---|
| `MonitorDetection.MonitorId` | tests/test_monitor_detection.py:30 | the id of a screen is its name, `_`, its decimal width, `x` and its decimal height |
| `MonitorDetection.MonitorIdDeterminesSize` | tests/test_monitor_detection.py:30 | two screens with the same name get the same id iff they have the same width and height |
| `MonitorDetection.SortByX` | postured/app.py:69 | the layout is sorted by x offset and is a permutation of the screens |
| `MonitorDetection.SortedPermutationsEqual` | postured/app.py:69 | two x-sorted orderings of the same screens are equal when x tells screens apart |
| `MonitorDetection.TotalWidthPermutation` | postured/app.py:72 | the total desktop width does not depend on the order of the screens |
| `MonitorDetection.Containing` | postured/app.py:79-88 | the chosen index is the first whose cumulative right edge lies past the point; every earlier one ends at or before it; otherwise the last screen |
| `MonitorDetection.DetectIndex` | postured/app.py:60-88 | the chosen index is a valid position in the sorted layout |
| `MonitorDetection.DetectMonitor` | postured/app.py:60-88 | the result is always the id of one of the given screens |
| `MonitorDetection.DetectIndexCharacterised` | postured/app.py:60-88 | with positive total width the detected monitor is the id of the first screen in x order whose cumulative right edge lies past `(1 - nose_x) * total_width`, or of the last screen when none does |
| `MonitorDetection.BoundaryGoesRight` | postured/app.py:82 | a point exactly at the left edge of a screen with width belongs to that screen, not the one to its left |
| `MonitorDetection.BeyondTotalGoesLast` | postured/app.py:87-88 | a point at or beyond the total width falls back to the last screen |
| `MonitorDetection.NegativeGoesFirst` | postured/app.py:79-83 | a point left of the desktop goes to the first screen |
| `MonitorDetection.ZeroWidthGoesFirst` | postured/app.py:72-74 | with total width 0 the first screen in x order is returned |
| `MonitorDetection.NoseBelowZeroGoesRightmost` | postured/app.py:64-88 | with positive total width, a nose X at or below 0 maps to the rightmost screen (mirroring) |
| `MonitorDetection.NoseAboveOneGoesLeftmost` | postured/app.py:64-83 | a nose X above 1 maps to the leftmost screen |
| `MonitorDetection.DetectMonitorOrderIndependent` | postured/app.py:68-69 | permuting the screen list does not change the detected monitor (when no two different screens share an x) |
| `MonitorDetection.Hysteresis` | postured/app.py:43-56 | one detection: keeps the invariant (count in [0,4], pending set iff counting, pending never current); the current id clears pending; a switch happens only on the 5th consecutive detection of the pending id; a new candidate restarts at 1 |
| `MonitorDetection.NewCandidateNeedsFiveFrames` | postured/app.py:44-53 | detections 1..4 of a new id leave it pending with that count, and the 5th makes it current with nothing pending |
| `MonitorDetection.PendingCounts` | postured/app.py:45-50 | from a pending count k, m more detections of the pending id count up to the switch at 5 |
| `MonitorDetection.FourThenRevertKeepsCurrent` | postured/app.py:44-56 | four detections of another monitor then one of the current leave the current id and clear pending |
| `MonitorDetection.StableDetectionKeepsCurrent` | postured/app.py:54-56 | detecting the current monitor any number of times keeps it and clears pending |
| `MonitorDetection.MonitorDetector.constructor` | postured/app.py:23-26 | nothing current or pending, count 0 |
| `MonitorDetection.MonitorDetector.Update` | postured/app.py:28-58 | with no screens: returns None and changes nothing; otherwise the new state is the hysteresis step on the detected id and the current id is returned |
| `MonitorDetection.MonitorDetector.Reset` | postured/app.py:95-99 | clears current, pending and the count |
| `PostureRules.PostureRange` | postured/app.py:376-378 | the range is `abs(bad - good)`, replaced by 0.2 below 0.01, so never below 0.01 |
| `PostureRules.ExitIsEasierThanEntry` | postured/app.py:383-390 | the exit threshold is at most the entry threshold, so a frame bad enough to enter slouching is bad while slouching |
| `PostureRules.BadFrameMonotone` | postured/app.py:381-390 | a nose further down is never classified better |
| `PostureRules.SensitivityWidensDeadZone` | postured/app.py:383 | as written, the entry threshold grows with the sensitivity |
| `PostureRules.SensitivityExamples` | tests/test_posture_algorithm.py:225-246 | a slouch of 0.008 is bad at sensitivity 1.0 and 0.3; one of 0.0055 is bad only at 0.3 |
| `PostureRules.DegenerateCalibrationUsesFallback` | postured/app.py:376-378 | a calibration with `abs(bad - good) < 0.01` classifies with the 0.2 range |
| `PostureRules.DefaultCalibrationBoundaries` | tests/test_posture_algorithm.py:70-99 | with 0.4/0.6 and sensitivity 0.85: 0.605 and 0.6051 are good and 0.61 is bad on entry; while slouching 0.605 is bad and 0.601 good; degenerate ranges use 0.2 |
| `PostureRules.Severity` | postured/app.py:401-402 | the severity lies in [0, 1] |
| `PostureRules.SlouchOpacity` | postured/app.py:400-406 | the slouching target lies in [0.03, 0.03 + 0.97 * sensitivity] |
| `PostureRules.OpacityMonotone` | postured/app.py:401-406 | slouching further never gives a lower target |
| `PostureRules.OpacityFloorAtEntry` | postured/app.py:401-406 | a slouch not past the entry threshold gives exactly the 0.03 floor |
| `PostureRules.OpacitySaturates` | postured/app.py:401-406 | a slouch a whole range past the threshold gives exactly 0.03 + 0.97 * sensitivity |
| `PostureRules.Debounce` | postured/app.py:392-425 | a bad frame adds one to the bad count and zeroes the good one, and slouching holds iff it held or the bad count reached 8; good frames symmetrically |
| `PostureRules.BadRun` | postured/app.py:392-398 | n bad frames raise the bad count by n and set slouching once it reaches 8 |
| `PostureRules.GoodRun` | postured/app.py:418-425 | n good frames raise the good count by n and clear slouching once it reaches 8 |
| `PostureRules.EighthBadFrameEntersSlouching` | postured/app.py:396-398 | from reset counters the 7th bad frame still reports good and the 8th slouching |
| `PostureRules.BadFrameResetsGoodStreak` | postured/app.py:392-394 | a bad frame after five good ones zeroes the good count |
| `PostureRules.TrailingRun` | postured/app.py:392-394 | the trailing run length is at most the length, and those trailing frames all have that kind |
| `PostureRules.DebounceNeedsFullRun` | postured/app.py:392-425 | from zeroed counters the counts are the trailing run lengths, and the state flips only after 8 consecutive frames of the other kind |
| `PostureRules.AwayStep` | postured/app.py:346-360 | one missed frame adds one to the count; the lock flag ends set iff it was set or the screen is locked now |
| `PostureRules.AtMostOneLockPerEpisode` | postured/app.py:355-360 | over any number of missed frames the count grows by that number, the screen is locked at most once (never if already locked), and the flag ends set iff it was set or a lock happened |
| `PostureRules.FifteenthMissLocks` | postured/app.py:350-360 | from a fresh episode the screen is locked exactly once after 15 or more misses when locking is on, and never otherwise |
| `App.ActiveCalibration` | postured/app.py:335-340 | a calibration is returned iff there is a non-empty current id with a stored calibration, and it is that one |
| `App.Evaluate` | postured/app.py:362-431 | the frame is classified against the monitor's calibration (0.4/0.6 without one); exactly one streak grows by one while the other restarts at 0; slouching starts only once 8 bad frames are counted and ends only once 8 good ones are; the status signal is sent iff an adaptor exists and the state changes |
| `App.PostureSignalsTransitions` | postured/app.py:392-431 | the D-Bus status signal fires iff an adaptor exists and the slouching state flips; the LED start (stop) call fires iff in LED mode and slouching starts (stops) |
| `App.PostureOpacityTargets` | postured/app.py:400-421 | overlay targets come only in dim mode: every good frame first sets 0, every bad frame with a count of 8 or more first sets the slouch opacity, and a bad frame below 8 makes no call |
| `App.EvaluateOpacityBounds` | postured/app.py:366-421 | every target set in a frame is 0 or in [0.03, 0.03 + 0.97 * sensitivity]; without a calibration the frame is classified with 0.4/0.6 |
| `App.ToggleEvents` | postured/app.py:442-455 | the tray is told first; disabling clears the overlay and stops the camera; enabling starts the camera on the configured index and sets no target; a status signal iff an adaptor exists |
| `App.Application.constructor` | postured/app.py:110-154 | enabled, not calibrating, not slouching, all counters and flags zeroed, no current monitor, detector reset |
| `App.Application.EvaluatePosture` | postured/app.py:362-431 | the counters become those of `Evaluate` and its calls are appended to the log |
| `App.Application.OnPoseDetected` | postured/app.py:320-333 | ignored while calibrating or disabled; otherwise the away state is cleared, the detector takes one step, and the frame is evaluated against the current monitor's calibration |
| `App.Application.OnNoDetection` | postured/app.py:342-360 | ignored while calibrating or disabled; otherwise one away step, bad and good counts zeroed, `is_slouching` kept, and a lock call iff the step locks |
| `App.Application.StartCalibration` | postured/app.py:225-257 | a start while calibrating is ignored; otherwise monitoring is off, the overlay cleared, and the given screens (all if none) are calibrated |
| `App.Application.OnMonitorCalibrationComplete` | postured/app.py:267-289 | the monitor's calibration becomes good = min_y, bad = max_y, calibrated; it is stored and the tray updated |
| `App.Application.FinishCalibration` | postured/app.py:304-317 | monitoring back on, not calibrating, bad and good counts zeroed, `is_slouching` untouched, tray updated, status signalled |
| `App.Application.OnAllCalibrationsComplete` | postured/app.py:291-295 | finishes calibration and then reports "Calibrated" |
| `App.Application.OnCalibrationCancelled` | postured/app.py:297-302 | the legacy calibrated flag is stored true, calibration finishes, and "Using defaults" is reported |
| `App.Application.OnEnableToggled` | postured/app.py:441-455 | the enabled flag becomes the argument and the toggle's calls are appended |
| `App.Application.OnSensitivityChanged` | postured/app.py:456-461 | the raw value is stored, and reads give it clamped to [0.1, 1.0] |
| `App.Application.OnLockAwayToggled` | postured/app.py:474-479 | the setting is stored; turning locking off clears the away-episode lock flag |
| `App.Application.OnNotificationModeChanged` | postured/app.py:481-487 | the mode is stored; switching to LED mode clears the overlay |
| `App.Application.OnScreenLockChanged` | postured/app.py:489-503 | locking pauses monitoring that is on and not calibrating and remembers it; unlocking resumes only what locking paused; otherwise nothing changes |
| `App.Application.OnScreenRemoved` | postured/app.py:538-546 | removing the current monitor resets the detector and forgets the current id; any other removal changes neither |
| `Smoothing.LastN` | postured/pose_detector.py:32 | the window holds the last min(n, 5) values fed, in order |
| `Smoothing.AppendEvictsOldest` | postured/pose_detector.py:92 | appending to a full window drops its oldest value; appending to a short one keeps all |
| `Smoothing.SmoothedWithinWindow` | postured/pose_detector.py:93 | the window is non-empty with at most 5 values, and its mean lies between its minimum and maximum |
| `Smoothing.FirstValueReturnsItself` | postured/pose_detector.py:91-93 | the first value fed is returned unchanged |
| `Smoothing.SmoothingExamples` | tests/test_pose_smoothing.py:16-65 | the mean of 0.4 and 0.6 is 0.5; an outlier of 1.0 in a window of 0.5 gives 0.6 after evicting the oldest |
| `Smoothing.WindowSum` | postured/pose_detector.py:93 | the loop's total is the sum of the window |
| `Smoothing.PoseDetector.constructor` | postured/pose_detector.py:26-33 | empty history and timestamp 0 |
| `Smoothing.PoseDetector.Smooth` | postured/pose_detector.py:91-93 | the history stays the last five values fed, ends with the new one, and the result is their mean |
| `Smoothing.PoseDetector.ProcessFrame` | postured/pose_detector.py:70-89 | nothing happens unless running and the read succeeded; otherwise the timestamp advances by 100; a pose emits the smoothed Y; no pose emits no-detection and leaves the history alone |
| `Calibration.Summary` | postured/calibration.py:141-149 | minimum and maximum are captured values bounding all captures, and the average is their mean |
| `Calibration.SummaryOrdered` | postured/calibration.py:145-147 | min <= mean <= max |
| `Calibration.SummaryOfIdenticalValues` | postured/calibration.py:145-147 | identical captures report that value three times |
| `Calibration.SummaryOfDistinctCaptures` | tests/test_calibration.py:26-34 | 0.3, 0.5, 0.7, 0.4 report (0.3, 0.7, 0.475) |
| `Calibration.SummaryOfAlternatingCaptures` | tests/test_calibration.py:123-131 | 0.1, 0.9, 0.1, 0.9 report (0.1, 0.9, 0.5) |
| `Calibration.CornersOrder` | postured/calibration.py:13 | the corners are TOP-LEFT, TOP-RIGHT, BOTTOM-RIGHT, BOTTOM-LEFT in that order |
| `Calibration.CalibrationWindow.constructor` | postured/calibration.py:16-22 | step 0, nothing captured, nose Y 0.5 |
| `Calibration.CalibrationWindow.Start` | postured/calibration.py:37-43 | step 0 and nothing captured |
| `Calibration.CalibrationWindow.UpdateNoseY` | postured/calibration.py:45-47 | only the current nose Y changes |
| `Calibration.CalibrationWindow.KeyPress` | postured/calibration.py:128-132 | Space captures, Escape cancels, other keys do nothing |
| `Calibration.CalibrationWindow.CapturePosition` | postured/calibration.py:134-139 | the current nose Y is appended and the step advances by one, so the captures number the steps; completion happens exactly when the step reaches 4 |
| `Calibration.CalibrationWindow.Complete` | postured/calibration.py:141-149 | the window stops and reports the summary of the captures |
| `Calibration.CalibrationWindow.Cancel` | postured/calibration.py:151-154 | the window stops and reports a cancellation with no values |
| `Easing.Ease` | postured/overlay.py:70-83 | a converged tick changes nothing; a step never crosses the target, never increases the distance, rises by at most 0.015 and falls by at most 0.047 |
| `Easing.EaseOutFasterThanEaseIn` | postured/overlay.py:43-44 | 0.047 > 0.015, and 67 rising steps cover the whole range |
| `Easing.EaseStaysInUnit` | postured/overlay.py:74-83 | with current and target in [0,1] the new opacity stays in [0,1] |
| `Easing.EaseProgress` | postured/overlay.py:74-83 | a tick that is not converged lands on the target or closes the gap by at least 0.015 |
| `Easing.EaseExamples` | tests/test_overlay.py:31-133 | 0 towards 0.5 gives 0.015; 0.5 towards 0 gives 0.453; 0.49 towards 0.5 is capped at 0.5; 0.03 towards 0 is capped at 0; 0.5 towards 0.5005 is unchanged |
| `Easing.EaseNExamples` | tests/test_overlay.py:41-82 | ten rising ticks from 0 give 0.15; five falling ticks from 0.5 give 0.265 |
| `Easing.ConvergedStays` | postured/overlay.py:71-72 | once converged, further ticks never change the opacity |
| `Easing.EaseNCompose` | postured/overlay.py:70-83 | ticking a times then b times is ticking a + b times |
| `Easing.EaseNProgress` | postured/overlay.py:70-83 | after k ticks the opacity has converged or the gap has shrunk by at least k * 0.015 |
| `Easing.ConvergesWithinMaxTicks` | postured/overlay.py:70-83 | from within distance 1 of the target (any two values of [0,1]) the opacity converges within 67 ticks and then stays put |
| `Easing.SentBetween` | postured/gnome_overlay.py:103-134 | in the sequence of eased values for a fixed target (one value per tick that is not yet converged), every value, and the opacity after any number of ticks, lies between the start and the target |
| `Easing.SentAtMostMaxTicks` | postured/gnome_overlay.py:103-134 | for a fixed target, the sequence of eased values has at most 67 entries, however many ticks are taken |
| `QtOverlay.OverlayWindow.constructor` | postured/overlay.py:11-13 | a new window is clear |
| `QtOverlay.OverlayWindow.SetOpacity` | postured/overlay.py:27-30 | the level is the argument clamped into [0,1] |
| `QtOverlay.Overlay.constructor` | postured/overlay.py:47-64 | one fresh, clear window per screen; opacities 0 |
| `QtOverlay.Overlay.SetTargetOpacity` | postured/overlay.py:66-68 | the target is the argument clamped into [0,1] |
| `QtOverlay.Overlay.UpdateOpacity` | postured/overlay.py:70-86 | the opacity takes one easing step and stays in [0,1]; a converged tick leaves every window alone; otherwise every window shows the new opacity |
| `LayerShell.LayerShellOverlay.constructor` | postured/layer_shell_overlay.py:21-33 | not ready, no monitors, opacities 0, nothing sent |
| `LayerShell.LayerShellOverlay.HandleMessage` | postured/layer_shell_overlay.py:83-94 | a "ready" message sets ready and the monitors (empty if absent); any other message changes neither |
| `LayerShell.LayerShellOverlay.OnFinished` | postured/layer_shell_overlay.py:96-102 | the worker's exit clears ready |
| `LayerShell.LayerShellOverlay.OnError` | postured/layer_shell_overlay.py:104-115 | a worker error clears ready |
| `LayerShell.LayerShellOverlay.SendCommand` | postured/layer_shell_overlay.py:117-123 | a command is written iff the worker process is running |
| `LayerShell.LayerShellOverlay.SetTargetOpacity` | postured/layer_shell_overlay.py:125-128 | the target is the argument clamped into [0,1] |
| `LayerShell.LayerShellOverlay.UpdateOpacity` | postured/layer_shell_overlay.py:139-170 | one easing step; a converged tick sends nothing; any other sends exactly one `set_opacity` with the new opacity, if the worker runs |
| `GnomeShell.GnomeOverlay.constructor` | postured/gnome_overlay.py:49-58 | opacities 0, nothing sent |
| `GnomeShell.GnomeOverlay.SendOpacity` | postured/gnome_overlay.py:67-87 | one value is handed to the extension |
| `GnomeShell.GnomeOverlay.SetTargetOpacity` | postured/gnome_overlay.py:89-92 | the target is the argument clamped into [0,1] |
| `GnomeShell.GnomeOverlay.UpdateOpacity` | postured/gnome_overlay.py:103-134 | one easing step; a converged tick sends nothing; any other sends the new opacity exactly once |
| `SettingsStore.AsInt` | postured/settings.py:33 | `int()` keeps integers, maps booleans to 1/0, and truncates floats toward zero: the result has the float's sign and the largest magnitude not above it |
| `SettingsStore.AsIntExamples` | postured/settings.py:33 | `int(2.5)` is 2, `int(-2.5)` is -2, `int(0.99)` is 0 and `int(True)` is 1 |
| `SettingsStore.Sensitivity` | postured/settings.py:22-25 | the sensitivity reads in [0.1, 1.0]: 0.85 when unset, else the stored value clamped |
| `SettingsStore.CameraIndex` | postured/settings.py:31-34 | the camera index reads as 0 when unset, the stored value when non-negative, and 0 otherwise |
| `SettingsStore.LockWhenAway` | postured/settings.py:40-42 | false when unset; a stored boolean reads back as itself |
| `SettingsStore.GoodPostureY` | postured/settings.py:48-51 | reads in [0,1]: 0.4 when unset, else the stored value clamped |
| `SettingsStore.BadPostureY` | postured/settings.py:57-60 | reads in [0,1]: 0.6 when unset, else the stored value clamped |
| `SettingsStore.IsCalibrated` | postured/settings.py:66-68 | false when unset; a stored boolean reads back as itself |
| `SettingsStore.SensitivityRoundTrip` | postured/settings.py:22-29 | a written sensitivity reads back clamped, and exactly when in range |
| `SettingsStore.CameraIndexRoundTrip` | postured/settings.py:31-38 | a written index reads back as itself when non-negative and as 0 otherwise |
| `SettingsStore.PostureYRoundTrip` | postured/settings.py:48-64 | written references read back clamped into [0,1] |
| `SettingsStore.BooleansRoundTrip` | postured/settings.py:40-72 | both boolean properties round-trip true and false |
| `SettingsStore.WriteKeepsOtherProperties` | postured/settings.py:27-72 | writing one key leaves every property under another key reading as before |
| `SettingsStore.Settings.constructor` | postured/settings.py:19-20 | the store is the given one |
| `SettingsStore.Settings.SetSensitivity` | postured/settings.py:27-29 | the raw value is stored under "sensitivity" and nothing else changes |
| `SettingsStore.Settings.SetCameraIndex` | postured/settings.py:36-38 | the raw value is stored under "camera_index" and nothing else changes |
| `SettingsStore.Settings.SetLockWhenAway` | postured/settings.py:44-46 | the raw value is stored under "lock_when_away" and nothing else changes |
| `SettingsStore.Settings.SetGoodPostureY` | postured/settings.py:53-55 | the raw value is stored under "good_posture_y" and nothing else changes |
| `SettingsStore.Settings.SetBadPostureY` | postured/settings.py:62-64 | the raw value is stored under "bad_posture_y" and nothing else changes |
| `SettingsStore.Settings.SetIsCalibrated` | postured/settings.py:70-72 | the raw value is stored under "is_calibrated" and nothing else changes |
| `DBusService.StateString` | postured/dbus_service.py:34-43 | "paused" iff disabled; "calibrating" iff enabled and calibrating; "away" iff neither and 15 or more misses; "slouching" and "good" below that, by the flag |
| `DBusService.StatusDict` | postured/dbus_service.py:45-50 | exactly the keys state, enabled and is_slouching, holding the state string and the two flags |
| `DBusService.AwayBoundary` | postured/dbus_service.py:39 | 14 misses are not away and 15 are |
| `DBusService.StateIsOneOfFive` | postured/dbus_service.py:34-43 | the state is always one of the five documented strings |
| `DBusService.PauseResumeExclusive` | postured/dbus_service.py:52-62 | Pause and Resume never both act; Pause acts iff the reported state is not "paused"; Resume acts iff the state is "paused" and no calibration runs |
| `DBusService.Adaptor.constructor` | postured/dbus_service.py:30-32 | the adaptor is bound to the given application |
| `DBusService.Adaptor.Pause` | postured/dbus_service.py:52-56 | when enabled, the toggle fires with false and disables monitoring; otherwise nothing changes; afterwards the reported state is always "paused" |
| `DBusService.Adaptor.Resume` | postured/dbus_service.py:58-62 | when disabled and not calibrating, the toggle fires with true and enables monitoring, so the state is no longer "paused"; otherwise nothing changes |
| `DBusService.Adaptor.GetStatus` | postured/dbus_service.py:64-67 | the status dictionary of the application's current flags |
| `LedBlink.StepCommand` | postured/led_blinker.py:35-49 | steps 0 and 2 stop the camera, steps 1 and 3 start it on the current index, and steps from 4 on end the blink |
| `LedBlink.StepDelay` | postured/led_blinker.py:42-49 | after a step that stops the camera the next step waits `BLINK_OFF_MS` (200 ms); after a step that starts it, `BLINK_ON_MS` (200 ms) |
| `LedBlink.Issued` | postured/led_blinker.py:35-54 | a blink issues one command per step, four at most |
| `LedBlink.BlinkSequence` | postured/led_blinker.py:36-49 | a whole blink is stop, start, stop, start, ending with the camera started |
| `LedBlink.LedBlinker.constructor` | postured/led_blinker.py:16-25 | idle at step 0, not slouching, no timers, nothing sent |
| `LedBlink.LedBlinker.DoBlinkStep` | postured/led_blinker.py:35-49 | below step 4 one command (stop on even, start with the current index on odd) and the next advance is scheduled; from step 4 the blink ends |
| `LedBlink.LedBlinker.Blink` | postured/led_blinker.py:27-33 | a blink in progress is not interrupted; otherwise a new blink starts at step 0 by stopping the camera |
| `LedBlink.LedBlinker.AdvanceStep` | postured/led_blinker.py:51-54 | the step advances by one; the fourth advance ends the blink after exactly four alternating commands, the last a start |
| `LedBlink.LedBlinker.OnRepeat` | postured/led_blinker.py:56-59 | the repeat timer blinks only while slouching |
| `LedBlink.LedBlinker.OnSlouchingStarted` | postured/led_blinker.py:61-65 | the flag is set, a blink starts unless one is in progress, and the repeat timer runs every 30 s |
| `LedBlink.LedBlinker.OnSlouchingStopped` | postured/led_blinker.py:67-71 | the flag is cleared and the repeat timer stopped; a blink in progress is left to finish |
| `LedBlink.LedBlinker.SetCameraIndex` | postured/led_blinker.py:73-75 | only the index changes, and later starts use it |

## Left out

- The camera and the pose model are left out: `PoseDetector.start`, `stop`, `available_cameras`, and the OpenCV and MediaPipe calls in `_process_frame`. A frame reaches the model already read and analysed, as `Frame`.
- Processes and the OS are left out. These are the `loginctl` call of `_lock_screen` (a `LockScreen` log entry), the `gdbus` calls of `check_gnome_extension` and `_send_opacity` (an outbox append), and the layer-shell worker plumbing (`_start_worker`, `_on_stdout`, `_on_stderr`, the JSON encoding, and `cleanup`'s quit, wait and kill). The worker's running state is a parameter. postured/layer_shell_worker.py and layer-shell-helper are not part of this model.
- Rendering and UI are left out: every `paintEvent`, `_draw_*`, `_get_corner_position`, the pulse animation, window geometry, postured/tray.py, and postured/__main__.py. Tray calls are log entries.
- D-Bus registration, message construction, and postured/screen_lock.py are left out. `App.StatusChanged` records that `_emit_dbus_status` found an adaptor; the status payload is `DBusService.StatusDict` of the flags at that moment.
- Floating point is left out: all arithmetic is exact `real`, with no IEEE rounding.
- The per-monitor calibration store is an abstract `map` in `Application`. `get_all_monitor_calibrations`, `set_monitor_calibration` (a `CalibrationStored` entry), `migrate_legacy_calibration` and `has_any_calibration` (called at postured/app.py:159, 201, 212 and 280) are not part of this model; only their effect on the map is. `_load_monitor_calibrations` and `_start` are left out with them.
- `get_monitor_id` (imported at postured/app.py:12) follows the format used in tests/test_monitor_detection.py:30: name, `_`, width, `x`, height.
- QSettings' text round trip is left out. The store holds typed values, and the getters apply Python's `float`, `int` and `type=bool` conversions to them.
- `notification_mode` is an `Application` field, since postured/settings.py defines no such property.
- `settings.sync()` is left out; it only flushes to disk.
- Two interfaces are modelled as each file writes them, without reconciling them:
  - the detector emits only the nose Y (postured/pose_detector.py:19), while `App.Application.OnPoseDetected` takes the nose X as app.py expects;
  - the calibration window is single-screen with a three-value completion, while app.py's multi-monitor signal wiring becomes `CalibrationStarted` and the two completion handlers.
- In `start_calibration`, only the guard, the flags, the screen choice and the calls are modelled. Building the window, its signal connections, and the disconnect in `_finish_calibration` are left out.
- These handlers are outside the modelled core: `_on_recalibrate_monitor`, `_on_camera_changed` (it restarts the camera and recalibrates), `_on_camera_error`, `_on_camera_recovered` and `_on_screen_added`. `_on_screen_removed` is modelled only for its detector reset; recreating the overlay is left out. `shutdown` and `_quit` are left out too.
- `LayerShell.LayerShellOverlay.HandleMessage`: a "ready" message whose `"monitors"` entry is present but null sets `None` in the source (postured/layer_shell_overlay.py:89) and `[]` in the model; the value is only logged.
- Qt timers are explicit calls (`AdvanceStep`, `OnRepeat`, `UpdateOpacity`, `CapturePosition`). A timer's period is a recorded number, not elapsed time.
- `Calibration.CalibrationWindow.Complete` requires at least one capture; Python's `min` of an empty list would raise. Its only caller completes after the fourth capture.
- `MonitorDetection.DetectMonitorOrderIndependent` requires that no two different screens share an x offset. With ties, the stable sort keeps the input order, and the result may depend on it.

## Notes

- The test `test_higher_sensitivity_lower_threshold` (tests/test_posture_algorithm.py:225) describes a higher sensitivity as a lower threshold. The code multiplies the dead zone by the sensitivity, so the threshold grows with it. The model follows the code: `PostureRules.SensitivityWidensDeadZone` and `PostureRules.SensitivityExamples` state the behaviour as written. A higher sensitivity still dims harder once slouching.
