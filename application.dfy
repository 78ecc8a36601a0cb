/**
 * The state handlers of `Application` (postured/app.py): pose and no-detection events drive the
 * monitor detector, the posture classifier and the away counter; the calibration handlers switch
 * monitoring off and on; screen lock pauses and resumes monitoring. Calls into the overlay, the
 * tray, the LED blinker, the D-Bus adaptor and the OS are recorded, in order, in an event log.
 */
module App {
  import opened Common
  import opened MonitorDetection
  import opened PostureRules
  import SettingsStore

  /** The two values of `notification_mode` that the handlers test for. */
  const DimScreen: string := "dim_screen"
  const LedBlink: string := "led_blink"

  /** A per-monitor calibration as `Application` stores it. */
  datatype MonitorCalibration = MonitorCalibration(monitorId: string, goodPostureY: real, badPostureY: real, isCalibrated: bool)

  /** A call the application makes into a collaborator. */
  datatype AppEvent =
    | OverlayTarget(opacity: real)              // overlay.set_target_opacity
    | TrayStatus(text: string)                  // tray.set_status
    | TrayPostureState(state: string)           // tray.set_posture_state
    | TrayEnabled(enabled: bool)                // tray.set_enabled
    | TrayCalibrations(ids: set<string>)        // _update_tray_calibrations
    | StatusChanged                             // _emit_dbus_status with an adaptor
    | LedSlouchingStarted                       // led_blinker.on_slouching_started
    | LedSlouchingStopped                       // led_blinker.on_slouching_stopped
    | LockScreen                                // _lock_screen
    | EnableToggled(enabled: bool)              // tray.enable_toggled.emit
    | CameraStop                                // pose_detector.stop
    | CameraStart(index: nat)                   // pose_detector.start
    | CalibrationStarted(screens: seq<Screen>)  // a CalibrationWindow opened and started
    | CalibrationStored(calibration: MonitorCalibration) // settings.set_monitor_calibration

  /** `_get_active_calibration`: the calibration of the current monitor, if it has one. */
  function ActiveCalibration(currentMonitorId: Option<string>, calibrations: map<string, MonitorCalibration>): (r: Option<MonitorCalibration>)
    ensures r.Some? <==> currentMonitorId.Some? && currentMonitorId.value != "" && currentMonitorId.value in calibrations
    ensures r.Some? ==> r.value == calibrations[currentMonitorId.value]
  {
    // An empty id is falsy in the source's `if self.current_monitor_id:`.
    if currentMonitorId.Some? && currentMonitorId.value != "" then
      if currentMonitorId.value in calibrations then Some(calibrations[currentMonitorId.value]) else None
    else None
  }

  /** The good and bad references: the calibration's, or the settings defaults 0.4 and 0.6 without one. */
  function References(calibration: Option<MonitorCalibration>): (r: (real, real))
    ensures calibration.None? ==> r == (SettingsStore.DefaultGoodPostureY, SettingsStore.DefaultBadPostureY)
    ensures calibration.Some? ==> r == (calibration.value.goodPostureY, calibration.value.badPostureY)
  {
    match calibration
    case None => (SettingsStore.DefaultGoodPostureY, SettingsStore.DefaultBadPostureY)
    case Some(c) => (c.goodPostureY, c.badPostureY)
  }

  /** What `_evaluate_posture` does for one frame: the new counters and the calls it makes. */
  datatype Evaluation = Evaluation(counters: Counters, events: seq<AppEvent>)

  /**
   * One frame of `_evaluate_posture`: the frame is judged against the monitor's calibration (or the
   * defaults), exactly one streak grows while the other restarts, slouching starts only once 8 bad
   * frames are counted and ends only once 8 good ones are, and the D-Bus signal marks each change.
   */
  function Evaluate(c: Counters, currentY: real, calibration: Option<MonitorCalibration>,
                    sensitivity: real, mode: string, dbus: bool): (r: Evaluation)
    requires sensitivity >= 0.0
    ensures r.counters == Debounce(c, IsBadFrame(currentY, References(calibration).0, References(calibration).1,
                                                 sensitivity, c.isSlouching))
    ensures (r.counters.badFrames == c.badFrames + 1 && r.counters.goodFrames == 0) ||
            (r.counters.goodFrames == c.goodFrames + 1 && r.counters.badFrames == 0)
    ensures !c.isSlouching && r.counters.isSlouching ==> r.counters.badFrames >= FrameThreshold
    ensures c.isSlouching && !r.counters.isSlouching ==> r.counters.goodFrames >= FrameThreshold
    ensures StatusChanged in r.events <==> dbus && r.counters.isSlouching != c.isSlouching
  {
    var (good, bad) := References(calibration);
    var isBad := IsBadFrame(currentY, good, bad, sensitivity, c.isSlouching);
    var opacity := SlouchOpacity(currentY, good, bad, sensitivity);
    PostureSignalsTransitions(c, isBad, opacity, calibration.Some?, mode, dbus);
    Evaluation(Debounce(c, isBad), PostureEvents(c, isBad, opacity, calibration.Some?, mode, dbus))
  }

  /** `overlay.set_target_opacity(opacity)`, made only in dim mode. */
  function DimCall(mode: string, opacity: real): seq<AppEvent> {
    if mode == DimScreen then [OverlayTarget(opacity)] else []
  }

  /** `_emit_dbus_status`: a signal only when an adaptor was registered. */
  function StatusCall(dbus: bool): seq<AppEvent> {
    if dbus then [StatusChanged] else []
  }

  /** A call into the LED blinker, made only in LED mode. */
  function LedCall(mode: string, call: AppEvent): seq<AppEvent> {
    if mode == LedBlink then [call] else []
  }

  function Suffix(calibrated: bool): string {
    if calibrated then "" else " (uncalibrated)"
  }

  /**
   * The calls `_evaluate_posture` makes for a frame classified as `isBad`, given the counters
   * before it and the slouch opacity of the frame.
   */
  function PostureEvents(c: Counters, isBad: bool, opacity: real, calibrated: bool, mode: string, dbus: bool): seq<AppEvent>
  {
    var r := Debounce(c, isBad);
    if isBad then
      if r.badFrames < FrameThreshold then []
      else
        var shown := DimCall(mode, opacity) + [TrayStatus("Slouching" + Suffix(calibrated)), TrayPostureState("slouching")];
        if c.isSlouching then shown else shown + StatusCall(dbus) + LedCall(mode, LedSlouchingStarted)
    else
      var dimmed := DimCall(mode, 0.0);
      if r.goodFrames < FrameThreshold then dimmed
      else
        var shown := dimmed + [TrayStatus("Good posture" + Suffix(calibrated)), TrayPostureState("good")];
        if !c.isSlouching then shown else shown + StatusCall(dbus) + LedCall(mode, LedSlouchingStopped)
  }

  /**
   * The D-Bus status signal and the LED calls fire exactly on a change of the slouching state,
   * the start call on entering it and the stop call on leaving it.
   */
  lemma PostureSignalsTransitions(c: Counters, isBad: bool, opacity: real, calibrated: bool, mode: string, dbus: bool)
    ensures var r := Debounce(c, isBad);
            var es := PostureEvents(c, isBad, opacity, calibrated, mode, dbus);
            (StatusChanged in es <==> dbus && r.isSlouching != c.isSlouching) &&
            (LedSlouchingStarted in es <==> mode == LedBlink && !c.isSlouching && r.isSlouching) &&
            (LedSlouchingStopped in es <==> mode == LedBlink && c.isSlouching && !r.isSlouching)
  {
    var r := Debounce(c, isBad);
    var es := PostureEvents(c, isBad, opacity, calibrated, mode, dbus);
    if isBad && r.badFrames >= FrameThreshold {
      var shown := DimCall(mode, opacity) + [TrayStatus("Slouching" + Suffix(calibrated)), TrayPostureState("slouching")];
      assert StatusChanged !in shown && LedSlouchingStarted !in shown && LedSlouchingStopped !in shown;
    } else if !isBad && r.goodFrames >= FrameThreshold {
      var shown := DimCall(mode, 0.0) + [TrayStatus("Good posture" + Suffix(calibrated)), TrayPostureState("good")];
      assert StatusChanged !in shown && LedSlouchingStarted !in shown && LedSlouchingStopped !in shown;
    }
  }

  /**
   * Opacity targets come only in dim mode: every good frame sets 0, every bad frame once the bad
   * count has reached 8 sets the slouch opacity, and a bad frame below the count makes no call.
   */
  lemma PostureOpacityTargets(c: Counters, isBad: bool, opacity: real, calibrated: bool, mode: string, dbus: bool)
    ensures var r := Debounce(c, isBad);
            var es := PostureEvents(c, isBad, opacity, calibrated, mode, dbus);
            (forall e :: e in es && e.OverlayTarget? ==> mode == DimScreen && e.opacity == (if isBad then opacity else 0.0)) &&
            (mode == DimScreen && !isBad ==> es[0] == OverlayTarget(0.0)) &&
            (mode == DimScreen && isBad && r.badFrames >= FrameThreshold ==> es[0] == OverlayTarget(opacity)) &&
            (isBad && r.badFrames < FrameThreshold ==> es == [])
  {
    var r := Debounce(c, isBad);
    var es := PostureEvents(c, isBad, opacity, calibrated, mode, dbus);
    var extra := StatusCall(dbus) + LedCall(mode, if isBad then LedSlouchingStarted else LedSlouchingStopped);
    assert forall e :: e in extra ==> !e.OverlayTarget?;
  }

  /**
   * On a frame of `_evaluate_posture` every opacity target lies in [0, 0.03 + 0.97 * sensitivity],
   * and a slouching one is at least 0.03; without a calibration the 0.4 / 0.6 defaults classify it.
   */
  lemma EvaluateOpacityBounds(c: Counters, currentY: real, calibration: Option<MonitorCalibration>,
                              sensitivity: real, mode: string, dbus: bool)
    requires sensitivity >= 0.0
    ensures var r := Evaluate(c, currentY, calibration, sensitivity, mode, dbus);
            forall e :: e in r.events && e.OverlayTarget? ==>
              e.opacity == 0.0 || OpacityFloor <= e.opacity <= OpacityFloor + OpacitySpan * sensitivity
    ensures calibration.None? ==>
              Evaluate(c, currentY, calibration, sensitivity, mode, dbus).counters ==
              Debounce(c, IsBadFrame(currentY, 0.4, 0.6, sensitivity, c.isSlouching))
  {
    var (good, bad) := References(calibration);
    var isBad := IsBadFrame(currentY, good, bad, sensitivity, c.isSlouching);
    PostureOpacityTargets(c, isBad, SlouchOpacity(currentY, good, bad, sensitivity), calibration.Some?, mode, dbus);
  }

  /** The calls of `_on_enable_toggled`. */
  function ToggleEvents(enabled: bool, cameraIndex: nat, dbus: bool): (es: seq<AppEvent>)
    ensures |es| > 0 && es[0] == TrayEnabled(enabled)
    ensures !enabled ==> OverlayTarget(0.0) in es && CameraStop in es && CameraStart(cameraIndex) !in es
    ensures enabled ==> CameraStart(cameraIndex) in es && CameraStop !in es && (forall e :: e in es ==> !e.OverlayTarget?)
    ensures StatusChanged in es <==> dbus
  {
    [TrayEnabled(enabled)]
    + (if !enabled then [OverlayTarget(0.0), TrayStatus("Disabled"), CameraStop]
       else [TrayStatus("Monitoring"), CameraStart(cameraIndex)])
    + StatusCall(dbus)
  }

  class Application {
    const settings: SettingsStore.Settings
    const monitorDetector: MonitorDetector
    /** Whether `register_dbus_service` returned an adaptor. */
    const dbusRegistered: bool

    var notificationMode: string
    var currentMonitorId: Option<string>
    var monitorCalibrations: map<string, MonitorCalibration>
    var isEnabled: bool
    var isCalibrating: bool
    var isSlouching: bool
    var consecutiveBadFrames: nat
    var consecutiveGoodFrames: nat
    var consecutiveNoDetection: nat
    var screenLockedThisAway: bool
    var wasEnabledBeforeLock: bool
    var calibratingScreens: Option<seq<Screen>>
    var events: seq<AppEvent>

    function PostureCounters(): Counters
      reads this
    {
      Counters(isSlouching, consecutiveBadFrames, consecutiveGoodFrames)
    }

    function Away(): AwayState
      reads this
    {
      AwayState(consecutiveNoDetection, screenLockedThisAway)
    }

    ghost predicate Valid()
      reads this, monitorDetector
    {
      monitorDetector.Valid()
    }

    /** The state `__init__` sets up before `_start`, over the given store and stored calibrations. */
    constructor (store: SettingsStore.Store, calibrations: map<string, MonitorCalibration>, mode: string, dbus: bool)
      ensures Valid() && fresh(settings) && fresh(monitorDetector)
      ensures settings.store == store && dbusRegistered == dbus && notificationMode == mode
      ensures currentMonitorId == None && monitorCalibrations == calibrations
      ensures isEnabled && !isCalibrating && PostureCounters() == Counters(false, 0, 0) && Away() == AwayState(0, false)
      ensures !wasEnabledBeforeLock && calibratingScreens == None && events == []
      ensures monitorDetector.State() == GazeState(None, None, 0)
    {
      settings := new SettingsStore.Settings(store);
      monitorDetector := new MonitorDetector();
      dbusRegistered := dbus;
      notificationMode := mode;
      currentMonitorId := None;
      monitorCalibrations := calibrations;
      isEnabled := true;
      isCalibrating := false;
      isSlouching := false;
      consecutiveBadFrames := 0;
      consecutiveGoodFrames := 0;
      consecutiveNoDetection := 0;
      screenLockedThisAway := false;
      wasEnabledBeforeLock := false;
      calibratingScreens := None;
      events := [];
    }

    /** `_evaluate_posture`. */
    method EvaluatePosture(currentY: real, calibration: Option<MonitorCalibration>)
      modifies this`isSlouching, this`consecutiveBadFrames, this`consecutiveGoodFrames, this`events
      ensures var ev := Evaluate(old(PostureCounters()), currentY, calibration,
                                 SettingsStore.Sensitivity(settings.store), notificationMode, dbusRegistered);
              PostureCounters() == ev.counters && events == old(events) + ev.events
    {
      var sensitivity := SettingsStore.Sensitivity(settings.store);
      var good, bad;
      if calibration.Some? {
        good, bad := calibration.value.goodPostureY, calibration.value.badPostureY;
      } else {
        good, bad := SettingsStore.DefaultGoodPostureY, SettingsStore.DefaultBadPostureY;
      }
      var suffix := Suffix(calibration.Some?);
      var isBad := IsBadFrame(currentY, good, bad, sensitivity, isSlouching);
      // The calls of this frame, in order.
      var out: seq<AppEvent> := [];
      if isBad {
        consecutiveBadFrames := consecutiveBadFrames + 1;
        consecutiveGoodFrames := 0;
        if consecutiveBadFrames >= FrameThreshold {
          var wasSlouching := isSlouching;
          isSlouching := true;
          out := DimCall(notificationMode, SlouchOpacity(currentY, good, bad, sensitivity))
                 + [TrayStatus("Slouching" + suffix), TrayPostureState("slouching")];
          if !wasSlouching {
            out := out + StatusCall(dbusRegistered) + LedCall(notificationMode, LedSlouchingStarted);
          }
        }
      } else {
        consecutiveGoodFrames := consecutiveGoodFrames + 1;
        consecutiveBadFrames := 0;
        out := DimCall(notificationMode, 0.0);
        if consecutiveGoodFrames >= FrameThreshold {
          var wasSlouching := isSlouching;
          isSlouching := false;
          out := out + [TrayStatus("Good posture" + suffix), TrayPostureState("good")];
          if wasSlouching {
            out := out + StatusCall(dbusRegistered) + LedCall(notificationMode, LedSlouchingStopped);
          }
        }
      }
      events := events + out;
    }

    /** `_on_pose_detected`: ignored while calibrating or disabled. */
    method OnPoseDetected(noseY: real, noseX: real, screens: seq<Screen>)
      requires Valid()
      modifies this`consecutiveNoDetection, this`screenLockedThisAway, this`currentMonitorId,
               this`isSlouching, this`consecutiveBadFrames, this`consecutiveGoodFrames, this`events, monitorDetector
      ensures Valid()
      ensures old(isCalibrating || !isEnabled) ==>
                Away() == old(Away()) && currentMonitorId == old(currentMonitorId) &&
                PostureCounters() == old(PostureCounters()) && events == old(events) &&
                monitorDetector.State() == old(monitorDetector.State())
      ensures old(!isCalibrating && isEnabled) ==>
                var g := if screens == [] then old(monitorDetector.State())
                         else Hysteresis(old(monitorDetector.State()), DetectMonitor(noseX, screens));
                var id := if screens == [] then None else g.current;
                var ev := Evaluate(old(PostureCounters()), noseY, ActiveCalibration(id, monitorCalibrations),
                                   SettingsStore.Sensitivity(settings.store), notificationMode, dbusRegistered);
                monitorDetector.State() == g && currentMonitorId == id && Away() == AwayState(0, false) &&
                PostureCounters() == ev.counters && events == old(events) + ev.events
    {
      if isCalibrating || !isEnabled {
        return;
      }
      ghost var counters, log := PostureCounters(), events;
      consecutiveNoDetection := 0;
      screenLockedThisAway := false;
      currentMonitorId := monitorDetector.Update(noseX, screens);
      assert PostureCounters() == counters && events == log;
      var calibration := ActiveCalibration(currentMonitorId, monitorCalibrations);
      EvaluatePosture(noseY, calibration);
    }

    /** `_on_no_detection`: ignored while calibrating or disabled; locks at most once per away episode. */
    method OnNoDetection()
      modifies this`consecutiveNoDetection, this`screenLockedThisAway, this`consecutiveBadFrames,
               this`consecutiveGoodFrames, this`events
      ensures isSlouching == old(isSlouching)
      ensures old(isCalibrating || !isEnabled) ==>
                Away() == old(Away()) && PostureCounters() == old(PostureCounters()) && events == old(events)
      ensures old(!isCalibrating && isEnabled) ==>
                var step := AwayStep(old(Away()), SettingsStore.LockWhenAway(settings.store));
                Away() == step.0 && consecutiveBadFrames == 0 && consecutiveGoodFrames == 0 &&
                events == old(events) + (if step.1 then [LockScreen] else [])
    {
      if isCalibrating || !isEnabled {
        return;
      }
      consecutiveNoDetection := consecutiveNoDetection + 1;
      consecutiveBadFrames := 0;
      consecutiveGoodFrames := 0;
      if consecutiveNoDetection >= AwayThreshold {
        if SettingsStore.LockWhenAway(settings.store) && !screenLockedThisAway {
          events := events + [LockScreen];
          screenLockedThisAway := true;
        }
      }
    }

    /** `start_calibration`: a second start while calibrating is ignored; `None` means every screen. */
    method StartCalibration(screens: Option<seq<Screen>>, allScreens: seq<Screen>)
      modifies this`isCalibrating, this`isEnabled, this`calibratingScreens, this`events
      ensures old(isCalibrating) ==>
                isCalibrating && isEnabled == old(isEnabled) && calibratingScreens == old(calibratingScreens) &&
                events == old(events)
      ensures !old(isCalibrating) ==>
                var chosen := if screens.Some? then screens.value else allScreens;
                isCalibrating && !isEnabled && calibratingScreens == Some(chosen) &&
                events == old(events) + [OverlayTarget(0.0), TrayStatus("Calibrating..."), CalibrationStarted(chosen)]
    {
      if isCalibrating {
        return;
      }
      isCalibrating := true;
      isEnabled := false;
      events := events + [OverlayTarget(0.0), TrayStatus("Calibrating...")];
      var chosen := if screens.Some? then screens.value else allScreens;
      calibratingScreens := Some(chosen);
      events := events + [CalibrationStarted(chosen)];
    }

    /** `_on_monitor_calibration_complete`: the minimum is the good posture and the maximum the bad one. */
    method OnMonitorCalibrationComplete(monitorId: string, minY: real, maxY: real, avgY: real)
      modifies this`monitorCalibrations, this`events
      ensures var calibration := MonitorCalibration(monitorId, minY, maxY, true);
              monitorCalibrations == old(monitorCalibrations)[monitorId := calibration] &&
              events == old(events) + [CalibrationStored(calibration), TrayCalibrations(monitorCalibrations.Keys)]
    {
      var calibration := MonitorCalibration(monitorId, minY, maxY, true);
      events := events + [CalibrationStored(calibration)];
      monitorCalibrations := monitorCalibrations[monitorId := calibration];
      events := events + [TrayCalibrations(monitorCalibrations.Keys)];
    }

    /** `_finish_calibration`: monitoring back on, counters zeroed, `is_slouching` kept. */
    method FinishCalibration()
      modifies this`isCalibrating, this`isEnabled, this`consecutiveBadFrames, this`consecutiveGoodFrames,
               this`calibratingScreens, this`events
      ensures !isCalibrating && isEnabled && PostureCounters() == Counters(old(isSlouching), 0, 0)
      ensures calibratingScreens == None
      ensures events == old(events) + [TrayCalibrations(monitorCalibrations.Keys)] + StatusCall(dbusRegistered)
    {
      isCalibrating := false;
      isEnabled := true;
      consecutiveBadFrames := 0;
      consecutiveGoodFrames := 0;
      calibratingScreens := None;
      events := events + [TrayCalibrations(monitorCalibrations.Keys)] + StatusCall(dbusRegistered);
    }

    /** `_on_all_calibrations_complete`. */
    method OnAllCalibrationsComplete()
      modifies this`isCalibrating, this`isEnabled, this`consecutiveBadFrames, this`consecutiveGoodFrames,
               this`calibratingScreens, this`events
      ensures !isCalibrating && isEnabled && PostureCounters() == Counters(old(isSlouching), 0, 0)
      ensures calibratingScreens == None
      ensures events == old(events) + [TrayCalibrations(monitorCalibrations.Keys)] + StatusCall(dbusRegistered)
                        + [TrayStatus("Calibrated")]
    {
      FinishCalibration();
      events := events + [TrayStatus("Calibrated")];
    }

    /** `_on_calibration_cancelled`: marks the legacy calibration done so the defaults are used. */
    method OnCalibrationCancelled()
      modifies this`isCalibrating, this`isEnabled, this`consecutiveBadFrames, this`consecutiveGoodFrames,
               this`calibratingScreens, this`events, settings
      ensures settings.store == old(settings.store)[SettingsStore.IsCalibratedKey := SettingsStore.BoolValue(true)]
      ensures !isCalibrating && isEnabled && PostureCounters() == Counters(old(isSlouching), 0, 0)
      ensures calibratingScreens == None
      ensures events == old(events) + [TrayCalibrations(monitorCalibrations.Keys)] + StatusCall(dbusRegistered)
                        + [TrayStatus("Using defaults")]
    {
      settings.SetIsCalibrated(true);
      FinishCalibration();
      events := events + [TrayStatus("Using defaults")];
    }

    /** `_on_enable_toggled`. */
    method OnEnableToggled(enabled: bool)
      modifies this`isEnabled, this`events
      ensures isEnabled == enabled
      ensures events == old(events) + ToggleEvents(enabled, SettingsStore.CameraIndex(settings.store), dbusRegistered)
    {
      isEnabled := enabled;
      // The calls of this toggle, in order.
      var out: seq<AppEvent> := [TrayEnabled(enabled)];
      if !enabled {
        out := out + [OverlayTarget(0.0), TrayStatus("Disabled"), CameraStop];
      } else {
        out := out + [TrayStatus("Monitoring"), CameraStart(SettingsStore.CameraIndex(settings.store))];
      }
      out := out + StatusCall(dbusRegistered);
      events := events + out;
    }

    /** `_on_screen_removed`: forgets the current monitor if it was the one removed. */
    method OnScreenRemoved(screen: Screen)
      modifies this`currentMonitorId, monitorDetector
      ensures old(currentMonitorId) == Some(MonitorId(screen)) ==>
                currentMonitorId == None && monitorDetector.Valid() && monitorDetector.State() == GazeState(None, None, 0)
      ensures old(currentMonitorId) != Some(MonitorId(screen)) ==>
                currentMonitorId == old(currentMonitorId) && monitorDetector.State() == old(monitorDetector.State())
    {
      if currentMonitorId == Some(MonitorId(screen)) {
        monitorDetector.Reset();
        currentMonitorId := None;
      }
    }

    /**
     * `_on_screen_lock_changed`: locking pauses enabled monitoring and remembers it; unlocking
     * resumes only what locking paused. The emitted toggle reaches `OnEnableToggled` at once.
     */
    method OnScreenLockChanged(isLocked: bool)
      modifies this`wasEnabledBeforeLock, this`isEnabled, this`events
      ensures isLocked && old(isEnabled && !isCalibrating) ==>
                wasEnabledBeforeLock && !isEnabled &&
                events == old(events) + [EnableToggled(false)]
                          + ToggleEvents(false, SettingsStore.CameraIndex(settings.store), dbusRegistered)
      ensures !isLocked && old(wasEnabledBeforeLock) ==>
                !wasEnabledBeforeLock && isEnabled &&
                events == old(events) + [EnableToggled(true)]
                          + ToggleEvents(true, SettingsStore.CameraIndex(settings.store), dbusRegistered)
      ensures (isLocked && !old(isEnabled && !isCalibrating)) || (!isLocked && !old(wasEnabledBeforeLock)) ==>
                wasEnabledBeforeLock == old(wasEnabledBeforeLock) && isEnabled == old(isEnabled) && events == old(events)
    {
      if isLocked {
        if isEnabled && !isCalibrating {
          wasEnabledBeforeLock := true;
          events := events + [EnableToggled(false)];
          OnEnableToggled(false);
        }
      } else if wasEnabledBeforeLock {
        wasEnabledBeforeLock := false;
        events := events + [EnableToggled(true)];
        OnEnableToggled(true);
      }
    }

    /** `_on_sensitivity_changed`: the new value is stored raw; reads clamp it. */
    method OnSensitivityChanged(value: real)
      modifies settings
      ensures settings.store == old(settings.store)[SettingsStore.SensitivityKey := SettingsStore.RealValue(value)]
      ensures SettingsStore.Sensitivity(settings.store) == Clamp(SettingsStore.MinSensitivity, SettingsStore.MaxSensitivity, value)
    {
      settings.SetSensitivity(value);
    }

    /** `_on_lock_away_toggled`: turning locking off also ends the current away episode's lock. */
    method OnLockAwayToggled(enabled: bool)
      modifies settings, this`screenLockedThisAway
      ensures settings.store == old(settings.store)[SettingsStore.LockWhenAwayKey := SettingsStore.BoolValue(enabled)]
      ensures SettingsStore.LockWhenAway(settings.store) == enabled
      ensures screenLockedThisAway == (enabled && old(screenLockedThisAway))
    {
      settings.SetLockWhenAway(enabled);
      if !enabled {
        screenLockedThisAway := false;
      }
    }

    /** `_on_notification_mode_changed`: switching to LED mode clears the overlay. */
    method OnNotificationModeChanged(mode: string)
      modifies this`notificationMode, this`events
      ensures notificationMode == mode
      ensures events == old(events) + (if mode == LedBlink then [OverlayTarget(0.0)] else [])
    {
      notificationMode := mode;
      if mode == LedBlink {
        events := events + [OverlayTarget(0.0)];
      }
    }
  }
}
