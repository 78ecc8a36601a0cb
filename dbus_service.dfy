/**
 * The D-Bus adaptor of the application (postured/dbus_service.py): a status derived from the
 * application flags, a state string chosen by a priority ladder inside an `a{sv}` dictionary, and
 * the guarded Pause and Resume requests, which reach the application as enable toggles.
 */
module DBusService {
  import PostureRules
  import SettingsStore
  import opened App

  /** A value of the `a{sv}` dictionary. */
  datatype Variant = StringVariant(s: string) | BoolVariant(b: bool)

  const StateKey: string := "state"
  const EnabledKey: string := "enabled"
  const IsSlouchingKey: string := "is_slouching"

  /** `_get_state_string`: paused, then calibrating, then away, then slouching, else good. */
  function StateString(isEnabled: bool, isCalibrating: bool, noDetection: nat, isSlouching: bool): (s: string)
    ensures s == "paused" <==> !isEnabled
    ensures s == "calibrating" <==> isEnabled && isCalibrating
    ensures s == "away" <==> isEnabled && !isCalibrating && noDetection >= PostureRules.AwayThreshold
    ensures s == "slouching" <==>
              isEnabled && !isCalibrating && noDetection < PostureRules.AwayThreshold && isSlouching
    ensures s == "good" <==>
              isEnabled && !isCalibrating && noDetection < PostureRules.AwayThreshold && !isSlouching
  {
    if !isEnabled then "paused"
    else if isCalibrating then "calibrating"
    else if noDetection >= PostureRules.AwayThreshold then "away"
    else if isSlouching then "slouching"
    else "good"
  }

  /** `_build_status_dict`: exactly three entries mirroring the flags. */
  function StatusDict(isEnabled: bool, isCalibrating: bool, noDetection: nat, isSlouching: bool): (d: map<string, Variant>)
    ensures d.Keys == {StateKey, EnabledKey, IsSlouchingKey}
    ensures d[StateKey] == StringVariant(StateString(isEnabled, isCalibrating, noDetection, isSlouching))
    ensures d[EnabledKey] == BoolVariant(isEnabled) && d[IsSlouchingKey] == BoolVariant(isSlouching)
  {
    map[StateKey := StringVariant(StateString(isEnabled, isCalibrating, noDetection, isSlouching)),
        EnabledKey := BoolVariant(isEnabled),
        IsSlouchingKey := BoolVariant(isSlouching)]
  }

  /** Fourteen missed frames are not yet away; the fifteenth is. */
  lemma AwayBoundary(isSlouching: bool)
    ensures StateString(true, false, 14, isSlouching) != "away"
    ensures StateString(true, false, 15, isSlouching) == "away"
  {
  }

  /** The state string is always one of the five documented states. */
  lemma StateIsOneOfFive(isEnabled: bool, isCalibrating: bool, noDetection: nat, isSlouching: bool)
    ensures StateString(isEnabled, isCalibrating, noDetection, isSlouching) in
              {"paused", "calibrating", "away", "slouching", "good"}
  {
  }

  /** `Pause`: a disable request is sent exactly when monitoring is enabled. */
  function PauseRequest(isEnabled: bool): (r: bool)
    ensures r <==> isEnabled
  {
    isEnabled
  }

  /** `Resume`: an enable request is sent exactly when disabled and not calibrating. */
  function ResumeRequest(isEnabled: bool, isCalibrating: bool): (r: bool)
    ensures r <==> !isEnabled && !isCalibrating
  {
    !isEnabled && !isCalibrating
  }

  /** Pause and Resume are never both requested; Pause exactly when not paused, Resume only when paused. */
  lemma PauseResumeExclusive(isEnabled: bool, isCalibrating: bool, noDetection: nat, isSlouching: bool)
    ensures !(PauseRequest(isEnabled) && ResumeRequest(isEnabled, isCalibrating))
    ensures PauseRequest(isEnabled) <==> StateString(isEnabled, isCalibrating, noDetection, isSlouching) != "paused"
    ensures ResumeRequest(isEnabled, isCalibrating) <==>
              StateString(isEnabled, isCalibrating, noDetection, isSlouching) == "paused" && !isCalibrating
  {
  }

  /** `PosturedDBusAdaptor`, bound to the application it reports on. */
  class Adaptor {
    const app: Application

    constructor (app: Application)
      ensures this.app == app
    {
      this.app := app;
    }

    /** `Pause`: when enabled, the tray's toggle fires with False and disables monitoring. */
    method Pause()
      modifies app`isEnabled, app`events
      ensures PauseRequest(old(app.isEnabled)) ==>
                !app.isEnabled &&
                app.events == old(app.events) + [EnableToggled(false)]
                              + ToggleEvents(false, SettingsStore.CameraIndex(app.settings.store), app.dbusRegistered)
      ensures !PauseRequest(old(app.isEnabled)) ==> app.isEnabled == old(app.isEnabled) && app.events == old(app.events)
      ensures StateString(app.isEnabled, app.isCalibrating, app.consecutiveNoDetection, app.isSlouching) == "paused"
    {
      if app.isEnabled {
        app.events := app.events + [EnableToggled(false)];
        app.OnEnableToggled(false);
      }
    }

    /** `Resume`: when disabled and not calibrating, the tray's toggle fires with True. */
    method Resume()
      modifies app`isEnabled, app`events
      ensures ResumeRequest(old(app.isEnabled), app.isCalibrating) ==>
                app.isEnabled &&
                app.events == old(app.events) + [EnableToggled(true)]
                              + ToggleEvents(true, SettingsStore.CameraIndex(app.settings.store), app.dbusRegistered)
      ensures !ResumeRequest(old(app.isEnabled), app.isCalibrating) ==>
                app.isEnabled == old(app.isEnabled) && app.events == old(app.events)
      ensures ResumeRequest(old(app.isEnabled), app.isCalibrating) ==>
                StateString(app.isEnabled, app.isCalibrating, app.consecutiveNoDetection, app.isSlouching) != "paused"
    {
      if !app.isEnabled && !app.isCalibrating {
        app.events := app.events + [EnableToggled(true)];
        app.OnEnableToggled(true);
      }
    }

    /** `GetStatus`: the status dictionary of the application's current flags; nothing changes. */
    method GetStatus() returns (d: map<string, Variant>)
      ensures d == StatusDict(app.isEnabled, app.isCalibrating, app.consecutiveNoDetection, app.isSlouching)
    {
      d := StatusDict(app.isEnabled, app.isCalibrating, app.consecutiveNoDetection, app.isSlouching);
    }
  }
}
