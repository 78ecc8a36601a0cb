/**
 * `Settings` (postured/settings.py): typed properties over a persistent key/value store. Every
 * getter looks its key up, falls back to the default, converts the stored value and clamps it on
 * read; every setter stores the raw value under its own key.
 */
module SettingsStore {
  import opened Common

  /** A value as the key/value store hands it back. */
  datatype Value = RealValue(r: real) | IntValue(i: int) | BoolValue(b: bool)

  type Store = map<string, Value>

  const SensitivityKey: string := "sensitivity"
  const CameraIndexKey: string := "camera_index"
  const LockWhenAwayKey: string := "lock_when_away"
  const GoodPostureKey: string := "good_posture_y"
  const BadPostureKey: string := "bad_posture_y"
  const IsCalibratedKey: string := "is_calibrated"

  /** `DEFAULTS`. */
  const DefaultSensitivity: real := 0.85
  const DefaultCameraIndex: int := 0
  const DefaultLockWhenAway: bool := false
  const DefaultGoodPostureY: real := 0.4
  const DefaultBadPostureY: real := 0.6
  const DefaultIsCalibrated: bool := false

  const MinSensitivity: real := 0.1
  const MaxSensitivity: real := 1.0

  /** Python's `float(v)`: booleans read as 1.0 and 0.0. */
  function AsReal(v: Value): real {
    match v
    case RealValue(r) => r
    case IntValue(i) => i as real
    case BoolValue(b) => if b then 1.0 else 0.0
  }

  /** Python's `int(v)`: a float is truncated toward zero. */
  function AsInt(v: Value): (n: int)
    ensures v.IntValue? ==> n == v.i
    ensures v.RealValue? ==> Abs(n as real) <= Abs(v.r) < Abs(n as real) + 1.0
    ensures v.RealValue? && v.r >= 0.0 ==> n >= 0
    ensures v.RealValue? && v.r <= 0.0 ==> n <= 0
    ensures v.BoolValue? ==> n == if v.b then 1 else 0
  {
    match v
    case RealValue(r) => if r >= 0.0 then r.Floor else -((-r).Floor)
    case IntValue(i) => i
    case BoolValue(b) => if b then 1 else 0
  }

  /** `int(2.5)` is 2 and `int(-2.5)` is -2: truncation, not flooring. */
  lemma AsIntExamples()
    ensures AsInt(RealValue(2.5)) == 2 && AsInt(RealValue(-2.5)) == -2
    ensures AsInt(RealValue(0.99)) == 0 && AsInt(BoolValue(true)) == 1
  {
  }

  /** `value(key, default, type=bool)`: numbers read as true when non-zero. */
  function AsBool(v: Value): bool {
    match v
    case RealValue(r) => r != 0.0
    case IntValue(i) => i != 0
    case BoolValue(b) => b
  }

  function Lookup(store: Store, key: string, default: Value): Value {
    if key in store then store[key] else default
  }

  /** The `sensitivity` property. */
  function Sensitivity(store: Store): (r: real)
    ensures MinSensitivity <= r <= MaxSensitivity
    ensures SensitivityKey !in store ==> r == DefaultSensitivity
    ensures SensitivityKey in store ==> r == Clamp(MinSensitivity, MaxSensitivity, AsReal(store[SensitivityKey]))
  {
    Clamp(MinSensitivity, MaxSensitivity, AsReal(Lookup(store, SensitivityKey, RealValue(DefaultSensitivity))))
  }

  /** The `camera_index` property: never negative. */
  function CameraIndex(store: Store): (n: nat)
    ensures CameraIndexKey !in store ==> n == DefaultCameraIndex
    ensures CameraIndexKey in store && AsInt(store[CameraIndexKey]) >= 0 ==> n == AsInt(store[CameraIndexKey])
    ensures CameraIndexKey in store && AsInt(store[CameraIndexKey]) < 0 ==> n == 0
  {
    var v := AsInt(Lookup(store, CameraIndexKey, IntValue(DefaultCameraIndex)));
    if v < 0 then 0 else v
  }

  /** The `lock_when_away` property. */
  function LockWhenAway(store: Store): (b: bool)
    ensures LockWhenAwayKey !in store ==> b == DefaultLockWhenAway
    ensures LockWhenAwayKey in store && store[LockWhenAwayKey].BoolValue? ==> b == store[LockWhenAwayKey].b
  {
    AsBool(Lookup(store, LockWhenAwayKey, BoolValue(DefaultLockWhenAway)))
  }

  /** The `good_posture_y` property. */
  function GoodPostureY(store: Store): (r: real)
    ensures 0.0 <= r <= 1.0
    ensures GoodPostureKey !in store ==> r == DefaultGoodPostureY
    ensures GoodPostureKey in store ==> r == Clamp01(AsReal(store[GoodPostureKey]))
  {
    Clamp01(AsReal(Lookup(store, GoodPostureKey, RealValue(DefaultGoodPostureY))))
  }

  /** The `bad_posture_y` property. */
  function BadPostureY(store: Store): (r: real)
    ensures 0.0 <= r <= 1.0
    ensures BadPostureKey !in store ==> r == DefaultBadPostureY
    ensures BadPostureKey in store ==> r == Clamp01(AsReal(store[BadPostureKey]))
  {
    Clamp01(AsReal(Lookup(store, BadPostureKey, RealValue(DefaultBadPostureY))))
  }

  /** The `is_calibrated` property. */
  function IsCalibrated(store: Store): (b: bool)
    ensures IsCalibratedKey !in store ==> b == DefaultIsCalibrated
    ensures IsCalibratedKey in store && store[IsCalibratedKey].BoolValue? ==> b == store[IsCalibratedKey].b
  {
    AsBool(Lookup(store, IsCalibratedKey, BoolValue(DefaultIsCalibrated)))
  }

  /** A sensitivity in range reads back exactly; one outside reads back clamped. */
  lemma SensitivityRoundTrip(store: Store, v: real)
    ensures Sensitivity(store[SensitivityKey := RealValue(v)]) == Clamp(MinSensitivity, MaxSensitivity, v)
    ensures MinSensitivity <= v <= MaxSensitivity ==> Sensitivity(store[SensitivityKey := RealValue(v)]) == v
  {
  }

  /** A camera index reads back as itself when non-negative and as 0 otherwise. */
  lemma CameraIndexRoundTrip(store: Store, v: int)
    ensures CameraIndex(store[CameraIndexKey := IntValue(v)]) == if v < 0 then 0 else v
  {
  }

  /** Posture references read back exactly inside [0, 1] and clamped outside. */
  lemma PostureYRoundTrip(store: Store, good: real, bad: real)
    ensures GoodPostureY(store[GoodPostureKey := RealValue(good)]) == Clamp01(good)
    ensures BadPostureY(store[BadPostureKey := RealValue(bad)]) == Clamp01(bad)
  {
  }

  /** The boolean properties round-trip both values. */
  lemma BooleansRoundTrip(store: Store, lock: bool, calibrated: bool)
    ensures LockWhenAway(store[LockWhenAwayKey := BoolValue(lock)]) == lock
    ensures IsCalibrated(store[IsCalibratedKey := BoolValue(calibrated)]) == calibrated
  {
  }

  /** Writing one key leaves every property stored under another key reading as before. */
  lemma {:induction false} WriteKeepsOtherProperties(store: Store, key: string, v: Value)
    ensures key != SensitivityKey ==> Sensitivity(store[key := v]) == Sensitivity(store)
    ensures key != CameraIndexKey ==> CameraIndex(store[key := v]) == CameraIndex(store)
    ensures key != LockWhenAwayKey ==> LockWhenAway(store[key := v]) == LockWhenAway(store)
    ensures key != GoodPostureKey ==> GoodPostureY(store[key := v]) == GoodPostureY(store)
    ensures key != BadPostureKey ==> BadPostureY(store[key := v]) == BadPostureY(store)
    ensures key != IsCalibratedKey ==> IsCalibrated(store[key := v]) == IsCalibrated(store)
  {
    var s2 := store[key := v];
    forall k, d | k != key ensures Lookup(s2, k, d) == Lookup(store, k, d) {
    }
  }

  /** The settings object; its setters write the raw value under their own key and nothing else. */
  class Settings {
    var store: Store

    constructor (initial: Store)
      ensures store == initial
    {
      store := initial;
    }

    method SetSensitivity(value: real)
      modifies this
      ensures store == old(store)[SensitivityKey := RealValue(value)]
    {
      store := store[SensitivityKey := RealValue(value)];
    }

    method SetCameraIndex(value: int)
      modifies this
      ensures store == old(store)[CameraIndexKey := IntValue(value)]
    {
      store := store[CameraIndexKey := IntValue(value)];
    }

    method SetLockWhenAway(value: bool)
      modifies this
      ensures store == old(store)[LockWhenAwayKey := BoolValue(value)]
    {
      store := store[LockWhenAwayKey := BoolValue(value)];
    }

    method SetGoodPostureY(value: real)
      modifies this
      ensures store == old(store)[GoodPostureKey := RealValue(value)]
    {
      store := store[GoodPostureKey := RealValue(value)];
    }

    method SetBadPostureY(value: real)
      modifies this
      ensures store == old(store)[BadPostureKey := RealValue(value)]
    {
      store := store[BadPostureKey := RealValue(value)];
    }

    method SetIsCalibrated(value: bool)
      modifies this
      ensures store == old(store)[IsCalibratedKey := BoolValue(value)]
    {
      store := store[IsCalibratedKey := BoolValue(value)];
    }
  }
}
