/**
 * The Qt overlay back end (postured/overlay.py): one full-screen window per screen, each holding a
 * darkness level, and a manager that eases a shared current opacity towards its target on every
 * transition tick and pushes the new value to all windows.
 */
module QtOverlay {
  import opened Common
  import opened Easing

  /** A full-screen overlay window; only its darkness level is modelled. */
  class OverlayWindow {
    /** `MAX_OPACITY`: the alpha of a fully dark window, as a fraction of 255. */
    static const MaxOpacity: real := 0.85

    var opacityLevel: real

    constructor ()
      ensures opacityLevel == 0.0
    {
      opacityLevel := 0.0;
    }

    /** `set_opacity`: store the level clamped into [0,1]. */
    method SetOpacity(level: real)
      modifies this`opacityLevel
      ensures opacityLevel == Clamp01(level)
    {
      opacityLevel := Max(0.0, Min(1.0, level));
    }
  }

  class Overlay {
    var windows: seq<OverlayWindow>
    var currentOpacity: real
    var targetOpacity: real

    /** Both opacities lie in [0,1]. */
    ghost predicate Valid()
      reads this
    {
      0.0 <= currentOpacity <= 1.0 && 0.0 <= targetOpacity <= 1.0
    }

    /** `__init__` with `_create_windows`: one fresh, clear window per screen. */
    constructor (screenCount: nat)
      ensures Valid() && currentOpacity == 0.0 && targetOpacity == 0.0
      ensures |windows| == screenCount
      ensures forall i :: 0 <= i < |windows| ==> fresh(windows[i]) && windows[i].opacityLevel == 0.0
    {
      var created: seq<OverlayWindow> := [];
      var i := 0;
      while i < screenCount
        invariant 0 <= i <= screenCount && |created| == i
        invariant forall j :: 0 <= j < i ==> fresh(created[j]) && created[j].opacityLevel == 0.0
      {
        var window := new OverlayWindow();
        created := created + [window];
        i := i + 1;
      }
      windows := created;
      currentOpacity := 0.0;
      targetOpacity := 0.0;
    }

    /** `set_target_opacity`: the target is the argument clamped into [0,1]. */
    method SetTargetOpacity(opacity: real)
      requires Valid()
      modifies this`targetOpacity
      ensures Valid() && targetOpacity == Clamp01(opacity)
    {
      targetOpacity := Max(0.0, Min(1.0, opacity));
    }

    /**
     * `_update_opacity`: a converged tick changes nothing; any other tick takes one easing step and
     * sets every window's level to the new opacity.
     */
    method UpdateOpacity()
      requires Valid()
      modifies this`currentOpacity, (set w | w in windows)`opacityLevel
      ensures Valid() && currentOpacity == Ease(old(currentOpacity), targetOpacity)
      ensures Converged(old(currentOpacity), targetOpacity) ==>
                forall i :: 0 <= i < |windows| ==> windows[i].opacityLevel == old(windows[i].opacityLevel)
      ensures !Converged(old(currentOpacity), targetOpacity) ==>
                forall i :: 0 <= i < |windows| ==> windows[i].opacityLevel == currentOpacity
    {
      if Abs(currentOpacity - targetOpacity) < ConvergedBand {
        return;
      }
      if currentOpacity < targetOpacity {
        currentOpacity := Min(currentOpacity + EaseInRate, targetOpacity);
      } else {
        currentOpacity := Max(currentOpacity - EaseOutRate, targetOpacity);
      }
      EaseStaysInUnit(old(currentOpacity), targetOpacity);
      var eased := currentOpacity;
      var i := 0;
      while i < |windows|
        invariant 0 <= i <= |windows| && currentOpacity == eased
        invariant forall j :: 0 <= j < i ==> windows[j].opacityLevel == eased
      {
        windows[i].SetOpacity(currentOpacity);
        i := i + 1;
      }
    }
  }
}
