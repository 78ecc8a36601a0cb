/**
 * The GNOME Shell back end (postured/gnome_overlay.py): the same rate-limited opacity, sent to the
 * shell extension once per changing tick. The `gdbus` call itself is an append to an outbox.
 */
module GnomeShell {
  import opened Common
  import opened Easing

  class GnomeOverlay {
    var currentOpacity: real
    var targetOpacity: real
    /** Every opacity handed to `_send_opacity`, oldest first. */
    var outbox: seq<real>

    ghost predicate Valid()
      reads this
    {
      0.0 <= currentOpacity <= 1.0 && 0.0 <= targetOpacity <= 1.0
    }

    constructor ()
      ensures Valid() && currentOpacity == 0.0 && targetOpacity == 0.0 && outbox == []
    {
      currentOpacity := 0.0;
      targetOpacity := 0.0;
      outbox := [];
    }

    /** `_send_opacity`: one `SetOpacity` call to the extension; its failures are ignored. */
    method SendOpacity(opacity: real)
      modifies this`outbox
      ensures outbox == old(outbox) + [opacity]
    {
      outbox := outbox + [opacity];
    }

    /** `set_target_opacity`: the argument clamped into [0,1]. */
    method SetTargetOpacity(opacity: real)
      requires Valid()
      modifies this`targetOpacity
      ensures Valid() && targetOpacity == Clamp01(opacity)
    {
      targetOpacity := Max(0.0, Min(1.0, opacity));
    }

    /** `_update_opacity`: a converged tick sends nothing; any other tick eases and sends once. */
    method UpdateOpacity()
      requires Valid()
      modifies this`currentOpacity, this`outbox
      ensures Valid() && currentOpacity == Ease(old(currentOpacity), targetOpacity)
      ensures outbox == old(outbox) +
                (if Converged(old(currentOpacity), targetOpacity) then [] else [currentOpacity])
    {
      if Abs(currentOpacity - targetOpacity) < ConvergedBand {
        return;
      }
      if currentOpacity < targetOpacity {
        currentOpacity := Min(currentOpacity + EaseInRate, targetOpacity);
      } else {
        currentOpacity := Max(currentOpacity - EaseOutRate, targetOpacity);
      }
      EaseStaysInUnit(old(currentOpacity), targetOpacity);
      SendOpacity(currentOpacity);
    }
  }
}
