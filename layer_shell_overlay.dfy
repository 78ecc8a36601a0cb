/**
 * The layer-shell overlay back end (postured/layer_shell_overlay.py): the same rate-limited
 * opacity as the Qt overlay, pushed to a worker process as one `set_opacity` command per changing
 * tick, plus the readiness flags the worker's messages and process signals maintain.
 */
module LayerShell {
  import opened Common
  import opened Easing

  /** A command line written to the worker's stdin. */
  datatype Command = SetOpacity(value: real)

  /** A decoded JSON message from the worker's stdout; absent keys are `None`. */
  datatype WorkerMessage = WorkerMessage(status: Option<string>, monitors: Option<seq<string>>)

  class LayerShellOverlay {
    var ready: bool
    var monitors: seq<string>
    var currentOpacity: real
    var targetOpacity: real
    /** Every command written to the worker, oldest first. */
    var commands: seq<Command>

    ghost predicate Valid()
      reads this
    {
      0.0 <= currentOpacity <= 1.0 && 0.0 <= targetOpacity <= 1.0
    }

    constructor ()
      ensures Valid() && !ready && monitors == [] && currentOpacity == 0.0 && targetOpacity == 0.0
      ensures commands == []
    {
      ready := false;
      monitors := [];
      currentOpacity := 0.0;
      targetOpacity := 0.0;
      commands := [];
    }

    /** `_handle_message`: "ready" records the monitors (none if absent); anything else is only logged. */
    method HandleMessage(msg: WorkerMessage)
      modifies this`ready, this`monitors
      ensures msg.status == Some("ready") ==>
                ready && monitors == (if msg.monitors.Some? then msg.monitors.value else [])
      ensures msg.status != Some("ready") ==> ready == old(ready) && monitors == old(monitors)
    {
      if msg.status == Some("ready") {
        ready := true;
        monitors := if msg.monitors.Some? then msg.monitors.value else [];
      }
    }

    /** `_on_finished`: the worker exited, normally or not. */
    method OnFinished()
      modifies this`ready
      ensures !ready
    {
      ready := false;
    }

    /** `_on_error`: the worker failed to start, crashed, timed out or failed to read or write. */
    method OnError()
      modifies this`ready
      ensures !ready
    {
      ready := false;
    }

    /** `_send_command`: written only while the worker process is running. */
    method SendCommand(cmd: Command, processRunning: bool)
      modifies this`commands
      ensures commands == old(commands) + (if processRunning then [cmd] else [])
    {
      if processRunning {
        commands := commands + [cmd];
      }
    }

    /** `set_target_opacity`: the argument clamped into [0,1]. */
    method SetTargetOpacity(opacity: real)
      requires Valid()
      modifies this`targetOpacity
      ensures Valid() && targetOpacity == Clamp01(opacity)
    {
      targetOpacity := Max(0.0, Min(1.0, opacity));
    }

    /**
     * `_update_opacity`: a converged tick sends nothing; any other tick takes one easing step and
     * sends the new opacity once, if the worker is running.
     */
    method UpdateOpacity(processRunning: bool)
      requires Valid()
      modifies this`currentOpacity, this`commands
      ensures Valid() && currentOpacity == Ease(old(currentOpacity), targetOpacity)
      ensures commands == old(commands) +
                (if Converged(old(currentOpacity), targetOpacity) || !processRunning then []
                 else [SetOpacity(currentOpacity)])
    {
      if Abs(currentOpacity - targetOpacity) < ConvergedBand {
        return;
      }
      if currentOpacity < targetOpacity {
        currentOpacity := Min(currentOpacity + EaseInRate, targetOpacity);
      } else {
        currentOpacity := Max(currentOpacity - EaseOutRate, targetOpacity);
      }
      EaseStaysInUnit(old(currentOpacity), targetOpacity);
      SendCommand(SetOpacity(currentOpacity), processRunning);
    }
  }
}
