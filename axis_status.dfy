/** Axis state and the state snapshot an axis reports (src/axis/state.rs, src/axis/state_info.rs). */
module AxisStatus {
  import opened Wrappers
  import LS = LimitSwitch

  datatype AxisState = On | Moving | Alarm | Fault | Unknown

  /** The name `{:?}` prints for a state. */
  function StateName(s: AxisState): string {
    match s
    case On => "On"
    case Moving => "Moving"
    case Alarm => "Alarm"
    case Fault => "Fault"
    case Unknown => "Unknown"
  }

  datatype AxisStateInfo = AxisStateInfo(state: AxisState, message: Option<string>, limitSwitches: LS.LimitSwitches) {

    predicate IsMoving() {
      state == Moving
    }

    predicate IsFaulted() {
      state == Alarm || state == Fault
    }

    predicate IsReady() {
      state == On && !limitSwitches.AnyActive()
    }
  }

  /** `AxisStateInfo::new`: no message, no switch active. */
  function New(state: AxisState): (info: AxisStateInfo)
    ensures info.state == state && info.message == None && info.limitSwitches == LS.None
  {
    AxisStateInfo(state, None, LS.None)
  }

  /** `with_message` replaces the message and nothing else. */
  function WithMessage(info: AxisStateInfo, message: string): (r: AxisStateInfo)
    ensures r.message == Some(message)
    ensures r.state == info.state && r.limitSwitches == info.limitSwitches
  {
    info.(message := Some(message))
  }

  /** `with_limit_switches` replaces the switch status and nothing else. */
  function WithLimitSwitches(info: AxisStateInfo, switches: LS.LimitSwitches): (r: AxisStateInfo)
    ensures r.limitSwitches == switches
    ensures r.state == info.state && r.message == info.message
  {
    info.(limitSwitches := switches)
  }

  /** Readiness, motion and fault are mutually exclusive, and a fresh `On` snapshot is ready. */
  lemma ReadyExcludesMovingAndFaulted(info: AxisStateInfo)
    ensures info.IsReady() ==> !info.IsMoving() && !info.IsFaulted()
    ensures !(info.IsMoving() && info.IsFaulted())
    ensures New(On).IsReady()
    ensures New(info.state).IsReady() <==> info.state == On
  {
  }

  /** An active limit switch makes an `On` axis not ready, whatever the message says. */
  lemma SwitchBlocksReadiness(info: AxisStateInfo, switches: LS.LimitSwitches, message: string)
    ensures WithLimitSwitches(info, switches).IsReady() <==> info.state == On && switches.IsClear()
    ensures WithMessage(info, message).IsReady() == info.IsReady()
  {
  }

  /** Distinct states print distinct names, so the printed state identifies it. */
  lemma StateNameInjective(s: AxisState, t: AxisState)
    ensures StateName(s) == StateName(t) ==> s == t
  {
  }
}
