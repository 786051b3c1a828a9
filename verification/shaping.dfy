/**
 * Per-phase output shaping: how the motors service turns one decoded force
 * message into the control values it hands to the driver.
 *
 * The force-to-ESC curve is a parameter `f2e(force, voltage)`; its
 * calibration body is not part of this model. Single-precision floats are
 * modelled as reals.
 */
module Shaping {
  import opened Wrappers
  import opened Messages
  import opened MotorStates

  /** The smallest control value sent to a running motor. */
  const MIN_GAS: real := 0.1

  /** Capacity of the service's control array. */
  const MAX_CTRLS: nat := 16

  /** A force-to-ESC curve: requested force and supply voltage to a control value. */
  type F2E = (real, real) -> real

  /** `fmax`: the larger of two values. */
  function Fmax(a: real, b: real): (m: real)
    ensures m >= a && m >= b
    ensures m == a || m == b
  {
    if a >= b then a else b
  }

  /**
   * The control value of one motor in a base phase: the curve floored at
   * `MIN_GAS` while running, exactly `MIN_GAS` while starting, exactly zero
   * while stopped or stopping. No upper clamp is applied.
   */
  function ShapeDrive(phase: Phase, force: real, voltage: real, f2e: F2E): (d: real)
    ensures phase == Running ==> d >= MIN_GAS && d >= f2e(force, voltage)
    ensures phase == Running ==> d == MIN_GAS || d == f2e(force, voltage)
    ensures phase == Starting ==> d == MIN_GAS
    ensures phase == Stopped || phase == Stopping ==> d == 0.0
  {
    match phase
    case Running => Fmax(MIN_GAS, f2e(force, voltage))
    case Starting => MIN_GAS
    case Stopped => 0.0
    case Stopping => 0.0
  }

  /** A forces message the control array can hold: `[enable]` plus at most 16 forces. */
  predicate FitsCtrls(items: seq<Elem>) {
    HasElement0(items) && ForceCount(items) <= MAX_CTRLS
  }

  /**
   * The control vector of a forces message: one value per force, in motor
   * order, each shaped from the message's own force for that motor.
   */
  function Ctrls(phase: Phase, items: seq<Elem>, voltage: real, f2e: F2E): (c: seq<real>)
    requires FitsCtrls(items)
    ensures |c| + 1 == |items| && |c| <= MAX_CTRLS
    ensures phase == Running ==>
      forall i :: 0 <= i < |c| ==> c[i] == Fmax(MIN_GAS, f2e(items[i + 1].dec, voltage))
    ensures phase == Starting ==> forall i :: 0 <= i < |c| ==> c[i] == MIN_GAS
    ensures phase == Stopped || phase == Stopping ==> forall i :: 0 <= i < |c| ==> c[i] == 0.0
  {
    seq(ForceCount(items), i requires 0 <= i < ForceCount(items) =>
      ShapeDrive(phase, Force(items, i), voltage, f2e))
  }

  /**
   * The service's loop over the forces of a message, filling one control
   * value per force.
   */
  method FillCtrls(phase: Phase, items: seq<Elem>, voltage: real, f2e: F2E) returns (ctrls: seq<real>)
    requires FitsCtrls(items)
    ensures |ctrls| == ForceCount(items)
    ensures forall i :: 0 <= i < |ctrls| ==> ctrls[i] == ShapeDrive(phase, items[i + 1].dec, voltage, f2e)
    ensures ctrls == Ctrls(phase, items, voltage, f2e)
  {
    var n := ForceCount(items);
    ctrls := [];
    var i := 0;
    while i < n
      invariant 0 <= i <= n
      invariant |ctrls| == i
      invariant forall j :: 0 <= j < i ==> ctrls[j] == ShapeDrive(phase, items[j + 1].dec, voltage, f2e)
    {
      var force := items[i + 1].dec;
      ctrls := ctrls + [ShapeDrive(phase, force, voltage, f2e)];
      i := i + 1;
    }
  }

  /**
   * The control slots a command fills, for the state the update returned.
   * The output switch has cases for the four base states only: in a
   * saturated state (codes 4..7) every slot is left unset (`None`), and its
   * content is indeterminate when the array is handed to the driver.
   */
  function Slots(state: MotorsState, items: seq<Elem>, voltage: real, f2e: F2E): (w: seq<Option<real>>)
    requires FitsCtrls(items)
    ensures |w| == ForceCount(items)
    ensures state.saturated ==> forall i :: 0 <= i < |w| ==> w[i] == None
    ensures !state.saturated ==>
      forall i :: 0 <= i < |w| ==> w[i] == Some(ShapeDrive(state.phase, items[i + 1].dec, voltage, f2e))
  {
    if state.saturated then seq(ForceCount(items), _ => None)
    else
      var c := Ctrls(state.phase, items, voltage, f2e);
      seq(|c|, i requires 0 <= i < |c| => Some(c[i]))
  }

  /**
   * Output `i` depends only on force `i` (element `i + 1`), the phase and the
   * voltage: two messages that agree there agree on output `i`, whatever
   * their enable and other forces.
   */
  lemma CtrlsPointwise(phase: Phase, a: seq<Elem>, b: seq<Elem>, voltage: real, f2e: F2E, i: nat)
    requires FitsCtrls(a) && FitsCtrls(b)
    requires i < ForceCount(a) && i < ForceCount(b)
    requires a[i + 1].dec == b[i + 1].dec
    ensures Ctrls(phase, a, voltage, f2e)[i] == Ctrls(phase, b, voltage, f2e)[i]
  {
  }

  /** While running, a curve value at or above `MIN_GAS` is passed through unclamped. */
  lemma RunningHasNoCeiling(force: real, voltage: real, f2e: F2E)
    requires f2e(force, voltage) >= MIN_GAS
    ensures ShapeDrive(Running, force, voltage, f2e) == f2e(force, voltage)
  {
  }
}
