/** One H-bridge motor channel: two direction pins and a 10-bit PWM duty.
    Every operation sets the pins first and then asks the PWM channel for
    the duty; the PWM call is abstract and its success is a parameter. */
module Gpio {
  import opened Bytes

  datatype MotorError = PwmInitFailed | PwmSetFailed | GpioInitFailed

  datatype Outcome = Success | Failure(error: MotorError)

  /** 10-bit resolution: duties 0..(1 << 10) - 1. */
  const MinDuty: UInt16 := 0
  const MaxDuty: UInt16 := 1023

  /** The pin levels of in1 and in2, and the duty the PWM channel holds. */
  datatype Bridge = Bridge(in1: bool, in2: bool, duty: nat)

  /** Both pins low, duty 0: the channel after `init` and after a successful `stop`. */
  const Idle := Bridge(false, false, 0)

  /** Drive the pins to (in1, in2), then request `duty`. A refused request is
      PwmSetFailed and leaves the previous duty with the new pin levels. */
  function Actuate(b: Bridge, in1: bool, in2: bool, duty: nat, pwmOk: bool): (r: (Outcome, Bridge))
    ensures r.1.in1 == in1 && r.1.in2 == in2
    ensures r.0 == Success <==> pwmOk
    ensures r.0.Failure? ==> r.0.error == PwmSetFailed
    ensures r.1.duty == if pwmOk then duty else b.duty
  {
    var pinsSet := b.(in1 := in1, in2 := in2);
    if pwmOk then (Success, pinsSet.(duty := duty)) else (Failure(PwmSetFailed), pinsSet)
  }

  /** `forward`: (in1, in2) = (1, 0), duty clamped to [0, 1023]. */
  function ForwardEffect(b: Bridge, speed: UInt16, pwmOk: bool): (Outcome, Bridge)
  {
    Actuate(b, true, false, Clamp(speed, MinDuty, MaxDuty), pwmOk)
  }

  /** `backward`: (in1, in2) = (0, 1), duty clamped to [0, 1023]. */
  function BackwardEffect(b: Bridge, speed: UInt16, pwmOk: bool): (Outcome, Bridge)
  {
    Actuate(b, false, true, Clamp(speed, MinDuty, MaxDuty), pwmOk)
  }

  /** `stop`: both pins low, duty 0. */
  function StopEffect(b: Bridge, pwmOk: bool): (Outcome, Bridge)
  {
    Actuate(b, false, false, 0, pwmOk)
  }

  /** No bridge state with both direction pins high. */
  predicate Safe(b: Bridge) {
    !(b.in1 && b.in2)
  }

  /** The duty the channel holds is a 10-bit value. */
  predicate DutyInRange(b: Bridge) {
    b.duty <= MaxDuty
  }

  /** Each operation sets its own pin pattern, so none leaves both pins
      high, whatever the state before; the duty stays a 10-bit value. */
  lemma OperationsAreSafe(b: Bridge, speed: UInt16, pwmOk: bool)
    requires DutyInRange(b)
    ensures Safe(ForwardEffect(b, speed, pwmOk).1) && DutyInRange(ForwardEffect(b, speed, pwmOk).1)
    ensures Safe(BackwardEffect(b, speed, pwmOk).1) && DutyInRange(BackwardEffect(b, speed, pwmOk).1)
    ensures Safe(StopEffect(b, pwmOk).1) && DutyInRange(StopEffect(b, pwmOk).1)
  {
  }

  /** Forward and backward differ only in the pins; a duty within range is
      passed through unchanged and a larger one saturates at 1023. */
  lemma ForwardBackwardDuty(b: Bridge, speed: UInt16)
    ensures ForwardEffect(b, speed, true).1.duty == BackwardEffect(b, speed, true).1.duty
    ensures speed <= MaxDuty ==> ForwardEffect(b, speed, true).1.duty == speed
    ensures speed > MaxDuty ==> ForwardEffect(b, speed, true).1.duty == MaxDuty
    ensures ForwardEffect(b, speed, true).1.in1 && !BackwardEffect(b, speed, true).1.in1
    ensures !ForwardEffect(b, speed, true).1.in2 && BackwardEffect(b, speed, true).1.in2
  {
  }

  /** A successful stop brings any channel to Idle; a failed one still
      lowers both pins but the duty may stay. */
  lemma StopOutcome(b: Bridge, pwmOk: bool)
    ensures pwmOk ==> StopEffect(b, pwmOk) == (Success, Idle)
    ensures !pwmOk ==> StopEffect(b, pwmOk) == (Failure(PwmSetFailed), Bridge(false, false, b.duty))
  {
  }

  /** The channel as an object whose pins and duty the methods update in the
      order the driver does. */
  class Motor {
    var in1: bool
    var in2: bool
    var duty: nat

    function State(): Bridge
      reads this
    {
      Bridge(in1, in2, duty)
    }

    /** The channel as `init` leaves it: pins configured low (pull-down),
        PWM started at duty 0. */
    constructor()
      ensures State() == Idle
    {
      in1, in2, duty := false, false, 0;
    }

    /** The PWM request; `pwmOk` stands for the outcome of `setDutyCycle`. */
    method SetDuty(requested: nat, pwmOk: bool) returns (r: Outcome)
      modifies this
      ensures r == (if pwmOk then Success else Failure(PwmSetFailed))
      ensures in1 == old(in1) && in2 == old(in2)
      ensures duty == if pwmOk then requested else old(duty)
    {
      if !pwmOk {
        return Failure(PwmSetFailed);
      }
      duty := requested;
      r := Success;
    }

    method Forward(speed: UInt16, pwmOk: bool) returns (r: Outcome)
      modifies this
      ensures (r, State()) == ForwardEffect(old(State()), speed, pwmOk)
    {
      var clamped := Clamp(speed, MinDuty, MaxDuty);
      in1 := true;
      in2 := false;
      r := SetDuty(clamped, pwmOk);
    }

    method Backward(speed: UInt16, pwmOk: bool) returns (r: Outcome)
      modifies this
      ensures (r, State()) == BackwardEffect(old(State()), speed, pwmOk)
    {
      var clamped := Clamp(speed, MinDuty, MaxDuty);
      in1 := false;
      in2 := true;
      r := SetDuty(clamped, pwmOk);
    }

    method Stop(pwmOk: bool) returns (r: Outcome)
      modifies this
      ensures (r, State()) == StopEffect(old(State()), pwmOk)
    {
      in1 := false;
      in2 := false;
      r := SetDuty(0, pwmOk);
    }
  }
}
