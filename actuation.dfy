/** The actuation slot and its control loop. A writer overwrites the slot
    with four speed bytes, stamping the next number of an atomic counter and
    the current time; every pass of the control loop takes a snapshot,
    stops all motors when the snapshot is older than 400 ms, and otherwise
    drives motors 1-3 from it only when its sequence number is newer than
    the last one applied. */
module Actuation {
  import opened Bytes
  import opened MotorCommands
  import opened Gpio

  /** Watchdog window: 400 ms in microseconds. */
  const TimeoutMicros: nat := 400000
  const Wrap64: nat := 0x1_0000_0000_0000_0000
  /** Motors driven from speeds[0..3]; speeds[3] is carried but unused. */
  const DriveChannels: nat := 3

  /** The command slot and the writer's sequence counter. */
  datatype Slot = Slot(command: MotorCommand, counter: UInt64)

  /** Static zero-initialisation of the slot and the counter. */
  const InitialSlot := Slot(ZeroCommand, 0)

  /** `write_motor_data_zero`: the command becomes all zero; the counter is untouched. */
  function ClearSlot(s: Slot): Slot
  {
    s.(command := ZeroCommand)
  }

  /** `write_motor_data`: the four bytes reinterpreted as `int8_t`, the
      counter's previous value as sequence (`fetch_add` wraps at 2^64), and
      the time as timestamp. */
  function WriteSlot(s: Slot, data: seq<Byte>, now: UInt64): (r: Slot)
    requires |data| == DataSize
    ensures forall i :: 0 <= i < DataSize ==> r.command.speeds[i] == AsInt8(data[i])
    ensures r.command.sequence == s.counter && r.command.timestamp == now
    ensures r.counter == (s.counter + 1) % Wrap64
  {
    var speeds := seq(DataSize, i requires 0 <= i < DataSize => AsInt8(data[i]));
    Slot(MotorCommand(speeds, s.counter, now), (s.counter + 1) % Wrap64)
  }

  /** Successive writes are numbered consecutively (modulo 2^64), whatever
      was cleared in between. */
  lemma SuccessiveWrites(s: Slot, d1: seq<Byte>, t1: UInt64, d2: seq<Byte>, t2: UInt64)
    requires |d1| == DataSize && |d2| == DataSize
    ensures var s1 := WriteSlot(s, d1, t1);
      WriteSlot(s1, d2, t2).command.sequence == (s1.command.sequence + 1) % Wrap64 &&
      WriteSlot(ClearSlot(s1), d2, t2).command.sequence == (s1.command.sequence + 1) % Wrap64
  {
  }

  /** Clearing the slot makes its command stale-or-old: its sequence 0 is
      never newer than anything, so the loop cannot apply it. */
  lemma ClearedSlotNeverNew(s: Slot, last: UInt64)
    ensures ClearSlot(s).command.sequence <= last && ClearSlot(s).counter == s.counter
  {
  }

  /** `now - timestamp` in `uint64_t` arithmetic. */
  function Age(now: UInt64, stamp: UInt64): (a: UInt64)
    ensures stamp <= now ==> a == now - stamp
  {
    (now - stamp) % Wrap64
  }

  predicate Stale(c: MotorCommand, now: UInt64) {
    Age(now, c.timestamp) > TimeoutMicros
  }

  /** What `read_motor_data` reports: the snapshot is newer than the last applied. */
  predicate IsNew(c: MotorCommand, last: UInt64) {
    c.sequence > last
  }

  /** The three motors and `last_sequence` of the control task. */
  datatype Controller = Controller(m1: Bridge, m2: Bridge, m3: Bridge, last: UInt64)

  /** The control task before its first pass, as `init` leaves the motors. */
  const InitialController := Controller(Idle, Idle, Idle, 0)

  /** How one pass ends. */
  datatype StepOutcome = Stopped | Restart | Held | Applied

  /** `stop_motors`: stop each motor in turn; the first failure restarts the
      chip, so the motors after it are not touched. */
  function HaltAll(ctl: Controller, ok: seq<bool>): (r: (bool, Controller))
    requires |ok| == DriveChannels
  {
    var (r1, b1) := StopEffect(ctl.m1, ok[0]);
    if r1.Failure? then (true, ctl.(m1 := b1))
    else
      var (r2, b2) := StopEffect(ctl.m2, ok[1]);
      if r2.Failure? then (true, ctl.(m1 := b1, m2 := b2))
      else
        var (r3, b3) := StopEffect(ctl.m3, ok[2]);
        (r3.Failure?, ctl.(m1 := b1, m2 := b2, m3 := b3))
  }

  /** Motor i driven from the snapshot: direction from the raw speed, the
      scaled speed passed as `uint16_t` (a negative value wraps). */
  function DriveChannel(b: Bridge, c: MotorCommand, i: nat, pwmOk: bool): (Outcome, Bridge)
    requires i < DataSize
  {
    var speed := AsUInt16(ScaledSpeed(c, i));
    if Direction(c, i) then ForwardEffect(b, speed, pwmOk) else BackwardEffect(b, speed, pwmOk)
  }

  /** One pass of `motor_control_task` over snapshot c at time now; ok[i]
      is the outcome of the PWM request of motor i + 1 in this pass. Drive
      failures are only logged. */
  function ControlStep(ctl: Controller, c: MotorCommand, now: UInt64, ok: seq<bool>): (StepOutcome, Controller)
    requires |ok| == DriveChannels
  {
    if Stale(c, now) then
      var (restart, halted) := HaltAll(ctl, ok);
      (if restart then Restart else Stopped, halted)
    else if !IsNew(c, ctl.last) then (Held, ctl)
    else
      (Applied, Controller(DriveChannel(ctl.m1, c, 0, ok[0]).1, DriveChannel(ctl.m2, c, 1, ok[1]).1,
                           DriveChannel(ctl.m3, c, 2, ok[2]).1, c.sequence))
  }

  predicate AllSafe(ctl: Controller) {
    Safe(ctl.m1) && Safe(ctl.m2) && Safe(ctl.m3)
  }

  predicate AllInRange(ctl: Controller) {
    DutyInRange(ctl.m1) && DutyInRange(ctl.m2) && DutyInRange(ctl.m3)
  }

  predicate AllOk(ok: seq<bool>)
    requires |ok| == DriveChannels
  {
    ok[0] && ok[1] && ok[2]
  }

  /** The stop sequence ends in Idle motors iff every stop succeeds, and
      restarts otherwise; it never touches last_sequence. */
  lemma HaltAllOutcome(ctl: Controller, ok: seq<bool>)
    requires |ok| == DriveChannels
    ensures var (restart, halted) := HaltAll(ctl, ok);
      (restart <==> !AllOk(ok)) && halted.last == ctl.last &&
      (!restart ==> halted.m1 == Idle && halted.m2 == Idle && halted.m3 == Idle) &&
      (!ok[0] ==> halted.m2 == ctl.m2 && halted.m3 == ctl.m3)
  {
  }

  /** The watchdog takes precedence: a stale snapshot stops every motor,
      new or not, and leaves last_sequence alone. */
  lemma StaleStopsAll(ctl: Controller, c: MotorCommand, now: UInt64, ok: seq<bool>)
    requires |ok| == DriveChannels
    requires Stale(c, now)
    ensures var (outcome, ctl') := ControlStep(ctl, c, now, ok);
      (outcome == Stopped || outcome == Restart) && ctl'.last == ctl.last &&
      (outcome == Stopped <==> AllOk(ok)) &&
      (outcome == Stopped ==> ctl'.m1 == Idle && ctl'.m2 == Idle && ctl'.m3 == Idle)
  {
    HaltAllOutcome(ctl, ok);
  }

  /** A fresh snapshot that is not new changes nothing at all. */
  lemma FreshOldHolds(ctl: Controller, c: MotorCommand, now: UInt64, ok: seq<bool>)
    requires |ok| == DriveChannels
    requires !Stale(c, now) && c.sequence <= ctl.last
    ensures ControlStep(ctl, c, now, ok) == (Held, ctl)
  {
  }

  /** A fresh, new snapshot drives motor i by its direction with the clamped
      duty, and records the snapshot's sequence number. */
  lemma FreshNewApplies(ctl: Controller, c: MotorCommand, now: UInt64, ok: seq<bool>)
    requires |ok| == DriveChannels
    requires !Stale(c, now) && c.sequence > ctl.last
    ensures var (outcome, ctl') := ControlStep(ctl, c, now, ok);
      outcome == Applied && ctl'.last == c.sequence &&
      ctl'.m1.in1 == Direction(c, 0) && ctl'.m1.in2 == !Direction(c, 0) &&
      ctl'.m2.in1 == Direction(c, 1) && ctl'.m2.in2 == !Direction(c, 1) &&
      ctl'.m3.in1 == Direction(c, 2) && ctl'.m3.in2 == !Direction(c, 2) &&
      ctl'.m1.duty == (if ok[0] then Clamp(AsUInt16(ScaledSpeed(c, 0)), MinDuty, MaxDuty) else ctl.m1.duty) &&
      ctl'.m2.duty == (if ok[1] then Clamp(AsUInt16(ScaledSpeed(c, 1)), MinDuty, MaxDuty) else ctl.m2.duty) &&
      ctl'.m3.duty == (if ok[2] then Clamp(AsUInt16(ScaledSpeed(c, 2)), MinDuty, MaxDuty) else ctl.m3.duty)
  {
  }

  /** A pass applies a snapshot iff it is fresh and newer than the last
      applied; last_sequence only ever grows, and only by applying. */
  lemma StepAppliesOnlyNew(ctl: Controller, c: MotorCommand, now: UInt64, ok: seq<bool>)
    requires |ok| == DriveChannels
    ensures var (outcome, ctl') := ControlStep(ctl, c, now, ok);
      (outcome == Applied <==> !Stale(c, now) && c.sequence > ctl.last) &&
      ctl'.last >= ctl.last &&
      (ctl'.last != ctl.last ==> outcome == Applied && ctl'.last == c.sequence)
  {
    if Stale(c, now) {
      StaleStopsAll(ctl, c, now, ok);
    }
  }

  /** Every pass keeps every bridge off the both-pins-high state and within
      the 10-bit duty range. */
  lemma StepKeepsBridgesSafe(ctl: Controller, c: MotorCommand, now: UInt64, ok: seq<bool>)
    requires |ok| == DriveChannels
    requires AllSafe(ctl) && AllInRange(ctl)
    ensures AllSafe(ControlStep(ctl, c, now, ok).1) && AllInRange(ControlStep(ctl, c, now, ok).1)
  {
    var speeds := [AsUInt16(ScaledSpeed(c, 0)), AsUInt16(ScaledSpeed(c, 1)), AsUInt16(ScaledSpeed(c, 2))];
    OperationsAreSafe(ctl.m1, speeds[0], ok[0]);
    OperationsAreSafe(ctl.m2, speeds[1], ok[1]);
    OperationsAreSafe(ctl.m3, speeds[2], ok[2]);
  }

  /** A non-negative speed reaches the motor as its scaled value, which is
      its absolute speed. */
  lemma ForwardDutyIsScaled(b: Bridge, c: MotorCommand, i: nat)
    requires i < DataSize && c.speeds[i] >= 0
    ensures DriveChannel(b, c, i, true).1 == Bridge(true, false, AbsoluteSpeed(c, i))
  {
  }

  /** A negative speed wraps to a large `uint16_t` and saturates: the motor
      runs backward at full duty whatever the magnitude, which is more than
      its absolute speed unless the command is at -100 or below. */
  lemma BackwardDutyIsFull(b: Bridge, c: MotorCommand, i: nat)
    requires i < DataSize && c.speeds[i] < 0
    ensures DriveChannel(b, c, i, true).1 == Bridge(false, true, MaxDuty)
    ensures c.speeds[i] > MinSpeed ==> AbsoluteSpeed(c, i) < MaxDuty
  {
    assert AsUInt16(ScaledSpeed(c, i)) == ScaledSpeed(c, i) + 0x1_0000;
    if c.speeds[i] > MinSpeed {
      var x: int := c.speeds[i];
      assert -99 <= x <= -1;
      assert 1023 <= -(x * 1023) <= 101277;
    }
  }

  /** -1%: backward at duty 1023, where forward at 1% gets duty 10. */
  lemma BackwardDutyExample()
    ensures var c := MotorCommand([1, -1, 0, 0], 1, 0);
      DriveChannel(Idle, c, 0, true).1 == Bridge(true, false, 10) &&
      DriveChannel(Idle, c, 1, true).1 == Bridge(false, true, 1023)
  {
    var c := MotorCommand([1, -1, 0, 0], 1, 0);
    BackwardDutyIsFull(Idle, c, 1);
  }

  /** The first write after start-up is numbered 0 and so is never applied:
      no pass at any time, from the initial last_sequence 0, drives from it. */
  lemma FirstWriteNeverApplied(data: seq<Byte>, t: UInt64, now: UInt64, ctl: Controller, ok: seq<bool>)
    requires |data| == DataSize && |ok| == DriveChannels
    requires ctl.last == InitialController.last
    ensures WriteSlot(InitialSlot, data, t).command.sequence == 0
    ensures ControlStep(ctl, WriteSlot(InitialSlot, data, t).command, now, ok).0 != Applied
  {
    StepAppliesOnlyNew(ctl, WriteSlot(InitialSlot, data, t).command, now, ok);
  }

  /** The second write is numbered 1 and is applied by a pass within the window. */
  lemma SecondWriteApplied(d1: seq<Byte>, t1: UInt64, d2: seq<Byte>, t2: UInt64, ok: seq<bool>)
    requires |d1| == DataSize && |d2| == DataSize && |ok| == DriveChannels
    ensures var c := WriteSlot(WriteSlot(InitialSlot, d1, t1), d2, t2).command;
      c.sequence == 1 && ControlStep(InitialController, c, t2, ok).0 == Applied
  {
  }

  /** The watchdog window: a write with sequence 5 stamped at t0 is applied
      by the next pass; with no further write it is held up to t0 + 400000
      and every motor is stopped at t0 + 400001, although it was applied. */
  lemma WatchdogScenario(s: Slot, data: seq<Byte>, t0: UInt64, ctl: Controller, ok: seq<bool>)
    requires |data| == DataSize && |ok| == DriveChannels && AllOk(ok)
    requires s.counter == 5 && ctl.last < 5
    requires t0 + TimeoutMicros + 1 < Wrap64
    ensures var c := WriteSlot(s, data, t0).command;
      var (o1, ctl1) := ControlStep(ctl, c, t0, ok);
      var (o2, ctl2) := ControlStep(ctl1, c, t0 + TimeoutMicros, ok);
      var (o3, ctl3) := ControlStep(ctl2, c, t0 + TimeoutMicros + 1, ok);
      o1 == Applied && ctl1.last == 5 &&
      o2 == Held && ctl2 == ctl1 &&
      o3 == Stopped && ctl3 == Controller(Idle, Idle, Idle, 5)
  {
    var c := WriteSlot(s, data, t0).command;
    var ctl1 := ControlStep(ctl, c, t0, ok).1;
    assert Age(t0 + TimeoutMicros + 1, t0) == TimeoutMicros + 1;
    StaleStopsAll(ctl1, c, t0 + TimeoutMicros + 1, ok);
  }

  /** The shared slot: the command fields and the atomic counter. */
  class CommandSlot {
    var speeds: Speeds
    var sequence: UInt64
    var timestamp: UInt64
    var counter: UInt64

    function State(): Slot
      reads this
    {
      Slot(MotorCommand(speeds, sequence, timestamp), counter)
    }

    constructor()
      ensures State() == InitialSlot
    {
      speeds, sequence, timestamp, counter := [0, 0, 0, 0], 0, 0, 0;
    }

    /** `write_motor_data_zero` (the memset). */
    method WriteZero()
      modifies this
      ensures State() == ClearSlot(old(State()))
    {
      speeds, sequence, timestamp := [0, 0, 0, 0], 0, 0;
    }

    /** `write_motor_data`: memcpy of the four bytes, then the counter's
        `fetch_add`, then the clock. */
    method Write(data: seq<Byte>, now: UInt64)
      requires |data| == DataSize
      modifies this
      ensures State() == WriteSlot(old(State()), data, now)
    {
      speeds := [AsInt8(data[0]), AsInt8(data[1]), AsInt8(data[2]), AsInt8(data[3])];
      sequence := counter;
      counter := (counter + 1) % Wrap64;
      timestamp := now;
    }

    /** `read_motor_data`: a copy of the command and whether it is new. */
    method Read(last: UInt64) returns (snapshot: MotorCommand, isNew: bool)
      ensures snapshot == State().command
      ensures isNew <==> IsNew(snapshot, last)
    {
      snapshot := MotorCommand(speeds, sequence, timestamp);
      isNew := snapshot.sequence > last;
    }
  }

  /** The control task: its three motors and last_sequence. */
  class MotorController {
    const m1: Motor
    const m2: Motor
    const m3: Motor
    var last: UInt64

    /** The three motors are distinct channels. */
    ghost predicate Valid()
      reads this
    {
      m1 != m2 && m1 != m3 && m2 != m3
    }

    function State(): Controller
      reads this, m1, m2, m3
    {
      Controller(m1.State(), m2.State(), m3.State(), last)
    }

    /** The task's locals before the loop, with the three motors initialised. */
    constructor()
      ensures Valid() && fresh(m1) && fresh(m2) && fresh(m3)
      ensures State() == InitialController
    {
      m1 := new Motor();
      m2 := new Motor();
      m3 := new Motor();
      last := 0;
    }

    /** `stop_motors`; `restart` stands for `esp_restart`, which does not return. */
    method StopMotors(ok: seq<bool>) returns (restart: bool)
      requires Valid() && |ok| == DriveChannels
      modifies m1, m2, m3
      ensures (restart, State()) == HaltAll(old(State()), ok)
    {
      var r := m1.Stop(ok[0]);
      if r.Failure? {
        return true;
      }
      r := m2.Stop(ok[1]);
      if r.Failure? {
        return true;
      }
      r := m3.Stop(ok[2]);
      restart := r.Failure?;
    }

    /** Motor `m`, channel i, driven from the snapshot. */
    method Drive(m: Motor, c: MotorCommand, i: nat, pwmOk: bool)
      requires i < DataSize
      modifies m
      ensures m.State() == DriveChannel(old(m.State()), c, i, pwmOk).1
    {
      var speed := AsUInt16(ScaledSpeed(c, i));
      var r: Outcome;
      if Direction(c, i) {
        r := m.Forward(speed, pwmOk);
      } else {
        r := m.Backward(speed, pwmOk);
      }
    }

    /** One pass of the loop: snapshot, watchdog, newness, drive. */
    method Step(slot: CommandSlot, now: UInt64, ok: seq<bool>) returns (outcome: StepOutcome)
      requires Valid() && |ok| == DriveChannels
      modifies this, m1, m2, m3
      ensures (outcome, State()) == ControlStep(old(State()), old(slot.State()).command, now, ok)
      ensures slot.State() == old(slot.State())
    {
      var current, gotNew := slot.Read(last);
      if Stale(current, now) {
        var restart := StopMotors(ok);
        return if restart then Restart else Stopped;
      }
      if !gotNew {
        return Held;
      }
      Drive(m1, current, 0, ok[0]);
      Drive(m2, current, 1, ok[1]);
      Drive(m3, current, 2, ok[2]);
      last := current.sequence;
      outcome := Applied;
    }
  }
}
