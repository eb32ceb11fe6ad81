/** The actuation command: four signed speed percentages with the sequence
    number and timestamp the writer stamps, and the conversions the control
    loop applies to a speed (scale to the 10-bit duty range, direction,
    magnitude). */
module MotorCommands {
  import opened Bytes

  const MinSpeed: Int8 := -100
  const MaxSpeed: Int8 := 100
  /** Number of speed bytes a command carries. */
  const DataSize: nat := 4
  /** The scaled speed of a full-speed command: the largest 10-bit duty. */
  const FullScale: nat := 1023

  type Speeds = s: seq<Int8> | |s| == DataSize witness [0, 0, 0, 0]

  datatype MotorCommand = MotorCommand(speeds: Speeds, sequence: UInt64, timestamp: UInt64)

  /** The all-zero slot: static initialisation, and `write_motor_data_zero`. */
  const ZeroCommand := MotorCommand([0, 0, 0, 0], 0, 0)

  /** Truncating division of a clamped percentage times 1023 stays in range
      and keeps the sign of the percentage. */
  lemma ScaleBounds(x: int)
    requires MinSpeed <= x <= MaxSpeed
    ensures -1023 <= TruncDiv(x * 1023, 100) <= 1023
    ensures TruncDiv(x * 1023, 100) == 0 <==> x == 0
    ensures TruncDiv(x * 1023, 100) > 0 <==> x > 0
  {
    if x > 0 {
      assert 1023 <= x * 1023 <= 102300;
    } else if x < 0 {
      assert 1023 <= -(x * 1023) <= 102300;
    }
  }

  /** `getScaledSpeed`: the percentage clamped to [-100, 100], times 1023,
      divided by 100 with C's truncation toward zero. */
  function ScaledSpeed(c: MotorCommand, i: nat): (r: Int16)
    requires i < DataSize
    ensures -(FullScale as int) <= r <= FullScale
    ensures r == 0 <==> c.speeds[i] == 0
    ensures r > 0 <==> c.speeds[i] > 0
  {
    var clamped := Clamp(c.speeds[i], MinSpeed, MaxSpeed);
    ScaleBounds(clamped);
    TruncDiv(clamped * 1023, 100)
  }

  /** `getDirection`: forward for a non-negative raw speed. */
  predicate Direction(c: MotorCommand, i: nat)
    requires i < DataSize
  {
    c.speeds[i] >= 0
  }

  /** `getAbsoluteSpeed`: the magnitude of the scaled speed as `uint16_t`. */
  function AbsoluteSpeed(c: MotorCommand, i: nat): (r: UInt16)
    requires i < DataSize
    ensures r <= FullScale
    ensures r == ScaledSpeed(c, i) || r == -ScaledSpeed(c, i)
    ensures r == 0 <==> c.speeds[i] == 0
  {
    var s := ScaledSpeed(c, i);
    if s < 0 then -s else s
  }

  /** The direction agrees with the sign of the scaled speed. */
  lemma DirectionMatchesScale(c: MotorCommand, i: nat)
    requires i < DataSize
    ensures Direction(c, i) <==> ScaledSpeed(c, i) >= 0
    ensures Direction(c, i) ==> AbsoluteSpeed(c, i) == ScaledSpeed(c, i)
    ensures !Direction(c, i) ==> AbsoluteSpeed(c, i) == -ScaledSpeed(c, i)
  {
  }

  /** Speeds at or beyond the limits saturate at full scale. */
  lemma ScaledSpeedSaturates(c: MotorCommand, i: nat)
    requires i < DataSize
    ensures c.speeds[i] >= MaxSpeed ==> ScaledSpeed(c, i) == FullScale
    ensures c.speeds[i] <= MinSpeed ==> ScaledSpeed(c, i) == -(FullScale as int)
  {
  }

  /** Truncation toward zero makes scaling odd: opposite speeds give
      opposite scaled speeds (flooring division would not). */
  lemma ScaledSpeedOdd(c: MotorCommand, i: nat, d: MotorCommand, j: nat)
    requires i < DataSize && j < DataSize
    requires d.speeds[j] as int == -(c.speeds[i] as int)
    ensures ScaledSpeed(d, j) == -ScaledSpeed(c, i)
    ensures AbsoluteSpeed(d, j) == AbsoluteSpeed(c, i)
  {
    var x := Clamp(c.speeds[i], MinSpeed, MaxSpeed);
    assert Clamp(d.speeds[j], MinSpeed, MaxSpeed) == -x;
    assert (-x) * 1023 == -(x * 1023);
  }

  /** A faster command is never scaled to a smaller value. */
  lemma ScaledSpeedMonotone(c: MotorCommand, i: nat, d: MotorCommand, j: nat)
    requires i < DataSize && j < DataSize
    requires c.speeds[i] <= d.speeds[j]
    ensures ScaledSpeed(c, i) <= ScaledSpeed(d, j)
  {
    var x := Clamp(c.speeds[i], MinSpeed, MaxSpeed);
    var y := Clamp(d.speeds[j], MinSpeed, MaxSpeed);
    assert x <= y;
    assert x * 1023 <= y * 1023;
    if x < 0 && y < 0 {
      assert (-(y * 1023)) / 100 <= (-(x * 1023)) / 100;
    }
  }

  /** Half speed either way is 511 (not 511.5 rounded), one percent is 10. */
  lemma ScaledSpeedExamples()
    ensures var c := MotorCommand([50, -50, 1, 127], 0, 0);
      ScaledSpeed(c, 0) == 511 && ScaledSpeed(c, 1) == -511 &&
      ScaledSpeed(c, 2) == 10 && ScaledSpeed(c, 3) == 1023
  {
  }
}
