/** The client's motor speeds and their wire encoding: each motor holds a
    percentage clamped to [-100, 100], and a command is one two's-complement
    byte per motor, in order. */
module ClientMotorCommand {
  import opened Bytes

  const MinSpeed: Int8 := -100
  const MaxSpeed: Int8 := 100

  /** `max(-100, min(100, speed))` */
  function ClampSpeed(speed: Int8): (r: Int8)
    ensures MinSpeed <= r <= MaxSpeed
    ensures MinSpeed <= speed <= MaxSpeed ==> r == speed
    ensures speed < MinSpeed ==> r == MinSpeed
    ensures speed > MaxSpeed ==> r == MaxSpeed
  {
    if speed > MaxSpeed then MaxSpeed else if speed < MinSpeed then MinSpeed else speed
  }

  /** Clamping twice is clamping once. */
  lemma ClampSpeedIdempotent(speed: Int8)
    ensures ClampSpeed(ClampSpeed(speed)) == ClampSpeed(speed)
  {
  }

  /** The command bytes for a sequence of speeds: `UInt8(bitPattern:)` each. */
  function SpeedBytes(speeds: seq<Int8>): (data: seq<Byte>)
    ensures |data| == |speeds|
    ensures forall i :: 0 <= i < |speeds| ==> AsInt8(data[i]) == speeds[i]
  {
    seq(|speeds|, i requires 0 <= i < |speeds| => LowByte(speeds[i]))
  }

  /** Reading the bytes back as `Int8` recovers every speed, so the encoding
      is injective. */
  lemma SpeedBytesInjective(a: seq<Int8>, b: seq<Int8>)
    requires SpeedBytes(a) == SpeedBytes(b)
    ensures a == b
  {
    assert |a| == |b|;
    forall i | 0 <= i < |a|
      ensures a[i] == b[i]
    {
      assert AsInt8(SpeedBytes(a)[i]) == a[i] && AsInt8(SpeedBytes(b)[i]) == b[i];
    }
  }

  /** Negative speeds have the high bit set: -100 is sent as 0x9C. */
  lemma SpeedBytesExample()
    ensures SpeedBytes([100, -100, 0, -1]) == [100, 0x9C, 0, 0xFF]
  {
  }

  /** The `Motor` actor; a new motor is at speed 0. */
  class ClientMotor {
    var speed: Int8

    constructor()
      ensures speed == 0
    {
      speed := 0;
    }

    /** `set(speed:)` */
    method Set(newSpeed: Int8)
      modifies this
      ensures speed == ClampSpeed(newSpeed)
    {
      speed := if newSpeed > MaxSpeed then MaxSpeed else if newSpeed < MinSpeed then MinSpeed else newSpeed;
    }
  }

  /** The speeds held by a sequence of motors. */
  function Speeds(motors: seq<ClientMotor>): (s: seq<Int8>)
    reads set m | m in motors
    ensures |s| == |motors|
    ensures forall i :: 0 <= i < |motors| ==> s[i] == motors[i].speed
  {
    if motors == [] then [] else Speeds(motors[..|motors| - 1]) + [motors[|motors| - 1].speed]
  }

  /** `toBinaryData`: the append loop over the motors. */
  method ToBinaryData(motors: seq<ClientMotor>) returns (data: seq<Byte>)
    ensures data == SpeedBytes(Speeds(motors))
  {
    data := [];
    for i := 0 to |motors|
      invariant data == SpeedBytes(Speeds(motors[..i]))
    {
      assert motors[..i + 1][..i] == motors[..i];
      data := data + [LowByte(motors[i].speed)];
    }
    assert motors[..|motors|] == motors;
  }
}
