/** Payloads of the Drive (137), Drive Direct (145) and Drive PWM (146)
    commands: each channel clamped, then packed big-endian in two's complement. */
module Movement {
  import opened Bytes
  import opened Protocol

  /** Radius values that mean "straight" and "turn in place"; never clamped. */
  const Straight: Int16 := 32767
  const TurnInPlace: Int16 := -1

  function ClampRadius(radius: Int16): (r: Int16)
    ensures radius == Straight || radius == TurnInPlace ==> r == radius
    ensures radius != Straight ==> -MaxDriveRadius <= r <= MaxDriveRadius
    ensures -MaxDriveRadius <= radius <= MaxDriveRadius ==> r == radius
    ensures radius != Straight && radius > MaxDriveRadius ==> r == MaxDriveRadius
    ensures radius != TurnInPlace && radius < -MaxDriveRadius ==> r == -MaxDriveRadius
  {
    if radius != Straight && radius != TurnInPlace then Clamp(radius, -MaxDriveRadius, MaxDriveRadius) else radius
  }

  /** Two 16-bit channels, each as [high, low]. */
  function PackPair(first: Int16, second: Int16): (p: seq<Byte>)
    ensures |p| == 4
  {
    EncodeInt16(first) + EncodeInt16(second)
  }

  /** Read back big-endian in two's complement, the packed pair gives both values. */
  lemma PackPairDecodes(first: Int16, second: Int16)
    ensures var p := PackPair(first, second);
      AsInt16(BigEndian16(p[0], p[1])) == first && AsInt16(BigEndian16(p[2], p[3])) == second
  {
    Int16RoundTrip(first);
    Int16RoundTrip(second);
  }

  /** The packed pair, byte by byte, as the drive operations build it. */
  lemma PackPairBytes(first: Int16, second: Int16)
    ensures PackPair(first, second) == [HighByte(first), LowByte(first), HighByte(second), LowByte(second)]
  {
  }

  /** [vel_hi, vel_lo, rad_hi, rad_lo] */
  function DrivePayload(velocity: Int16, radius: Int16): (p: seq<Byte>)
    ensures |p| == 4
  {
    PackPair(Clamp(velocity, -MaxDriveSpeed, MaxDriveSpeed), ClampRadius(radius))
  }

  /** The drive payload carries the velocity clamped to ±500 and the radius as
      `ClampRadius` leaves it. */
  lemma DrivePayloadDecodes(velocity: Int16, radius: Int16)
    ensures var p := DrivePayload(velocity, radius);
      AsInt16(BigEndian16(p[0], p[1])) == Clamp(velocity, -MaxDriveSpeed, MaxDriveSpeed) &&
      AsInt16(BigEndian16(p[2], p[3])) == ClampRadius(radius)
  {
    PackPairDecodes(Clamp(velocity, -MaxDriveSpeed, MaxDriveSpeed), ClampRadius(radius));
  }

  /** [right_hi, right_lo, left_hi, left_lo], each channel clamped to ±500 on its own. */
  function DriveDirectPayload(right: Int16, left: Int16): (p: seq<Byte>)
    ensures |p| == 4
  {
    PackPair(Clamp(right, -MaxDriveSpeed, MaxDriveSpeed), Clamp(left, -MaxDriveSpeed, MaxDriveSpeed))
  }

  lemma DriveDirectPayloadDecodes(right: Int16, left: Int16)
    ensures var p := DriveDirectPayload(right, left);
      AsInt16(BigEndian16(p[0], p[1])) == Clamp(right, -MaxDriveSpeed, MaxDriveSpeed) &&
      AsInt16(BigEndian16(p[2], p[3])) == Clamp(left, -MaxDriveSpeed, MaxDriveSpeed)
  {
    PackPairDecodes(Clamp(right, -MaxDriveSpeed, MaxDriveSpeed), Clamp(left, -MaxDriveSpeed, MaxDriveSpeed));
  }

  /** [right_hi, right_lo, left_hi, left_lo], each channel clamped to ±255 on its own. */
  function DrivePwmPayload(right: Int16, left: Int16): (p: seq<Byte>)
    ensures |p| == 4
  {
    PackPair(Clamp(right, -MaxPwm, MaxPwm), Clamp(left, -MaxPwm, MaxPwm))
  }

  lemma DrivePwmPayloadDecodes(right: Int16, left: Int16)
    ensures var p := DrivePwmPayload(right, left);
      AsInt16(BigEndian16(p[0], p[1])) == Clamp(right, -MaxPwm, MaxPwm) &&
      AsInt16(BigEndian16(p[2], p[3])) == Clamp(left, -MaxPwm, MaxPwm)
  {
    PackPairDecodes(Clamp(right, -MaxPwm, MaxPwm), Clamp(left, -MaxPwm, MaxPwm));
  }

  /** `drive`: the velocity clamped to ±500, the radius clamped to ±2000
      unless it is one of the two special values, then both packed. */
  method BuildDrive(velocity: Int16, radius: Int16) returns (data: seq<Byte>)
    ensures data == DrivePayload(velocity, radius)
  {
    var v := Clamp(velocity, -MaxDriveSpeed, MaxDriveSpeed);
    var rad := radius;
    if rad != Straight && rad != TurnInPlace {
      rad := Clamp(rad, -MaxDriveRadius, MaxDriveRadius);
    }
    data := [HighByte(v), LowByte(v), HighByte(rad), LowByte(rad)];
    PackPairBytes(v, rad);
  }

  /** `driveDirect`: each wheel clamped to ±500 on its own, right first. */
  method BuildDriveDirect(rightVelocity: Int16, leftVelocity: Int16) returns (data: seq<Byte>)
    ensures data == DriveDirectPayload(rightVelocity, leftVelocity)
  {
    var right := Clamp(rightVelocity, -MaxDriveSpeed, MaxDriveSpeed);
    var left := Clamp(leftVelocity, -MaxDriveSpeed, MaxDriveSpeed);
    data := [HighByte(right), LowByte(right), HighByte(left), LowByte(left)];
    PackPairBytes(right, left);
  }

  /** `drivePwm`: each wheel clamped to ±255 on its own, right first. */
  method BuildDrivePwm(rightPwm: Int16, leftPwm: Int16) returns (data: seq<Byte>)
    ensures data == DrivePwmPayload(rightPwm, leftPwm)
  {
    var right := Clamp(rightPwm, -MaxPwm, MaxPwm);
    var left := Clamp(leftPwm, -MaxPwm, MaxPwm);
    data := [HighByte(right), LowByte(right), HighByte(left), LowByte(left)];
    PackPairBytes(right, left);
  }

  /** drive(600, 0): the velocity is clamped to 500 = 0x01F4. */
  lemma DriveClampsVelocity()
    ensures DrivePayload(600, 0) == [0x01, 0xF4, 0x00, 0x00]
  {
    assert Clamp(600, -MaxDriveSpeed, MaxDriveSpeed) == 500;
    assert HighByte(500) == 1 && LowByte(500) == 0xF4;
  }

  /** drive(100, 32767): the "straight" radius goes out unclamped as 0x7FFF. */
  lemma DriveStraightPassesThrough()
    ensures DrivePayload(100, 32767) == [0x00, 0x64, 0x7F, 0xFF]
  {
    assert HighByte(32767) == 0x7F && LowByte(32767) == 0xFF;
  }

  /** drive(-200, -1): negative values go out in two's complement. */
  lemma DriveTurnInPlace()
    ensures DrivePayload(-200, -1) == [0xFF, 0x38, 0xFF, 0xFF]
  {
    assert HighByte(-200) == 0xFF && LowByte(-200) == 0x38;
    assert HighByte(-1) == 0xFF && LowByte(-1) == 0xFF;
  }
}
