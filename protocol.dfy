/** Declarations of the chassis protocol engine: error and mode enumerations,
    motor and LED bits, sensor packet ids, opcodes, limits and timeouts
    (iRobot Create 2 Open Interface). */
module Protocol {
  import opened Bytes

  datatype Error = UartError | InitializationError | CommandError | SensorError | InvalidParameter | Timeout

  datatype Mode = Off | Passive | Safe | Full

  /** `std::expected<void, Error>` */
  datatype Status = Done | Failed(error: Error)

  /** `std::expected<T, Error>` */
  datatype Result<T> = Ok(value: T) | Err(error: Error)

  // Motor mask bits of the Motors command
  const MainBrushBit: Byte := 0x04
  const VacuumBit: Byte := 0x02
  const SideBrushBit: Byte := 0x01

  // LED bits of the LEDs command
  const DebrisLed: Byte := 0x01
  const SpotLed: Byte := 0x02
  const DockLed: Byte := 0x04
  const CheckLed: Byte := 0x08

  // Opcodes
  const CmdStart: Byte := 128
  const CmdBaud: Byte := 129
  const CmdSafe: Byte := 131
  const CmdFull: Byte := 132
  const CmdClean: Byte := 135
  const CmdSpot: Byte := 134
  const CmdDock: Byte := 143
  const CmdPower: Byte := 133
  const CmdDrive: Byte := 137
  const CmdDriveDirect: Byte := 145
  const CmdMotors: Byte := 138
  const CmdLeds: Byte := 139
  const CmdSong: Byte := 140
  const CmdPlay: Byte := 141
  const CmdReset: Byte := 7
  const CmdStop: Byte := 173
  const CmdSensors: Byte := 142
  const CmdStreamSensors: Byte := 148
  const CmdDigits: Byte := 164
  const CmdDrivePwm: Byte := 146
  const CmdPauseResumeStream: Byte := 150

  /** First byte of every stream frame. */
  const StreamHeader: Byte := 19
  const StreamReadTimeoutMs: nat := 100

  const MaxDriveSpeed: int := 500
  const MaxDriveRadius: int := 2000
  const MaxPwm: int := 255
  const SensorReadAttempts: nat := 3

  // Waits, in milliseconds (delays are not modelled; kept for reference)
  const WaitTxMs: nat := 100
  const ModeSettleMs: nat := 100
  const PostResetDelayMs: nat := 1000
  const SensorCmdGapMs: nat := 20
  const SensorResponseWaitMs: nat := 50

  /** Sensor group id of the composite 80-byte record. */
  const AllSensorsGroup: Byte := 100
  const AllSensorsSize: nat := 80

  datatype SensorPacket =
    | Bumps | WallSensor | CliffLeft | CliffFrontLeft | CliffFrontRight | CliffRight
    | VirtualWall | WheelOvercurrents | DirtDetect | InfraredCharacter | Buttons
    | Distance | Angle | ChargingState | Voltage | Current | Temperature
    | BatteryCharge | BatteryCapacity | WallSignal | CliffLeftSignal
    | CliffFrontLeftSignal | CliffFrontRightSignal | CliffRightSignal
    | ChargingSourcesAvailable | OIMode | SongNumber | SongPlaying | StreamPackets
    | RequestedVelocity | RequestedRadius | RequestedRightVelocity | RequestedLeftVelocity
    | LeftEncoderCounts | RightEncoderCounts | LightBumper | LightBumpLeft
    | LightBumpFrontLeft | LightBumpCenterLeft | LightBumpCenterRight
    | LightBumpFrontRight | LightBumpRight | LeftMotorCurrent | RightMotorCurrent
    | MainBrushMotorCurrent | SideBrushMotorCurrent | Stasis

  /** The wire value of a sensor packet id. */
  function PacketId(p: SensorPacket): (b: Byte)
    ensures 7 <= b <= 58
  {
    match p
    case Bumps => 7
    case WallSensor => 8
    case CliffLeft => 9
    case CliffFrontLeft => 10
    case CliffFrontRight => 11
    case CliffRight => 12
    case VirtualWall => 13
    case WheelOvercurrents => 14
    case DirtDetect => 15
    case InfraredCharacter => 17
    case Buttons => 18
    case Distance => 19
    case Angle => 20
    case ChargingState => 21
    case Voltage => 22
    case Current => 23
    case Temperature => 24
    case BatteryCharge => 25
    case BatteryCapacity => 26
    case WallSignal => 27
    case CliffLeftSignal => 28
    case CliffFrontLeftSignal => 29
    case CliffFrontRightSignal => 30
    case CliffRightSignal => 31
    case ChargingSourcesAvailable => 34
    case OIMode => 35
    case SongNumber => 36
    case SongPlaying => 37
    case StreamPackets => 38
    case RequestedVelocity => 39
    case RequestedRadius => 40
    case RequestedRightVelocity => 41
    case RequestedLeftVelocity => 42
    case LeftEncoderCounts => 43
    case RightEncoderCounts => 44
    case LightBumper => 45
    case LightBumpLeft => 46
    case LightBumpFrontLeft => 47
    case LightBumpCenterLeft => 48
    case LightBumpCenterRight => 49
    case LightBumpFrontRight => 50
    case LightBumpRight => 51
    case LeftMotorCurrent => 54
    case RightMotorCurrent => 55
    case MainBrushMotorCurrent => 56
    case SideBrushMotorCurrent => 57
    case Stasis => 58
  }

  /** The enumerator a byte names, if any (16, 32, 33, 52, 53 and values
      outside 7..58 name none). */
  function PacketOfId(b: Byte): Option<SensorPacket> {
    match b
    case 7 => Some(Bumps)
    case 8 => Some(WallSensor)
    case 9 => Some(CliffLeft)
    case 10 => Some(CliffFrontLeft)
    case 11 => Some(CliffFrontRight)
    case 12 => Some(CliffRight)
    case 13 => Some(VirtualWall)
    case 14 => Some(WheelOvercurrents)
    case 15 => Some(DirtDetect)
    case 17 => Some(InfraredCharacter)
    case 18 => Some(Buttons)
    case 19 => Some(Distance)
    case 20 => Some(Angle)
    case 21 => Some(ChargingState)
    case 22 => Some(Voltage)
    case 23 => Some(Current)
    case 24 => Some(Temperature)
    case 25 => Some(BatteryCharge)
    case 26 => Some(BatteryCapacity)
    case 27 => Some(WallSignal)
    case 28 => Some(CliffLeftSignal)
    case 29 => Some(CliffFrontLeftSignal)
    case 30 => Some(CliffFrontRightSignal)
    case 31 => Some(CliffRightSignal)
    case 34 => Some(ChargingSourcesAvailable)
    case 35 => Some(OIMode)
    case 36 => Some(SongNumber)
    case 37 => Some(SongPlaying)
    case 38 => Some(StreamPackets)
    case 39 => Some(RequestedVelocity)
    case 40 => Some(RequestedRadius)
    case 41 => Some(RequestedRightVelocity)
    case 42 => Some(RequestedLeftVelocity)
    case 43 => Some(LeftEncoderCounts)
    case 44 => Some(RightEncoderCounts)
    case 45 => Some(LightBumper)
    case 46 => Some(LightBumpLeft)
    case 47 => Some(LightBumpFrontLeft)
    case 48 => Some(LightBumpCenterLeft)
    case 49 => Some(LightBumpCenterRight)
    case 50 => Some(LightBumpFrontRight)
    case 51 => Some(LightBumpRight)
    case 54 => Some(LeftMotorCurrent)
    case 55 => Some(RightMotorCurrent)
    case 56 => Some(MainBrushMotorCurrent)
    case 57 => Some(SideBrushMotorCurrent)
    case 58 => Some(Stasis)
    case _ => None
  }

  /** Every packet's id decodes back to it. The packets are taken in
      groups, each evaluated on its own. */
  lemma PacketIdDecodes(p: SensorPacket)
    ensures PacketOfId(PacketId(p)) == Some(p)
  {
    if p.Bumps? || p.WallSensor? || p.CliffLeft? || p.CliffFrontLeft? ||
      p.CliffFrontRight? || p.CliffRight? || p.VirtualWall? || p.WheelOvercurrents? ||
      p.DirtDetect? || p.InfraredCharacter? || p.Buttons? || p.Distance? {
      IdsDecode1(p);
    } else if p.Angle? || p.ChargingState? || p.Voltage? || p.Current? ||
      p.Temperature? || p.BatteryCharge? || p.BatteryCapacity? || p.WallSignal? ||
      p.CliffLeftSignal? || p.CliffFrontLeftSignal? || p.CliffFrontRightSignal? || p.CliffRightSignal? {
      IdsDecode2(p);
    } else if p.ChargingSourcesAvailable? || p.OIMode? || p.SongNumber? || p.SongPlaying? ||
      p.StreamPackets? || p.RequestedVelocity? {
      IdsDecode3(p);
    } else if p.RequestedRadius? || p.RequestedRightVelocity? || p.RequestedLeftVelocity? || p.LeftEncoderCounts? ||
      p.RightEncoderCounts? || p.LightBumper? {
      IdsDecode4(p);
    } else if p.LightBumpLeft? || p.LightBumpFrontLeft? || p.LightBumpCenterLeft? || p.LightBumpCenterRight? ||
      p.LightBumpFrontRight? || p.LightBumpRight? {
      IdsDecode5(p);
    } else {
      IdsDecode6(p);
    }
  }

  lemma IdsDecode1(p: SensorPacket)
    requires p.Bumps? || p.WallSensor? || p.CliffLeft? || p.CliffFrontLeft? ||
      p.CliffFrontRight? || p.CliffRight? || p.VirtualWall? || p.WheelOvercurrents? ||
      p.DirtDetect? || p.InfraredCharacter? || p.Buttons? || p.Distance?
    ensures PacketOfId(PacketId(p)) == Some(p)
  {
  }

  lemma IdsDecode2(p: SensorPacket)
    requires p.Angle? || p.ChargingState? || p.Voltage? || p.Current? ||
      p.Temperature? || p.BatteryCharge? || p.BatteryCapacity? || p.WallSignal? ||
      p.CliffLeftSignal? || p.CliffFrontLeftSignal? || p.CliffFrontRightSignal? || p.CliffRightSignal?
    ensures PacketOfId(PacketId(p)) == Some(p)
  {
  }

  lemma IdsDecode3(p: SensorPacket)
    requires p.ChargingSourcesAvailable? || p.OIMode? || p.SongNumber? || p.SongPlaying? ||
      p.StreamPackets? || p.RequestedVelocity?
    ensures PacketOfId(PacketId(p)) == Some(p)
  {
  }

  lemma IdsDecode4(p: SensorPacket)
    requires p.RequestedRadius? || p.RequestedRightVelocity? || p.RequestedLeftVelocity? || p.LeftEncoderCounts? ||
      p.RightEncoderCounts? || p.LightBumper?
    ensures PacketOfId(PacketId(p)) == Some(p)
  {
  }

  lemma IdsDecode5(p: SensorPacket)
    requires p.LightBumpLeft? || p.LightBumpFrontLeft? || p.LightBumpCenterLeft? || p.LightBumpCenterRight? ||
      p.LightBumpFrontRight? || p.LightBumpRight?
    ensures PacketOfId(PacketId(p)) == Some(p)
  {
  }

  lemma IdsDecode6(p: SensorPacket)
    requires p.LeftMotorCurrent? || p.RightMotorCurrent? || p.MainBrushMotorCurrent? || p.SideBrushMotorCurrent? ||
      p.Stasis?
    ensures PacketOfId(PacketId(p)) == Some(p)
  {
  }

  /** Packet ids are an injective encoding. */
  lemma PacketIdInjective(p: SensorPacket, q: SensorPacket)
    ensures PacketId(p) == PacketId(q) ==> p == q
  {
    PacketIdDecodes(p);
    PacketIdDecodes(q);
  }
}
