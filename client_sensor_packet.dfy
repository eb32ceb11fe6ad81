/** The client's decoder of stream frames [19, n, body..., checksum]: the
    guards with their error values, a checksum over the whole buffer, the
    walk over (packet id, value) pairs, and the bit accessors of the decoded
    record. A Swift runtime trap (arithmetic overflow, an index past the end)
    is an outcome of its own. */
module ClientSensorPacket {
  import opened Bytes

  const Header: Byte := 19

  /** The packet ids the client decodes. */
  datatype ClientPacket =
    | Bumps | CliffLeft | CliffFrontLeft | CliffFrontRight | CliffRight
    | Voltage | Current | Temperature | LeftMotorCurrent | RightMotorCurrent | LightBumper

  /** `RoombaSensorPacket(rawValue:)` */
  function ClientPacketOfId(b: Byte): Option<ClientPacket>
  {
    if b == 7 then Some(Bumps)
    else if b == 9 then Some(CliffLeft)
    else if b == 10 then Some(CliffFrontLeft)
    else if b == 11 then Some(CliffFrontRight)
    else if b == 12 then Some(CliffRight)
    else if b == 22 then Some(Voltage)
    else if b == 23 then Some(Current)
    else if b == 24 then Some(Temperature)
    else if b == 54 then Some(LeftMotorCurrent)
    else if b == 55 then Some(RightMotorCurrent)
    else if b == 45 then Some(LightBumper)
    else None
  }

  function ClientPacketId(p: ClientPacket): Byte
  {
    match p
    case Bumps => 7
    case CliffLeft => 9
    case CliffFrontLeft => 10
    case CliffFrontRight => 11
    case CliffRight => 12
    case Voltage => 22
    case Current => 23
    case Temperature => 24
    case LeftMotorCurrent => 54
    case RightMotorCurrent => 55
    case LightBumper => 45
  }

  /** The id mapping is a bijection between the eleven packets and their raw values. */
  lemma ClientPacketIds(p: ClientPacket, b: Byte)
    ensures ClientPacketOfId(ClientPacketId(p)) == Some(p)
    ensures ClientPacketOfId(b).Some? ==> ClientPacketId(ClientPacketOfId(b).value) == b
  {
  }

  /** Bytes of the value that follows the id. */
  function ValueWidth(p: ClientPacket): (w: nat)
    ensures 1 <= w <= 2
  {
    if p in {Voltage, Current, LeftMotorCurrent, RightMotorCurrent} then 2 else 1
  }

  /** `RoombaSensorData` */
  datatype SensorData = SensorData(
    bumps: Byte,
    cliffLeft: bool, cliffFrontLeft: bool, cliffFrontRight: bool, cliffRight: bool,
    voltage: UInt16, current: Int16, temperature: Int8,
    leftMotorCurrent: Int16, rightMotorCurrent: Int16,
    lightBumper: Byte)

  /** The record's default values: every field 0 or false. */
  const Defaults := SensorData(0, false, false, false, false, 0, 0, 0, 0, 0, 0)

  /** One arm of the switch: store the value read at index i. */
  function Record(d: SensorData, p: ClientPacket, data: seq<Byte>, i: nat): (r: SensorData)
    requires i + ValueWidth(p) <= |data|
  {
    match p
    case Bumps => d.(bumps := data[i])
    case CliffLeft => d.(cliffLeft := data[i] != 0)
    case CliffFrontLeft => d.(cliffFrontLeft := data[i] != 0)
    case CliffFrontRight => d.(cliffFrontRight := data[i] != 0)
    case CliffRight => d.(cliffRight := data[i] != 0)
    case Voltage => d.(voltage := BigEndian16(data[i], data[i + 1]))
    case Current => d.(current := AsInt16(BigEndian16(data[i], data[i + 1])))
    case Temperature => d.(temperature := AsInt8(data[i]))
    case LeftMotorCurrent => d.(leftMotorCurrent := AsInt16(BigEndian16(data[i], data[i + 1])))
    case RightMotorCurrent => d.(rightMotorCurrent := AsInt16(BigEndian16(data[i], data[i + 1])))
    case LightBumper => d.(lightBumper := data[i])
  }

  /** Each arm changes exactly the field of its packet, and stores there
      the value whose bytes (big-endian, two's complement for the signed
      fields) are the ones read; a cliff is set iff its byte is non-zero. */
  lemma RecordChangesOneField(d: SensorData, p: ClientPacket, data: seq<Byte>, i: nat)
    requires i + ValueWidth(p) <= |data|
    ensures var r := Record(d, p, data, i);
      (p != Bumps ==> r.bumps == d.bumps) &&
      (p != CliffLeft ==> r.cliffLeft == d.cliffLeft) &&
      (p != CliffFrontLeft ==> r.cliffFrontLeft == d.cliffFrontLeft) &&
      (p != CliffFrontRight ==> r.cliffFrontRight == d.cliffFrontRight) &&
      (p != CliffRight ==> r.cliffRight == d.cliffRight) &&
      (p != Voltage ==> r.voltage == d.voltage) &&
      (p != Current ==> r.current == d.current) &&
      (p != Temperature ==> r.temperature == d.temperature) &&
      (p != LeftMotorCurrent ==> r.leftMotorCurrent == d.leftMotorCurrent) &&
      (p != RightMotorCurrent ==> r.rightMotorCurrent == d.rightMotorCurrent) &&
      (p != LightBumper ==> r.lightBumper == d.lightBumper)
    ensures var r := Record(d, p, data, i);
      (p == Bumps ==> r.bumps == data[i]) &&
      (p == CliffLeft ==> (r.cliffLeft <==> data[i] != 0)) &&
      (p == CliffFrontLeft ==> (r.cliffFrontLeft <==> data[i] != 0)) &&
      (p == CliffFrontRight ==> (r.cliffFrontRight <==> data[i] != 0)) &&
      (p == CliffRight ==> (r.cliffRight <==> data[i] != 0)) &&
      (p == Voltage ==> HighByte(r.voltage) == data[i] && LowByte(r.voltage) == data[i + 1]) &&
      (p == Current ==> HighByte(r.current) == data[i] && LowByte(r.current) == data[i + 1]) &&
      (p == Temperature ==> LowByte(r.temperature) == data[i]) &&
      (p == LeftMotorCurrent ==> HighByte(r.leftMotorCurrent) == data[i] && LowByte(r.leftMotorCurrent) == data[i + 1]) &&
      (p == RightMotorCurrent ==> HighByte(r.rightMotorCurrent) == data[i] && LowByte(r.rightMotorCurrent) == data[i + 1]) &&
      (p == LightBumper ==> r.lightBumper == data[i])
  {
    if ValueWidth(p) == 2 {
      AsInt16Bytes(BigEndian16(data[i], data[i + 1]));
    } else if p == Temperature {
      AsInt8Byte(data[i]);
    }
  }

  /** The walk from `index` up to the checksum byte; None is the trap of
      reading a two-byte value whose second byte lies past the end. */
  function WalkFrom(data: seq<Byte>, index: nat, acc: SensorData): Option<SensorData>
    decreases |data| - index
  {
    if index + 1 >= |data| then Some(acc)
    else match ClientPacketOfId(data[index])
      case None => WalkFrom(data, index + 1, acc)
      case Some(p) =>
        if index + 1 + ValueWidth(p) > |data| then None
        else WalkFrom(data, index + 1 + ValueWidth(p), Record(acc, p, data, index + 1))
  }

  /** Unknown ids cost exactly one byte. */
  lemma WalkSkipsUnknown(data: seq<Byte>, index: nat, acc: SensorData)
    requires index + 1 < |data| && ClientPacketOfId(data[index]).None?
    ensures WalkFrom(data, index, acc) == WalkFrom(data, index + 1, acc)
  {
  }

  datatype ParseError =
    | InsufficientData
    | InvalidHeader(header: Byte)
    | DataTooShort(expected: int, actual: int)
    | ChecksumMismatch(sum: UInt32, checksum: Byte)

  datatype ParseOutcome = Parsed(data: SensorData) | Thrown(error: ParseError) | Trap

  /** `RoombaDataParser.parse`. The UInt32 sum traps exactly when the sum of
      all bytes exceeds 2^32 - 1 (partial sums only grow). */
  function Parse(data: seq<Byte>): ParseOutcome
  {
    if |data| < 3 then Thrown(InsufficientData)
    else if data[0] != Header then Thrown(InvalidHeader(data[0]))
    else if |data| < data[1] as int + 3 then Thrown(DataTooShort(data[1] as int + 3, |data|))
    else if Sum(data) > UInt32Max then Trap
    else if Sum(data) % 0x100 != 0 then
      SumAppend(data[..|data| - 1], [data[|data| - 1]]);
      assert data[..|data| - 1] + [data[|data| - 1]] == data;
      Thrown(ChecksumMismatch(Sum(data[..|data| - 1]), data[|data| - 1]))
    else match WalkFrom(data, 2, Defaults)
      case None => Trap
      case Some(d) => Parsed(d)
  }

  /** The guards in order: too short, wrong header, shorter than announced. */
  lemma ParseGuards(data: seq<Byte>)
    ensures Parse(data) == Thrown(InsufficientData) <==> |data| < 3
    ensures |data| >= 3 ==> (Parse(data) == Thrown(InvalidHeader(data[0])) <==> data[0] != Header)
    ensures |data| >= 3 && data[0] == Header ==>
      (Parse(data) == Thrown(DataTooShort(data[1] as int + 3, |data|)) <==> |data| < data[1] as int + 3)
  {
  }

  /** A buffer that passes the guards without trapping is decoded iff the
      sum of ALL its bytes, not only the announced frame's, is 0 mod 256. */
  lemma ParseChecksum(data: seq<Byte>)
    requires |data| >= 3 && data[0] == Header && |data| >= data[1] as int + 3 && Sum(data) <= UInt32Max
    ensures Parse(data).Thrown? <==> Sum(data) % 0x100 != 0
    ensures Parse(data).Thrown? ==> Parse(data).error.ChecksumMismatch?
  {
  }

  /** A valid frame followed by one stray non-zero byte is rejected. */
  lemma TrailingByteBreaksChecksum()
    ensures Parse([19, 2, 7, 3, 225]) == Parsed(Defaults.(bumps := 3))
    ensures Parse([19, 2, 7, 3, 225, 1]).Thrown? && Parse([19, 2, 7, 3, 225, 1]).error.ChecksumMismatch?
  {
    assert Sum([19, 2, 7, 3, 225]) == 256;
    assert Sum([19, 2, 7, 3, 225, 1]) == 257;
  }

  /** One packet with its value, then the checksum: exactly that field is set. */
  lemma SinglePacket(data: seq<Byte>, p: ClientPacket)
    requires |data| == 3 + 1 + ValueWidth(p) && data[0] == Header && data[1] == 1 + ValueWidth(p)
    requires data[2] == ClientPacketId(p) && Sum(data) % 0x100 == 0
    ensures Parse(data) == Parsed(Record(Defaults, p, data, 3))
  {
    ClientPacketIds(p, data[2]);
    SumBound(data);
    var w := ValueWidth(p);
    assert WalkFrom(data, 3 + w, Record(Defaults, p, data, 3)) == Some(Record(Defaults, p, data, 3));
    assert WalkFrom(data, 2, Defaults) == WalkFrom(data, 3 + w, Record(Defaults, p, data, 3));
  }

  /** The two-byte read at the end: a frame the firmware accepts (n = 1,
      body [22], checksum 214) makes the client read past the buffer. */
  lemma VoltageIdAtEndTraps()
    ensures Parse([19, 1, 22, 214]) == Trap
  {
    assert Sum([19, 1, 22, 214]) == 256;
  }

  /** The parse loop: the UInt32 sum over all but the last byte, the
      checksum test, then the walk. */
  method ParseBuffer(data: seq<Byte>) returns (r: ParseOutcome)
    ensures r == Parse(data)
  {
    if |data| < 3 {
      return Thrown(InsufficientData);
    }
    if data[0] != Header {
      return Thrown(InvalidHeader(data[0]));
    }
    var nBytes: nat := data[1];
    if |data| < nBytes + 3 {
      return Thrown(DataTooShort(nBytes + 3, |data|));
    }
    var last := |data| - 1;
    SumAppend(data[..last], [data[last]]);
    assert data[..last] + [data[last]] == data;
    var sum: nat := 0;
    for i := 0 to last
      invariant sum == Sum(data[..i]) <= UInt32Max
    {
      SumPrefix(data, i);
      if sum + data[i] > UInt32Max {
        SumAppend(data[..i + 1], data[i + 1..]);
        assert data[..i + 1] + data[i + 1..] == data;
        return Trap;
      }
      sum := sum + data[i];
    }
    assert data[..last] == data[..|data| - 1];
    var checksum := data[last];
    if sum + checksum > UInt32Max {
      return Trap;
    }
    if (sum + checksum) % 0x100 != 0 {
      return Thrown(ChecksumMismatch(sum, checksum));
    }
    var result := Defaults;
    var index := 2;
    while index < |data| - 1
      invariant 2 <= index
      invariant WalkFrom(data, 2, Defaults) == WalkFrom(data, index, result)
      decreases |data| - index
    {
      var packet := ClientPacketOfId(data[index]);
      if packet.None? {
        index := index + 1;
        continue;
      }
      var p := packet.value;
      index := index + 1;
      if index + ValueWidth(p) > |data| {
        return Trap;
      }
      result := Record(result, p, data, index);
      index := index + ValueWidth(p);
    }
    r := Parsed(result);
  }

  // The computed properties of `RoombaSensorData`

  predicate RightBumperPressed(d: SensorData) { AnyBit(d.bumps, 0x01) }
  predicate LeftBumperPressed(d: SensorData) { AnyBit(d.bumps, 0x02) }
  predicate RightWheelDrop(d: SensorData) { AnyBit(d.bumps, 0x04) }
  predicate LeftWheelDrop(d: SensorData) { AnyBit(d.bumps, 0x08) }
  predicate LightBumpLeft(d: SensorData) { AnyBit(d.lightBumper, 0x01) }
  predicate LightBumpFrontLeft(d: SensorData) { AnyBit(d.lightBumper, 0x02) }
  predicate LightBumpCenterLeft(d: SensorData) { AnyBit(d.lightBumper, 0x04) }
  predicate LightBumpCenterRight(d: SensorData) { AnyBit(d.lightBumper, 0x08) }
  predicate LightBumpFrontRight(d: SensorData) { AnyBit(d.lightBumper, 0x10) }
  predicate LightBumpRight(d: SensorData) { AnyBit(d.lightBumper, 0x20) }

  predicate AnyCliffDetected(d: SensorData) {
    d.cliffLeft || d.cliffFrontLeft || d.cliffFrontRight || d.cliffRight
  }

  predicate AnyBumperPressed(d: SensorData) {
    LeftBumperPressed(d) || RightBumperPressed(d)
  }

  predicate AnyLightBumperActivated(d: SensorData) {
    d.lightBumper != 0
  }

  /** A bumper is pressed iff one of the two low bits of `bumps` is set;
      the wheel-drop bits play no part. */
  lemma AnyBumperPressedBits(d: SensorData)
    ensures AnyBumperPressed(d) <==> AnyBit(d.bumps, 0x03)
  {
    var b := d.bumps as bv8;
    assert (b & 0x03 != 0) <==> (b & 0x01 != 0 || b & 0x02 != 0);
  }

  /** The six named light bumps are bits 0-5; `anyLightBumperActivated`
      also reports bits 6 and 7, which belong to none of them. */
  lemma LightBumpBits(d: SensorData)
    ensures (LightBumpLeft(d) || LightBumpFrontLeft(d) || LightBumpCenterLeft(d) ||
             LightBumpCenterRight(d) || LightBumpFrontRight(d) || LightBumpRight(d)) <==> AnyBit(d.lightBumper, 0x3F)
    ensures AnyLightBumperActivated(d) <==> AnyBit(d.lightBumper, 0x3F) || AnyBit(d.lightBumper, 0xC0)
  {
    var b := d.lightBumper as bv8;
    assert (b != 0) <==> (b & 0x3F != 0 || b & 0xC0 != 0);
    assert (b & 0x3F != 0) <==>
      (b & 0x01 != 0 || b & 0x02 != 0 || b & 0x04 != 0 || b & 0x08 != 0 || b & 0x10 != 0 || b & 0x20 != 0);
  }

  /** The record of light bumper 0x40 is "activated" with no named light bump set. */
  lemma LightBumperHighBits()
    ensures var d := Defaults.(lightBumper := 0x40);
      AnyLightBumperActivated(d) && !AnyBit(d.lightBumper, 0x3F)
  {
  }
}
