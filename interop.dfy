/** How the firmware and the client fit together on the wire: the stream
    frames the firmware validates, fed to the client's parser, and the speed
    bytes the client sends, copied into the firmware's command slot. */
module Interop {
  import opened Bytes
  import Streaming
  import ClientSensorPacket
  import ClientMotorCommand
  import Actuation
  import MotorCommands

  /** A frame the firmware's stream reader accepts never makes the client
      throw: header, length and whole-buffer checksum all agree. */
  lemma FirmwareFrameNeverThrown(f: seq<Byte>)
    requires Streaming.ValidFrame(f)
    ensures !ClientSensorPacket.Parse(f).Thrown?
  {
    SumBound(f);
  }

  /** It can still trap: a frame with a two-byte packet id as its last body
      byte is valid on the firmware side and out of bounds on the client. */
  lemma FirmwareFrameCanTrapClient()
    ensures Streaming.ValidFrame([19, 1, 22, 214])
    ensures ClientSensorPacket.Parse([19, 1, 22, 214]) == ClientSensorPacket.Trap
  {
    assert Sum([19, 1, 22, 214]) == 256;
    ClientSensorPacket.VoltageIdAtEndTraps();
  }

  /** The client's four speed bytes, copied by the firmware's memcpy into
      `int8_t speeds`, are the client's speeds exactly. */
  lemma SpeedBytesRoundTrip(speeds: seq<Int8>, s: Actuation.Slot, now: UInt64)
    requires |speeds| == MotorCommands.DataSize
    ensures Actuation.WriteSlot(s, ClientMotorCommand.SpeedBytes(speeds), now).command.speeds == speeds
  {
    var c := Actuation.WriteSlot(s, ClientMotorCommand.SpeedBytes(speeds), now).command;
    assert forall i :: 0 <= i < MotorCommands.DataSize ==> c.speeds[i] == speeds[i];
  }

  /** A speed the client has clamped is not clamped again by the firmware:
      the scaled speed is the client's percentage times 1023 / 100. */
  lemma ClientSpeedScaled(speeds: seq<Int8>, raw: Int8, i: nat, s: Actuation.Slot, now: UInt64)
    requires |speeds| == MotorCommands.DataSize && i < MotorCommands.DataSize
    requires speeds[i] == ClientMotorCommand.ClampSpeed(raw)
    ensures var c := Actuation.WriteSlot(s, ClientMotorCommand.SpeedBytes(speeds), now).command;
      MotorCommands.ScaledSpeed(c, i) == TruncDiv(ClientMotorCommand.ClampSpeed(raw) * 1023, 100)
  {
    SpeedBytesRoundTrip(speeds, s, now);
  }
}
