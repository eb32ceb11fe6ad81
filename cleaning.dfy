/** The motor bitmask of the Motors command (138). */
module Cleaning {
  import opened Bytes
  import opened Protocol

  /** `motors |= bit` for each brush or vacuum argument that is nonzero. */
  function MotorMask(mainBrush: Byte, sideBrush: Byte, vacuum: Byte): (m: Byte)
    ensures AnyBit(m, MainBrushBit) <==> mainBrush != 0
    ensures AnyBit(m, SideBrushBit) <==> sideBrush != 0
    ensures AnyBit(m, VacuumBit) <==> vacuum != 0
    ensures !AnyBit(m, 0xF8) && m <= 7
  {
    var motors: bv8 := 0;
    var motors := if mainBrush != 0 then motors | (MainBrushBit as bv8) else motors;
    var motors := if sideBrush != 0 then motors | (SideBrushBit as bv8) else motors;
    var motors := if vacuum != 0 then motors | (VacuumBit as bv8) else motors;
    motors as int
  }
}
