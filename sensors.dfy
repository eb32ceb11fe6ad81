/** The Sensors query (142) with its bounded retry loop, and the sequential
    field walk over the composite record of sensor group 100. */
module Sensors {
  import opened Bytes
  import opened Protocol
  import opened Uart

  /** Opcode 142, then the id, each followed by waiting for the write to
      finish; the first failing driver call ends the request. */
  function SensorRequest(w: Wire, id: Byte): (bool, Wire)
  {
    var (ok1, w1) := WriteBytes(w, [CmdSensors]);
    if !ok1 then (false, w1)
    else if !CallOk(w1) then (false, Consume(w1))
    else
      var (ok2, w2) := WriteBytes(Consume(w1), [id]);
      if !ok2 then (false, w2)
      else (CallOk(w2), Consume(w2))
  }

  /** The request writes [142, id] on success, at most the opcode otherwise,
      and leaves the input queue alone. */
  lemma SensorRequestWire(w: Wire, id: Byte)
    ensures var (ok, w') := SensorRequest(w, id);
      w'.rx == w.rx &&
      (ok ==> w'.log == w.log + [CmdSensors, id]) &&
      (!ok ==> w'.log == w.log || w'.log == w.log + [CmdSensors] || w'.log == w.log + [CmdSensors, id])
  {
  }

  /** A request whose four driver calls all succeed writes the whole query. */
  lemma SensorRequestSucceeds(w: Wire, id: Byte)
    requires forall i :: 0 <= i < |w.faults| && i < 4 ==> !w.faults[i]
    ensures SensorRequest(w, id).0
  {
  }

  /** The retry loop: each attempt queries the buffered length; a failed
      query moves on at once; n buffered bytes are read and returned;
      fewer are flushed before the next attempt. */
  function Poll(w: Wire, n: nat, attempts: nat): (Result<seq<Byte>>, Wire)
    decreases attempts
  {
    if attempts == 0 then (Err(SensorError), w)
    else if !CallOk(w) then Poll(Consume(w), n, attempts - 1)
    else if n <= |w.rx| then
      var (bytes, w') := ReadBytes(Consume(w), n);
      (Ok(bytes), w')
    else Poll(Consume(w).(rx := []), n, attempts - 1)
  }

  /** Number of failures at the head of a fault script. */
  function LeadingFailures(faults: seq<bool>): nat
  {
    if faults == [] || !faults[0] then 0 else 1 + LeadingFailures(faults[1..])
  }

  /** What the retry loop returns: exactly the first n queued bytes iff they
      are already buffered and some query among the attempts succeeds (the
      first successful query decides, because a short buffer is flushed);
      SensorError otherwise. It never writes and consumes at most one
      scripted outcome per attempt. */
  lemma {:induction false} PollOutcome(w: Wire, n: nat, attempts: nat)
    ensures var (r, w') := Poll(w, n, attempts);
      (r.Ok? <==> LeadingFailures(w.faults) < attempts && n <= |w.rx|) &&
      (r.Ok? ==> r.value == w.rx[..n] && |r.value| == n && w'.rx == w.rx[n..]) &&
      (!r.Ok? ==> r == Err(SensorError)) &&
      w'.log == w.log && |w.faults| - attempts <= |w'.faults| <= |w.faults|
    decreases attempts
  {
    if attempts > 0 {
      if !CallOk(w) {
        PollOutcome(Consume(w), n, attempts - 1);
      } else if n > |w.rx| {
        var w1 := Consume(w).(rx := []);
        PollOutcome(w1, n, attempts - 1);
      }
    }
  }

  /** The request half of `readSensor` on the link. */
  method Request(link: Link, id: Byte) returns (ok: bool)
    modifies link
    ensures (ok, link.State()) == SensorRequest(old(link.State()), id)
  {
    ok := link.Write([CmdSensors]);
    if !ok {
      return;
    }
    ok := link.WaitTxDone();
    if !ok {
      return;
    }
    ok := link.Write([id]);
    if !ok {
      return;
    }
    ok := link.WaitTxDone();
  }

  /** The retry loop of `readSensor` on the link. */
  method PollLink(link: Link, n: nat, attempts: nat) returns (r: Result<seq<Byte>>)
    modifies link
    ensures (r, link.State()) == Poll(old(link.State()), n, attempts)
  {
    var attempt := 0;
    while attempt < attempts
      invariant attempt <= attempts
      invariant Poll(old(link.State()), n, attempts) == Poll(link.State(), n, attempts - attempt)
    {
      var available := link.BufferedLength();
      if available.Some? {
        if available.value >= n {
          var bytes := link.Read(n);
          return Ok(bytes);
        }
        link.Flush();
      }
      attempt := attempt + 1;
    }
    r := Err(SensorError);
  }

  // The composite record of group 100

  datatype FieldKind = U8 | S8 | U16 | S16

  function Width(k: FieldKind): (n: nat)
    ensures 1 <= n <= 2
  {
    if k == U8 || k == S8 then 1 else 2
  }

  // The reads of `dumpAllSensors`, one per packet id 7..58 in order, in blocks
  const FlagFields: seq<FieldKind> := [U8, U8, U8, U8, U8, U8, U8, U8, U8, U8, U8, U8]  // 7..18
  const OdometryFields: seq<FieldKind> := [S16, S16, U8, U16, S16, S8]                 // 19..24
  const SignalFields: seq<FieldKind> := [U16, U16, U16, U16, U16, U16, U16, U16, U16]  // 25..33
  const StateFields: seq<FieldKind> := [U8, U8, U8, U8, U8, S16, S16, S16, S16, U16, U16]  // 34..44
  const LightBumpFields: seq<FieldKind> := [U8, U16, U16, U16, U16, U16, U16]          // 45..51
  const CurrentFields: seq<FieldKind> := [U8, U8, S16, S16, S16, S16, U8]              // 52..58

  const RecordLayout: seq<FieldKind> :=
    FlagFields + OdometryFields + SignalFields + StateFields + LightBumpFields + CurrentFields

  /** Bytes consumed by a sequence of reads. */
  function TotalWidth(layout: seq<FieldKind>): nat
  {
    if layout == [] then 0 else Width(layout[0]) + TotalWidth(layout[1..])
  }

  lemma {:induction false} TotalWidthAppend(a: seq<FieldKind>, b: seq<FieldKind>)
    ensures TotalWidth(a + b) == TotalWidth(a) + TotalWidth(b)
  {
    if a == [] {
      assert a + b == b;
    } else {
      assert (a + b)[1..] == a[1..] + b;
      TotalWidthAppend(a[1..], b);
    }
  }

  /** Where field i of the layout is read. */
  function Offset(layout: seq<FieldKind>, i: nat): nat
    requires i <= |layout|
  {
    TotalWidth(layout[..i])
  }

  lemma OffsetStep(layout: seq<FieldKind>, i: nat)
    requires i < |layout|
    ensures Offset(layout, i + 1) == Offset(layout, i) + Width(layout[i])
  {
    assert layout[..i + 1] == layout[..i] + [layout[i]];
    TotalWidthAppend(layout[..i], [layout[i]]);
  }

  /** Fields are read at strictly increasing offsets. */
  lemma {:induction false} OffsetsIncrease(layout: seq<FieldKind>, i: nat, j: nat)
    requires i < j <= |layout|
    ensures Offset(layout, i) + Width(layout[i]) <= Offset(layout, j)
    decreases j - i
  {
    OffsetStep(layout, i);
    if i + 1 < j {
      OffsetsIncrease(layout, i + 1, j);
      assert Offset(layout, i + 1) < Offset(layout, i + 1) + Width(layout[i + 1]);
    }
  }

  /** One field as decoded by the readU8/readS8/readU16/readS16 helpers, or
      a marker for a read that lies (partly) beyond the record. */
  datatype Field = Field(offset: nat, value: int) | OutsideRecord(offset: nat)

  /** 16-bit fields are `(hi << 8) | lo`; the signed kinds reinterpret the pattern. */
  function ReadField(data: seq<Byte>, idx: nat, k: FieldKind): (f: Field)
    ensures f.offset == idx
    ensures f.Field? <==> idx + Width(k) <= |data|
    ensures f.Field? && k == U8 ==> f.value == data[idx]
    ensures f.Field? && k == S8 ==> f.value == AsInt8(data[idx])
    ensures f.Field? && k == U16 ==> f.value == BigEndian16(data[idx], data[idx + 1])
    ensures f.Field? && k == S16 ==> f.value == AsInt16(BigEndian16(data[idx], data[idx + 1]))
  {
    if idx + Width(k) > |data| then OutsideRecord(idx)
    else match k
      case U8 => Field(idx, data[idx])
      case S8 => Field(idx, AsInt8(data[idx]))
      case U16 => Field(idx, BigEndian16(data[idx], data[idx + 1]))
      case S16 => Field(idx, AsInt16(BigEndian16(data[idx], data[idx + 1])))
  }

  /** The fields of a layout read back to back from offset 0. */
  function Walk(data: seq<Byte>, layout: seq<FieldKind>): (fs: seq<Field>)
    ensures |fs| == |layout|
  {
    seq(|layout|, i requires 0 <= i < |layout| => ReadField(data, Offset(layout, i), layout[i]))
  }

  /** The decoding loop of `dumpAllSensors`: a running index advanced by each read. */
  method WalkFields(data: seq<Byte>, layout: seq<FieldKind>) returns (fields: seq<Field>, idx: nat)
    ensures fields == Walk(data, layout)
    ensures idx == TotalWidth(layout)
  {
    fields, idx := [], 0;
    for i := 0 to |layout|
      invariant idx == Offset(layout, i)
      invariant |fields| == i
      invariant forall k :: 0 <= k < i ==> fields[k] == ReadField(data, Offset(layout, k), layout[k])
    {
      OffsetStep(layout, i);
      fields := fields + [ReadField(data, idx, layout[i])];
      idx := idx + Width(layout[i]);
    }
    assert layout[..|layout|] == layout;
  }

  /** The decoding of `dumpAllSensors` over the 80-byte response: the walk
      over the record layout and the comparison of its end with 80, which
      always reports a mismatch because the walk needs 81 bytes. */
  method ParseAllSensors(raw: seq<Byte>) returns (fields: seq<Field>, mismatch: bool)
    requires |raw| == AllSensorsSize
    ensures fields == Walk(raw, RecordLayout)
    ensures mismatch && |fields| == |RecordLayout| && fields[51] == OutsideRecord(80)
  {
    var idx;
    fields, idx := WalkFields(raw, RecordLayout);
    RecordWidth();
    RecordOverrun(raw);
    mismatch := idx != AllSensorsSize;
  }

  // Widths of the blocks, each evaluated on its own
  lemma FlagWidth() ensures TotalWidth(FlagFields) == 12 {}
  lemma OdometryWidth() ensures TotalWidth(OdometryFields) == 10 {}
  lemma SignalWidth() ensures TotalWidth(SignalFields) == 18 {}
  lemma StateWidth() ensures TotalWidth(StateFields) == 17 {}
  lemma LightBumpWidth() ensures TotalWidth(LightBumpFields) == 13 {}
  lemma CurrentWidth() ensures TotalWidth(CurrentFields) == 11 {}

  /** The walk needs 81 bytes: `unused32` (id 32) is read as two bytes. */
  lemma RecordWidth()
    ensures TotalWidth(RecordLayout) == AllSensorsSize + 1
  {
    FlagWidth(); OdometryWidth(); SignalWidth(); StateWidth(); LightBumpWidth(); CurrentWidth();
    var a := FlagFields + OdometryFields;
    var b := a + SignalFields;
    var c := b + StateFields;
    var d := c + LightBumpFields;
    TotalWidthAppend(FlagFields, OdometryFields);
    TotalWidthAppend(a, SignalFields);
    TotalWidthAppend(b, StateFields);
    TotalWidthAppend(c, LightBumpFields);
    TotalWidthAppend(d, CurrentFields);
  }

  /** One read per packet id 7..58; the read for id 32 (`unused32`) is two bytes wide. */
  lemma RecordShape()
    ensures |RecordLayout| == 52
    ensures RecordLayout[32 - 7] == U16
  {
  }

  /** Over the 80-byte response every field but the last lies inside the
      record; the last field (stasis, id 58) is read at offset 80, past its end. */
  lemma RecordOverrun(data: seq<Byte>)
    requires |data| == AllSensorsSize
    ensures forall i :: 0 <= i < 51 ==> Walk(data, RecordLayout)[i].Field?
    ensures Walk(data, RecordLayout)[51] == OutsideRecord(80)
  {
    RecordWidth();
    assert RecordLayout[..52] == RecordLayout;
    OffsetStep(RecordLayout, 51);
    forall i | 0 <= i < 51
      ensures Walk(data, RecordLayout)[i].Field?
    {
      OffsetsIncrease(RecordLayout, i, 51);
    }
  }
}
