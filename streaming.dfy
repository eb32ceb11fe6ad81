/** The sensor stream: the Stream request (148), the pause frame (150), and
    the self-resynchronising reader of checksummed frames
    [19, n, payload (n bytes), checksum]. */
module Streaming {
  import opened Bytes
  import opened Protocol
  import opened Uart

  /** [k, id1, ..., idk], the count truncated to a byte as `static_cast<uint8_t>` does. */
  function StreamRequest(packets: seq<SensorPacket>): (p: seq<Byte>)
    ensures |p| == 1 + |packets| && p[0] == |packets| % 0x100
    ensures forall i :: 0 <= i < |packets| ==> p[1 + i] == PacketId(packets[i])
  {
    [|packets| % 0x100] + seq(|packets|, i requires 0 <= i < |packets| => PacketId(packets[i]))
  }

  /** Decoding a request of fewer than 256 ids gives back the count and every id. */
  lemma StreamRequestDecodes(packets: seq<SensorPacket>)
    requires |packets| < 0x100
    ensures var p := StreamRequest(packets);
      p[0] == |packets| == |p| - 1 &&
      forall i :: 0 <= i < |packets| ==> PacketOfId(p[1 + i]) == Some(packets[i])
  {
    forall i | 0 <= i < |packets|
      ensures PacketOfId(StreamRequest(packets)[1 + i]) == Some(packets[i])
    {
      PacketIdDecodes(packets[i]);
    }
  }

  /** The `push_back` loop of `startStreaming`. */
  method BuildStreamRequest(packets: seq<SensorPacket>) returns (data: seq<Byte>)
    ensures data == StreamRequest(packets)
  {
    data := [|packets| % 0x100];
    for i := 0 to |packets|
      invariant |data| == 1 + i && data[0] == |packets| % 0x100
      invariant forall k :: 0 <= k < i ==> data[1 + k] == PacketId(packets[k])
    {
      data := data + [PacketId(packets[i])];
    }
  }

  /** Payload of the Pause/Resume Stream command that pauses the stream. */
  const PausePayload: seq<Byte> := [0]

  /** The do-while scan: discard bytes up to and including the first header
      byte; None when the input runs out first. */
  function ScanHeader(rx: seq<Byte>): Option<seq<Byte>>
  {
    if rx == [] then None
    else if rx[0] == StreamHeader then Some(rx[1..])
    else ScanHeader(rx[1..])
  }

  /** The scan stops right after the first header byte, and fails exactly
      when there is none. */
  lemma {:induction false} ScanHeaderSpec(rx: seq<Byte>)
    ensures ScanHeader(rx) == None <==> StreamHeader !in rx
    ensures ScanHeader(rx).Some? ==> exists skipped :: rx == skipped + [StreamHeader] + ScanHeader(rx).value && StreamHeader !in skipped
  {
    if rx != [] {
      ScanHeaderSpec(rx[1..]);
      if rx[0] == StreamHeader {
        assert rx == [] + [StreamHeader] + rx[1..];
      } else if ScanHeader(rx[1..]).Some? {
        var skipped :| rx[1..] == skipped + [StreamHeader] + ScanHeader(rx[1..]).value && StreamHeader !in skipped;
        assert rx == ([rx[0]] + skipped) + [StreamHeader] + ScanHeader(rx).value;
      }
    }
  }

  /** Input that starts with bytes other than the header, then a header, is scanned past them. */
  lemma {:induction false} ScanHeaderSkips(junk: seq<Byte>, rest: seq<Byte>)
    requires StreamHeader !in junk
    ensures ScanHeader(junk + [StreamHeader] + rest) == Some(rest)
  {
    if junk == [] {
      assert junk + [StreamHeader] + rest == [StreamHeader] + rest;
    } else {
      assert (junk + [StreamHeader] + rest)[1..] == junk[1..] + [StreamHeader] + rest;
      ScanHeaderSkips(junk[1..], rest);
    }
  }

  /** The checksum rule: header, length, payload and checksum sum to 0 mod 256. */
  predicate ChecksumOk(n: Byte, data: seq<Byte>) {
    ((StreamHeader as int) + n + Sum(data)) % 0x100 == 0
  }

  /** `readStream` on an input queue: the frame or the error, and what is
      left of the input. A timeout is a read that runs out of input, so it
      leaves nothing behind. */
  function ReadFrame(rx: seq<Byte>): (Result<seq<Byte>>, seq<Byte>)
  {
    match ScanHeader(rx)
    case None => (Err(Timeout), [])
    case Some(afterHeader) =>
      if afterHeader == [] then (Err(Timeout), [])
      else
        var n: nat := afterHeader[0];
        var body := afterHeader[1..];
        if |body| < n + 1 then (Err(Timeout), [])
        else
          var data := body[..n + 1];
          if !ChecksumOk(n, data) then (Err(SensorError), body[n + 1..])
          else (Ok([StreamHeader, n] + data), body[n + 1..])
  }

  /** A well-formed frame: header, length n, n + 1 further bytes, byte sum 0 mod 256. */
  predicate ValidFrame(f: seq<Byte>) {
    |f| >= 3 && f[0] == StreamHeader && |f| == (f[1] as int) + 3 && Sum(f) % 0x100 == 0
  }

  lemma FrameSum(n: Byte, data: seq<Byte>)
    ensures Sum([StreamHeader, n] + data) == StreamHeader + n + Sum(data)
  {
    SumAppend([StreamHeader, n], data);
  }

  /** Everything the reader returns is a valid frame cut out of its input
      after bytes that are not the header; the rest is what follows it. */
  lemma ReadFrameSound(rx: seq<Byte>)
    ensures var (r, rest) := ReadFrame(rx);
      r.Ok? ==> (ValidFrame(r.value) &&
        exists skipped :: rx == skipped + r.value + rest && StreamHeader !in skipped)
  {
    var (r, rest) := ReadFrame(rx);
    if r.Ok? {
      ScanHeaderSpec(rx);
      var afterHeader := ScanHeader(rx).value;
      var skipped :| rx == skipped + [StreamHeader] + afterHeader && StreamHeader !in skipped;
      var n: Byte := afterHeader[0];
      var body := afterHeader[1..];
      var data := body[..n + 1];
      assert r.value == [StreamHeader, n] + data && rest == body[n + 1..];
      FrameValid(n, data);
      assert afterHeader == [n] + data + rest;
      Regroup(skipped, n, data, rest);
    }
  }

  /** A checksummed frame of the announced length is a valid frame. */
  lemma FrameValid(n: Byte, data: seq<Byte>)
    requires |data| == n + 1 && ChecksumOk(n, data)
    ensures ValidFrame([StreamHeader, n] + data)
  {
    FrameSum(n, data);
  }

  lemma Regroup(skipped: seq<Byte>, n: Byte, data: seq<Byte>, rest: seq<Byte>)
    ensures skipped + [StreamHeader] + ([n] + data + rest) == skipped + ([StreamHeader, n] + data) + rest
  {
  }

  /** A frame behind non-header bytes is accepted iff its checksum holds;
      otherwise it is a SensorError. Either way reading resumes right after it. */
  lemma ReadFrameChecksum(junk: seq<Byte>, n: Byte, data: seq<Byte>, rest: seq<Byte>)
    requires StreamHeader !in junk && |data| == n + 1
    ensures ReadFrame(junk + [StreamHeader, n] + data + rest) ==
      if ChecksumOk(n, data) then (Ok([StreamHeader, n] + data), rest) else (Err(SensorError), rest)
  {
    var rx := junk + [StreamHeader, n] + data + rest;
    assert rx == junk + [StreamHeader] + ([n] + data + rest);
    ScanHeaderSkips(junk, [n] + data + rest);
    var body := ([n] + data + rest)[1..];
    assert body == data + rest;
    assert body[..n + 1] == data && body[n + 1..] == rest;
  }

  /** Input with no header byte is a timeout that drains the queue. */
  lemma ReadFrameTimeout(rx: seq<Byte>)
    requires StreamHeader !in rx
    ensures ReadFrame(rx) == (Err(Timeout), [])
  {
    ScanHeaderSpec(rx);
  }

  /** A header with no length byte after it is a timeout that drains the queue. */
  lemma ReadFrameNoLength(junk: seq<Byte>)
    requires StreamHeader !in junk
    ensures ReadFrame(junk + [StreamHeader]) == (Err(Timeout), [])
  {
    assert junk + [StreamHeader] == junk + [StreamHeader] + [];
    ScanHeaderSkips(junk, []);
  }

  /** A frame cut short (fewer than n + 1 bytes after the length n) is a
      timeout that drains the queue. */
  lemma ReadFrameShort(junk: seq<Byte>, n: Byte, body: seq<Byte>)
    requires StreamHeader !in junk && |body| < n + 1
    ensures ReadFrame(junk + [StreamHeader, n] + body) == (Err(Timeout), [])
  {
    assert junk + [StreamHeader, n] + body == junk + [StreamHeader] + ([n] + body);
    ScanHeaderSkips(junk, [n] + body);
    assert ([n] + body)[1..] == body;
  }

  /** The checksum loop of `readStream` (a 32-bit sum, which cannot wrap for
      at most 256 bytes). */
  method ChecksumMatches(n: Byte, data: seq<Byte>) returns (ok: bool)
    requires |data| == n + 1
    ensures ok == ChecksumOk(n, data)
  {
    var sum: nat := StreamHeader + n;
    for i := 0 to |data|
      invariant sum == StreamHeader + n + Sum(data[..i])
    {
      SumPrefix(data, i);
      sum := sum + data[i];
      SumBound(data[..i + 1]);
      assert sum <= UInt32Max;
    }
    assert data[..|data|] == data;
    ok := sum % 0x100 == 0;
  }

  /** `readStream` on the link: the do-while header scan, the length byte,
      the n + 1 further bytes, the checksum loop. */
  method ReadFrameFrom(link: Link) returns (r: Result<seq<Byte>>)
    modifies link
    ensures (r, link.rx) == ReadFrame(old(link.rx))
    ensures link.log == old(link.log) && link.faults == old(link.faults)
  {
    var b := link.Read(1);
    if |b| != 1 {
      return Err(Timeout);
    }
    while b[0] != StreamHeader
      invariant |b| == 1
      invariant ScanHeader(old(link.rx)) == ScanHeader(b + link.rx)
      invariant link.log == old(link.log) && link.faults == old(link.faults)
      decreases |link.rx|
    {
      assert ScanHeader(b + link.rx) == ScanHeader(link.rx) by {
        assert (b + link.rx)[1..] == link.rx;
      }
      b := link.Read(1);
      if |b| != 1 {
        return Err(Timeout);
      }
    }
    assert (b + link.rx)[1..] == link.rx;
    var count := link.Read(1);
    if |count| != 1 {
      return Err(Timeout);
    }
    var n: nat := count[0];
    var data := link.Read(n + 1);
    if |data| != n + 1 {
      return Err(Timeout);
    }
    var ok := ChecksumMatches(count[0], data);
    if !ok {
      return Err(SensorError);
    }
    r := Ok([StreamHeader, count[0]] + data);
  }

  /** [19, 3, 10, 20, 30, 174] is accepted: 174 completes the sum to 256. */
  lemma StreamExampleAccepted()
    ensures ReadFrame([19, 3, 10, 20, 30, 174]) == (Ok([19, 3, 10, 20, 30, 174]), [])
  {
    var payload: seq<Byte> := [10, 20, 30, 174];
    assert Sum(payload) == 234;
    assert ChecksumOk(3, payload);
    ReadFrameChecksum([], 3, payload, []);
    assert [] + [StreamHeader, 3] + payload + [] == [StreamHeader, 3] + payload == [19, 3, 10, 20, 30, 174];
  }

  /** With one payload bit flipped the same frame is rejected, and the
      reader resumes at the valid frame that follows it. */
  lemma StreamExampleResync()
    ensures ReadFrame([19, 3, 11, 20, 30, 174, 19, 3, 10, 20, 30, 174]) == (Err(SensorError), [19, 3, 10, 20, 30, 174])
    ensures ReadFrame([19, 3, 10, 20, 30, 174]).0.Ok?
  {
    var corrupted: seq<Byte> := [11, 20, 30, 174];
    var next: seq<Byte> := [19, 3, 10, 20, 30, 174];
    CorruptedChecksum();
    ReadFrameChecksum([], 3, corrupted, next);
    assert [] + [StreamHeader, 3] + corrupted + next == [19, 3, 11, 20, 30, 174, 19, 3, 10, 20, 30, 174];
    StreamExampleAccepted();
  }

  /** The payload of the sample frame with its first byte 10 changed to 11 fails the checksum. */
  lemma CorruptedChecksum()
    ensures !ChecksumOk(3, [11, 20, 30, 174])
  {
    var corrupted: seq<Byte> := [11, 20, 30, 174];
    assert corrupted[1..][1..][1..] == [174];
    assert Sum(corrupted) == 235;
  }

  /** A frame delivered to the stream callback, stamped in milliseconds. */
  datatype StreamPacket = StreamPacket(data: seq<Byte>, timestamp: UInt32)

  /** `static_cast<uint32_t>(esp_timer_get_time() / 1000)`: microseconds to
      milliseconds, wrapping every 2^32 ms. */
  function TimestampMs(nowUs: nat): (t: UInt32)
    ensures nowUs < 1000 * 0x1_0000_0000 ==> t == nowUs / 1000
  {
    (nowUs / 1000) % 0x1_0000_0000
  }
}
