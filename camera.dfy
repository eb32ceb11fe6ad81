/** The latest-frame exchange between the capture loop and its readers: a
    capture is screened (present, non-empty, starting with the JPEG
    start-of-image marker FF D8 of ITU-T T.81 Annex B Table B.1, at most
    128 KiB), an accepted one is copied into the primary buffer with its
    length and a timestamp, and a reader copies the published bytes into a
    second buffer. The mutex guarding both is modelled by whether taking it
    succeeds. */
module Camera {
  import opened Bytes

  /** `s_jpeg_buffer_len`: both buffers are this size, allocated once. */
  const Capacity: nat := 128 * 1024
  const HeaderSize: nat := 2
  const SoiFirst: Byte := 0xFF
  const SoiSecond: Byte := 0xD8

  /** What `esp_camera_fb_get` hands over: no frame buffer, a frame buffer
      with a null data pointer, or the frame's bytes. */
  datatype Capture = NoFrame | NullData | Frame(data: seq<Byte>)

  /** Why a pass of the capture loop discards a capture, in the order the
      checks are made. */
  datatype Rejection = NoCapture | EmptyFrame | NotJpeg | TooLarge | LockFailed

  /** A frame the exchange may publish. */
  predicate ValidJpeg(f: seq<Byte>) {
    HeaderSize <= |f| <= Capacity && f[0] == SoiFirst && f[1] == SoiSecond
  }

  /** The checks of `camera_capture_task` before the copy. */
  function Screen(cap: Capture, lockOk: bool): Option<Rejection>
  {
    if cap.NoFrame? then Some(NoCapture)
    else if cap.NullData? || |cap.data| == 0 then Some(EmptyFrame)
    else if |cap.data| < HeaderSize || cap.data[0] != SoiFirst || cap.data[1] != SoiSecond then Some(NotJpeg)
    else if |cap.data| > Capacity then Some(TooLarge)
    else if !lockOk then Some(LockFailed)
    else None
  }

  /** A capture passes the screen exactly when it is a valid JPEG frame and
      the mutex is taken. */
  lemma ScreenAcceptsValidJpeg(cap: Capture, lockOk: bool)
    ensures Screen(cap, lockOk) == None <==> cap.Frame? && ValidJpeg(cap.data) && lockOk
  {
  }

  /** The marker is checked before the size: an oversized non-JPEG is
      reported as NotJpeg, an oversized JPEG as TooLarge. */
  lemma ScreenOrder(data: seq<Byte>, lockOk: bool)
    requires |data| > Capacity
    ensures data[0] == SoiFirst && data[1] == SoiSecond ==> Screen(Frame(data), lockOk) == Some(TooLarge)
    ensures !(data[0] == SoiFirst && data[1] == SoiSecond) ==> Screen(Frame(data), lockOk) == Some(NotJpeg)
  {
  }

  /** The published state: the first `jpeg_len` bytes of the primary buffer
      and `s_jpeg_timestamp`. */
  datatype Exchange = Exchange(frame: seq<Byte>, timestamp: UInt64)

  /** Before any publish: length 0, timestamp 0. */
  const Unpublished := Exchange([], 0)

  /** Nothing published yet, or a valid JPEG frame. */
  predicate Published(e: Exchange) {
    e == Unpublished || ValidJpeg(e.frame)
  }

  /** One pass of the capture loop: discard, or publish the frame stamped `now`. */
  function PublishStep(e: Exchange, cap: Capture, lockOk: bool, now: UInt64): (Option<Rejection>, Exchange)
  {
    match Screen(cap, lockOk)
    case Some(why) => (Some(why), e)
    case None => (None, Exchange(cap.data, now))
  }

  /** `JpegBuffer`: the copy buffer (absent on timeout) holding len bytes, and the timestamp. */
  datatype JpegBuffer = JpegBuffer(buffer: Option<seq<Byte>>, len: nat, timestamp: UInt64)

  /** `copy_jpeg_buffer` on the published state. */
  function CopyOutStep(e: Exchange, lockOk: bool): JpegBuffer
  {
    if !lockOk then JpegBuffer(None, 0, 0)
    else JpegBuffer(Some(e.frame), |e.frame|, e.timestamp)
  }

  /** Publishing keeps the exchange published: a rejected capture changes
      nothing, an accepted one replaces frame and timestamp. */
  lemma PublishStepSpec(e: Exchange, cap: Capture, lockOk: bool, now: UInt64)
    requires Published(e)
    ensures var (r, e') := PublishStep(e, cap, lockOk, now);
      Published(e') &&
      (r.Some? ==> e' == e) &&
      (r.None? ==> e'.frame == cap.data && e'.timestamp == now && ValidJpeg(e'.frame))
  {
  }

  /** A copy-out after an accepted publish returns exactly the published
      bytes and timestamp; a timed-out one returns nothing. */
  lemma CopyAfterPublish(e: Exchange, data: seq<Byte>, now: UInt64)
    requires ValidJpeg(data)
    ensures CopyOutStep(PublishStep(e, Frame(data), true, now).1, true) == JpegBuffer(Some(data), |data|, now)
    ensures CopyOutStep(PublishStep(e, Frame(data), true, now).1, false) == JpegBuffer(None, 0, 0)
  {
    ScreenAcceptsValidJpeg(Frame(data), true);
  }

  /** Before any publish a reader gets zero bytes stamped 0. */
  lemma CopyBeforePublish()
    ensures CopyOutStep(Unpublished, true) == JpegBuffer(Some([]), 0, 0)
  {
  }

  /** What a reader receives is empty or a whole valid JPEG frame. */
  lemma CopyOutIsJpeg(e: Exchange, lockOk: bool)
    requires Published(e)
    ensures var out := CopyOutStep(e, lockOk);
      out.len <= Capacity &&
      (out.buffer.Some? ==> |out.buffer.value| == out.len && (out.len == 0 || ValidJpeg(out.buffer.value)))
  {
  }

  /** The two fixed buffers and the published length and timestamp. */
  class FrameExchange {
    const buffer: array<Byte>
    const copy: array<Byte>
    var len: nat
    var timestamp: UInt64

    ghost predicate Valid()
      reads this
    {
      buffer.Length == Capacity && copy.Length == Capacity && buffer != copy && len <= Capacity
    }

    function State(): Exchange
      requires Valid()
      reads this, buffer
    {
      Exchange(buffer[..len], timestamp)
    }

    /** `setup`: both buffers allocated at the fixed capacity; the statics
        start at length 0 and timestamp 0. */
    constructor()
      ensures Valid() && fresh(buffer) && fresh(copy)
      ensures State() == Unpublished
    {
      buffer := new Byte[Capacity](_ => 0);
      copy := new Byte[Capacity](_ => 0);
      len, timestamp := 0, 0;
    }

    /** One pass of `camera_capture_task`: the checks, then the memcpy into
        the primary buffer, the length and the clock reading. */
    method Publish(cap: Capture, lockOk: bool, now: UInt64) returns (r: Option<Rejection>)
      requires Valid()
      modifies this, buffer
      ensures Valid()
      ensures (r, State()) == PublishStep(old(State()), cap, lockOk, now)
    {
      r := Screen(cap, lockOk);
      if r.Some? {
        return;
      }
      var data := cap.data;
      for i := 0 to |data|
        invariant buffer[..i] == data[..i]
      {
        buffer[i] := data[i];
      }
      assert buffer[..|data|] == data;
      len := |data|;
      timestamp := now;
    }

    /** `copy_jpeg_buffer`: on a timed-out lock nothing; otherwise the memcpy
        of the published bytes into the second buffer. */
    method CopyOut(lockOk: bool) returns (out: JpegBuffer)
      requires Valid()
      modifies copy
      ensures Valid() && State() == old(State())
      ensures out == CopyOutStep(State(), lockOk)
      ensures lockOk ==> copy[..len] == buffer[..len]
    {
      if !lockOk {
        return JpegBuffer(None, 0, 0);
      }
      for i := 0 to len
        invariant copy[..i] == buffer[..i]
      {
        copy[i] := buffer[i];
      }
      out := JpegBuffer(Some(copy[..len]), len, timestamp);
    }
  }
}
