/** The serial link to the chassis. `log` is every byte written, in order;
    `rx` is the queue of bytes waiting to be read; `faults` scripts the
    outcome of each fallible driver call (a write, waiting for a write to
    finish, querying the buffered length): the next call fails iff the head
    of the script is `true`, and an exhausted script means success. A read
    that runs out of input is a timeout. */
module Uart {
  import opened Bytes
  import opened Protocol

  datatype Wire = Wire(log: seq<Byte>, rx: seq<Byte>, faults: seq<bool>)

  /** Whether the next fallible driver call succeeds. */
  function CallOk(w: Wire): bool {
    w.faults == [] || !w.faults[0]
  }

  /** The wire after one fallible driver call has consumed its scripted outcome. */
  function Consume(w: Wire): (w': Wire)
    ensures w'.log == w.log && w'.rx == w.rx
    ensures |w'.faults| == if w.faults == [] then 0 else |w.faults| - 1
  {
    w.(faults := if w.faults == [] then [] else w.faults[1..])
  }

  /** `uart_write_bytes`: a failed write puts nothing on the wire. */
  function WriteBytes(w: Wire, bytes: seq<Byte>): (r: (bool, Wire))
    ensures r.1.rx == w.rx && r.1.faults == Consume(w).faults
    ensures r.0 <==> CallOk(w)
    ensures r.1.log == if r.0 then w.log + bytes else w.log
  {
    if CallOk(w) then (true, Consume(w).(log := w.log + bytes)) else (false, Consume(w))
  }

  /** `uart_read_bytes(n)` with a timeout: at most n bytes, fewer when the input runs out. */
  function ReadBytes(w: Wire, n: nat): (r: (seq<Byte>, Wire))
    ensures |r.0| == if n <= |w.rx| then n else |w.rx|
    ensures w.rx == r.0 + r.1.rx
    ensures r.1.log == w.log && r.1.faults == w.faults
  {
    if n <= |w.rx| then (w.rx[..n], w.(rx := w.rx[n..])) else (w.rx, w.(rx := []))
  }

  /** `sendCommand(cmd, data)`: the opcode, then the payload when there is one;
      either write failing is a CommandError. */
  function Send(w: Wire, cmd: Byte, data: seq<Byte>): (r: (Status, Wire))
    ensures r.1.rx == w.rx && w.log <= r.1.log
  {
    var (ok1, w1) := WriteBytes(w, [cmd]);
    if !ok1 then (Failed(CommandError), w1)
    else if data == [] then (Done, w1)
    else
      var (ok2, w2) := WriteBytes(w1, data);
      if !ok2 then (Failed(CommandError), w2) else (Done, w2)
  }

  /** What `Send` puts on the wire: the whole command on success; nothing, or
      the opcode alone, on failure; the input queue is never touched. */
  lemma SendWire(w: Wire, cmd: Byte, data: seq<Byte>)
    ensures var (st, w') := Send(w, cmd, data);
      w'.rx == w.rx &&
      (st == Done <==> CallOk(w) && (data == [] || CallOk(Consume(w)))) &&
      (st == Done ==> w'.log == w.log + [cmd] + data) &&
      (st != Done ==> st == Failed(CommandError) && (w'.log == w.log || (data != [] && w'.log == w.log + [cmd])))
  {
  }

  /** On a link whose calls all succeed, `Send` appends the whole command. */
  lemma SendOnWorkingLink(w: Wire, cmd: Byte, data: seq<Byte>)
    requires w.faults == []
    ensures Send(w, cmd, data) == (Done, w.(log := w.log + [cmd] + data))
  {
    if data == [] {
      assert w.log + [cmd] + data == w.log + [cmd];
    }
  }

  class Link {
    var log: seq<Byte>
    var rx: seq<Byte>
    var faults: seq<bool>

    function State(): Wire
      reads this
    {
      Wire(log, rx, faults)
    }

    constructor (input: seq<Byte>, script: seq<bool>)
      ensures State() == Wire([], input, script)
    {
      log, rx, faults := [], input, script;
    }

    /** Takes the scripted outcome of the next fallible call. */
    method NextCall() returns (ok: bool)
      modifies this
      ensures ok == CallOk(old(State())) && State() == Consume(old(State()))
    {
      ok := faults == [] || !faults[0];
      if faults != [] {
        faults := faults[1..];
      }
    }

    method Write(bytes: seq<Byte>) returns (ok: bool)
      modifies this
      ensures (ok, State()) == WriteBytes(old(State()), bytes)
    {
      ok := NextCall();
      if ok {
        log := log + bytes;
      }
    }

    /** `uart_wait_tx_done` */
    method WaitTxDone() returns (ok: bool)
      modifies this
      ensures ok == CallOk(old(State())) && State() == Consume(old(State()))
    {
      ok := NextCall();
    }

    /** `uart_get_buffered_data_len`: the number of queued bytes, or None if the query fails. */
    method BufferedLength() returns (r: Option<nat>)
      modifies this
      ensures r == if CallOk(old(State())) then Some(|old(rx)|) else None
      ensures State() == Consume(old(State()))
    {
      var ok := NextCall();
      r := if ok then Some(|rx|) else None;
    }

    method Read(n: nat) returns (bytes: seq<Byte>)
      modifies this
      ensures (bytes, State()) == ReadBytes(old(State()), n)
    {
      if n <= |rx| {
        bytes := rx[..n];
        rx := rx[n..];
      } else {
        bytes := rx;
        rx := [];
      }
    }

    /** `uart_flush`: discards the receive queue. */
    method Flush()
      modifies this
      ensures State() == old(State()).(rx := [])
    {
      rx := [];
    }
  }
}
