/** The chassis protocol engine as a function of its state: every public
    operation of the driver is a `Command`, and `Exec` gives its result and
    the next state. The `Driver.Roomba` class is proved against it. */
module EngineSpec {
  import opened Bytes
  import opened Protocol
  import opened Uart
  import opened Movement
  import opened Cleaning
  import opened Io
  import opened Sensors
  import opened Streaming

  /** `lockDepth` counts how often the UART mutex is held; `relocked` records
      that it was acquired while already held, which self-deadlocks on a
      `std::mutex`. The model carries on as if the mutex were recursive. */
  datatype Engine = Engine(initialized: bool, mode: Mode, wire: Wire, lockDepth: nat, relocked: bool)

  /** The default member values: uninitialised, Off, mutex free. */
  function Default(w: Wire): (e: Engine)
    ensures !e.initialized && e.mode == Off && e.lockDepth == 0 && !e.relocked && e.wire == w
  {
    Engine(false, Off, w, 0, false)
  }

  datatype Command =
    | Wake | Start | Reset | Stop | Power | SafeMode | FullMode
    | Drive(velocity: Int16, radius: Int16)
    | DriveDirect(rightVelocity: Int16, leftVelocity: Int16)
    | DriveStop
    | DrivePwm(rightPwm: Int16, leftPwm: Int16)
    | Clean | Spot | Dock
    | SetMotors(mainBrush: Byte, sideBrush: Byte, vacuum: Byte)
    | SetLeds(leds: Byte, powerColor: Byte, powerIntensity: Byte)
    | Song(songNumber: Byte, notes: seq<Byte>, durations: seq<Byte>)
    | PlaySong(slot: Byte)
    | PlayCrowdPleaser | PlayCrowdPleaser2 | PlayDaftPunk
    | PlayInTheEnd(notesBeyond: Overrun, durationsBeyond: Overrun)
    | WriteToDisplay(text: seq<Byte>)
    | StartStreaming(packets: seq<SensorPacket>)
    | StopStreaming

  function Acquire(e: Engine): (e': Engine)
    ensures e'.lockDepth == e.lockDepth + 1
  {
    e.(relocked := e.relocked || e.lockDepth > 0, lockDepth := e.lockDepth + 1)
  }

  function Release(e: Engine): Engine
    requires e.lockDepth > 0
  {
    e.(lockDepth := e.lockDepth - 1)
  }

  /** `std::lock_guard` around one `sendCommand`. */
  function Locked(e: Engine, cmd: Byte, data: seq<Byte>): (r: (Status, Engine))
    ensures r.1 == e.(wire := r.1.wire, relocked := e.relocked || e.lockDepth > 0)
    ensures r.1.wire.rx == e.wire.rx && e.wire.log <= r.1.wire.log
  {
    var e1 := Acquire(e);
    var (st, w) := Send(e1.wire, cmd, data);
    (st, Release(e1.(wire := w)))
  }

  /** `mode := m` only when the write succeeded. */
  function OnDone(r: (Status, Engine), m: Mode): (r': (Status, Engine))
    ensures r'.0 == r.0 && r'.1 == r.1.(mode := r'.1.mode)
  {
    if r.0 == Done then (r.0, r.1.(mode := m)) else r
  }

  function InMotionMode(m: Mode): bool {
    m == Safe || m == Full
  }

  function ValidSong(slot: Byte, notes: seq<Byte>, durations: seq<Byte>): bool {
    slot <= MaxSongSlot && |notes| == |durations| && |notes| <= MaxSongNotes
  }

  /** The shared shape of `drive`, `driveDirect` and `drivePwm`: the
      initialisation check, the Safe/Full mode check, one locked send. */
  function Motion(e: Engine, cmd: Byte, data: seq<Byte>): (r: (Status, Engine))
    ensures r.1.initialized == e.initialized && r.1.lockDepth == e.lockDepth && r.1.mode == e.mode
    ensures r.1.wire.rx == e.wire.rx && e.wire.log <= r.1.wire.log
  {
    if !e.initialized then (Failed(InitializationError), e)
    else if !InMotionMode(e.mode) then (Failed(InvalidParameter), e)
    else Locked(e, cmd, data)
  }

  /** `stop`: under the mutex, `driveStop` (which takes the mutex again),
      then the Stop opcode; the mode becomes Off only if that write succeeded.
      The outcome of `driveStop` is ignored. */
  function Halt(e: Engine): (r: (Status, Engine))
    ensures r.1.initialized == e.initialized && r.1.lockDepth == e.lockDepth
    ensures r.1.wire.rx == e.wire.rx && e.wire.log <= r.1.wire.log
  {
    if !e.initialized then (Failed(InitializationError), e)
    else
      var e1 := Acquire(e);
      var (_, e2) := Motion(e1, CmdDrive, DrivePayload(0, 0));
      var (st, w) := Send(e2.wire, CmdStop, []);
      (st, Release(e2.(wire := w, mode := if st == Done then Off else e2.mode)))
  }

  /** `song`: on an initialised driver, a slot beyond 4, differing lengths
      or more than 16 notes are refused; otherwise one locked send of the
      Song payload. */
  function Upload(e: Engine, slot: Byte, notes: seq<Byte>, durations: seq<Byte>): (r: (Status, Engine))
    ensures r.1.initialized == e.initialized && r.1.lockDepth == e.lockDepth && r.1.mode == e.mode
    ensures r.1.wire.rx == e.wire.rx && e.wire.log <= r.1.wire.log
  {
    if !e.initialized then (Failed(InitializationError), e)
    else if !ValidSong(slot, notes, durations) then (Failed(InvalidParameter), e)
    else Locked(e, CmdSong, SongPayload(slot, notes, durations))
  }

  /** `playSong`: on an initialised driver, a slot beyond 4 is refused;
      otherwise one locked send. */
  function Play(e: Engine, slot: Byte): (r: (Status, Engine))
    ensures r.1.initialized == e.initialized && r.1.lockDepth == e.lockDepth && r.1.mode == e.mode
    ensures r.1.wire.rx == e.wire.rx && e.wire.log <= r.1.wire.log
  {
    if !e.initialized then (Failed(InitializationError), e)
    else if slot > MaxSongSlot then (Failed(InvalidParameter), e) else Locked(e, CmdPlay, [slot])
  }

  /** The presets that play one song: upload it to slot 0, and play slot 0
      only if the upload succeeded. */
  function PlayPreset(e: Engine, notes: seq<Byte>, durations: seq<Byte>): (r: (Status, Engine))
    ensures r.1.initialized == e.initialized && r.1.lockDepth == e.lockDepth && r.1.mode == e.mode
    ensures r.1.wire.rx == e.wire.rx && e.wire.log <= r.1.wire.log
  {
    var (st, e1) := Upload(e, 0, notes, durations);
    if st != Done then (st, e1) else Play(e1, 0)
  }

  /** `playDaftPunkSong`: slot 0, then slot 1 whatever became of slot 0, then
      play slot 0 only if the first upload succeeded. */
  function PlayTwoPart(e: Engine): (r: (Status, Engine))
    ensures r.1.initialized == e.initialized && r.1.lockDepth == e.lockDepth && r.1.mode == e.mode
    ensures r.1.wire.rx == e.wire.rx && e.wire.log <= r.1.wire.log
  {
    var (st, e1) := Upload(e, 0, DaftPunkNotes1, DaftPunkDurations);
    var (_, e2) := Upload(e1, 1, DaftPunkNotes2, DaftPunkDurations);
    if st != Done then (st, e2) else Play(e2, 0)
  }

  /** Every public operation of the driver. Operations that call other
      operations are written with the functions of those operations:
      `Reset` with `start`'s send, `Stop` as `Halt`, the presets with
      `Upload` and `Play`. */
  function Exec(e: Engine, c: Command): (r: (Status, Engine))
    ensures r.1.initialized == e.initialized && r.1.lockDepth == e.lockDepth
    ensures r.1.wire.rx == e.wire.rx && e.wire.log <= r.1.wire.log
    ensures !e.initialized ==> r == (Failed(InitializationError), e)
  {
    if !e.initialized then (Failed(InitializationError), e)
    else match c
      case Wake => (Done, Release(Acquire(e)))
      case Start => OnDone(Locked(e, CmdStart, []), Passive)
      case Reset =>
        var (st, e1) := Locked(e, CmdReset, []);
        if st != Done then (st, e1) else OnDone(Locked(e1.(mode := Off), CmdStart, []), Passive)
      case Stop => Halt(e)
      case Power => OnDone(Locked(e, CmdPower, []), Passive)
      case SafeMode =>
        if e.mode == Off then (Failed(InvalidParameter), e) else OnDone(Locked(e, CmdSafe, []), Safe)
      case FullMode =>
        if e.mode == Off then (Failed(InvalidParameter), e) else OnDone(Locked(e, CmdFull, []), Full)
      case Drive(velocity, radius) => Motion(e, CmdDrive, DrivePayload(velocity, radius))
      case DriveDirect(right, left) => Motion(e, CmdDriveDirect, DriveDirectPayload(right, left))
      case DriveStop => Motion(e, CmdDrive, DrivePayload(0, 0))
      case DrivePwm(right, left) => Motion(e, CmdDrivePwm, DrivePwmPayload(right, left))
      case Clean => Locked(e, CmdClean, [])
      case Spot => Locked(e, CmdSpot, [])
      case Dock => Locked(e, CmdDock, [])
      case SetMotors(mainBrush, sideBrush, vacuum) => Motion(e, CmdMotors, [MotorMask(mainBrush, sideBrush, vacuum)])
      case SetLeds(leds, color, intensity) => Locked(e, CmdLeds, [leds, color, intensity])
      case Song(slot, notes, durations) => Upload(e, slot, notes, durations)
      case PlaySong(slot) => Play(e, slot)
      case PlayCrowdPleaser => PlayPreset(e, CrowdPleaserNotes, CrowdPleaserDurations)
      case PlayCrowdPleaser2 => PlayPreset(e, CrowdPleaser2Notes, CrowdPleaserDurations)
      case PlayDaftPunk => PlayTwoPart(e)
      case PlayInTheEnd(notesBeyond, durationsBeyond) =>
        PlayPreset(e, InTheEndSpanOver(InTheEndNotes, notesBeyond), InTheEndSpanOver(InTheEndDurations, durationsBeyond))
      case WriteToDisplay(text) => Motion(e, CmdDigits, DisplayPayload(text))
      case StartStreaming(packets) => Locked(e, CmdStreamSensors, StreamRequest(packets))
      case StopStreaming => Locked(e, CmdPauseResumeStream, PausePayload)
  }

  /** Each drive command fails on an uninitialised driver, is refused outside
      Safe and Full mode, and is otherwise one locked send of its payload;
      `driveStop` is `drive(0, 0)`. */
  lemma MotionCommandsSend(e: Engine, c: Command)
    requires c.Drive? || c.DriveDirect? || c.DrivePwm? || c.DriveStop?
    ensures !e.initialized ==> Exec(e, c) == (Failed(InitializationError), e)
    ensures e.initialized && !InMotionMode(e.mode) ==> Exec(e, c) == (Failed(InvalidParameter), e)
    ensures e.initialized && InMotionMode(e.mode) && c.Drive? ==>
      Exec(e, c) == Locked(e, CmdDrive, DrivePayload(c.velocity, c.radius))
    ensures e.initialized && InMotionMode(e.mode) && c.DriveDirect? ==>
      Exec(e, c) == Locked(e, CmdDriveDirect, DriveDirectPayload(c.rightVelocity, c.leftVelocity))
    ensures e.initialized && InMotionMode(e.mode) && c.DrivePwm? ==>
      Exec(e, c) == Locked(e, CmdDrivePwm, DrivePwmPayload(c.rightPwm, c.leftPwm))
    ensures e.initialized && InMotionMode(e.mode) && c.DriveStop? ==>
      Exec(e, c) == Locked(e, CmdDrive, [0, 0, 0, 0])
  {
    if c.DriveStop? {
      assert DrivePayload(0, 0) == [0, 0, 0, 0];
    }
  }

  /** `stop` is `Halt`, and the drive step inside `Halt` is `driveStop` run
      with the mutex already held. */
  lemma ExecStop(e: Engine)
    ensures Exec(e, Stop) == Halt(e)
    ensures Motion(Acquire(e), CmdDrive, DrivePayload(0, 0)) == Exec(Acquire(e), DriveStop)
  {
  }

  // ----- An independent description of the single-write commands -----

  /** An Open Interface command: the opcode and its payload. */
  datatype Frame = Frame(opcode: Byte, payload: seq<Byte>)

  /** The one command a simple operation writes; None for the operations
      that call other operations. */
  function Encoding(c: Command): Option<Frame> {
    match c
    case Start => Some(Frame(128, []))
    case Power => Some(Frame(133, []))
    case SafeMode => Some(Frame(131, []))
    case FullMode => Some(Frame(132, []))
    case Drive(v, r) => Some(Frame(137, DrivePayload(v, r)))
    case DriveDirect(right, left) => Some(Frame(145, DriveDirectPayload(right, left)))
    case DrivePwm(right, left) => Some(Frame(146, DrivePwmPayload(right, left)))
    case Clean => Some(Frame(135, []))
    case Spot => Some(Frame(134, []))
    case Dock => Some(Frame(143, []))
    case SetMotors(m, s, v) => Some(Frame(138, [MotorMask(m, s, v)]))
    case SetLeds(l, col, i) => Some(Frame(139, [l, col, i]))
    case Song(slot, notes, durations) =>
      if ValidSong(slot, notes, durations) then Some(Frame(140, SongPayload(slot, notes, durations))) else None
    case PlaySong(slot) => Some(Frame(141, [slot]))
    case WriteToDisplay(text) => Some(Frame(164, DisplayPayload(text)))
    case StartStreaming(packets) => Some(Frame(148, StreamRequest(packets)))
    case StopStreaming => Some(Frame(150, [0]))
    case _ => None
  }

  /** The error an operation returns before touching the wire, if any. */
  function Guard(e: Engine, c: Command): Option<Error> {
    if !e.initialized then Some(InitializationError)
    else match c
      case SafeMode | FullMode => if e.mode == Off then Some(InvalidParameter) else None
      case Drive(_, _) | DriveDirect(_, _) | DrivePwm(_, _) | DriveStop | SetMotors(_, _, _) | WriteToDisplay(_) =>
        if InMotionMode(e.mode) then None else Some(InvalidParameter)
      case Song(slot, notes, durations) => if ValidSong(slot, notes, durations) then None else Some(InvalidParameter)
      case PlaySong(slot) => if slot > MaxSongSlot then Some(InvalidParameter) else None
      case _ => None
  }

  /** The mode a successful command switches to. */
  function NextMode(c: Command, m: Mode): Mode {
    match c
    case Start | Power => Passive
    case SafeMode => Safe
    case FullMode => Full
    case _ => m
  }

  /** Every single-write operation: a guard failure returns its error and
      changes nothing; otherwise exactly the encoded command goes to the
      wire, the result is that of the write, and the mode moves on only when
      the write succeeded. */
  lemma SingleWrite(e: Engine, c: Command, f: Frame)
    requires Encoding(c) == Some(f) && e.lockDepth == 0
    ensures var (st, e') := Exec(e, c);
      (Guard(e, c).Some? ==> st == Failed(Guard(e, c).value) && e' == e) &&
      (Guard(e, c).None? ==>
        var (st1, w) := Send(e.wire, f.opcode, f.payload);
        st == st1 && e' == e.(wire := w, mode := if st == Done then NextMode(c, e.mode) else e.mode))
  {
  }

  /** A single-write operation that passes its guard on a link whose calls
      succeed appends exactly its command to the log and takes its mode edge. */
  lemma SingleWriteOnWorkingLink(e: Engine, c: Command, f: Frame)
    requires Encoding(c) == Some(f) && e.lockDepth == 0 && Guard(e, c).None? && e.wire.faults == []
    ensures Exec(e, c) == (Done, e.(wire := e.wire.(log := e.wire.log + [f.opcode] + f.payload), mode := NextMode(c, e.mode)))
  {
    SingleWrite(e, c, f);
    SendOnWorkingLink(e.wire, f.opcode, f.payload);
  }

  /** Only the mode commands change the mode, along these edges. */
  predicate ModeEdge(c: Command, from: Mode, to: Mode) {
    to == from ||
    (c == Start && to == Passive) || (c == Power && to == Passive) ||
    (c == SafeMode && from != Off && to == Safe) || (c == FullMode && from != Off && to == Full) ||
    (c == Stop && to == Off) || (c.Reset? && (to == Off || to == Passive))
  }

  /** Every mode change follows an edge, and happens only after a byte reached the wire. */
  lemma ModeChangesAfterWrite(e: Engine, c: Command)
    ensures var e' := Exec(e, c).1;
      ModeEdge(c, e.mode, e'.mode) && (e'.mode != e.mode ==> |e'.wire.log| > |e.wire.log|)
  {
    if e.initialized {
      match c
      case Reset =>
        var (st, e1) := Locked(e, CmdReset, []);
        if st == Done {
          assert |e1.wire.log| > |e.wire.log|;
        }
      case Stop =>
        var e2 := Motion(Acquire(e), CmdDrive, DrivePayload(0, 0)).1;
        assert Send(e2.wire, CmdStop, []).0 == Done ==> |Send(e2.wire, CmdStop, []).1.log| > |e.wire.log|;
      case _ =>
    }
  }

  /** `reset`: a failed reset write is a CommandError that leaves the mode;
      after it the mode is Off, and Passive again only if `start` succeeds. */
  lemma ResetOutcomes(e: Engine)
    requires e.initialized && e.lockDepth == 0
    ensures var (st, e') := Exec(e, Reset);
      (!CallOk(e.wire) ==> st == Failed(CommandError) && e'.mode == e.mode && e'.wire.log == e.wire.log) &&
      (CallOk(e.wire) && !CallOk(Consume(e.wire)) ==>
        st == Failed(CommandError) && e'.mode == Off && e'.wire.log == e.wire.log + [CmdReset]) &&
      (CallOk(e.wire) && CallOk(Consume(e.wire)) ==>
        st == Done && e'.mode == Passive && e'.wire.log == e.wire.log + [CmdReset, CmdStart])
  {
  }

  /** `stop` in Safe or Full mode calls `driveStop`, whose `drive` takes the
      mutex `stop` already holds. */
  lemma StopRelocks(e: Engine)
    requires e.initialized && InMotionMode(e.mode)
    ensures Exec(e, Stop).1.relocked
  {
  }

  /** `stop` ignores the result of `driveStop`: it reports the Stop write alone
      and switches to Off exactly when that write succeeds. In Off or Passive
      `driveStop` writes nothing and the mutex is taken once. */
  lemma StopOutcome(e: Engine)
    requires e.initialized && e.lockDepth == 0
    ensures var (st, e') := Exec(e, Stop);
      var e2 := Exec(Acquire(e), DriveStop).1;
      st == Send(e2.wire, CmdStop, []).0 &&
      (st == Done <==> CallOk(e2.wire)) &&
      e'.mode == (if st == Done then Off else e.mode) &&
      (!InMotionMode(e.mode) ==> e2.wire == e.wire && e'.relocked == e.relocked)
  {
  }

  /** On a link whose calls succeed, `stop` in Safe or Full writes the zero
      drive and then the Stop opcode. */
  lemma StopLog(e: Engine)
    requires e.initialized && e.lockDepth == 0 && InMotionMode(e.mode) && e.wire.faults == []
    ensures Exec(e, Stop) == (Done, e.(mode := Off, relocked := true, wire := e.wire.(log := e.wire.log + [CmdDrive, 0, 0, 0, 0, CmdStop])))
  {
    var e1 := Acquire(e);
    var zero := DrivePayload(0, 0);
    assert zero == [0, 0, 0, 0];
    var w2 := e.wire.(log := e.wire.log + [CmdDrive] + zero);
    SendOnWorkingLink(e1.wire, CmdDrive, zero);
    var e2 := e1.(wire := w2, relocked := true, lockDepth := 1);
    assert Exec(e1, Drive(0, 0)) == (Done, e2);
    assert Exec(e1, DriveStop).1 == e2;
    SendOnWorkingLink(w2, CmdStop, []);
    assert w2.log + [CmdStop] + [] == e.wire.log + [CmdDrive, 0, 0, 0, 0, CmdStop];
  }

  /** `driveStop` is `drive(0, 0)`. */
  lemma DriveStopIsDriveZero(e: Engine)
    ensures Exec(e, DriveStop) == Exec(e, Drive(0, 0))
  {
  }

  /** `drive(600, 0)` in Safe mode on a working link writes 137, 0x01, 0xF4, 0, 0. */
  lemma DriveExample(e: Engine)
    requires e.initialized && e.lockDepth == 0 && e.mode == Safe && e.wire.faults == []
    ensures Exec(e, Drive(600, 0)).1.wire.log == e.wire.log + [137, 0x01, 0xF4, 0x00, 0x00]
  {
    DriveClampsVelocity();
    var p := DrivePayload(600, 0);
    SingleWriteOnWorkingLink(e, Drive(600, 0), Frame(137, p));
  }

  /** `writeToDisplay("HELLO")` in Safe mode on a working link shows "ELLO". */
  lemma DisplayExample(e: Engine)
    requires e.initialized && e.lockDepth == 0 && e.mode == Safe && e.wire.faults == []
    ensures Exec(e, WriteToDisplay([72, 69, 76, 76, 79])).1.wire.log == e.wire.log + [CmdDigits, 69, 76, 76, 79]
  {
    SingleWriteOnWorkingLink(e, WriteToDisplay([72, 69, 76, 76, 79]), Frame(164, DisplayPayload([72, 69, 76, 76, 79])));
    DisplayExamples();
  }

  // ----- Preset songs -----

  /** The song a preset that plays one song uploads to slot 0. */
  predicate PresetSong(c: Command, notes: seq<Byte>, durations: seq<Byte>) {
    (c == PlayCrowdPleaser && notes == CrowdPleaserNotes && durations == CrowdPleaserDurations) ||
    (c == PlayCrowdPleaser2 && notes == CrowdPleaser2Notes && durations == CrowdPleaserDurations) ||
    (c.PlayInTheEnd? && notes == InTheEndSpanOver(InTheEndNotes, c.notesBeyond) &&
      durations == InTheEndSpanOver(InTheEndDurations, c.durationsBeyond))
  }

  /** `song` and `playSong` are `Upload` and `Play`. */
  lemma SongCommands(e: Engine, slot: Byte, notes: seq<Byte>, durations: seq<Byte>)
    ensures Exec(e, Song(slot, notes, durations)) == Upload(e, slot, notes, durations)
    ensures Exec(e, PlaySong(slot)) == Play(e, slot)
  {
  }

  /** A preset uploads its song to slot 0 and plays slot 0 only if the
      upload succeeded; a failed upload is returned and nothing is played. */
  lemma PresetPlaysAfterUpload(e: Engine, c: Command, notes: seq<Byte>, durations: seq<Byte>)
    requires PresetSong(c, notes, durations)
    ensures var upload := Exec(e, Song(0, notes, durations));
      Exec(e, c) == if upload.0 == Done then Exec(upload.1, PlaySong(0)) else upload
  {
    PresetCommands(e, c, notes, durations);
    SongCommands(e, 0, notes, durations);
    var upload := Upload(e, 0, notes, durations);
    SongCommands(upload.1, 0, notes, durations);
  }

  /** The three presets are `PlayPreset` on their own notes. */
  lemma PresetCommands(e: Engine, c: Command, notes: seq<Byte>, durations: seq<Byte>)
    requires PresetSong(c, notes, durations)
    ensures Exec(e, c) == PlayPreset(e, notes, durations)
  {
    if c.PlayInTheEnd? {
      InTheEndCommand(e, c);
    } else {
      CrowdPleaserCommands(e, c);
    }
  }

  lemma InTheEndCommand(e: Engine, c: Command)
    requires c.PlayInTheEnd?
    ensures Exec(e, c) == PlayPreset(e, InTheEndSpanOver(InTheEndNotes, c.notesBeyond), InTheEndSpanOver(InTheEndDurations, c.durationsBeyond))
  {
  }

  lemma CrowdPleaserCommands(e: Engine, c: Command)
    requires c == PlayCrowdPleaser || c == PlayCrowdPleaser2
    ensures c == PlayCrowdPleaser ==> Exec(e, c) == PlayPreset(e, CrowdPleaserNotes, CrowdPleaserDurations)
    ensures c == PlayCrowdPleaser2 ==> Exec(e, c) == PlayPreset(e, CrowdPleaser2Notes, CrowdPleaserDurations)
  {
  }

  /** Each preset uploads a full 16-note song. */
  lemma PresetSongLength(c: Command, notes: seq<Byte>, durations: seq<Byte>)
    requires PresetSong(c, notes, durations)
    ensures |notes| == |durations| == MaxSongNotes
  {
  }

  /** On a working link a valid upload appends the Song command and nothing else changes. */
  lemma UploadOnWorkingLink(e: Engine, slot: Byte, notes: seq<Byte>, durations: seq<Byte>)
    requires e.initialized && e.lockDepth == 0 && e.wire.faults == []
    requires ValidSong(slot, notes, durations)
    ensures Exec(e, Song(slot, notes, durations)) == (Done, e.(wire := e.wire.(log := e.wire.log + [CmdSong] + SongPayload(slot, notes, durations))))
  {
    SingleWriteOnWorkingLink(e, Song(slot, notes, durations), Frame(140, SongPayload(slot, notes, durations)));
  }

  /** On a working link playing a valid slot appends [141, slot]. */
  lemma PlayOnWorkingLink(e: Engine, slot: Byte)
    requires e.initialized && e.lockDepth == 0 && e.wire.faults == [] && slot <= MaxSongSlot
    ensures Exec(e, PlaySong(slot)) == (Done, e.(wire := e.wire.(log := e.wire.log + [CmdPlay, slot])))
  {
    SingleWriteOnWorkingLink(e, PlaySong(slot), Frame(141, [slot]));
    assert e.wire.log + [141] + [slot] == e.wire.log + [CmdPlay, slot];
  }

  /** On a working link, uploading a song to slot 0 and then playing slot 0
      writes both commands. */
  lemma UploadThenPlay(e: Engine, notes: seq<Byte>, durations: seq<Byte>)
    requires e.initialized && e.lockDepth == 0 && e.wire.faults == []
    requires ValidSong(0, notes, durations)
    ensures var upload := Exec(e, Song(0, notes, durations));
      upload.0 == Done &&
      Exec(upload.1, PlaySong(0)) ==
        (Done, e.(wire := e.wire.(log := e.wire.log + [CmdSong] + SongPayload(0, notes, durations) + [CmdPlay, 0])))
  {
    var p := SongPayload(0, notes, durations);
    UploadOnWorkingLink(e, 0, notes, durations);
    var e1 := e.(wire := e.wire.(log := e.wire.log + [CmdSong] + p));
    PlayOnWorkingLink(e1, 0);
    assert e1.wire.log + [CmdPlay, 0] == e.wire.log + [CmdSong] + p + [CmdPlay, 0];
  }

  /** On a working link a preset writes the upload of slot 0 and then Play 0. */
  lemma PresetLog(e: Engine, c: Command, notes: seq<Byte>, durations: seq<Byte>)
    requires e.initialized && e.lockDepth == 0 && e.wire.faults == []
    requires PresetSong(c, notes, durations)
    ensures Exec(e, c) == (Done, e.(wire := e.wire.(log := e.wire.log + [CmdSong] + SongPayload(0, notes, durations) + [CmdPlay, 0])))
  {
    PresetSongLength(c, notes, durations);
    PresetPlaysAfterUpload(e, c, notes, durations);
    UploadThenPlay(e, notes, durations);
  }

  /** A valid upload whose opcode write fails is a CommandError that writes nothing. */
  lemma UploadRejected(e: Engine, slot: Byte, notes: seq<Byte>, durations: seq<Byte>)
    requires e.initialized && e.lockDepth == 0 && !CallOk(e.wire)
    requires ValidSong(slot, notes, durations)
    ensures Exec(e, Song(slot, notes, durations)) == (Failed(CommandError), e.(wire := Consume(e.wire)))
  {
    SingleWrite(e, Song(slot, notes, durations), Frame(140, SongPayload(slot, notes, durations)));
  }

  /** A valid upload whose two writes succeed appends the Song command. */
  lemma UploadAccepted(e: Engine, slot: Byte, notes: seq<Byte>, durations: seq<Byte>)
    requires e.initialized && e.lockDepth == 0 && CallOk(e.wire) && CallOk(Consume(e.wire))
    requires ValidSong(slot, notes, durations)
    ensures Exec(e, Song(slot, notes, durations)) ==
      (Done, e.(wire := Consume(Consume(e.wire)).(log := e.wire.log + [CmdSong] + SongPayload(slot, notes, durations))))
  {
    SingleWrite(e, Song(slot, notes, durations), Frame(140, SongPayload(slot, notes, durations)));
  }

  /** `playDaftPunkSong` uploads slot 0, then slot 1 whatever became of slot 0,
      and plays slot 0 iff the first upload succeeded. */
  lemma DaftPunkSequence(e: Engine, c: Command)
    requires c == PlayDaftPunk
    ensures var (st, e1) := Exec(e, Song(0, DaftPunkNotes1, DaftPunkDurations));
      var e2 := Exec(e1, Song(1, DaftPunkNotes2, DaftPunkDurations)).1;
      Exec(e, c) == if st != Done then (st, e2) else Exec(e2, PlaySong(0))
  {
    SongCommands(e, 0, DaftPunkNotes1, DaftPunkDurations);
    var e1 := Upload(e, 0, DaftPunkNotes1, DaftPunkDurations).1;
    SongCommands(e1, 1, DaftPunkNotes2, DaftPunkDurations);
    var e2 := Upload(e1, 1, DaftPunkNotes2, DaftPunkDurations).1;
    SongCommands(e2, 0, DaftPunkNotes1, DaftPunkDurations);
    DaftPunkCommand(e, c);
  }

  /** `playDaftPunkSong` is `PlayTwoPart`. */
  lemma DaftPunkCommand(e: Engine, c: Command)
    requires c == PlayDaftPunk
    ensures Exec(e, c) == PlayTwoPart(e)
  {
  }

  /** When the link rejects the upload to slot 0, slot 1 is still uploaded and
      the CommandError of slot 0 is returned. */
  lemma DaftPunkAfterRejectedUpload(e: Engine)
    requires e.initialized && e.lockDepth == 0 && e.wire.faults == [true]
    ensures Exec(e, PlayDaftPunk) ==
      (Failed(CommandError), e.(wire := e.wire.(faults := [], log := e.wire.log + [CmdSong] + SongPayload(1, DaftPunkNotes2, DaftPunkDurations))))
  {
    DaftPunkSequence(e, PlayDaftPunk);
    UploadRejected(e, 0, DaftPunkNotes1, DaftPunkDurations);
    var e1 := e.(wire := e.wire.(faults := []));
    assert Exec(e, Song(0, DaftPunkNotes1, DaftPunkDurations)) == (Failed(CommandError), e1);
    UploadOnWorkingLink(e1, 1, DaftPunkNotes2, DaftPunkDurations);
  }

  /** When the link rejects the upload to slot 1, slot 0 is played anyway. */
  lemma DaftPunkIgnoresSecondUpload(e: Engine)
    requires e.initialized && e.lockDepth == 0 && e.wire.faults == [false, false, true]
    ensures Exec(e, PlayDaftPunk) ==
      (Done, e.(wire := e.wire.(faults := [], log := e.wire.log + [CmdSong] + SongPayload(0, DaftPunkNotes1, DaftPunkDurations) + [CmdPlay, 0])))
  {
    var p0 := SongPayload(0, DaftPunkNotes1, DaftPunkDurations);
    DaftPunkSequence(e, PlayDaftPunk);
    UploadAccepted(e, 0, DaftPunkNotes1, DaftPunkDurations);
    var e1 := e.(wire := e.wire.(faults := [true], log := e.wire.log + [CmdSong] + p0));
    assert Consume(Consume(e.wire)).(log := e.wire.log + [CmdSong] + p0) == e1.wire;
    UploadRejected(e1, 1, DaftPunkNotes2, DaftPunkDurations);
    var e2 := e1.(wire := e1.wire.(faults := []));
    assert Exec(e1, Song(1, DaftPunkNotes2, DaftPunkDurations)).1 == e2;
    PlayOnWorkingLink(e2, 0);
    assert e2.wire.log + [CmdPlay, 0] == e.wire.log + [CmdSong] + p0 + [CmdPlay, 0];
  }

  /** `playInTheEnd` hands 16-element spans over its 9-element arrays to
      `song`, so the upload carries the 7 bytes behind each array. */
  lemma InTheEndUploadsOverrun(e: Engine, notesBeyond: Overrun, durationsBeyond: Overrun)
    requires e.initialized && e.lockDepth == 0 && e.wire.faults == []
    ensures var p := SongPayload(0, InTheEndSpanOver(InTheEndNotes, notesBeyond), InTheEndSpanOver(InTheEndDurations, durationsBeyond));
      p[1] == 16 &&
      (forall i :: 9 <= i < 16 ==> p[2 + 2 * i] == notesBeyond[i - 9] && p[3 + 2 * i] == durationsBeyond[i - 9]) &&
      Exec(e, PlayInTheEnd(notesBeyond, durationsBeyond)).1.wire.log == e.wire.log + [CmdSong] + p + [CmdPlay, 0]
  {
    var c := PlayInTheEnd(notesBeyond, durationsBeyond);
    PresetLog(e, c, InTheEndSpanOver(InTheEndNotes, notesBeyond), InTheEndSpanOver(InTheEndDurations, durationsBeyond));
  }

  // ----- Queries that return data -----

  /** `readSensor<N>(id)` */
  function SensorRead(e: Engine, id: Byte, n: nat): (r: (Result<seq<Byte>>, Engine))
    ensures r.1 == e.(wire := r.1.wire, relocked := r.1.relocked)
  {
    if !e.initialized then (Err(InitializationError), e)
    else
      var e1 := Acquire(e);
      var (ok, w1) := SensorRequest(e1.wire, id);
      if !ok then (Err(CommandError), Release(e1.(wire := w1)))
      else
        var (res, w2) := Poll(w1, n, SensorReadAttempts);
        (res, Release(e1.(wire := w2)))
  }

  /** The sensor query: the request on the wire, then exactly the first N
      queued bytes, or CommandError / SensorError; the mode never changes. */
  lemma SensorReadOutcome(e: Engine, id: Byte, n: nat)
    requires e.initialized
    ensures var (r, e') := SensorRead(e, id, n);
      var (ok, w1) := SensorRequest(e.wire, id);
      e'.mode == e.mode &&
      (!ok ==> r == Err(CommandError) && e'.wire.rx == e.wire.rx) &&
      (ok ==> (e'.wire.log == e.wire.log + [CmdSensors, id] &&
        (r.Ok? <==> LeadingFailures(w1.faults) < SensorReadAttempts && n <= |e.wire.rx|) &&
        (r.Ok? ==> r.value == e.wire.rx[..n] && |r.value| == n) &&
        (!r.Ok? ==> r == Err(SensorError))))
  {
    SensorRequestWire(e.wire, id);
    var (ok, w1) := SensorRequest(e.wire, id);
    if ok {
      PollOutcome(w1, n, SensorReadAttempts);
    }
  }

  /** `dumpAllSensors`: reads group 100; passes a read error through
      unchanged and otherwise succeeds whatever the walk finds. Only the
      wire and the relock mark change. */
  function DumpAllSensors(e: Engine): (r: (Status, Engine))
    ensures r.1 == e.(wire := r.1.wire, relocked := r.1.relocked)
    ensures !e.initialized ==> r == (Failed(InitializationError), e)
  {
    var (raw, e') := SensorRead(e, AllSensorsGroup, AllSensorsSize);
    if raw.Err? then (Failed(raw.error), e') else (Done, e')
  }

  /** On an initialised driver, `dumpAllSensors` succeeds exactly when the
      [142, 100] query goes out and one of the 3 length queries finds the 80
      bytes queued; a failed query is CommandError that leaves the input
      alone, and a failed poll is SensorError after the whole query. */
  lemma DumpAllSensorsOutcome(e: Engine)
    requires e.initialized
    ensures var (st, e') := DumpAllSensors(e);
      var (ok, w1) := SensorRequest(e.wire, AllSensorsGroup);
      (st == Done <==> ok && LeadingFailures(w1.faults) < SensorReadAttempts && AllSensorsSize <= |e.wire.rx|) &&
      (!ok ==> st == Failed(CommandError) && e'.wire.rx == e.wire.rx) &&
      (ok ==> e'.wire.log == e.wire.log + [CmdSensors, AllSensorsGroup]) &&
      (ok && st != Done ==> st == Failed(SensorError))
  {
    SensorReadOutcome(e, AllSensorsGroup, AllSensorsSize);
  }

  /** `readStream` */
  function StreamRead(e: Engine): (r: (Result<seq<Byte>>, Engine))
    ensures r.1.mode == e.mode && r.1.initialized == e.initialized && r.1.wire.log == e.wire.log
    ensures r.0.Ok? ==> ValidFrame(r.0.value)
  {
    if !e.initialized then (Err(InitializationError), e)
    else
      var (frame, rest) := ReadFrame(e.wire.rx);
      ReadFrameSound(e.wire.rx);
      (frame, Release(Acquire(e).(wire := e.wire.(rx := rest))))
  }

  // ----- The stream task's bookkeeping -----

  /** `stream_task_handle_ != nullptr`, `stream_task_running_`, and whether
      `stream_callback_` holds a callable. */
  datatype TaskState = TaskState(active: bool, running: bool, callback: bool)

  const NoTask := TaskState(false, false, false)

  /** Polls of 100 ms `stopStreamTask` waits for the task to exit. */
  const StopTaskPolls: nat := 10

  /** `startStreamTask`: refuses a second task; a failed task creation clears
      the flag and the callback again. */
  function StartTask(t: TaskState, initialized: bool, createOk: bool): (r: (Status, TaskState))
  {
    if !initialized then (Failed(InitializationError), t)
    else if t.active then (Failed(InvalidParameter), t)
    else if !createOk then (Failed(InitializationError), t.(running := false, callback := false))
    else (Done, TaskState(true, true, true))
  }

  /** `stopStreamTask` when the task exits on its own after `exitsAfter`
      polls: the polls waited, whether the task had to be deleted, and
      whether the pause frame is sent (only when there was a task). */
  function StopTask(t: TaskState, exitsAfter: nat): (r: (TaskState, nat, bool, bool))
  {
    if !t.active then (t, 0, false, false)
    else
      var waited := if exitsAfter < StopTaskPolls then exitsAfter else StopTaskPolls;
      (t.(active := false, running := false, callback := false), waited, exitsAfter > StopTaskPolls, true)
  }

  /** A started task cannot be started again until it is stopped. */
  lemma StartTaskExclusive(t: TaskState, createOk: bool, again: bool)
    requires StartTask(t, true, createOk).0 == Done
    ensures var t1 := StartTask(t, true, createOk).1;
      t1.active && t1.running && t1.callback && StartTask(t1, true, again) == (Failed(InvalidParameter), t1)
  {
  }

  /** Starting a task either succeeds with the flag and callback set, or
      leaves no task, no flag and no callback behind when creation fails. */
  lemma StartTaskOutcome(t: TaskState, createOk: bool)
    requires !t.active
    ensures var (st, t') := StartTask(t, true, createOk);
      (st == Done <==> createOk) && (st == Done ==> t' == TaskState(true, true, true)) &&
      (st != Done ==> st == Failed(InitializationError) && !t'.active && !t'.running && !t'.callback)
  {
  }

  /** Stopping always ends with no task, no flag and no callback; it waits at
      most 10 polls, deletes the task exactly when it has not exited by then,
      and sends the pause frame exactly when a task existed. */
  lemma StopTaskOutcome(t: TaskState, exitsAfter: nat)
    ensures var (t', waited, forced, pause) := StopTask(t, exitsAfter);
      !t'.active && (pause <==> t.active) && waited <= StopTaskPolls &&
      (forced <==> t.active && exitsAfter > StopTaskPolls) &&
      (t.active ==> t' == NoTask) && (!t.active ==> t' == t)
  {
  }

  /** After a successful start, a stop returns the bookkeeping to its initial state. */
  lemma StartThenStop(createOk: bool, exitsAfter: nat)
    ensures var (st, t1) := StartTask(NoTask, true, createOk);
      StopTask(t1, exitsAfter).0 == NoTask && (StopTask(t1, exitsAfter).3 <==> st == Done)
  {
  }
}
