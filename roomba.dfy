/** The chassis driver as an object: its fields are those of the C++ class,
    the UART is a `Uart.Link`, and every public operation is proved to
    have exactly the effect `EngineSpec.Exec` gives it. */
module Driver {
  import opened Bytes
  import opened Protocol
  import opened Uart
  import opened Movement
  import opened Cleaning
  import opened Io
  import opened Sensors
  import opened Streaming
  import S = EngineSpec

  class Roomba {
    var initialized: bool
    var mode: Mode
    var link: Link
    /** How often `uart_mutex_` is held, and whether it was ever taken while held. */
    var lockDepth: nat
    var relocked: bool
    /** `stream_task_handle_ != nullptr` */
    var taskActive: bool
    /** `stream_task_running_` */
    var taskRunning: bool
    /** `stream_callback_` holds a callable */
    var callbackSet: bool

    function Abstract(): S.Engine
      reads this, link
    {
      S.Engine(initialized, mode, link.State(), lockDepth, relocked)
    }

    function Task(): S.TaskState
      reads this
    {
      S.TaskState(taskActive, taskRunning, callbackSet)
    }

    /** The link object and the stream bookkeeping are left alone. */
    twostate predicate Kept()
      reads this
    {
      link == old(link) && Task() == old(Task())
    }

    /** `Roomba(cfg)`: the member defaults, then `init()`, whose driver
        installation succeeds or not. */
    constructor (uart: Link, initOk: bool)
      ensures Abstract() == S.Default(old(uart.State())).(initialized := initOk)
      ensures link == uart && Task() == S.NoTask
    {
      initialized := initOk;
      mode := Off;
      link := uart;
      lockDepth := 0;
      relocked := false;
      taskActive, taskRunning, callbackSet := false, false, false;
    }

    /** The move constructor: takes the other's mutex, copies its
        configuration (the same UART), state and mode, and leaves it
        uninitialised and Off. The stream task stays with neither. */
    constructor Moved(other: Roomba)
      modifies other
      ensures initialized == old(other.initialized) && mode == old(other.mode) && link == old(other.link)
      ensures lockDepth == 0 && !relocked && Task() == S.NoTask
      ensures !other.initialized && other.mode == Off
      ensures other.relocked == (old(other.relocked) || old(other.lockDepth) > 0)
      ensures other.link == old(other.link) && other.lockDepth == old(other.lockDepth) && other.Task() == old(other.Task())
    {
      other.relocked := other.relocked || other.lockDepth > 0;
      initialized := other.initialized;
      mode := other.mode;
      link := other.link;
      lockDepth := 0;
      relocked := false;
      taskActive, taskRunning, callbackSet := false, false, false;
      other.initialized := false;
      other.mode := Off;
    }

    method Lock()
      modifies this
      ensures Abstract() == S.Acquire(old(Abstract())) && Kept()
    {
      relocked := relocked || lockDepth > 0;
      lockDepth := lockDepth + 1;
    }

    method Unlock()
      requires lockDepth > 0
      modifies this
      ensures Abstract() == S.Release(old(Abstract())) && Kept()
    {
      lockDepth := lockDepth - 1;
    }

    /** Both `sendCommand` overloads: the opcode, then the payload if any. */
    method SendCommand(cmd: Byte, data: seq<Byte>) returns (r: Status)
      modifies link
      ensures (r, link.State()) == Send(old(link.State()), cmd, data)
    {
      var ok := link.Write([cmd]);
      if !ok {
        return Failed(CommandError);
      }
      if data != [] {
        ok := link.Write(data);
        if !ok {
          return Failed(CommandError);
        }
      }
      r := Done;
    }

    /** `sendCommand` under a `std::lock_guard`. */
    method LockedSend(cmd: Byte, data: seq<Byte>) returns (r: Status)
      modifies this, link
      ensures (r, Abstract()) == S.Locked(old(Abstract()), cmd, data) && Kept()
    {
      Lock();
      r := SendCommand(cmd, data);
      Unlock();
    }

    method Wake() returns (r: Status)
      modifies this, link
      ensures (r, Abstract()) == S.Exec(old(Abstract()), S.Wake) && Kept()
    {
      if !initialized {
        return Failed(InitializationError);
      }
      Lock();
      Unlock();
      r := Done;
    }

    method Start() returns (r: Status)
      modifies this, link
      ensures (r, Abstract()) == S.Exec(old(Abstract()), S.Start) && Kept()
    {
      if !initialized {
        return Failed(InitializationError);
      }
      r := LockedSend(CmdStart, []);
      if r == Done {
        mode := Passive;
      }
    }

    method Reset() returns (r: Status)
      modifies this, link
      ensures (r, Abstract()) == S.Exec(old(Abstract()), S.Reset) && Kept()
    {
      if !initialized {
        return Failed(InitializationError);
      }
      r := LockedSend(CmdReset, []);
      if r != Done {
        return;
      }
      mode := Off;
      r := Start();
    }

    method Stop() returns (r: Status)
      modifies this, link
      ensures (r, Abstract()) == S.Halt(old(Abstract())) && Kept()
    {
      if !initialized {
        return Failed(InitializationError);
      }
      Lock();
      var _ := DriveStop();
      r := SendCommand(CmdStop, []);
      if r == Done {
        mode := Off;
      }
      Unlock();
    }

    method Power() returns (r: Status)
      modifies this, link
      ensures (r, Abstract()) == S.Exec(old(Abstract()), S.Power) && Kept()
    {
      if !initialized {
        return Failed(InitializationError);
      }
      r := LockedSend(CmdPower, []);
      if r == Done {
        mode := Passive;
      }
    }

    method SetSafeMode() returns (r: Status)
      modifies this, link
      ensures (r, Abstract()) == S.Exec(old(Abstract()), S.SafeMode) && Kept()
    {
      if !initialized {
        return Failed(InitializationError);
      }
      if mode == Off {
        return Failed(InvalidParameter);
      }
      r := LockedSend(CmdSafe, []);
      if r == Done {
        mode := Safe;
      }
    }

    method SetFullMode() returns (r: Status)
      modifies this, link
      ensures (r, Abstract()) == S.Exec(old(Abstract()), S.FullMode) && Kept()
    {
      if !initialized {
        return Failed(InitializationError);
      }
      if mode == Off {
        return Failed(InvalidParameter);
      }
      r := LockedSend(CmdFull, []);
      if r == Done {
        mode := Full;
      }
    }

    /** `getMode` has no initialisation check. */
    method GetMode() returns (r: Result<Mode>)
      ensures r == Ok(mode)
    {
      r := Ok(mode);
    }

    function IsInitialized(): bool
      reads this
    {
      initialized
    }

    method Drive(velocity: Int16, radius: Int16) returns (r: Status)
      modifies this, link
      ensures (r, Abstract()) == S.Motion(old(Abstract()), CmdDrive, DrivePayload(velocity, radius)) && Kept()
    {
      if !initialized {
        return Failed(InitializationError);
      }
      if mode == Off || mode == Passive {
        return Failed(InvalidParameter);
      }
      var data := BuildDrive(velocity, radius);
      r := LockedSend(CmdDrive, data);
    }

    method DriveDirect(rightVelocity: Int16, leftVelocity: Int16) returns (r: Status)
      modifies this, link
      ensures (r, Abstract()) == S.Motion(old(Abstract()), CmdDriveDirect, DriveDirectPayload(rightVelocity, leftVelocity)) && Kept()
    {
      if !initialized {
        return Failed(InitializationError);
      }
      if mode == Off || mode == Passive {
        return Failed(InvalidParameter);
      }
      var data := BuildDriveDirect(rightVelocity, leftVelocity);
      r := LockedSend(CmdDriveDirect, data);
    }

    method DriveStop() returns (r: Status)
      modifies this, link
      ensures (r, Abstract()) == S.Motion(old(Abstract()), CmdDrive, DrivePayload(0, 0)) && Kept()
    {
      r := Drive(0, 0);
    }

    method DrivePwm(rightPwm: Int16, leftPwm: Int16) returns (r: Status)
      modifies this, link
      ensures (r, Abstract()) == S.Motion(old(Abstract()), CmdDrivePwm, DrivePwmPayload(rightPwm, leftPwm)) && Kept()
    {
      if !initialized {
        return Failed(InitializationError);
      }
      if mode == Off || mode == Passive {
        return Failed(InvalidParameter);
      }
      var data := BuildDrivePwm(rightPwm, leftPwm);
      r := LockedSend(CmdDrivePwm, data);
    }

    method Clean() returns (r: Status)
      modifies this, link
      ensures (r, Abstract()) == S.Exec(old(Abstract()), S.Clean) && Kept()
    {
      if !initialized {
        return Failed(InitializationError);
      }
      r := LockedSend(CmdClean, []);
    }

    method Spot() returns (r: Status)
      modifies this, link
      ensures (r, Abstract()) == S.Exec(old(Abstract()), S.Spot) && Kept()
    {
      if !initialized {
        return Failed(InitializationError);
      }
      r := LockedSend(CmdSpot, []);
    }

    method Dock() returns (r: Status)
      modifies this, link
      ensures (r, Abstract()) == S.Exec(old(Abstract()), S.Dock) && Kept()
    {
      if !initialized {
        return Failed(InitializationError);
      }
      r := LockedSend(CmdDock, []);
    }

    method SetMotors(mainBrush: Byte, sideBrush: Byte, vacuum: Byte) returns (r: Status)
      modifies this, link
      ensures (r, Abstract()) == S.Motion(old(Abstract()), CmdMotors, [MotorMask(mainBrush, sideBrush, vacuum)]) && Kept()
    {
      if !initialized {
        return Failed(InitializationError);
      }
      if mode == Off || mode == Passive {
        return Failed(InvalidParameter);
      }
      r := LockedSend(CmdMotors, [MotorMask(mainBrush, sideBrush, vacuum)]);
    }

    method SetLeds(leds: Byte, powerColor: Byte, powerIntensity: Byte) returns (r: Status)
      modifies this, link
      ensures (r, Abstract()) == S.Exec(old(Abstract()), S.SetLeds(leds, powerColor, powerIntensity)) && Kept()
    {
      if !initialized {
        return Failed(InitializationError);
      }
      r := LockedSend(CmdLeds, [leds, powerColor, powerIntensity]);
    }

    method Song(songNumber: Byte, notes: seq<Byte>, durations: seq<Byte>) returns (r: Status)
      modifies this, link
      ensures (r, Abstract()) == S.Exec(old(Abstract()), S.Song(songNumber, notes, durations)) && Kept()
    {
      if !initialized {
        return Failed(InitializationError);
      }
      if songNumber > MaxSongSlot || |notes| != |durations| || |notes| > MaxSongNotes {
        return Failed(InvalidParameter);
      }
      var data := BuildSongPayload(songNumber, notes, durations);
      r := LockedSend(CmdSong, data);
    }

    method PlaySong(songNumber: Byte) returns (r: Status)
      modifies this, link
      ensures (r, Abstract()) == S.Exec(old(Abstract()), S.PlaySong(songNumber)) && Kept()
    {
      if !initialized {
        return Failed(InitializationError);
      }
      if songNumber > MaxSongSlot {
        return Failed(InvalidParameter);
      }
      r := LockedSend(CmdPlay, [songNumber]);
    }

    /** Upload to slot 0, then play slot 0 if the upload succeeded. */
    method UploadAndPlay(ghost c: S.Command, notes: seq<Byte>, durations: seq<Byte>) returns (r: Status)
      requires S.PresetSong(c, notes, durations)
      modifies this, link
      ensures (r, Abstract()) == S.Exec(old(Abstract()), c) && Kept()
    {
      if !initialized {
        return Failed(InitializationError);
      }
      S.PresetPlaysAfterUpload(Abstract(), c, notes, durations);
      r := Song(0, notes, durations);
      if r != Done {
        return;
      }
      r := PlaySong(0);
    }

    method PlayCrowdPleaser() returns (r: Status)
      modifies this, link
      ensures (r, Abstract()) == S.Exec(old(Abstract()), S.PlayCrowdPleaser) && Kept()
    {
      r := UploadAndPlay(S.PlayCrowdPleaser, CrowdPleaserNotes, CrowdPleaserDurations);
    }

    method PlayCrowdPleaser2() returns (r: Status)
      modifies this, link
      ensures (r, Abstract()) == S.Exec(old(Abstract()), S.PlayCrowdPleaser2) && Kept()
    {
      r := UploadAndPlay(S.PlayCrowdPleaser2, CrowdPleaser2Notes, CrowdPleaserDurations);
    }

    /** `playInTheEnd`: the spans cover the 7 bytes behind each array, which
        are the caller's to choose here. */
    method PlayInTheEnd(notesBeyond: Overrun, durationsBeyond: Overrun) returns (r: Status)
      modifies this, link
      ensures (r, Abstract()) == S.Exec(old(Abstract()), S.PlayInTheEnd(notesBeyond, durationsBeyond)) && Kept()
    {
      var notes := InTheEndSpanOver(InTheEndNotes, notesBeyond);
      var durations := InTheEndSpanOver(InTheEndDurations, durationsBeyond);
      r := UploadAndPlay(S.PlayInTheEnd(notesBeyond, durationsBeyond), notes, durations);
    }

    /** `playDaftPunkSong`: both uploads come before the first result is looked at. */
    method PlayDaftPunk() returns (r: Status)
      modifies this, link
      ensures (r, Abstract()) == S.Exec(old(Abstract()), S.PlayDaftPunk) && Kept()
    {
      if !initialized {
        return Failed(InitializationError);
      }
      S.DaftPunkSequence(Abstract(), S.PlayDaftPunk);
      r := Song(0, DaftPunkNotes1, DaftPunkDurations);
      var _ := Song(1, DaftPunkNotes2, DaftPunkDurations);
      if r != Done {
        return;
      }
      r := PlaySong(0);
    }

    method WriteToDisplay(text: seq<Byte>) returns (r: Status)
      modifies this, link
      ensures (r, Abstract()) == S.Motion(old(Abstract()), CmdDigits, DisplayPayload(text)) && Kept()
    {
      if !initialized {
        return Failed(InitializationError);
      }
      if mode == Off || mode == Passive {
        return Failed(InvalidParameter);
      }
      var display := BuildDisplay(text);
      r := LockedSend(CmdDigits, display);
    }

    method StartStreaming(packets: seq<SensorPacket>) returns (r: Status)
      modifies this, link
      ensures (r, Abstract()) == S.Exec(old(Abstract()), S.StartStreaming(packets)) && Kept()
    {
      if !initialized {
        return Failed(InitializationError);
      }
      Lock();
      var data := BuildStreamRequest(packets);
      r := SendCommand(CmdStreamSensors, data);
      Unlock();
    }

    method StopStreaming() returns (r: Status)
      modifies this, link
      ensures (r, Abstract()) == S.Exec(old(Abstract()), S.StopStreaming) && Kept()
    {
      if !initialized {
        return Failed(InitializationError);
      }
      r := LockedSend(CmdPauseResumeStream, PausePayload);
    }

    /** `readSensor<N>(id)` */
    method ReadSensor(id: Byte, n: nat) returns (r: Result<seq<Byte>>)
      modifies this, link
      ensures (r, Abstract()) == S.SensorRead(old(Abstract()), id, n) && Kept()
      ensures r.Ok? ==> |r.value| == n
    {
      if !initialized {
        return Err(InitializationError);
      }
      Lock();
      var ok := Request(link, id);
      if !ok {
        Unlock();
        return Err(CommandError);
      }
      PollOutcome(link.State(), n, SensorReadAttempts);
      r := PollLink(link, n, SensorReadAttempts);
      Unlock();
    }

    /** `dumpAllSensors`: the fields it logs, and whether it logs the
        "parsing mismatch" warning (it always does: the walk ends at 81). */
    method DumpAllSensors() returns (r: Status, fields: seq<Field>, mismatch: bool)
      modifies this, link
      ensures (r, Abstract()) == S.DumpAllSensors(old(Abstract())) && Kept()
      ensures r == Done ==> mismatch && |fields| == |RecordLayout| && fields[51] == OutsideRecord(80)
      ensures r == Done ==> fields == Walk(S.SensorRead(old(Abstract()), AllSensorsGroup, AllSensorsSize).0.value, RecordLayout)
    {
      fields, mismatch := [], false;
      var raw := ReadSensor(AllSensorsGroup, AllSensorsSize);
      if raw.Err? {
        return Failed(raw.error), fields, mismatch;
      }
      fields, mismatch := ParseAllSensors(raw.value);
      r := Done;
    }

    method ReadStream() returns (r: Result<seq<Byte>>)
      modifies this, link
      ensures (r, Abstract()) == S.StreamRead(old(Abstract())) && Kept()
    {
      if !initialized {
        return Err(InitializationError);
      }
      Lock();
      r := ReadFrameFrom(link);
      Unlock();
    }

    method StartStreamTask(createOk: bool) returns (r: Status)
      modifies this
      ensures (r, Task()) == S.StartTask(old(Task()), old(initialized), createOk)
      ensures Abstract() == old(Abstract()) && link == old(link)
    {
      if !initialized {
        return Failed(InitializationError);
      }
      if taskActive {
        return Failed(InvalidParameter);
      }
      callbackSet := true;
      taskRunning := true;
      if !createOk {
        taskRunning := false;
        callbackSet := false;
        return Failed(InitializationError);
      }
      taskActive := true;
      r := Done;
    }

    /** `stopStreamTask` when the task performs its own cleanup after
        `exitsAfter` of the 100 ms polls: `waited` counts the polls,
        `forced` says whether the task was deleted. */
    method StopStreamTask(exitsAfter: nat) returns (r: Status, waited: nat, forced: bool)
      modifies this, link
      ensures var (t, w, f, pause) := S.StopTask(old(Task()), exitsAfter);
        Task() == t && waited == w && forced == f && link == old(link) &&
        (pause ==> (r, Abstract()) == S.Exec(old(Abstract()), S.StopStreaming)) &&
        (!pause ==> r == Done && Abstract() == old(Abstract()))
    {
      waited, forced := 0, false;
      if !taskActive {
        return Done, waited, forced;
      }
      taskRunning := false;
      if exitsAfter == 0 {
        taskActive := false;
      }
      var i := 0;
      while i < S.StopTaskPolls
        invariant i <= S.StopTaskPolls && i <= exitsAfter && waited == i
        invariant taskActive == (i < exitsAfter)
        invariant !taskRunning && callbackSet == old(callbackSet)
        invariant link == old(link) && Abstract() == old(Abstract())
      {
        if !taskActive {
          break;
        }
        // the 100 ms delay, during which the task may run its cleanup
        waited := waited + 1;
        if i + 1 >= exitsAfter {
          taskActive := false;
        }
        i := i + 1;
      }
      forced := taskActive;
      taskActive := false;
      callbackSet := false;
      r := StopStreaming();
    }

    /** One pass of `streamTaskFunction`: once the flag is cleared the task
        clears its handle and ends; otherwise it reads one frame and hands
        it, stamped in milliseconds, to the callback if there is one. */
    method StreamTaskStep(nowUs: nat) returns (delivered: Option<StreamPacket>)
      modifies this, link
      ensures link == old(link)
      ensures !old(taskRunning) ==> delivered == None && Abstract() == old(Abstract()) && Task() == old(Task()).(active := false)
      ensures old(taskRunning) ==> (Task() == old(Task()) &&
        var (frame, e') := S.StreamRead(old(Abstract()));
        Abstract() == e' &&
        delivered == (if frame.Ok? && callbackSet then Some(StreamPacket(frame.value, TimestampMs(nowUs))) else None))
      ensures delivered.Some? ==> ValidFrame(delivered.value.data)
    {
      if !taskRunning {
        taskActive := false;
        return None;
      }
      var frame := ReadStream();
      if frame.Ok? && callbackSet {
        delivered := Some(StreamPacket(frame.value, TimestampMs(nowUs)));
      } else {
        delivered := None;
      }
    }

    /** The part of move assignment done under both mutexes: an initialised
        target stops its chassis, whose `stop` takes the target's mutex a
        second time. */
    method StopForMove(other: Roomba)
      requires other != this
      modifies this, link, other
      ensures old(initialized) ==> Abstract() == S.Release(S.Halt(S.Acquire(old(Abstract()))).1)
      ensures !old(initialized) ==> Abstract() == S.Release(S.Acquire(old(Abstract())))
      ensures Kept()
      ensures other.initialized == old(other.initialized) && other.mode == old(other.mode)
      ensures other.link == old(other.link) && other.lockDepth == old(other.lockDepth)
      ensures other.relocked == (old(other.relocked) || old(other.lockDepth) > 0) && other.Task() == old(other.Task())
    {
      Lock();
      other.Lock();
      if initialized {
        var _ := Stop();
      }
      other.Unlock();
      Unlock();
    }

    /** Move assignment: with both mutexes held, an initialised target stops
        its chassis (the `stop` command, not the stream task), then takes
        over the other's UART, state and mode; the other is left
        uninitialised and Off. Neither side's stream bookkeeping changes. */
    method MoveAssign(other: Roomba)
      modifies this, link, other
      ensures other == this ==> Abstract() == old(Abstract()) && Kept()
      ensures other != this ==>
        initialized == old(other.initialized) && mode == old(other.mode) && link == old(other.link) &&
        !other.initialized && other.mode == Off &&
        lockDepth == old(lockDepth) && other.lockDepth == old(other.lockDepth) &&
        (old(initialized) ==> relocked && old(link).State() == S.Halt(S.Acquire(old(Abstract()))).1.wire) &&
        (!old(initialized) ==> relocked == (old(relocked) || old(lockDepth) > 0) && old(link).State() == old(link.State())) &&
        other.relocked == (old(other.relocked) || old(other.lockDepth) > 0) &&
        Task() == old(Task()) && other.Task() == old(other.Task())
    {
      if other == this {
        return;
      }
      StopForMove(other);
      initialized := other.initialized;
      mode := other.mode;
      link := other.link;
      other.initialized := false;
      other.mode := Off;
    }
  }
}
