# Roomba chassis, actuation and camera core — a Dafny model

This project models the core of a robot built from three parts:
- an iRobot Create 2 (Roomba) chassis;
- an ESP32-S3 board that drives three extra H-bridge motors and streams camera frames;
- an iOS client that sends motor commands and decodes sensor frames.

Four parts are modelled; all of them verify together:

- **The chassis protocol engine** (the C++ `Roomba` class). Each public operation is an opcode plus a payload written to the UART under a mutex. The model covers:
  - the initialisation check and the mode guards;
  - the clamping of drive values and their big-endian packing;
  - the song upload and play, the four preset songs, and the 4-character display;
  - the sensor query with its bounded retry loop, and the 80-byte composite record walk;
  - the stream frame reader with its header scan and checksum, and the stream task bookkeeping.

  It has two layers. `EngineSpec` describes the engine as a pure function `Exec(engine, command)`. `Driver.Roomba` is a class with the same fields as the C++ class; each of its methods is proved to produce exactly the status and state of its case of `Exec`. The cases are named functions of their own (`Motion` for the drive-style commands, `Halt` for `stop`, `Upload` and `Play` for the song commands, `PlayPreset` and `PlayTwoPart` for the presets), and the methods for those operations are proved against them. The UART is the class `Uart.Link`. It holds the bytes written (`log`), the input queue (`rx`) and a script of driver-call outcomes (`faults`), so error paths can be stated.

- **The actuation slot with its watchdog** (`motor_command.*`, `motor.cpp`). A writer overwrites a shared command slot with four signed speed bytes. Each write is stamped with an atomic sequence counter and the time. Each pass of the control task takes a snapshot and stops all motors once it is older than 400 ms. Otherwise it drives motors 1-3 only when the sequence number is newer than the last one applied. Scaling maps -100..100 to -1023..1023 with C's truncating division.

- **The camera frame exchange** (`camera.cpp`). A capture is screened in this order: present, non-empty, JPEG start-of-image marker FF D8 (ITU-T T.81, Annex B), at most 128 KiB, mutex taken. It is then copied into a fixed buffer with its length and a timestamp; readers copy the published frame into a second buffer.

- **The client codecs** (Swift):
  - the sensor frame parser, with its guards, checksum, packet walk and bit accessors;
  - the motor speed clamp and its one-byte-per-motor encoding;
  - the bounded FIFO of recent values.

Module `Interop` connects the two sides of the wire. Every stream frame the firmware accepts passes the client's checks. The client's speed bytes arrive in the firmware's slot unchanged.

Known defects of the source are kept as written. Each one is stated by a lemma:
- `stop` takes the UART mutex it already holds (`EngineSpec.StopRelocks`);
- `playInTheEnd` sends 7 bytes beyond each 9-element array (`EngineSpec.InTheEndUploadsOverrun`);
- the 80-byte record walk reads an 81st byte (`Sensors.RecordOverrun`);
- `playDaftPunkSong` ignores the result of its second upload (`EngineSpec.DaftPunkIgnoresSecondUpload`);
- a negative motor speed saturates to full duty backwards (`Actuation.BackwardDutyIsFull`);
- the first motor command after boot is never applied (`Actuation.FirstWriteNeverApplied`);
- the client's checksum covers trailing bytes (`ClientSensorPacket.TrailingByteBreaksChecksum`);
- the client reads past the buffer on a two-byte id at the end (`ClientSensorPacket.VoltageIdAtEndTraps`).

Files: `bytes.dfy`, `protocol.dfy`, `uart.dfy`, `movement.dfy`, `cleaning.dfy`, `io.dfy`, `sensors.dfy`, `streaming.dfy`, `engine_spec.dfy`, `roomba.dfy`, `motor_command.dfy`, `motor.dfy`, `actuation.dfy`, `camera.dfy`, `client_sensor_packet.dfy`, `client_motor_command.dfy`, `bounded_deque.dfy`, `interop.dfy`.

## Model

| member | source | states |
|---|---|---|
| Bytes.Clamp | esp_roomba/components/roomba/roomba_movement.cpp:14 | `std::clamp`: the result lies in [lo, hi], equals x inside the range and the nearer bound outside it |
| Bytes.BigEndian16 | ios/WSCameraESP/WSCameraESP/RoombaSensorPacket.swift:101 | `hi << 8 \| lo`: its high byte is hi and its low byte is lo |
| Bytes.EncodeInt16 | esp_roomba/components/roomba/roomba_movement.cpp:21-25 | a 16-bit value is sent as exactly two bytes |
| Bytes.Int16RoundTrip | esp_roomba/components/roomba/roomba_movement.cpp:21-25 | splitting an `int16_t` into its high and low byte and reading them back as two's complement gives the value back |
| Bytes.Int8RoundTrip | ios/WSCameraESP/WSCameraESP/Networking/MotorCommand.swift:19 | `UInt8(bitPattern:)` followed by `int8_t` reinterpretation gives the signed value back |
| Bytes.AsInt16Bytes | ios/WSCameraESP/WSCameraESP/RoombaSensorPacket.swift:100-120 | `Int16(bitPattern:)` keeps both bytes of the 16-bit value it reinterprets |
| Bytes.AsInt8Byte | ios/WSCameraESP/WSCameraESP/RoombaSensorPacket.swift:79-123 | `Int8(bitPattern:)` keeps the byte it reinterprets |
| Bytes.TruncDiv | esp_roomba/main/motor_command.hpp:22 | C division truncates toward zero: the remainder `a - r*b` lies in [0, b) for a non-negative dividend and in (-b, 0] for a negative one |
| Bytes.SumPrefix | esp_roomba/components/roomba/roomba_streaming.cpp:75-78 | the running byte sum of the checksum loop grows by exactly the next byte |
| Protocol.PacketId | esp_roomba/components/roomba/roomba.hpp:32-80 | every sensor packet id lies in 7..58 |
| Protocol.PacketIdDecodes | esp_roomba/components/roomba/roomba.hpp:32-80 | every sensor packet id decodes back to its packet |
| Protocol.PacketIdInjective | esp_roomba/components/roomba/roomba.hpp:32-80 | no two sensor packets share an id |
| Uart.Consume | esp_roomba/components/roomba/roomba_core.cpp:264-286 | one fallible driver call uses up one scripted outcome and touches neither the written bytes nor the input |
| Uart.WriteBytes | esp_roomba/components/roomba/roomba_core.cpp:266 | `uart_write_bytes` succeeds iff the call is not scripted to fail; on success the bytes are appended to the wire, on failure nothing is |
| Uart.ReadBytes | esp_roomba/components/roomba/roomba_sensors.cpp:45 | a read returns the first min(n, available) queued bytes, and the queue keeps exactly the rest |
| Uart.Send | esp_roomba/components/roomba/roomba_core.cpp:264-286 | `sendCommand` never consumes input and only ever appends to the wire |
| Uart.SendWire | esp_roomba/components/roomba/roomba_core.cpp:264-286 | the opcode write, then the payload write only if there is a payload; Done iff those writes succeed, and then the wire carries opcode and payload; a failure is CommandError with nothing or the opcode alone written |
| Uart.SendOnWorkingLink | esp_roomba/components/roomba/roomba_core.cpp:264-286 | on a link with no failing call, `sendCommand` returns Done and appends exactly `[cmd] + data` |
| Uart.Link.constructor | esp_roomba/components/roomba/roomba_core.cpp:99 | a link starts with nothing written, the given input and the given outcome script |
| Uart.Link.NextCall | esp_roomba/components/roomba/roomba_sensors.cpp:21-23 | one fallible driver call (e.g. `uart_wait_tx_done`): its outcome is the next scripted one |
| Uart.Link.Write | esp_roomba/components/roomba/roomba_core.cpp:266 | the link's new state is `WriteBytes` of the old one |
| Uart.Link.WaitTxDone | esp_roomba/components/roomba/roomba_sensors.cpp:23 | `uart_wait_tx_done` consumes one scripted outcome |
| Uart.Link.BufferedLength | esp_roomba/components/roomba/roomba_sensors.cpp:40 | `uart_get_buffered_data_len` reports the input queue's length, or fails as scripted |
| Uart.Link.Read | esp_roomba/components/roomba/roomba_sensors.cpp:45 | the link's new state is `ReadBytes` of the old one |
| Uart.Link.Flush | esp_roomba/components/roomba/roomba_sensors.cpp:50 | `uart_flush` empties the input queue and changes nothing else |
| Movement.ClampRadius | esp_roomba/components/roomba/roomba_movement.cpp:16-19 | the special radii 32767 and -1 pass through; every other radius inside ±2000 is kept and one outside saturates at the nearer bound |
| Movement.PackPair | esp_roomba/components/roomba/roomba_movement.cpp:21-25 | two 16-bit channels take four bytes |
| Movement.DrivePayload | esp_roomba/components/roomba/roomba_movement.cpp:6-29 | the Drive payload is four bytes |
| Movement.DriveDirectPayload | esp_roomba/components/roomba/roomba_movement.cpp:31-50 | the Drive Direct payload is four bytes |
| Movement.DrivePwmPayload | esp_roomba/components/roomba/roomba_movement.cpp:56-75 | the Drive PWM payload is four bytes |
| Movement.PackPairDecodes | esp_roomba/components/roomba/roomba_movement.cpp:21-25 | two 16-bit values packed high byte first decode back to both values |
| Movement.PackPairBytes | esp_roomba/components/roomba/roomba_movement.cpp:21-25 | the packed pair is high and low byte of the first value, then of the second |
| Movement.DrivePayloadDecodes | esp_roomba/components/roomba/roomba_movement.cpp:6-29 | the drive payload decodes to the velocity clamped to ±500 and the radius as `ClampRadius` leaves it |
| Movement.DriveDirectPayloadDecodes | esp_roomba/components/roomba/roomba_movement.cpp:31-50 | the payload decodes to the right and left wheel velocities, each clamped to ±500 |
| Movement.DrivePwmPayloadDecodes | esp_roomba/components/roomba/roomba_movement.cpp:56-75 | the payload decodes to the right and left PWM values, each clamped to ±255 |
| Movement.BuildDrive | esp_roomba/components/roomba/roomba_movement.cpp:6-29 | the clamps and byte pushes of `drive` build exactly `DrivePayload` |
| Movement.BuildDriveDirect | esp_roomba/components/roomba/roomba_movement.cpp:31-50 | the clamps and byte pushes of `driveDirect` build exactly `DriveDirectPayload` |
| Movement.BuildDrivePwm | esp_roomba/components/roomba/roomba_movement.cpp:56-75 | the clamps and byte pushes of `drivePwm` build exactly `DrivePwmPayload` |
| Movement.DriveClampsVelocity | esp_roomba/components/roomba/roomba_movement.cpp:14 | `drive(600, 0)` sends velocity 500 (0x01F4) |
| Movement.DriveStraightPassesThrough | esp_roomba/components/roomba/roomba_movement.cpp:16-19 | the straight radius 32767 is sent unclamped as 0x7FFF |
| Movement.DriveTurnInPlace | esp_roomba/components/roomba/roomba_movement.cpp:16-25 | the turn-in-place radius -1 is sent unclamped as 0xFFFF, and a negative velocity in two's complement |
| Cleaning.MotorMask | esp_roomba/components/roomba/roomba_cleaning.cpp:35-41 | bit 0x04 is set iff the main brush is on, 0x01 iff the side brush is, 0x02 iff the vacuum is; no other bit is set |
| Io.InterleaveLayout | esp_roomba/components/roomba/roomba_io.cpp:28-31 | the note/duration loop writes note i at position 2i and duration i at 2i + 1 |
| Io.SongPayload | esp_roomba/components/roomba/roomba_io.cpp:24-31 | the song payload is slot, count, then each note followed by its duration |
| Io.BuildSongPayload | esp_roomba/components/roomba/roomba_io.cpp:24-31 | the `push_back` loop builds exactly `SongPayload` |
| Io.Printable | esp_roomba/components/roomba/roomba_io.cpp:199-202 | the result is always printable ASCII, and a printable character is kept |
| Io.LastFour | esp_roomba/components/roomba/roomba_io.cpp:193-196 | at most four characters are kept |
| Io.DisplayPayload | esp_roomba/components/roomba/roomba_io.cpp:191-204 | the display payload is always four printable bytes |
| Io.BuildDisplay | esp_roomba/components/roomba/roomba_io.cpp:191-204 | the copy loop builds exactly `DisplayPayload` |
| Io.DisplayLongText | esp_roomba/components/roomba/roomba_io.cpp:193-204 | printable text of four or more characters shows its last four |
| Io.DisplayShortText | esp_roomba/components/roomba/roomba_io.cpp:191-204 | printable text shorter than four characters is padded with spaces on the right |
| Io.DisplayExamples | esp_roomba/components/roomba/roomba_io.cpp:191-204 | "HELLO" shows "ELLO", "AB" shows "AB  ", and non-printable characters become spaces |
| Io.InTheEndSpanOver | esp_roomba/components/roomba/roomba_io.cpp:134-139 | the 16-element span over a 9-element array is that array followed by the 7 bytes after it |
| Io.InTheEndSpansOverrun | esp_roomba/components/roomba/roomba_io.cpp:126-139 | the notes and durations arrays hold 9 elements while the spans cover more |
| Sensors.SensorRequestWire | esp_roomba/components/roomba/roomba_sensors.cpp:18-33 | a successful query writes exactly [142, id]; a failed one writes a prefix of it; the input is untouched |
| Sensors.SensorRequestSucceeds | esp_roomba/components/roomba/roomba_sensors.cpp:21-33 | when its four driver calls succeed the query succeeds |
| Sensors.PollOutcome | esp_roomba/components/roomba/roomba_sensors.cpp:37-54 | the retry loop returns exactly the first N queued bytes iff they are buffered and some length query among the 3 attempts succeeds; otherwise SensorError; it never writes |
| Sensors.Request | esp_roomba/components/roomba/roomba_sensors.cpp:18-33 | the driver calls of the query have the effect of `SensorRequest` |
| Sensors.PollLink | esp_roomba/components/roomba/roomba_sensors.cpp:37-54 | the attempt loop on the link has the effect of `Poll` |
| Sensors.Width | esp_roomba/components/roomba/roomba_sensors.cpp:63-205 | every record field is one or two bytes |
| Sensors.OffsetsIncrease | esp_roomba/components/roomba/roomba_sensors.cpp:63-205 | the walk's offsets increase strictly along the layout |
| Sensors.ReadField | esp_roomba/components/roomba/roomba_sensors.cpp:63-205 | a field inside the record reads its unsigned, signed, big-endian 16-bit or signed 16-bit value at its offset; one beyond the end is reported as outside the record |
| Sensors.Walk | esp_roomba/components/roomba/roomba_sensors.cpp:63-205 | the walk yields one entry per field of the layout |
| Sensors.WalkFields | esp_roomba/components/roomba/roomba_sensors.cpp:63-205 | the sequential index walk produces `Walk` and ends at the layout's total width |
| Sensors.RecordWidth | esp_roomba/components/roomba/roomba_sensors.cpp:63-205 | the fields `dumpAllSensors` reads take 81 bytes of an 80-byte record |
| Sensors.RecordShape | esp_roomba/components/roomba/roomba_sensors.cpp:113 | the walk makes one read per packet id 7..58 (52 fields), and reads id 32 (`unused32`) as two bytes |
| Sensors.RecordOverrun | esp_roomba/components/roomba/roomba_sensors.cpp:139 | on an 80-byte record the first 51 fields are inside and the last one starts at byte 80, past the end |
| Sensors.ParseAllSensors | esp_roomba/components/roomba/roomba_sensors.cpp:63-205 | on the 80-byte response the walk yields `Walk` of the record layout, 52 fields with the last outside the record, and always reports the length mismatch |
| Streaming.StreamRequest | esp_roomba/components/roomba/roomba_streaming.cpp:17-24 | the stream request is the count (as a byte) followed by each packet's id |
| Streaming.StreamRequestDecodes | esp_roomba/components/roomba/roomba_streaming.cpp:17-24 | fewer than 256 packets: the count is exact and every id decodes back to its packet |
| Streaming.BuildStreamRequest | esp_roomba/components/roomba/roomba_streaming.cpp:17-24 | the `push_back` loop builds exactly `StreamRequest` |
| Streaming.ScanHeaderSpec | esp_roomba/components/roomba/roomba_streaming.cpp:54-58 | the scan fails iff the input has no header byte, and otherwise stops right after the first one |
| Streaming.ScanHeaderSkips | esp_roomba/components/roomba/roomba_streaming.cpp:54-58 | non-header bytes before a header are discarded |
| Streaming.FrameValid | esp_roomba/components/roomba/roomba_streaming.cpp:60-90 | a checksummed body of the announced length makes a valid frame |
| Streaming.ReadFrameSound | esp_roomba/components/roomba/roomba_streaming.cpp:42-93 | every frame `readStream` returns is valid (header 19, length n + 3, byte sum 0 mod 256) and is cut from the input after non-header bytes |
| Streaming.ReadFrameChecksum | esp_roomba/components/roomba/roomba_streaming.cpp:74-90 | a frame after junk is accepted iff its checksum holds, otherwise SensorError; reading resumes right after the frame |
| Streaming.ReadFrameTimeout | esp_roomba/components/roomba/roomba_streaming.cpp:52-57 | input without a header byte is a Timeout that drains the queue |
| Streaming.ReadFrameNoLength | esp_roomba/components/roomba/roomba_streaming.cpp:59-62 | a header with no length byte after it is a Timeout that drains the queue |
| Streaming.ReadFrameShort | esp_roomba/components/roomba/roomba_streaming.cpp:64-72 | a frame with fewer than n + 1 bytes after its length n is a Timeout that drains the queue |
| Streaming.ChecksumMatches | esp_roomba/components/roomba/roomba_streaming.cpp:74-82 | the summing loop decides exactly `ChecksumOk` |
| Streaming.ReadFrameFrom | esp_roomba/components/roomba/roomba_streaming.cpp:42-93 | the byte-by-byte reader on the link returns `ReadFrame` of its input and writes nothing |
| Streaming.StreamExampleAccepted | esp_roomba/components/roomba/roomba_streaming.cpp:42-93 | [19, 3, 10, 20, 30, 174] is accepted whole |
| Streaming.StreamExampleResync | esp_roomba/components/roomba/roomba_streaming.cpp:42-93 | a corrupted frame is rejected and the next good frame remains queued |
| Streaming.CorruptedChecksum | esp_roomba/components/roomba/roomba_streaming.cpp:74-82 | the sample payload with 10 changed to 11 fails the checksum |
| Streaming.TimestampMs | esp_roomba/components/roomba/roomba_streaming.cpp:162 | the callback timestamp is the time in milliseconds while that fits in 32 bits |
| EngineSpec.Default | esp_roomba/components/roomba/roomba_core.cpp:40-42 | a new driver is uninitialised, Off, with the mutex free |
| EngineSpec.Acquire | esp_roomba/components/roomba/roomba_core.cpp:264-286 | taking the mutex deepens the hold by one |
| EngineSpec.Locked | esp_roomba/components/roomba/roomba_core.cpp:264-286 | a locked send changes only the wire, plus the relock mark when the mutex was already held |
| EngineSpec.OnDone | esp_roomba/components/roomba/roomba_core.cpp:160-172 | applying the mode on success keeps the status and changes only the mode |
| EngineSpec.Motion | esp_roomba/components/roomba/roomba_movement.cpp:6-75 | a drive-style operation keeps initialisation, mutex depth and mode, leaves the input alone and only appends to the wire |
| EngineSpec.Halt | esp_roomba/components/roomba/roomba_core.cpp:192-206 | `stop` keeps initialisation and mutex depth, leaves the input alone and only appends to the wire |
| EngineSpec.Upload | esp_roomba/components/roomba/roomba_io.cpp:16-34 | `song` keeps initialisation, mutex depth and mode, leaves the input alone and only appends to the wire |
| EngineSpec.Play | esp_roomba/components/roomba/roomba_io.cpp:36-45 | `playSong` keeps initialisation, mutex depth and mode, leaves the input alone and only appends to the wire |
| EngineSpec.PlayPreset | esp_roomba/components/roomba/roomba_io.cpp:47-148 | a one-song preset keeps initialisation, mutex depth and mode, leaves the input alone and only appends to the wire |
| EngineSpec.PlayTwoPart | esp_roomba/components/roomba/roomba_io.cpp:150-181 | `playDaftPunkSong` keeps initialisation, mutex depth and mode, leaves the input alone and only appends to the wire |
| EngineSpec.Exec | esp_roomba/components/roomba/roomba_core.cpp:145-255 | every operation keeps the initialisation and the mutex depth, never consumes input and only appends to the wire; uninitialised it fails with InitializationError and changes nothing |
| EngineSpec.MotionCommandsSend | esp_roomba/components/roomba/roomba_movement.cpp:6-75 | each drive command fails with InitializationError uninitialised, with InvalidParameter outside Safe and Full, and is otherwise one locked send of its clamped payload; `driveStop` sends four zero bytes |
| EngineSpec.ExecStop | esp_roomba/components/roomba/roomba_core.cpp:192-206 | `stop` is `Halt`, whose drive step is `driveStop` run with the mutex already held |
| EngineSpec.SingleWrite | esp_roomba/components/roomba/roomba_movement.cpp:6-75 | every single-write command either fails its guard with no effect, or returns its one send's status, with the mode of `NextMode` taken only on Done |
| EngineSpec.SingleWriteOnWorkingLink | esp_roomba/components/roomba/roomba_cleaning.cpp:3-44 | on a working link a command that passes its guard appends exactly its opcode and payload and takes its mode edge |
| EngineSpec.ModeChangesAfterWrite | esp_roomba/components/roomba/roomba_core.cpp:160-255 | the mode only changes along start/power→Passive, safe/full (from a mode other than Off), stop→Off and reset→Off/Passive, and only after bytes reached the wire |
| EngineSpec.ResetOutcomes | esp_roomba/components/roomba/roomba_core.cpp:174-190 | a failed reset write changes nothing; a successful one sets Off, and Passive follows only if the inner `start` succeeds |
| EngineSpec.StopRelocks | esp_roomba/components/roomba/roomba_core.cpp:192-206 | `stop` in Safe or Full mode takes the mutex it already holds |
| EngineSpec.StopOutcome | esp_roomba/components/roomba/roomba_core.cpp:192-206 | `stop` reports only the Stop write and ignores `driveStop`'s result; Off follows iff that write succeeds |
| EngineSpec.StopLog | esp_roomba/components/roomba/roomba_core.cpp:192-206 | `stop` in motion on a working link writes the zero drive, then the Stop opcode, and ends Off |
| EngineSpec.DriveStopIsDriveZero | esp_roomba/components/roomba/roomba_movement.cpp:52-54 | `driveStop` behaves as `drive(0, 0)` |
| EngineSpec.DriveExample | esp_roomba/components/roomba/roomba_movement.cpp:6-29 | `drive(600, 0)` in Safe mode writes 137, 0x01, 0xF4, 0, 0 |
| EngineSpec.DisplayExample | esp_roomba/components/roomba/roomba_io.cpp:183-208 | `writeToDisplay("HELLO")` writes 164 and "ELLO" |
| EngineSpec.SongCommands | esp_roomba/components/roomba/roomba_io.cpp:16-45 | `song` is `Upload` and `playSong` is `Play` |
| EngineSpec.PresetPlaysAfterUpload | esp_roomba/components/roomba/roomba_io.cpp:47-148 | each one-song preset plays slot 0 iff its upload succeeded, and otherwise returns the upload's error |
| EngineSpec.PresetCommands | esp_roomba/components/roomba/roomba_io.cpp:47-148 | each one-song preset is `PlayPreset` of its own notes and durations |
| EngineSpec.InTheEndCommand | esp_roomba/components/roomba/roomba_io.cpp:124-148 | `playInTheEnd` is `PlayPreset` of the two 16-element spans |
| EngineSpec.CrowdPleaserCommands | esp_roomba/components/roomba/roomba_io.cpp:47-122 | the two crowd-pleaser presets are `PlayPreset` of their own notes |
| EngineSpec.PresetSongLength | esp_roomba/components/roomba/roomba_io.cpp:47-148 | every preset uploads a full 16-note song |
| EngineSpec.UploadOnWorkingLink | esp_roomba/components/roomba/roomba_io.cpp:16-34 | a valid upload on a working link appends the Song command and its payload |
| EngineSpec.PlayOnWorkingLink | esp_roomba/components/roomba/roomba_io.cpp:36-45 | playing a valid slot on a working link appends [141, slot] |
| EngineSpec.UploadThenPlay | esp_roomba/components/roomba/roomba_io.cpp:16-45 | on a working link an upload to slot 0 followed by play writes both commands in order |
| EngineSpec.PresetLog | esp_roomba/components/roomba/roomba_io.cpp:47-148 | on a working link a preset writes the slot-0 upload then Play 0 |
| EngineSpec.UploadRejected | esp_roomba/components/roomba/roomba_io.cpp:16-34 | an upload whose opcode write fails is a CommandError that writes nothing |
| EngineSpec.UploadAccepted | esp_roomba/components/roomba/roomba_io.cpp:16-34 | an upload whose two writes succeed appends the Song command |
| EngineSpec.DaftPunkSequence | esp_roomba/components/roomba/roomba_io.cpp:150-181 | both uploads happen before the first result is looked at; slot 0 plays iff the first upload succeeded |
| EngineSpec.DaftPunkCommand | esp_roomba/components/roomba/roomba_io.cpp:150-181 | `playDaftPunkSong` is `PlayTwoPart` |
| EngineSpec.DaftPunkAfterRejectedUpload | esp_roomba/components/roomba/roomba_io.cpp:150-181 | a rejected slot-0 upload still lets the slot-1 upload through, and returns slot 0's CommandError |
| EngineSpec.DaftPunkIgnoresSecondUpload | esp_roomba/components/roomba/roomba_io.cpp:167 | when the slot-1 upload fails, slot 0 is still played and Done is returned |
| EngineSpec.InTheEndUploadsOverrun | esp_roomba/components/roomba/roomba_io.cpp:124-148 | the "In the End" upload announces 16 notes, and notes 9-15 are the 7 bytes beyond each array |
| EngineSpec.SensorRead | esp_roomba/components/roomba/roomba_sensors.cpp:10-55 | a sensor read changes only the wire and the relock mark |
| EngineSpec.SensorReadOutcome | esp_roomba/components/roomba/roomba_sensors.cpp:10-55 | a failed query is CommandError with the input untouched; after a good query, SensorError or exactly the first N queued bytes, as the retry loop decides; the mode never changes |
| EngineSpec.DumpAllSensors | esp_roomba/components/roomba/roomba_sensors.cpp:63-205 | `dumpAllSensors` changes only the wire and the relock mark, and fails with InitializationError when uninitialised |
| EngineSpec.DumpAllSensorsOutcome | esp_roomba/components/roomba/roomba_sensors.cpp:10-67 | initialised, `dumpAllSensors` succeeds iff the [142, 100] query goes out and one of the 3 length queries finds 80 bytes queued; a failed query is CommandError with the input untouched, a failed poll SensorError after the whole query |
| EngineSpec.StreamRead | esp_roomba/components/roomba/roomba_streaming.cpp:42-93 | `readStream` writes nothing and keeps the mode; every frame it returns is valid |
| EngineSpec.StartTaskExclusive | esp_roomba/components/roomba/roomba_streaming.cpp:95-124 | a started stream task cannot be started again until stopped (InvalidParameter) |
| EngineSpec.StartTaskOutcome | esp_roomba/components/roomba/roomba_streaming.cpp:95-124 | a start succeeds iff the task is created, and a failed creation leaves no task, flag or callback |
| EngineSpec.StopTaskOutcome | esp_roomba/components/roomba/roomba_streaming.cpp:126-151 | a stop always leaves no task; it waits at most 10 polls, forces deletion iff the task outlives them, and sends the pause frame iff a task existed |
| EngineSpec.StartThenStop | esp_roomba/components/roomba/roomba_streaming.cpp:95-151 | a start followed by a stop returns the bookkeeping to its initial state |
| Driver.Roomba.constructor | esp_roomba/components/roomba/roomba_core.cpp:40-42 | the constructor gives the default members, then `init`'s outcome |
| Driver.Roomba.Moved | esp_roomba/components/roomba/roomba_core.cpp:59-69 | the move constructor takes the other's state under its mutex and leaves it uninitialised and Off |
| Driver.Roomba.Lock | esp_roomba/components/roomba/roomba_core.cpp:264-286 | locking the mutex is `Acquire` |
| Driver.Roomba.Unlock | esp_roomba/components/roomba/roomba_core.cpp:264-286 | unlocking the mutex is `Release` |
| Driver.Roomba.SendCommand | esp_roomba/components/roomba/roomba_core.cpp:264-286 | both `sendCommand` overloads act on the link as `Send` |
| Driver.Roomba.LockedSend | esp_roomba/components/roomba/roomba_core.cpp:264-286 | a send under `lock_guard` is `Locked` |
| Driver.Roomba.Wake | esp_roomba/components/roomba/roomba_core.cpp:145-158 | status and state are `Exec(Wake)` |
| Driver.Roomba.Start | esp_roomba/components/roomba/roomba_core.cpp:160-172 | status and state are `Exec(Start)` |
| Driver.Roomba.Reset | esp_roomba/components/roomba/roomba_core.cpp:174-190 | status and state are `Exec(Reset)` |
| Driver.Roomba.Stop | esp_roomba/components/roomba/roomba_core.cpp:192-206 | status and state are `Halt`, the case `Exec(Stop)` |
| Driver.Roomba.Power | esp_roomba/components/roomba/roomba_core.cpp:208-219 | status and state are `Exec(Power)` |
| Driver.Roomba.SetSafeMode | esp_roomba/components/roomba/roomba_core.cpp:221-237 | status and state are `Exec(SafeMode)` |
| Driver.Roomba.SetFullMode | esp_roomba/components/roomba/roomba_core.cpp:239-255 | status and state are `Exec(FullMode)` |
| Driver.Roomba.GetMode | esp_roomba/components/roomba/roomba_core.cpp:257-259 | `getMode` returns the current mode, with no initialisation check |
| Driver.Roomba.Drive | esp_roomba/components/roomba/roomba_movement.cpp:6-29 | status and state are `Motion` of its opcode and payload, the case `Exec(Drive)` |
| Driver.Roomba.DriveDirect | esp_roomba/components/roomba/roomba_movement.cpp:31-50 | status and state are `Motion` of its opcode and payload, the case `Exec(DriveDirect)` |
| Driver.Roomba.DriveStop | esp_roomba/components/roomba/roomba_movement.cpp:52-54 | status and state are `Motion` of its opcode and payload, the case `Exec(DriveStop)` |
| Driver.Roomba.DrivePwm | esp_roomba/components/roomba/roomba_movement.cpp:56-75 | status and state are `Motion` of its opcode and payload, the case `Exec(DrivePwm)` |
| Driver.Roomba.Clean | esp_roomba/components/roomba/roomba_cleaning.cpp:3-9 | status and state are `Exec(Clean)` |
| Driver.Roomba.Spot | esp_roomba/components/roomba/roomba_cleaning.cpp:11-17 | status and state are `Exec(Spot)` |
| Driver.Roomba.Dock | esp_roomba/components/roomba/roomba_cleaning.cpp:19-25 | status and state are `Exec(Dock)` |
| Driver.Roomba.SetMotors | esp_roomba/components/roomba/roomba_cleaning.cpp:27-44 | status and state are `Motion` of its opcode and payload, the case `Exec(SetMotors)` |
| Driver.Roomba.SetLeds | esp_roomba/components/roomba/roomba_io.cpp:7-14 | status and state are `Exec(SetLeds)` |
| Driver.Roomba.Song | esp_roomba/components/roomba/roomba_io.cpp:16-34 | status and state are `Exec(Song)` |
| Driver.Roomba.PlaySong | esp_roomba/components/roomba/roomba_io.cpp:36-45 | status and state are `Exec(PlaySong)` |
| Driver.Roomba.UploadAndPlay | esp_roomba/components/roomba/roomba_io.cpp:47-148 | the shared upload-then-play of the one-song presets is `Exec` of the preset |
| Driver.Roomba.PlayCrowdPleaser | esp_roomba/components/roomba/roomba_io.cpp:47-84 | status and state are `Exec(PlayCrowdPleaser)` |
| Driver.Roomba.PlayCrowdPleaser2 | esp_roomba/components/roomba/roomba_io.cpp:86-122 | status and state are `Exec(PlayCrowdPleaser2)` |
| Driver.Roomba.PlayInTheEnd | esp_roomba/components/roomba/roomba_io.cpp:124-148 | status and state are `Exec(PlayInTheEnd)` |
| Driver.Roomba.PlayDaftPunk | esp_roomba/components/roomba/roomba_io.cpp:150-181 | status and state are `Exec(PlayDaftPunk)` |
| Driver.Roomba.WriteToDisplay | esp_roomba/components/roomba/roomba_io.cpp:183-208 | status and state are `Motion` of its opcode and payload, the case `Exec(WriteToDisplay)` |
| Driver.Roomba.StartStreaming | esp_roomba/components/roomba/roomba_streaming.cpp:7-28 | status and state are `Exec(StartStreaming)` |
| Driver.Roomba.StopStreaming | esp_roomba/components/roomba/roomba_streaming.cpp:30-40 | status and state are `Exec(StopStreaming)` |
| Driver.Roomba.ReadSensor | esp_roomba/components/roomba/roomba_sensors.cpp:10-55 | result and state are `SensorRead`; a successful read returns exactly N bytes |
| Driver.Roomba.DumpAllSensors | esp_roomba/components/roomba/roomba_sensors.cpp:63-205 | status and state are `DumpAllSensors`; on success the logged fields are exactly `Walk` of the 80 bytes read, 52 of them with the last read from outside the record, and the mismatch warning is logged |
| Driver.Roomba.ReadStream | esp_roomba/components/roomba/roomba_streaming.cpp:42-93 | result and state are `StreamRead` |
| Driver.Roomba.StartStreamTask | esp_roomba/components/roomba/roomba_streaming.cpp:95-124 | status and task bookkeeping are `StartTask`; the engine is untouched |
| Driver.Roomba.StopStreamTask | esp_roomba/components/roomba/roomba_streaming.cpp:126-151 | bookkeeping, wait and forced deletion are `StopTask`; the pause frame is sent iff a task existed |
| Driver.Roomba.StreamTaskStep | esp_roomba/components/roomba/roomba_streaming.cpp:153-180 | a pass after the flag is cleared ends the task and delivers nothing; a running pass delivers only valid frames |
| Driver.Roomba.StopForMove | esp_roomba/components/roomba/roomba_core.cpp:72-79 | under both mutexes an initialised target runs `Halt` with its own mutex held once more; the other's state, hold and stream bookkeeping are untouched, and taking its mutex marks a relock only if it was already held |
| Driver.Roomba.MoveAssign | esp_roomba/components/roomba/roomba_core.cpp:71-94 | self-assignment changes nothing; otherwise an initialised target sends the chassis `stop` (the zero drive and the Stop opcode) on its own UART, then takes the other's state, UART and mode under both mutexes, leaving the other uninitialised and Off; neither side's stream task bookkeeping changes |
| MotorCommands.ScaledSpeed | esp_roomba/main/motor_command.hpp:16-23 | the scaled speed lies in ±1023, and it is zero or positive exactly when the raw speed is |
| MotorCommands.AbsoluteSpeed | esp_roomba/main/motor_command.hpp:29-31 | the magnitude is at most 1023, is ± the scaled speed, and is 0 iff the speed is |
| MotorCommands.DirectionMatchesScale | esp_roomba/main/motor_command.hpp:25-31 | forward iff the scaled speed is non-negative; the magnitude is the scaled speed or its negation accordingly |
| MotorCommands.ScaledSpeedSaturates | esp_roomba/main/motor_command.hpp:19 | speeds at or beyond ±100 scale to ±1023 |
| MotorCommands.ScaledSpeedOdd | esp_roomba/main/motor_command.hpp:22 | opposite speeds scale to opposite values (truncating division) |
| MotorCommands.ScaledSpeedMonotone | esp_roomba/main/motor_command.hpp:16-23 | scaling never decreases |
| MotorCommands.ScaledSpeedExamples | esp_roomba/main/motor_command.hpp:16-23 | 50 → 511, -50 → -511, 1 → 10, 127 → 1023 |
| Gpio.Actuate | esp_roomba/components/gpio/motor.cpp:56-100 | the pins are always set; the requested duty is held iff the PWM call succeeds, which is exactly when the result is not PwmSetFailed |
| Gpio.OperationsAreSafe | esp_roomba/components/gpio/motor.cpp:56-100 | no operation leaves both direction pins high, and the duty stays within 10 bits |
| Gpio.ForwardBackwardDuty | esp_roomba/components/gpio/motor.cpp:56-86 | forward and backward differ only in the pins; a duty up to 1023 passes through and a larger one saturates |
| Gpio.StopOutcome | esp_roomba/components/gpio/motor.cpp:88-100 | a successful stop leaves the channel idle; a failed one lowers both pins and keeps the duty |
| Gpio.Motor.constructor | esp_roomba/components/gpio/motor.cpp:17-54 | a channel starts idle |
| Gpio.Motor.SetDuty | esp_roomba/components/gpio/motor.cpp:64-67 | the duty request changes only the duty, and only on success |
| Gpio.Motor.Forward | esp_roomba/components/gpio/motor.cpp:56-70 | the outcome and the new pins and duty are `ForwardEffect` |
| Gpio.Motor.Backward | esp_roomba/components/gpio/motor.cpp:72-86 | the outcome and the new pins and duty are `BackwardEffect` |
| Gpio.Motor.Stop | esp_roomba/components/gpio/motor.cpp:88-100 | the outcome and the new pins and duty are `StopEffect` |
| Actuation.WriteSlot | esp_roomba/main/motor_command.cpp:30-36 | the slot holds the four bytes as `int8_t`, the counter's previous value as sequence and `now` as timestamp; the counter advances modulo 2^64 |
| Actuation.SuccessiveWrites | esp_roomba/main/motor_command.cpp:34 | successive writes are numbered consecutively, cleared or not in between |
| Actuation.ClearedSlotNeverNew | esp_roomba/main/motor_command.cpp:27-29 | a cleared slot has sequence 0, which is never newer than the last applied; the counter is kept |
| Actuation.Age | esp_roomba/main/motor_command.cpp:89 | the age is `now - timestamp` when the stamp is not in the future |
| Actuation.HaltAllOutcome | esp_roomba/main/motor_command.cpp:43-59 | `stop_motors` ends with all motors idle iff every stop succeeds, and restarts otherwise; a failure on motor 1 leaves motors 2 and 3 untouched |
| Actuation.StaleStopsAll | esp_roomba/main/motor_command.cpp:88-93 | a snapshot older than 400 ms stops every motor (or restarts), new or not, and keeps `last_sequence` |
| Actuation.FreshOldHolds | esp_roomba/main/motor_command.cpp:95-98 | a fresh snapshot that is not new changes nothing |
| Actuation.FreshNewApplies | esp_roomba/main/motor_command.cpp:100-131 | a fresh, new snapshot drives each motor by its direction with the clamped `uint16_t` scaled speed, and records its sequence |
| Actuation.StepAppliesOnlyNew | esp_roomba/main/motor_command.cpp:84-131 | a pass applies iff the snapshot is fresh and new; `last_sequence` never decreases and changes only by applying |
| Actuation.StepKeepsBridgesSafe | esp_roomba/main/motor_command.cpp:84-131 | every pass keeps every bridge off the both-pins-high state and within the 10-bit duty |
| Actuation.ForwardDutyIsScaled | esp_roomba/main/motor_command.cpp:100-104 | a non-negative speed reaches the motor as its absolute scaled speed, forward |
| Actuation.BackwardDutyIsFull | esp_roomba/main/motor_command.cpp:100-104 | a negative speed wraps as `uint16_t` and saturates: backward at 1023, more than its magnitude unless at -100 |
| Actuation.BackwardDutyExample | esp_roomba/main/motor_command.cpp:100-110 | 1% gives forward duty 10 while -1% gives backward duty 1023 |
| Actuation.FirstWriteNeverApplied | esp_roomba/main/motor_command.cpp:19-40 | the first write after boot is numbered 0 and no pass from `last_sequence` 0 applies it |
| Actuation.SecondWriteApplied | esp_roomba/main/motor_command.cpp:19-40 | the second write is numbered 1 and a pass within the window applies it |
| Actuation.WatchdogScenario | esp_roomba/main/motor_command.cpp:84-131 | a write is applied, held up to 400000 µs later, and all motors are stopped 1 µs after that |
| Actuation.CommandSlot.constructor | esp_roomba/main/motor_command.cpp:18-19 | the slot and counter start zeroed |
| Actuation.CommandSlot.WriteZero | esp_roomba/main/motor_command.cpp:27-29 | the new slot is `ClearSlot` of the old |
| Actuation.CommandSlot.Write | esp_roomba/main/motor_command.cpp:30-36 | the new slot is `WriteSlot` of the old |
| Actuation.CommandSlot.Read | esp_roomba/main/motor_command.cpp:38-41 | the snapshot is the slot's command, flagged new iff its sequence exceeds the last applied |
| Actuation.MotorController.constructor | esp_roomba/main/motor_command.cpp:62-80 | three distinct idle motors and `last_sequence` 0 |
| Actuation.MotorController.StopMotors | esp_roomba/main/motor_command.cpp:43-59 | the result and the motors' new state are `HaltAll` |
| Actuation.MotorController.Drive | esp_roomba/main/motor_command.cpp:100-119 | the motor's new state is `DriveChannel` |
| Actuation.MotorController.Step | esp_roomba/main/motor_command.cpp:84-138 | outcome and new state are `ControlStep` on the slot's snapshot; the slot is untouched |
| Camera.ScreenAcceptsValidJpeg | esp_roomba/components/camera/camera.cpp:111-146 | a capture passes the checks iff it is a frame of 2 bytes to 128 KiB starting FF D8 and the mutex is taken |
| Camera.ScreenOrder | esp_roomba/components/camera/camera.cpp:125-139 | the marker is checked before the size: an oversized non-JPEG is NotJpeg, an oversized JPEG TooLarge |
| Camera.PublishStepSpec | esp_roomba/components/camera/camera.cpp:109-170 | a pass keeps the exchange published: a rejected capture changes nothing, an accepted one replaces frame and timestamp |
| Camera.CopyAfterPublish | esp_roomba/components/camera/camera.cpp:98-107 | after a publish a reader gets exactly those bytes and timestamp, or nothing on timeout |
| Camera.CopyBeforePublish | esp_roomba/components/camera/camera.cpp:31-32 | before any publish a reader gets zero bytes stamped 0 |
| Camera.CopyOutIsJpeg | esp_roomba/components/camera/camera.cpp:98-107 | what a reader gets is empty or one whole valid JPEG frame of its reported length |
| Camera.FrameExchange.constructor | esp_roomba/components/camera/camera.cpp:85-97 | two distinct 128 KiB buffers; nothing published |
| Camera.FrameExchange.Publish | esp_roomba/components/camera/camera.cpp:109-170 | the copy loop and stamp give exactly `PublishStep` |
| Camera.FrameExchange.CopyOut | esp_roomba/components/camera/camera.cpp:98-107 | the copy loop returns `CopyOutStep` and leaves the published state alone |
| ClientSensorPacket.ClientPacketIds | ios/WSCameraESP/WSCameraESP/RoombaSensorPacket.swift:3-15 | the raw values are a bijection with the eleven packets |
| ClientSensorPacket.ValueWidth | ios/WSCameraESP/WSCameraESP/RoombaSensorPacket.swift:79-123 | every value is one or two bytes |
| ClientSensorPacket.RecordChangesOneField | ios/WSCameraESP/WSCameraESP/RoombaSensorPacket.swift:79-123 | each case sets exactly its own one of the eleven fields; the value stored has the bytes read as its big-endian bytes (two's complement for current, temperature and the motor currents), bumps and light bumper take the byte, and a cliff is set iff its byte is non-zero |
| ClientSensorPacket.WalkSkipsUnknown | ios/WSCameraESP/WSCameraESP/RoombaSensorPacket.swift:72-75 | an unknown id costs one byte |
| ClientSensorPacket.ParseGuards | ios/WSCameraESP/WSCameraESP/RoombaSensorPacket.swift:41-56 | the errors InsufficientData, InvalidHeader and DataTooShort are thrown exactly when their guards fail, in order |
| ClientSensorPacket.ParseChecksum | ios/WSCameraESP/WSCameraESP/RoombaSensorPacket.swift:59-66 | past the guards, the parse throws iff the sum of all bytes of the buffer is not 0 mod 256, and then with ChecksumMismatch |
| ClientSensorPacket.TrailingByteBreaksChecksum | ios/WSCameraESP/WSCameraESP/RoombaSensorPacket.swift:59-66 | a valid frame followed by one stray byte is rejected |
| ClientSensorPacket.SinglePacket | ios/WSCameraESP/WSCameraESP/RoombaSensorPacket.swift:39-127 | a frame of one packet decodes to the defaults with exactly that field set |
| ClientSensorPacket.VoltageIdAtEndTraps | ios/WSCameraESP/WSCameraESP/RoombaSensorPacket.swift:100-102 | a two-byte id as the last body byte makes the parser index past the buffer |
| ClientSensorPacket.ParseBuffer | ios/WSCameraESP/WSCameraESP/RoombaSensorPacket.swift:39-127 | the guards, the `UInt32` sum loop and the walk loop compute exactly `Parse` |
| ClientSensorPacket.AnyBumperPressedBits | ios/WSCameraESP/WSCameraESP/RoombaSensorPacket.swift:131-137 | a bumper is pressed iff bit 0 or 1 of bumps is set; the wheel-drop bits do not count |
| ClientSensorPacket.LightBumpBits | ios/WSCameraESP/WSCameraESP/RoombaSensorPacket.swift:148-208 | the six named light bumps are bits 0-5; "any light bumper" also counts bits 6 and 7 |
| ClientSensorPacket.LightBumperHighBits | ios/WSCameraESP/WSCameraESP/RoombaSensorPacket.swift:206-208 | light bumper 0x40 is reported as activated with no named light bump set |
| ClientMotorCommand.ClampSpeed | ios/WSCameraESP/WSCameraESP/Networking/MotorCommand.swift:9 | the speed is clamped to [-100, 100] |
| ClientMotorCommand.ClampSpeedIdempotent | ios/WSCameraESP/WSCameraESP/Networking/MotorCommand.swift:9 | clamping twice is clamping once |
| ClientMotorCommand.SpeedBytes | ios/WSCameraESP/WSCameraESP/Networking/MotorCommand.swift:14-23 | one byte per speed, each reading back as that speed |
| ClientMotorCommand.SpeedBytesInjective | ios/WSCameraESP/WSCameraESP/Networking/MotorCommand.swift:14-23 | different speeds never encode to the same bytes |
| ClientMotorCommand.SpeedBytesExample | ios/WSCameraESP/WSCameraESP/Networking/MotorCommand.swift:19 | -100 is sent as 0x9C and -1 as 0xFF |
| ClientMotorCommand.ClientMotor.constructor | ios/WSCameraESP/WSCameraESP/Networking/MotorCommand.swift:5 | a motor starts at speed 0 |
| ClientMotorCommand.ClientMotor.Set | ios/WSCameraESP/WSCameraESP/Networking/MotorCommand.swift:7-10 | the stored speed is the clamped request |
| ClientMotorCommand.Speeds | ios/WSCameraESP/WSCameraESP/Networking/MotorCommand.swift:18-19 | the speeds of the motors, in order |
| ClientMotorCommand.ToBinaryData | ios/WSCameraESP/WSCameraESP/Networking/MotorCommand.swift:14-23 | the append loop yields `SpeedBytes` of the motors' speeds |
| BoundedDeques.AddedSpec | ios/WSCameraESP/WSCameraESP/Utils/BoundedDeque.swift:19-24 | an add keeps the size bound; below capacity nothing is dropped, at capacity exactly the oldest element |
| BoundedDeques.Retained | ios/WSCameraESP/WSCameraESP/Utils/BoundedDeque.swift:19-24 | never more elements retained than added |
| BoundedDeques.AddAllSuffix | ios/WSCameraESP/WSCameraESP/Utils/BoundedDeque.swift:19-24 | adding to a retained suffix keeps the newest suffix |
| BoundedDeques.AddAllKeepsNewest | ios/WSCameraESP/WSCameraESP/Utils/BoundedDeque.swift:11-28 | after adding xs to an empty deque the contents are the last min(\|xs\|, max(0, maxSize)) elements, oldest first |
| BoundedDeques.AddAllExample | ios/WSCameraESP/WSCameraESP/Utils/BoundedDeque.swift:19-24 | four adds to a deque of three drop the first; a negative bound keeps nothing |
| BoundedDeques.BoundedDeque.constructor | ios/WSCameraESP/WSCameraESP/Utils/BoundedDeque.swift:15-17 | a new deque is empty with the given bound |
| BoundedDeques.BoundedDeque.Add | ios/WSCameraESP/WSCameraESP/Utils/BoundedDeque.swift:19-24 | the new contents are `Added` of the old |
| BoundedDeques.BoundedDeque.AllItems | ios/WSCameraESP/WSCameraESP/Utils/BoundedDeque.swift:26-28 | the contents, oldest first |
| Interop.FirmwareFrameNeverThrown | ios/WSCameraESP/WSCameraESP/RoombaSensorPacket.swift:41-66 | a frame the firmware's reader accepts never makes the client throw |
| Interop.FirmwareFrameCanTrapClient | ios/WSCameraESP/WSCameraESP/RoombaSensorPacket.swift:100-102 | a frame the firmware accepts can still make the client read past the buffer |
| Interop.SpeedBytesRoundTrip | esp_roomba/main/motor_command.cpp:30-31 | the client's speed bytes land in the firmware's slot as the client's speeds |
| Interop.ClientSpeedScaled | esp_roomba/main/motor_command.hpp:16-23 | a speed the client clamped is scaled by the firmware without clamping again |

## Left out

- Delays (`vTaskDelay`, the wake pulse timings, mode settle and post-reset waits) are no-ops. So no bytes arrive during the sensor-read back-off; retries matter only through failing driver calls.
- `init()` internals (UART and GPIO configuration) are not modelled. The constructor takes init's outcome as a parameter.
- `ChangeBaudRate` is declared in `roomba.hpp` with no definition, and so is not modelled.
- The destructor (its `stop()`, driver deletion and BRC reset) and the driver deletion and BRC reset done by move assignment are not modelled.
- Driver.Roomba.Wake: models the configuration that uses the BRC pin, where the mutex is taken. The GPIO pulse itself is left out. Without BRC the source takes no lock, which could only differ in the relock mark.
- Driver.Roomba.ReadSensor: `uart_read_bytes` always returns the N bytes already buffered, so the `readLen == N` failure branch cannot occur in the model.
- Driver.Roomba.StartStreamTask and Driver.Roomba.StopStreamTask: task creation and the moment the task exits are parameters (`createOk`, `exitsAfter`). FreeRTOS scheduling and `vTaskDelete` are not modelled.
- Concurrency is not modelled: the UART mutex is a hold counter, and a second acquisition is recorded (`relocked`) rather than deadlocking. The camera mutex, the motor slot and the atomic counter are modelled as sequential steps.
- Camera.FrameExchange.CopyOut: reads length and timestamp together with the copy. The source reads `jpeg_len` and `s_jpeg_timestamp` after releasing the mutex, so a concurrent publish could mix frames; that race is not captured.
- `malloc` failure in `setup` and the null-buffer check of the capture task are left out. `init_camera` and the mutex creation are not modelled.
- `esp_restart` is the `Restart` outcome of a control pass; the reboot itself is not modelled.
- Motor::init, the PWM controller and the GPIO calls are abstract. Each `setDutyCycle` outcome is a parameter, and a failed call keeps the previous duty.
- The clock (`esp_timer_get_time`) is a parameter of every operation that reads it.
- Floating-point conversions (battery voltage and the like), logging, networking, the web server, the UI, the Pico firmware and the diagnostics component are not modelled.
- Swift concurrency (the `Motor` actor and `await`) is not modelled; the motors are read in order.
- Swift `Data` slices with a non-zero start index are not modelled; the parser sees indices from 0.
- The `readSensor<N>` template is modelled for every N, not only the instantiated 1-4.
- The control task's initial `stop_motors()` before its loop (esp_roomba/main/motor_command.cpp:82) is not a separate step of the model; it is the same `HaltAll` that `Actuation.MotorController.StopMotors` models, restart on failure included. The motor `init` calls before it are left out with `Motor::init`.
- Driver.Roomba.StartStreamTask: the callback is assumed non-empty (`StartTask` sets it); the task's check at roomba_streaming.cpp:166 is kept as the `callbackSet` test of `StreamTaskStep` and always passes while the task runs.
