# Octopus Sensing, modelled in Dafny

Octopus Sensing records several physiological sensors at once during an
experiment. A device coordinator broadcasts control messages to every
device: START and STOP around each stimulus, SAVE, and TERMINATE. Each
recording device buffers its samples, marks the first sample after a
message with a trigger string "TYPE-experiment-stimulus", and writes CSV
files. It writes one file per stimulus in separated saving mode, and one
file per experiment in continuous mode. Offline, the preprocessing
functions read such a file back, cut it into trials at its START and STOP
triggers, resample every second to a fixed number of samples, and write
one output file per trial. HTTP and socket endpoints let other programs
send messages in and receive triggers out; a Unity client posts messages
from a game.

This project models that core and proves what it promises:

- `messages.dfy`, `coordinator.dfy`: the message record and its four
  creators; the coordinator's device registry, its broadcast and its
  monitoring cache, with the clock as a parameter.
- `recorder.dfy`: the recorder protocol every streaming device shares. It
  is a pure `Snapshot` with `Step` and `Sample` functions, plus a class
  `Recorder` whose methods are proved to follow them. A `Config` of small
  flags captures how the devices differ: de-duplication of START and STOP,
  a SAVE branch, emptying the buffer after a separated-mode STOP, and the
  header.
- One file per device: `testdevice.dfy`, `shimmer3.dfy` (the 14-byte
  packet decoder), `brainflow.dfy`, `brainflow_openbci.dfy`, `lsl.dfy`,
  `tobii.dfy` (the record flattening), `camera.dfy`, `audio.dfy`,
  `openbci.dfy`, `skinos.dfy` (hexadecimal 12-bit readings) and
  `openvibe.dfy` (the 24-byte TCP tag).
- `endpoints.dfy`, `http_device.dfy`, `socket_device.dfy`,
  `unity_client.dfy`: the network edges. They cover the Accept-header
  format choice, the validation of posted messages, the query defaults,
  the URL regular expression and its groups, the socket trigger lines,
  and the JSON body the Unity client builds by hand.
- `preprocess_utils.dfy`, `preprocess_openbci.dfy`,
  `preprocess_brainflow.dfy`, `preprocess_shimmer3.dfy`,
  `preprocess_triggers.dfy`: loading, trial segmentation, resampling, the
  whole-second cut and the output file names. The last file ties the
  recorders' trigger strings to the way `load_all_trials` reads them back.
- `questionnaire.dfy`: the questionnaire's question list and its answer
  file.
- `common.dfy`: the pieces of Python semantics the rest relies on
  (`str()`, `zfill`, `int()`, negative slices, `split`, `os.path.join`),
  with Python exceptions as `Result` errors.

Loops in the source are `method`s with loop invariants, proved against a
function that states the result. Objects that the source updates in place
are classes with `modifies` clauses. Files, queues and sent packets are
ghost logs. Clocks, random numbers, sensor readings and foreign libraries
are parameters.

Where the code and its documentation or tests disagree, the model follows
the code:

- The coordinator's cache expires after 100 seconds
  (octopus_sensing/device_coordinator.py:36-44), not after the 0.11 s its
  test waits.
- The Tobii record puts the left eye first, as the header and the
  extraction do, although the docstring lists the right eye first.
- `BrainFlowOpenBci` accepts only "Ganglion" with a capital G, although
  the docstring writes "ganglion".
- The OpenBCI channel-order check raises a plain string, which Python
  turns into TypeError.
- The Skinos header has six entries, because "label" "trigger" joins into
  one name.
- The brainflow_openbci recorder writes its trigger in column n + 21
  (octopus_sensing/devices/brainflow_openbci_streaming.py:192-203), while
  openbci_brainflow preprocessing reads column n + 18
  (octopus_sensing/preprocessing/openbci_brainflow.py:88-98). Both are
  modelled as written.

Where the code itself is evidently wrong (the table under "## Findings"),
both versions are modelled: the code as written, with a lemma that shows
the discrepancy, and the corrected behaviour. The rest of the model builds
on the corrected version. In particular, the OpenBCI and Shimmer3
preprocessors use the corrected `resample`, which fits the last block of
samples to the rate like every other block. As written, `resample` only
pads that last block and never cuts it. "## Left out" names each member
this affects.

## Model

| member | source | states |
|---|---|---|
| Messages.NewMessage | octopus_sensing/common/message.py:19-33 | a new message keeps its type and payload as given, and both ids default to None |
| Messages.Kind | octopus_sensing/common/message_creators.py:18-33 | a message carries a control word exactly when its type is one of START, STOP, TERMINATE and SAVE, and its type is then that word |
| Messages.StartMessage | octopus_sensing/common/message_creators.py:36-70 | a start message has kind START and carries the given experiment id, stimulus id and payload |
| Messages.StopMessage | octopus_sensing/common/message_creators.py:73-105 | a stop message has kind STOP, no payload, and the given experiment and stimulus ids |
| Messages.SaveMessage | octopus_sensing/common/message_creators.py:107-139 | a save message has kind SAVE, no payload, the given experiment id and no stimulus id |
| Messages.TerminateMessage | octopus_sensing/common/message_creators.py:141-163 | a terminate message has kind TERMINATE and neither payload nor ids |
| Coordinator.MonitoringCache.constructor | octopus_sensing/device_coordinator.py:32-34 | a new cache holds nothing and is stamped with the current time |
| Coordinator.MonitoringCache.Lookup | octopus_sensing/device_coordinator.py:36-40 | the cached data are returned exactly while no more than 100 seconds have passed since they were stored, and None afterwards |
| Coordinator.MonitoringCache.Store | octopus_sensing/device_coordinator.py:42-44 | storing replaces the data and restarts the lifetime, so the new data are served at once |
| Coordinator.GeneratedName | octopus_sensing/device_coordinator.py:60-69 | a generated name starts with "device_" |
| Coordinator.GeneratedNameReadsBack | octopus_sensing/device_coordinator.py:67-68 | what follows "device_" in a generated name reads back through int() as the counter |
| Coordinator.GeneratedNamesDistinct | octopus_sensing/device_coordinator.py:67-68 | different counter values give different device names |
| Coordinator.DeviceCoordinator.constructor | octopus_sensing/device_coordinator.py:52-58 | a new coordinator has no devices, no queues, a zero counter and an empty cache |
| Coordinator.DeviceCoordinator.AddDevice | octopus_sensing/device_coordinator.py:71-93 | the names, queues, counter and monitored names become those of Added: an unnamed device takes the next generated name (the counter moves on even if that then fails); a name already registered raises RuntimeError and changes nothing else; otherwise the name is appended, with an empty queue, and with a monitoring place when the device is monitored |
| Coordinator.DeviceCoordinator.Register | octopus_sensing/device_coordinator.py:86-91 | a new name gets its device entry and empty queue, and a monitoring place when monitored; names stay distinct |
| Coordinator.DeviceCoordinator.AddDevices | octopus_sensing/device_coordinator.py:95-103 | the whole new registry and the result are AddedAll: add_device for each device in turn, stopping at the first error; on success every device is registered in order under its own name (or a generated one); on failure the devices before it stay registered |
| Coordinator.AddedAllStops | octopus_sensing/device_coordinator.py:95-103 | once a device has failed, the devices after it change nothing |
| Coordinator.AddedAllNames | octopus_sensing/device_coordinator.py:95-103 | add_devices keeps the names it started with in front, and on success registers one name per device, in order, each named device under its own name, and nothing else |
| Coordinator.DeviceCoordinator.Dispatch | octopus_sensing/device_coordinator.py:105-112 | every device queue gains the message at its end, and nothing else changes |
| Coordinator.DeviceCoordinator.Terminate | octopus_sensing/device_coordinator.py:114-117 | every queue, and no other, gains a terminate message, every registered device is joined, and names, monitored devices and counter stay as they were |
| Coordinator.DeviceCoordinator.GetMonitoringData | octopus_sensing/device_coordinator.py:119-153 | a non-empty unexpired cache is returned untouched; otherwise the result maps each monitored device whose reply arrived to that reply, and it is cached with the current time (one clock reading serves both the check and the store) |
| Coordinator.CollectedKeys | octopus_sensing/device_coordinator.py:141-150 | a monitored device appears in the collected data exactly when its reply arrived, and with that reply |
| Coordinator.CollectedNames | octopus_sensing/device_coordinator.py:141-150 | only monitored devices appear in the collected data |
| Coordinator.CacheServedAfter110Ms | octopus_sensing/device_coordinator.py:38 | data stored at time t are still served 110 ms later (the lifetime is 100 seconds) |
| Recording.TriggerOfStringIds | octopus_sensing/devices/testdevice_streaming.py:160-172 | with string ids and a stimulus below 100 the trigger is "<type>-<experiment>-<two digits>", four characters longer than type and experiment id together |
| Recording.Saved | octopus_sensing/devices/testdevice_streaming.py:174-181 | saving adds the file (after the header when it is new) and leaves every other file as it was |
| Recording.LatestRowsAreTheNewest | octopus_sensing/devices/testdevice_streaming.py:214-216 | for a positive duration and rate the realtime data are the last min(duration * rate, buffer length) rows |
| Recording.LatestRowsOfZeroDuration | octopus_sensing/devices/testdevice_streaming.py:216 | a zero duration returns the whole buffer, because -0 is 0 in a Python slice |
| Recording.UnknownMessagesIgnored | octopus_sensing/devices/testdevice_streaming.py:98-144 | a None message, or one whose type is none of the four control words, leaves the device state unchanged and the loop running |
| Recording.RepeatIgnored | octopus_sensing/devices/testdevice_streaming.py:101-126 | a de-duplicating device ignores a START while started and a STOP while stopped |
| Recording.TriggerMarksFirstRow | octopus_sensing/devices/testdevice_streaming.py:148-157 | a pending trigger is appended to the first sample after it was set and to no later one |
| Recording.PlainRows | octopus_sensing/devices/testdevice_streaming.py:148-157 | without a pending trigger the samples are buffered unchanged, in order |
| Recording.SampleAllSnoc | octopus_sensing/devices/testdevice_streaming.py:148-157 | recording one more sample after a run of samples is recording that sample in the state the run left |
| Recording.SamplesKeepFiles | octopus_sensing/devices/testdevice_streaming.py:148-157 | samples change only the buffer and the trigger; the buffer grows by one row per sample while the loop runs |
| Recording.StartThenSamples | octopus_sensing/devices/testdevice_streaming.py:101-108 | START on a fresh device followed by samples: the first sample carries the START trigger, and the experiment id is set |
| Recording.StopThenSamples | octopus_sensing/devices/testdevice_streaming.py:109-126 | a continuous-mode STOP followed by samples: the first sample carries the STOP trigger |
| Recording.ContinuousSession | octopus_sensing/devices/testdevice_streaming.py:101-144 | START, samples, STOP, samples, TERMINATE in continuous mode leave exactly one file, named after the experiment, holding every sample in order with the START and STOP triggers on the first sample after each |
| Recording.SeparatedStimulus | octopus_sensing/devices/testdevice_streaming.py:114-122 | in separated mode START, samples, STOP write one file named after the experiment and the stimulus holding the samples, and the buffer is then emptied where the device does so |
| Recording.SeparatedStop | octopus_sensing/devices/testdevice_streaming.py:114-122 | a separated-mode STOP on a device not yet stopped, with no file written, writes the buffer under the header to the stimulus's file and empties the buffer where the device does so |
| Recording.SaveThenTerminateAppends | octopus_sensing/devices/testdevice_streaming.py:127-144 | SAVE flushes the buffer into the experiment's file and empties it; a later TERMINATE appends the newer samples below it in the same file |
| Recording.TerminateWithoutExperiment | octopus_sensing/devices/testdevice_streaming.py:136-143 | a continuous-mode TERMINATE before any experiment id was assigned fails with AttributeError (on the devices that never initialise it) |
| Recording.NoSamplesAfterExit | octopus_sensing/devices/testdevice_streaming.py:148-152 | once the loop has ended, further samples are not recorded |
| Recording.StepAllSplit | octopus_sensing/devices/testdevice_streaming.py:91-144 | handling one more message after a prefix that kept the loop going is one step from the state the prefix left |
| Recording.Recorder.constructor | octopus_sensing/devices/testdevice_streaming.py:65-82 | a new device has no state, no trigger, an empty buffer and no files |
| Recording.Recorder.SaveToFile | octopus_sensing/devices/testdevice_streaming.py:174-181 | the file gains the buffer's rows (after the header when new); the device state is unchanged |
| Recording.Recorder.Handle | octopus_sensing/devices/testdevice_streaming.py:91-144 | one message changes the device exactly as the message step of the protocol says, and reports whether the loop goes on |
| Recording.Recorder.Record | octopus_sensing/devices/testdevice_streaming.py:148-157 | one sample changes the device exactly as the sample step says |
| Recording.Recorder.RecordAll | octopus_sensing/devices/testdevice_streaming.py:148-157 | a run of samples changes the device as the samples one after the other |
| Recording.Recorder.Run | octopus_sensing/devices/testdevice_streaming.py:87-146 | the loop consumes messages up to and including the first that ends it, and the state is the protocol's state after them |
| Recording.Recorder.RecordBatch | octopus_sensing/devices/brainflow_streaming.py:182-196 | one batch changes the device as the batch step says: nothing while stopped or for an empty batch; otherwise every record is appended in order, the last one extended with the time stamp and any pending trigger, and the trigger is cleared |
| TestDevice.DeviceConfig | octopus_sensing/devices/testdevice_streaming.py:65-82 | the test device de-duplicates START and STOP, handles SAVE, empties the buffer after a separated-mode STOP, stops when its streaming thread dies, writes no header and keeps its files under output_path/name |
| TestDevice.SampleRow | octopus_sensing/devices/testdevice_streaming.py:84-85 | a sample holds one value per channel name |
| TestDevice.RealtimeData | octopus_sensing/devices/testdevice_streaming.py:196-222 | the data are the last min(duration * rate, buffer length) rows for a positive duration and rate, and the whole buffer for a zero duration; the channels reported are "channel_1", "channel_2" and "timestamp" |
| TestDevice.TestScenario | octopus_sensing/devices/testdevice_streaming.py:87-146 | START, samples, STOP, samples, TERMINATE in continuous mode leave exactly one file, output/test_device/test_device-<experiment>.csv, with one row per sample |
| Shimmer3.ShimmerConfig | octopus_sensing/devices/shimmer3_streaming.py:109-135 | the Shimmer3 recorder de-duplicates START and STOP, handles SAVE, empties the buffer after a separated-mode STOP, stops when its streaming thread dies, and starts new files with the nine-column header |
| Shimmer3.ClockWait | octopus_sensing/devices/shimmer3_streaming.py:164-170 | the divider is ceil(32768 / rate) and fits the unsigned 16-bit field for every positive rate; a zero rate divides by zero; a rate from -32768 to -1 gives a negative divider that the packing refuses; a rate below -32768 has ceiling 0, and 0 is sent |
| Shimmer3.ClockWaitNeverFaster | octopus_sensing/devices/shimmer3_streaming.py:164-168 | the device's rate 32768 / divider is never faster than the rate asked for and slower by less than one divider step |
| Shimmer3.ClockWaitDefault | octopus_sensing/devices/shimmer3_streaming.py:110 | the default rate of 128 Hz gives a divider of 256 |
| Shimmer3.U16 | octopus_sensing/devices/shimmer3_streaming.py:333-334 | an unsigned 16-bit field read least significant byte first is below 65536 |
| Shimmer3.U24 | octopus_sensing/devices/shimmer3_streaming.py:329-330 | the three time stamp bytes read as timestamp0 + timestamp1 * 256 + timestamp2 * 65536 stay below 2^24 |
| Shimmer3.U16Split | octopus_sensing/devices/shimmer3_streaming.py:333-334 | a 16-bit value is its low byte plus 256 times its high byte |
| Shimmer3.U24Split | octopus_sensing/devices/shimmer3_streaming.py:355 | a 24-bit value is its three bytes, least significant first |
| Shimmer3.U16Bytes | octopus_sensing/devices/shimmer3_streaming.py:333-334 | reading back the two bytes of a 16-bit value gives the value |
| Shimmer3.U24Bytes | octopus_sensing/devices/shimmer3_streaming.py:355 | reading back the three bytes of a 24-bit value gives the value |
| Shimmer3.ParsePacket | octopus_sensing/devices/shimmer3_streaming.py:323-334 | a 14-byte frame decodes to a packet whose fields all fit their widths |
| Shimmer3.EncodePacket | octopus_sensing/devices/shimmer3_streaming.py:328-334 | a packet encodes to exactly one 14-byte frame |
| Shimmer3.ParseEncode | octopus_sensing/devices/shimmer3_streaming.py:323-355 | decoding the frame of a packet recovers every field |
| Shimmer3.EncodeParse | octopus_sensing/devices/shimmer3_streaming.py:323-355 | every 14-byte frame is the encoding of the packet decoded from it |
| Shimmer3.GsrRange | octopus_sensing/devices/shimmer3_streaming.py:338 | the range is the upper two bits of the raw GSR word, below 4 |
| Shimmer3.GsrReading | octopus_sensing/devices/shimmer3_streaming.py:349 | the reading is the lower fourteen bits of the raw GSR word |
| Shimmer3.GsrWordSplit | octopus_sensing/devices/shimmer3_streaming.py:338-349 | range bits and reading together make up the whole raw word |
| Shimmer3.RangeResistor | octopus_sensing/devices/shimmer3_streaming.py:339-346 | each of the four ranges selects a positive resistor value |
| Shimmer3.PacketRow | octopus_sensing/devices/shimmer3_streaming.py:361-375 | an untriggered row has one cell per header column except the trigger |
| Shimmer3.RowsFitHeader | octopus_sensing/devices/shimmer3_streaming.py:359-376 | a buffered row has eight cells without a trigger and nine, ending with the trigger text, with one |
| Shimmer3.FrameRows | octopus_sensing/devices/shimmer3_streaming.py:312-376 | one row per frame decoded, one clock reading per frame |
| Shimmer3.FrameRowsStamped | octopus_sensing/devices/shimmer3_streaming.py:335-373 | row i has the eight header cells before the trigger and holds the clock reading taken for frame i in its "time" cell |
| Shimmer3.FeedStep | octopus_sensing/devices/shimmer3_streaming.py:323-373 | recording the frames' rows is recording the first frame's row and then the rows of the frames after it |
| Shimmer3.WholeFrames | octopus_sensing/devices/shimmer3_streaming.py:313-325 | fewer than 14 bytes remain exactly when the frames taken are all the whole frames in the data |
| Shimmer3.Feed | octopus_sensing/devices/shimmer3_streaming.py:305-376 | the pending and new bytes are cut into whole frames, each decoded and recorded in order with its own `datetime.now()` reading, and fewer than 14 bytes are kept for the next pass |
| Shimmer3.RealtimeData | octopus_sensing/devices/shimmer3_streaming.py:412-437 | the data are the last min(duration * rate, buffer length) rows for a positive duration and rate, and the whole buffer for a zero duration; the channels reported are the fixed nine-name list, with "GSR_ohm" and "PPG_mv" at positions 5 and 6 and "trigger" last |
| Skinos.PyIntHexOfDigits | octopus_sensing/devices/skinos_streaming.py:178-181 | int(text, 16) of a run of hexadecimal digits is their value |
| Skinos.ChannelValue | octopus_sensing/devices/skinos_streaming.py:171-181 | a channel parses only when its field holds exactly three bytes; three hexadecimal digits give their value, a 0x or 0X prefix and one digit give that digit, and two digits around an underscore give the two-digit value |
| Skinos.PyIntHexOfPrefixed | octopus_sensing/devices/skinos_streaming.py:178-181 | int(text, 16) skips a 0x or 0X prefix, and one underscore right after it, and reads the digits that follow |
| Skinos.PyIntHexOfUnderscore | octopus_sensing/devices/skinos_streaming.py:178-181 | int(text, 16) reads two digits around a single underscore as the two digits without it |
| Skinos.Channels | octopus_sensing/devices/skinos_streaming.py:155-181 | the first read gives four zeros whatever it holds; any other read gives four values or the first field's error |
| Skinos.Signed12 | octopus_sensing/devices/skinos_streaming.py:183-188 | the reading of a 12-bit word lies in [-2048, 2048), agrees with the word modulo 4096, and is negative exactly from 2048 on |
| Skinos.ScaledIsSigned | octopus_sensing/devices/skinos_streaming.py:183-188 | the scaling is the two's-complement reading of the 12-bit word divided by 500 |
| Skinos.FrameRow | octopus_sensing/devices/skinos_streaming.py:196-211 | a row is the time followed by the four scaled channels |
| Skinos.StreamRows | octopus_sensing/devices/skinos_streaming.py:145-212 | the reads give one row each until the first that cannot be parsed, whose error ends the thread |
| Skinos.FirstRowIsZero | octopus_sensing/devices/skinos_streaming.py:162-168 | the first row holds zeros on every channel, whatever was read |
| Skinos.DeviceConfig | octopus_sensing/devices/skinos_streaming.py:37-56 | Skinos de-duplicates START and STOP, has no SAVE branch, keeps the buffer after a separated-mode STOP, does not watch its thread, writes a header and ends every row with a trigger cell |
| Skinos.RowsFitHeader | octopus_sensing/devices/skinos_streaming.py:196-212 | every stored row has as many cells as the header (six, since "label" "trigger" joins into one name), the last being the trigger or empty |
| Skinos.SaveIgnored | octopus_sensing/devices/skinos_streaming.py:83-119 | a SAVE message changes nothing |
| Skinos.Stream | octopus_sensing/devices/skinos_streaming.py:138-215 | the recorder state after streaming is the state after recording every row read before the first parse error, and that error is returned |
| Skinos.StreamStep | octopus_sensing/devices/skinos_streaming.py:146-212 | one read is recorded, or its parse error ends the thread |
| Skinos.ReadRow | octopus_sensing/devices/skinos_streaming.py:149-188 | one read yields its row or the error that ends the thread there, consistently with the rows from that read on |
| Skinos.RecordNext | octopus_sensing/devices/skinos_streaming.py:212 | recording one more row continues the run recorded since the start |
| Skinos.MonitoringData | octopus_sensing/devices/skinos_streaming.py:237-240 | the monitoring data are the last min(3 * rate, buffer length) rows, the last three seconds, and the whole buffer at rate 0 |
| Audio.Signed16 | octopus_sensing/devices/audio_streaming.py:169-170 | a 16-bit word read as a signed sample lies in [-32768, 32768) and agrees with the word modulo 65536 |
| Audio.Words | octopus_sensing/devices/audio_streaming.py:168-170 | an even run of bytes gives half as many samples, each in the signed 16-bit range |
| Audio.Samples | octopus_sensing/devices/audio_streaming.py:168-170 | the joined chunks decode exactly when their byte count is even; an odd count raises ValueError |
| Audio.SampleBytes | octopus_sensing/devices/audio_streaming.py:169-176 | a sample is written as two bytes |
| Audio.Encode | octopus_sensing/devices/audio_streaming.py:169-176 | samples are written as two bytes each |
| Audio.WordsOfEncode | octopus_sensing/devices/audio_streaming.py:168-176 | reading back the bytes written for samples gives the samples |
| Audio.EncodeOfWords | octopus_sensing/devices/audio_streaming.py:168-176 | writing the samples decoded from an even run of bytes gives the bytes back |
| Audio.RealtimeDataCountsChunks | octopus_sensing/devices/audio_streaming.py:217 | the window counts chunks, not samples: with no more than 44100 chunks the whole buffer is returned for any positive duration |
| Audio.RepeatIgnored | octopus_sensing/devices/audio_streaming.py:114-150 | a START while started and a STOP while stopped change nothing |
| Audio.ReceiveAllCapturing | octopus_sensing/devices/audio_streaming.py:92-96 | while capture runs every chunk is appended in order |
| Audio.SeparatedStimulus | octopus_sensing/devices/audio_streaming.py:114-144 | in separated mode START, chunks of an even byte count, STOP write exactly those chunks' samples to the stimulus's WAV file and stop capture |
| Audio.ContinuousStimuli | octopus_sensing/devices/audio_streaming.py:118-150 | in continuous mode capture starts on the first START only, so the chunks of every stimulus accumulate, and each START and STOP adds one log row |
| Audio.TerminateWithoutExperiment | octopus_sensing/devices/audio_streaming.py:151-163 | a continuous-mode TERMINATE before any STOP has named the experiment fails with AttributeError after capture has stopped |
| Audio.ContinuousTerminate | octopus_sensing/devices/audio_streaming.py:151-165 | a continuous-mode TERMINATE writes the experiment's WAV file with every buffered sample and appends the log, closed by the TERMINATE row, to its log file |
| Audio.AudioDevice.constructor | octopus_sensing/devices/audio_streaming.py:75-90 | a new audio device captures nothing, has no log and no files, under output_path/name |
| Audio.AudioDevice.SaveToFile | octopus_sensing/devices/audio_streaming.py:167-176 | the file receives the decoded samples of the joined chunks, or ValueError for an odd byte count; nothing else changes |
| Audio.AudioDevice.Handle | octopus_sensing/devices/audio_streaming.py:110-165 | one message changes the device exactly as the message step says |
| Audio.AudioDevice.Receive | octopus_sensing/devices/audio_streaming.py:92-96 | a chunk is appended while capture runs and ignored otherwise |
| BrainFlow.DeviceConfig | octopus_sensing/devices/brainflow_streaming.py:84-107 | a BrainFlow board keeps the name, the path `<output>/<name>` and the saving mode, drops duplicate messages, handles SAVE, clears its buffer after a separated STOP and writes no header |
| BrainFlow.Transpose | octopus_sensing/devices/brainflow_streaming.py:185 | the records of a batch are its transpose: record j holds, on channel i, the value at row i and column j |
| BrainFlow.TransposeTwice | octopus_sensing/devices/brainflow_streaming.py:185 | transposing a rectangular batch twice gives it back |
| BrainFlow.BatchRecorded | octopus_sensing/devices/brainflow_streaming.py:182-196 | a running device appends every record of a non-empty batch in order, the last one extended with the time of day, the unix time and the pending trigger, which is then cleared; an empty batch or a stopped device changes nothing |
| BrainFlow.StreamBatch | octopus_sensing/devices/brainflow_streaming.py:176-196 | one pass of the stream loop leaves the device in the state the batch specification gives for the transposed batch and the current time |
| BrainFlow.RealtimeData | octopus_sensing/devices/brainflow_streaming.py:222-257 | realtime data always raise NotImplementedError, because the base board's channel list is not implemented |
| BrainFlow.BatchSession | octopus_sensing/devices/brainflow_streaming.py:117-170 | in continuous mode START, a batch, STOP, a batch, TERMINATE exits and leaves exactly one file, named after the device and the experiment, holding every record of both batches in order, the last record of the first batch extended with the stamp and the START trigger and the last of the second with the stamp and the STOP trigger |
| BrainFlowOpenBci.DefaultChannels | octopus_sensing/devices/brainflow_openbci_streaming.py:114-130 | the default channel names are "ch1" up to "ch<n>", n of them |
| BrainFlowOpenBci.SelectBoard | octopus_sensing/devices/brainflow_openbci_streaming.py:109-134 | cyton-daisy is board 2 at 125 Hz with the given 16 names or the defaults, cyton board 0 at 250 Hz and Ganglion board 1 at 200 Hz with default names; any other board type, or a daisy order that is not 16 long, raises RuntimeError, and those are the only failures |
| BrainFlowOpenBci.LowerCaseGanglionRefused | octopus_sensing/devices/brainflow_openbci_streaming.py:126-134 | the board type is compared exactly, so "ganglion" in lower case raises RuntimeError |
| BrainFlowOpenBci.Header | octopus_sensing/devices/brainflow_openbci_streaming.py:194-199 | a new file's header starts with "Sample Number" and the channel names, holds 22 more columns than channels and ends with "trigger" |
| BrainFlowOpenBci.DeviceConfig | octopus_sensing/devices/brainflow_openbci_streaming.py:146-151 | an OpenBCI board behaves as the BrainFlow board does, except that every new file starts with the header |
| BrainFlowOpenBci.RealtimeData | octopus_sensing/devices/brainflow_streaming.py:255-262 | with channels given, realtime data are the last min(duration * rate, buffer length) records, reported with the board's channel names |
| BrainFlowOpenBci.DaisyHeaderWidth | octopus_sensing/devices/brainflow_openbci_streaming.py:194-199 | a cyton-daisy file's header has 38 columns |
| OpenBci.DefaultChannels | octopus_sensing/devices/openbci_streaming.py:119-126 | the default channel names are "ch1" up to "ch<n>", n of them |
| OpenBci.ChannelNames | octopus_sensing/devices/openbci_streaming.py:119-134 | without an order the names are the 16 defaults for a daisy board and the 8 defaults otherwise; a given order is kept exactly when its length is 16 for daisy and 8 otherwise, and otherwise the string raise fails with TypeError |
| OpenBci.Header | octopus_sensing/devices/openbci_streaming.py:204-209 | a new file's header is the channel names followed by the three accelerometer columns, "sample_id", "time stamp" and "trigger" |
| OpenBci.DeviceConfig | octopus_sensing/devices/openbci_streaming.py:103-117 | the device records under `<output>/eeg`, neither de-duplicates nor handles SAVE, never clears its buffer and writes the header in every new file |
| OpenBci.RealtimeData | octopus_sensing/devices/openbci_streaming.py:237-243 | realtime data are the last min(duration * 128, buffer length) rows, the whole buffer for a zero duration, reported with rate 128 and the channel names |
| OpenBci.SampleRow | octopus_sensing/devices/openbci_streaming.py:191-196 | a sample row holds each channel count times the microvolt scale, each auxiliary count times the accelerometer scale, then the sample id and the time of day |
| OpenBci.RowsFitHeader | octopus_sensing/devices/openbci_streaming.py:191-209 | a sample row lines up with the header: the time of day sits under "time stamp" and a pending trigger under "trigger"; a row without a trigger is one cell shorter than the header |
| OpenBci.StartAlwaysMarks | octopus_sensing/devices/openbci_streaming.py:151-153 | every START sets the trigger and the experiment id, whether or not the device was started already |
| OpenBci.StimulusKeepsBuffer | octopus_sensing/devices/openbci_streaming.py:154-162 | in separated mode a stimulus writes everything buffered so far, its first row marked by the START trigger, and leaves the buffer as it is |
| OpenBci.SecondFileHoldsBoth | octopus_sensing/devices/openbci_streaming.py:154-162 | because the buffer is never cleared, the second stimulus's file holds the samples of the first stimulus as well as its own |
| Lsl.DeviceConfig | octopus_sensing/devices/lsl_streaming.py:74-100 | an LSL device records under `<output>/<name>`, ignores a repeated START or STOP, handles SAVE, clears its buffer after a separated STOP and writes no header |
| Lsl.Resolve | octopus_sensing/devices/lsl_streaming.py:164-167 | the device reads the first stream found, and raises RuntimeError exactly when no stream is found |
| Lsl.SampleRow | octopus_sensing/devices/lsl_streaming.py:172-174 | a pulled sample is recorded with its timestamp appended and nothing else changed |
| Lsl.Pull | octopus_sensing/devices/lsl_streaming.py:169-178 | a pull that returns nothing leaves the device unchanged; a sample is recorded as the sampling specification gives for the sample with its timestamp |
| Lsl.RealtimeData | octopus_sensing/devices/lsl_streaming.py:210-236 | the data are the last min(duration * rate, buffer length) rows for a positive duration and rate, and the whole buffer for a zero duration; the channels reported are the configured ones, None when none were given |
| Lsl.SaveTwice | octopus_sensing/devices/lsl_streaming.py:141-149 | a first SAVE writes the buffer to `<name>-<experiment>.csv` and empties it; samples recorded afterwards go, with the next SAVE, to the end of that same file, which stays the only one |
| Tobii.Lookup | octopus_sensing/devices/tobiiglasses_streaming.py:291 | a dictionary lookup finds nothing exactly when no entry carries the key |
| Tobii.LookupAt | octopus_sensing/devices/tobiiglasses_streaming.py:291 | a dictionary lookup returns the value of the first entry that carries the key |
| Tobii.Get | octopus_sensing/devices/tobiiglasses_streaming.py:291-293 | `get` with a default succeeds exactly on a dictionary and raises AttributeError on anything else |
| Tobii.Unpack | octopus_sensing/devices/tobiiglasses_streaming.py:295 | unpacking a list gives its items, and unpacking None or a number raises TypeError |
| Tobii.Cat | octopus_sensing/devices/tobiiglasses_streaming.py:290-331 | the record grows part after part in order, and the first part that raises is the error of the whole |
| Tobii.SectionVec | octopus_sensing/devices/tobiiglasses_streaming.py:293-295 | a sub-section stored as a dictionary with a stamp and a value list contributes the stamp followed by the values |
| Tobii.MemsComplete | octopus_sensing/devices/tobiiglasses_streaming.py:291-298 | a complete motion section flattens to its 8 values: the accelerometer stamp and vector, then the gyroscope stamp and vector |
| Tobii.EyeComplete | octopus_sensing/devices/tobiiglasses_streaming.py:299-310 | a complete eye section flattens to its 10 values: the pupil centre, the pupil diameter and the gaze direction, each with its stamp |
| Tobii.GazeComplete | octopus_sensing/devices/tobiiglasses_streaming.py:323-325 | a complete gaze position flattens to its stamp, its l value and its two coordinates |
| Tobii.Gaze3Complete | octopus_sensing/devices/tobiiglasses_streaming.py:326-328 | a complete 3D gaze position flattens to its stamp and its three coordinates |
| Tobii.CompleteSections | octopus_sensing/devices/tobiiglasses_streaming.py:291-326 | each section of a complete record is found under its own key |
| Tobii.FlattenOfSections | octopus_sensing/devices/tobiiglasses_streaming.py:290-331 | when the five sections read successfully, the record is their values in the order motion, left eye, right eye, gaze position, 3D gaze position, followed by the time |
| Tobii.Flatten | octopus_sensing/devices/tobiiglasses_streaming.py:278-331 | data that are not a dictionary raise AttributeError |
| Tobii.FlattenComplete | octopus_sensing/devices/tobiiglasses_streaming.py:224-235 | a complete record flattens to its 36 values in header order followed by the time, which is one cell fewer than the 38-column header (the last column is the trigger) |
| Tobii.MissingPupilDiameter | octopus_sensing/devices/tobiiglasses_streaming.py:305-306 | an eye section without a pupil diameter raises AttributeError, because the default list has no `get` |
| Tobii.MissingMems | octopus_sensing/devices/tobiiglasses_streaming.py:291-292 | a missing motion section is left out, so the record is 8 values shorter and the later columns shift |
| Tobii.DeviceConfig | octopus_sensing/devices/tobiiglasses_streaming.py:103-125 | the glasses record under `<output>/<name>`, ignore a repeated START or STOP, handle SAVE, clear the buffer after a separated STOP, stop when the streaming thread has died, and write the 38-column header in every new file |
| Tobii.ToRow | octopus_sensing/devices/tobiiglasses_streaming.py:243-245 | a flattened record is written as one row with one cell per value, in order |
| Tobii.StreamRecord | octopus_sensing/devices/tobiiglasses_streaming.py:194-206 | a pass of the stream loop buffers the flattened record with the pending trigger exactly when flattening succeeds; when flattening raises, that error ends the thread and nothing is buffered; after buffering, the sleep of 1/rate seconds ends the thread with ZeroDivisionError at rate 0 and ValueError at a negative rate, and the loop goes on exactly when the rate is positive |
| Tobii.RealtimeData | octopus_sensing/devices/tobiiglasses_streaming.py:249-275 | the data are the last min(duration * rate, buffer length) rows for a positive duration and rate, and the whole buffer for a zero duration (no channel list is reported) |
| Camera.CameraSource | octopus_sensing/devices/camera_streaming.py:89-97 | the constructor's assertion passes exactly when one of the camera number and the camera path is given, and the camera opened is the one given |
| Camera.VideoSize | octopus_sensing/devices/camera_streaming.py:121-128 | the size read back from the capture device is kept exactly when both sides are positive; otherwise RuntimeError is raised |
| Camera.NatToStringBelow100 | octopus_sensing/devices/camera_streaming.py:155 | a stimulus number below 100 is written with one or two digits before padding |
| Camera.VideoFilesDistinct | octopus_sensing/devices/camera_streaming.py:152-155 | two stimuli numbered differently below 100 are recorded into different video files |
| Camera.TruncDiv | octopus_sensing/devices/camera_streaming.py:274 | `int()` of a quotient truncates toward zero, which is floor division for a non-negative numerator and a positive divisor |
| Camera.FrameRate | octopus_sensing/devices/camera_streaming.py:268-276 | fewer than two capture times give a frame rate of 1 |
| Camera.FrameRateFromIncreasing | octopus_sensing/devices/camera_streaming.py:271-274 | with strictly increasing capture times every span the loop divides by is positive, so the estimate never fails and is never negative |
| Camera.FrameRateIncreasing | octopus_sensing/devices/camera_streaming.py:268-276 | with strictly increasing capture times the frame rate is defined and non-negative |
| Camera.FrameRateOfSimultaneousFrames | octopus_sensing/devices/camera_streaming.py:271-274 | two frames captured at the same instant make the estimate divide by zero |
| Camera.CeilSteps | octopus_sensing/devices/camera_streaming.py:271 | the loop stops at the first number of steps whose span reaches five seconds |
| Camera.EvenlySpan | octopus_sensing/devices/camera_streaming.py:272 | with frames evenly spaced, the span back to the i-th latest frame is i intervals |
| Camera.FrameRateFromEvenly | octopus_sensing/devices/camera_streaming.py:271-274 | with evenly spaced frames the loop ends after k intervals and divides k + 1 by the time span of k intervals |
| Camera.FrameRateOfEvenFrames | octopus_sensing/devices/camera_streaming.py:268-276 | with frames evenly spaced, the estimate looks back over k = min(frames - 1, ceil(5 s / spacing)) intervals and divides the k + 1 frames, not the k intervals, by their span |
| Camera.FrameRateOfTwoFrames | octopus_sensing/devices/camera_streaming.py:268-276 | two frames 40 ms apart, 25 per second, are estimated at 50 frames per second |
| Camera.PyIndex | octopus_sensing/devices/camera_streaming.py:262 | a Python index succeeds exactly from minus the length up to the length, and a non-negative index picks that element |
| Camera.Picks | octopus_sensing/devices/camera_streaming.py:259-262 | the monitoring loop from second i on picks at most one frame per remaining second of the duration |
| Camera.PickCountBound | octopus_sensing/devices/camera_streaming.py:259-261 | the loop goes on at second i exactly while i is below the duration and frame i * fps exists |
| Camera.PicksEveryNthFrom | octopus_sensing/devices/camera_streaming.py:259-262 | at a positive rate the loop from second i succeeds and picks one frame for each second it has left |
| Camera.PicksElement | octopus_sensing/devices/camera_streaming.py:262 | the j-th frame picked from second i on is frame (i + j) * fps of the latest data |
| Camera.PicksEveryNth | octopus_sensing/devices/camera_streaming.py:248-266 | at a positive rate the monitoring data are every fps-th frame of the latest data, at most one per second of the duration |
| Camera.PicksAtZeroFps | octopus_sensing/devices/camera_streaming.py:250-262 | at an estimated rate of zero the slice keeps every frame and the loop repeats the oldest frame once per second |
| Camera.RealtimeDataBound | octopus_sensing/devices/camera_streaming.py:248-266 | the monitoring data never hold more frames than the duration has seconds |
| Camera.RealtimeDataOfOneCapture | octopus_sensing/devices/camera_streaming.py:248-266 | with a single capture time the rate is 1 and the data are the last `duration` frames |
| Camera.StepKeepsCoherent | octopus_sensing/devices/camera_streaming.py:139-179 | a recording thread exists exactly while the camera is started, so the "two start messages" error is never raised and no message crashes the loop |
| Camera.RepeatIgnored | octopus_sensing/devices/camera_streaming.py:141-142 | a second START is ignored, not an error, and so is a second STOP |
| Camera.CaptureAllRecording | octopus_sensing/devices/camera_streaming.py:189-195 | while the recording thread runs, every frame read is kept with its capture time, in order |
| Camera.CaptureAllIdle | octopus_sensing/devices/camera_streaming.py:189-207 | frames read while no recording thread runs are not kept |
| Camera.RecordingSession | octopus_sensing/devices/camera_streaming.py:139-207 | START, frames captured at increasing times, then STOP add exactly one video, under the START message's file name, holding those frames in order at the estimated rate |
| Camera.CameraDevice.constructor | octopus_sensing/devices/camera_streaming.py:84-107 | a new camera records under `<output>/<name>`, neither started nor stopped, with no frames and no recording thread |
| Camera.CameraDevice.GetFrameRate | octopus_sensing/devices/camera_streaming.py:268-276 | the loop over the capture times computes the frame rate specified above |
| Camera.CameraDevice.GetRealtimeData | octopus_sensing/devices/camera_streaming.py:231-266 | the method returns the realtime data specified above: the picked frames and the frame rate |
| Camera.PickFrames | octopus_sensing/devices/camera_streaming.py:258-262 | the loop picks exactly the frames the monitoring specification gives |
| Camera.CameraDevice.Handle | octopus_sensing/devices/camera_streaming.py:135-179 | handling one message changes the camera as the message step specifies and returns its outcome |
| Camera.CameraDevice.Capture | octopus_sensing/devices/camera_streaming.py:189-195 | a frame read at time t changes the camera as the capture step specifies |
| OpenVibe.Pow256 | open-vibe-tagging.py:29-33 | 256 to the power of a byte count is positive |
| OpenVibe.LittleEndian | open-vibe-tagging.py:29 | the number a run of bytes stands for, least significant first, lies below 256 to the power of its length |
| OpenVibe.ToByte | open-vibe-tagging.py:30-33 | `to_byte` yields exactly `length` bytes |
| OpenVibe.DivModUnique | open-vibe-tagging.py:32-33 | the byte and the carried value of one step of `to_byte` are the only quotient and remainder |
| OpenVibe.ModSplit | open-vibe-tagging.py:32-33 | the value modulo 256^(n+1) is its low byte plus 256 times the rest modulo 256^n |
| OpenVibe.ToByteValue | open-vibe-tagging.py:30-33 | the bytes `to_byte` yields stand, little-endian, for the value modulo 256^length |
| OpenVibe.ToByteOfLittleEndian | open-vibe-tagging.py:29-33 | reading bytes little-endian and writing the number back with `to_byte` gives the same bytes |
| OpenVibe.LittleEndianOfToByte | open-vibe-tagging.py:29-33 | for a value that fits in `length` bytes, reading back what `to_byte` wrote gives the value |
| OpenVibe.ToBytes | octopus_sensing/devices/open_vibe_streaming.py:76-80 | `to_bytes(n, 'little')` succeeds exactly for a value from 0 below 256^n, giving n bytes that stand for it, and raises OverflowError otherwise |
| OpenVibe.Tag | octopus_sensing/devices/open_vibe_streaming.py:71-82 | a tag is built exactly when the event id and the time both fit in eight bytes: 24 bytes, the eight zero bytes of padding, then the event id and the time little-endian; otherwise OverflowError |
| OpenVibe.DecodeTag | open-vibe-tagging.py:3-13 | the event id and the time read back from a tag each fit in eight bytes |
| OpenVibe.TagRoundTrip | octopus_sensing/devices/open_vibe_streaming.py:71-82 | decoding a tag gives back the event id and the time it was built from |
| OpenVibe.DecodeThenTag | open-vibe-tagging.py:3-13 | every 24 bytes that start with the padding are the tag of the event id and time they decode to |
| OpenVibe.ClientTag | open-vibe-tagging.py:39-48 | the stand-alone client sends 24 bytes that start with the padding |
| OpenVibe.ClientEventIdBytes | open-vibe-tagging.py:24-42 | the client's event id 0x8105 is sent as the bytes 0x05 0x81 followed by six zeros |
| OpenVibe.ClientTagMatchesDevice | open-vibe-tagging.py:39-48 | for any time that fits in eight bytes, the client builds the same tag as the device |
| OpenVibe.TriggerTag | octopus_sensing/devices/open_vibe_streaming.py:76 | a trigger that is an integer is tagged as such, and an object without `to_bytes` raises AttributeError |
| OpenVibe.TerminateMessageIgnoredAsWritten | octopus_sensing/devices/open_vibe_streaming.py:64 | as written, the coordinator's upper-case TERMINATE does not stop the loop; with the corrected rule it does |
| OpenVibe.NothingSentAsWritten | octopus_sensing/devices/open_vibe_streaming.py:56-68 | as written, no tag is ever sent, and the first message that is not None ends the device with AttributeError, because messages have no `subject_id` |
| OpenVibe.OneTagPerTrigger | octopus_sensing/devices/open_vibe_streaming.py:56-82 | as intended, a message whose trigger fits in eight bytes sends exactly one tag, which decodes to that trigger and the current time |
| OpenVibe.TerminateSendsNothing | octopus_sensing/devices/open_vibe_streaming.py:64-65 | as intended, TERMINATE sends nothing and ends the loop |
| OpenVibe.OversizedEventId | octopus_sensing/devices/open_vibe_streaming.py:76 | a trigger that does not fit in eight bytes ends the device with OverflowError and sends nothing |
| OpenVibe.OpenVibeDevice.constructor | octopus_sensing/devices/open_vibe_streaming.py:48-54 | a new device has sent nothing and holds no message ids |
| OpenVibe.OpenVibeDevice.Handle | octopus_sensing/devices/open_vibe_streaming.py:57-68 | handling one message changes the device as the intended message step specifies |
| OpenVibe.OpenVibeDevice.Run | octopus_sensing/devices/open_vibe_streaming.py:56-69 | the loop handles messages in order, each at its own clock reading, until one ends it, and ends in the state and outcome the intended run specifies |
| SocketDevice.TriggerOf | octopus_sensing/devices/network_devices/socket_device.py:101-130 | a message is forwarded exactly when it is a control message: "<type>-<experiment>-<stimulus padded to two>" for START and STOP, "SAVE-<experiment>" for SAVE and "terminate" for TERMINATE |
| SocketDevice.BroadcastAsWritten | octopus_sensing/devices/network_devices/socket_device.py:132-143 | as written, every connection gets exactly one packet |
| SocketDevice.AsWrittenNewlines | octopus_sensing/devices/network_devices/socket_device.py:104-106 | as written, the i-th connection receives the trigger followed by i + 1 newlines, because each send appends a newline to the stored trigger itself, which keeps them all |
| SocketDevice.SecondClientGetsTwoNewlines | octopus_sensing/devices/network_devices/socket_device.py:141-143 | with two clients, the second receives two newlines as written, where the corrected broadcast sends one |
| SocketDevice.BroadcastAgreesWithOneClient | octopus_sensing/devices/network_devices/socket_device.py:104-143 | the corrected broadcast agrees with the one as written exactly when there is at most one client |
| SocketDevice.Accepted | octopus_sensing/devices/network_devices/socket_device.py:73-83 | a client is taken on exactly while the server still listens, and nothing else changes |
| SocketDevice.IgnoredMessages | octopus_sensing/devices/network_devices/socket_device.py:99-100 | a None message, or one of an unknown type, changes nothing and sends nothing |
| SocketDevice.EachClientOneLine | octopus_sensing/devices/network_devices/socket_device.py:101-130 | a control message sends exactly one packet to each client, in order, each the message's trigger and one newline; the clients and every earlier packet are unchanged |
| SocketDevice.ExperimentIdAndExit | octopus_sensing/devices/network_devices/socket_device.py:101-130 | START, STOP and SAVE record the message's experiment id; only TERMINATE ends the loop, and it keeps the old id |
| SocketDevice.NoClientsAfterTerminate | octopus_sensing/devices/network_devices/socket_device.py:124-126 | after TERMINATE no client is taken on any more |
| SocketDevice.OneClientOneLine | octopus_sensing/devices/network_devices/socket_device.py:101-143 | with one client, a control message sends it exactly one line |
| SocketDevice.TestTriggers | octopus_sensing/tests/test_network_devices.py:38-48 | the test's messages are forwarded as "START-test-00", "STOP-test-00", "START-test-01" and "STOP-test-01" |
| SocketDevice.TwoDigitTrigger | octopus_sensing/devices/network_devices/socket_device.py:154-157 | a stimulus id of two characters or more goes into the trigger as it is |
| SocketDevice.RunOneLine | octopus_sensing/devices/network_devices/socket_device.py:97-130 | a control message other than TERMINATE, with one client, sends it one line and the run goes on with the rest of the messages |
| SocketDevice.ClientReadsTheTestLines | octopus_sensing/tests/test_network_devices.py:29-85 | with one client, START and STOP of stimuli "00" and "01" of experiment "test", then TERMINATE, end the loop and arrive as exactly the five lines the test reads |
| SocketDevice.SocketServer.constructor | octopus_sensing/devices/network_devices/socket_device.py:59-71 | a new server has no clients, no trigger, no experiment id, has sent nothing and still listens |
| SocketDevice.SocketServer.Accept | octopus_sensing/devices/network_devices/socket_device.py:79-83 | accepting a client changes the server as the acceptance step specifies |
| SocketDevice.SocketServer.SendToAll | octopus_sensing/devices/network_devices/socket_device.py:104-106 | sending to all clients adds the corrected broadcast of the stored trigger and nothing else |
| SocketDevice.SocketServer.Handle | octopus_sensing/devices/network_devices/socket_device.py:98-130 | handling one message changes the server as the message step specifies and reports whether the loop ends |
| SocketDevice.SocketServer.Run | octopus_sensing/devices/network_devices/socket_device.py:97-130 | the loop handles messages until TERMINATE and ends in the state the run specification gives, having taken every message when it did not end |
| HttpDevice.RunEnd | octopus_sensing/devices/network_devices/http_device.py:95-100 | a character class repeated as far as it goes: every character up to the end is in the class, and the next one is not |
| HttpDevice.HostEnd | octopus_sensing/devices/network_devices/http_device.py:96-98 | where the host alternative matches, what it covers is a host of the grammar: a named host, a bracketed IPv6 address or a bracketed IPvFuture address |
| HttpDevice.PortEnd | octopus_sensing/devices/network_devices/http_device.py:99 | the optional port group, when it takes part, covers a colon and digits |
| HttpDevice.RestEnd | octopus_sensing/devices/network_devices/http_device.py:100 | the optional rest group, when it takes part, covers a slash and everything up to a newline |
| HttpDevice.MatchSound | octopus_sensing/devices/network_devices/http_device.py:94-101 | a match's four groups are in the URL grammar and write out a prefix of the URL |
| HttpDevice.SchemeScan | octopus_sensing/devices/network_devices/http_device.py:95 | a scheme at the start of a URL is what the match reads as the scheme group |
| HttpDevice.HostScan | octopus_sensing/devices/network_devices/http_device.py:96-98 | a host at a position is found, and read back exactly, when what follows it is the end, a colon or a slash |
| HttpDevice.PortScan | octopus_sensing/devices/network_devices/http_device.py:99 | a port group, or none, is read back exactly when a path or the end follows it |
| HttpDevice.RestScan | octopus_sensing/devices/network_devices/http_device.py:100 | a rest group running to the end, or none at the end, is read back exactly |
| HttpDevice.MatchRender | octopus_sensing/devices/network_devices/http_device.py:94-101 | whatever the grammar produces, the match reads it back into the same four groups |
| HttpDevice.GroupsOfRender | octopus_sensing/devices/network_devices/http_device.py:112 | cut where the groups end, the written URL gives back the groups |
| HttpDevice.MatchFindsPrefix | octopus_sensing/devices/network_devices/http_device.py:108 | the match is anchored at the start only: a URL that starts with a scheme and a host always matches, and its scheme group is that scheme, whatever follows |
| HttpDevice.NonNumericPortIgnored | octopus_sensing/devices/network_devices/http_device.py:99-100 | a colon after a named host that is not followed by a digit starts no port and no path: the match stops at the host |
| HttpDevice.NoSchemeSeparator | octopus_sensing/devices/network_devices/http_device.py:95 | without "://" right after the scheme characters there is no match |
| HttpDevice.ValidateEndpoints | octopus_sensing/devices/network_devices/http_device.py:106-115 | validation passes exactly when every endpoint matches with the scheme "http://" or "https://"; otherwise it raises RuntimeError |
| HttpDevice.UpperCaseSchemeRefused | octopus_sensing/devices/network_devices/http_device.py:95 | a URL starting with an upper-case letter does not match and is refused |
| HttpDevice.AcceptedParts | octopus_sensing/devices/network_devices/http_device.py:106-115 | a URL written from well-formed parts with an http or https scheme is accepted |
| HttpDevice.PortOf | octopus_sensing/devices/network_devices/http_device.py:144-146 | the port is given exactly when the port group takes part, and it is the number after the colon |
| HttpDevice.PathOf | octopus_sensing/devices/network_devices/http_device.py:149-151 | the path posted to is the rest group, or "/" when there is none, and always starts with a slash |
| HttpDevice.ConnectToIsNoHost | octopus_sensing/devices/network_devices/http_device.py:148 | as written, the connection target is never a host of the URL grammar, because it holds the scheme's "://" |
| HttpDevice.PostTarget | octopus_sensing/devices/network_devices/http_device.py:142-151 | as intended, the connection goes to the URL's host, which is a host of the grammar, and posts to a path that starts with a slash |
| HttpDevice.PostTargetOfParts | octopus_sensing/devices/network_devices/http_device.py:142-151 | for a URL written from its parts, the intended target gives back the host, the port's number and the path |
| HttpDevice.TargetsOfMatch | octopus_sensing/devices/network_devices/http_device.py:142-151 | as written the target is "<scheme>:<host>" and as intended it is the host, both with the same port and path |
| HttpDevice.LocalhostTarget | octopus_sensing/tests/test_http_network_device.py:51 | the test's URL "http://localhost:5003/" connects to "http://:localhost" as written and to "localhost" as intended, with a port, posting to "/" |
| HttpDevice.LocalhostMatch | octopus_sensing/tests/test_http_network_device.py:51 | the test's URL splits into "http://", "localhost", ":5003" and "/" |
| HttpDevice.RefusedTestUrls | octopus_sensing/tests/test_http_network_device.py:67-77 | the five URLs the test expects to be refused are refused |
| HttpDevice.RefusedFtp | octopus_sensing/tests/test_http_network_device.py:72-73 | "ftp://localhost:5003" matches, but with the scheme "ftp://" |
| HttpDevice.NonNumericPortTestUrl | octopus_sensing/tests/test_http_network_device.py:78-80 | "http://192.168.1.1:abc/" is accepted, its port is ignored and the post goes to "/" on that host |
| HttpDevice.AcceptedTestUrls | octopus_sensing/tests/test_http_network_device.py:82-93 | the URLs the test expects to be accepted are accepted |
| HttpDevice.TestUrlGroups | octopus_sensing/tests/test_http_network_device.py:84-92 | the groups used for the test's URLs write exactly those URLs |
| HttpDevice.MessageBody | octopus_sensing/devices/network_devices/http_device.py:130-132 | the body holds exactly the type and the two ids of the message, and not its payload |
| HttpDevice.BodyReachesEndpoint | octopus_sensing/device_message_endpoint.py:27-43 | posted to the library's own message endpoint, the body is dispatched exactly when its type is a string and its ids are None or strings, and then as the same message without its payload |
| HttpDevice.Posts | octopus_sensing/devices/network_devices/http_device.py:135-137 | a message is posted once to every endpoint, in the order of the endpoints |
| HttpDevice.Forwarded | octopus_sensing/devices/network_devices/http_device.py:117-127 | the loop sends every message that is not None, up to and including the first TERMINATE, and nothing of what follows it |
| HttpDevice.PostsOfAppend | octopus_sensing/devices/network_devices/http_device.py:117-137 | sending two runs of messages posts the first run's bodies, then the second's |
| HttpDevice.PostsOfLayout | octopus_sensing/devices/network_devices/http_device.py:117-137 | each forwarded message is posted once to every endpoint, after the messages before it and before those after it |
| HttpDevice.PostsOfLength | octopus_sensing/devices/network_devices/http_device.py:135-137 | the number of posts is the number of forwarded messages times the number of endpoints |
| HttpDevice.RunStep | octopus_sensing/devices/network_devices/http_device.py:118-127 | one turn of the loop: None is skipped, TERMINATE is posted and stops, any other message is posted and the loop goes on |
| HttpDevice.NothingAfterTerminate | octopus_sensing/devices/network_devices/http_device.py:126-127 | messages after the first TERMINATE are never sent |
| HttpDevice.NoneSkipped | octopus_sensing/devices/network_devices/http_device.py:121-122 | None messages are skipped and change nothing |
| HttpDevice.RunningStep | octopus_sensing/devices/network_devices/http_device.py:118-127 | taking one more message from the queue adds its posts, and a TERMINATE stops the loop |
| HttpDevice.RunningDone | octopus_sensing/devices/network_devices/http_device.py:117-127 | when the loop ends, every message it forwards has been posted, and it stopped exactly when a TERMINATE came |
| HttpDevice.HttpNetworkDevice.constructor | octopus_sensing/devices/network_devices/http_device.py:81-104 | a device built from endpoints that pass validation keeps them and has posted nothing |
| HttpDevice.HttpNetworkDevice.Create | octopus_sensing/devices/network_devices/http_device.py:81-104 | building a device fails exactly when validation raises |
| HttpDevice.HttpNetworkDevice.SendMessage | octopus_sensing/devices/network_devices/http_device.py:129-137 | sending a message adds exactly its posts, one per endpoint in order |
| HttpDevice.HttpNetworkDevice.Run | octopus_sensing/devices/network_devices/http_device.py:117-127 | the loop posts exactly what the forwarding specification gives, stops exactly when a TERMINATE came, right after taking it, and otherwise takes every message |
| Endpoints.Negotiate | octopus_sensing/common/endpoint_base.py:87-99 | pickle is chosen exactly when the Accept header is absent or mentions "pickle"; no format is chosen exactly when the header mentions none of "pickle", "json" and "msgpack" |
| Endpoints.JsonHeader | octopus_sensing/common/endpoint_base.py:90 | the header "application/json" selects JSON |
| Endpoints.MsgpackHeader | octopus_sensing/tests/test_device_message_endpoint.py:58 | the header "application/msgpack" selects msgpack |
| Endpoints.PickleWins | octopus_sensing/common/endpoint_base.py:88 | pickle wins wherever it appears in the header, even after JSON |
| Endpoints.UnknownFormat | octopus_sensing/common/endpoint_base.py:94-99 | a header that names no known format selects none |
| Endpoints.QueryParams | octopus_sensing/common/endpoint_base.py:72-76 | a GET without a query string passes an empty parameter map |
| Endpoints.GetClientErrorDropped | octopus_sensing/common/endpoint_base.py:78-85 | as written, a GET callback's client error is reported through a `message` attribute the exception does not have, so the connection is dropped; corrected, it is a 400 carrying the error's text |
| Endpoints.GetContract | octopus_sensing/common/endpoint_base.py:64-103 | without a GET callback the answer is 400 and nothing is called; with one, it is called exactly once with the parsed query, and the answer is 200 exactly when it returns and the Accept header names a known format, in which the response is serialised |
| Endpoints.PostContract | octopus_sensing/common/endpoint_base.py:105-149 | without a POST callback the answer is 400; a Content-Length that `int()` refuses drops the connection before the format is looked at; with a readable length an unknown format is a 400 and the body is not decoded nor the callback run; the callback runs only on a body that decodes; a client error is a 400 with its text; a 200 answers with the callback's result in the format the request was read in |
| Endpoints.BadContentLengthDropped | octopus_sensing/common/endpoint_base.py:112-124 | a Content-Length of "x" with an unknown format drops the connection with ValueError instead of answering 400 |
| Endpoints.Get | octopus_sensing/device_message_endpoint.py:32-33 | a missing key reads as None and a present key as its value |
| Endpoints.PostMessage | octopus_sensing/device_message_endpoint.py:26-52 | as intended, a body is dispatched exactly when it has a string type and its experiment and stimulus ids are None or strings, as the message of that type, payload and ids, answered "message dispatched"; every other body is a client error: without a type the "mandatory" error, and otherwise the first field of the wrong type, named with that value's Python class ("got '<class 'int'>'") |
| Endpoints.NumericStimulusIdAccepted | octopus_sensing/device_message_endpoint.py:41-43 | as written, the third check tests the type again, so a numeric stimulus id is dispatched; corrected, it is refused with the stimulus-id error |
| Endpoints.PostMessageAgrees | octopus_sensing/device_message_endpoint.py:35-52 | the written and the corrected checks agree on every body whose stimulus id is None or a string |
| Endpoints.DispatchedIffAccepted | octopus_sensing/device_message_endpoint.py:19-52 | a request is answered 200 "message dispatched", in the format of the request, exactly when one message is dispatched; with a readable Content-Length, a body without a type is answered 400 and dispatches nothing |
| Endpoints.AcceptsTheTestMessage | octopus_sensing/tests/test_device_message_endpoint.py:52-66 | the test's msgpack body with type "msg_type" and experiment "123", sent with a decimal Content-Length, is answered 200 and dispatched with no stimulus id and no payload |
| Endpoints.FirstOr | octopus_sensing/realtime_data_endpoint.py:28-30 | a missing parameter reads as its default, a present one as its first value, and an empty value list raises IndexError |
| Endpoints.EmptyQueryDefaults | octopus_sensing/realtime_data_endpoint.py:28-33 | a request without parameters asks for three seconds of every device |
| Endpoints.QueryRoundTrip | octopus_sensing/realtime_data_endpoint.py:28-33 | a duration written in decimal is read back, and the device names come back in order: joined with commas they give the list sent |
| Endpoints.BadDuration | octopus_sensing/realtime_data_endpoint.py:28 | the duration "x" is not a number and raises ValueError |
| Endpoints.BadDurationDropped | octopus_sensing/realtime_data_endpoint.py:28 | a duration that is not a number fails the callback with ValueError, so the connection is dropped |
| Common.PyIntOfGrouped | octopus_sensing/realtime_data_endpoint.py:28 | int() reads decimal digits separated by single underscores as the digits without the underscores |
| Common.PyIntOfBadGrouping | octopus_sensing/realtime_data_endpoint.py:28 | int() raises ValueError on digits with an underscore at either end or two underscores in a row |
| Common.UnderscoreExample | octopus_sensing/realtime_data_endpoint.py:28 | int('1_5') is 15 |
| Common.DoubledUnderscoreExample | octopus_sensing/realtime_data_endpoint.py:28 | int('1__0') raises ValueError |
| Questionnaires.Added | octopus_sensing/questionnaire/questionnaire.py:94-106 | as the guard's message intends, a question is appended exactly when no question in the questionnaire has its id; otherwise RuntimeError is raised |
| Questionnaires.DuplicateAcceptedAsWritten | octopus_sensing/questionnaire/questionnaire.py:103-106 | as written, the guard compares the id with Question objects and never fires: a question whose id is taken is appended, leaving two questions with one id, where the intended guard raises RuntimeError |
| Questionnaires.AddedKeepsIdsDistinct | octopus_sensing/questionnaire/questionnaire.py:103-106 | adding a question keeps the ids of the questionnaire distinct |
| Questionnaires.AddedAllPrefix | octopus_sensing/questionnaire/questionnaire.py:108-119 | as intended, with the duplicate guard working, `add_questions` appends a prefix of the given questions, in order, stops short exactly when a question raises, and keeps the ids distinct |
| Questionnaires.AddedAllInOrder | octopus_sensing/questionnaire/questionnaire.py:108-119 | questions whose ids are distinct from each other and from those present are all appended, in order, without error |
| Questionnaires.Ids | octopus_sensing/questionnaire/questionnaire.py:164-166 | the ids are those of the questions, one per question, in order |
| Questionnaires.Answers | octopus_sensing/questionnaire/questionnaire.py:172-174 | the answers are those of the questions, one per question, in order |
| Questionnaires.HeaderOf | octopus_sensing/questionnaire/questionnaire.py:164-166 | the header loop builds "stimulus ID" followed by each question's id |
| Questionnaires.RowOf | octopus_sensing/questionnaire/questionnaire.py:172-174 | the row loop builds the stimulus id followed by each question's answer |
| Questionnaires.SaveAppendsOneRow | octopus_sensing/questionnaire/questionnaire.py:154-178 | saving touches only `<output>/<name>-<experiment>.csv`; the file gains exactly one row, the answers, after the header exactly when the file was new |
| Questionnaires.RowMatchesHeader | octopus_sensing/questionnaire/questionnaire.py:162-174 | the answer row lines up with the header: the same length, the stimulus id under "stimulus ID", and question k's answer under its id |
| Questionnaires.TwoSavesOneHeader | octopus_sensing/questionnaire/questionnaire.py:158-178 | two questionnaires of the same name and experiment saved one after the other share one file: one header, then both answer rows in order |
| Questionnaires.Questionnaire.constructor | octopus_sensing/questionnaire/questionnaire.py:81-92 | a new questionnaire keeps its name, experiment, stimulus and output path and has no questions |
| Questionnaires.Questionnaire.AddQuestion | octopus_sensing/questionnaire/questionnaire.py:94-106 | adding a question changes the list as the intended guard specifies, and leaves it as it was when it raises |
| Questionnaires.Questionnaire.AddQuestions | octopus_sensing/questionnaire/questionnaire.py:108-119 | adding questions gives the list and the error the specification of `add_questions` gives |
| Questionnaires.Questionnaire.SaveAnswers | octopus_sensing/questionnaire/questionnaire.py:154-178 | saving builds the header and the row question by question and leaves the files as the saving specification gives |
| UnityClient.UrlPort | examples/endpoint_unity_example/requestController.cs:74 | the client posts to "http://127.0.0.1:9331", the device-message endpoint's default port |
| UnityClient.TypeOf | examples/endpoint_unity_example/requestController.cs:21-55 | the start button sends START, the stop button STOP and the terminate button TERMINATE, and no other button sends these |
| UnityClient.BodyFields | examples/endpoint_unity_example/requestController.cs:66-72 | every body has at least one member |
| UnityClient.SkipSpace | octopus_sensing/common/endpoint_base.py:117-118 | skipping whitespace never lengthens the text |
| UnityClient.StringToken | octopus_sensing/common/endpoint_base.py:117-118 | reading a string token consumes part of the text |
| UnityClient.MemberAt | octopus_sensing/common/endpoint_base.py:117-118 | reading a member consumes part of the text |
| UnityClient.AsBody | octopus_sensing/device_message_endpoint.py:26 | the decoded object reaches the endpoint's callback with the same keys, each value a string |
| UnityClient.StringRestOf | examples/endpoint_unity_example/requestController.cs:66 | a quoted string without quotes, backslashes or control characters reads back as itself |
| UnityClient.MemberOf | examples/endpoint_unity_example/requestController.cs:66 | a member written as `"key":"value"` reads back as its key and value |
| UnityClient.MembersReadBack | examples/endpoint_unity_example/requestController.cs:66 | members written without escapes read back as the object they make, later keys overriding earlier ones |
| UnityClient.ObjectReadsBack | examples/endpoint_unity_example/requestController.cs:66 | an object written without escapes reads back as the object its members make |
| UnityClient.BodyReadsBack | examples/endpoint_unity_example/requestController.cs:62-72 | read back, a START or STOP body of plain ids holds exactly the type and the two ids, and the TERMINATE body only its type |
| UnityClient.QuoteEndsValue | examples/endpoint_unity_example/requestController.cs:66 | a value holding a quote ends at that quote, and unless a comma, a closing brace or a space follows it the members cannot be read |
| UnityClient.QuoteBreaksBody | examples/endpoint_unity_example/requestController.cs:66 | the ids are not escaped, so an experiment id with a quote not followed by a comma, a brace or a space makes the body unreadable JSON (section 7 of RFC 8259) |
| UnityClient.QuoteInjectsType | examples/endpoint_unity_example/requestController.cs:66 | the missing escape lets the experiment id `e","type":"x` turn the body into one whose type is `x`, since the last "type" member wins |
| UnityClient.RequestReadsBack | examples/endpoint_unity_example/requestController.cs:62-72 | each button's body reads back as the object it stands for |
| UnityClient.Dispatched | examples/endpoint_unity_example/requestController.cs:28-55 | the message a button's press leads to is of the button's type |
| UnityClient.EndpointDispatches | examples/endpoint_unity_example/requestController.cs:62-85 | every request is a POST to the endpoint's URL asking for JSON; with a decimal Content-Length, a body decoded as sent passes the endpoint's checks, is answered 200 "message dispatched" in JSON, and the endpoint dispatches exactly the button's message |
| UnityClient.FieldsAccepted | octopus_sensing/device_message_endpoint.py:26-52 | the object a button's body decodes to passes the endpoint's checks and yields the button's message |
| UnityClient.ButtonsSendDistinctBodies | examples/endpoint_unity_example/requestController.cs:62-72 | different buttons send different bodies |
| UnityClient.PressLog | examples/endpoint_unity_example/requestController.cs:30-95 | a press logs two lines: "<TYPE> PRESSED", then "Form upload complete!" on success or the request's error |
| UnityClient.RequestController.constructor | examples/endpoint_unity_example/requestController.cs:15-16 | a new controller holds experiment "00" and stimulus "10" and has sent and logged nothing |
| UnityClient.RequestController.Press | examples/endpoint_unity_example/requestController.cs:28-96 | a press sends exactly one request of the button's type, with the JSON headers, and logs the press and its outcome, without retrying |
| PreprocessUtils.Columns | octopus_sensing/preprocessing/utils.py:31 | one slice row[lo:hi] per input row, in input order |
| PreprocessUtils.ReadRows | octopus_sensing/preprocessing/utils.py:26-32 | succeeds exactly when every row reaches the time column, raising IndexError otherwise; the data is the channel slice of each row and the times are the time cells, in order |
| PreprocessUtils.LoadAllSamples | octopus_sensing/preprocessing/utils.py:20-34 | the loop skips the header row and returns what ReadRows gives for the remaining rows |
| PreprocessUtils.UntimedRow | octopus_sensing/preprocessing/utils.py:32 | one data row shorter than the time column makes the whole load raise IndexError |
| PreprocessUtils.ReadOneMore | octopus_sensing/preprocessing/utils.py:31-32 | reading one more data row appends its channel slice and its time cell to what was already read |
| PreprocessUtils.LoadAllTrials | octopus_sensing/preprocessing/utils.py:37-72 | the row loop returns exactly the trials, times and numbers that the trial state machine LoadedTrials gives |
| PreprocessUtils.LoadedTrialsAligned | octopus_sensing/preprocessing/utils.py:63-66 | the three returned lists have equal length, and each trial has one time per row |
| PreprocessUtils.BadTrialNumberRaises | octopus_sensing/preprocessing/utils.py:54-58 | a non-empty trigger cell whose last two characters are not an integer raises ValueError, for START, STOP or any other action |
| PreprocessUtils.IdleRowsIgnored | octopus_sensing/preprocessing/utils.py:54-71 | rows with no trigger, read while no trial is open, leave the state unchanged |
| PreprocessUtils.OpenRowsBuffered | octopus_sensing/preprocessing/utils.py:69-71 | rows with no trigger, read while a trial is open, are appended in order to its data and time buffers |
| PreprocessUtils.OneTrial | octopus_sensing/preprocessing/utils.py:59-71 | START, then untriggered rows, then STOP add one trial holding the START row and the rows between (not the STOP row), numbered from the STOP trigger's last two characters, and empty the buffers |
| PreprocessUtils.OpenTrial | octopus_sensing/preprocessing/utils.py:59-71 | a START row followed by untriggered rows leaves a trial open that buffers all of them |
| PreprocessUtils.TrailingStartDropped | octopus_sensing/preprocessing/utils.py:59-72 | a START with no later STOP adds nothing to the returned trials, times or numbers |
| PreprocessUtils.LoadedOneTrial | octopus_sensing/preprocessing/utils.py:37-72 | a file made of a header, untriggered rows, START, untriggered rows and STOP loads as exactly one trial with those rows, their times and the STOP's number |
| PreprocessUtils.TrialsAppend | octopus_sensing/preprocessing/utils.py:50-71 | the state machine run over two consecutive stretches of rows equals running it over the first stretch, then the second |
| PreprocessUtils.ToTimes | octopus_sensing/preprocessing/utils.py:75-89 | succeeds exactly when every cell converts; the result then has the same length, with entry i the conversion of cell i |
| PreprocessUtils.TrialTimes | octopus_sensing/preprocessing/utils.py:64-65 | on success, one converted time list per trial, each what ToTimes gives for that trial's cells |
| PreprocessUtils.WriteEachTrial | octopus_sensing/preprocessing/openbci.py:110-132 | the counted loop over trials writes the files of EachTrial: each trial's files in trial order, stopping at the first failure |
| PreprocessUtils.EachTrialStops | octopus_sensing/preprocessing/openbci.py:110-132 | a trial that fails ends the loop with its error, and no later trial is written |
| PreprocessUtils.EachTrialSingles | octopus_sensing/preprocessing/openbci.py:110-132 | when each trial writes one file, the loop succeeds exactly when every trial does, and it then writes n files, file i belonging to trial i |
| PreprocessUtils.EachTrialPairs | octopus_sensing/preprocessing/shimmer3.py:104-140 | when each trial writes two files, the loop succeeds exactly when every trial does, and it then writes 2n files, with trial i's at 2i and 2i+1 |
| PreprocessUtils.TrialFileNumber | octopus_sensing/preprocessing/openbci.py:112-115 | for trials 0 to 99, the two characters before ".csv" in the trial's file name read back as the trial number |
| PreprocessUtils.TrialFilesDistinct | octopus_sensing/preprocessing/openbci.py:112-115 | different trial numbers give different file names |
| PreprocessUtils.Pad | octopus_sensing/preprocessing/utils.py:104-107 | a block shorter than the rate is lengthened to exactly the rate, and a longer one is left alone; the block stays a prefix, the last item stays last, and every item comes from the block |
| PreprocessUtils.PadStep | octopus_sensing/preprocessing/utils.py:107 | one pass of the padding loop lengthens the block without passing the rate, using copies of its own last items |
| PreprocessUtils.PadBlock | octopus_sensing/preprocessing/utils.py:104-107 | the in-place padding loop produces Pad's block |
| PreprocessUtils.Fit | octopus_sensing/preprocessing/utils.py:104-110 | a block closed at a one-second boundary ends with exactly `rate` items: a long block is cut to its first `rate` items, a short one keeps its items as a prefix, and nothing foreign is added |
| PreprocessUtils.FitBlock | octopus_sensing/preprocessing/utils.py:104-110 | the pad-or-cut branch produces Fit's block |
| PreprocessUtils.FeedItem | octopus_sensing/preprocessing/utils.py:102-115 | one pass of the loop body closes the block past a one-second boundary, restarting the window at start + blocks * 1 s, then buffers the item |
| PreprocessUtils.CloseLast | octopus_sensing/preprocessing/utils.py:116-122 | as intended (see Findings), the last block is fitted and appended only when it holds more than rate/2 items |
| PreprocessUtils.Resample | octopus_sensing/preprocessing/utils.py:92-123 | as intended (see Findings), the loop returns Resampled: windows of one second, each fitted to the rate, and the last kept only when more than half full |
| PreprocessUtils.WindowsCount | octopus_sensing/preprocessing/utils.py:102-113 | after any number of items, the output holds rate items per closed block |
| PreprocessUtils.ResampledWholeSeconds | octopus_sensing/preprocessing/utils.py:92-123 | the resampled output always holds a whole number of seconds: its length is a multiple of the rate |
| PreprocessUtils.ResampledItems | octopus_sensing/preprocessing/utils.py:92-123 | resampling only repeats or drops samples: every output sample is an input sample |
| PreprocessUtils.FirstSecond | octopus_sensing/preprocessing/utils.py:102-114 | items within one second of the first time stay together in the first, still-open block |
| PreprocessUtils.OneSecondOfData | octopus_sensing/preprocessing/utils.py:116-122 | as intended (see Findings), data spanning at most one second gives exactly `rate` samples when it holds more than rate/2 items, and nothing otherwise |
| PreprocessUtils.NoTimesRaises | octopus_sensing/preprocessing/utils.py:95 | an empty time list raises IndexError, even with no data |
| PreprocessUtils.LastBlockNotCut | octopus_sensing/preprocessing/utils.py:116-122 | as written, more than `rate` items within the last second are returned whole, whereas cutting them gives exactly the first `rate` |
| PreprocessUtils.OneSecondAsWritten | octopus_sensing/preprocessing/utils.py:116-122 | as written, a single second holding more than rate/2 items comes out padded but not cut |
| PreprocessUtils.AsWrittenAgrees | octopus_sensing/preprocessing/utils.py:116-122 | the code as written and the corrected resample agree whenever the last block holds at most `rate` items |
| OpenBciPreprocess.LayoutOf | octopus_sensing/preprocessing/openbci.py:66-108 | 8 and 16 channels, and only those, choose a layout: channels in columns 0 to n-1, time stamp in column n+4 and trigger in column n+5 |
| OpenBciPreprocess.LayoutMatchesHeader | octopus_sensing/preprocessing/openbci.py:66-108 | the chosen columns are the ones the OpenBCI recorder's header gives to the channel names, "time stamp" and "trigger" |
| OpenBciPreprocess.Preprocess | octopus_sensing/preprocessing/openbci.py:65-134 | with the corrected resample, the method, trial loop and counter included, returns Preprocessed: the files written, each a row of channel names and the resampled rows, or the exception raised, ValueError when a resample is empty |
| OpenBciPreprocess.UnknownModeRaises | octopus_sensing/preprocessing/openbci.py:133-134 | a saving mode that is neither separated nor continuous raises Exception |
| OpenBciPreprocess.OtherChannelCountsRaise | octopus_sensing/preprocessing/openbci.py:66-108 | with either known mode, a channel count other than 8 or 16 fails on the unbound data |
| OpenBciPreprocess.SeparatedKeepsName | octopus_sensing/preprocessing/openbci.py:65-92 | with the corrected resample, separated mode writes a single file, "<output>/<file name>", holding the channel names and then one or more whole seconds of resampled rows |
| OpenBciPreprocess.ShortRecordingRaises | octopus_sensing/preprocessing/openbci.py:82-91 | a separated recording whose samples all lie within one second and number at most half the rate resamples to nothing, and the data frame raises ValueError |
| OpenBciPreprocess.OneFilePerTrial | octopus_sensing/preprocessing/openbci.py:94-132 | with the corrected resample, continuous mode writes one file per loaded trial, in trial order, named "<output>/<stem>-<two-digit trial>.csv", each holding the channel names and then one or more whole seconds |
| OpenBciPreprocess.TrialFileHolds | octopus_sensing/preprocessing/openbci.py:111-131 | a trial that does not raise gives one file named after its number, holding the channel names and then one or more whole seconds |
| BrainFlowPreprocess.LayoutOf | octopus_sensing/preprocessing/openbci_brainflow.py:64-98 | 8 and 16 channels, and only those, choose a layout: channels in columns 1 to n and the trigger in column n+18 |
| BrainFlowPreprocess.WholeSecondsCut | octopus_sensing/preprocessing/openbci_brainflow.py:75 | the cut fails exactly when the rate is 0; otherwise it keeps a prefix whose length is a multiple of the rate and drops less than one second |
| BrainFlowPreprocess.Preprocess | octopus_sensing/preprocessing/openbci_brainflow.py:63-123 | as intended (see Findings), with the 16-channel separated data cut like the 8-channel data: the method, trial loop and counter included, returns Preprocessed: the files written, or the exception raised |
| BrainFlowPreprocess.UnknownModeRaises | octopus_sensing/preprocessing/openbci_brainflow.py:122-123 | a saving mode that is neither separated nor continuous raises Exception |
| BrainFlowPreprocess.SeparatedKeepsName | octopus_sensing/preprocessing/openbci_brainflow.py:63-85 | as intended (see Findings): separated mode fails exactly when the rate is 0; otherwise it writes a single file, "<output>/<file name>", holding a row of channel names and then the channel columns cut to whole seconds |
| BrainFlowPreprocess.OneFilePerTrial | octopus_sensing/preprocessing/openbci_brainflow.py:87-121 | continuous mode writes one file per loaded trial, in trial order, named after the trial number and holding a row of channel names and then that trial cut to whole seconds |
| BrainFlowPreprocess.SixteenChannelsLost | octopus_sensing/preprocessing/openbci_brainflow.py:69-85 | as written, the trailing comma makes the 16-channel data a 1-tuple, which the cut empties for any rate of 2 or more; the intended file holds the channel names and all but less than a second of the rows |
| Shimmer3Preprocess.LayoutMatchesHeader | octopus_sensing/preprocessing/shimmer3.py:62-102 | columns 5-6, 7 and 8 are the recorder header's "GSR_ohm" and "PPG_mv", "time" and "trigger" |
| Shimmer3Preprocess.Preprocess | octopus_sensing/preprocessing/shimmer3.py:61-142 | with the corrected resample, the method, trial loop and counter included, returns Preprocessed: the files written, or the exception raised, IndexError when a resample is empty |
| Shimmer3Preprocess.UnknownModeRaises | octopus_sensing/preprocessing/shimmer3.py:141-142 | a saving mode that is neither separated nor continuous raises Exception |
| Shimmer3Preprocess.PathJoinSplit | octopus_sensing/preprocessing/shimmer3.py:80-86 | os.path.join puts a separator between directory and name unless the directory is empty or already ends in "/" |
| Shimmer3Preprocess.GsrPpgDiffer | octopus_sensing/preprocessing/shimmer3.py:80-121 | a GSR file and a PPG file never have the same path |
| Shimmer3Preprocess.SeparatedPair | octopus_sensing/preprocessing/shimmer3.py:61-92 | with the corrected resample, separated mode writes exactly two files, "gsr/gsr<name>" then "ppg/ppg<name>", where <name> is the file name without its first seven characters; the two paths differ and both files hold the same one or more whole seconds of samples |
| Shimmer3Preprocess.SeparatedFilesHold | octopus_sensing/preprocessing/shimmer3.py:68-92 | a separated recording that does not raise gives the GSR file and the PPG file, each holding one or more whole seconds |
| Shimmer3Preprocess.ShortRecordingRaises | octopus_sensing/preprocessing/shimmer3.py:68-78 | a separated recording whose samples all lie within one second and number at most half the rate resamples to nothing, and taking its GSR column raises IndexError |
| Shimmer3Preprocess.TwoFilesPerTrial | octopus_sensing/preprocessing/shimmer3.py:94-140 | with the corrected resample, continuous mode writes a GSR file and a PPG file per trial, in trial order, both named after the trial number and holding the same one or more whole seconds |
| Shimmer3Preprocess.TrialFilesHold | octopus_sensing/preprocessing/shimmer3.py:104-139 | a trial that does not raise gives its GSR and PPG files, named after its number and each holding one or more whole seconds |
| Shimmer3Preprocess.TrialFilesDistinct | octopus_sensing/preprocessing/shimmer3.py:109-113 | different trial numbers give different GSR file names |
| TrialTriggers.TriggerReadBack | octopus_sensing/devices/testdevice_streaming.py:158-172 | a trigger "<type>-<experiment>-<two digits>" written by a recorder reads back through load_all_trials with the first four characters of its type as the action and the stimulus id as the trial number |
| TrialTriggers.RecordedTrialRead | octopus_sensing/preprocessing/utils.py:37-72 | a continuous-mode recording with one START and one STOP for the same stimulus loads as exactly one trial: the rows from START up to, but not including, STOP, numbered with that stimulus id |

## Left out

- Hardware and transport: the serial port, sockets, `http.client`, pylsl, BrainFlow's `BoardShim`, the Tobii controller, miniaudio, cv2 capture and writing, pyOpenBCI and UnityWebRequest. Bytes, samples, frames and replies are method inputs, and what is sent or written is a ghost log.
- Concurrency: the device processes, the queues between them and the streaming threads. The message loop and the stream loop are modelled as sequential calls, so interleavings and the unlocked sharing of the trigger and buffer fields are not captured.
- Floating point: the GSR ohm and PPG mV conversion, OpenBCI's microvolt and G scaling, the Skinos division by 500, and the camera's frame-rate division. Python's `int(i/time_diff)` is modelled as integer division truncated toward zero, with capture times in microseconds. The filters in `clean_eeg`, `clean_gsr` and `clean_ppg` are left out too: preprocessing outputs hold the resampled or cut rows, as with `signal_preprocess=False`.
- Type conversions: float32 and numpy arrays, CSV quoting, and directory creation. Rows are sequences of cell strings, and files are maps from path to rows. Of pandas, the model keeps the row of column names that `to_csv` writes first and the ValueError of a frame built from an empty resample; the index is not written (`index=False`), as in the model.
- PreprocessUtils.ToTimes: `strptime` with its three formats is the `clock` parameter, so date parsing and the choice among the formats are not modelled.
- BrainFlowPreprocess.Preprocess: `load_all_samples_without_time` and `load_all_trials_without_time` do not exist in octopus_sensing/preprocessing/utils.py, so the import fails as written. The model gives them the meaning of `load_all_samples` and `load_all_trials` without a time column. It also cuts the 16-channel separated data like the 8-channel data, where the trailing comma at octopus_sensing/preprocessing/openbci_brainflow.py:70-75 makes it a 1-tuple that the cut empties (SeparatedSixteenAsWritten, SixteenChannelsLost).
- PreprocessUtils.Resample: the loop closes the last block with `Fit`, cutting it to the rate when it is too long, as the corrected `Resampled` does. The code as written only pads that block (`ResampledAsWritten`). The two agree whenever the last window holds at most `rate` samples (`AsWrittenAgrees`).
- PreprocessUtils.CloseLast: fits the kept last block to the rate. As written, utils.py:116-122 pads it when short and keeps it whole when long.
- PreprocessUtils.OneSecondOfData: states the corrected resample. As written, more than `rate` samples within one second come out unchanged (`LastBlockNotCut`); `OneSecondAsWritten` states the padding case of the code as written.
- OpenBciPreprocess.Preprocess: built on the corrected resample. As written, a file or trial whose last window holds more than `rate` samples keeps all of them.
- OpenBciPreprocess.SeparatedKeepsName: the whole number of seconds holds for the corrected resample only. As written, the output can be longer than a whole number of seconds.
- OpenBciPreprocess.OneFilePerTrial: the whole number of seconds per file holds for the corrected resample only, as for `SeparatedKeepsName`.
- Shimmer3Preprocess.Preprocess: built on the corrected resample, like `OpenBciPreprocess.Preprocess`.
- Shimmer3.ClockWait: the divider is the exact ceiling of 32768 / rate. In the source the quotient is a float, and for a rate so large (beyond about 10^327) that it underflows to 0.0 the divider sent is 0, where the model gives 1.
- Coordinator.DeviceCoordinator.GetMonitoringData: the method takes one `now` for both the cache-lifetime check and the new cache stamp. The source calls `time.time()` for each, microseconds apart, which the model does not distinguish.
- Tobii.ToCell: a nested list or dictionary left in a flattened gaze record becomes an empty cell. csv writes Python's `str()` text of such a value, which is not modelled.
- Camera.CameraSource: a camera path is kept as the string the device was given. The `os.path.realpath` at octopus_sensing/devices/camera_streaming.py:97 is not modelled, so symbolic links and relative segments are not resolved.
- Audio.Words, Shimmer3.U16: two-byte words are read little-endian. The source uses the machine's native byte order (numpy `int16` buffers and `struct.unpack('HHHHH', ...)` at octopus_sensing/devices/shimmer3_streaming.py:334), which is little-endian on the platforms the package targets.
- Serialisation: pickle, json, msgpack and the numpy encoders are parameters of the endpoint. Only the choice of format, the status codes and the dictionary passed in or out are modelled.
- The JSON reader in `unity_client.dfy` handles only what the client writes: objects whose members are strings without escapes.
- Endpoints.RealtimeQuery: only the query defaults and parsing are modelled. The forwarded call, `get_realtime_data(duration, device_list)` on the coordinator, does not exist in octopus_sensing/device_coordinator.py.
- The GTK windows, question rendering and stimuli; the example scenarios apart from the Unity client; and the top-level scripts.
- Superseded duplicate device files that the package does not export, and the directory-walking scripts `preprocess_devices.py` and `audiovideo_split.py`.
- The two long IPv6 URLs of the HTTP device's test are stated only by the shape of their groups, not character by character.
- `https://` endpoints are posted with a plain HTTP connection in the source. The model keeps the scheme as a string and does not model TLS.

## Findings

| source | as written | input that shows it | evidently intended | confidence | as-written member | corrected member |
|---|---|---|---|---|---|---|
| octopus_sensing/preprocessing/utils.py:116-122 | the kept last block is padded when short but never cut when long | three samples within one second at rate 2 come out as three samples | the last block is fitted like every other, so the output length is a multiple of the rate | not executed | PreprocessUtils.ResampledAsWritten, PreprocessUtils.LastBlockNotCut | PreprocessUtils.Resampled, PreprocessUtils.ResampledWholeSeconds |
| octopus_sensing/preprocessing/openbci_brainflow.py:70-75 | a trailing comma makes the 16-channel data a 1-tuple, and the whole-second cut empties it | any 16-channel separated file at the default rate 125 gives an empty output | the 16-channel rows, cut to whole seconds | not executed | BrainFlowPreprocess.SeparatedSixteenAsWritten, BrainFlowPreprocess.SixteenChannelsLost | BrainFlowPreprocess.SeparatedFile, BrainFlowPreprocess.SeparatedKeepsName |
| octopus_sensing/devices/network_devices/http_device.py:148 | the connection target is scheme and host joined with ':', and the scheme group already holds "://" | "http://localhost:5003/" connects to "http://:localhost" | connect to the host alone, with the port | not executed | HttpDevice.PostTargetAsWritten, HttpDevice.ConnectToIsNoHost | HttpDevice.PostTarget, HttpDevice.PostTargetOfParts |
| octopus_sensing/questionnaire/questionnaire.py:103-106 | the duplicate guard looks up a string id in a list of Question objects and never fires | adding two questions with the id "q1" keeps both | a taken id raises RuntimeError | not executed | Questionnaires.AddedAsWritten, Questionnaires.DuplicateAcceptedAsWritten | Questionnaires.Added, Questionnaires.AddedKeepsIdsDistinct |
| octopus_sensing/device_message_endpoint.py:41-43 | the stimulus-id check tests the message type again | a body {"type": "START", "stimulus_id": 3} is dispatched | a stimulus id that is neither None nor a string is refused | not executed | Endpoints.PostMessageAsWritten, Endpoints.NumericStimulusIdAccepted | Endpoints.PostMessage |
| octopus_sensing/common/endpoint_base.py:80-85 | a GET callback's client error is reported through `client_error.message`, which Python 3 exceptions do not have | a GET whose callback raises EndpointClientError drops the connection | answer 400 with the error's text | not executed | Endpoints.HandleGetAsWritten, Endpoints.GetClientErrorDropped | Endpoints.HandleGet, Endpoints.GetContract |
| octopus_sensing/devices/network_devices/socket_device.py:141-143 | each send appends "\n" to the stored trigger itself | with two clients, the second receives the trigger followed by two newlines | every client receives the trigger and one newline | not executed | SocketDevice.BroadcastAsWritten, SocketDevice.AsWrittenNewlines | SocketDevice.Broadcast, SocketDevice.EachClientOneLine |
| octopus_sensing/devices/open_vibe_streaming.py:59-65 | the loop reads `message.subject_id`, which Message does not define, and stops only on a lower-case "terminate" | the first START message ends the device with AttributeError before any tag is sent | send one tag per message, and stop on the coordinator's "TERMINATE" | not executed | OpenVibe.VibeRunAsWritten, OpenVibe.NothingSentAsWritten, OpenVibe.TerminateMessageIgnoredAsWritten | OpenVibe.VibeRun, OpenVibe.OneTagPerTrigger |
