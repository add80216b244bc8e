# battor firmware: control state machine and sample pipeline

This is a Dafny model of two pieces of the battor power-monitor firmware.

- **fw/control.c** is the device's mode state machine. It holds the mode (USB idle, USB store, portable idle, portable store, stream), the amplifier gain, the `inited` flag and the last-error slot.
  - It runs host commands and decides from each command's result whether the short ack is sent.
  - It stops sampling, and it reacts to a button press and a button hold.
- **fw/samples.c** is the sample pipeline. It holds the per-session state: the calibration flag, the host-link sequence number, the storage block index and the outstanding-write flag.
  - The producer pushes acquired samples into the ring buffer.
  - Two polled drains take bytes out of it. One builds host-link frames {seqnum u32, length u16, payload}. The other runs a two-phase, non-blocking storage block write.

Layout:

- `common.dfy` (module `Common`) holds the machine integers, the truncating conversions and the little-endian memory image of `uint16_t`/`uint32_t`. It also holds the device's terminal states: `halt` and `reset` never return, so they are a `Status`.
- `samples.dfy` (module `Samples`) holds:
  - the spec functions `UartStep` and `StoreStep`, and their iterations `UartRun` and `StoreRun`, with lemmas over any number of polls;
  - class `Pipeline`, whose methods update the static state in place. Each method is proved equal to its spec function.
- `control.dfy` (module `Control`) holds:
  - the spec functions `Stop`, `Run`, `Press` and `Hold` on a value of the control registers, with one lemma per command;
  - class `Controller`, whose methods update the globals in place and are proved equal to those functions. It drives a `Samples.Pipeline`.

External effects are kept in ghost logs, in order. In `Controller` they are strobe counts, sampling start and stop, `fs_format`, `fs_open`, `timer_rtc_set`, typed replies, acks and rx flushes. In `Pipeline` they are the frames handed to the link, the block writes started and the `sd_write_block_update` calls.

What code outside these two files answers is a parameter:

- `uart_tx_ready`;
- the results of `fs_format`, `fs_open` and `fs_rtc_get`;
- the self tests;
- `sd_write_block_update`;
- `g_fs_file_seq`.

`uart_tx_ready` and `sd_write_block_update` are the `txReady` and `update` parameters of `Samples.Pipeline.UartWrite` and `Samples.Pipeline.StoreWrite`. The rest are gathered in `Control.Env`. The ring buffer is an abstract byte queue: a read of `n` bytes hands out exactly the oldest `n` bytes and removes them, or fails and changes nothing. A write fails when the capacity would be exceeded.

The build constants `SAMPLES_LEN`, `sizeof(sample)`, `SD_BLOCK_LEN` and `SRAM_SIZE_BYTES` are parameters of the `Pipeline` constructor. Integer widths are written out: the gain keeps the low byte of `value1`, and each self-test `int` is stored in an `int8_t`. A new session (`samples_start`) keeps `sd_block_idx` and `sd_write_in_progress` as they were, and the block index counts up when a block write starts, not when it completes; the model follows the code in both. These counters wrap:

- `g_fs_file_seq + 1`, `uart_seqnum` and `sd_block_idx` wrap modulo 2^32;
- the byte count `len * sizeof(sample)` wraps modulo 2^16.

## Model

| member | source | states |
|---|---|---|
| Common.Inc32 | fw/samples.c:123 | `x++` on a `uint32_t`: one more, or 0 after the largest value |
| Common.ToU8 | fw/control.c:88 | storing into a `uint8_t` keeps the value modulo 256, and values already in range unchanged |
| Common.ToI8 | fw/control.c:169 | storing an `int` into an `int8_t` keeps it modulo 256 in [-128, 127], and values already in range unchanged |
| Common.LE32RoundTrip | fw/samples.c:104-106 | the four bytes `memcpy` takes from a `uint32_t` read back as the same number |
| Common.LE32Inverse | fw/samples.c:104-106 | every four bytes are the image of exactly one `uint32_t` |
| Common.LE16RoundTrip | fw/samples.c:110-112 | the two bytes of a `uint16_t` read back as the same number |
| Common.LE16Inverse | fw/samples.c:110-112 | every two bytes are the image of exactly one `uint16_t` |
| Samples.Frame | fw/samples.c:103-118 | a frame is 6 header bytes followed by exactly the payload |
| Samples.ParseFrame | fw/samples.c:103-118 | a byte string splits into fields iff it holds a whole header, and the payload is what follows the header |
| Samples.FrameRoundTrip | fw/samples.c:103-118 | a frame parses back to its seqnum, length and payload |
| Samples.ParseFrameInverse | fw/samples.c:103-118 | every byte string with a whole header is the frame of what it parses to |
| Samples.UartStep | fw/samples.c:94-124 | nothing is sent iff tx is not ready or less than a frame's payload is buffered, and then the state is unchanged. Otherwise the frame is {old seqnum, n, first n buffered bytes}, those bytes leave the queue, the seqnum goes up by one and the storage fields are kept |
| Samples.UartRunFrames | fw/samples.c:94-124 | over any number of polls, the seqnum moves by exactly the number of frames sent (mod 2^32), the frames carry consecutive numbers, and the storage drain is untouched |
| Samples.UartRunFrameNumbers | fw/samples.c:104-123 | the k-th frame sent is 6 + n bytes long and parses to seqnum start + k (mod 2^32) and length n |
| Samples.UartRunPayloads | fw/samples.c:116-120 | the payloads sent, concatenated, followed by the remaining queue, are the original queue: no byte is lost or repeated |
| Samples.StoreStep | fw/samples.c:126-148 | with a write in progress, only the update runs, and the flag stays set iff the update returns < 0. When idle: nothing happens iff less than a block is buffered. Otherwise a block write always starts: it holds the first block's bytes and goes to the current index. The index goes up by one at the start, and in-progress is set. The outcome is a continued write iff a write was in progress |
| Samples.StoreRunIndices | fw/samples.c:141-146 | over any number of polls, the blocks start at consecutive indices from the current one, each one block long, and the index moves by the number of blocks started |
| Samples.StoreRunBlockIndex | fw/samples.c:145 | the k-th block started goes to index start + k (mod 2^32) |
| Samples.StoreRunBalance | fw/samples.c:133-146 | blocks started + outstanding before = writes completed + outstanding after, so a second block never starts while one is outstanding |
| Samples.StoreRunData | fw/samples.c:141-145 | the blocks written, concatenated, followed by the remaining queue, are the original queue |
| Samples.CopyBytes | fw/samples.c:104-113 | `memcpy` into a buffer at an offset: those bytes become the source and every other byte is kept |
| Samples.Pipeline.constructor | fw/samples.c:22-31 | `samples_init`: the ring buffer is empty, the seqnum, the block index, the calibrated flag and the in-progress flag are all zero, and the amplifier gain is left as given |
| Samples.Pipeline.Start | fw/samples.c:33-53 | `samples_start`: calibrated and seqnum go back to 0 and the gain to the calibration setting. The block index, the in-progress flag, the buffered bytes and the logs are unchanged |
| Samples.Pipeline.EndCalibration | fw/samples.c:55-66 | calibrated becomes 1 and the control gain is applied; nothing else changes |
| Samples.Pipeline.RingbufWrite | fw/samples.c:68-92 | exactly `len * sizeof(sample)` bytes (as a `uint16_t`) are appended; if they do not fit, the device halts with the ring-buffer error and the queue is unchanged |
| Samples.Pipeline.RingbufRead | fw/samples.c:116-117 | a read of n bytes succeeds iff n bytes are buffered. On success it copies the oldest n bytes to the destination and removes them; on failure the queue and the destination are unchanged |
| Samples.Pipeline.UartWrite | fw/samples.c:94-124 | the new drain state and the frame log are what `UartStep` gives; calibration, gain and the storage log are unchanged |
| Samples.Pipeline.StoreWrite | fw/samples.c:126-148 | the new drain state, the block-write log and the update count are what `StoreStep` gives; everything else is unchanged |
| Control.StopMode | fw/control.c:26-31 | USB store becomes USB idle, portable store becomes portable idle, and every other mode is kept |
| Control.ClampError | fw/control.c:77-80 | INIT's result is the last error when it is >= 0, and 0 when it is negative |
| Control.RtcSeconds | fw/control.c:150 | `value1` is the high 16 bits and `value2` the low 16 bits of the 32-bit argument |
| Control.SelfTestOutcome | fw/control.c:166-179 | the result is positive iff some stage failed; the first failing stage (drivers, ring buffer, file system) decides, else the last stage's result |
| Control.Stop | fw/control.c:17-32 | after `stop_sampling`, the mode is `StopMode` of the old one (USB store to USB idle, portable store to portable idle, others kept) and sampling is off. The effects are exactly one or two: the strobe `g_fs_file_seq + 1`, only when the mode was portable store, then `samples_stop` |
| Control.Run | fw/control.c:63-183 | no command's own effects include an ack or rx flush |
| Control.RunConsistent | fw/control.c:63-183 | every command keeps "a store mode samples, an idle mode does not" |
| Control.RunAckSuppressed | fw/control.c:111-165 | READ_SD_UART, READ_EEPROM, GET_SAMPLE_COUNT, GET_GIT_HASH and GET_RTC return -1; only those and SELF_TEST can return a negative value |
| Control.RunFrame | fw/control.c:63-183 | only GAIN_SET changes the gain, and only INIT changes `inited` and the last error. Only INIT, RESET and START_SAMPLING_SD end the device. Only the two START_SAMPLING commands start sampling, without ending the device |
| Control.RunInit | fw/control.c:72-86 | a second INIT resets. The first returns `ClampError` of the last error (0 when it is negative), clears the error slot and sets `inited`. It changes no other register, has no effect and starts nothing |
| Control.RunStartUart | fw/control.c:90-95 | START_SAMPLING_UART enters stream mode, strobes once, starts sampling and returns 0; no other register changes |
| Control.RunReset | fw/control.c:118-120 | RESET resets the device and does nothing else, so it is never acked |
| Control.RunGainSet | fw/control.c:87-89 | the gain becomes the low byte of `value1`; the mode and everything else are unchanged |
| Control.RunStartSd | fw/control.c:96-110 | `fs_format(0)` runs, once and first, iff the mode is portable, and the device halts with the format error iff that fails; nothing else then happens. Otherwise the strobe 1 and `samples_start` follow the format, the mode becomes USB store and sampling starts, with no other register changed. The result is 0 |
| Control.RunStopsFirst | fw/control.c:111-165 | READ_SD_UART and GET_RTC first do exactly what `stop_sampling` does. GET_RTC then replies with the stored time if `fs_open` succeeds and with (0, 0) otherwise |
| Control.RunKeepsRegisters | fw/control.c:121-179 | the reply, clock and self-test commands, and unknown types, leave every register unchanged and start nothing |
| Control.RunReplies | fw/control.c:121-151 | READ_EEPROM, GET_SAMPLE_COUNT and GET_GIT_HASH send exactly their typed reply. GET_MODE_PORTABLE and unknown types have no effect. SET_RTC and unknown types return 0 |
| Control.RunQueries | fw/control.c:145-150 | GET_MODE_PORTABLE returns 1 iff the mode is portable, else 0; SET_RTC sets the clock to the joined 32-bit value |
| Control.RunSelfTest | fw/control.c:166-179 | the effects are, in order, the drivers test called with `value1`, then the ring-buffer test if the drivers test did not fail, then the fs test if neither failed, and nothing else. The result is `SelfTestOutcome` |
| Control.Press | fw/control.c:185-201 | from portable idle: portable store, sampling started, then strobe `g_fs_file_seq`. From portable store: back to portable idle, stopped. In any other mode nothing changes |
| Control.PressTwice | fw/control.c:185-201 | two presses from portable idle record one file and return to exactly the starting registers |
| Control.Hold | fw/control.c:203-217 | the hold always stops sampling and starts nothing. If the format fails it halts with the format error, otherwise it ends in portable idle |
| Control.HoldFormatsAfterStop | fw/control.c:205-215 | `fs_format(1)` comes right after `stop_sampling`'s effects. On success exactly one more effect follows, the strobe of the new file number; on failure none follows |
| Control.Controller.constructor | fw/control.c:12-15 | power-on: USB idle, gain 0, not inited, not sampling |
| Control.Controller.BeginSampling | fw/control.c:94 | `samples_start` restarts the pipeline's session and is recorded |
| Control.Controller.StopSampling | fw/control.c:17-32 | the registers and effects are those of `Stop` |
| Control.Controller.RunMessage | fw/control.c:63-183 | the registers, effects and pipeline session are those of `Run`; the returned value is `Run`'s while the device is still running |
| Control.Controller.SetRegisters | fw/control.c:72-120 | INIT, GAIN_SET and RESET behave as `Run` says |
| Control.Controller.StartCommand | fw/control.c:90-110 | the START_SAMPLING commands behave as `Run` says, including restarting the pipeline's session |
| Control.Controller.StopCommand | fw/control.c:111-165 | READ_SD_UART and GET_RTC behave as `Run` says |
| Control.Controller.Reply | fw/control.c:121-151 | the reply and clock commands, and unknown types, behave as `Run` says |
| Control.Controller.SelfTestCommand | fw/control.c:166-179 | the short-circuiting self test behaves as `Run` says |
| Control.Controller.GotUartBytes | fw/control.c:34-61 | a message that is not exactly 5 bytes changes nothing. Otherwise the command runs, and {type, result} is acked and rx flushed iff the result is >= 0 and the device neither halted nor reset |
| Control.Controller.ButtonPress | fw/control.c:185-201 | the registers, effects and pipeline session are those of `Press` |
| Control.Controller.ButtonHold | fw/control.c:203-217 | the registers and effects are those of `Hold` |

## Left out

- Hardware side effects are not modelled: LEDs, `printf`, ADC `MUXCTRL` writes, `mux_select`, `params_set_samplerate`, `dma_start`/`dma_pause` and `timer_sleep_ms`. Strobe counts are the only blink calls recorded.
- EEPROM contents, the sample count and `GIT_HASH` are not modelled. Their replies are recorded as typed effects. The UART transmission itself (`uart_tx_*`) is not modelled; the frame or ack is recorded instead.
- The ring buffer implementation and its SRAM backing store (`fw/drivers/sram.c`) are not modelled; the queue abstraction above stands for them. The ring buffer's own source is not part of this model.
- The file system (`fs_format`, `fs_open`, `fs_rtc_get`, `g_fs_file_seq`) is reduced to the integer results in `Control.Env`. Its superblock and file chain are not modelled.
- `samples_stop` and `samples_store_read_uart_frame` are recorded calls; their bodies are not part of this model.
- Interrupt and DMA concurrency between acquisition (`samples_ringbuf_write`) and the drains is not modelled: every call runs to completion in sequence.
- The debug sample generators `SAMPLE_ZERO`/`SAMPLE_INC` are not modelled: they only overwrite test data.
- `halt` and `reset` end the model with a `Status`. What the device does afterwards (watchdog, reboot) is not modelled.
- READ_EEPROM's reply is recorded as `EepromReply(value1)` for every `value1`. The code reads `value1` bytes into a 100-byte stack buffer, so a `value1` above 100 overruns it; the model does not capture that out-of-bounds write or the bytes it would send.
- `g_error_last` is taken as an `int8_t`. The header that declares it is not part of this model; if it were wider, INIT's `ret = g_error_last` would truncate first, and that truncation is not modelled.
- `control_message` is taken as {type u8, value1 u16, value2 u16}, 5 bytes. The header that declares it is not part of this model.
- Control.Controller.GotUartBytes: takes the received length and the decoded message as parameters instead of reading them with `uart_rx_bytes`.
- Samples.Pipeline.EndCalibration: takes `g_control_gain` as a parameter, because its caller is not part of this model.
- Samples.Pipeline.constructor: requires the frame, 6 + `SAMPLES_LEN * sizeof(sample)` bytes, to be below 2^16. The staging buffer `samples_tmp` must fit in the microcontroller's RAM, and the frame length is sent as a `uint16_t`. So builds in which `samples_len` and the running `len` would wrap are not modelled.
- Samples.Pipeline.constructor: takes the amplifier gain as a parameter, because `samples_init` does not set it. The gain at power-on comes from parameter code that is not part of this model.
- Control.RunStartSd: is stated for a running device only; on a device that has already halted or reset, no command runs.
