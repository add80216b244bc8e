/**
 The control state machine of fw/control.c: the device mode, the gain to use
 after calibration, the `inited` flag and the last-error slot, driven by host
 commands and by the button. Hardware effects the code triggers (strobe
 counts, sampling start and stop, file-system calls, typed replies, acks) are
 recorded in order in the ghost `effects`; what the file system, the self
 tests and `g_fs_file_seq` answer is passed in as an `Env`.
 */
module Control {
  import opened Common
  import Samples

  datatype Mode = UsbIdle | UsbStore | PortIdle | PortStore | Stream

  /** The `type` byte of a control message; `Unknown` is any other value. */
  datatype MessageType =
    | Init | GainSet | StartSamplingUart | StartSamplingSd | ReadSdUart | Reset
    | ReadEeprom | GetSampleCount | GetGitHash | GetModePortable | SetRtc | GetRtc
    | SelfTest | Unknown(code: u8)

  /** `control_message`: {type u8, value1 u16, value2 u16}. */
  datatype Message = Message(kind: MessageType, value1: u16, value2: u16)

  /** `sizeof(control_message)`. */
  const MESSAGE_SIZE: nat := 5

  /** The commands that send their own typed reply and so must not be acked. */
  const REPLYING_KINDS: set<MessageType> := {ReadSdUart, ReadEeprom, GetSampleCount, GetGitHash, GetRtc}

  /**
   What the code outside the control state machine answers during one call:
   `g_fs_file_seq` (before and after a format), the results of `fs_format`
   and `fs_open`, the time pair `fs_rtc_get` stores, and the three self tests.
   */
  datatype Env = Env(
    fileSeq: u32, formatResult: int, fileSeqAfterFormat: u32,
    openResult: int, rtcSeconds: u32, rtcMillis: u32,
    driversTest: int, ringbufTest: int, fsTest: int)

  /** The environment for the commands that consult nothing outside the controller. */
  const QUIET: Env := Env(0, 0, 0, 0, 0, 0, 0, 0, 0)

  /** An externally visible effect, in the order the code triggers it. */
  datatype Effect =
    | Strobe(count: u32)                   // blink_set_strobe_count
    | SamplesStarted                       // samples_start
    | SamplesStopped                       // samples_stop
    | FsFormat(portable: bool)             // fs_format
    | FsOpen(fileSeq: u32)                 // fs_open(0, fileSeq)
    | RtcSet(secs: bv32)                   // timer_rtc_set
    | StoreReadUart(value1: u16, value2: u16) // samples_store_read_uart_frame
    | EepromReply(length: u16)             // EEPROM contents sent as the reply
    | SampleCountReply                     // sample count sent as the reply
    | GitHashReply                         // GIT_HASH sent as the reply
    | RtcReply(seconds: u32, millis: u32)  // time pair sent as the reply
    | DriversSelfTest(arg: u16)            // drivers_self_test(value1)
    | RingbufSelfTest | FsSelfTest
    | Ack(kind: MessageType, result: i8)   // the short ack {type, ret}
    | RxFlush                              // uart_rx_flush

  predicate IsPortable(m: Mode)
  {
    m == PortIdle || m == PortStore
  }

  /**
   The mode `stop_sampling` leaves: a store mode falls back to its idle
   variant (keeping USB or portable), every other mode is kept.
   */
  function StopMode(m: Mode): (r: Mode)
    ensures m == UsbStore ==> r == UsbIdle
    ensures m == PortStore ==> r == PortIdle
    ensures m != UsbStore && m != PortStore ==> r == m
    ensures r != UsbStore && r != PortStore
    ensures IsPortable(r) == IsPortable(m)
  {
    match m
    case UsbStore => UsbIdle
    case PortStore => PortIdle
    case _ => m
  }

  /** What `stop_sampling` triggers: the next file's number when leaving portable store, then the stop. */
  function StopEffects(m: Mode, fileSeq: u32): seq<Effect>
  {
    (if m == PortStore then [Strobe(Inc32(fileSeq))] else []) + [SamplesStopped]
  }

  /** INIT's result: the last error, or 0 when none (negative) was recorded. */
  function ClampError(e: i8): (r: i8)
    ensures r >= 0
    ensures e >= 0 ==> r == e
    ensures e < 0 ==> r == 0
  {
    if e < 0 then 0 else e
  }

  /**
   SET_RTC's argument `((uint32_t)value1 << 16) | value2`: value1 becomes the
   high half and value2 the low half of one 32-bit number of seconds.
   */
  function RtcSeconds(v1: u16, v2: u16): (r: bv32)
    ensures r >> 16 == v1 as bv32
    ensures r & 0xFFFF == v2 as bv32
  {
    ((v1 as bv32) << 16) | (v2 as bv32)
  }

  /**
   SELF_TEST's result: each stage's `int` result is stored in an `int8_t`;
   the first stage reporting a failure (> 0) decides, otherwise the last
   stage's result is returned.
   */
  function SelfTestOutcome(drivers: int, ringbuf: int, fs: int): (r: i8)
    ensures r > 0 <==> ToI8(drivers) > 0 || ToI8(ringbuf) > 0 || ToI8(fs) > 0
    ensures ToI8(drivers) > 0 ==> r == ToI8(drivers)
    ensures ToI8(drivers) <= 0 && ToI8(ringbuf) > 0 ==> r == ToI8(ringbuf)
    ensures ToI8(drivers) <= 0 && ToI8(ringbuf) <= 0 ==> r == ToI8(fs)
  {
    if ToI8(drivers) > 0 then ToI8(drivers)
    else if ToI8(ringbuf) > 0 then ToI8(ringbuf)
    else ToI8(fs)
  }

  /** The self tests that run: each later stage only when the ones before passed. */
  function SelfTestEffects(arg: u16, e: Env): seq<Effect>
  {
    [DriversSelfTest(arg)]
    + (if ToI8(e.driversTest) > 0 then [] else [RingbufSelfTest])
    + (if ToI8(e.driversTest) > 0 || ToI8(e.ringbufTest) > 0 then [] else [FsSelfTest])
  }

  /** No ack and no rx flush among `es`. */
  predicate AckFree(es: seq<Effect>)
  {
    forall i :: 0 <= i < |es| ==> !es[i].Ack? && !es[i].RxFlush?
  }

  /** The control globals as a value; `sampling` is whether samples were started and not stopped since. */
  datatype Registers = Registers(
    mode: Mode, gain: u8, inited: bool, errorLast: i8, status: Status, sampling: bool)

  /** The state machine's invariant: a store mode is always sampling, an idle mode never is. */
  predicate Consistent(r: Registers)
  {
    && (r.mode == UsbStore || r.mode == PortStore ==> r.sampling)
    && (r.mode == UsbIdle || r.mode == PortIdle ==> !r.sampling)
  }

  /**
   What one transition does: the new registers, the effects in order, the
   value returned, and whether `samples_start` was called.
   */
  datatype Outcome = Outcome(regs: Registers, effects: seq<Effect>, ret: i8, startsSampling: bool)

  /** `stop_sampling` on the registers. */
  function Stop(r: Registers, fileSeq: u32): (o: Outcome)
    ensures o.regs.mode == StopMode(r.mode) && !o.regs.sampling
    ensures IsPortable(o.regs.mode) == IsPortable(r.mode)
    ensures r.mode != UsbStore && r.mode != PortStore ==> o.regs.mode == r.mode
    ensures o.regs.(mode := r.mode, sampling := r.sampling) == r
    ensures |o.effects| == if r.mode == PortStore then 2 else 1
    ensures o.effects[|o.effects| - 1] == SamplesStopped
    ensures r.mode == PortStore ==> o.effects[0] == Strobe(Inc32(fileSeq))
    ensures Strobe(Inc32(fileSeq)) in o.effects <==> r.mode == PortStore
    ensures Consistent(o.regs) && !o.startsSampling && AckFree(o.effects)
  {
    Outcome(r.(mode := StopMode(r.mode), sampling := false), StopEffects(r.mode, fileSeq), 0, false)
  }

  /**
   `control_run_message` for `m` on registers `r`. The lemmas below state
   what each command does; the contract here holds for every command.
   */
  function Run(m: Message, r: Registers, e: Env): (o: Outcome)
    ensures AckFree(o.effects)
  {
    match m.kind
    case Init =>
      if r.inited then Outcome(r.(status := ResetIssued), [], 0, false)
      else Outcome(r.(inited := true, errorLast := 0), [], ClampError(r.errorLast), false)
    case GainSet => Outcome(r.(gain := ToU8(m.value1)), [], 0, false)
    case StartSamplingUart =>
      Outcome(r.(mode := Stream, sampling := true), [Strobe(1), SamplesStarted], 0, true)
    case StartSamplingSd =>
      if IsPortable(r.mode) && e.formatResult < 0 then
        Outcome(r.(status := Halted(FsFormatFail)), [FsFormat(false)], 0, false)
      else
        Outcome(r.(mode := UsbStore, sampling := true),
                (if IsPortable(r.mode) then [FsFormat(false)] else []) + [Strobe(1), SamplesStarted], 0, true)
    case ReadSdUart =>
      var s := Stop(r, e.fileSeq);
      Outcome(s.regs, s.effects + [StoreReadUart(m.value1, m.value2)], -1, false)
    case Reset => Outcome(r.(status := ResetIssued), [], 0, false)
    case ReadEeprom => Outcome(r, [EepromReply(m.value1)], -1, false)
    case GetSampleCount => Outcome(r, [SampleCountReply], -1, false)
    case GetGitHash => Outcome(r, [GitHashReply], -1, false)
    case GetModePortable => Outcome(r, [], if IsPortable(r.mode) then 1 else 0, false)
    case SetRtc => Outcome(r, [RtcSet(RtcSeconds(m.value1, m.value2))], 0, false)
    case GetRtc =>
      var s := Stop(r, e.fileSeq);
      var reply := if e.openResult >= 0 then RtcReply(e.rtcSeconds, e.rtcMillis) else RtcReply(0, 0);
      Outcome(s.regs, s.effects + [FsOpen(m.value1), reply], -1, false)
    case SelfTest =>
      Outcome(r, SelfTestEffects(m.value1, e), SelfTestOutcome(e.driversTest, e.ringbufTest, e.fsTest), false)
    case Unknown(_) => Outcome(r, [], 0, false)
  }

  /** Every command keeps the mode and the sampling flag consistent. */
  lemma RunConsistent(m: Message, r: Registers, e: Env)
    requires Consistent(r)
    ensures Consistent(Run(m, r, e).regs)
  {
  }

  /**
   The ack is suppressed (a negative result) exactly for the commands that
   send their own reply, and for a self test whose deciding stage returned a
   negative value.
   */
  lemma RunAckSuppressed(m: Message, r: Registers, e: Env)
    ensures m.kind in REPLYING_KINDS ==> Run(m, r, e).ret == -1
    ensures Run(m, r, e).ret < 0 ==> m.kind in REPLYING_KINDS || m.kind == SelfTest
  {
  }

  /** Which commands may change which registers, and which start sampling. */
  lemma RunFrame(m: Message, r: Registers, e: Env)
    ensures var o := Run(m, r, e);
      && (o.regs.gain != r.gain ==> m.kind == GainSet)
      && (o.regs.inited != r.inited || o.regs.errorLast != r.errorLast ==> m.kind == Init)
      && (o.regs.status != r.status ==> m.kind == Init || m.kind == Reset || m.kind == StartSamplingSd)
      && (o.startsSampling ==> (m.kind == StartSamplingUart || m.kind == StartSamplingSd) && o.regs.status == r.status)
  {
  }

  /**
   INIT: a second INIT resets the device; the first returns the last error
   (0 when none was recorded), clears it and sets `inited`.
   */
  lemma RunInit(m: Message, r: Registers, e: Env)
    requires m.kind == Init
    ensures var o := Run(m, r, e);
      && (r.inited ==> o.regs.status == ResetIssued && o.effects == [])
      && (!r.inited ==>
            && o.ret == ClampError(r.errorLast) && o.ret >= 0
            && o.effects == [] && !o.startsSampling
            && o.regs == r.(inited := true, errorLast := 0))
  {
  }

  /** START_SAMPLING_UART: stream mode, strobe once, start sampling; the ack carries 0. */
  lemma RunStartUart(m: Message, r: Registers, e: Env)
    requires m.kind == StartSamplingUart
    ensures var o := Run(m, r, e);
      && o.regs == r.(mode := Stream, sampling := true)
      && o.effects == [Strobe(1), SamplesStarted]
      && o.startsSampling && o.ret == 0
  {
  }

  /** RESET: the device resets and nothing else happens, so no ack is ever sent for it. */
  lemma RunReset(m: Message, r: Registers, e: Env)
    requires m.kind == Reset
    ensures var o := Run(m, r, e);
      o.regs == r.(status := ResetIssued) && o.effects == [] && !o.startsSampling
  {
  }

  /** GAIN_SET keeps the low byte of `value1` as the gain and changes nothing else. */
  lemma RunGainSet(m: Message, r: Registers, e: Env)
    requires m.kind == GainSet
    ensures var o := Run(m, r, e);
      o.regs == r.(gain := ToU8(m.value1)) && o.effects == [] && o.ret == 0 && !o.startsSampling
  {
  }

  /**
   START_SAMPLING_SD: a portable device is formatted for USB first and halts
   if that fails; otherwise the device stores in USB mode and sampling starts.
   */
  lemma RunStartSd(m: Message, r: Registers, e: Env)
    requires m.kind == StartSamplingSd && r.status == Running
    ensures var o := Run(m, r, e);
      && (FsFormat(false) in o.effects <==> IsPortable(r.mode))
      && (o.regs.status == Halted(FsFormatFail) <==> IsPortable(r.mode) && e.formatResult < 0)
      && (o.regs.status == r.status ==> o.regs.mode == UsbStore && o.startsSampling)
      && (o.regs.status != r.status ==> o.regs.mode == r.mode && !o.startsSampling)
      && (o.regs.status == r.status ==> o.regs == r.(mode := UsbStore, sampling := true))
      && (o.regs.status != r.status ==> o.regs == r.(status := Halted(FsFormatFail)))
      && o.effects == (if IsPortable(r.mode) then [FsFormat(false)] else [])
                      + (if o.regs.status == r.status then [Strobe(1), SamplesStarted] else [])
      && o.ret == 0
  {
  }

  /**
   READ_SD_UART and GET_RTC stop sampling first; GET_RTC then replies with
   the stored time pair, or zeros when the file does not open.
   */
  lemma RunStopsFirst(m: Message, r: Registers, e: Env)
    requires m.kind == ReadSdUart || m.kind == GetRtc
    ensures var o := Run(m, r, e); var s := Stop(r, e.fileSeq);
      var time := if e.openResult >= 0 then RtcReply(e.rtcSeconds, e.rtcMillis) else RtcReply(0, 0);
      && o.regs == s.regs
      && |s.effects| < |o.effects| && o.effects[..|s.effects|] == s.effects
      && (m.kind == ReadSdUart ==> o.effects[|s.effects|..] == [StoreReadUart(m.value1, m.value2)])
      && (m.kind == GetRtc ==> o.effects[|s.effects|..] == [FsOpen(m.value1), time])
  {
  }

  /** The commands that only report or set the clock leave the registers alone. */
  lemma RunKeepsRegisters(m: Message, r: Registers, e: Env)
    requires m.kind in {ReadEeprom, GetSampleCount, GetGitHash, GetModePortable, SetRtc, SelfTest} || m.kind.Unknown?
    ensures Run(m, r, e).regs == r && !Run(m, r, e).startsSampling
  {
  }

  /**
   READ_EEPROM, GET_SAMPLE_COUNT and GET_GIT_HASH send exactly their typed
   reply; GET_MODE_PORTABLE and unknown types send nothing of their own; SET_RTC
   and unknown types return 0, so they are acked.
   */
  lemma RunReplies(m: Message, r: Registers, e: Env)
    ensures m.kind == ReadEeprom ==> Run(m, r, e).effects == [EepromReply(m.value1)]
    ensures m.kind == GetSampleCount ==> Run(m, r, e).effects == [SampleCountReply]
    ensures m.kind == GetGitHash ==> Run(m, r, e).effects == [GitHashReply]
    ensures m.kind == GetModePortable || m.kind.Unknown? ==> Run(m, r, e).effects == []
    ensures m.kind == SetRtc || m.kind.Unknown? ==> Run(m, r, e).ret == 0
  {
  }

  /** GET_MODE_PORTABLE answers 1 in a portable mode and 0 otherwise; SET_RTC sets the joined seconds. */
  lemma RunQueries(m: Message, r: Registers, e: Env)
    ensures m.kind == GetModePortable ==>
      (Run(m, r, e).ret == 1 <==> IsPortable(r.mode)) && (Run(m, r, e).ret == 0 <==> !IsPortable(r.mode))
    ensures m.kind == SetRtc ==> Run(m, r, e).effects == [RtcSet(RtcSeconds(m.value1, m.value2))]
  {
  }

  /** SELF_TEST runs each stage only after the earlier ones passed and returns the deciding result. */
  lemma RunSelfTest(m: Message, r: Registers, e: Env)
    requires m.kind == SelfTest
    ensures var o := Run(m, r, e);
      && o.ret == SelfTestOutcome(e.driversTest, e.ringbufTest, e.fsTest)
      && o.effects[0] == DriversSelfTest(m.value1)
      && |o.effects| == (if ToI8(e.driversTest) > 0 then 1 else if ToI8(e.ringbufTest) > 0 then 2 else 3)
      && (|o.effects| >= 2 ==> o.effects[1] == RingbufSelfTest)
      && (|o.effects| == 3 ==> o.effects[2] == FsSelfTest)
      && (RingbufSelfTest in o.effects <==> ToI8(e.driversTest) <= 0)
      && (FsSelfTest in o.effects <==> ToI8(e.driversTest) <= 0 && ToI8(e.ringbufTest) <= 0)
  {
  }

  /**
   `control_button_press` on registers `r`: portable idle starts storing and
   strobes the current file number, portable store stops, any other mode
   ignores the button.
   */
  function Press(r: Registers, fileSeq: u32): (o: Outcome)
    ensures Consistent(r) ==> Consistent(o.regs)
    ensures AckFree(o.effects)
    ensures r.mode == PortIdle ==>
      && o.regs == r.(mode := PortStore, sampling := true)
      && o.startsSampling && o.effects == [SamplesStarted, Strobe(fileSeq)]
    ensures r.mode == PortStore ==>
      && o.regs == r.(mode := PortIdle, sampling := false)
      && !o.startsSampling && o.effects == [Strobe(Inc32(fileSeq)), SamplesStopped]
    ensures !IsPortable(r.mode) ==> o.regs == r && o.effects == [] && !o.startsSampling
  {
    match r.mode
    case PortIdle => Outcome(r.(mode := PortStore, sampling := true), [SamplesStarted, Strobe(fileSeq)], 0, true)
    case PortStore => Stop(r, fileSeq)
    case _ => Outcome(r, [], 0, false)
  }

  /** Two presses from portable idle record one file: store, then back to idle with sampling stopped. */
  lemma PressTwice(r: Registers, seq1: u32, seq2: u32)
    requires Consistent(r) && r.mode == PortIdle
    ensures var o1 := Press(r, seq1); var o2 := Press(o1.regs, seq2);
      && o1.regs.mode == PortStore && o1.regs.sampling
      && o2.regs == r
      && o1.effects + o2.effects == [SamplesStarted, Strobe(seq1), Strobe(Inc32(seq2)), SamplesStopped]
  {
  }

  /**
   `control_button_hold` on registers `r`: stop, then format the card in
   portable mode; on failure halt, otherwise end in portable idle strobing
   the file number the format left. Nothing is started.
   */
  function Hold(r: Registers, e: Env): (o: Outcome)
    ensures Consistent(o.regs) && AckFree(o.effects) && !o.startsSampling && !o.regs.sampling
    ensures e.formatResult < 0 ==>
      o.regs == r.(mode := StopMode(r.mode), sampling := false, status := Halted(FsFormatFail))
    ensures e.formatResult >= 0 ==> o.regs == r.(mode := PortIdle, sampling := false)
  {
    var s := Stop(r, e.fileSeq);
    if e.formatResult < 0 then
      Outcome(s.regs.(status := Halted(FsFormatFail)), s.effects + [FsFormat(true)], 0, false)
    else
      Outcome(s.regs.(mode := PortIdle), s.effects + [FsFormat(true), Strobe(e.fileSeqAfterFormat)], 0, false)
  }

  /**
   The button hold formats the card only after sampling has stopped, and on
   success ends by strobing the file number the format left.
   */
  lemma HoldFormatsAfterStop(r: Registers, e: Env)
    ensures var o := Hold(r, e); var stop := StopEffects(r.mode, e.fileSeq);
      && |stop| < |o.effects|
      && o.effects[..|stop|] == stop
      && o.effects[|stop|] == FsFormat(true)
      && |o.effects| == |stop| + (if e.formatResult >= 0 then 2 else 1)
      && (e.formatResult >= 0 <==> o.effects[|o.effects| - 1] == Strobe(e.fileSeqAfterFormat))
  {
  }

  /**
   The globals of fw/control.c plus `g_error_last`, and the sample pipeline
   the commands start.
   */
  class Controller {
    var mode: Mode
    var gain: u8
    var inited: bool
    var errorLast: i8
    var status: Status
    ghost var sampling: bool
    ghost var effects: seq<Effect>
    const samples: Samples.Pipeline

    ghost function Regs(): Registers
      reads this
    {
      Registers(mode, gain, inited, errorLast, status, sampling)
    }

    ghost predicate Valid()
      reads this, samples
    {
      samples.Valid() && Consistent(Regs())
    }

    /** Neither this state machine nor the pipeline has halted or reset. */
    ghost predicate Live()
      reads this, samples
    {
      status == Running && samples.status == Running
    }

    /** Power-on state: USB idle, gain 0, not inited; `lastError` is what `g_error_last` holds. */
    constructor (samples: Samples.Pipeline, lastError: i8)
      requires samples.Valid() && samples.status == Running
      ensures Valid() && Live() && this.samples == samples
      ensures Regs() == Registers(UsbIdle, 0, false, lastError, Running, false)
      ensures effects == []
    {
      this.samples := samples;
      mode := UsbIdle;
      gain := 0;
      inited := false;
      errorLast := lastError;
      status := Running;
      sampling := false;
      effects := [];
    }

    /** `samples_start`, recorded. */
    method BeginSampling()
      requires samples.Valid()
      modifies this, samples
      ensures samples.Valid()
      ensures samples.State() == Samples.Restarted(old(samples.State()))
      ensures Regs() == old(Regs()).(sampling := true)
      ensures effects == old(effects) + [SamplesStarted]
    {
      samples.Start();
      effects := effects + [SamplesStarted];
      sampling := true;
    }

    /**
     `stop_sampling`: when leaving portable store, strobe the next file's
     number; stop sampling; a store mode falls back to its idle variant.
     */
    method StopSampling(fileSeq: u32)
      requires Valid()
      modifies this
      ensures Valid()
      ensures Regs() == Stop(old(Regs()), fileSeq).regs
      ensures effects == old(effects) + Stop(old(Regs()), fileSeq).effects
    {
      if mode == PortStore {
        effects := effects + [Strobe(Inc32(fileSeq))];
      }
      effects := effects + [SamplesStopped];
      sampling := false;
      if mode == UsbStore {
        mode := UsbIdle;
      }
      if mode == PortStore {
        mode := PortIdle;
      }
    }

    /**
     `control_run_message`: carry out one host command and return the value
     that decides whether the short ack is sent. `reset` and `halt` end the
     call with `status` set.
     */
    method RunMessage(m: Message, e: Env) returns (ret: i8)
      requires Valid() && Live()
      modifies this, samples
      ensures Valid() && samples.status == Running
      ensures var o := Run(m, old(Regs()), e);
        && Regs() == o.regs
        && effects == old(effects) + o.effects
        && (status == Running ==> ret == o.ret)
        && samples.State() == if o.startsSampling then Samples.Restarted(old(samples.State())) else old(samples.State())
    {
      match m.kind {
        case Init | GainSet | Reset =>
          ret := SetRegisters(m);
        case StartSamplingUart | StartSamplingSd =>
          ret := StartCommand(m, e);
        case ReadSdUart | GetRtc =>
          ret := StopCommand(m, e);
        case ReadEeprom | GetSampleCount | GetGitHash | GetModePortable | SetRtc | Unknown(_) =>
          ret := Reply(m);
        case SelfTest =>
          ret := SelfTestCommand(m, e);
      }
    }

    /** The INIT, GAIN_SET and RESET cases of `control_run_message`. */
    method SetRegisters(m: Message) returns (ret: i8)
      requires Valid() && Live() && m.kind in {Init, GainSet, Reset}
      modifies this
      ensures Valid()
      ensures var o := Run(m, old(Regs()), QUIET);
        && Regs() == o.regs && effects == old(effects) + o.effects && (status == Running ==> ret == o.ret)
    {
      ret := 0;
      match m.kind {
        case Init =>
          if inited {
            status := ResetIssued;
            return;
          }
          ret := errorLast;
          if ret < 0 {
            ret := 0;
          }
          errorLast := 0;
          inited := true;
        case GainSet =>
          gain := ToU8(m.value1);
        case Reset =>
          status := ResetIssued;
      }
    }

    /** The START_SAMPLING_UART and START_SAMPLING_SD cases of `control_run_message`. */
    method StartCommand(m: Message, e: Env) returns (ret: i8)
      requires Valid() && Live() && m.kind in {StartSamplingUart, StartSamplingSd}
      modifies this, samples
      ensures Valid() && samples.status == Running
      ensures var o := Run(m, old(Regs()), e);
        && Regs() == o.regs
        && effects == old(effects) + o.effects
        && ret == o.ret
        && samples.State() == if o.startsSampling then Samples.Restarted(old(samples.State())) else old(samples.State())
    {
      ret := 0;
      if m.kind == StartSamplingUart {
        mode := Stream;
        effects := effects + [Strobe(1)];
        BeginSampling();
        return;
      }
      if mode == PortIdle || mode == PortStore {
        effects := effects + [FsFormat(false)];
        if e.formatResult < 0 {
          status := Halted(FsFormatFail);
          return;
        }
      }
      mode := UsbStore;
      effects := effects + [Strobe(1)];
      BeginSampling();
    }

    /** The READ_SD_UART and GET_RTC cases of `control_run_message`: both stop sampling first. */
    method StopCommand(m: Message, e: Env) returns (ret: i8)
      requires Valid() && Live() && m.kind in {ReadSdUart, GetRtc}
      modifies this
      ensures Valid()
      ensures var o := Run(m, old(Regs()), e);
        && Regs() == o.regs && effects == old(effects) + o.effects && ret == o.ret
    {
      StopSampling(e.fileSeq);
      if m.kind == ReadSdUart {
        effects := effects + [StoreReadUart(m.value1, m.value2)];
      } else {
        var seconds: u32, millis: u32 := 0, 0;
        effects := effects + [FsOpen(m.value1)];
        if e.openResult >= 0 {
          seconds, millis := e.rtcSeconds, e.rtcMillis;
        }
        effects := effects + [RtcReply(seconds, millis)];
      }
      ret := -1;
    }

    /** The cases of `control_run_message` that only reply or set the clock. */
    method Reply(m: Message) returns (ret: i8)
      requires Valid() && Live()
      requires m.kind in {ReadEeprom, GetSampleCount, GetGitHash, GetModePortable, SetRtc} || m.kind.Unknown?
      modifies this
      ensures Valid()
      ensures var o := Run(m, old(Regs()), QUIET);
        && Regs() == o.regs && effects == old(effects) + o.effects && ret == o.ret
    {
      ret := 0;
      match m.kind {
        case ReadEeprom =>
          effects := effects + [EepromReply(m.value1)];
          ret := -1;
        case GetSampleCount =>
          effects := effects + [SampleCountReply];
          ret := -1;
        case GetGitHash =>
          effects := effects + [GitHashReply];
          ret := -1;
        case GetModePortable =>
          ret := if mode == PortIdle || mode == PortStore then 1 else 0;
        case SetRtc =>
          effects := effects + [RtcSet(((m.value1 as bv32) << 16) | (m.value2 as bv32))];
        case Unknown(_) =>
      }
    }

    /** The SELF_TEST case of `control_run_message`: stop at the first stage reporting a failure. */
    method SelfTestCommand(m: Message, e: Env) returns (ret: i8)
      requires Valid() && Live() && m.kind == SelfTest
      modifies this
      ensures Valid()
      ensures var o := Run(m, old(Regs()), e);
        && Regs() == o.regs && effects == old(effects) + o.effects && ret == o.ret
    {
      label tests: {
        effects := effects + [DriversSelfTest(m.value1)];
        ret := ToI8(e.driversTest);
        if ret > 0 {
          break tests;
        }
        effects := effects + [RingbufSelfTest];
        ret := ToI8(e.ringbufTest);
        if ret > 0 {
          break tests;
        }
        effects := effects + [FsSelfTest];
        ret := ToI8(e.fsTest);
      }
    }

    /**
     `control_got_uart_bytes`: a message of exactly `MESSAGE_SIZE` bytes is
     run; when it returns a result >= 0 the ack {type, result} is sent and the
     receive buffer is flushed. A message of any other length is dropped.
     */
    method GotUartBytes(recvLen: nat, m: Message, e: Env)
      requires Valid() && Live()
      modifies this, samples
      ensures Valid()
      ensures recvLen != MESSAGE_SIZE ==>
        Regs() == old(Regs()) && effects == old(effects) && samples.State() == old(samples.State())
      ensures recvLen == MESSAGE_SIZE ==>
        var o := Run(m, old(Regs()), e);
        var acked := o.regs.status == Running && o.ret >= 0;
        && Regs() == o.regs
        && effects == old(effects) + o.effects + (if acked then [Ack(m.kind, o.ret), RxFlush] else [])
        && samples.State() == if o.startsSampling then Samples.Restarted(old(samples.State())) else old(samples.State())
    {
      if recvLen == MESSAGE_SIZE {
        var ret := RunMessage(m, e);
        // halt and reset do not return, so nothing follows them
        if ret >= 0 && status == Running {
          effects := effects + [Ack(m.kind, ret), RxFlush];
        }
      }
    }

    /** `control_button_press`. */
    method ButtonPress(fileSeq: u32)
      requires Valid() && Live()
      modifies this, samples
      ensures Valid()
      ensures var o := Press(old(Regs()), fileSeq);
        && Regs() == o.regs
        && effects == old(effects) + o.effects
        && samples.State() == if o.startsSampling then Samples.Restarted(old(samples.State())) else old(samples.State())
    {
      match mode {
        case PortIdle =>
          mode := PortStore;
          BeginSampling();
          effects := effects + [Strobe(fileSeq)];
        case PortStore =>
          StopSampling(fileSeq);
        case _ =>
      }
    }

    /** `control_button_hold`. */
    method ButtonHold(e: Env)
      requires Valid() && Live()
      modifies this
      ensures Valid()
      ensures Regs() == Hold(old(Regs()), e).regs
      ensures effects == old(effects) + Hold(old(Regs()), e).effects
    {
      ghost var stopped := Stop(Regs(), e.fileSeq);
      ghost var held := Hold(Regs(), e);
      StopSampling(e.fileSeq);
      effects := effects + [FsFormat(true)];
      if e.formatResult < 0 {
        status := Halted(FsFormatFail);
        assert held.regs == stopped.regs.(status := Halted(FsFormatFail));
        return;
      }
      mode := PortIdle;
      effects := effects + [Strobe(e.fileSeqAfterFormat)];
      assert held.regs == stopped.regs.(mode := PortIdle);
    }
  }
}
