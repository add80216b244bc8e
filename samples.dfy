/**
 The sample pipeline of fw/samples.c: the per-session state (calibration flag,
 host-link sequence number, storage block index), the producer that pushes
 acquired samples into the ring buffer, and the two polled drains that take
 bytes out of it, one into a host-link frame, one into a storage block.

 The ring buffer itself is abstract: a queue of bytes whose read of `n` bytes
 either hands out exactly the first `n` bytes and removes them, or fails and
 leaves the queue as it was.
 */
module Samples {
  import opened Common

  /** Bytes in front of the payload of a host-link frame: seqnum (4) and length (2). */
  const FRAME_HEADER_LEN: nat := 6

  /** What the current-channel amplifier gain is set to during a session. */
  datatype GainSetting = CalibrationGain | ControlGain(gain: u8)

  /** One call of `sd_write_block_start`: the block index and the bytes handed over. */
  datatype BlockWrite = BlockWrite(index: u32, data: seq<byte>)

  /** The fields of a host-link sample frame. */
  datatype FrameFields = FrameFields(seqnum: u32, length: u16, payload: seq<byte>)

  /** The host-link frame: {seqnum u32, length u16, payload}, integers in memory order. */
  function Frame(seqnum: u32, length: u16, payload: seq<byte>): (f: seq<byte>)
    ensures |f| == FRAME_HEADER_LEN + |payload|
    ensures f[FRAME_HEADER_LEN..] == payload
  {
    LE32(seqnum) + LE16(length) + payload
  }

  /** How a receiver splits a frame back into its fields. */
  function ParseFrame(f: seq<byte>): (r: Option<FrameFields>)
    ensures r.Some? <==> |f| >= FRAME_HEADER_LEN
    ensures r.Some? ==> r.value.payload == f[FRAME_HEADER_LEN..]
  {
    if |f| < FRAME_HEADER_LEN then None
    else Some(FrameFields(FromLE32(f[..4]), FromLE16(f[4..6]), f[6..]))
  }

  /** A frame reads back as the seqnum, length and payload it was built from. */
  lemma FrameRoundTrip(seqnum: u32, length: u16, payload: seq<byte>)
    ensures ParseFrame(Frame(seqnum, length, payload)) == Some(FrameFields(seqnum, length, payload))
  {
    var f := Frame(seqnum, length, payload);
    assert f[..4] == LE32(seqnum);
    assert f[4..6] == LE16(length);
    LE32RoundTrip(seqnum);
    LE16RoundTrip(length);
  }

  /** Every byte string long enough to hold a header is the frame of what it parses to. */
  lemma ParseFrameInverse(f: seq<byte>)
    requires |f| >= FRAME_HEADER_LEN
    ensures var r := ParseFrame(f).value; Frame(r.seqnum, r.length, r.payload) == f
  {
    LE32Inverse(f[..4]);
    LE16Inverse(f[4..6]);
    assert f == f[..4] + f[4..6] + f[6..];
  }

  /**
   The state the two drains work on: the host-link sequence number, the
   storage block index, whether a block write is outstanding, and the unread
   bytes of the ring buffer.
   */
  datatype Drain = Drain(uartSeq: u32, blockIdx: u32, writeInProgress: bool, queue: seq<byte>)

  /**
   One call of `samples_uart_write` with `n` payload bytes per frame: the new
   state and the frame handed to the link, if any.
   */
  function UartStep(d: Drain, txReady: bool, n: u16): (r: (Drain, Option<seq<byte>>))
    ensures r.1.None? <==> !txReady || |d.queue| < n
    ensures r.1.None? ==> r.0 == d
    ensures r.1.Some? ==>
      && r.1.value == Frame(d.uartSeq, n, d.queue[..n])
      && r.0.queue == d.queue[n..]
      && r.0.uartSeq == Inc32(d.uartSeq)
      && r.0.blockIdx == d.blockIdx && r.0.writeInProgress == d.writeInProgress
  {
    if !txReady || |d.queue| < n then (d, None)
    else
      (d.(uartSeq := Inc32(d.uartSeq), queue := d.queue[n..]), Some(Frame(d.uartSeq, n, d.queue[..n])))
  }

  /** `samples_uart_write` called once per entry of `readies` (the answers of `uart_tx_ready`). */
  function UartRun(d: Drain, readies: seq<bool>, n: u16): (Drain, seq<seq<byte>>)
    decreases |readies|
  {
    if readies == [] then (d, [])
    else
      var (d1, f) := UartStep(d, readies[0], n);
      var (d2, fs) := UartRun(d1, readies[1..], n);
      (d2, (if f.Some? then [f.value] else []) + fs)
  }

  /** The payloads of a list of frames, concatenated. */
  function Payloads(fs: seq<seq<byte>>): seq<byte>
  {
    if fs == [] then []
    else (if |fs[0]| >= FRAME_HEADER_LEN then fs[0][FRAME_HEADER_LEN..] else []) + Payloads(fs[1..])
  }

  /** `f` is the frame numbered `s` with an `n`-byte payload. */
  predicate FrameAt(f: seq<byte>, s: u32, n: u16)
  {
    |f| == FRAME_HEADER_LEN + n && f == Frame(s, n, f[FRAME_HEADER_LEN..])
  }

  lemma ModStep(a: int, k: int)
    ensures ((a + 1) % U32_LIMIT + k) % U32_LIMIT == (a + (k + 1)) % U32_LIMIT
  {
  }

  /** `fs` are `n`-byte-payload frames numbered `s`, `s + 1`, ... (modulo 2^32). */
  predicate Numbered(fs: seq<seq<byte>>, s: u32, n: u16)
  {
    fs == [] || (FrameAt(fs[0], s, n) && Numbered(fs[1..], Inc32(s), n))
  }

  /** The `k`-th of a numbered list of frames carries number `s + k` modulo 2^32. */
  lemma {:induction false} NumberedAt(fs: seq<seq<byte>>, s: u32, n: u16, k: nat)
    requires Numbered(fs, s, n) && k < |fs|
    ensures FrameAt(fs[k], (s + k) % U32_LIMIT, n)
  {
    if k > 0 {
      NumberedAt(fs[1..], Inc32(s), n, k - 1);
      ModStep(s, k - 1);
    }
  }

  /**
   Over any number of polls, the sequence number moves by exactly one per
   frame sent, the frames carry consecutive numbers starting at the
   session's, and the storage drain's state is untouched.
   */
  lemma {:induction false} UartRunFrames(d: Drain, readies: seq<bool>, n: u16)
    ensures var (r, fs) := UartRun(d, readies, n);
      && r.uartSeq == (d.uartSeq + |fs|) % U32_LIMIT
      && Numbered(fs, d.uartSeq, n)
      && r.blockIdx == d.blockIdx && r.writeInProgress == d.writeInProgress
    decreases |readies|
  {
    if readies != [] {
      var (d1, f) := UartStep(d, readies[0], n);
      var (r, fs1) := UartRun(d1, readies[1..], n);
      UartRunFrames(d1, readies[1..], n);
      var fs := (if f.Some? then [f.value] else []) + fs1;
      assert UartRun(d, readies, n) == (r, fs);
      if f.Some? {
        ModStep(d.uartSeq, |fs1|);
        assert fs[1..] == fs1;
        assert FrameAt(fs[0], d.uartSeq, n);
      } else {
        assert fs == fs1;
      }
    }
  }

  /**
   The `k`-th frame sent over a run of polls reads back as sequence number
   start + `k` (modulo 2^32) with an `n`-byte payload.
   */
  lemma UartRunFrameNumbers(d: Drain, readies: seq<bool>, n: u16, k: nat)
    requires k < |UartRun(d, readies, n).1|
    ensures var f := UartRun(d, readies, n).1[k];
      && |f| == FRAME_HEADER_LEN + n
      && ParseFrame(f) == Some(FrameFields((d.uartSeq + k) % U32_LIMIT, n, f[FRAME_HEADER_LEN..]))
  {
    var fs := UartRun(d, readies, n).1;
    UartRunFrames(d, readies, n);
    NumberedAt(fs, d.uartSeq, n, k);
    FrameRoundTrip((d.uartSeq + k) % U32_LIMIT, n, fs[k][FRAME_HEADER_LEN..]);
  }

  /**
   Over any number of polls, the payloads sent are the ring buffer's bytes in
   order, none lost or repeated, and what is left is the rest of the queue.
   */
  lemma {:induction false} UartRunPayloads(d: Drain, readies: seq<bool>, n: u16)
    ensures var (r, fs) := UartRun(d, readies, n);
      Payloads(fs) + r.queue == d.queue
    decreases |readies|
  {
    if readies != [] {
      var (d1, f) := UartStep(d, readies[0], n);
      var (r, fs1) := UartRun(d1, readies[1..], n);
      UartRunPayloads(d1, readies[1..], n);
      var fs := (if f.Some? then [f.value] else []) + fs1;
      assert UartRun(d, readies, n) == (r, fs);
      if f.Some? {
        var p := f.value[FRAME_HEADER_LEN..];
        assert p == d.queue[..n];
        assert fs[0] == f.value && fs[1..] == fs1;
        assert Payloads(fs) == p + Payloads(fs1);
        assert d.queue == p + d1.queue;
      } else {
        assert fs == fs1;
      }
    }
  }

  /** What one call of `samples_store_write` did. */
  datatype StoreOutcome =
    | NoData                   // idle, and the ring buffer held less than a block
    | Started(block: BlockWrite) // idle, a block was read and its write begun
    | Continued(done: bool)    // a write was outstanding and was advanced one step

  /**
   One call of `samples_store_write` with blocks of `blockLen` bytes; `update`
   is what `sd_write_block_update` returns if it is called.
   */
  function StoreStep(d: Drain, update: int, blockLen: nat): (r: (Drain, StoreOutcome))
    ensures d.writeInProgress ==> r.1 == Continued(update >= 0)
    ensures d.writeInProgress ==> r.0 == d.(writeInProgress := update < 0)
    ensures !d.writeInProgress ==> (r.1.NoData? <==> |d.queue| < blockLen)
    ensures !d.writeInProgress && |d.queue| >= blockLen ==> r.1.Started?
    ensures r.1.Continued? <==> d.writeInProgress
    ensures r.1.NoData? ==> r.0 == d
    ensures r.1.Started? ==>
      && r.1.block == BlockWrite(d.blockIdx, d.queue[..blockLen])
      && r.0 == d.(blockIdx := Inc32(d.blockIdx), writeInProgress := true, queue := d.queue[blockLen..])
  {
    if d.writeInProgress then (d.(writeInProgress := update < 0), Continued(update >= 0))
    else if |d.queue| < blockLen then (d, NoData)
    else
      (d.(blockIdx := Inc32(d.blockIdx), writeInProgress := true, queue := d.queue[blockLen..]),
       Started(BlockWrite(d.blockIdx, d.queue[..blockLen])))
  }

  /**
   `samples_store_write` called once per entry of `updates`: the final state,
   the block writes started, and how many outstanding writes completed.
   */
  function StoreRun(d: Drain, updates: seq<int>, blockLen: nat): (Drain, seq<BlockWrite>, nat)
    decreases |updates|
  {
    if updates == [] then (d, [], 0)
    else
      var (d1, o) := StoreStep(d, updates[0], blockLen);
      var (d2, bs, done) := StoreRun(d1, updates[1..], blockLen);
      (d2, (if o.Started? then [o.block] else []) + bs,
       (if o == Continued(true) then 1 else 0) + done)
  }

  /** The bytes of a list of block writes, concatenated. */
  function BlockData(bs: seq<BlockWrite>): seq<byte>
  {
    if bs == [] then [] else bs[0].data + BlockData(bs[1..])
  }

  function Count(b: bool): nat { if b then 1 else 0 }

  /** `bs` are block writes of `blockLen` bytes at indices `i`, `i + 1`, ... (modulo 2^32). */
  predicate Consecutive(bs: seq<BlockWrite>, i: u32, blockLen: nat)
  {
    bs == [] || (bs[0].index == i && |bs[0].data| == blockLen && Consecutive(bs[1..], Inc32(i), blockLen))
  }

  /** The `k`-th of consecutive block writes is at index `i + k` modulo 2^32. */
  lemma {:induction false} ConsecutiveAt(bs: seq<BlockWrite>, i: u32, blockLen: nat, k: nat)
    requires Consecutive(bs, i, blockLen) && k < |bs|
    ensures bs[k].index == (i + k) % U32_LIMIT && |bs[k].data| == blockLen
  {
    if k > 0 {
      ConsecutiveAt(bs[1..], Inc32(i), blockLen, k - 1);
      ModStep(i, k - 1);
    }
  }

  /**
   Over any number of polls, the storage drain starts blocks at consecutive
   indices from the current one, each one block long, and the index moves by
   exactly one per block started.
   */
  lemma {:induction false} StoreRunIndices(d: Drain, updates: seq<int>, blockLen: nat)
    ensures var (r, bs, _) := StoreRun(d, updates, blockLen);
      && r.blockIdx == (d.blockIdx + |bs|) % U32_LIMIT
      && Consecutive(bs, d.blockIdx, blockLen)
      && r.uartSeq == d.uartSeq
    decreases |updates|
  {
    if updates != [] {
      var (d1, o) := StoreStep(d, updates[0], blockLen);
      var (r, bs1, done1) := StoreRun(d1, updates[1..], blockLen);
      StoreRunIndices(d1, updates[1..], blockLen);
      var bs := (if o.Started? then [o.block] else []) + bs1;
      assert StoreRun(d, updates, blockLen).1 == bs;
      if o.Started? {
        ModStep(d.blockIdx, |bs1|);
        assert bs[1..] == bs1;
      } else {
        assert bs == bs1;
      }
    }
  }

  /** The `k`-th block started over a run of polls goes to block index start + `k`. */
  lemma StoreRunBlockIndex(d: Drain, updates: seq<int>, blockLen: nat, k: nat)
    requires k < |StoreRun(d, updates, blockLen).1|
    ensures var b := StoreRun(d, updates, blockLen).1[k];
      b.index == (d.blockIdx + k) % U32_LIMIT && |b.data| == blockLen
  {
    StoreRunIndices(d, updates, blockLen);
    ConsecutiveAt(StoreRun(d, updates, blockLen).1, d.blockIdx, blockLen, k);
  }

  /**
   The storage drain never has two block writes outstanding: over any number
   of polls, blocks started plus the write outstanding before equal writes
   completed plus the write outstanding after, so every start but the first
   follows a completion.
   */
  lemma {:induction false} StoreRunBalance(d: Drain, updates: seq<int>, blockLen: nat)
    ensures var (r, bs, done) := StoreRun(d, updates, blockLen);
      |bs| + Count(d.writeInProgress) == done + Count(r.writeInProgress)
    decreases |updates|
  {
    if updates != [] {
      StoreRunBalance(StoreStep(d, updates[0], blockLen).0, updates[1..], blockLen);
    }
  }

  /**
   Over any number of polls, the blocks written hold the ring buffer's bytes
   in order, none lost or repeated, and what is left is the rest of the queue.
   */
  lemma {:induction false} StoreRunData(d: Drain, updates: seq<int>, blockLen: nat)
    ensures var (r, bs, _) := StoreRun(d, updates, blockLen);
      BlockData(bs) + r.queue == d.queue
    decreases |updates|
  {
    if updates != [] {
      var (d1, o) := StoreStep(d, updates[0], blockLen);
      var (r, bs1, done1) := StoreRun(d1, updates[1..], blockLen);
      StoreRunData(d1, updates[1..], blockLen);
      var bs := (if o.Started? then [o.block] else []) + bs1;
      assert StoreRun(d, updates, blockLen).1 == bs;
      if o.Started? {
        assert bs[1..] == bs1;
        assert BlockData(bs) == d.queue[..blockLen] + BlockData(bs1);
        assert d.queue == d.queue[..blockLen] + d1.queue;
      } else {
        assert bs == bs1;
      }
    }
  }

  /** Everything a `Pipeline` holds, as a value. */
  datatype Snapshot = Snapshot(
    calibrated: bool, gainSetting: GainSetting, drain: Drain, status: Status,
    frames: seq<seq<byte>>, blocks: seq<BlockWrite>, updates: nat)

  /** What `samples_start` leaves of a pipeline's state. */
  function Restarted(s: Snapshot): Snapshot
  {
    s.(calibrated := false, gainSetting := CalibrationGain, drain := s.drain.(uartSeq := 0))
  }

  /** `memcpy(dst + at, src, |src|)`. */
  method CopyBytes(dst: array<byte>, at: nat, src: seq<byte>)
    requires at + |src| <= dst.Length
    modifies dst
    ensures dst[..] == old(dst[..at]) + src + old(dst[at + |src|..])
  {
    var i := 0;
    while i < |src|
      invariant 0 <= i <= |src|
      invariant forall j :: 0 <= j < dst.Length ==>
        dst[j] == if at <= j < at + i then src[j - at] else old(dst[j])
    {
      dst[at + i] := src[i];
      i := i + 1;
    }
    assert dst[..] == old(dst[..at]) + src + old(dst[at + |src|..]);
  }

  /**
   The pipeline's static state in fw/samples.c. `samplesTmp` and `sdBlockTmp`
   are the two static staging buffers; `rb` is the ring buffer's unread
   bytes. The ghost fields record what went out: the frames given to the
   link, the block writes started and the number of `sd_write_block_update`
   calls.
   */
  class Pipeline {
    const samplesLen: nat   // SAMPLES_LEN
    const sampleSize: nat   // sizeof(sample)
    const blockLen: nat     // SD_BLOCK_LEN
    const capacity: nat     // SRAM_SIZE_BYTES, the ring buffer's capacity
    const samplesTmp: array<byte>
    const sdBlockTmp: array<byte>

    var calibrated: bool
    var gainSetting: GainSetting
    var uartSeq: u32
    var blockIdx: u32
    var writeInProgress: bool
    var rb: seq<byte>
    var status: Status

    ghost var frames: seq<seq<byte>>
    ghost var blocks: seq<BlockWrite>
    ghost var updates: nat

    /** `SAMPLES_LEN * sizeof(sample)`: the payload bytes of one host-link frame. */
    function PayloadLen(): nat
    {
      samplesLen * sampleSize
    }

    ghost predicate Valid()
      reads this
    {
      && FRAME_HEADER_LEN + PayloadLen() < U16_LIMIT
      && samplesTmp.Length == FRAME_HEADER_LEN + PayloadLen()
      && sdBlockTmp.Length == blockLen
      && samplesTmp != sdBlockTmp
      && |rb| <= capacity
    }

    function DrainState(): Drain
      reads this
    {
      Drain(uartSeq, blockIdx, writeInProgress, rb)
    }

    ghost function State(): Snapshot
      reads this
    {
      Snapshot(calibrated, gainSetting, DrainState(), status, frames, blocks, updates)
    }

    /**
     `samples_init`: the ring buffer is bound and empty, every counter and flag
     is zero. `samples_init` does not set the amplifier gain; `gain` is the
     setting the amplifier already has.
     */
    constructor (samplesLen: nat, sampleSize: nat, blockLen: nat, capacity: nat, gain: GainSetting)
      requires FRAME_HEADER_LEN + samplesLen * sampleSize < U16_LIMIT
      ensures Valid() && fresh(samplesTmp) && fresh(sdBlockTmp)
      ensures this.samplesLen == samplesLen && this.sampleSize == sampleSize
      ensures this.blockLen == blockLen && this.capacity == capacity
      ensures !calibrated && gainSetting == gain
      ensures DrainState() == Drain(0, 0, false, [])
      ensures status == Running && frames == [] && blocks == [] && updates == 0
    {
      this.samplesLen, this.sampleSize := samplesLen, sampleSize;
      this.blockLen, this.capacity := blockLen, capacity;
      samplesTmp := new byte[FRAME_HEADER_LEN + samplesLen * sampleSize];
      sdBlockTmp := new byte[blockLen];
      rb := [];
      uartSeq := 0;
      calibrated := false;
      gainSetting := gain;
      blockIdx := 0;
      writeInProgress := false;
      status := Running;
      frames, blocks, updates := [], [], 0;
    }

    /**
     `samples_start`: a new session begins calibrating with the sequence
     number back at zero; the block index, the outstanding-write flag and the
     ring buffer's contents are left as they are.
     */
    method Start()
      requires Valid()
      modifies this
      ensures Valid()
      ensures State() == Restarted(old(State()))
    {
      calibrated := false;
      uartSeq := 0;
      gainSetting := CalibrationGain;
    }

    /** `samples_end_calibration`: switch the current channel to the control gain. */
    method EndCalibration(controlGain: u8)
      requires Valid()
      modifies this
      ensures Valid()
      ensures State() == old(State()).(calibrated := true, gainSetting := ControlGain(controlGain))
    {
      gainSetting := ControlGain(controlGain);
      calibrated := true;
    }

    /**
     `samples_ringbuf_write(s, len)`: `data` is the bytes of the `len` samples
     at `s`. The byte count is computed in a `uint16_t`; if the ring buffer
     cannot take that many bytes the device halts.
     */
    method RingbufWrite(data: seq<byte>, len: u16)
      requires Valid() && status == Running
      requires |data| == len * sampleSize
      modifies this
      ensures Valid()
      ensures var lenB := (len * sampleSize) % U16_LIMIT;
        if |old(rb)| + lenB <= capacity
        then rb == old(rb) + data[..lenB] && status == Running
        else rb == old(rb) && status == Halted(RingbufWriteFail)
      ensures len * sampleSize < U16_LIMIT && status == Running ==> rb == old(rb) + data
      ensures State().(drain := State().drain.(queue := old(rb)), status := old(status)) == old(State())
    {
      var lenB: u16 := (len * sampleSize) % U16_LIMIT;
      if |rb| + lenB > capacity {
        status := Halted(RingbufWriteFail);
        return;
      }
      rb := rb + data[..lenB];
    }

    /**
     `ringbuf_read(&rb, dst + at, n)`: all `n` bytes or nothing. On success
     they are the oldest unread bytes, copied into `dst` at `at`, and are
     removed from the queue.
     */
    method RingbufRead(dst: array<byte>, at: nat, n: nat) returns (ok: bool)
      requires at + n <= dst.Length
      modifies this`rb, dst
      ensures ok <==> n <= |old(rb)|
      ensures ok ==> rb == old(rb)[n..] && dst[..] == old(dst[..at]) + old(rb)[..n] + old(dst[at + n..])
      ensures !ok ==> rb == old(rb) && dst[..] == old(dst[..])
    {
      if |rb| < n {
        return false;
      }
      CopyBytes(dst, at, rb[..n]);
      rb := rb[n..];
      return true;
    }

    /**
     `samples_uart_write`: when the link can transmit and a frame's worth of
     samples is buffered, send {seqnum, length, payload} and advance the
     sequence number; otherwise send nothing and keep the sequence number.
     */
    method UartWrite(txReady: bool)
      requires Valid() && status == Running
      modifies this, samplesTmp
      ensures Valid()
      ensures var (d, f) := UartStep(old(DrainState()), txReady, PayloadLen());
        && DrainState() == d
        && frames == old(frames) + (if f.Some? then [f.value] else [])
      ensures State().(drain := old(State().drain), frames := old(frames)) == old(State())
    {
      var len: u16 := 0;
      var samplesLenB: u16 := PayloadLen();
      if !txReady {
        return;
      }
      CopyBytes(samplesTmp, len, LE32(uartSeq));
      len := len + 4;
      CopyBytes(samplesTmp, len, LE16(samplesLenB));
      len := len + 2;
      ghost var header := samplesTmp[..FRAME_HEADER_LEN];
      assert header == LE32(uartSeq) + LE16(samplesLenB);
      ghost var queue := rb;
      var ok := RingbufRead(samplesTmp, len, samplesLenB);
      if !ok {
        return;
      }
      len := len + samplesLenB;
      assert samplesTmp[..len] == header + queue[..samplesLenB];
      frames := frames + [samplesTmp[..len]];
      uartSeq := Inc32(uartSeq);
    }

    /**
     `samples_store_write`: with a block write outstanding, only advance it
     (it stays outstanding while `sd_write_block_update` reports < 0); when
     idle, read one block from the ring buffer, start writing it at the
     current block index, count the index up and mark the write outstanding.
     */
    method StoreWrite(update: int)
      requires Valid() && status == Running
      modifies this, sdBlockTmp
      ensures Valid()
      ensures var (d, o) := StoreStep(old(DrainState()), update, blockLen);
        && DrainState() == d
        && blocks == old(blocks) + (if o.Started? then [o.block] else [])
        && updates == old(updates) + (if o.Continued? then 1 else 0)
      ensures State().(drain := old(State().drain), blocks := old(blocks), updates := old(updates)) == old(State())
    {
      if writeInProgress {
        updates := updates + 1;
        writeInProgress := update < 0;
      } else {
        ghost var queue := rb;
        var ok := RingbufRead(sdBlockTmp, 0, blockLen);
        if !ok {
          return;
        }
        assert sdBlockTmp[..] == queue[..blockLen];
        blocks := blocks + [BlockWrite(blockIdx, sdBlockTmp[..])];
        blockIdx := Inc32(blockIdx);
        writeInProgress := true;
      }
    }
  }
}
