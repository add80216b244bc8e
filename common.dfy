/**
 Machine-width integers, the little-endian byte layout the firmware's `memcpy`
 of a native integer produces, and the terminal states of the device.
 */
module Common {

  const U8_LIMIT: int := 0x100
  const U16_LIMIT: int := 0x1_0000
  const U32_LIMIT: int := 0x1_0000_0000

  type u8 = x: int | 0 <= x < 0x100
  type u16 = x: int | 0 <= x < 0x1_0000
  type u32 = x: int | 0 <= x < 0x1_0000_0000
  type i8 = x: int | -0x80 <= x < 0x80

  /** A byte of memory. */
  type byte = u8

  datatype Option<T> = None | Some(value: T)

  /** The codes the firmware passes to `halt`. */
  datatype ErrorCode = FsFormatFail | RingbufWriteFail

  /**
   `halt` and `reset` never return to their caller. The model records them as
   a status; nothing runs on a device that is no longer `Running`.
   */
  datatype Status = Running | Halted(code: ErrorCode) | ResetIssued

  /** `x++` on a `uint32_t`. */
  function Inc32(x: u32): (r: u32)
    ensures x < U32_LIMIT - 1 ==> r == x + 1
    ensures x == U32_LIMIT - 1 ==> r == 0
  {
    (x + 1) % U32_LIMIT
  }

  /** Assigning an integer to a `uint8_t`: keep the low eight bits. */
  function ToU8(x: int): (r: u8)
    ensures (x - r) % U8_LIMIT == 0
    ensures 0 <= x < U8_LIMIT ==> r == x
  {
    x % U8_LIMIT
  }

  /** Assigning an integer to an `int8_t` (two's complement, as the AVR compiler does). */
  function ToI8(x: int): (r: i8)
    ensures (x - r) % U8_LIMIT == 0
    ensures -0x80 <= x < 0x80 ==> r == x
  {
    var m := x % U8_LIMIT;
    if m < 0x80 then m else m - U8_LIMIT
  }

  /** The two bytes of a `uint16_t` in memory order (the target is little-endian). */
  function LE16(x: u16): (b: seq<byte>)
    ensures |b| == 2
  {
    [(x % 0x100), (x / 0x100)]
  }

  function FromLE16(b: seq<byte>): u16
    requires |b| == 2
  {
    b[0] as int + 0x100 * b[1] as int
  }

  /** The four bytes of a `uint32_t` in memory order (the target is little-endian). */
  function LE32(x: u32): (b: seq<byte>)
    ensures |b| == 4
  {
    [(x % 0x100), (x / 0x100 % 0x100),
     (x / 0x1_0000 % 0x100), (x / 0x100_0000)]
  }

  function FromLE32(b: seq<byte>): u32
    requires |b| == 4
  {
    var lo := FromLE16(b[..2]);
    var hi := FromLE16(b[2..]);
    lo as int + 0x1_0000 * hi as int
  }

  lemma LE16RoundTrip(x: u16)
    ensures FromLE16(LE16(x)) == x
  {
  }

  lemma LE16Inverse(b: seq<byte>)
    requires |b| == 2
    ensures LE16(FromLE16(b)) == b
  {
  }

  /** Reading back the bytes of a `uint32_t` gives the same number. */
  lemma LE32RoundTrip(x: u32)
    ensures FromLE32(LE32(x)) == x
  {
    var b := LE32(x);
    var lo := x % 0x1_0000;
    var hi := x / 0x1_0000;
    assert lo == x % 0x100 + 0x100 * (x / 0x100 % 0x100);
    assert hi == x / 0x1_0000 % 0x100 + 0x100 * (x / 0x100_0000);
    assert FromLE16(b[..2]) == lo;
    assert FromLE16(b[2..]) == hi;
  }

  /** Every four bytes are the memory image of exactly one `uint32_t`. */
  lemma LE32Inverse(b: seq<byte>)
    requires |b| == 4
    ensures LE32(FromLE32(b)) == b
  {
    var lo := FromLE16(b[..2]);
    var hi := FromLE16(b[2..]);
    var x := FromLE32(b);
    assert x % 0x1_0000 == lo && x / 0x1_0000 == hi;
    assert x % 0x100 == b[0];
    assert x / 0x100 % 0x100 == b[1];
    assert x / 0x1_0000 % 0x100 == b[2];
    assert x / 0x100_0000 == b[3];
  }
}
