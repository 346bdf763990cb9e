/**
 * The Linux `input_event` record as the project reads and writes it: a
 * 24-byte little-endian block (seconds and microseconds as 64-bit words,
 * then the 16-bit type and code and the 32-bit signed value), together with
 * the event types and codes the gesture engine uses.
 */
module Evdev {
  import Int32

  type byte = b: int | 0 <= b < 256

  const EventSize: nat := 24

  // event types
  const EvSyn: int := 0x00
  const EvKey: int := 0x01
  const EvRel: int := 0x02
  const EvAbs: int := 0x03

  // event codes
  const RelX: int := 0x0
  const RelY: int := 0x1
  const AbsX: int := 0x00
  const AbsY: int := 0x01
  const AbsMtSlot: int := 0x2f
  const AbsMtTouchMajor: int := 0x30
  const AbsMtPositionX: int := 0x35
  const AbsMtPositionY: int := 0x36
  const AbsMtTrackingId: int := 0x39
  const AbsMtPressure: int := 0x3a
  const SynReport: int := 0
  const BtnTouch: int := 0x14a

  datatype InputEvent = InputEvent(sec: int, usec: int, evType: int, code: int, value: int)

  /** An event with a zero timestamp, as the virtual touch pad writes them. */
  function Ev(evType: int, code: int, value: int): InputEvent {
    InputEvent(0, 0, evType, code, value)
  }

  /** The field widths of the record: int64, int64, uint16, uint16, int32. */
  predicate Representable(e: InputEvent) {
    -Pow256(8) / 2 <= e.sec < Pow256(8) / 2 &&
    -Pow256(8) / 2 <= e.usec < Pow256(8) / 2 &&
    0 <= e.evType < Pow256(2) && 0 <= e.code < Pow256(2) &&
    Int32.InRange(e.value)
  }

  function Pow256(n: nat): (r: int)
    ensures r >= 1
  {
    if n == 0 then 1 else 256 * Pow256(n - 1)
  }

  /** The unsigned number whose little-endian bytes are bs. */
  function FromLittleEndian(bs: seq<byte>): (r: nat)
    ensures r < Pow256(|bs|)
  {
    if bs == [] then 0 else bs[0] + 256 * FromLittleEndian(bs[1..])
  }

  /** The n little-endian bytes of x. */
  function ToLittleEndian(x: nat, n: nat): (bs: seq<byte>)
    requires x < Pow256(n)
    ensures |bs| == n
  {
    if n == 0 then [] else [x % 256] + ToLittleEndian(x / 256, n - 1)
  }

  lemma {:induction false} LittleEndianRoundTrip(x: nat, n: nat)
    requires x < Pow256(n)
    ensures FromLittleEndian(ToLittleEndian(x, n)) == x
  {
    if n > 0 {
      LittleEndianRoundTrip(x / 256, n - 1);
      assert ToLittleEndian(x, n)[1..] == ToLittleEndian(x / 256, n - 1);
    }
  }

  lemma {:induction false} LittleEndianBytesRoundTrip(bs: seq<byte>)
    ensures ToLittleEndian(FromLittleEndian(bs), |bs|) == bs
  {
    if bs != [] {
      LittleEndianBytesRoundTrip(bs[1..]);
    }
  }

  /** Two's-complement reading of an n-byte unsigned word (Go's int64(u), int32(u)). */
  function Signed(u: nat, n: nat): (v: int)
    requires u < Pow256(n)
    ensures -Pow256(n) / 2 <= v < Pow256(n) / 2 || n == 0
  {
    if u >= Pow256(n) / 2 then u - Pow256(n) else u
  }

  /** The n-byte unsigned word holding the two's-complement pattern of v. */
  function Unsigned(v: int, n: nat): (u: nat)
    requires -Pow256(n) / 2 <= v < Pow256(n) / 2
    ensures u < Pow256(n)
    ensures n > 0 ==> Signed(u, n) == v
  {
    if v < 0 then v + Pow256(n) else v
  }

  /** binary.Write of an event in little-endian order. */
  function Encode(e: InputEvent): (bs: seq<byte>)
    requires Representable(e)
    ensures |bs| == EventSize
  {
    ToLittleEndian(Unsigned(e.sec, 8), 8) + ToLittleEndian(Unsigned(e.usec, 8), 8) +
    ToLittleEndian(e.evType, 2) + ToLittleEndian(e.code, 2) +
    ToLittleEndian(Unsigned(e.value, 4), 4)
  }

  /** The field-by-field reading of a 24-byte buffer done by GetMouseDelta. */
  function Decode(buf: seq<byte>): (e: InputEvent)
    requires |buf| == EventSize
    ensures Representable(e)
  {
    assert Pow256(4) == 0x1_0000_0000;
    InputEvent(
      Signed(FromLittleEndian(buf[0..8]), 8),
      Signed(FromLittleEndian(buf[8..16]), 8),
      FromLittleEndian(buf[16..18]),
      FromLittleEndian(buf[18..20]),
      Signed(FromLittleEndian(buf[20..24]), 4))
  }

  lemma DecodeEncode(e: InputEvent)
    requires Representable(e)
    ensures Decode(Encode(e)) == e
  {
    var bs := Encode(e);
    var a := ToLittleEndian(Unsigned(e.sec, 8), 8);
    var b := ToLittleEndian(Unsigned(e.usec, 8), 8);
    var c := ToLittleEndian(e.evType, 2);
    var d := ToLittleEndian(e.code, 2);
    var f := ToLittleEndian(Unsigned(e.value, 4), 4);
    assert bs[0..8] == a && bs[8..16] == b && bs[16..18] == c && bs[18..20] == d && bs[20..24] == f;
    LittleEndianRoundTrip(Unsigned(e.sec, 8), 8);
    LittleEndianRoundTrip(Unsigned(e.usec, 8), 8);
    LittleEndianRoundTrip(e.evType, 2);
    LittleEndianRoundTrip(e.code, 2);
    LittleEndianRoundTrip(Unsigned(e.value, 4), 4);
  }

  lemma EncodeDecode(buf: seq<byte>)
    requires |buf| == EventSize
    ensures Encode(Decode(buf)) == buf
  {
    LittleEndianBytesRoundTrip(buf[0..8]);
    LittleEndianBytesRoundTrip(buf[8..16]);
    LittleEndianBytesRoundTrip(buf[16..18]);
    LittleEndianBytesRoundTrip(buf[18..20]);
    LittleEndianBytesRoundTrip(buf[20..24]);
    assert buf == buf[0..8] + buf[8..16] + buf[16..18] + buf[18..20] + buf[20..24];
  }
}
