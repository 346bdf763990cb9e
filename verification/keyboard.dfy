/**
 * The physical keyboard (internal/features/keyboard.go): the key-state
 * bitmap returned by the EVIOCGKEY ioctl and the lowest pressed key.
 */
module Keyboard {
  import opened Wrappers
  import opened Evdev

  const KeyMax: nat := 0x2ff
  /** Bytes in the key-state bitmap. */
  const KeyBitsSize: nat := KeyMax / 8 + 1

  /** Bit k % 8 of byte k / 8: the kernel's "key k is down". */
  predicate KeyDown(bits: seq<byte>, k: nat)
    requires k / 8 < |bits|
  {
    (bits[k / 8] as bv8) & ((1 as bv8) << (k % 8)) != 0
  }

  /** getPressedKeys after a successful ioctl: the codes below KeyMax whose bit is set, ascending. */
  method PressedKeys(bits: seq<byte>) returns (pressed: seq<nat>)
    requires |bits| == KeyBitsSize
    ensures forall k: nat :: k in pressed <==> k < KeyMax && KeyDown(bits, k)
    ensures forall i, j :: 0 <= i < j < |pressed| ==> pressed[i] < pressed[j]
  {
    pressed := [];
    var code := 0;
    while code < KeyMax
      invariant 0 <= code <= KeyMax
      invariant forall k: nat :: k in pressed <==> k < code && KeyDown(bits, k)
      invariant forall i, j :: 0 <= i < j < |pressed| ==> pressed[i] < pressed[j]
      invariant forall i :: 0 <= i < |pressed| ==> pressed[i] < code
    {
      if KeyDown(bits, code) {
        pressed := pressed + [code];
      }
      code := code + 1;
    }
  }

  /**
   * GetKey: the lowest pressed key code, or -1 when the ioctl failed (None)
   * or no key below KeyMax is down.
   */
  method GetKey(ioctl: Option<seq<byte>>) returns (key: int)
    requires ioctl.Some? ==> |ioctl.value| == KeyBitsSize
    ensures key == -1 <==> ioctl.None? || forall k: nat :: k < KeyMax ==> !KeyDown(ioctl.value, k)
    ensures key != -1 ==>
      0 <= key < KeyMax && KeyDown(ioctl.value, key) && forall k: nat :: k < key ==> !KeyDown(ioctl.value, k)
  {
    if ioctl.None? {
      return -1;
    }
    var pressed := PressedKeys(ioctl.value);
    if |pressed| > 0 {
      key := pressed[0];
      assert key in pressed;
      assert forall j :: 0 <= j < |pressed| ==> key <= pressed[j];
    } else {
      key := -1;
      forall k: nat | k < KeyMax ensures !KeyDown(ioctl.value, k) {
        assert k !in pressed;
      }
    }
  }
}
