/**
 * Go's int32 arithmetic: the finger coordinates, the mouse deltas and the
 * values of input events are int32, so additions wrap modulo 2^32.
 */
module Int32 {
  const Min: int := -0x8000_0000
  const Max: int := 0x7FFF_FFFF
  const Modulus: int := 0x1_0000_0000

  predicate InRange(x: int) { Min <= x <= Max }

  /** The int32 value Go computes for the mathematical value x (wrap-around). */
  function Wrap(x: int): (r: int)
    ensures InRange(r)
    ensures (r - x) % Modulus == 0
    ensures InRange(x) ==> r == x
  {
    (x - Min) % Modulus + Min
  }

  /** clamp(value, min, max) of the gesture loops: the value moved into [lo, hi]. */
  function Clamp(value: int, lo: int, hi: int): (r: int)
    ensures lo <= hi ==> lo <= r <= hi
    ensures lo <= value <= hi ==> r == value
    ensures r == value || r == lo || r == hi
    ensures InRange(value) && InRange(lo) && InRange(hi) ==> InRange(r)
  {
    if value < lo then lo else if value > hi then hi else value
  }

  /** abs of the GUI gesture loop: negation in int32, so abs(Min) stays Min. */
  function Abs(n: int): (r: int)
    requires InRange(n)
    ensures InRange(r)
    ensures r >= 0 <==> n != Min
    ensures n != Min ==> r == n || r == -n
    ensures n != Min ==> r >= n && r >= -n
    ensures n == Min ==> r == Min
  {
    if n < 0 then Wrap(-n) else n
  }
}
