/**
 * The C++ integer types the host programs compute with. `size_t` is the
 * 64-bit unsigned type of the hosts the programs target and wraps on
 * overflow; `uint` is the 32-bit unsigned type of the result-loop counters.
 */
module SizeTypes {
  const SizeModulus: int := 0x1_0000_0000_0000_0000
  type SizeT = x: int | 0 <= x < SizeModulus

  const UintModulus: int := 0x1_0000_0000
  type Uint = x: int | 0 <= x < UintModulus

  /** `sizeof(double)` */
  const SizeOfDouble: SizeT := 8

  /** A three-component extent: a device's maximum work-item sizes, or an `NDRange`. */
  datatype Extent3 = Extent3(x: SizeT, y: SizeT, z: SizeT)

  /** `size_t` multiplication: the exact product reduced modulo 2^64. */
  function MulSize(a: SizeT, b: SizeT): (r: SizeT)
    ensures a * b < SizeModulus ==> r == a * b
    ensures (a * b - r) % SizeModulus == 0
  {
    (a * b) % SizeModulus
  }

  /** `++i` on an unsigned 32-bit counter. */
  function IncUint(i: Uint): (r: Uint)
    ensures i + 1 < UintModulus ==> r == i + 1
    ensures i + 1 == UintModulus ==> r == 0
  {
    if i + 1 == UintModulus then 0 else i + 1
  }
}
