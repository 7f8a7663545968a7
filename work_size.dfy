/**
 * The work-size arithmetic of the host programs: the global work size as
 * the `size_t` product of a device's maximum work-item sizes, the byte size
 * of a buffer of doubles, and the counting loop over the results.
 */
module WorkSize {
  import opened SizeTypes

  /** `dimensions[0] * dimensions[1] * dimensions[2]`, evaluated left to right in `size_t`. */
  function GlobalDim(e: Extent3): SizeT {
    MulSize(MulSize(e.x, e.y), e.z)
  }

  /** Subtracting a multiple of 2^64 does not change a residue. */
  lemma ModSubMultiple(n: int, k: int)
    ensures (n - k * SizeModulus) % SizeModulus == n % SizeModulus
  {
    var q, r := n / SizeModulus, n % SizeModulus;
    assert n - k * SizeModulus == (q - k) * SizeModulus + r;
  }

  /** The wrapped left-to-right product is the exact product of all three reduced modulo 2^64. */
  lemma GlobalDimIsWrappedProduct(e: Extent3)
    ensures GlobalDim(e) == (e.x * e.y * e.z) % SizeModulus
  {
    var p := e.x * e.y;
    var q := p / SizeModulus;
    var r := MulSize(e.x, e.y);
    assert p == q * SizeModulus + r;
    assert r * e.z == p * e.z - (q * e.z) * SizeModulus by {
      assert r * e.z == (p - q * SizeModulus) * e.z;
    }
    ModSubMultiple(p * e.z, q * e.z);
  }

  /** Without overflow the global work size is the plain product. */
  lemma GlobalDimExact(e: Extent3)
    requires e.x * e.y * e.z < SizeModulus
    ensures GlobalDim(e) == e.x * e.y * e.z
  {
    GlobalDimIsWrappedProduct(e);
  }

  /** With overflow it is not: 2^32 x 2^32 x 1 work items come to a global work size of 0. */
  lemma GlobalDimCanWrapToZero()
    ensures GlobalDim(Extent3(0x1_0000_0000, 0x1_0000_0000, 1)) == 0
  {
  }

  /** `v.size() * sizeof(double)` for a vector of `n` doubles, in `size_t`. */
  function BufferBytes(n: SizeT): (r: SizeT)
    ensures n < SizeModulus / SizeOfDouble ==> r == n * SizeOfDouble
    ensures r % SizeOfDouble == 0
  {
    MulSize(n, SizeOfDouble)
  }

  /** The indices `0 .. n - 1` in increasing order. */
  function Indices(n: SizeT): (r: seq<SizeT>)
    ensures |r| == n && forall k :: 0 <= k < n ==> r[k] == k
  {
    seq(n, k requires 0 <= k < n => k)
  }

  /**
   * The result loop with a `size_t` counter: it visits every index below
   * `bound` exactly once, in increasing order.
   */
  method VisitIndices(bound: SizeT) returns (visited: seq<SizeT>)
    ensures |visited| == bound
    ensures forall k :: 0 <= k < bound ==> visited[k] == k
    ensures visited == Indices(bound)
  {
    visited := [];
    var i: SizeT := 0;
    while i < bound
      invariant 0 <= i <= bound
      invariant |visited| == i && forall k :: 0 <= k < i ==> visited[k] == k
    {
      visited := visited + [i];
      i := i + 1;
    }
  }

  /**
   * The result loop as the programs write it, `for (uint i = 0; i < n; ++i)`:
   * the counter is a 32-bit `uint` compared against a `size_t` bound. It
   * terminates, and then visits every index once in order, only for bounds
   * below 2^32 (see UintCheckLoopNeverExits).
   */
  method VisitIndicesUint(bound: SizeT) returns (visited: seq<SizeT>)
    requires bound < UintModulus
    ensures |visited| == bound
    ensures forall k :: 0 <= k < bound ==> visited[k] == k
    ensures visited == Indices(bound)
  {
    visited := [];
    var i: Uint := 0;
    while i < bound
      invariant 0 <= i <= bound
      invariant |visited| == i && forall k :: 0 <= k < i ==> visited[k] == k
    {
      visited := visited + [i];
      i := IncUint(i);
    }
  }

  /** The `uint` counter after `n` iterations of `++i` from 0. */
  function UintAfter(n: nat): Uint {
    if n == 0 then 0 else IncUint(UintAfter(n - 1))
  }

  /** The `uint` counter is the iteration count modulo 2^32. */
  lemma {:induction false} UintAfterIsModular(n: nat)
    ensures UintAfter(n) == n % UintModulus
  {
    if n > 0 {
      UintAfterIsModular(n - 1);
    }
  }

  /**
   * For a bound of 2^32 or more the `uint` loop never exits: its guard holds
   * after every number of iterations, and after 2^32 iterations the counter
   * is back at index 0.
   */
  lemma UintCheckLoopNeverExits(bound: SizeT)
    requires bound >= UintModulus
    ensures forall n: nat :: UintAfter(n) < bound
    ensures UintAfter(UintModulus) == 0
  {
    UintAfterIsModular(UintModulus);
  }
}
