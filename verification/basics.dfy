/** Shared vocabulary: optional values, nullable OpenCL handles and the C
    integer widths the sources rely on (cl_uint is 32 bits, size_t 64 bits). */
module Basics {

  /** A nullable pointer or an absent value: `None` is C's null. */
  datatype Option<+T> = None | Some(value: T)

  /** An OpenCL object handle (cl_context, cl_mem, ...): null or an opaque object. */
  datatype Handle = Null | Object(id: nat)

  const U32_MODULUS: nat := 0x1_0000_0000
  const SIZE_T_MODULUS: nat := 0x1_0000_0000_0000_0000

  /** A `cl_int` status: a signed 32-bit value. */
  type ClInt = x: int | -0x8000_0000 <= x < 0x8000_0000

  predicate IsU32(x: int) {
    0 <= x < U32_MODULUS
  }

  predicate IsSizeT(x: int) {
    0 <= x < SIZE_T_MODULUS
  }

  /** C's conversion of an integer to the unsigned 32-bit cl_uint. */
  function ToU32(x: int): (r: nat)
    ensures IsU32(r)
    ensures (x - r) % U32_MODULUS == 0
    ensures IsU32(x) ==> r == x
  {
    x % U32_MODULUS
  }

  /** C's conversion of an integer to the unsigned 64-bit size_t. */
  function ToSizeT(x: int): (r: nat)
    ensures IsSizeT(r)
    ensures (x - r) % SIZE_T_MODULUS == 0
    ensures IsSizeT(x) ==> r == x
  {
    x % SIZE_T_MODULUS
  }

  function Min(a: int, b: int): int {
    if a < b then a else b
  }

  /** `k` is the unique Euclidean remainder of `a` by `m` once `a == q * m + k`. */
  lemma ModUnique(a: int, m: int, q: int, k: int)
    requires m > 0
    requires a == q * m + k
    requires 0 <= k < m
    ensures a % m == k
    ensures a / m == q
  {
    var q', k' := a / m, a % m;
    assert (q - q') * m == k' - k;
    MulAtLeast(q - q', m);
    MulAtLeast(q' - q, m);
  }

  lemma MulAtLeast(d: int, m: int)
    requires m > 0
    ensures d >= 1 ==> d * m >= m
  {
  }

  /** Reducing a factor modulo `m` before multiplying does not change the product modulo `m`. */
  lemma ModMulLeft(a: int, b: int, m: int)
    requires m > 0
    ensures ((a % m) * b) % m == (a * b) % m
  {
    var q, k := a / m, a % m;
    var q2, k2 := (k * b) / m, (k * b) % m;
    assert a * b == (q * b) * m + k * b by {
      assert a == q * m + k;
    }
    assert a * b == (q * b + q2) * m + k2 by {
      assert k * b == q2 * m + k2;
    }
    ModUnique(a * b, m, q * b + q2, k2);
  }
}
