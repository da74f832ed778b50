/** The host-buffer size both samples' `_tmain` compute before
    `_aligned_malloc`: the byte size rounded up to a whole number of 64-byte
    cache lines, in `size_t` arithmetic. */
module Alignment {
  import opened Basics

  const CACHE_LINE: nat := 64

  /** `sizeof(element) * width * height` evaluated in `size_t` (the products
      wrap modulo 2^64, which composes). */
  function BufferBytes(elementSize: nat, width: nat, height: nat): (bytes: nat)
    ensures IsSizeT(bytes)
    ensures IsSizeT(elementSize * width * height) ==> bytes == elementSize * width * height
  {
    ToSizeT(elementSize * width * height)
  }

  /** `((bytes - 1) / 64 + 1) * 64` in `size_t`. */
  function AlignedSize(bytes: nat): (r: nat)
    requires IsSizeT(bytes)
    ensures IsSizeT(r)
    // the smallest multiple of 64 that holds the bytes, when there is room for it
    ensures 0 < bytes <= SIZE_T_MODULUS - CACHE_LINE ==> r % CACHE_LINE == 0 && bytes <= r < bytes + CACHE_LINE
    // an empty buffer: bytes - 1 wraps to SIZE_MAX and the rounding wraps back to 0
    ensures bytes == 0 ==> r == 0
    // within the last cache line of the address space the rounding wraps to 0
    ensures SIZE_T_MODULUS - CACHE_LINE < bytes ==> r == 0
  {
    var lines := ToSizeT(bytes - 1) / CACHE_LINE + 1;
    AlignedFacts(bytes, lines);
    ToSizeT(lines * CACHE_LINE)
  }

  lemma AlignedFacts(bytes: nat, lines: int)
    requires IsSizeT(bytes)
    requires lines == ToSizeT(bytes - 1) / CACHE_LINE + 1
    ensures 0 < bytes <= SIZE_T_MODULUS - CACHE_LINE ==>
      ToSizeT(lines * CACHE_LINE) == lines * CACHE_LINE && bytes <= lines * CACHE_LINE < bytes + CACHE_LINE
      && (lines * CACHE_LINE) % CACHE_LINE == 0
    ensures bytes == 0 ==> ToSizeT(lines * CACHE_LINE) == 0
    ensures SIZE_T_MODULUS - CACHE_LINE < bytes ==> ToSizeT(lines * CACHE_LINE) == 0
  {
    if bytes == 0 {
      assert ToSizeT(bytes - 1) == SIZE_T_MODULUS - 1;
      assert lines * CACHE_LINE == SIZE_T_MODULUS;
    } else {
      var q := (bytes - 1) / CACHE_LINE;
      assert bytes - 1 == q * CACHE_LINE + (bytes - 1) % CACHE_LINE;
      if SIZE_T_MODULUS - CACHE_LINE < bytes {
        assert q == SIZE_T_MODULUS / CACHE_LINE - 1;
        assert lines * CACHE_LINE == SIZE_T_MODULUS;
      }
    }
  }

  /** The heat sample's 16 x 16 floats need 1024 bytes. */
  lemma HeatPlateSize()
    ensures AlignedSize(BufferBytes(4, 16, 16)) == 1024
  {
    assert BufferBytes(4, 16, 16) == 1024;
    assert ToSizeT(1023) / CACHE_LINE == 15;
  }

  /** The vector-add sample's 1024 x 1024 ints, stored in a `cl_uint`, need
      4 MiB. */
  lemma VectorArraySize()
    ensures ToU32(AlignedSize(BufferBytes(4, 1024, 1024))) == 4194304
  {
    assert BufferBytes(4, 1024, 1024) == 4194304;
    assert ToSizeT(4194303) / CACHE_LINE == 65535;
  }
}
