/** Padding of vertex and instance data before it is copied to the GPU. */
module Gfx {

  /** `wgpu::COPY_BUFFER_ALIGNMENT`: copies move whole multiples of this
      many bytes. */
  const CopyBufferAlignment: nat := 4

  /** A byte length a copy accepts: non-zero and a multiple of the
      alignment. */
  predicate Aligned(bytes: int)
  {
    bytes > 0 && bytes % CopyBufferAlignment == 0
  }

  /** `out` is `buf` padded as the padding loop pads it: `buf` followed by
      copies of `default`, just long enough for the byte length at `size`
      bytes per element to be aligned, and no longer. */
  ghost predicate Padded<T>(buf: seq<T>, out: seq<T>, default: T, size: nat)
  {
    && |buf| <= |out| && out[..|buf|] == buf
    && (forall k :: |buf| <= k < |out| ==> out[k] == default)
    && Aligned(|out| * size)
    && (forall m: nat :: |buf| <= m < |out| ==> !Aligned(m * size))
  }

  /** The first positive multiple of the alignment that is at least `n`. */
  function NextAlignedCount(n: nat): (r: nat)
    ensures r > 0 && r % CopyBufferAlignment == 0
    ensures n <= r && (n > 0 ==> r < n + CopyBufferAlignment)
    ensures r <= n + CopyBufferAlignment
  {
    if n == 0 then CopyBufferAlignment
    else (n + CopyBufferAlignment - 1) / CopyBufferAlignment * CopyBufferAlignment
  }

  /** Whole multiples of the alignment, counted in elements, are aligned in
      bytes whatever the element size. */
  lemma AlignedMultiple(m: nat, size: nat)
    requires size > 0 && m > 0 && m % CopyBufferAlignment == 0
    ensures Aligned(m * size)
  {
    var q := m / CopyBufferAlignment;
    assert m * size == CopyBufferAlignment * (q * size);
  }

  /** `pad_buffer_to_wgpu_copy_buffer_alignment`: appends `T::default()`
      to `buf` until its byte length is non-zero and aligned. `size` is the
      element size in bytes; with zero-sized elements the loop of the
      program never ends, so it must be positive. */
  method PadToCopyAlignment<T>(buf: seq<T>, default: T, size: nat) returns (buf': seq<T>)
    requires size > 0
    ensures Padded(buf, buf', default, size)
  {
    buf' := buf;
    while true
      invariant |buf| <= |buf'| <= NextAlignedCount(|buf|) && buf'[..|buf|] == buf
      invariant forall k :: |buf| <= k < |buf'| ==> buf'[k] == default
      invariant forall m: nat :: |buf| <= m < |buf'| ==> !Aligned(m * size)
      decreases NextAlignedCount(|buf|) - |buf'|
    {
      var bytesLen := |buf'| * size;
      if bytesLen > 0 && bytesLen % CopyBufferAlignment == 0 {
        break;
      }
      if |buf'| == NextAlignedCount(|buf|) {
        AlignedMultiple(|buf'|, size);
        assert false;
      }
      buf' := buf' + [default];
    }
  }

  // ---------------------------------------------------------------
  // Properties of the padding
  // ---------------------------------------------------------------

  /** The padding is determined by its input: two paddings of the same
      buffer agree. */
  lemma PaddedUnique<T>(buf: seq<T>, out1: seq<T>, out2: seq<T>, default: T, size: nat)
    requires Padded(buf, out1, default, size) && Padded(buf, out2, default, size)
    ensures out1 == out2
  {
    assert |out1| < |out2| ==> !Aligned(|out1| * size);
    assert |out2| < |out1| ==> !Aligned(|out2| * size);
    forall k | 0 <= k < |out1|
      ensures out1[k] == out2[k]
    {
      if k < |buf| {
        assert out1[k] == out1[..|buf|][k] && out2[k] == out2[..|buf|][k];
      }
    }
  }

  /** A buffer that is already non-empty and aligned is left as it is. */
  lemma PaddedKeepsAligned<T>(buf: seq<T>, out: seq<T>, default: T, size: nat)
    requires Padded(buf, out, default, size) && Aligned(|buf| * size)
    ensures out == buf
  {
    assert |buf| < |out| ==> !Aligned(|buf| * size);
    assert out == out[..|buf|];
  }

  /** An empty buffer always gains at least one element. */
  lemma PaddedEmptyGrows<T>(out: seq<T>, default: T, size: nat)
    requires Padded([], out, default, size)
    ensures |out| > 0
  {
    assert !Aligned(0 * size);
  }

  /** Fewer elements than the alignment are ever appended, or exactly as
      many when the buffer was empty (and the element size a multiple of
      the alignment). */
  lemma PaddedBound<T>(buf: seq<T>, out: seq<T>, default: T, size: nat)
    requires Padded(buf, out, default, size) && size > 0
    ensures |out| <= NextAlignedCount(|buf|)
    ensures |buf| > 0 ==> |out| < |buf| + CopyBufferAlignment
  {
    var r := NextAlignedCount(|buf|);
    AlignedMultiple(r, size);
    assert r < |out| ==> !Aligned(r * size);
  }
}
