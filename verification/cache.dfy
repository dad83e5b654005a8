/** The GPU buffer that holds the circle instances, reallocated only when
    the data outgrows it. */
module Cache {
  import Gfx

  datatype Option<T> = None | Some(value: T)

  /** A GPU buffer. Only its size in bytes is observed; creating one is
      allocating a fresh object. */
  class Buffer {
    const size: nat

    constructor (size: nat)
      ensures this.size == size
    {
      this.size := size;
    }
  }

  /** `Range<u64>`: the bytes `start .. end` of a buffer. */
  datatype ByteRange = ByteRange(start: nat, end: nat)

  /** `wgpu::BufferSlice`: a byte range of one buffer. */
  datatype BufferSlice = BufferSlice(buffer: Buffer, bounds: ByteRange)

  function Max(a: nat, b: nat): nat
  {
    if a < b then b else a
  }

  /** `CachedDynamicBuffer`: a lazily created buffer of `len` elements of
      `elementSize` bytes each. */
  class CachedDynamicBuffer {
    const elementSize: nat
    var len: Option<nat>
    var buffer: Option<Buffer>

    /** Between calls, a buffer exists exactly when a length is recorded, and
        it holds that many elements. */
    ghost predicate Valid()
      reads this
    {
      && (len.Some? <==> buffer.Some?)
      && (buffer.Some? ==> buffer.value.size == len.value * elementSize)
    }

    /** `CachedDynamicBuffer::new`: nothing is allocated yet. */
    constructor (elementSize: nat)
      ensures Valid()
      ensures this.elementSize == elementSize && len == None && buffer == None
    {
      this.elementSize := elementSize;
      len := None;
      buffer := None;
    }

    /** `at_len_at_least`: a buffer for at least `minLen` elements. The
        cached buffer is kept when it is large enough; otherwise it is
        dropped and a fresh one of exactly `minLen` elements takes its
        place. */
    method AtLenAtLeast(minLen: nat) returns (b: Buffer)
      requires Valid()
      modifies this
      ensures Valid() && buffer == Some(b)
      ensures len == Some(if old(len).Some? then Max(old(len).value, minLen) else minLen)
      ensures old(len).Some? && minLen <= old(len).value ==> b == old(buffer).value
      ensures !(old(len).Some? && minLen <= old(len).value) ==>
        fresh(b) && b.size == minLen * elementSize
    {
      if len.Some? && len.value < minLen {
        buffer := None;
      }
      if buffer.None? {
        len := Some(minLen);
        var created := new Buffer(minLen * elementSize);
        buffer := Some(created);
      }
      b := buffer.value;
    }

    /** `slice_bounds`: the first `n` elements, in bytes. */
    function SliceBounds(n: nat): (r: ByteRange)
      ensures r.start == 0 && r.end == n * elementSize
    {
      ByteRange(0, n * elementSize)
    }

    /** A slice of no more elements than the buffer holds stays inside the
        buffer. */
    lemma SliceFits(n: nat)
      requires Valid() && len.Some? && n <= len.value
      ensures SliceBounds(n).end <= buffer.value.size
    {
      MulMonotone(n, len.value, elementSize);
    }

    /** `slice`: the first `n` elements of a buffer grown to hold them. The
        buffer the program expects to find is always there, and the range
        lies inside it. */
    method Slice(n: nat) returns (s: BufferSlice)
      requires Valid()
      modifies this
      ensures Valid() && buffer.Some? && len.Some? && n <= len.value
      ensures len == Some(if old(len).Some? then Max(old(len).value, n) else n)
      ensures old(len).Some? && n <= old(len).value ==> buffer == old(buffer)
      ensures !(old(len).Some? && n <= old(len).value) ==>
        fresh(buffer.value) && buffer.value.size == n * elementSize
      ensures s == BufferSlice(buffer.value, SliceBounds(n))
      ensures s.bounds.end <= s.buffer.size
    {
      var _ := AtLenAtLeast(n);
      SliceFits(n);
      s := BufferSlice(buffer.value, SliceBounds(n));
    }

    /** `write_all`: pads `data` to the copy alignment, makes the buffer
        large enough for the padded data, writes it at offset 0, undoes the
        padding and returns the slice of the unpadded data. The queue write
        is returned as `written`. The caller's data comes back unchanged;
        the write is aligned and fits in the buffer; the capacity grows to
        the padded length exactly as `AtLenAtLeast` grows it, reusing the
        cached buffer when the padded data fits; and the returned slice
        views the very buffer that was written. */
    method WriteAll<T>(data: seq<T>, default: T) returns (data': seq<T>, written: seq<T>, target: Buffer, s: BufferSlice)
      requires Valid() && elementSize > 0
      modifies this
      ensures Valid() && len.Some? && |written| <= len.value
      ensures len == Some(if old(len).Some? then Max(old(len).value, |written|) else |written|)
      ensures old(len).Some? && |written| <= old(len).value ==> target == old(buffer).value
      ensures !(old(len).Some? && |written| <= old(len).value) ==>
        fresh(target) && target.size == |written| * elementSize
      ensures data' == data
      ensures Gfx.Padded(data, written, default, elementSize)
      ensures Gfx.Aligned(|written| * elementSize) && |written| * elementSize <= target.size
      ensures s == BufferSlice(target, SliceBounds(|data|)) && buffer == Some(target)
      ensures s.bounds.end <= target.size
    {
      var originalLen := |data|;
      var padded := Gfx.PadToCopyAlignment(data, default, elementSize);
      target := AtLenAtLeast(|padded|);
      written := padded;
      data' := padded[..originalLen];
      SliceFits(|padded|);
      s := Slice(|data'|);
    }
  }

  lemma MulMonotone(a: nat, b: nat, c: nat)
    requires a <= b
    ensures a * c <= b * c
  {
    assert b * c == a * c + (b - a) * c;
  }
}
