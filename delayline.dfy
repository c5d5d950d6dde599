/** Ring-buffer arithmetic shared by the echo and the flanger.

    Both plugins keep a zero-filled `delay_buffer` of fixed size, a
    `write_head` that is incremented and wrapped after every sample, and read
    heads computed as `write_head - offset` with a single `+ size` correction.
    The buffer's contents are described here as a function of every sample
    ever pushed since instantiation (the history), so that a read can be
    stated as "the sample pushed `offset` steps ago". */
module DelayLine {

  lemma MulAtLeast(x: int, m: int)
    requires x >= 1 && m > 0
    ensures x * m >= m
  {
  }

  /** Euclidean division is determined by any quotient and in-range remainder. */
  lemma ModOf(a: int, m: int, q: int, r: int)
    requires m > 0 && 0 <= r < m && a == q * m + r
    ensures a % m == r && a / m == q
  {
    var q0, r0 := a / m, a % m;
    assert a == q0 * m + r0;
    assert (q - q0) * m == r0 - r;
    if q0 < q {
      MulAtLeast(q - q0, m);
    } else if q0 > q {
      MulAtLeast(q0 - q, m);
    }
  }

  /** Two indices closer than `m` never fall into the same slot. */
  lemma ModDistinct(a: int, b: int, m: int)
    requires m > 0 && 0 < b - a < m
    ensures a % m != b % m
  {
    var q, r := a / m, a % m;
    if r + (b - a) < m {
      ModOf(b, m, q, r + (b - a));
    } else {
      ModOf(b, m, q + 1, r + (b - a) - m);
    }
  }

  /** Taking one more element of `s` onto a history `h`. */
  lemma AppendNext(h: seq<real>, s: seq<real>, k: nat)
    requires k < |s|
    ensures s[..k + 1] == s[..k] + [s[k]]
    ensures h + s[..k + 1] == h + s[..k] + [s[k]]
  {
    assert s[..k + 1] == s[..k] + [s[k]];
  }

  /** A read index after the plugins' single correction: `if (i < 0) i += size`. */
  function Wrap(i: int, size: nat): (r: int)
    ensures -(size as int) <= i < size ==> 0 <= r < size
    ensures i >= 0 ==> r == i
  {
    if i < 0 then i + size else i
  }

  /** One correction suffices exactly when the index is less than one lap behind. */
  lemma WrapIsMod(i: int, size: nat)
    requires -(size as int) <= i < size
    ensures Wrap(i, size) == i % size
  {
    if i < 0 {
      ModOf(i, size, -1, i + size);
    } else {
      ModOf(i, size, 0, i);
    }
  }

  /** The write head after one sample: `write_head++; if (write_head >= size) write_head -= size`. */
  function NextHead(wh: int, size: nat): (r: int)
    ensures 0 <= wh < size ==> 0 <= r < size
    ensures 0 <= wh < size ==> (r == 0 <==> wh == size - 1)
  {
    if wh + 1 >= size then wh + 1 - size else wh + 1
  }

  /** A write head that starts at 0 and advances once per sample sits at the sample count modulo the size. */
  lemma NextHeadCounts(k: int, size: nat)
    requires size > 0
    ensures NextHead(k % size, size) == (k + 1) % size
  {
    var q := k / size;
    if k % size + 1 < size {
      ModOf(k + 1, size, q, k % size + 1);
    } else {
      ModOf(k + 1, size, q + 1, 0);
    }
  }

  /** Reading `offset` slots behind a write head at `k mod size` addresses slot `(k - offset) mod size`. */
  lemma ReadIndexCounts(k: int, offset: int, size: nat)
    requires size > 0 && 0 <= offset <= size
    ensures 0 <= Wrap(k % size - offset, size) < size
    ensures Wrap(k % size - offset, size) == (k - offset) % size
  {
    var q, r := k / size, k % size;
    if r - offset < 0 {
      ModOf(k - offset, size, q - 1, r - offset + size);
    } else {
      ModOf(k - offset, size, q, r - offset);
    }
  }

  /** The contents of a zero-filled ring of `size` slots after the samples of
      `h` were written, in order, at slots 0, 1, 2, ... modulo `size`. */
  function Ring(h: seq<real>, size: nat): (r: seq<real>)
    requires size > 0
    ensures |r| == size
    decreases |h|
  {
    if h == [] then seq(size, _ => 0.0)
    else Ring(h[..|h| - 1], size)[(|h| - 1) % size := h[|h| - 1]]
  }

  /** The sample pushed `offset` steps ago (1 is the newest), or 0.0 when
      fewer samples than that were pushed, as the zero-filled buffer gives. */
  function Past(h: seq<real>, offset: int): real
  {
    if 0 < offset <= |h| then h[|h| - offset] else 0.0
  }

  /** Writing one more sample updates exactly the slot the write head points at. */
  lemma RingPush(h: seq<real>, x: real, size: nat)
    requires size > 0
    ensures Ring(h + [x], size) == Ring(h, size)[|h| % size := x]
  {
    assert (h + [x])[..|h|] == h;
  }

  /** The ring returns the sample pushed `offset` steps ago as long as
      `offset` is at most one lap: nothing newer has overwritten that slot,
      and before it was first written the slot holds its initial zero. */
  lemma {:induction false} RingRead(h: seq<real>, size: nat, offset: nat)
    requires 0 < offset <= size
    ensures Ring(h, size)[(|h| - offset) % size] == Past(h, offset)
  {
    if h != [] {
      var k := |h|;
      if offset > 1 {
        ModDistinct(k - offset, k - 1, size);
        RingRead(h[..k - 1], size, offset - 1);
      }
    }
  }
}
