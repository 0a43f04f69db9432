/**
 * The read stream's chunking of the file. `fs.createReadStream` with a
 * `highWaterMark` of 5 MiB hands the upload handler the file as a sequence of
 * chunks; that chunking belongs to the stream library, so it is stated here
 * as a pure function the upload model relies on.
 */
module Chunking {

  newtype Byte = b: int | 0 <= b < 256

  /** The stream's `highWaterMark`: 5 MiB per chunk, hence per part. */
  const PART_SIZE: nat := 5 * 1024 * 1024

  /** The bytes of the chunks, in order. */
  function Flatten(chunks: seq<seq<Byte>>): seq<Byte>
  {
    if chunks == [] then [] else chunks[0] + Flatten(chunks[1..])
  }

  /** Rounded-up quotient. */
  function CeilDiv(n: nat, d: nat): nat
    requires d > 0
  {
    (n + d - 1) / d
  }

  lemma MulAtLeast(k: nat, d: nat)
    requires k >= 1
    ensures k * d >= d
  {
  }

  /** A quotient is determined by any decomposition with a remainder below the divisor. */
  lemma DivUnique(m: nat, d: nat, q: nat, r: nat)
    requires d > 0 && m == q * d + r && r < d
    ensures m / d == q
  {
    var q', r' := m / d, m % d;
    assert m == q' * d + r' && r' < d;
    if q' < q {
      assert q * d == q' * d + (q - q') * d;
      MulAtLeast(q - q', d);
    } else if q < q' {
      assert q' * d == q * d + (q' - q) * d;
      MulAtLeast(q' - q, d);
    }
  }

  lemma DivStep(n: nat, d: nat)
    requires d > 0 && n > d
    ensures CeilDiv(n, d) == CeilDiv(n - d, d) + 1
  {
    var m := n - d + d - 1;
    var q, r := m / d, m % d;
    assert m == q * d + r && r < d;
    assert m + d == (q + 1) * d + r;
    DivUnique(m + d, d, q + 1, r);
  }

  lemma DivOne(n: nat, d: nat)
    requires 0 < n <= d
    ensures CeilDiv(n, d) == 1
  {
  }

  /** Chunks every one of which is non-empty and at most `size` long, all but the last exactly `size`. */
  predicate WellSized(chunks: seq<seq<Byte>>, size: nat)
  {
    && (forall i :: 0 <= i < |chunks| ==> 0 < |chunks[i]| <= size)
    && (forall i :: 0 <= i < |chunks| - 1 ==> |chunks[i]| == size)
  }

  /** A full chunk in front of a well-sized chunking of the rest. */
  lemma PrependChunk(head: seq<Byte>, tail: seq<Byte>, rest: seq<seq<Byte>>, size: nat)
    requires 0 < size == |head| && |tail| > 0
    requires Flatten(rest) == tail && WellSized(rest, size) && |rest| == CeilDiv(|tail|, size)
    ensures Flatten([head] + rest) == head + tail
    ensures WellSized([head] + rest, size)
    ensures |[head] + rest| == CeilDiv(|head + tail|, size)
  {
    assert ([head] + rest)[0] == head && ([head] + rest)[1..] == rest;
    DivStep(|head + tail|, size);
    assert forall i :: 1 <= i < |rest| + 1 ==> ([head] + rest)[i] == rest[i - 1];
  }

  /**
   * The stream assumption: the file is delivered as consecutive chunks of
   * `size` bytes, the last one possibly shorter, and an empty file as no
   * chunk at all.
   */
  function Split(bytes: seq<Byte>, size: nat): (chunks: seq<seq<Byte>>)
    requires size > 0
    ensures Flatten(chunks) == bytes
    ensures WellSized(chunks, size)
    ensures |chunks| == CeilDiv(|bytes|, size)
    decreases |bytes|
  {
    if |bytes| == 0 then []
    else if |bytes| <= size then
      DivOne(|bytes|, size);
      assert Flatten([bytes]) == bytes + Flatten([]);
      [bytes]
    else
      var head, tail := bytes[..size], bytes[size..];
      assert head + tail == bytes;
      var rest := Split(tail, size);
      PrependChunk(head, tail, rest, size);
      [head] + rest
  }
}
