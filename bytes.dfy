/** Bytes and the chunked byte streams that HTTP bodies are made of. */
module Bytes {

  /** One octet, `u8` in the source. */
  newtype Byte = b: int | 0 <= b < 256

  /** `Bytes` in the source: an immutable byte buffer. */
  type Bytes = seq<Byte>

  /** The in-order concatenation of a sequence of chunks: what a body yields
      once every data frame has been appended to the buffer. */
  function Concat(chunks: seq<Bytes>): Bytes
  {
    if chunks == [] then [] else Concat(chunks[..|chunks| - 1]) + chunks[|chunks| - 1]
  }

  /** Draining a stream in two parts gives the same buffer as draining it at once:
      concatenation does not depend on where the chunk boundaries fall. */
  lemma {:induction false} ConcatAppend(a: seq<Bytes>, b: seq<Bytes>)
    ensures Concat(a + b) == Concat(a) + Concat(b)
    decreases |b|
  {
    if b == [] {
      assert a + b == a;
    } else {
      var b' := b[..|b| - 1];
      assert (a + b)[..|a + b| - 1] == a + b';
      ConcatAppend(a, b');
    }
  }

  /** The length of the buffer is the sum of the lengths of the chunks. */
  function TotalLength(chunks: seq<Bytes>): nat
  {
    if chunks == [] then 0 else TotalLength(chunks[..|chunks| - 1]) + |chunks[|chunks| - 1]|
  }

  /** No byte is dropped or added by the concatenation. */
  lemma {:induction false} ConcatLength(chunks: seq<Bytes>)
    ensures |Concat(chunks)| == TotalLength(chunks)
  {
    if chunks != [] {
      ConcatLength(chunks[..|chunks| - 1]);
    }
  }

  /** Every byte of every chunk appears in the buffer, at the offset of its chunk
      (the sum of the lengths of the chunks before it) plus its index in the chunk:
      no reordering and no added delimiters. */
  lemma {:induction false} ConcatAt(chunks: seq<Bytes>, i: nat, j: nat)
    requires i < |chunks| && j < |chunks[i]|
    ensures TotalLength(chunks[..i]) + j < |Concat(chunks)|
    ensures Concat(chunks)[TotalLength(chunks[..i]) + j] == chunks[i][j]
    decreases |chunks|
  {
    var n := |chunks| - 1;
    var init := chunks[..n];
    ConcatLength(init);
    ConcatLength(chunks);
    if i == n {
      assert chunks[..i] == init;
    } else {
      assert init[..i] == chunks[..i];
      ConcatAt(init, i, j);
    }
  }
}
