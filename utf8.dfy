/** The acceptance test of Rust's `std::str::from_utf8`: a byte buffer is text
    when it is a concatenation of well-formed UTF-8 sequences, as listed in
    Table 3-7 of the Unicode Standard (no overlong forms, no surrogates, nothing
    above U+10FFFF, no truncated sequence). */
module Utf8 {
  import opened Bytes

  predicate IsContinuation(b: Byte)
  {
    0x80 <= b <= 0xBF
  }

  /** The length of the sequence a lead byte announces; 0 for a byte that cannot
      start one (a continuation byte, C0, C1, F5 to FF). */
  function AnnouncedLength(lead: Byte): (n: nat)
    ensures n <= 4
  {
    if lead <= 0x7F then 1
    else if 0xC2 <= lead <= 0xDF then 2
    else if 0xE0 <= lead <= 0xEF then 3
    else if 0xF0 <= lead <= 0xF4 then 4
    else 0
  }

  /** The range of the second byte after a lead byte: narrower after E0 and F0
      (no overlong forms), ED (no surrogates) and F4 (nothing above U+10FFFF). */
  function SecondLow(lead: Byte): Byte
  {
    if lead == 0xE0 then 0xA0 else if lead == 0xF0 then 0x90 else 0x80
  }

  function SecondHigh(lead: Byte): Byte
  {
    if lead == 0xED then 0x9F else if lead == 0xF4 then 0x8F else 0xBF
  }

  /** The nine rows of Table 3-7 (Well-Formed UTF-8 Byte Sequences) of the
      Unicode Standard, each with its own byte ranges. */
  predicate InTable(q: Bytes)
  {
    || (|q| == 1 && q[0] <= 0x7F)
    || (|q| == 2 && 0xC2 <= q[0] <= 0xDF && 0x80 <= q[1] <= 0xBF)
    || (|q| == 3 && 0x80 <= q[2] <= 0xBF && (
          || (q[0] == 0xE0 && 0xA0 <= q[1] <= 0xBF)
          || (0xE1 <= q[0] <= 0xEC && 0x80 <= q[1] <= 0xBF)
          || (q[0] == 0xED && 0x80 <= q[1] <= 0x9F)
          || (0xEE <= q[0] <= 0xEF && 0x80 <= q[1] <= 0xBF)))
    || (|q| == 4 && 0x80 <= q[2] <= 0xBF && 0x80 <= q[3] <= 0xBF && (
          || (q[0] == 0xF0 && 0x90 <= q[1] <= 0xBF)
          || (0xF1 <= q[0] <= 0xF3 && 0x80 <= q[1] <= 0xBF)
          || (q[0] == 0xF4 && 0x80 <= q[1] <= 0x8F)))
  }

  /** The length of the well-formed sequence that starts `s`, or 0 when `s` does
      not start with one. */
  function LeadingScalarLength(s: Bytes): (k: nat)
    ensures k <= |s| && k <= 4
  {
    if |s| == 0 then 0
    else
      var n := AnnouncedLength(s[0]);
      if n == 0 || |s| < n then 0
      else if n >= 2 && !(SecondLow(s[0]) <= s[1] <= SecondHigh(s[0])) then 0
      else if n >= 3 && !IsContinuation(s[2]) then 0
      else if n == 4 && !IsContinuation(s[3]) then 0
      else n
  }

  /** The prefix `LeadingScalarLength` measures is a row of Table 3-7, and when it
      gives 0 no prefix of `s` is one. */
  lemma LeadingScalarLengthFollowsTable(s: Bytes)
    ensures LeadingScalarLength(s) > 0 ==> InTable(s[..LeadingScalarLength(s)])
    ensures LeadingScalarLength(s) == 0 ==> forall n :: 1 <= n <= |s| ==> !InTable(s[..n])
  {
  }

  /** `std::str::from_utf8(s).is_ok()`: `s` splits, from its first byte on, into
      rows of Table 3-7. */
  predicate ValidUtf8(s: Bytes)
    decreases |s|
  {
    |s| == 0 || (LeadingScalarLength(s) > 0 && ValidUtf8(s[LeadingScalarLength(s)..]))
  }

  /** Plain ASCII is always text. */
  lemma {:induction false} AsciiIsText(s: Bytes)
    requires forall i :: 0 <= i < |s| ==> s[i] <= 0x7F
    ensures ValidUtf8(s)
    decreases |s|
  {
    if |s| > 0 {
      AsciiIsText(s[1..]);
    }
  }

  /** Whether a sequence is well formed is decided by its own bytes only. */
  lemma LeadingScalarLengthOfPrefix(a: Bytes, b: Bytes)
    requires LeadingScalarLength(a) > 0
    ensures LeadingScalarLength(a + b) == LeadingScalarLength(a)
  {
    var k := LeadingScalarLength(a);
    assert forall i :: 0 <= i < k ==> (a + b)[i] == a[i];
  }

  /** Two texts joined are a text. */
  lemma {:induction false} AppendValid(a: Bytes, b: Bytes)
    requires ValidUtf8(a) && ValidUtf8(b)
    ensures ValidUtf8(a + b)
    decreases |a|
  {
    if a == [] {
      assert a + b == b;
    } else {
      var k := LeadingScalarLength(a);
      LeadingScalarLengthOfPrefix(a, b);
      AppendValid(a[k..], b);
      assert (a + b)[k..] == a[k..] + b;
      ValidFromLeadingScalar(a + b);
    }
  }

  /** A sequence that starts with a well-formed scalar followed by text is text. */
  lemma ValidFromLeadingScalar(s: Bytes)
    requires LeadingScalarLength(s) > 0 && ValidUtf8(s[LeadingScalarLength(s)..])
    ensures ValidUtf8(s)
  {
  }

  /** A body whose every chunk is text is text as a whole. */
  lemma {:induction false} ConcatOfValidChunks(chunks: seq<Bytes>)
    requires forall i :: 0 <= i < |chunks| ==> ValidUtf8(chunks[i])
    ensures ValidUtf8(Concat(chunks))
  {
    if chunks != [] {
      ConcatOfValidChunks(chunks[..|chunks| - 1]);
      AppendValid(Concat(chunks[..|chunks| - 1]), chunks[|chunks| - 1]);
    }
  }

  /** The converse fails: the two bytes of U+00E9 split over two chunks leave two
      chunks that are not text while their concatenation is. This is why the
      text check is made on the collected buffer and never per chunk. */
  lemma ChunkBoundaryMaySplitScalar()
    ensures ValidUtf8([0xC3, 0xA9])
    ensures !ValidUtf8([0xC3]) && !ValidUtf8([0xA9])
    ensures Concat([[0xC3], [0xA9]]) == [0xC3, 0xA9]
  {
    var s: Bytes := [0xC3, 0xA9];
    assert LeadingScalarLength(s) == 2;
    assert s[2..] == [];
    assert Concat([[0xC3]]) == [0xC3] by {
      assert [[0xC3 as Byte]][..0] == [];
    }
    assert [[0xC3 as Byte], [0xA9]][..1] == [[0xC3]];
  }
}
