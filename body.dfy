/** Message bodies: a streamed body that is read frame by frame, the way
    `http_body_util::BodyExt::collect` drains it, and the full body `Body::from`
    builds over a byte buffer. */
module Body {
  import opened Wrappers
  import opened Bytes

  /** Everything a body stream will yield, in arrival order: its data chunks, then
      either a clean end (`failure == None`) or the error that stopped it (a
      transport error, a truncated stream). */
  datatype BodyValue = BodyValue(chunks: seq<Bytes>, failure: Option<string>)

  /** What `body.collect().await` gives, `to_bytes()` applied: the concatenation
      of all chunks, or the error that stopped the stream. */
  function Collected(b: BodyValue): (r: Result<Bytes, string>)
    ensures r.Ok? <==> b.failure.None?
    ensures r.Err? ==> r.error == b.failure.value
    ensures r.Ok? ==> |r.value| == TotalLength(b.chunks)
  {
    ConcatLength(b.chunks);
    if b.failure.Some? then Err(b.failure.value) else Ok(Concat(b.chunks))
  }

  /** `Body::from(bytes)`: a full body that yields the buffer as a single data frame
      (no frame at all when it is empty). Collecting it gives back exactly the
      buffer it was built from. */
  function FromBytes(bytes: Bytes): (b: BodyValue)
    ensures Collected(b) == Ok(bytes)
    ensures |b.chunks| <= 1
  {
    var chunks := if bytes == [] then [] else [bytes];
    assert Concat(chunks) == bytes by {
      if bytes != [] {
        assert chunks[..0] == [];
      }
    }
    BodyValue(chunks, None)
  }

  /** One poll of a body (`poll_frame`). */
  datatype Frame = Data(bytes: Bytes) | Failed(error: string) | End

  /** A body being read. `pos` counts the data frames already taken; `polls`
      counts every poll, the ones that found the error or the end included, so a
      stream whose `polls` is still 0 has not been read at all. */
  class BodyStream {
    const content: BodyValue
    var pos: nat
    ghost var polls: nat

    ghost predicate Valid()
      reads this
    {
      pos <= |content.chunks|
    }

    /** What is still to come from the stream. */
    function Rest(): BodyValue
      reads this
      requires Valid()
    {
      BodyValue(content.chunks[pos..], content.failure)
    }

    constructor (content: BodyValue)
      ensures Valid() && this.content == content && pos == 0 && polls == 0
      ensures Rest() == content
    {
      this.content := content;
      pos := 0;
      polls := 0;
    }

    /** Yields the next data chunk; after the last one, the error that stopped
        the stream or the end. */
    method PollFrame() returns (f: Frame)
      requires Valid()
      modifies this
      ensures Valid() && polls == old(polls) + 1
      ensures old(pos) < |content.chunks| ==> f == Data(content.chunks[old(pos)]) && pos == old(pos) + 1
      ensures old(pos) == |content.chunks| ==>
        pos == old(pos) && f == (if content.failure.Some? then Failed(content.failure.value) else End)
    {
      polls := polls + 1;
      if pos < |content.chunks| {
        f := Data(content.chunks[pos]);
        pos := pos + 1;
      } else if content.failure.Some? {
        f := Failed(content.failure.value);
      } else {
        f := End;
      }
    }

    /** `collect().await` then `to_bytes()`: polls every frame, appending each
        chunk to the buffer in arrival order, until the end or the first error.
        The stream is left fully read either way. */
    method Collect() returns (r: Result<Bytes, string>)
      requires Valid()
      modifies this
      ensures Valid() && pos == |content.chunks| && polls > old(polls)
      ensures r == Collected(old(Rest()))
    {
      ghost var before := polls;
      ghost var start := pos;
      var buffer: Bytes := [];
      while true
        invariant Valid() && start <= pos && before <= polls
        invariant pos > start ==> polls > before
        invariant buffer == Concat(content.chunks[start..pos])
        decreases |content.chunks| - pos
      {
        var f := PollFrame();
        match f
        case Data(chunk) =>
          assert content.chunks[start..pos][..pos - 1 - start] == content.chunks[start..pos - 1];
          buffer := buffer + chunk;
        case Failed(error) =>
          return Err(error);
        case End =>
          assert content.chunks[start..pos] == content.chunks[start..];
          return Ok(buffer);
      }
    }
  }
}
