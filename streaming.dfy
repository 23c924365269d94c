/** `StreamBuffer`: chunks of streamed text, capped at the last `max_size`
    chunks (no cap when `max_size` is 0, as `buffer[-0:]` is the whole list). */
module Streaming {

  import opened PyText

  /** The buffer after `add(chunk)`. */
  function Added(buffer: seq<string>, chunk: string, maxSize: int): seq<string> {
    var b := buffer + [chunk];
    if |b| > maxSize then SliceFrom(b, -maxSize) else b
  }

  class StreamBuffer {
    var buffer: seq<string>
    var maxSize: int

    constructor (maxSize: int)
      ensures buffer == [] && this.maxSize == maxSize
    {
      buffer := [];
      this.maxSize := maxSize;
    }

    method Add(chunk: string)
      modifies this
      ensures buffer == Added(old(buffer), chunk, maxSize) && maxSize == old(maxSize)
    {
      buffer := buffer + [chunk];
      if |buffer| > maxSize {
        buffer := SliceFrom(buffer, -maxSize);
      }
    }

    /** `"".join(buffer)`. */
    function GetAll(): (text: string)
      reads this
      ensures |text| == TotalLength(buffer)
    {
      JoinLength(buffer);
      Join(buffer, "")
    }

    method Clear()
      modifies this
      ensures buffer == [] && maxSize == old(maxSize)
    {
      buffer := [];
    }
  }

  function TotalLength(chunks: seq<string>): nat {
    if chunks == [] then 0 else |chunks[0]| + TotalLength(chunks[1..])
  }

  lemma {:induction false} JoinLength(chunks: seq<string>)
    ensures |Join(chunks, "")| == TotalLength(chunks)
  {
    if |chunks| > 1 {
      JoinLength(chunks[1..]);
    }
  }

  /** Joining with no separator distributes over appending one chunk. */
  lemma {:induction false} JoinAppend(chunks: seq<string>, chunk: string)
    ensures Join(chunks + [chunk], "") == Join(chunks, "") + chunk
  {
    if chunks == [] {
      assert chunks + [chunk] == [chunk];
    } else {
      assert (chunks + [chunk])[1..] == chunks[1..] + [chunk];
      JoinAppend(chunks[1..], chunk);
      if |chunks| == 1 {
        assert chunks[1..] == [];
      }
    }
  }

  /** `add` keeps the chunk as the newest entry; with `max_size >= 1` the
      buffer is the last `min(len + 1, max_size)` entries of the old buffer
      followed by the chunk. */
  lemma AddKeepsNewest(buffer: seq<string>, chunk: string, maxSize: int)
    requires maxSize >= 1
    ensures var b := Added(buffer, chunk, maxSize);
      && |b| == (if |buffer| + 1 < maxSize then |buffer| + 1 else maxSize)
      && b == (buffer + [chunk])[|buffer| + 1 - |b|..]
      && b[|b| - 1] == chunk
  {
    var b := Added(buffer, chunk, maxSize);
    assert b[|b| - 1] == (buffer + [chunk])[|buffer|];
  }

  /** With `max_size` 0 nothing is ever evicted, and the text read back is
      everything added, in order. */
  lemma UnboundedKeepsAll(buffer: seq<string>, chunk: string)
    ensures Added(buffer, chunk, 0) == buffer + [chunk]
    ensures Join(Added(buffer, chunk, 0), "") == Join(buffer, "") + chunk
  {
    JoinAppend(buffer, chunk);
  }

  /** Adding below capacity extends the text by exactly the chunk. */
  lemma AddBelowCapacity(buffer: seq<string>, chunk: string, maxSize: int)
    requires |buffer| < maxSize
    ensures Join(Added(buffer, chunk, maxSize), "") == Join(buffer, "") + chunk
  {
    JoinAppend(buffer, chunk);
  }
}
