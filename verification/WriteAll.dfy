/** The write-all loops over short writes. */
module WriteAll {
  import opened Uring
  import opened Buffers
  import opened Slices

  /** A chunk that reached the file, and where. */
  datatype Chunk = Chunk(pos: nat, data: seq<Byte>)

  datatype Error = InvalidInput | WriteZero | Os(errno: int)

  function Bytes(chunks: seq<Chunk>): seq<Byte> {
    if chunks == [] then [] else Bytes(chunks[..|chunks| - 1]) + chunks[|chunks| - 1].data
  }

  /** Every chunk starts where the one before it ended. */
  ghost predicate Consecutive(chunks: seq<Chunk>, pos: nat) {
    forall i :: 0 <= i < |chunks| ==> chunks[i].pos == pos + |Bytes(chunks[..i])|
  }

  lemma BytesAppend(chunks: seq<Chunk>, c: Chunk)
    ensures Bytes(chunks + [c]) == Bytes(chunks) + c.data
  {
  }

  lemma ConsecutiveAppend(chunks: seq<Chunk>, pos: nat, c: Chunk)
    requires Consecutive(chunks, pos) && c.pos == pos + |Bytes(chunks)|
    ensures Consecutive(chunks + [c], pos)
  {
    var all := chunks + [c];
    forall i | 0 <= i < |all| ensures all[i].pos == pos + |Bytes(all[..i])| {
      assert all[..i] == chunks[..i];
      assert i == |chunks| ==> chunks[..i] == chunks;
    }
  }

  /** A request carries its length in 32 bits, a completion its result in 32
      bits with a sign. */
  const U32_COUNT: nat := 0x1_0000_0000
  const I32_MAX: nat := 0x7FFF_FFFF

  /** The kernel always writes something. */
  ghost predicate Willing(script: nat -> int) { forall i :: script(i) > 0 }

  /** What the kernel answers to a request to write `len` bytes. */
  function Answer(script: nat -> int, call: nat, len: nat): IoResult {
    if script(call) < 0 then Failure(-script(call))
    else Success(Min(Min(script(call), I32_MAX), len % U32_COUNT))
  }

  /** The kernel's side of fixed writes. `script` fixes the outcome of each
      call in advance, so every possible sequence of results is covered: a
      negative number is an error, anything else is how much is written at
      most. */
  class Sink {
    const script: nat -> int
    var calls: nat
    var chunks: seq<Chunk>

    constructor (script: nat -> int)
      ensures this.script == script && calls == 0 && chunks == []
    {
      this.script := script;
      calls, chunks := 0, [];
    }

    /** `write_fixed_at`, awaited. The buffer that comes back is the one of the
        output of a write. */
    method WriteFixedAt(s: Slice, pos: nat) returns (r: IoResult, back: Slice)
      requires SliceOk(s)
      modifies this
      ensures r.Success? ==> r.count <= |Shown(s)| && chunks == old(chunks) + [Chunk(pos, Shown(s)[..r.count])]
      ensures r.Failure? ==> chunks == old(chunks)
      ensures r == Answer(script, old(calls), |Shown(s)|) && calls == old(calls) + 1
      ensures back == s
    {
      var requested := |Shown(s)| % U32_COUNT;
      var v := script(calls);
      var res := if v < 0 then v else Min(Min(v, I32_MAX), requested);
      calls := calls + 1;
      if res >= 0 {
        chunks := chunks + [Chunk(pos, Shown(s)[..res])];
      }
      var caps, lens := [|s.buf.mem|], [s.buf.init];
      OthersKeepLengths(false, caps, lens, res);
      var out := Transform(false, caps, lens, res);
      r, back := out.result, s.(buf := Buf(s.buf.mem, out.lens[0]));
    }
  }

  const U64_MAX: nat := 0xFFFF_FFFF_FFFF_FFFF

  /** What can be left to write of `total` bytes when the loop that began with
      call `first` is about to make call `call`: no request ever takes away a
      multiple of 4 GiB, and of exactly such a multiple none takes anything. */
  ghost predicate MayBeLeft(first: nat, call: nat, total: nat, left: nat) {
    && left <= total && left / U32_COUNT == total / U32_COUNT
    && (total > 0 && total % U32_COUNT == 0 ==> call == first && left == total)
  }

  /** How a loop over `total` bytes that begins with call `first` can end: well
      only below 4 GiB, whatever the kernel does; well exactly below 4 GiB if the
      kernel always writes something; and with `WriteZero` after one call for a
      multiple of 4 GiB, unless that call fails. */
  ghost predicate EndsAs(script: nat -> int, first: nat, total: nat, r: Option<Error>) {
    && (r.None? ==> total < U32_COUNT)
    && (Willing(script) ==> r == if total < U32_COUNT then None else Some(WriteZero))
    && (total > 0 && total % U32_COUNT == 0 && script(first) >= 0 ==> r == Some(WriteZero))
  }

  /** One request of a write loop. */
  lemma OneAnswer(script: nat -> int, first: nat, call: nat, total: nat, left: nat)
    requires MayBeLeft(first, call, total, left) && left > 0
    ensures var r := Answer(script, call, left);
      && (r.Failure? ==> EndsAs(script, first, total, Some(Os(r.errno))))
      && (r.Success? ==> r.count <= left)
      && (r.Success? && r.count == 0 ==> EndsAs(script, first, total, Some(WriteZero)))
      && (r.Success? && r.count > 0 ==> MayBeLeft(first, call + 1, total, left - r.count))
  {
    assert Willing(script) ==> script(call) > 0;
    if left < U32_COUNT {
      assert left % U32_COUNT == left;
    }
  }

  /** `written` is what a loop got through, `left` is what remains; every call so
      far wrote something. */
  ghost predicate Midway(script: nat -> int, first: nat, call: nat, written: seq<Byte>, left: seq<Byte>,
                         all: seq<Byte>) {
    && written + left == all && MayBeLeft(first, call, |all|, |left|)
    && first <= call && (first < call ==> script(call - 1) > 0)
  }

  /** Why a call with `left` bytes to write made a loop fail: the kernel's own
      error, or nothing was written because the kernel was ready to write nothing
      or was asked for nothing. */
  ghost predicate FailedBy(script: nat -> int, call: nat, left: nat, e: Error) {
    if script(call) < 0 then e == Os(-script(call))
    else e == WriteZero && (script(call) == 0 || left % U32_COUNT == 0)
  }

  /** A loop over `all` that made the calls `first..call` ended with `r`:
      everything is written and no call failed, or a prefix is written and the
      last call says why. */
  ghost predicate Ended(script: nat -> int, first: nat, call: nat, written: seq<Byte>, all: seq<Byte>,
                        r: Option<Error>) {
    && |written| <= |all| && written == all[..|written|] && first <= call
    && (r.None? ==> written == all && (first < call ==> script(call - 1) > 0))
    && (r.Some? ==> first < call && FailedBy(script, call - 1, |all| - |written|, r.value))
    && EndsAs(script, first, |all|, r) && (|all| % U32_COUNT == 0 ==> written == [])
  }

  /** A request that the kernel fails. */
  lemma RequestFails(script: nat -> int, first: nat, call: nat, written: seq<Byte>, left: seq<Byte>, all: seq<Byte>)
    requires Midway(script, first, call, written, left, all) && left != [] && Answer(script, call, |left|).Failure?
    ensures Ended(script, first, call + 1, written, all, Some(Os(Answer(script, call, |left|).errno)))
  {
    OneAnswer(script, first, call, |all|, |left|);
    PrefixOf(written, left, all);
  }

  /** A request with which nothing is written. */
  lemma RequestWritesNothing(script: nat -> int, first: nat, call: nat, written: seq<Byte>, left: seq<Byte>,
                             all: seq<Byte>)
    requires Midway(script, first, call, written, left, all) && left != [] && Answer(script, call, |left|) == Success(0)
    ensures Ended(script, first, call + 1, written, all, Some(WriteZero))
  {
    OneAnswer(script, first, call, |all|, |left|);
    PrefixOf(written, left, all);
  }

  /** A request with which `n` bytes are written. */
  lemma RequestWrites(script: nat -> int, first: nat, call: nat, written: seq<Byte>, left: seq<Byte>, all: seq<Byte>,
                      n: nat)
    requires Midway(script, first, call, written, left, all) && left != [] && n > 0
    requires Answer(script, call, |left|) == Success(n)
    ensures n <= |left| && Midway(script, first, call + 1, written + left[..n], left[n..], all)
  {
    OneAnswer(script, first, call, |all|, |left|);
    assert written + left[..n] + left[n..] == written + left;
  }

  lemma PrefixOf(written: seq<Byte>, left: seq<Byte>, all: seq<Byte>)
    requires written + left == all
    ensures |written| <= |all| && written == all[..|written|] && |all| - |written| == |left|
  {
  }

  /** With nothing left the loop ends well. */
  lemma NothingLeft(script: nat -> int, first: nat, call: nat, written: seq<Byte>, left: seq<Byte>, all: seq<Byte>)
    requires Midway(script, first, call, written, left, all) && left == []
    ensures Ended(script, first, call, written, all, None)
  {
  }

  /** `write_fixed_all_at_slice`: for every sequence of short writes the loop
      ends, no slice assertion fails and `pos` does not overflow; on success
      the chunks are the whole view at consecutive offsets, on an error a
      prefix of it; the buffer comes back unchanged. */
  method WriteFixedAllAtSlice(sink: Sink, buf0: Slice, pos0: nat) returns (r: Option<Error>, back: Buf)
    requires SliceOk(buf0) && pos0 <= U64_MAX && sink.chunks == []
    modifies sink
    ensures back == buf0.buf
    ensures Consecutive(sink.chunks, pos0) && pos0 + |Bytes(sink.chunks)| <= U64_MAX
    ensures r == Some(InvalidInput) <==> pos0 + |Shown(buf0)| >= 0x1_0000_0000_0000_0000
    ensures r == Some(InvalidInput) ==> sink.chunks == [] && sink.calls == old(sink.calls)
    ensures r != Some(InvalidInput) ==>
      Ended(sink.script, old(sink.calls), sink.calls, Bytes(sink.chunks), Shown(buf0), r)
  {
    if pos0 + |Shown(buf0)| > U64_MAX {
      return Some(InvalidInput), buf0.buf;
    }
    ghost var first := sink.calls;
    var buf, pos := buf0, pos0;
    while |Shown(buf)| != 0
      invariant SliceOk(buf) && buf.buf == buf0.buf && Consecutive(sink.chunks, pos0)
      invariant Midway(sink.script, first, sink.calls, Bytes(sink.chunks), Shown(buf), Shown(buf0))
      invariant pos == pos0 + |Bytes(sink.chunks)| && pos + |Shown(buf)| <= U64_MAX
      decreases |Shown(buf)|
    {
      var n;
      r, n, buf := WriteOnce(sink, buf, pos, first, Shown(buf0), pos0);
      if r.Some? {
        return r, buf.buf;
      }
      SuffixShows(buf, n);
      pos := pos + n;
      buf := SubSlice(buf, Included(n), Unbounded).value;
    }
    NothingLeft(sink.script, first, sink.calls, Bytes(sink.chunks), Shown(buf), Shown(buf0));
    return None, buf.buf;
  }

  /** The body of a loop up to the slicing: one write and what to make of it. */
  method WriteOnce(sink: Sink, buf: Slice, pos: nat, ghost first: nat, ghost all: seq<Byte>, ghost pos0: nat)
    returns (r: Option<Error>, n: nat, back: Slice)
    requires SliceOk(buf) && Shown(buf) != []
    requires Midway(sink.script, first, sink.calls, Bytes(sink.chunks), Shown(buf), all)
    modifies sink
    ensures r != Some(InvalidInput) && back == buf
    ensures r.Some? ==> Ended(sink.script, first, sink.calls, Bytes(sink.chunks), all, r)
    ensures r.None? ==>
      && 0 < n <= |Shown(buf)|
      && Midway(sink.script, first, sink.calls, Bytes(sink.chunks), Shown(buf)[n..], all)
    ensures |Bytes(sink.chunks)| == |Bytes(old(sink.chunks))| + n
    ensures Consecutive(old(sink.chunks), pos0) && pos == pos0 + |Bytes(old(sink.chunks))| ==>
      Consecutive(sink.chunks, pos0)
  {
    ghost var call, before, left := sink.calls, sink.chunks, Shown(buf);
    var res;
    res, back := sink.WriteFixedAt(buf, pos);
    match res {
      case Failure(e) =>
        RequestFails(sink.script, first, call, Bytes(before), left, all);
        r, n := Some(Os(e)), 0;
      case Success(v) =>
        ChunkWritten(before, pos, left[..v], pos0);
        if v == 0 {
          RequestWritesNothing(sink.script, first, call, Bytes(before), left, all);
        } else {
          RequestWrites(sink.script, first, call, Bytes(before), left, all, v);
        }
        r, n := if v == 0 then Some(WriteZero) else None, v;
    }
  }

  lemma ChunkWritten(chunks: seq<Chunk>, pos: nat, data: seq<Byte>, pos0: nat)
    ensures Bytes(chunks + [Chunk(pos, data)]) == Bytes(chunks) + data
    ensures data == [] ==> Bytes(chunks + [Chunk(pos, data)]) == Bytes(chunks)
    ensures Consecutive(chunks, pos0) && pos == pos0 + |Bytes(chunks)| ==>
      Consecutive(chunks + [Chunk(pos, data)], pos0)
  {
    BytesAppend(chunks, Chunk(pos, data));
    if Consecutive(chunks, pos0) && pos == pos0 + |Bytes(chunks)| {
      ConsecutiveAppend(chunks, pos0, Chunk(pos, data));
    }
  }

  /** `write_fixed_all_at` of a whole buffer or of a slice: the caller gets back
      what it passed in, with its bounds. */
  method WriteFixedAllAt(sink: Sink, v: Bounded, pos: nat) returns (r: Option<Error>, back: Bounded)
    requires SliceOk(FullSlice(v)) && pos <= U64_MAX && sink.chunks == []
    modifies sink
    ensures back == v && Consecutive(sink.chunks, pos)
    ensures r == Some(InvalidInput) <==> pos + |Shown(FullSlice(v))| >= 0x1_0000_0000_0000_0000
    ensures r == Some(InvalidInput) ==> sink.chunks == [] && sink.calls == old(sink.calls)
    ensures r != Some(InvalidInput) ==>
      Ended(sink.script, old(sink.calls), sink.calls, Bytes(sink.chunks), Shown(FullSlice(v)), r)
  {
    var buf;
    r, buf := WriteFixedAllAtSlice(sink, FullSlice(v), pos);
    BoundsRoundTrip(v);
    back := FromBounds(buf, BoundsOf(v)).value;
  }

  /** `write_fixed_all_slice` of a socket, where every write has offset 0. */
  method WriteFixedAllSlice(sink: Sink, buf0: Slice) returns (r: Option<Error>, back: Buf)
    requires SliceOk(buf0) && sink.chunks == []
    modifies sink
    ensures back == buf0.buf && r != Some(InvalidInput)
    ensures Ended(sink.script, old(sink.calls), sink.calls, Bytes(sink.chunks), Shown(buf0), r)
  {
    ghost var first := sink.calls;
    var buf := buf0;
    while |Shown(buf)| != 0
      invariant SliceOk(buf) && buf.buf == buf0.buf
      invariant Midway(sink.script, first, sink.calls, Bytes(sink.chunks), Shown(buf), Shown(buf0))
      decreases |Shown(buf)|
    {
      var n;
      r, n, buf := WriteOnce(sink, buf, 0, first, Shown(buf0), 0);
      if r.Some? {
        return r, buf.buf;
      }
      SuffixShows(buf, n);
      buf := SubSlice(buf, Included(n), Unbounded).value;
    }
    NothingLeft(sink.script, first, sink.calls, Bytes(sink.chunks), Shown(buf), Shown(buf0));
    return None, buf.buf;
  }

  /** `write_fixed_all` of a socket. */
  method WriteFixedAll(sink: Sink, v: Bounded) returns (r: Option<Error>, back: Bounded)
    requires SliceOk(FullSlice(v)) && sink.chunks == []
    modifies sink
    ensures back == v && r != Some(InvalidInput)
    ensures Ended(sink.script, old(sink.calls), sink.calls, Bytes(sink.chunks), Shown(FullSlice(v)), r)
  {
    var buf;
    r, buf := WriteFixedAllSlice(sink, FullSlice(v));
    BoundsRoundTrip(v);
    back := FromBounds(buf, BoundsOf(v)).value;
  }

  /** The failing input: a buffer of exactly 4 GiB. Whatever the kernel is ready
      to write, the first request asks it for nothing, and nothing is written. */
  method FourGiBIsNotWritten(script: nat -> int) returns (r: Option<Error>, written: seq<Byte>)
    ensures script(0) >= 0 ==> r == Some(WriteZero) && written == []
    ensures r.Some?
  {
    var sink := new Sink(script);
    var v := Whole(Buf(seq(0x1_0000_0000, _ => 0), 0x1_0000_0000));
    r, v := WriteFixedAllAt(sink, v, 0);
    written := Bytes(sink.chunks);
  }
}
