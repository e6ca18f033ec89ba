/** Owned views of a contiguous buffer. */
module Slices {
  import opened Uring
  import opened Buffers

  /** A buffer with a single iovec: its memory, as large as its capacity, and
      how much of it is initialized. */
  datatype Buf = Buf(mem: seq<Byte>, init: nat)

  datatype Slice = Slice(buf: Buf, begin: nat, end: nat)

  /** A bound of a range. */
  datatype Bound = Included(n: nat) | Excluded(n: nat) | Unbounded

  ghost predicate BufOk(b: Buf) { b.init <= |b.mem| <= USIZE_MAX }

  ghost predicate SliceOk(s: Slice) {
    BufOk(s.buf) && s.begin <= s.end <= |s.buf.mem| && s.begin <= s.buf.init
  }

  function CheckedAdd(a: nat, b: nat): Option<nat> {
    if a + b <= USIZE_MAX then Some(a + b) else None
  }

  function CheckedAdd2(a: nat, b: nat, c: nat): Option<nat> {
    if CheckedAdd(a, b).None? then None else CheckedAdd(CheckedAdd(a, b).value, c)
  }

  function StartOf(base: nat, bound: Bound): Option<nat> {
    match bound
    case Included(n) => CheckedAdd(base, n)
    case Excluded(n) => CheckedAdd2(base, n, 1)
    case Unbounded => Some(base)
  }

  function EndOf(base: nat, end: nat, bound: Bound): Option<nat> {
    match bound
    case Included(n) => CheckedAdd2(base, n, 1)
    case Excluded(n) => CheckedAdd(base, n)
    case Unbounded => Some(end)
  }

  /** `Slice::slice`. */
  function SubSlice(s: Slice, start: Bound, end: Bound): Outcome<Slice> {
    match (StartOf(s.begin, start), EndOf(s.begin, s.end, end))
    case (Some(b), Some(e)) =>
      if b <= s.end && e <= s.end && b <= s.buf.init then Done(Slice(s.buf, b, e)) else Panic
    case (_, _) => Panic
  }

  /** `slice` of a whole buffer, which must start before the end of it. */
  function SliceOfBuf(buf: Buf, start: Bound, end: Bound): Outcome<Slice> {
    match (StartOf(0, start), EndOf(0, |buf.mem|, end))
    case (Some(b), Some(e)) =>
      if b < |buf.mem| && e <= |buf.mem| && b <= buf.init then Done(Slice(buf, b, e)) else Panic
    case (_, _) => Panic
  }

  function SliceFull(buf: Buf): Slice { Slice(buf, 0, |buf.mem|) }

  /** The initialized bytes a slice shows. */
  function Shown(s: Slice): seq<Byte>
    requires s.begin <= s.end && s.begin <= s.buf.init <= |s.buf.mem|
  {
    s.buf.mem[s.begin..Min(s.end, s.buf.init)]
  }

  /** `bytes_total`. */
  function BytesTotal(s: Slice): nat
    requires s.begin <= s.end
  {
    s.end - s.begin
  }

  /** A slice of a slice is the range of its view, initialized or not, shows the
      slice of what the slice shows, and is made exactly when the range starts in
      the initialized part and stays inside the view. */
  lemma SubSliceShows(s: Slice, a: nat, b: nat)
    requires SliceOk(s) && a <= b
    ensures SubSlice(s, Included(a), Excluded(b)).Done? <==> a <= |Shown(s)| && b <= s.end - s.begin
    ensures SubSlice(s, Included(a), Excluded(b)).Done? ==>
      var t := SubSlice(s, Included(a), Excluded(b)).value;
      && SliceOk(t) && t.buf == s.buf && t.begin == s.begin + a && t.end == s.begin + b && BytesTotal(t) == b - a
      && Shown(t) == Shown(s)[a..Min(b, |Shown(s)|)]
  {
  }

  /** The other forms of bounds mean what they say. */
  lemma BoundForms(s: Slice, start: Bound, end: Bound, n: nat)
    requires SliceOk(s)
    ensures SubSlice(s, Excluded(n), end) == SubSlice(s, Included(n + 1), end)
    ensures SubSlice(s, start, Included(n)) == SubSlice(s, start, Excluded(n + 1))
    ensures SubSlice(s, Unbounded, end) == SubSlice(s, Included(0), end)
    ensures SubSlice(s, start, Unbounded) == SubSlice(s, start, Excluded(s.end - s.begin))
  {
  }

  /** A slice of a whole buffer is the range of its memory, and is made exactly
      when the range starts before the end of the buffer and in the initialized
      part, and stays inside the buffer. */
  lemma BufSliceIs(buf: Buf, a: nat, b: nat)
    requires BufOk(buf) && a <= b
    ensures SliceOfBuf(buf, Included(a), Excluded(b)).Done? <==> a < |buf.mem| && a <= buf.init && b <= |buf.mem|
    ensures SliceOfBuf(buf, Included(a), Excluded(b)).Done? ==>
      var t := SliceOfBuf(buf, Included(a), Excluded(b)).value;
      && SliceOk(t) && t.buf == buf && t.begin == a && t.end == b && BytesTotal(t) == b - a
      && Shown(t) == buf.mem[a..Min(b, buf.init)]
  {
    if a < |buf.mem| && a <= buf.init && b <= |buf.mem| {
      assert Min(b, buf.init) >= a;
    }
  }

  /** Slicing a whole buffer is slicing its full view, except that a slice which
      starts at the very end of the buffer is refused. */
  lemma WholeAndFull(buf: Buf, start: Bound, end: Bound)
    requires BufOk(buf)
    ensures Shown(SliceFull(buf)) == buf.mem[..buf.init]
    ensures SliceOfBuf(buf, start, end) ==
      if StartOf(0, start) == Some(|buf.mem|) then Panic else SubSlice(SliceFull(buf), start, end)
  {
  }

  /** Dropping the first `n` shown bytes, as the write loops do. */
  lemma SuffixShows(s: Slice, n: nat)
    requires SliceOk(s) && n <= |Shown(s)|
    ensures SubSlice(s, Included(n), Unbounded).Done?
    ensures var t := SubSlice(s, Included(n), Unbounded).value;
      SliceOk(t) && t.buf == s.buf && t.end == s.end && Shown(t) == Shown(s)[n..]
  {
  }

  /** A `BoundedBuf`: a whole buffer or a slice of one. */
  datatype Bounded = Whole(buf: Buf) | Part(slice: Slice)

  /** `slice_full`. */
  function FullSlice(v: Bounded): Slice {
    match v case Whole(b) => SliceFull(b) case Part(s) => s
  }

  /** `bounds`: a whole buffer has none. */
  function BoundsOf(v: Bounded): Option<(nat, nat)> {
    match v case Whole(_) => None case Part(s) => Some((s.begin, s.end))
  }

  /** `from_buf_bounds`. */
  function FromBounds(buf: Buf, bounds: Option<(nat, nat)>): Outcome<Bounded> {
    match bounds
    case None => Done(Whole(buf))
    case Some((begin, end)) =>
      if begin <= buf.init && end <= |buf.mem| then Done(Part(Slice(buf, begin, end))) else Panic
  }

  /** Taking a view apart and putting it together gives the same view, and with
      fewer initialized bytes it can fail. */
  lemma BoundsRoundTrip(v: Bounded)
    requires SliceOk(FullSlice(v))
    ensures FromBounds(FullSlice(v).buf, BoundsOf(v)) == Done(v)
    ensures forall b: Buf :: |b.mem| == |FullSlice(v).buf.mem| ==>
      (FromBounds(b, BoundsOf(v)).Panic? <==> v.Part? && b.init < v.slice.begin)
  {
  }

  /** `put_slice`: copy to the start of the view, then `set_init`. */
  function PutSlice(s: Slice, src: seq<Byte>): Outcome<Slice>
    requires s.begin <= s.end <= |s.buf.mem|
  {
    if |src| > s.end - s.begin then Panic
    else
      var mem := s.buf.mem[..s.begin] + src + s.buf.mem[s.begin + |src|..];
      Done(s.(buf := Buf(mem, Min(|s.buf.mem|, s.begin + |src|))))
  }

  /** `put_slice` fails exactly when the source does not fit into the view. After
      it the view shows exactly the source, everything up to its end counts as
      initialized, and the bytes outside the copied range are what they were. */
  lemma PutSliceShows(s: Slice, src: seq<Byte>)
    requires SliceOk(s)
    ensures PutSlice(s, src).Done? <==> |src| <= BytesTotal(s)
    ensures PutSlice(s, src).Done? ==>
      var t := PutSlice(s, src).value;
      && SliceOk(t) && t.begin == s.begin && t.end == s.end && Shown(t) == src
      && |t.buf.mem| == |s.buf.mem| && t.buf.init == s.begin + |src|
      && t.buf.mem[..s.begin] == s.buf.mem[..s.begin]
      && t.buf.mem[s.begin + |src|..] == s.buf.mem[s.begin + |src|..]
  {
    if |src| <= s.end - s.begin {
      var t := PutSlice(s, src).value;
      assert t.buf.mem[s.begin..s.begin + |src|] == src;
    }
  }
}
