/** Buffers of several iovecs: lengths, scattered reads, and what a read
    leaves behind. */
module Buffers {
  import opened Uring

  function Min(a: nat, b: nat): nat { if a < b then a else b }

  function Sum(s: seq<nat>): nat {
    if s == [] then 0 else s[0] + Sum(s[1..])
  }

  /** `set_init`: the first `pos` bytes count as initialized, iovec by iovec. */
  function SetInit(caps: seq<nat>, pos: nat): (lens: seq<nat>)
    ensures |lens| == |caps|
  {
    if caps == [] then [] else [Min(caps[0], pos)] + SetInit(caps[1..], pos - Min(caps[0], pos))
  }

  /** No length exceeds its capacity, and the lengths add up to `pos` as far as
      there is room. */
  lemma {:induction false} SetInitFits(caps: seq<nat>, pos: nat)
    ensures forall i :: 0 <= i < |caps| ==> SetInit(caps, pos)[i] <= caps[i]
    ensures Sum(SetInit(caps, pos)) == Min(pos, Sum(caps))
    decreases |caps|
  {
    if caps != [] {
      var rest := pos - Min(caps[0], pos);
      SetInitFits(caps[1..], rest);
      var lens, tail := SetInit(caps, pos), SetInit(caps[1..], rest);
      assert lens[1..] == tail;
      forall i | 0 <= i < |caps| ensures lens[i] <= caps[i] {
        if i > 0 {
          assert lens[i] == tail[i - 1] && caps[1..][i - 1] == caps[i];
        }
      }
    }
  }

  /** The memory of each iovec has the size of its capacity. */
  ghost predicate Shaped(mem: seq<seq<Byte>>, caps: seq<nat>) {
    |mem| == |caps| && forall i :: 0 <= i < |mem| ==> |mem[i]| == caps[i]
  }

  /** What the kernel does with a vectored read of `data`: it fills the iovecs
      one after the other, each up to its `iov_len`. */
  function Scatter(mem: seq<seq<Byte>>, iovLens: seq<nat>, data: seq<Byte>): seq<seq<Byte>>
    requires |mem| == |iovLens| && forall i :: 0 <= i < |mem| ==> iovLens[i] <= |mem[i]|
  {
    if mem == [] then []
    else
      var n := Min(iovLens[0], |data|);
      [data[..n] + mem[0][n..]] + Scatter(mem[1..], iovLens[1..], data[n..])
  }

  /** The initialized bytes of all iovecs, one after the other. */
  ghost function View(mem: seq<seq<Byte>>, lens: seq<nat>): seq<Byte>
    requires Within(mem, lens)
  {
    if mem == [] then [] else mem[0][..lens[0]] + View(mem[1..], lens[1..])
  }

  /** A scattered read of `n` bytes into a filled buffer followed by
      `set_init(n)` gives back exactly those bytes. */
  lemma {:induction false} ScatterRoundTrip(mem: seq<seq<Byte>>, caps: seq<nat>, data: seq<Byte>)
    requires Shaped(mem, caps) && |data| <= Sum(caps)
    ensures var mem' := Scatter(mem, caps, data);
      var lens := SetInit(caps, |data|);
      Shaped(mem', caps) && Within(mem', lens) && View(mem', lens) == data
    decreases |mem|
  {
    if mem != [] {
      var n := Min(caps[0], |data|);
      FirstIoVec(mem, caps, data);
      ScatterRoundTrip(mem[1..], caps[1..], data[n..]);
      ScatterStep(mem[0], Scatter(mem[1..], caps[1..], data[n..]), caps, data, n, SetInit(caps[1..], |data| - n));
    }
  }

  /** What the first iovec takes of a scattered read. */
  lemma FirstIoVec(mem: seq<seq<Byte>>, caps: seq<nat>, data: seq<Byte>)
    requires Shaped(mem, caps) && mem != [] && |data| <= Sum(caps)
    ensures var n := Min(caps[0], |data|);
      && Shaped(mem[1..], caps[1..]) && |data[n..]| <= Sum(caps[1..])
      && Scatter(mem, caps, data) == [data[..n] + mem[0][n..]] + Scatter(mem[1..], caps[1..], data[n..])
      && SetInit(caps, |data|) == [n] + SetInit(caps[1..], |data| - n)
  {
  }

  /** Filling the first iovec, given the others. */
  lemma ScatterStep(first: seq<Byte>, tail: seq<seq<Byte>>, caps: seq<nat>, data: seq<Byte>, n: nat, lens: seq<nat>)
    requires caps != [] && |first| == caps[0] && n <= caps[0] && n <= |data|
    requires Shaped(tail, caps[1..]) && Within(tail, lens) && View(tail, lens) == data[n..]
    ensures var mem := [data[..n] + first[n..]] + tail;
      Shaped(mem, caps) && Within(mem, [n] + lens) && View(mem, [n] + lens) == data
  {
  }

  /** Every length is within the memory of its iovec. */
  ghost predicate Within(mem: seq<seq<Byte>>, lens: seq<nat>) {
    |mem| == |lens| && forall i :: 0 <= i < |mem| ==> lens[i] <= |mem[i]|
  }

  /** What a finished read or write returns: the result and, for a read that
      succeeded, the bytes the kernel wrote counted as initialized. */
  datatype Finished = Finished(result: IoResult, lens: seq<nat>)

  /** `transform_oneshot_output`. */
  function Transform(isRead: bool, caps: seq<nat>, lens: seq<nat>, res: int): Finished {
    if res < 0 then Finished(Failure(-res), lens)
    else Finished(Success(res), if isRead then SetInit(caps, res) else lens)
  }

  /** A read from submission to completion: `fill`, the kernel's scatter of
      `data`, and the output transform. The caller sees exactly the bytes read,
      whatever the buffer recorded before. */
  lemma ReadDelivers(mem: seq<seq<Byte>>, caps: seq<nat>, data: seq<Byte>)
    requires Shaped(mem, caps) && |data| <= Sum(caps)
    ensures var mem' := Scatter(mem, caps, data);
      var out := Transform(true, caps, caps, |data|);
      && out.result == Success(|data|) && Sum(out.lens) == |data|
      && Within(mem', out.lens) && View(mem', out.lens) == data
  {
    ScatterRoundTrip(mem, caps, data);
    SetInitFits(caps, |data|);
  }

  /** A write of any result gives the buffer back with every length as it was, and
      so does a failed operation of either kind; the result is reported. */
  lemma OthersKeepLengths(isRead: bool, caps: seq<nat>, lens: seq<nat>, res: int)
    requires !isRead || res < 0
    ensures var out := Transform(isRead, caps, lens, res);
      out.lens == lens && out.result == if res < 0 then Failure(-res) else Success(res)
  {
  }

  /** The iovec lengths of a buffer, changed in place. */
  class IoVecs {
    const caps: seq<nat>
    const lens: array<nat>

    ghost predicate Valid()
      reads this, lens
    {
      lens.Length == |caps|
    }

    constructor (caps: seq<nat>, init: seq<nat>)
      requires |init| == |caps|
      ensures Valid() && this.caps == caps && fresh(lens) && lens[..] == init
    {
      this.caps := caps;
      lens := new nat[|init|](i requires 0 <= i < |init| => init[i]);
    }

    /** `fill`: every iovec counts as full. */
    method Fill()
      requires Valid()
      modifies lens
      ensures lens[..] == caps
    {
      for i := 0 to lens.Length
        invariant forall j :: 0 <= j < i ==> lens[j] == caps[j]
      {
        lens[i] := caps[i];
      }
    }

    /** `set_init`. */
    method SetInitTo(pos: nat)
      requires Valid()
      modifies lens
      ensures lens[..] == SetInit(caps, pos)
    {
      var rest := pos;
      assert caps[0..] == caps;
      for i := 0 to lens.Length
        invariant lens[..i] + SetInit(caps[i..], rest) == SetInit(caps, pos)
      {
        var size := Min(caps[i], rest);
        assert caps[i..][0] == caps[i] && caps[i..][1..] == caps[i + 1..];
        ghost var before := lens[..i];
        lens[i] := size;
        rest := rest - size;
        assert lens[..i + 1] == before + [size];
        assert before + [size] + SetInit(caps[i + 1..], rest) == before + ([size] + SetInit(caps[i + 1..], rest));
      }
      assert lens[..] == lens[..lens.Length];
    }

    /** `bytes_init`. */
    method BytesInit() returns (n: nat)
      requires Valid()
      ensures n == Sum(lens[..])
    {
      n := 0;
      assert lens[..] == lens[0..];
      for i := 0 to lens.Length
        invariant n + Sum(lens[i..]) == Sum(lens[..])
      {
        assert lens[i..][0] == lens[i] && lens[i..][1..] == lens[i + 1..];
        n := n + lens[i];
      }
    }
  }
}
