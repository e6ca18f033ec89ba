/** Vocabulary shared by the whole model: completion queue entries, their flag
    bits, and the outcome of an operation that may panic. */
module Uring {

  /** The largest `usize`, which is also the largest `u64`: the end marker of
      slab lists and the `user_data` of a cancel request. */
  const USIZE_MAX: nat := 0xFFFF_FFFF_FFFF_FFFF

  type Byte = b: int | 0 <= b < 256

  /** Tasks are identified by the waker that wakes them. `will_wake` is equality. */
  type Waker = nat

  datatype Option<+T> = None | Some(value: T)

  /** What a source operation does: it returns, or it panics (a failed
      `expect`, `unwrap`, `assert!`, slab index or `unreachable!`). */
  datatype Outcome<+T> = Done(value: T) | Panic

  /** `io::Result<u32>` of a completion. */
  datatype IoResult = Success(count: nat) | Failure(errno: int)

  /** A completion queue entry. `filled` is what the kernel left in the
      provided buffer the entry selects; the kernel does not touch that buffer
      again before it is provided again. */
  datatype Cqe = Cqe(res: int, flags: nat, filled: seq<Byte>)

  /** `IORING_CQE_F_MORE`, bit 1 of the flags: more entries follow. */
  predicate More(c: Cqe) { c.flags / 2 % 2 == 1 }

  /** `IORING_CQE_F_BUFFER`, bit 0: the upper half of the flags is a buffer id. */
  function BufferSelect(c: Cqe): Option<nat> {
    if c.flags % 2 == 1 then Some(c.flags / 0x1_0000 % 0x1_0000) else None
  }

  /** The flag word of a completion with buffer id `id` in its upper half: bit 0 of
      the lower half says whether the id counts, bit 1 whether more entries
      follow, and nothing else in the word matters. */
  lemma FlagWord(res: int, id: nat, low: nat, filled: seq<Byte>)
    requires id < 0x1_0000 && low < 0x1_0000
    ensures BufferSelect(Cqe(res, id * 0x1_0000 + low, filled)) == if low % 2 == 1 then Some(id) else None
    ensures More(Cqe(res, id * 0x1_0000 + low, filled)) <==> low / 2 % 2 == 1
  {
    var flags, half := id * 0x1_0000 + low, low / 2;
    UpperHalf(flags, id, low);
    UpperHalf(id, 0, id);
    Halves(low, half, low % 2);
    Halves(flags, id * 0x8000 + half, low % 2);
    Halves(half, half / 2, half % 2);
    Halves(id * 0x8000 + half, id * 0x4000 + half / 2, half % 2);
  }

  lemma Halves(n: nat, q: nat, r: nat)
    requires n == 2 * q + r && r < 2
    ensures n / 2 == q && n % 2 == r
  {
  }

  lemma UpperHalf(n: nat, q: nat, r: nat)
    requires n == 0x1_0000 * q + r && r < 0x1_0000
    ensures n / 0x1_0000 == q && n % 0x1_0000 == r
  {
  }

  /** The conversion of a completion entry into a result and an errno. */
  function ToResult(c: Cqe): IoResult {
    if c.res >= 0 then Success(c.res) else Failure(-c.res)
  }
}
