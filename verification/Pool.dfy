/** The fixed buffer pool: free lists by capacity, threaded through the buffer
    states. */
module Pool {
  import opened Uring

  // ---- The pool as a map from capacity to a stack ----

  /** `lens[i]` is the recorded length of a free buffer, `None` for one that is
      checked out; `free` is the stack of free buffers of each capacity. */
  datatype Stacks = Stacks(caps: seq<nat>, lens: seq<Option<nat>>, free: map<nat, seq<nat>>)

  ghost predicate Distinct(s: seq<nat>) {
    forall i, j :: 0 <= i < j < |s| ==> s[i] != s[j]
  }

  ghost predicate FreeAt(p: Stacks, cap: nat, i: nat) {
    i < |p.caps| && i < |p.lens| && p.caps[i] == cap && p.lens[i].Some?
  }

  /** The stacks hold exactly the free buffers, each in the stack of its
      capacity and once. */
  ghost predicate StacksOk(p: Stacks) {
    && |p.lens| == |p.caps|
    && (forall c :: c in p.free ==> p.free[c] != [] && Distinct(p.free[c]))
    && (forall c :: c in p.free ==> forall j :: 0 <= j < |p.free[c]| ==> FreeAt(p, c, p.free[c][j]))
    && (forall i :: 0 <= i < |p.caps| && p.lens[i].Some? ==> p.caps[i] in p.free && i in p.free[p.caps[i]])
  }

  function StackOf(p: Stacks, cap: nat): seq<nat> {
    if cap in p.free then p.free[cap] else []
  }

  /** The stacks after the top buffer of a capacity is checked out. */
  function Took(p: Stacks, cap: nat): Stacks
    requires StackOf(p, cap) != [] && StackOf(p, cap)[0] < |p.lens|
  {
    var rest := p.free[cap][1..];
    Stacks(p.caps, p.lens[p.free[cap][0] := None], if rest == [] then p.free - {cap} else p.free[cap := rest])
  }

  /** The stacks after a buffer is checked in. */
  function Returned(p: Stacks, i: nat, len: nat): Stacks
    requires i < |p.lens| && i < |p.caps|
  {
    Stacks(p.caps, p.lens[i := Some(len)], p.free[p.caps[i] := [i] + StackOf(p, p.caps[i])])
  }

  lemma TookOk(p: Stacks, cap: nat)
    requires StacksOk(p) && StackOf(p, cap) != []
    ensures StackOf(p, cap)[0] < |p.caps| && p.lens[StackOf(p, cap)[0]].Some? && p.caps[StackOf(p, cap)[0]] == cap
    ensures StacksOk(Took(p, cap)) && StackOf(Took(p, cap), cap) == StackOf(p, cap)[1..]
    ensures forall c :: c != cap ==> StackOf(Took(p, cap), c) == StackOf(p, c)
  {
  }

  lemma ReturnedOk(p: Stacks, i: nat, len: nat)
    requires StacksOk(p) && i < |p.caps| && p.lens[i].None?
    ensures StacksOk(Returned(p, i, len))
    ensures StackOf(Returned(p, i, len), p.caps[i]) == [i] + StackOf(p, p.caps[i])
    ensures forall c :: c != p.caps[i] ==> StackOf(Returned(p, i, len), c) == StackOf(p, c)
  {
    var cap, q := p.caps[i], Returned(p, i, len);
    var stack := StackOf(p, cap);
    assert forall j :: 0 <= j < |stack| ==> FreeAt(p, cap, stack[j]) && stack[j] != i;
    assert q.free[cap][1..] == stack;
    forall c | c in q.free ensures forall j :: 0 <= j < |q.free[c]| ==> FreeAt(q, c, q.free[c][j]) {
      forall j | 0 <= j < |q.free[c]| ensures FreeAt(q, c, q.free[c][j]) {
        if c != cap {
          assert FreeAt(p, c, p.free[c][j]);
        } else if j > 0 {
          assert q.free[c][j] == stack[j - 1];
        }
      }
    }
  }

  /** A buffer of a capacity is free exactly when the stack is not empty. */
  lemma StackHoldsFree(p: Stacks, cap: nat)
    requires StacksOk(p)
    ensures StackOf(p, cap) != [] <==> exists i :: 0 <= i < |p.caps| && p.caps[i] == cap && p.lens[i].Some?
    ensures forall i :: 0 <= i < |p.caps| && p.caps[i] == cap ==> (p.lens[i].Some? <==> i in StackOf(p, cap))
  {
    if StackOf(p, cap) != [] {
      assert FreeAt(p, cap, p.free[cap][0]);
    }
    forall i | 0 <= i < |p.caps| && p.caps[i] == cap ensures p.lens[i].Some? <==> i in StackOf(p, cap) {
      if i in StackOf(p, cap) {
        var j :| 0 <= j < |p.free[cap]| && p.free[cap][j] == i;
        assert FreeAt(p, cap, p.free[cap][j]);
      }
    }
  }

  // ---- The pool as the source has it ----

  datatype BufState = Free(initLen: nat, next: Option<nat>) | CheckedOut

  /** `index as u16`. */
  function AsU16(i: nat): nat { i % 0x1_0000 }

  /** `UIO_MAXIOV`, the most buffers a pool takes. */
  const MAX_BUFFERS: nat := 1024

  function LenOf(s: BufState): Option<nat> {
    if s.Free? then Some(s.initLen) else None
  }

  function Lens(states: seq<BufState>): seq<Option<nat>> {
    seq(|states|, i requires 0 <= i < |states| => LenOf(states[i]))
  }

  /** The `next` link of the buffer at position `i` of a stack. */
  ghost predicate Linked(states: seq<BufState>, stack: seq<nat>, i: nat)
    requires i < |stack|
  {
    && stack[i] < |states| && states[stack[i]].Free?
    && states[stack[i]].next == if i + 1 < |stack| then Some(stack[i + 1]) else None
  }

  /** The head map and the links spell out the stacks. */
  ghost predicate Threads(states: seq<BufState>, heads: map<nat, nat>, free: map<nat, seq<nat>>) {
    && heads.Keys == free.Keys
    && (forall c :: c in free ==> free[c] != [] && heads[c] == free[c][0])
    && (forall c, i :: c in free && 0 <= i < |free[c]| ==> Linked(states, free[c], i))
  }

  /** Taking the head of a list leaves every other link alone. */
  lemma TakeThreads(p: Stacks, states: seq<BufState>, heads: map<nat, nat>, cap: nat)
    requires StacksOk(p) && Threads(states, heads, p.free) && cap in p.free && |states| == |p.caps|
    ensures var top := heads[cap];
      && top == p.free[cap][0] && top < |states| && states[top].Free?
      && var next := states[top].next;
      && (next.None? <==> |p.free[cap]| == 1)
      && Threads(states[top := CheckedOut],
                 if next.Some? then heads[cap := next.value] else heads - {cap}, Took(p, cap).free)
  {
    var top, stack := p.free[cap][0], p.free[cap];
    assert Linked(states, stack, 0) && FreeAt(p, cap, stack[0]);
    var free', states' := Took(p, cap).free, states[top := CheckedOut];
    forall c, i | c in free' && 0 <= i < |free'[c]| ensures Linked(states', free'[c], i) {
      if c == cap {
        assert Linked(states, stack, i + 1) && stack[i + 1] != stack[0];
      } else {
        assert Linked(states, p.free[c], i) && FreeAt(p, c, p.free[c][i]);
      }
    }
  }

  /** Putting a buffer that is on no list in front of its list. */
  lemma GiveThreads(p: Stacks, states: seq<BufState>, heads: map<nat, nat>, i: nat, len: nat, states': seq<BufState>)
    requires StacksOk(p) && Threads(states, heads, p.free) && i < |p.caps| && p.lens[i].None?
    requires i < |states'| && |states| <= |states'|
    requires states'[i] == Free(len, if p.caps[i] in heads then Some(heads[p.caps[i]]) else None)
    requires forall j :: 0 <= j < |states| && j != i ==> states'[j] == states[j]
    ensures Threads(states', heads[p.caps[i] := i], Returned(p, i, len).free)
  {
    var cap, free' := p.caps[i], Returned(p, i, len).free;
    forall c, j | c in free' && 0 <= j < |free'[c]| ensures Linked(states', free'[c], j) {
      if c == cap {
        GiveOwnLinks(p, states, heads, i, len, states', j);
      } else {
        assert Linked(states, p.free[c], j) && FreeAt(p, c, p.free[c][j]);
      }
    }
  }

  lemma GiveOwnLinks(p: Stacks, states: seq<BufState>, heads: map<nat, nat>, i: nat, len: nat, states': seq<BufState>,
                     j: nat)
    requires StacksOk(p) && Threads(states, heads, p.free) && i < |p.caps| && p.lens[i].None?
    requires i < |states'| && |states| <= |states'|
    requires states'[i] == Free(len, if p.caps[i] in heads then Some(heads[p.caps[i]]) else None)
    requires forall k :: 0 <= k < |states| && k != i ==> states'[k] == states[k]
    requires j <= |StackOf(p, p.caps[i])|
    ensures Linked(states', [i] + StackOf(p, p.caps[i]), j)
  {
    var stack := StackOf(p, p.caps[i]);
    if j > 0 {
      assert Linked(states, stack, j - 1) && FreeAt(p, p.caps[i], stack[j - 1]);
    }
  }

  lemma LensUpdate(states: seq<BufState>, i: nat, s: BufState)
    requires i < |states|
    ensures Lens(states[i := s]) == Lens(states)[i := LenOf(s)]
  {
  }

  /** The stacks `p` are right, and the states and heads spell them out. */
  ghost predicate Sound(p: Stacks, states: seq<BufState>, heads: map<nat, nat>) {
    && |p.caps| <= MAX_BUFFERS && |states| == |p.caps| && p.lens == Lens(states)
    && StacksOk(p) && Threads(states, heads, p.free)
  }

  /** Everything that making buffer `i` the head of its list keeps. */
  lemma LinkOk(p: Stacks, states: seq<BufState>, heads: map<nat, nat>, i: nat, len: nat)
    requires Sound(p, states, heads) && i < |p.caps| && p.lens[i].None?
    ensures var cap := p.caps[i];
      var states' := states[i := Free(len, if cap in heads then Some(heads[cap]) else None)];
      Sound(Returned(p, i, len), states', heads[cap := i])
  {
    var s := Free(len, if p.caps[i] in heads then Some(heads[p.caps[i]]) else None);
    ReturnedOk(p, i, len);
    LensUpdate(states, i, s);
    GiveThreads(p, states, heads, i, len, states[i := s]);
  }

  /** Everything that taking the head of a list keeps. */
  lemma TakeOk(p: Stacks, states: seq<BufState>, heads: map<nat, nat>, cap: nat)
    requires Sound(p, states, heads) && cap in heads
    ensures StackOf(p, cap) != [] && heads[cap] == StackOf(p, cap)[0]
    ensures heads[cap] < |states| && states[heads[cap]].Free?
    ensures p.caps[heads[cap]] == cap && p.lens[heads[cap]] == Some(states[heads[cap]].initLen)
    ensures var next := states[heads[cap]].next;
      Sound(Took(p, cap), states[heads[cap] := CheckedOut],
            if next.Some? then heads[cap := next.value] else heads - {cap})
  {
    TookOk(p, cap);
    TakeThreads(p, states, heads, cap);
    LensUpdate(states, heads[cap], CheckedOut);
  }

  /** Before the building loop: no list, no free buffer. */
  lemma NothingLinked(caps: seq<nat>, states: seq<BufState>)
    requires |states| == |caps| && forall i :: 0 <= i < |states| ==> states[i].CheckedOut?
    ensures StacksOk(Stacks(caps, Lens(states), map[])) && Threads(states, map[], map[])
  {
  }

  /** The first `n` buffers are free with the lengths they came with, the
      others are not linked yet. */
  ghost predicate FirstLens(lens: seq<Option<nat>>, bufs: seq<(nat, nat)>, n: nat) {
    n <= |lens| <= |bufs| && forall j :: 0 <= j < |lens| ==> lens[j] == if j < n then Some(bufs[j].1) else None
  }

  class Pool {
    const caps: seq<nat>                 // the `iov_len` of each buffer
    const states: array<BufState>
    var heads: map<nat, nat>             // `free_buf_head_by_cap`
    ghost var free: map<nat, seq<nat>>

    ghost function Value(): Stacks
      reads this, states
    {
      Stacks(caps, Lens(states[..]), free)
    }

    ghost predicate Valid()
      reads this, states
    {
      states.Length == |caps| && Sound(Value(), states[..], heads)
    }

    /** `new`: each buffer is given as its capacity and its initialized length;
        those in excess of the limit are dropped. */
    constructor (bufs: seq<(nat, nat)>)
      ensures Valid() && fresh(states)
      ensures |caps| == (if |bufs| < 1024 then |bufs| else 1024)
      ensures forall i :: 0 <= i < |caps| ==> caps[i] == bufs[i].0 && Value().lens[i] == Some(bufs[i].1)
    {
      var n := if |bufs| < MAX_BUFFERS then |bufs| else MAX_BUFFERS;
      caps := seq(n, i requires 0 <= i < n => bufs[i].0);
      states := new BufState[n](_ => CheckedOut);
      heads, free := map[], map[];
      new;
      NothingLinked(caps, states[..]);
      for i := 0 to n
        invariant Valid() && FirstLens(Value().lens, bufs, i)
      {
        Link(i, bufs[i].1);
      }
    }

    /** Makes a buffer the head of the free list of its capacity. */
    method Link(i: nat, len: nat)
      requires Valid() && i < |caps| && Value().lens[i].None?
      modifies this, states
      ensures Valid() && Value() == Returned(old(Value()), i, len)
    {
      ghost var p, before := Value(), states[..];
      LinkOk(p, before, heads, i, len);
      var cap := caps[i];
      var next := if cap in heads then Some(heads[cap]) else None;
      assert AsU16(i) == i;
      Update(i, Free(len, next), heads[cap := AsU16(i)], Returned(p, i, len));
    }

    /** Writes one state and the heads; the pool then stands for `q`. */
    method Update(i: nat, s: BufState, hs: map<nat, nat>, ghost q: Stacks)
      requires i < states.Length == |caps| && q.caps == caps && Sound(q, states[..][i := s], hs)
      modifies this, states
      ensures Valid() && Value() == q
    {
      ghost var after := states[..][i := s];
      states[i] := s;
      heads, free := hs, q.free;
      assert states[..] == after;
    }

    /** `try_next`: the top free buffer of exactly this capacity, if there is
        one. The two panics of the source are dead. */
    method TryNext(cap: nat) returns (r: Option<(nat, nat)>)
      requires Valid()
      modifies this, states
      ensures Valid()
      ensures r.Some? <==> exists i :: 0 <= i < |caps| && caps[i] == cap && old(Value()).lens[i].Some?
      ensures r.None? ==> Value() == old(Value())
      ensures r.Some? ==>
        && StackOf(old(Value()), cap) != [] && r.value.0 == StackOf(old(Value()), cap)[0]
        && r.value.0 < |caps| && caps[r.value.0] == cap && old(Value()).lens[r.value.0] == Some(r.value.1)
        && Value() == Took(old(Value()), cap)
    {
      ghost var p, before := Value(), states[..];
      StackHoldsFree(p, cap);
      if cap !in heads {
        return None;
      }
      TakeOk(p, before, heads, cap);
      var index := heads[cap];
      var len, next := states[index].initLen, states[index].next;
      var hs := if next.Some? then heads[cap := next.value] else heads - {cap};
      Update(index, CheckedOut, hs, Took(p, cap));
      r := Some((index, len));
    }

    /** `check_in` of a buffer that is checked out. */
    method CheckIn(index: nat, len: nat)
      requires Valid() && index < |caps| && Value().lens[index].None?
      modifies this, states
      ensures Valid() && Value() == Returned(old(Value()), index, len)
    {
      Link(index, len);
    }

    /** The assertion of `drop`. */
    method AllCheckedIn() returns (all: bool)
      requires Valid()
      ensures all <==> forall i :: 0 <= i < |caps| ==> Value().lens[i].Some?
    {
      all := true;
      for i := 0 to states.Length
        invariant all <==> forall j :: 0 <= j < i ==> Value().lens[j].Some?
      {
        assert Value().lens[i] == LenOf(states[i]);
        all := all && states[i].Free?;
      }
    }
  }
}
