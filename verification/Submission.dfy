/** Pushing entries on the submission queue: a full queue is flushed to the
    kernel, and a kernel that refuses because its completion queue is full makes
    the driver dispatch completions in the middle of a submission. The slabs
    stand here as the slots they represent; `Driver` has the rest. */
module Submission {
  import opened Uring
  import opened SlabList
  import L = Lifecycle

  datatype RingEntry = OpEntry(userData: nat) | CancelEntry(target: nat)

  /** How the kernel answers one attempt to flush the queue: it takes up to `n`
      entries, it is busy and `cq` is what the completion queue then holds
      (`EBUSY`), the call is interrupted (`EINTR`), or it fails otherwise. */
  datatype Try = Accepts(n: nat) | Busy(cq: seq<(nat, Cqe)>) | Interrupted | Refuses(errno: int)

  /** `Retrying`: all attempts given were used up and the source would go on. */
  datatype Ending = Finished | Failed(errno: int) | Panicked | Retrying

  function BatchOf(t: Try): seq<(nat, Cqe)> {
    if t.Busy? then t.cq else []
  }

  /** What is dispatched during the attempts `i..j`. */
  function Seen(script: seq<Try>, i: nat, j: nat): seq<(nat, Cqe)>
    requires j <= |script|
  {
    if i >= j then [] else Seen(script, i, j - 1) + BatchOf(script[j - 1])
  }

  lemma {:induction false} SeenSplit(script: seq<Try>, i: nat, j: nat, k: nat)
    requires i <= j <= k <= |script|
    ensures Seen(script, i, k) == Seen(script, i, j) + Seen(script, j, k)
    decreases k
  {
    if j < k {
      SeenSplit(script, i, j, k - 1);
    }
  }

  /** How many entries an attempt would take. */
  function Offer(t: Try): nat {
    if t.Accepts? then t.n else 0
  }

  function Fewer(a: nat, b: nat): nat { if a < b then a else b }

  /** The attempt with which a flush of `queued` entries that begins with attempt
      `i` is done, if errors are disregarded. */
  function FlushEnd(script: seq<Try>, i: nat, queued: nat): (e: nat)
    requires i <= |script|
    ensures i <= e <= |script|
    decreases |script| - i
  {
    if queued == 0 || i == |script| then i
    else FlushEnd(script, i + 1, queued - Fewer(Offer(script[i]), queued))
  }

  /** How many entries the attempts `i..j` would take together. */
  function Offered(script: seq<Try>, i: nat, j: nat): nat
    requires j <= |script|
    decreases |script| - i
  {
    if i >= j then 0 else Offer(script[i]) + Offered(script, i + 1, j)
  }

  /** A flush makes attempt `j` exactly when the attempts before it take fewer
      entries than are queued. */
  lemma {:induction false} FlushMakes(script: seq<Try>, i: nat, queued: nat, j: nat)
    requires i <= j <= |script|
    ensures j < FlushEnd(script, i, queued) <==> j < |script| && Offered(script, i, j) < queued
    decreases |script| - i
  {
    if queued != 0 && i < j {
      FlushMakes(script, i + 1, queued - Fewer(Offer(script[i]), queued), j);
    }
  }

  /** The next attempt dispatches nothing. */
  lemma QuietAttempt(script: seq<Try>, i: nat, j: nat)
    requires i <= j < |script| && !script[j].Busy?
    ensures Seen(script, i, j + 1) == Seen(script, i, j)
  {
  }

  /** What `e` did, then `r`. */
  function Joined<D>(e: L.Effect<D>, r: Outcome<L.Effect<D>>): Outcome<L.Effect<D>> {
    match r
    case Panic => Panic
    case Done(f) => Done(L.Effect(f.slots, e.wakes + f.wakes))
  }

  /** One more entry. */
  function Extended<D>(o: Outcome<L.Effect<D>>, p: (nat, Cqe)): Outcome<L.Effect<D>> {
    match o
    case Panic => Panic
    case Done(e) => Joined(e, L.Dispatch(e.slots, p.0, p.1))
  }

  lemma LastEntry<D>(slots: L.Slots<D>, cq: seq<(nat, Cqe)>, p: (nat, Cqe))
    ensures L.DispatchAll(slots, cq + [p]) == Extended(L.DispatchAll(slots, cq), p)
  {
  }

  lemma JoinedExtended<D>(e: L.Effect<D>, r: Outcome<L.Effect<D>>, p: (nat, Cqe))
    ensures Extended(Joined(e, r), p) == Joined(e, Extended(r, p))
  {
    if r.Done? {
      var t := L.Dispatch(r.value.slots, p.0, p.1);
      if t.Done? {
        assert e.wakes + r.value.wakes + t.value.wakes == e.wakes + (r.value.wakes + t.value.wakes);
      }
    }
  }

  /** Dispatching two batches one after the other is dispatching both. */
  lemma {:induction false} DispatchConcat<D>(slots: L.Slots<D>, xs: seq<(nat, Cqe)>, ys: seq<(nat, Cqe)>)
    requires L.DispatchAll(slots, xs).Done?
    ensures var e := L.DispatchAll(slots, xs).value;
      L.DispatchAll(slots, xs + ys) == Joined(e, L.DispatchAll(e.slots, ys))
    decreases |ys|
  {
    var e := L.DispatchAll(slots, xs).value;
    if ys == [] {
      assert xs + ys == xs;
      assert e.wakes + [] == e.wakes;
    } else {
      var front, p := ys[..|ys| - 1], ys[|ys| - 1];
      assert ys == front + [p] && xs + ys == xs + front + [p];
      DispatchConcat(slots, xs, front);
      LastEntry(slots, xs + front, p);
      LastEntry(e.slots, front, p);
      JoinedExtended(e, L.DispatchAll(e.slots, front), p);
    }
  }

  /** The slots are `before` with `seen` dispatched, unless that panics. */
  ghost predicate Dispatched<D>(before: L.Slots<D>, seen: seq<(nat, Cqe)>, after: L.Slots<D>, woken: seq<Waker>,
                                end: Ending) {
    if end.Panicked? then L.DispatchAll(before, seen).Panic?
    else L.DispatchAll(before, seen) == Done(L.Effect(after, woken))
  }

  /** Two stretches of attempts, one after the other. */
  lemma DispatchedOn<D>(script: seq<Try>, i: nat, j: nat, k: nat,
                        s0: L.Slots<D>, s1: L.Slots<D>, w1: seq<Waker>, s2: L.Slots<D>, w2: seq<Waker>, end: Ending)
    requires i <= j <= k <= |script|
    requires Dispatched(s0, Seen(script, i, j), s1, w1, Finished)
    requires Dispatched(s1, Seen(script, j, k), s2, w2, end)
    ensures Dispatched(s0, Seen(script, i, k), s2, w1 + w2, end)
  {
    SeenSplit(script, i, j, k);
    DispatchConcat(s0, Seen(script, i, j), Seen(script, j, k));
  }

  /** One more attempt that finds the kernel busy. */
  lemma OneBusy<D>(script: seq<Try>, start: nat, j: nat, s0: L.Slots<D>, s1: L.Slots<D>, before: seq<Waker>)
    requires start <= j < |script| && script[j].Busy?
    requires Dispatched(s0, Seen(script, start, j), s1, before, Retrying)
    ensures var r := L.DispatchAll(s1, script[j].cq);
      if r.Panic? then Dispatched(s0, Seen(script, start, j + 1), s1, before, Panicked)
      else Dispatched(s0, Seen(script, start, j + 1), r.value.slots, before + r.value.wakes, Retrying)
  {
    DispatchConcat(s0, Seen(script, start, j), script[j].cq);
  }

  /** The queue is flushed by this attempt, whatever it holds. */
  predicate TakesAll(t: Try, depth: nat) {
    t.Accepts? && t.n >= depth
  }

  /** Distinct keys that were vacant. */
  ghost predicate NewKeys<D>(slots: L.Slots<D>, keys: seq<nat>) {
    && (forall i :: 0 <= i < |keys| ==> keys[i] < USIZE_MAX && keys[i] !in slots)
    && (forall i, j :: 0 <= i < j < |keys| ==> keys[i] != keys[j])
  }

  function WithKeys<D>(slots: L.Slots<D>, keys: seq<nat>): L.Slots<D> {
    if keys == [] then slots else WithKeys(slots, keys[..|keys| - 1])[keys[|keys| - 1] := L.Submitted]
  }

  lemma {:induction false} WithKeysDomain<D>(slots: L.Slots<D>, keys: seq<nat>)
    ensures forall k :: k in WithKeys(slots, keys) <==> k in slots || k in keys
    decreases |keys|
  {
    if keys != [] {
      var front := keys[..|keys| - 1];
      WithKeysDomain(slots, front);
      assert keys == front + [keys[|keys| - 1]];
    }
  }

  function OpEntries(keys: seq<nat>): seq<RingEntry> {
    seq(|keys|, i requires 0 <= i < |keys| => OpEntry(keys[i]))
  }

  lemma LastOnes(sq: seq<RingEntry>, entries: seq<RingEntry>)
    requires |entries| <= |sq| && sq[|sq| - |entries|..] == entries
    ensures forall i :: 0 <= i < |entries| ==> sq[|sq| - |entries| + i] == entries[i]
  {
    forall i | 0 <= i < |entries| ensures sq[|sq| - |entries| + i] == entries[i] {
      assert sq[|sq| - |entries|..][i] == entries[i];
    }
  }

  ghost predicate AnyTakesAll(script: seq<Try>, i: nat, j: nat, depth: nat) {
    exists k :: i <= k < j && k < |script| && TakesAll(script[k], depth)
  }

  /** An attempt after which `submit` goes on. */
  predicate GoesOn(t: Try) { t.Busy? || t.Interrupted? }

  /** How the attempts `i..j` of one `submit` that ended with `end` were answered;
      `queued` entries were in the queue before and `left` are there after. */
  ghost predicate Answered(script: seq<Try>, i: nat, j: nat, depth: nat, end: Ending, queued: nat, left: nat) {
    && i <= j <= |script|
    && (end.Finished? ==> i < j && script[j - 1].Accepts? && left == queued - Fewer(Offer(script[j - 1]), queued))
    && (!end.Finished? ==> left == queued)
    && (end.Failed? ==> i < j && script[j - 1] == Refuses(end.errno))
    && (end.Retrying? ==> j == |script|)
    && (forall k :: i <= k < (if end.Retrying? then j else j - 1) ==> GoesOn(script[k]))
    && (forall k :: i <= k < j && script[k].Accepts? ==> end.Finished?)
    && (forall k :: i <= k < j && script[k].Refuses? ==> end.Failed?)
    && (forall k :: i <= k < j && TakesAll(script[k], depth) ==> end.Finished? && left == 0)
  }

  /** One `submit` of a flush brings it nearer to its end. */
  lemma {:induction false} FlushThrough(script: seq<Try>, i: nat, j: nat, depth: nat, end: Ending, queued: nat,
                                        left: nat)
    requires Answered(script, i, j, depth, end, queued, left) && queued > 0
    ensures FlushEnd(script, j, left) == FlushEnd(script, i, queued)
    decreases j - i
  {
    if i < j && (i + 1 < j || !end.Finished?) {
      assert Offer(script[i]) == 0;
      if i + 1 < j || end.Panicked? || end.Retrying? {
        FlushThrough(script, i + 1, j, depth, end, queued, left);
      }
    }
  }

  class Submitter<D> {
    var slots: L.Slots<D>
    const depth: nat
    /** The kernel's answers to all attempts, and how many were made. */
    const script: seq<Try>
    var used: nat
    var sq: seq<RingEntry>
    /** The entries the kernel has taken. */
    ghost var taken: seq<RingEntry>

    ghost predicate Valid()
      reads this
    {
      |sq| <= depth && used <= |script|
    }

    constructor (slots: L.Slots<D>, depth: nat, script: seq<Try>)
      ensures Valid() && this.slots == slots && this.depth == depth && this.script == script
      ensures used == 0 && sq == [] && taken == []
    {
      this.slots, this.depth, this.script := slots, depth, script;
      used, sq, taken := 0, [], [];
    }

    /** `submit`. */
    method Submit() returns (end: Ending, woken: seq<Waker>)
      requires Valid()
      modifies this
      ensures Valid() && old(used) <= used
      ensures taken + sq == old(taken) + old(sq)
      ensures Dispatched(old(slots), Seen(script, old(used), used), slots, woken, end)
      ensures Answered(script, old(used), used, depth, end, |old(sq)|, |sq|)
    {
      ghost var s0, start := slots, used;
      woken := [];
      while used < |script|
        invariant Valid() && start <= used
        invariant taken + sq == old(taken) + old(sq)
        invariant Dispatched(s0, Seen(script, start, used), slots, woken, Retrying)
        invariant forall i :: start <= i < used ==> GoesOn(script[i])
        invariant |sq| == |old(sq)|
      {
        end, woken := Attempt(s0, start, woken);
        if !end.Retrying? {
          return;
        }
      }
      end := Retrying;
    }

    /** One attempt to flush the queue; `Retrying` if `submit` goes on. */
    method Attempt(ghost s0: L.Slots<D>, ghost start: nat, before: seq<Waker>) returns (end: Ending, woken: seq<Waker>)
      requires Valid() && used < |script| && start <= used
      requires Dispatched(s0, Seen(script, start, used), slots, before, Retrying)
      modifies this
      ensures Valid() && used == old(used) + 1 && taken + sq == old(taken) + old(sq)
      ensures Dispatched(s0, Seen(script, start, used), slots, woken, end)
      ensures match script[used - 1]
        case Accepts(n) => end.Finished? && (n >= depth ==> sq == [])
        case Refuses(e) => end == Failed(e)
        case Interrupted => end.Retrying?
        case Busy(_) => end.Panicked? || end.Retrying?
      ensures |sq| == |old(sq)| - Fewer(Offer(script[used - 1]), |old(sq)|)
    {
      woken := before;
      match script[used] {
        case Accepts(n) =>
          QuietAttempt(script, start, used);
          used := used + 1;
          Take(n);
          end := Finished;
        case Refuses(e) =>
          QuietAttempt(script, start, used);
          used := used + 1;
          end := Failed(e);
        case Interrupted =>
          QuietAttempt(script, start, used);
          used := used + 1;
          end := Retrying;
        case Busy(_) =>
          end, woken := DispatchAttempt(s0, start, before);
      }
    }

    /** An attempt that finds the kernel busy. */
    method DispatchAttempt(ghost s0: L.Slots<D>, ghost start: nat, before: seq<Waker>)
      returns (end: Ending, woken: seq<Waker>)
      requires Valid() && used < |script| && script[used].Busy? && start <= used
      requires Dispatched(s0, Seen(script, start, used), slots, before, Retrying)
      modifies this`used, this`slots
      ensures Valid() && used == old(used) + 1 && (end.Panicked? || end.Retrying?)
      ensures Dispatched(s0, Seen(script, start, used), slots, woken, end)
    {
      OneBusy(script, start, used, s0, slots, before);
      var r := L.DispatchAll(slots, script[used].cq);
      used := used + 1;
      if r.Panic? {
        end, woken := Panicked, before;
      } else {
        slots := r.value.slots;
        end, woken := Retrying, before + r.value.wakes;
      }
    }

    /** The kernel takes entries from the front of the queue. */
    method Take(n: nat)
      requires |sq| <= depth
      modifies this`sq, this`taken
      ensures taken + sq == old(taken) + old(sq) && |sq| <= depth
      ensures |sq| == |old(sq)| - Fewer(n, |old(sq)|)
      ensures n >= depth ==> sq == []
    {
      var k := if n < |sq| then n else |sq|;
      ghost var all := taken + sq;
      taken, sq := taken + sq[..k], sq[k..];
      assert taken + sq == all;
    }

    /** The loop that `submit_op`, `submit_op_2`, `submit_ops` and `cancel_op`
        share: push all entries or none, and flush the queue until there is
        room. */
    method PushAll(entries: seq<RingEntry>) returns (end: Ending, woken: seq<Waker>)
      requires Valid()
      modifies this
      ensures Valid() && old(used) <= used
      ensures taken + sq == old(taken) + old(sq) + (if end.Finished? then entries else [])
      ensures Dispatched(old(slots), Seen(script, old(used), used), slots, woken, end)
      ensures end.Finished? ==> |entries| <= |sq| && sq[|sq| - |entries|..] == entries
      ensures end.Failed? ==> used > 0 && script[used - 1] == Refuses(end.errno)
      ensures end.Retrying? ==>
        used == |script| && (|entries| <= depth ==> !AnyTakesAll(script, old(used), used, depth))
      ensures |entries| > depth ==> !end.Finished?
    {
      ghost var s0, start := slots, used;
      woken := [];
      while |sq| + |entries| > depth
        invariant Valid() && start <= used && taken + sq == old(taken) + old(sq)
        invariant Dispatched(s0, Seen(script, start, used), slots, woken, Finished)
        invariant forall i :: start <= i < used && TakesAll(script[i], depth) ==> |entries| > depth || sq == []
        decreases |script| - used
      {
        end, woken := SubmitOnce(s0, start, woken);
        if !end.Finished? {
          return;
        }
      }
      Push(entries);
      end := Finished;
    }

    method Push(entries: seq<RingEntry>)
      requires |sq| + |entries| <= depth
      modifies this`sq
      ensures |sq| <= depth && taken + sq == taken + old(sq) + entries
      ensures |entries| <= |sq| && sq[|sq| - |entries|..] == entries
    {
      sq := sq + entries;
    }

    /** One round of the push loop. */
    method SubmitOnce(ghost s0: L.Slots<D>, ghost start: nat, before: seq<Waker>)
      returns (end: Ending, woken: seq<Waker>)
      requires Valid() && start <= used
      requires Dispatched(s0, Seen(script, start, used), slots, before, Finished)
      modifies this
      ensures Valid() && old(used) <= used && taken + sq == old(taken) + old(sq)
      ensures Dispatched(s0, Seen(script, start, used), slots, woken, end)
      ensures Answered(script, old(used), used, depth, end, |old(sq)|, |sq|)
    {
      ghost var s1, mid := slots, used;
      var w;
      end, w := Submit();
      DispatchedOn(script, start, mid, used, s0, s1, before, slots, w, end);
      woken := before + w;
    }

    /** `Ops::insert`: any vacant key. */
    method Insert() returns (key: nat)
      requires |slots| < USIZE_MAX
      modifies this`slots
      ensures key < USIZE_MAX && key !in old(slots) && slots == old(slots)[key := L.Submitted]
    {
      key := VacantKey(slots.Keys);
      slots := slots[key := L.Submitted];
    }

    /** `submit_op` and `submit_op_2`: the slot is there before the entry is
        pushed, and completions dispatched in between meet it. */
    method SubmitOp() returns (key: nat, end: Ending, woken: seq<Waker>)
      requires Valid() && |slots| < USIZE_MAX
      modifies this
      ensures Valid() && old(used) <= used && key < USIZE_MAX && key !in old(slots)
      ensures taken + sq == old(taken) + old(sq) + (if end.Finished? then [OpEntry(key)] else [])
      ensures Dispatched(old(slots)[key := L.Submitted], Seen(script, old(used), used), slots, woken, end)
      ensures end.Finished? ==> sq != [] && sq[|sq| - 1] == OpEntry(key)
      ensures end.Failed? ==> used > 0 && script[used - 1] == Refuses(end.errno)
      ensures end.Retrying? ==> used == |script| && (depth > 0 ==> !AnyTakesAll(script, old(used), used, depth))
    {
      key := Insert();
      end, woken := PushAll([OpEntry(key)]);
    }

    /** `submit_ops`: all slots are there before the first entry is pushed, and
        the entries are pushed together. A batch larger than the queue is never
        pushed. */
    method SubmitOps(n: nat) returns (keys: seq<nat>, end: Ending, woken: seq<Waker>)
      requires Valid() && |slots| + n < USIZE_MAX
      modifies this
      ensures Valid() && old(used) <= used && |keys| == n
      ensures NewKeys(old(slots), keys)
      ensures taken + sq == old(taken) + old(sq) + (if end.Finished? then OpEntries(keys) else [])
      ensures Dispatched(WithKeys(old(slots), keys), Seen(script, old(used), used), slots, woken, end)
      ensures end.Finished? ==> n <= |sq| && forall i :: 0 <= i < n ==> sq[|sq| - n + i] == OpEntry(keys[i])
      ensures end.Retrying? ==> used == |script| && (n <= depth ==> !AnyTakesAll(script, old(used), used, depth))
      ensures n > depth ==> !end.Finished?
    {
      keys := InsertAll(n);
      end, woken := PushAll(OpEntries(keys));
      if end.Finished? {
        LastOnes(sq, OpEntries(keys));
      }
    }

    /** The loop that inserts the slots of a batch. */
    method InsertAll(n: nat) returns (keys: seq<nat>)
      requires |slots| + n < USIZE_MAX
      modifies this`slots
      ensures |keys| == n && NewKeys(old(slots), keys) && slots == WithKeys(old(slots), keys)
    {
      keys := [];
      for i := 0 to n
        invariant |keys| == i && |slots| + n - i < USIZE_MAX
        invariant NewKeys(old(slots), keys) && slots == WithKeys(old(slots), keys)
      {
        WithKeysDomain(old(slots), keys);
        var key := Insert();
        assert (keys + [key])[..i] == keys;
        keys := keys + [key];
      }
    }

    /** `cancel_op`: nothing happens when the slot is gone. */
    method CancelOp(index: nat) returns (end: Ending, woken: seq<Waker>)
      requires Valid()
      modifies this
      ensures Valid() && old(used) <= used
      ensures index !in old(slots) ==>
        end.Finished? && used == old(used) && sq == old(sq) && taken == old(taken) && slots == old(slots)
      ensures index in old(slots) ==>
        taken + sq == old(taken) + old(sq) + (if end.Finished? then [CancelEntry(index)] else [])
      ensures Dispatched(old(slots), Seen(script, old(used), used), slots, woken, end)
    {
      if index !in slots {
        return Finished, [];
      }
      end, woken := PushAll([CancelEntry(index)]);
    }
  }
}
