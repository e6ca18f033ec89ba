/** `Driver::drop` as a whole: the submission queue is flushed, every slot is
    marked, a cancel is pushed for each slot that is still to complete, and the
    completions the kernel owes are awaited. */
module DriverDrop {
  import opened Uring
  import opened Multishot
  import L = Lifecycle
  import opened Submission
  import T = Teardown
  import V = Driver
  import P = Protocol
  import TeardownOwed

  // ---- The first loop: flush the queue ----

  /** An attempt that the flush of `queued` entries makes is refused. */
  ghost predicate FlushRefused(script: seq<Try>, i: nat, queued: nat) {
    exists j :: i <= j < |script| && script[j].Refuses? && Offered(script, i, j) < queued
  }

  /** Submits until the queue is empty. An error that `submit` returns fails the
      `expect`, and the input alone decides whether one is returned; completions
      may be dispatched on the way. */
  method FlushAll<D>(ring: Submitter<D>) returns (end: Ending, woken: seq<Waker>)
    requires ring.Valid()
    modifies ring
    ensures ring.Valid() && old(ring.used) <= ring.used
    ensures ring.taken + ring.sq == old(ring.taken) + old(ring.sq)
    ensures end.Finished? ==> ring.sq == [] && ring.taken == old(ring.taken) + old(ring.sq)
    ensures Dispatched(old(ring.slots), Seen(ring.script, old(ring.used), ring.used), ring.slots, woken, end)
    ensures end.Failed? ==> FlushRefused(ring.script, old(ring.used), |old(ring.sq)|)
    ensures FlushRefused(ring.script, old(ring.used), |old(ring.sq)|) ==> end.Failed? || end.Panicked?
    ensures end.Finished? ==> ring.used == FlushEnd(ring.script, old(ring.used), |old(ring.sq)|)
    ensures end.Retrying? ==> ring.used == |ring.script| == FlushEnd(ring.script, old(ring.used), |old(ring.sq)|)
  {
    ghost var s0, start, queued := ring.slots, ring.used, |ring.sq|;
    woken := [];
    while ring.sq != []
      invariant ring.Valid() && start <= ring.used
      invariant ring.taken + ring.sq == old(ring.taken) + old(ring.sq)
      invariant Dispatched(s0, Seen(ring.script, start, ring.used), ring.slots, woken, Finished)
      invariant forall i :: start <= i < ring.used ==> !ring.script[i].Refuses?
      invariant FlushEnd(ring.script, ring.used, |ring.sq|) == FlushEnd(ring.script, start, queued)
      decreases |ring.script| - ring.used
    {
      ghost var mid, left := ring.used, |ring.sq|;
      end, woken := ring.SubmitOnce(s0, start, woken);
      FlushThrough(ring.script, mid, ring.used, ring.depth, end, left, |ring.sq|);
      if !end.Finished? {
        RefusalsMade(ring.script, start, queued, ring.used, end);
        return;
      }
    }
    end := Finished;
    assert ring.taken + [] == ring.taken;
    RefusalsMade(ring.script, start, queued, ring.used, end);
  }

  /** The refusals among the attempts made are those the input announces. */
  lemma RefusalsMade(script: seq<Try>, start: nat, queued: nat, used: nat, end: Ending)
    requires start <= |script| && start <= used <= FlushEnd(script, start, queued)
    requires end.Failed? ==> start < used && script[used - 1].Refuses?
    requires !end.Failed? ==> forall i :: start <= i < used ==> !script[i].Refuses?
    requires end.Finished? || end.Retrying? ==> used == FlushEnd(script, start, queued)
    ensures end.Failed? ==> FlushRefused(script, start, queued)
    ensures FlushRefused(script, start, queued) ==> end.Failed? || end.Panicked?
  {
    if end.Failed? {
      FlushMakes(script, start, queued, used - 1);
    } else if FlushRefused(script, start, queued) {
      var j :| start <= j < |script| && script[j].Refuses? && Offered(script, start, j) < queued;
      FlushMakes(script, start, queued, j);
    }
  }

  // ---- The cancel pass ----

  function Cancels(ids: seq<nat>): seq<RingEntry> {
    seq(|ids|, i requires 0 <= i < |ids| => CancelEntry(ids[i]))
  }

  /** The attempts `i..j` are answered by the kernel taking entries. */
  ghost predicate AllAccept(script: seq<Try>, i: nat, j: nat) {
    forall k :: i <= k < j && k < |script| ==> script[k].Accepts?
  }

  /** How many entries the attempts `i..j` take from a queue that is full at each
      of them. */
  function Moved(script: seq<Try>, i: nat, j: nat, depth: nat): nat
    requires j <= |script|
  {
    if i >= j then 0 else Moved(script, i, j - 1, depth) + Fewer(Offer(script[j - 1]), depth)
  }

  lemma {:induction false} MovedSplit(script: seq<Try>, i: nat, j: nat, k: nat, depth: nat)
    requires i <= j <= k <= |script|
    ensures Moved(script, i, k, depth) == Moved(script, i, j, depth) + Moved(script, j, k, depth)
    decreases k
  {
    if j < k {
      MovedSplit(script, i, j, k - 1, depth);
    }
  }

  /** Of `total` entries to be in the queue or taken by the end, so many remain
      that attempt `j` is made with a full queue, and it is answered with an
      error. */
  ghost predicate CancelFails(script: seq<Try>, i: nat, depth: nat, total: nat) {
    exists j :: i <= j < |script| && AllAccept(script, i, j) && !script[j].Accepts?
                && depth + Moved(script, i, j, depth) < total
  }

  /** All attempts are used up and there is still no room. */
  ghost predicate CancelStalls(script: seq<Try>, i: nat, depth: nat, total: nat) {
    i <= |script| && AllAccept(script, i, |script|) && depth + Moved(script, i, |script|, depth) < total
  }

  /** Where the attempts `i..used` stand when `pushed` entries of `total` have
      been pushed and `left` are in the queue. */
  ghost predicate CancelsAt(script: seq<Try>, i: nat, used: nat, depth: nat, pushed: nat, total: nat, left: nat,
                            end: Ending) {
    && i <= used <= |script| && left <= depth && left + Moved(script, i, used, depth) == pushed <= total
    && (end.Finished? || end.Panicked? || end.Retrying?)
    && (end.Finished? ==> AllAccept(script, i, used))
    && (end.Panicked? ==> i < used && AllAccept(script, i, used - 1) && !script[used - 1].Accepts?)
    && (end.Retrying? ==> AllAccept(script, i, used) && used == |script|)
    && (!end.Finished? ==> left == depth && pushed < total)
  }

  /** The input alone decides how the pass ends. */
  lemma CancelEnds(script: seq<Try>, i: nat, used: nat, depth: nat, pushed: nat, total: nat, left: nat, end: Ending)
    requires CancelsAt(script, i, used, depth, pushed, total, left, end) && (end.Finished? ==> pushed == total)
    ensures end.Panicked? <==> CancelFails(script, i, depth, total)
    ensures end.Retrying? <==> CancelStalls(script, i, depth, total)
  {
    if end.Panicked? {
      assert Moved(script, i, used, depth) == Moved(script, i, used - 1, depth);
      assert !script[used - 1].Accepts?;
    } else {
      if CancelFails(script, i, depth, total) {
        var j :| i <= j < |script| && AllAccept(script, i, j) && !script[j].Accepts?
                 && depth + Moved(script, i, j, depth) < total;
        assert used <= j;
        MovedSplit(script, i, used, j, depth);
      }
      MovedSplit(script, i, used, |script|, depth);
    }
  }

  /** Pushes one cancel. While the queue is full the source calls
      `submit_and_wait`, and any error of it, also an interruption, fails the
      `expect`. */
  method PushCancel<D>(ring: Submitter<D>, id: nat) returns (end: Ending)
    requires ring.Valid()
    modifies ring`used, ring`sq, ring`taken
    ensures ring.Valid() && old(ring.used) <= ring.used
    ensures ring.taken + ring.sq == old(ring.taken) + old(ring.sq) + (if end.Finished? then [CancelEntry(id)] else [])
    ensures var pushed := |old(ring.sq)| + (if end.Finished? then 1 else 0);
      CancelsAt(ring.script, old(ring.used), ring.used, ring.depth, pushed, |old(ring.sq)| + 1, |ring.sq|, end)
    ensures end.Panicked? <==> CancelFails(ring.script, old(ring.used), ring.depth, |old(ring.sq)| + 1)
    ensures end.Retrying? <==> CancelStalls(ring.script, old(ring.used), ring.depth, |old(ring.sq)| + 1)
  {
    ghost var start, queued := ring.used, |ring.sq|;
    while |ring.sq| >= ring.depth
      invariant ring.Valid() && start <= ring.used
      invariant ring.taken + ring.sq == old(ring.taken) + old(ring.sq)
      invariant AllAccept(ring.script, start, ring.used)
      invariant |ring.sq| + Moved(ring.script, start, ring.used, ring.depth) == queued
      decreases |ring.script| - ring.used
    {
      if ring.used == |ring.script| {
        CancelEnds(ring.script, start, ring.used, ring.depth, queued, queued + 1, |ring.sq|, Retrying);
        return Retrying;
      }
      ring.used := ring.used + 1;
      match ring.script[ring.used - 1] {
        case Accepts(n) =>
          ring.Take(n);
        case _ =>
          CancelEnds(ring.script, start, ring.used, ring.depth, queued, queued + 1, |ring.sq|, Panicked);
          return Panicked;
      }
    }
    ring.Push([CancelEntry(id)]);
    end := Finished;
    CancelEnds(ring.script, start, ring.used, ring.depth, queued + 1, queued + 1, |ring.sq|, Finished);
  }

  /** The keys handled so far and those to come. */
  ghost predicate Handled(ignored: set<nat>, ids: seq<nat>, todo: set<nat>) {
    && (forall k :: k in ignored <==> k in ids || k in todo)
    && (forall k :: k in ids ==> k !in todo)
    && (forall i, j :: 0 <= i < j < |ids| ==> ids[i] != ids[j])
    && |ids| + |todo| == |ignored|
  }

  lemma HandledOne(ignored: set<nat>, ids: seq<nat>, todo: set<nat>, id: nat)
    requires Handled(ignored, ids, todo) && id in todo
    ensures Handled(ignored, ids + [id], todo - {id})
    ensures Cancels(ids + [id]) == Cancels(ids) + [CancelEntry(id)]
  {
  }

  /** Two stretches of attempts, one after the other. */
  lemma CancelsOn(script: seq<Try>, i: nat, mid: nat, used: nat, depth: nat, before: nat, pushed: nat, total: nat,
                  left: nat, left': nat, end: Ending)
    requires CancelsAt(script, i, mid, depth, before, total, left, Finished) && before < total
    requires CancelsAt(script, mid, used, depth, left + pushed, left + 1, left', end)
    ensures CancelsAt(script, i, used, depth, before + pushed, total, left', end)
  {
    MovedSplit(script, i, mid, used, depth);
  }

  /** The second pass: exactly one cancel for each ignored slot, in some order
      and behind everything pushed before. The script, the size of the queue and
      the number of cancels decide whether it panics; when the cancels fit into
      the queue it does not. */
  method CancelPass<D>(ring: Submitter<D>, ignored: set<nat>) returns (end: Ending, ids: seq<nat>)
    requires ring.Valid()
    modifies ring`used, ring`sq, ring`taken
    ensures ring.Valid() && old(ring.used) <= ring.used
    ensures end.Finished? || end.Panicked? || end.Retrying?
    ensures ring.taken + ring.sq == old(ring.taken) + old(ring.sq) + Cancels(ids)
    ensures forall i, j :: 0 <= i < j < |ids| ==> ids[i] != ids[j]
    ensures forall k :: k in ids ==> k in ignored
    ensures end.Finished? ==> forall k :: k in ignored ==> k in ids
    ensures forall i :: 0 <= i < |ids| ==> |Cancels(ids)| == |ids| && Cancels(ids)[i] == CancelEntry(ids[i])
    ensures end.Panicked? <==> CancelFails(ring.script, old(ring.used), ring.depth, |old(ring.sq)| + |ignored|)
    ensures end.Retrying? <==> CancelStalls(ring.script, old(ring.used), ring.depth, |old(ring.sq)| + |ignored|)
    ensures end.Retrying? ==> ring.used == |ring.script|
  {
    ghost var start, queued, total := ring.used, |ring.sq|, |ring.sq| + |ignored|;
    var todo := ignored;
    ids := [];
    while todo != {}
      invariant ring.Valid() && start <= ring.used && Handled(ignored, ids, todo)
      invariant ring.taken + ring.sq == old(ring.taken) + old(ring.sq) + Cancels(ids)
      invariant CancelsAt(ring.script, start, ring.used, ring.depth, queued + |ids|, total, |ring.sq|, Finished)
      decreases todo
    {
      var id :| id in todo;
      ghost var mid, left := ring.used, |ring.sq|;
      end := PushCancel(ring, id);
      ghost var one := if end.Finished? then 1 else 0;
      CancelsOn(ring.script, start, mid, ring.used, ring.depth, queued + |ids|, one, total, left, |ring.sq|, end);
      if !end.Finished? {
        CancelEnds(ring.script, start, ring.used, ring.depth, queued + |ids|, total, |ring.sq|, end);
        return;
      }
      HandledOne(ignored, ids, todo, id);
      ids, todo := ids + [id], todo - {id};
    }
    end := Finished;
    CancelEnds(ring.script, start, ring.used, ring.depth, queued + |ids|, total, |ring.sq|, end);
  }

  // ---- What is owed ----

  /** Dispatching an owed completion and marking afterwards leaves what marking
      first would leave. */
  lemma MarkedDispatch<D>(slots: L.Slots<D>, unit: D, stream: seq<(nat, Cqe)>)
    requires stream != [] && T.Settles(T.IgnoredKeys(T.MarkAll(slots, unit)), stream)
    ensures L.Dispatch(slots, stream[0].0, stream[0].1).Done?
    ensures var t := L.Dispatch(slots, stream[0].0, stream[0].1).value.slots;
      && T.IgnoredKeys(T.MarkAll(t, unit)) <= T.IgnoredKeys(T.MarkAll(slots, unit))
      && T.Settles(T.IgnoredKeys(T.MarkAll(t, unit)), stream[1..])
  {
    var (key, c) := stream[0];
    if key != USIZE_MAX {
      L.DispatchIs(slots, key, c);
      var t := L.Dispatch(slots, key, c).value.slots;
      var before, after := T.IgnoredKeys(T.MarkAll(slots, unit)), T.IgnoredKeys(T.MarkAll(t, unit));
      assert after == if More(c) then before else before - {key};
    }
  }

  /** The same for several completions. */
  lemma {:induction false} MarkedBatch<D>(slots: L.Slots<D>, unit: D, batch: seq<(nat, Cqe)>, rest: seq<(nat, Cqe)>)
    requires T.Settles(T.IgnoredKeys(T.MarkAll(slots, unit)), batch + rest)
    ensures L.DispatchAll(slots, batch).Done?
    ensures var t := L.DispatchAll(slots, batch).value.slots;
      && T.IgnoredKeys(T.MarkAll(t, unit)) <= T.IgnoredKeys(T.MarkAll(slots, unit))
      && T.Settles(T.IgnoredKeys(T.MarkAll(t, unit)), rest)
    decreases |batch|
  {
    if batch == [] {
      assert batch + rest == rest;
    } else {
      var front, p := batch[..|batch| - 1], batch[|batch| - 1];
      assert batch + rest == front + ([p] + rest) && front + [p] == batch;
      MarkedBatch(slots, unit, front, [p] + rest);
      LastEntry(slots, front, p);
      MarkedDispatch(L.DispatchAll(slots, front).value.slots, unit, [p] + rest);
      assert ([p] + rest)[1..] == rest;
    }
  }

  /** A stream in portions of the given sizes, and the rest. */
  function Chop(stream: seq<(nat, Cqe)>, sizes: seq<nat>): seq<seq<(nat, Cqe)>> {
    if sizes == [] || sizes[0] > |stream| then [stream]
    else [stream[..sizes[0]]] + Chop(stream[sizes[0]..], sizes[1..])
  }

  lemma {:induction false} ChopFlattens(stream: seq<(nat, Cqe)>, sizes: seq<nat>)
    ensures T.Flatten(Chop(stream, sizes)) == stream
    ensures forall i :: 0 <= i < |Chop(stream, sizes)| ==> |Chop(stream, sizes)[i]| <= |stream|
    decreases |sizes|
  {
    if sizes == [] || sizes[0] > |stream| {
      assert T.Flatten([stream][1..]) == [];
    } else {
      var rest := Chop(stream[sizes[0]..], sizes[1..]);
      ChopFlattens(stream[sizes[0]..], sizes[1..]);
      assert ([stream[..sizes[0]]] + rest)[1..] == rest;
    }
  }

  /** Every way of getting a stream in batches is one of these. */
  lemma {:induction false} ChopReaches(batches: seq<seq<(nat, Cqe)>>)
    ensures Chop(T.Flatten(batches), Sizes(batches)) == batches + [[]]
    decreases |batches|
  {
    if batches == [] {
      assert T.Flatten(batches) == [];
    } else {
      ChopReaches(batches[1..]);
      var stream, rest := T.Flatten(batches), T.Flatten(batches[1..]);
      assert stream == batches[0] + rest;
      assert stream[..|batches[0]|] == batches[0] && stream[|batches[0]|..] == rest;
      assert Sizes(batches)[1..] == Sizes(batches[1..]);
    }
  }

  function Sizes(batches: seq<seq<(nat, Cqe)>>): seq<nat> {
    seq(|batches|, i requires 0 <= i < |batches| => |batches[i]|)
  }

  // ---- The whole destructor ----

  /** The slots after the attempts `i..j` of a flush. */
  function FlushedSlots<D>(before: L.Slots<D>, script: seq<Try>, i: nat, j: nat): L.Slots<D>
    requires j <= |script|
  {
    match L.DispatchAll(before, Seen(script, i, j))
    case Done(e) => e.slots
    case Panic => before
  }

  /** The operations that have still to complete after a flush of `queued`
      entries. */
  function OwingAfter<D>(before: L.Slots<D>, script: seq<Try>, i: nat, queued: nat, unit: D): set<nat>
    requires i <= |script|
  {
    T.IgnoredKeys(T.MarkAll(FlushedSlots(before, script, i, FlushEnd(script, i, queued)), unit))
  }

  /** The flush on the slabs. The queue works on the slots; the slabs follow with
      the completions that were dispatched. None of them panics. */
  method FlushDriver<D, O>(drv: V.Driver<D, O>, ring: Submitter<D>, unit: D, owed: seq<(nat, Cqe)>)
    returns (end: Ending, rest: seq<(nat, Cqe)>)
    requires drv.Valid() && ring.Valid() && ring.slots == drv.slots
    requires T.Settles(T.IgnoredKeys(T.MarkAll(drv.slots, unit)), owed)
    requires Seen(ring.script, ring.used, |ring.script|) <= owed
    requires |drv.completions.entries| + |owed| < USIZE_MAX
    modifies drv, drv.completions, ring
    ensures drv.Valid() && ring.Valid() && ring.slots == drv.slots && old(ring.used) <= ring.used
    ensures ring.taken + ring.sq == old(ring.taken) + old(ring.sq)
    ensures end.Finished? ==> ring.sq == [] && ring.taken == old(ring.taken) + old(ring.sq)
    ensures end.Finished? || end.Failed? || end.Retrying?
    ensures end.Failed? <==> FlushRefused(ring.script, old(ring.used), |old(ring.sq)|)
    ensures !end.Failed? ==> ring.used == FlushEnd(ring.script, old(ring.used), |old(ring.sq)|)
    ensures end.Retrying? ==> ring.used == |ring.script|
    ensures !end.Failed? ==>
      T.IgnoredKeys(T.MarkAll(drv.slots, unit)) ==
      OwingAfter(old(drv.slots), ring.script, old(ring.used), |old(ring.sq)|, unit)
    ensures T.IgnoredKeys(T.MarkAll(drv.slots, unit)) <= T.IgnoredKeys(T.MarkAll(old(drv.slots), unit))
    ensures |rest| <= |owed| && rest == owed[|owed| - |rest|..]
    ensures T.Settles(T.IgnoredKeys(T.MarkAll(drv.slots, unit)), rest)
  {
    ghost var s0 := drv.slots;
    var first := ring.used;
    var woken;
    end, woken := FlushAll(ring);
    var seen := Seen(ring.script, first, ring.used);
    SeenIsPrefix(ring.script, first, ring.used, owed);
    rest := owed[|seen|..];
    MarkedBatch(s0, unit, seen, rest);
    var panicked, w := drv.DispatchCompletions(seen);
    FlushedOwing(s0, ring.script, first, |old(ring.sq)|, ring.used, unit, drv.slots, w);
  }

  lemma FlushedOwing<D>(before: L.Slots<D>, script: seq<Try>, i: nat, queued: nat, used: nat, unit: D,
                        after: L.Slots<D>, woken: seq<Waker>)
    requires i <= used <= |script| && L.DispatchAll(before, Seen(script, i, used)) == Done(L.Effect(after, woken))
    ensures used == FlushEnd(script, i, queued) ==>
      T.IgnoredKeys(T.MarkAll(after, unit)) == OwingAfter(before, script, i, queued, unit)
  {
  }

  /** What some of the attempts show is the beginning of what is owed. */
  lemma SeenIsPrefix(script: seq<Try>, i: nat, j: nat, owed: seq<(nat, Cqe)>)
    requires i <= j <= |script| && Seen(script, i, |script|) <= owed
    ensures var n := |Seen(script, i, j)|;
      n <= |owed| && owed == Seen(script, i, j) + owed[n..]
  {
    SeenSplit(script, i, j, |script|);
  }

  lemma SubsetSize(a: set<nat>, b: set<nat>)
    requires a <= b
    ensures |a| <= |b|
  {
    assert b == a + (b - a);
  }

  /** The slots marked `Ignored`, as the driver finds them. */
  method FindIgnored<D, O>(drv: V.Driver<D, O>) returns (ignored: set<nat>)
    requires drv.Valid()
    ensures ignored == T.IgnoredKeys(drv.slots)
  {
    ignored := set k | k in drv.cells && drv.cells[k].Ignored?;
    forall k: nat ensures k in ignored <==> k in T.IgnoredKeys(drv.slots) {
      drv.At(k);
    }
  }

  /** `Driver::drop`. `owed` is what the kernel posts from now on, in order, with
      the results of cancels anywhere in it; what it shows while it is busy comes
      first, and the waits get the rest in portions of any sizes. What is queued,
      the slots, the size of the queue and the kernel's answers decide how it
      ends: it panics exactly if the flush is refused, or if it is not and an
      attempt that the cancels of what is then still to complete need is answered
      with any error. Otherwise both slabs end up empty and each of those
      operations was cancelled once. */
  method DropDriver<D, O>(drv: V.Driver<D, O>, ring: Submitter<D>, unit: D, owed: seq<(nat, Cqe)>, sizes: seq<nat>)
    returns (end: Ending, ids: seq<nat>)
    requires drv.Valid() && ring.Valid() && ring.slots == drv.slots
    requires T.Settles(T.IgnoredKeys(T.MarkAll(drv.slots, unit)), owed)
    requires Seen(ring.script, ring.used, |ring.script|) <= owed
    requires |drv.completions.entries| + |owed| < USIZE_MAX
    modifies drv, drv.completions, ring
    ensures drv.Valid() && ring.Valid()
    ensures end.Finished? ==> drv.slots == map[] && drv.completions.entries == map[]
    ensures DropEnds(old(drv.slots), ring.script, old(ring.used), |old(ring.sq)|, ring.depth, unit, end)
    ensures |T.IgnoredKeys(T.MarkAll(old(drv.slots), unit))| <= ring.depth ==> !end.Panicked?
    ensures end.Retrying? ==> ring.used == |ring.script|
    ensures end.Finished? ==>
      && ring.taken + ring.sq == old(ring.taken) + old(ring.sq) + Cancels(ids)
      && (forall i, j :: 0 <= i < j < |ids| ==> ids[i] != ids[j])
      && forall k :: k in ids <==> k in OwingAfter(old(drv.slots), ring.script, old(ring.used), |old(ring.sq)|, unit)
  {
    ids := [];
    ghost var start, queued := ring.used, |ring.sq|;
    var rest;
    end, rest := FlushDriver(drv, ring, unit, owed);
    if !end.Finished? {
      FlushConcludes(old(drv.slots), ring.script, start, queued, ring.depth, unit, end);
      return;
    }
    ghost var owing := T.IgnoredKeys(T.MarkAll(drv.slots, unit));
    SubsetSize(owing, T.IgnoredKeys(T.MarkAll(old(drv.slots), unit)));
    end, ids := CancelAndAwait(drv, ring, unit, rest, sizes);
    CancelConcludes(old(drv.slots), ring.script, start, queued, ring.depth, unit, end, |owing|);
  }

  lemma FlushConcludes<D>(slots: L.Slots<D>, script: seq<Try>, i: nat, queued: nat, depth: nat, unit: D, end: Ending)
    requires i <= |script| && (end.Failed? || end.Retrying?) && (end.Failed? <==> FlushRefused(script, i, queued))
    requires end.Retrying? ==> FlushEnd(script, i, queued) == |script|
    ensures DropEnds(slots, script, i, queued, depth, unit, end)
  {
  }

  lemma CancelConcludes<D>(slots: L.Slots<D>, script: seq<Try>, i: nat, queued: nat, depth: nat, unit: D, end: Ending,
                           owing: nat)
    requires i <= |script| && !end.Failed? && !FlushRefused(script, i, queued)
    requires owing == |OwingAfter(slots, script, i, queued, unit)|
    requires end.Panicked? <==> CancelFails(script, FlushEnd(script, i, queued), depth, owing)
    ensures DropEnds(slots, script, i, queued, depth, unit, end)
    ensures owing <= depth ==> !end.Panicked?
  {
    if owing <= depth {
      FittingCancels(script, FlushEnd(script, i, queued), depth, owing);
    }
  }

  /** The loops after the flush. */
  method CancelAndAwait<D, O>(drv: V.Driver<D, O>, ring: Submitter<D>, unit: D, rest: seq<(nat, Cqe)>, sizes: seq<nat>)
    returns (end: Ending, ids: seq<nat>)
    requires drv.Valid() && ring.Valid() && ring.sq == []
    requires T.Settles(T.IgnoredKeys(T.MarkAll(drv.slots, unit)), rest) && |rest| < USIZE_MAX
    modifies drv, drv.completions, ring
    ensures drv.Valid() && ring.Valid()
    ensures end.Finished? || end.Panicked? || end.Retrying?
    ensures end.Finished? ==> drv.slots == map[] && drv.completions.entries == map[]
    ensures var owing := T.IgnoredKeys(T.MarkAll(old(drv.slots), unit));
      && (end.Panicked? <==> CancelFails(ring.script, old(ring.used), ring.depth, |owing|))
      && (end.Finished? ==> forall k :: k in ids <==> k in owing)
    ensures end.Retrying? ==> ring.used == |ring.script|
    ensures ring.taken + ring.sq == old(ring.taken) + Cancels(ids)
    ensures forall i, j :: 0 <= i < j < |ids| ==> ids[i] != ids[j]
  {
    assert ring.taken + ring.sq == ring.taken;
    T.MarkSlots(drv, unit);
    var ignored := FindIgnored(drv);
    end, ids := CancelPass(ring, ignored);
    if end.Finished? {
      ChopFlattens(rest, sizes);
      T.AwaitAll(drv, Chop(rest, sizes));
    }
  }

  /** Cancels that fit into the queue never fail. */
  lemma FittingCancels(script: seq<Try>, i: nat, depth: nat, total: nat)
    requires total <= depth
    ensures !CancelFails(script, i, depth, total)
  {
  }

  /** How the destructor of a driver with these slots and `queued` entries ends,
      by the kernel's answers from attempt `i` on. */
  ghost predicate DropEnds<D>(slots: L.Slots<D>, script: seq<Try>, i: nat, queued: nat, depth: nat, unit: D,
                              end: Ending)
    requires i <= |script|
  {
    && (end.Failed? <==> FlushRefused(script, i, queued))
    && (end.Panicked? <==>
          && !FlushRefused(script, i, queued)
          && CancelFails(script, FlushEnd(script, i, queued), depth, |OwingAfter(slots, script, i, queued, unit)|))
  }

  /** A driver whose slots are those of any run, torn down while the kernel goes
      on until it is done with every request: the destructor needs nothing else
      to end with both slabs empty. */
  method DropAfterRun<D, O>(ghost b: Behaviour<D, O>, ghost depth: nat, ghost steps: seq<P.Step<D>>,
                            ghost more: seq<P.Step<D>>,
                            drv: V.Driver<D, O>, ring: Submitter<D>, unit: D, owed: seq<(nat, Cqe)>, sizes: seq<nat>)
    returns (end: Ending)
    requires drv.Valid() && ring.Valid() && ring.slots == drv.slots
    requires P.Run(b, depth, steps).Done? && drv.slots == P.Run(b, depth, steps).value.slots
    requires TeardownOwed.OwedAfter(b, depth, steps, more, owed)
    requires Seen(ring.script, ring.used, |ring.script|) <= owed
    requires |drv.completions.entries| + |owed| < USIZE_MAX
    modifies drv, drv.completions, ring
    ensures drv.Valid() && ring.Valid()
    ensures end.Finished? ==> drv.slots == map[] && drv.completions.entries == map[]
    ensures DropEnds(old(drv.slots), ring.script, old(ring.used), |old(ring.sq)|, ring.depth, unit, end)
    ensures end.Retrying? ==> ring.used == |ring.script|
  {
    TeardownOwed.OwedSettles(b, depth, steps, more, owed, unit);
    var ids;
    end, ids := DropDriver(drv, ring, unit, owed, sizes);
  }

  /** A witness for the panic: two operations are with the kernel, which owes each
      of them one completion, the queue has one entry, and the call made to get
      room for the second cancel is interrupted. */
  method InterruptedDropPanics<D, O>(unit: D) returns (end: Ending)
    ensures end.Panicked?
  {
    var drv, a, c := TwoInFlight<D, O>();
    var slots: L.Slots<D> := map[a := L.Submitted, c := L.Submitted];
    var ring := new Submitter(slots, 1, [Interrupted]);
    TwoOwe(slots, a, c, unit);
    InterruptedFails(slots, a, c, unit);
    var ids;
    end, ids := DropDriver(drv, ring, unit, [(a, T.ZEROED), (c, T.ZEROED)], []);
  }

  method TwoInFlight<D, O>() returns (drv: V.Driver<D, O>, a: nat, c: nat)
    ensures fresh(drv) && fresh(drv.completions) && drv.Valid() && drv.completions.entries == map[]
    ensures a != c && a < USIZE_MAX && c < USIZE_MAX
    ensures drv.slots == map[a := L.Submitted, c := L.Submitted]
  {
    drv := new V.Driver<D, O>();
    a := drv.Insert();
    c := drv.Insert();
  }

  lemma InterruptedFails<D>(slots: L.Slots<D>, a: nat, c: nat, unit: D)
    requires a != c && T.IgnoredKeys(T.MarkAll(slots, unit)) == {a, c}
    ensures OwingAfter(slots, [Interrupted], 0, 0, unit) == {a, c}
    ensures !FlushRefused([Interrupted], 0, 0) && CancelFails([Interrupted], 0, 1, |{a, c}|)
  {
    assert FlushEnd([Interrupted], 0, 0) == 0 && Seen([Interrupted], 0, 0) == [];
    var script := [Interrupted];
    assert AllAccept(script, 0, 0) && !script[0].Accepts? && Moved(script, 0, 0, 1) == 0;
  }

  lemma TwoOwe<D>(slots: L.Slots<D>, a: nat, c: nat, unit: D)
    requires a != c && a < USIZE_MAX && c < USIZE_MAX && slots == map[a := L.Submitted, c := L.Submitted]
    ensures T.IgnoredKeys(T.MarkAll(slots, unit)) == {a, c}
    ensures T.Settles({a, c}, [(a, T.ZEROED), (c, T.ZEROED)])
  {
    var stream: seq<(nat, Cqe)> := [(a, T.ZEROED), (c, T.ZEROED)];
    assert {a, c} - {a} == {c} && {c} - {c} == {};
    assert stream[1..] == [(c, T.ZEROED)] && stream[1..][1..] == [];
    assert T.Settles({}, []);
    assert T.Settles({c}, stream[1..]);
  }
}
