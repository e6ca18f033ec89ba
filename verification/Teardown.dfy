/** The two passes of `Driver::drop` that change the slabs: every slot is
    marked, and the last completions are awaited until both slabs are empty. */
module Teardown {
  import opened Uring
  import opened Store
  import opened Driver
  import L = Lifecycle

  /** A zeroed completion entry. */
  const ZEROED: Cqe := Cqe(0, 0, [])

  /** What the first pass makes of a slot; `unit` stands for `Box::new(())`. */
  function Marked<D>(life: L.Life<D>, unit: D): L.Life<D> {
    match life
    case Completed(_) => life
    case CompletionList(l) =>
      if l != [] && !More(l[|l| - 1]) then L.Completed(ZEROED) else L.Ignored(unit)
    case _ => L.Ignored(unit)
  }

  function MarkAll<D>(slots: L.Slots<D>, unit: D): L.Slots<D> {
    map k | k in slots :: Marked(slots[k], unit)
  }

  ghost predicate OnlyMarked<D>(slots: L.Slots<D>) {
    forall k :: k in slots ==> slots[k].Ignored? || slots[k].Completed?
  }

  function IgnoredKeys<D>(slots: L.Slots<D>): set<nat> {
    set k | k in slots && slots[k].Ignored?
  }

  /** The kernel owes each ignored slot some completions with `more` and then
      exactly one without, and owes nothing else but the results of cancels:
      in any interleaving, `stream` is what it posts. */
  ghost predicate Settles(ignored: set<nat>, stream: seq<(nat, Cqe)>) {
    if stream == [] then ignored == {}
    else
      var (key, c) := stream[0];
      if key == USIZE_MAX then Settles(ignored, stream[1..])
      else key in ignored && Settles(if More(c) then ignored else ignored - {key}, stream[1..])
  }

  /** The entries of several waits, in order. */
  function Flatten(batches: seq<seq<(nat, Cqe)>>): seq<(nat, Cqe)> {
    if batches == [] then [] else batches[0] + Flatten(batches[1..])
  }

  /** One dispatched completion brings the slab one step nearer to empty. */
  lemma DispatchSettles<D>(slots: L.Slots<D>, stream: seq<(nat, Cqe)>)
    requires OnlyMarked(slots) && stream != [] && Settles(IgnoredKeys(slots), stream)
    ensures L.Dispatch(slots, stream[0].0, stream[0].1).Done?
    ensures var t := L.Dispatch(slots, stream[0].0, stream[0].1).value.slots;
      && OnlyMarked(t) && t.Keys <= slots.Keys && Settles(IgnoredKeys(t), stream[1..])
  {
    var (key, c) := stream[0];
    if key != USIZE_MAX {
      L.DispatchIs(slots, key, c);
      assert IgnoredKeys(slots - {key}) == IgnoredKeys(slots) - {key};
    }
  }

  /** A batch of completions during teardown never panics and leaves the slots
      settled by what is still to come. */
  lemma {:induction false} BatchSettles<D>(slots: L.Slots<D>, batch: seq<(nat, Cqe)>, rest: seq<(nat, Cqe)>, n: nat)
    requires OnlyMarked(slots) && Settles(IgnoredKeys(slots), batch + rest) && n <= |batch|
    ensures L.DispatchAll(slots, batch[..n]).Done?
    ensures var t := L.DispatchAll(slots, batch[..n]).value.slots;
      && OnlyMarked(t) && t.Keys <= slots.Keys && Settles(IgnoredKeys(t), batch[n..] + rest)
    decreases n
  {
    if n == 0 {
      assert batch[0..] + rest == batch + rest;
    } else {
      BatchSettles(slots, batch, rest, n - 1);
      L.DispatchNext(slots, batch, n - 1);
      var t := L.DispatchAll(slots, batch[..n - 1]).value.slots;
      var stream := batch[n - 1..] + rest;
      assert stream[0] == batch[n - 1] && stream[1..] == batch[n..] + rest;
      DispatchSettles(t, stream);
    }
  }

  /** With no list left, the completions slab is empty. */
  lemma NoListsNoEntries<D>(st: Store<D>, slots: L.Slots<D>)
    requires Represents(st, slots) && OnlyMarked(slots)
    ensures st.lists == map[] && st.slab == map[]
  {
    forall n | n in st.lists ensures false {
      SlotAt(st, n);
    }
  }

  /** A number above every key. */
  lemma {:induction false} KeyBound(keys: set<nat>) returns (hi: nat)
    ensures forall k :: k in keys ==> k < hi
    decreases keys
  {
    if keys == {} {
      hi := 0;
    } else {
      var k :| k in keys;
      var rest := KeyBound(keys - {k});
      hi := if k < rest then rest else k + 1;
      assert forall x :: x in keys ==> x == k || x in keys - {k};
    }
  }

  /** The slots while the first pass is under way: `todo` is untouched. */
  ghost predicate HalfMarked<D>(before: L.Slots<D>, slots: L.Slots<D>, todo: set<nat>, unit: D) {
    && slots.Keys == before.Keys && todo <= before.Keys
    && forall k :: k in before ==> slots[k] == if k in todo then before[k] else Marked(before[k], unit)
  }

  /** The first pass. Afterwards every slot is `Ignored` or `Completed` and the
      completions slab is empty. */
  method MarkSlots<D, O>(drv: Driver<D, O>, unit: D)
    requires drv.Valid()
    modifies drv, drv.completions
    ensures drv.Valid() && drv.slots == MarkAll(old(drv.slots), unit)
    ensures OnlyMarked(drv.slots) && drv.completions.entries == map[]
  {
    ghost var before := drv.slots;
    var todo := drv.cells.Keys;
    CellsAreSlots(drv.Value(), before);
    while todo != {}
      invariant drv.Valid() && HalfMarked(before, drv.slots, todo, unit)
      decreases todo
    {
      var k :| k in todo;
      drv.At(k);
      MarkOne(drv, k, unit);
      todo := todo - {k};
    }
    AllMarked(before, drv.slots, unit);
    NoListsNoEntries(drv.Value(), drv.slots);
  }

  lemma CellsAreSlots<D>(st: Store<D>, slots: L.Slots<D>)
    requires Represents(st, slots)
    ensures st.cells.Keys == slots.Keys
  {
  }

  lemma AllMarked<D>(before: L.Slots<D>, slots: L.Slots<D>, unit: D)
    requires HalfMarked(before, slots, {}, unit)
    ensures slots == MarkAll(before, unit) && OnlyMarked(slots)
  {
  }

  method MarkOne<D, O>(drv: Driver<D, O>, k: nat, unit: D)
    requires drv.Valid() && k in drv.cells
    modifies drv, drv.completions
    ensures drv.Valid() && k in old(drv.slots) && drv.slots == old(drv.slots)[k := Marked(old(drv.slots)[k], unit)]
  {
    drv.At(k);
    ghost var s0 := drv.slots;
    match drv.cells[k] {
      case Completed(_) =>
        UpdateSame(drv.slots, k);
      case CompletionList(ix) =>
        var more := drv.FreeList(k, ix, Slot.Ignored(unit), Some(Slot.Completed(ZEROED)));
        MarkedList(s0, drv.slots, k, unit, more);
      case _ =>
        drv.SetPlain(k, Some(Slot.Ignored(unit)));
        MarkedPlain(s0, drv.slots, k, unit);
    }
  }

  lemma MarkedPlain<D>(before: L.Slots<D>, after: L.Slots<D>, k: nat, unit: D)
    requires k in before && !before[k].CompletionList? && !before[k].Completed?
    requires after == before[k := Plain(Slot.Ignored(unit))]
    ensures after == before[k := Marked(before[k], unit)]
  {
  }

  lemma MarkedList<D>(before: L.Slots<D>, after: L.Slots<D>, k: nat, unit: D, more: bool)
    requires k in before && before[k].CompletionList? && before[k].cqes != []
    requires more == More(before[k].cqes[|before[k].cqes| - 1])
    requires after == before[k := Plain(if more then Slot.Ignored(unit) else Slot.Completed(ZEROED))]
    ensures after == before[k := Marked(before[k], unit)]
  {
  }

  /** The waiting loop. `batches` is what each `wait` finds in the completion
      queue, possibly nothing; together they are what the kernel owes. No live
      key is ever below `id`. The loop ends, without a panic, with both slabs
      empty. */
  method AwaitAll<D, O>(drv: Driver<D, O>, batches: seq<seq<(nat, Cqe)>>)
    requires drv.Valid() && OnlyMarked(drv.slots)
    requires Settles(IgnoredKeys(drv.slots), Flatten(batches))
    requires forall i :: 0 <= i < |batches| ==> |batches[i]| < USIZE_MAX
    modifies drv, drv.completions
    ensures drv.Valid() && drv.slots == map[] && drv.completions.entries == map[]
  {
    ghost var bound := KeyBound(drv.slots.Keys);
    ghost var hi: int := bound;
    var id := 0;
    var waits := 0;
    NoListsNoEntries(drv.Value(), drv.slots);
    assert batches[0..] == batches;
    while |drv.cells| != 0
      invariant drv.Valid() && OnlyMarked(drv.slots) && drv.completions.entries == map[]
      invariant 0 <= waits <= |batches| && Settles(IgnoredKeys(drv.slots), Flatten(batches[waits..]))
      invariant forall k :: k in drv.slots ==> id <= k < hi
      decreases |batches| - waits, hi - id
    {
      SomeKey(drv.Value(), drv.slots);
      drv.At(id);
      if id in drv.cells && drv.cells[id].Ignored? {
        assert id in IgnoredKeys(drv.slots);
        assert waits < |batches|;
        AwaitOnce(drv, batches[waits], batches[waits + 1..]);
        assert batches[waits..][1..] == batches[waits + 1..];
        waits := waits + 1;
      } else {
        FreeCompleted(drv, id);
        id := id + 1;
      }
    }
    Nothing(drv.Value(), drv.slots);
  }

  /** Frees a slot that is completed, if it is there. */
  method FreeCompleted<D, O>(drv: Driver<D, O>, id: nat)
    requires drv.Valid() && OnlyMarked(drv.slots) && drv.completions.entries == map[]
    requires id in drv.cells ==> !drv.cells[id].Ignored?
    modifies drv, drv.completions
    ensures drv.Valid() && OnlyMarked(drv.slots) && drv.completions.entries == map[]
    ensures drv.slots == old(drv.slots) - {id} && IgnoredKeys(drv.slots) == IgnoredKeys(old(drv.slots))
  {
    drv.At(id);
    if id in drv.cells {
      drv.SetPlain(id, None);
    }
  }

  /** One wait and the dispatch of what it found. */
  method AwaitOnce<D, O>(drv: Driver<D, O>, batch: seq<(nat, Cqe)>, ghost rest: seq<seq<(nat, Cqe)>>)
    requires drv.Valid() && OnlyMarked(drv.slots) && drv.completions.entries == map[]
    requires Settles(IgnoredKeys(drv.slots), batch + Flatten(rest)) && |batch| < USIZE_MAX
    modifies drv, drv.completions
    ensures drv.Valid() && OnlyMarked(drv.slots) && drv.slots.Keys <= old(drv.slots).Keys
    ensures drv.completions.entries == map[]
    ensures Settles(IgnoredKeys(drv.slots), Flatten(rest))
  {
    BatchSettles(drv.slots, batch, Flatten(rest), |batch|);
    assert batch[..|batch|] == batch && batch[|batch|..] + Flatten(rest) == Flatten(rest);
    var panicked, woken := drv.DispatchCompletions(batch);
    NoListsNoEntries(drv.Value(), drv.slots);
  }

  lemma SomeKey<D>(st: Store<D>, slots: L.Slots<D>)
    requires Represents(st, slots) && |st.cells| != 0
    ensures exists k :: k in slots
  {
    var k :| k in st.cells;
    SlotAt(st, k);
  }

  lemma Nothing<D>(st: Store<D>, slots: L.Slots<D>)
    requires Represents(st, slots) && |st.cells| == 0
    ensures slots == map[]
  {
  }
}
