/** The driver's slab bookkeeping as the source has it: two slabs changed in
    place. Every method is proved against the operation on slots of the module
    `Lifecycle` that the protocol runs; a panic of the source is reported. */
module Driver {
  import opened Uring
  import opened Multishot
  import opened SlabList
  import opened Store
  import L = Lifecycle

  /** How one pass of the poll loop over a queued list ended. */
  datatype Turn<D, O> = Waits(data: D) | Yields(out: O, data: D) | Ends(out: O) {
    function NewData(): Option<D> {
      if Ends? then None else Some(data)
    }

    function Out(): Option<O> {
      if Waits? then None else Some(out)
    }
  }

  function AsDrained<D, O>(t: Turn<D, O>, rest: seq<Cqe>): Drained<D, O> {
    match t
    case Waits(d) => Exhausted(d)
    case Yields(o, d) => Yielded(o, d, rest)
    case Ends(o) => Final(o, rest)
  }

  /** The loop of `poll_multishot_op`: pops completions one at a time and stops
      at the first output; what it did not pop stays on the list. */
  method DrainList<D, O>(b: Behaviour<D, O>, data0: D, list: List<Cqe>) returns (turn: Turn<D, O>, ghost n: nat)
    requires list.Valid() && USIZE_MAX !in list.slab.entries
    modifies list, list.slab
    ensures list.Valid() && n <= |old(list.keys)| && list.keys == old(list.keys)[n..]
    ensures list.slab.entries == old(list.slab.entries) - FirstKeys(old(list.keys), n)
    ensures Inside(old(list.slab.entries), old(list.keys))
    ensures turn.Waits? ==> n == |old(list.keys)|
    ensures Drain(b, data0, Contents(old(list.slab.entries), old(list.keys)))
            == AsDrained(turn, Contents(old(list.slab.entries), old(list.keys))[n..])
  {
    ghost var all, slab0 := list.keys, list.slab.entries;
    ChainInside(slab0, list.index, all);
    ghost var cs := Contents(slab0, all);
    var data := data0;
    n := 0;
    assert all[0..] == all && cs[0..] == cs;
    assert slab0 - FirstKeys(all, 0) == slab0;
    var cqe := TakeNext(list, slab0, all, 0, cs);
    n := if cqe.Some? then 1 else 0;
    while cqe.Some?
      invariant n <= |all| && list.Valid() && list.keys == all[n..]
      invariant list.slab.entries == slab0 - FirstKeys(all, n)
      invariant cqe.Some? ==> 0 < n && cqe.value == cs[n - 1] && Drain(b, data, cs[n - 1..]) == Drain(b, data0, cs)
      invariant cqe.None? ==> n == |all| && Drain(b, data0, cs) == Exhausted(data)
      decreases |all| - n, cqe.Some?
    {
      DrainNext(b, data, cs, n - 1);
      if More(cqe.value) {
        data := b.update(data, cqe.value);
        if b.shouldYield(data) {
          var (o, d) := b.yieldResult(data);
          turn := Yields(o, d);
          return;
        }
      } else {
        turn := Ends(b.complete(data, cqe.value));
        return;
      }
      cqe := TakeNext(list, slab0, all, n, cs);
      n := if cqe.Some? then n + 1 else n;
    }
    turn := Waits(data);
  }

  /** Pops entry `m` of a list of which the first `m` entries are popped. */
  method TakeNext(list: List<Cqe>, ghost slab0: map<nat, Entry<Cqe>>, ghost all: seq<nat>, ghost m: nat,
                  ghost cs: seq<Cqe>) returns (cqe: Option<Cqe>)
    requires list.Valid() && USIZE_MAX !in list.slab.entries && Inside(slab0, all) && cs == Contents(slab0, all)
    requires m <= |all| && list.keys == all[m..] && list.slab.entries == slab0 - FirstKeys(all, m)
    modifies list, list.slab
    ensures list.Valid() && (cqe.Some? <==> m < |all|)
    ensures cqe.Some? ==>
      cqe.value == cs[m] && list.keys == all[m + 1..] && list.slab.entries == slab0 - FirstKeys(all, m + 1)
    ensures cqe.None? ==> list.keys == all[m..] && list.slab.entries == old(list.slab.entries)
  {
    if m < |all| {
      PopNext(slab0, list.slab.entries, all, m, cs);
    }
    cqe := list.Pop();
  }

  /** One round of the loop, by what the completion announces. */
  lemma DrainNext<D, O>(b: Behaviour<D, O>, data: D, cs: seq<Cqe>, k: nat)
    requires k < |cs|
    ensures !More(cs[k]) ==> Drain(b, data, cs[k..]) == Final(b.complete(data, cs[k]), cs[k + 1..])
    ensures More(cs[k]) ==>
      var d := b.update(data, cs[k]);
      Drain(b, data, cs[k..]) ==
      if b.shouldYield(d) then Yielded(b.yieldResult(d).0, b.yieldResult(d).1, cs[k + 1..])
      else if k + 1 == |cs| then Exhausted(d)
      else Drain(b, d, cs[k + 1..])
  {
  }

  lemma PopNext(slab0: map<nat, Entry<Cqe>>, slab: map<nat, Entry<Cqe>>, all: seq<nat>, m: nat, cs: seq<Cqe>)
    requires Inside(slab0, all) && cs == Contents(slab0, all) && m < |all|
    requires slab == slab0 - FirstKeys(all, m)
    ensures all[m..] != [] && all[m..][0] == all[m] && all[m..][1..] == all[m + 1..]
    ensures slab - {all[m]} == slab0 - FirstKeys(all, m + 1)
    ensures all[m] in slab ==> slab[all[m]].value == cs[m]
  {
  }

  /** Borrows the slab as a list, queues one completion and gives the indices
      back. */
  method PushEntry(store: Slab<Entry<Cqe>>, ix: Indices, ghost keys: seq<nat>, cqe: Cqe)
    returns (ix': Indices, ghost k: nat)
    requires Chain(store.entries, ix, keys) && |store.entries| < USIZE_MAX
    modifies store
    ensures k !in old(store.entries) && k < USIZE_MAX
    ensures store.entries == Pushed(old(store.entries), ix, k, cqe).0
    ensures ix' == Pushed(old(store.entries), ix, k, cqe).1
  {
    var list := new List(ix, store, keys);
    k := list.Push(cqe);
    ix' := list.IntoIndices();
  }

  /** Borrows the slab as a list, reads its last completion and drops it. */
  method FreeChain(store: Slab<Entry<Cqe>>, ix: Indices, ghost keys: seq<nat>) returns (last: Cqe)
    requires Chain(store.entries, ix, keys) && keys != []
    modifies store
    ensures keys[|keys| - 1] in old(store.entries) && last == old(store.entries)[keys[|keys| - 1]].value
    ensures store.entries == old(store.entries) - FirstKeys(keys, |keys|)
  {
    var list := new List(ix, store, keys);
    var end := list.PeekEnd();
    last := end.value;
    list.Drop();
  }

  class Driver<D, O> {
    var cells: map<nat, Slot<D>>
    const completions: Slab<Entry<Cqe>>
    ghost var lists: map<nat, Named>
    ghost var home: map<nat, nat>
    /** The slots this driver stands for. */
    ghost var slots: L.Slots<D>

    ghost function Value(): Store<D>
      reads this, completions
    {
      Store(cells, completions.entries, lists, home)
    }

    ghost predicate Valid()
      reads this, completions
    {
      Represents(Value(), slots)
    }

    /** What the driver stands for in one slot. */
    lemma At(index: nat)
      requires Valid()
      ensures index in slots <==> index in cells
      ensures index in cells && !cells[index].CompletionList? ==> index !in lists && slots[index] == Plain(cells[index])
      ensures index in cells && cells[index].CompletionList? ==>
        && index in lists && slots[index].CompletionList? && slots[index].cqes != []
        && cells[index].ix == IndicesAt(Value(), index)
      ensures USIZE_MAX !in completions.entries
    {
      SlotAt(Value(), index);
    }

    constructor ()
      ensures Valid() && slots == map[] && cells == map[] && completions.entries == map[] && fresh(completions)
    {
      completions := new Slab();
      cells, lists, home, slots := map[], map[], map[], map[];
    }

    /** `Ops::insert`: any vacant key. */
    method Insert() returns (key: nat)
      requires Valid() && |cells| < USIZE_MAX
      modifies this`cells, this`slots
      ensures Valid()
      ensures key < USIZE_MAX && key !in old(slots)
      ensures slots == old(slots)[key := L.Submitted] && |cells| == |old(cells)| + 1
    {
      key := VacantKey(cells.Keys);
      At(key);
      InsertAt(key);
    }

    /** The insertion when the slab hands out this key. */
    method InsertAt(key: nat)
      requires Valid() && key !in slots
      modifies this`cells, this`slots
      ensures Valid()
      ensures slots == old(slots)[key := L.Submitted] && |cells| == |old(cells)| + 1
    {
      At(key);
      SetPlain(key, Some(Slot.Submitted));
    }

    /** Overwrites or frees a slot that has no list. */
    method SetPlain(index: nat, slot: Option<Slot<D>>)
      requires Valid() && index !in lists && (slot.Some? ==> !slot.value.CompletionList?)
      modifies this`cells, this`slots
      ensures Valid()
      ensures slots == if slot.Some? then old(slots)[index := Plain(slot.value)] else old(slots) - {index}
      ensures cells == if slot.Some? then old(cells)[index := slot.value] else old(cells) - {index}
    {
      ghost var st := Value();
      PlainOk(st, index, slot);
      cells := if slot.Some? then cells[index := slot.value] else cells - {index};
      slots := if slot.Some? then slots[index := Plain(slot.value)] else slots - {index};
      assert Value() == WithPlain(st, index, slot);
    }

    /** Queues a completion at the end of the list of slot `index`. */
    method Append(index: nat, ix: Indices, cqe: Cqe)
      requires Valid() && |completions.entries| < USIZE_MAX
      requires ix == IndicesAt(Value(), index)
      modifies this, completions
      ensures Valid() && Longer(old(slots), index, old(index in lists), cqe, slots)
      ensures |completions.entries| == old(|completions.entries|) + 1
    {
      ghost var st := Value();
      SlotAt(st, index);
      var ix';
      ghost var k;
      ix', k := PushEntry(completions, ix, KeysOf(lists, index), cqe);
      AppendRepresents(st, slots, index, k, cqe);
      RecordAppend(st, index, k, cqe, ix');
    }

    method RecordAppend(ghost st: Store<D>, index: nat, ghost k: nat, cqe: Cqe, ix: Indices)
      requires cells == st.cells && lists == st.lists && home == st.home
      requires completions.entries == Pushed(st.slab, IndicesAt(st, index), k, cqe).0
      requires ix == Pushed(st.slab, IndicesAt(st, index), k, cqe).1
      modifies this
      ensures Value() == Appended(st, index, k, cqe) && slots == Abs(Appended(st, index, k, cqe))
    {
      ghost var keys := KeysOf(lists, index) + [k];
      cells := cells[index := CompletionList(ix)];
      lists, home := lists[index := Named(ix, keys)], HomeAfter(home, completions.entries, index, keys);
      slots := Abs(Appended(st, index, k, cqe));
    }

    /** `Ops::complete` and `Lifecycle::complete`. */
    method Complete(index: nat, cqe: Cqe) returns (panicked: bool, woken: Option<Waker>)
      requires Valid() && index != USIZE_MAX && |completions.entries| < USIZE_MAX
      modifies this, completions
      ensures panicked <==> L.Dispatch(old(slots), index, cqe).Panic?
      ensures Valid()
      ensures !panicked ==> L.Dispatch(old(slots), index, cqe) == Done(L.Effect(slots, L.Wakes(woken)))
      ensures |completions.entries| <= old(|completions.entries|) + 1
    {
      panicked, woken := false, None;
      ghost var s0 := slots;
      At(index);
      if index !in cells {
        return true, None;
      }
      L.DispatchIs(s0, index, cqe);
      match cells[index] {
        case Submitted =>
          assert s0[index] == L.Submitted;
          Arrive(index, cqe);
        case Waiting(w) =>
          assert s0[index] == L.Waiting(w);
          Arrive(index, cqe);
          woken := Some(w);
        case Ignored(d) =>
          assert s0[index] == L.Ignored(d);
          if !More(cqe) {
            SetPlain(index, None);
          }
        case Completed(c) =>
          assert s0[index] == L.Completed(c);
          panicked := true;
        case CompletionList(ix) =>
          Append(index, ix, cqe);
      }
    }

    /** The first completion of a slot that was waiting for one. */
    method Arrive(index: nat, cqe: Cqe)
      requires Valid() && index in cells && index !in lists && |completions.entries| < USIZE_MAX
      modifies this, completions
      ensures Valid() && slots == old(slots)[index := L.Arrived(cqe)]
      ensures |completions.entries| <= old(|completions.entries|) + 1
    {
      At(index);
      if More(cqe) {
        Append(index, EMPTY, cqe);
      } else {
        SetPlain(index, Some(Slot.Completed(cqe)));
      }
    }

    /** `poll_op` and `poll_op_2`. */
    method PollOp(b: Behaviour<D, O>, index: nat, data: D, w: Waker) returns (panicked: bool, out: Option<O>)
      requires Valid()
      modifies this`cells, this`slots
      ensures panicked <==> L.PollSingle(b, old(slots), index, data, w).Panic?
      ensures Valid()
      ensures !panicked ==>
        L.PollSingle(b, old(slots), index, data, w) ==
        Done(L.Polled(slots, if out.Some? then None else Some(data), out, if out.Some? then 1 else 0, false))
    {
      panicked, out := false, None;
      At(index);
      if index !in cells {
        return true, None;
      }
      match cells[index] {
        case Submitted =>
          SetPlain(index, Some(Slot.Waiting(w)));
        case Waiting(v) =>
          if v != w {
            SetPlain(index, Some(Slot.Waiting(w)));
          } else {
            UpdateSame(slots, index);
          }
        case Ignored(_) =>
          panicked := true;
        case Completed(cqe) =>
          SetPlain(index, None);
          out := Some(b.complete(data, cqe));
        case CompletionList(_) =>
          panicked := true;
      }
    }

    /** One entry of the completion queue. */
    method DispatchEntry(userData: nat, cqe: Cqe) returns (panicked: bool, woken: seq<Waker>)
      requires Valid() && |completions.entries| < USIZE_MAX
      modifies this, completions
      ensures Valid()
      ensures panicked <==> L.Dispatch(old(slots), userData, cqe).Panic?
      ensures !panicked ==> L.Dispatch(old(slots), userData, cqe) == Done(L.Effect(slots, woken))
      ensures |completions.entries| <= old(|completions.entries|) + 1
    {
      if userData == USIZE_MAX {
        return false, [];
      }
      var w;
      panicked, w := Complete(userData, cqe);
      woken := if w.Some? then [w.value] else [];
    }

    /** `dispatch_completions` over the entries found in the completion queue;
        the entries of cancel requests are skipped. */
    method DispatchCompletions(cq: seq<(nat, Cqe)>) returns (panicked: bool, woken: seq<Waker>)
      requires Valid() && |completions.entries| + |cq| < USIZE_MAX
      modifies this, completions
      ensures Valid()
      ensures panicked <==> L.DispatchAll(old(slots), cq).Panic?
      ensures !panicked ==> L.DispatchAll(old(slots), cq) == Done(L.Effect(slots, woken))
      ensures |completions.entries| <= old(|completions.entries|) + |cq|
    {
      panicked, woken := false, [];
      ghost var s0 := slots;
      var i := 0;
      while i < |cq|
        invariant 0 <= i <= |cq| && Valid()
        invariant L.DispatchAll(s0, cq[..i]) == Done(L.Effect(slots, woken))
        invariant |completions.entries| <= old(|completions.entries|) + i
      {
        panicked, woken := DispatchNth(cq, i, s0, woken);
        if panicked {
          return;
        }
        i := i + 1;
      }
      assert cq[..i] == cq;
    }

    /** Entry `i` of the completion queue, when those before it are dispatched. */
    method DispatchNth(cq: seq<(nat, Cqe)>, i: nat, ghost s0: L.Slots<D>, before: seq<Waker>)
      returns (panicked: bool, woken: seq<Waker>)
      requires Valid() && i < |cq| && |completions.entries| < USIZE_MAX
      requires L.DispatchAll(s0, cq[..i]) == Done(L.Effect(slots, before))
      modifies this, completions
      ensures Valid() && |completions.entries| <= old(|completions.entries|) + 1
      ensures panicked ==> L.DispatchAll(s0, cq).Panic?
      ensures !panicked ==> L.DispatchAll(s0, cq[..i + 1]) == Done(L.Effect(slots, woken))
    {
      L.DispatchNext(s0, cq, i);
      var w;
      panicked, w := DispatchEntry(cq[i].0, cq[i].1);
      if panicked {
        L.PanicIsFinal(s0, cq, i + 1);
      }
      woken := before + w;
    }

    /** Frees the queued list of a slot. The slot becomes `ifMore` if the last
        completion on the list, which is there, announces more, and `ifDone`
        otherwise. */
    method FreeList(index: nat, ix: Indices, ifMore: Slot<D>, ifDone: Option<Slot<D>>) returns (more: bool)
      requires Valid() && index in cells && cells[index] == CompletionList(ix)
      requires !ifMore.CompletionList? && (ifDone.Some? ==> !ifDone.value.CompletionList?)
      modifies this, completions
      ensures Valid() && index !in lists
      ensures completions.entries.Keys <= old(completions.entries.Keys)
      ensures index in old(slots) && old(slots)[index].CompletionList?
      ensures var l := old(slots)[index].cqes; l != [] && more == More(l[|l| - 1])
      ensures more ==> slots == old(slots)[index := Plain(ifMore)]
      ensures !more ==> slots == if ifDone.Some? then old(slots)[index := Plain(ifDone.value)] else old(slots) - {index}
    {
      ghost var st := Value();
      var last := FreeEntries(index, ix);
      more := More(last);
      LoseList(st, index, if more then Some(ifMore) else ifDone);
    }

    /** Frees the entries of a queued list and returns the last completion on
        it. The slot is not up to date afterwards. */
    method FreeEntries(index: nat, ix: Indices) returns (last: Cqe)
      requires Valid() && index in cells && cells[index] == CompletionList(ix)
      modifies completions
      ensures completions.entries == old(completions.entries) - FirstKeys(KeysOf(lists, index), |KeysOf(lists, index)|)
      ensures index in slots && slots[index].CompletionList? && slots[index].cqes != []
      ensures last == slots[index].cqes[|slots[index].cqes| - 1]
    {
      ListIs(Value(), slots, index);
      last := FreeChain(completions, ix, KeysOf(lists, index));
    }

    /** Dropping an operation that has completions queued. */
    method RemoveList(index: nat, ix: Indices, data: D) returns (boxed: bool)
      requires Valid() && index in cells && cells[index] == CompletionList(ix)
      modifies this, completions
      ensures Valid()
      ensures completions.entries.Keys <= old(completions.entries.Keys)
      ensures L.Remove(old(slots), index, data) == Done(L.Removed(slots, boxed))
    {
      ghost var s0 := slots;
      boxed := FreeList(index, ix, Slot.Ignored(data), None);
      RemovedIs(s0, slots, index, data, boxed);
    }

    /** `remove_op` and `remove_op_2` of an unfinished operation; `boxed` says
        that the data went into the slot. */
    method RemoveOp(index: nat, data: D) returns (panicked: bool, boxed: bool)
      requires Valid()
      modifies this, completions
      ensures Valid()
      ensures completions.entries.Keys <= old(completions.entries.Keys)
      ensures panicked <==> L.Remove(old(slots), index, data).Panic?
      ensures !panicked ==> L.Remove(old(slots), index, data) == Done(L.Removed(slots, boxed))
    {
      panicked, boxed := false, false;
      At(index);
      if index !in cells {
        return;
      }
      ghost var s0 := slots;
      L.RemoveIs(s0, index, data);
      match cells[index] {
        case Submitted =>
          SetPlain(index, Some(Slot.Ignored(data)));
          boxed := true;
        case Waiting(_) =>
          SetPlain(index, Some(Slot.Ignored(data)));
          boxed := true;
        case Completed(_) =>
          SetPlain(index, None);
        case CompletionList(ix) =>
          boxed := RemoveList(index, ix, data);
        case Ignored(_) =>
          panicked := true;
      }
    }

    /** `poll_multishot_op`. `newData` is what the operation holds afterwards. */
    method PollMultishotOp(b: Behaviour<D, O>, index: nat, data: D, w: Waker)
      returns (panicked: bool, newData: Option<D>, out: Option<O>, wokeSelf: bool)
      requires Valid()
      modifies this, completions
      ensures Valid()
      ensures completions.entries.Keys <= old(completions.entries.Keys)
      ensures var r := L.PollMulti(b, old(slots), index, data, w);
        && (panicked <==> r.Panic?)
        && (!panicked ==>
          r.value.slots == slots && r.value.data == newData && r.value.out == out && r.value.wokeSelf == wokeSelf)
    {
      panicked, newData, out, wokeSelf := false, Some(data), None, false;
      At(index);
      if index !in cells {
        newData, out := None, Some(b.complete(data, L.BROKEN_PIPE));
        return;
      }
      match cells[index] {
        case Submitted =>
          SetPlain(index, Some(Slot.Waiting(w)));
        case Waiting(v) =>
          if v != w {
            SetPlain(index, Some(Slot.Waiting(w)));
          } else {
            UpdateSame(slots, index);
          }
        case Ignored(_) =>
          panicked := true;
        case Completed(cqe) =>
          SetPlain(index, None);
          newData, out := None, Some(b.complete(data, cqe));
        case CompletionList(ix) =>
          newData, out, wokeSelf := PollList(b, index, ix, data, w);
      }
    }

    /** Polling an operation that has completions queued. */
    method PollList(b: Behaviour<D, O>, index: nat, ix: Indices, data: D, w: Waker)
      returns (newData: Option<D>, out: Option<O>, wokeSelf: bool)
      requires Valid() && index in cells && cells[index] == CompletionList(ix)
      modifies this, completions
      ensures Valid()
      ensures completions.entries.Keys <= old(completions.entries.Keys)
      ensures index in old(slots) && old(slots)[index].CompletionList?
      ensures var l := old(slots)[index].cqes;
        var p := L.AfterDrain(old(slots), index, w, |l|, Drain(b, data, l));
        p.slots == slots && p.data == newData && p.out == out && p.wokeSelf == wokeSelf
    {
      ghost var st, s0 := Value(), slots;
      SlotAt(st, index);
      var list := new List(ix, completions, KeysOf(lists, index));
      var turn;
      ghost var n;
      turn, n := DrainList(b, data, list);
      newData, out := turn.NewData(), turn.Out();
      wokeSelf := Conclude(st, index, list, n, turn, w);
      PassIs(s0, slots, index, w, ListAt(st, index), n, turn, wokeSelf);
    }

    /** The slot after a pass, by how the pass ended. */
    method Conclude(ghost st: Store<D>, index: nat, list: List<Cqe>, ghost n: nat, turn: Turn<D, O>, w: Waker)
      returns (wokeSelf: bool)
      requires Represents(st, slots) && cells == st.cells && lists == st.lists && home == st.home
      requires list.slab == completions && list.Valid() && n <= |KeysOf(st.lists, index)|
      requires list.keys == KeysOf(st.lists, index)[n..]
      requires completions.entries == st.slab - FirstKeys(KeysOf(st.lists, index), n)
      modifies this, completions, list
      ensures Valid()
      ensures completions.entries.Keys <= old(completions.entries.Keys)
      ensures turn.Waits? ==> !wokeSelf && slots == old(slots)[index := Plain(Slot.Waiting(w))]
      ensures turn.Ends? ==> !wokeSelf && slots == old(slots) - {index}
      ensures turn.Yields? ==> (wokeSelf <==> n < |KeysOf(st.lists, index)|)
      ensures turn.Yields? && wokeSelf ==>
        n <= |ListAt(st, index)| && slots == old(slots)[index := L.CompletionList(ListAt(st, index)[n..])]
      ensures turn.Yields? && !wokeSelf ==> slots == old(slots)[index := Plain(Slot.Waiting(w))]
    {
      wokeSelf := false;
      match turn {
        case Waits(_) =>
          ConcludeFreed(st, index, list, n, Some(Slot.Waiting(w)));
        case Yields(_, _) =>
          wokeSelf := ConcludeYield(st, index, list, n, w);
        case Ends(_) =>
          ConcludeFreed(st, index, list, n, None);
      }
    }

    /** After a pass that needs no more of the list: the rest is dropped. */
    method ConcludeFreed(ghost st: Store<D>, index: nat, list: List<Cqe>, ghost n: nat, slot: Option<Slot<D>>)
      requires Represents(st, slots) && cells == st.cells && lists == st.lists && home == st.home
      requires list.slab == completions && list.Valid() && n <= |KeysOf(st.lists, index)|
      requires list.keys == KeysOf(st.lists, index)[n..]
      requires completions.entries == st.slab - FirstKeys(KeysOf(st.lists, index), n)
      requires slot.Some? ==> !slot.value.CompletionList?
      modifies this, completions, list
      ensures Valid()
      ensures completions.entries.Keys <= old(completions.entries.Keys)
      ensures slots == if slot.Some? then old(slots)[index := Plain(slot.value)] else old(slots) - {index}
    {
      list.Drop();
      FreeRest(st.slab, KeysOf(st.lists, index), n);
      LoseList(st, index, slot);
    }

    /** After a pass that yielded: what is left stays queued and the task wakes
        itself, or the slot waits again. */
    method ConcludeYield(ghost st: Store<D>, index: nat, list: List<Cqe>, ghost n: nat, w: Waker)
      returns (wokeSelf: bool)
      requires Represents(st, slots) && cells == st.cells && lists == st.lists && home == st.home
      requires list.slab == completions && list.Valid() && n <= |KeysOf(st.lists, index)|
      requires list.keys == KeysOf(st.lists, index)[n..]
      requires completions.entries == st.slab - FirstKeys(KeysOf(st.lists, index), n)
      modifies this, list
      ensures Valid()
      ensures wokeSelf <==> n < |KeysOf(st.lists, index)|
      ensures wokeSelf ==>
        n <= |ListAt(st, index)| && slots == old(slots)[index := L.CompletionList(ListAt(st, index)[n..])]
      ensures !wokeSelf ==> slots == old(slots)[index := Plain(Slot.Waiting(w))]
    {
      var empty := list.IsEmpty();
      var rest := list.IntoIndices();
      if !empty {
        KeepList(st, index, n, rest);
      } else {
        LoseList(st, index, Some(Slot.Waiting(w)));
      }
      wokeSelf := !empty;
    }

    /** Records that slot `index` has lost its list: its entries are freed. */
    method LoseList(ghost st: Store<D>, index: nat, slot: Option<Slot<D>>)
      requires Represents(st, slots) && (slot.Some? ==> !slot.value.CompletionList?)
      requires cells == st.cells && lists == st.lists && home == st.home
      requires completions.entries == st.slab - FirstKeys(KeysOf(st.lists, index), |KeysOf(st.lists, index)|)
      modifies this
      ensures Valid()
      ensures slots == if slot.Some? then old(slots)[index := Plain(slot.value)] else old(slots) - {index}
      ensures index !in lists && (slot.Some? ==> index in cells)
    {
      FreedOk(st, index, slot);
      cells := if slot.Some? then cells[index := slot.value] else cells - {index};
      lists, home := lists - {index}, HomeAfter(home, completions.entries, index, []);
      slots := if slot.Some? then slots[index := Plain(slot.value)] else slots - {index};
      assert Value() == WithoutList(st, index, completions.entries, slot);
    }

    /** Records that slot `index` keeps what is left of its list. */
    method KeepList(ghost st: Store<D>, index: nat, ghost n: nat, ix: Indices)
      requires Represents(st, slots) && n < |KeysOf(st.lists, index)|
      requires cells == st.cells && lists == st.lists && home == st.home
      requires completions.entries == st.slab - FirstKeys(KeysOf(st.lists, index), n)
      requires Chain(completions.entries, ix, KeysOf(st.lists, index)[n..])
      modifies this
      ensures Valid()
      ensures n <= |ListAt(st, index)| && slots == old(slots)[index := L.CompletionList(ListAt(st, index)[n..])]
    {
      PoppedOk(st, index, n, ix);
      ghost var rest := KeysOf(st.lists, index)[n..];
      cells := cells[index := CompletionList(ix)];
      lists, home := lists[index := Named(ix, rest)], HomeAfter(home, completions.entries, index, rest);
      slots := slots[index := L.CompletionList(ListAt(st, index)[n..])];
      assert Value() == WithList(st, index, completions.entries, ix, rest);
    }
  }

  /** The slots after a pass over a queued list are those of `AfterDrain`. */
  lemma PassIs<D, O>(before: L.Slots<D>, after: L.Slots<D>, index: nat, w: Waker, l: seq<Cqe>, n: nat,
                     turn: Turn<D, O>, woke: bool)
    requires n <= |l| && (turn.Waits? ==> n == |l|)
    requires turn.Waits? ==> !woke && after == before[index := Plain(Slot.Waiting(w))]
    requires turn.Ends? ==> !woke && after == before - {index}
    requires turn.Yields? ==> (woke <==> n < |l|)
    requires turn.Yields? ==>
      after == before[index := if woke then L.CompletionList(l[n..]) else Plain(Slot.Waiting(w))]
    ensures var p := L.AfterDrain(before, index, w, |l|, AsDrained(turn, l[n..]));
      && p.slots == after && p.wokeSelf == woke
      && p.data == turn.NewData() && p.out == turn.Out()
  {
  }

  lemma RemovedIs<D>(before: L.Slots<D>, after: L.Slots<D>, index: nat, data: D, boxed: bool)
    requires index in before && before[index].CompletionList? && before[index].cqes != []
    requires boxed == More(before[index].cqes[|before[index].cqes| - 1])
    requires after == if boxed then before[index := Plain(Slot.Ignored(data))] else before - {index}
    ensures L.Remove(before, index, data) == Done(L.Removed(after, boxed))
  {
  }
}
