/** The two slabs of the driver as one value, and what it stands for: the slot
    states with their queued completions. */
module Store {
  import opened Uring
  import opened SlabList
  import L = Lifecycle

  /** A slot as the driver stores it: a queued list is a pair of indices. */
  datatype Slot<D> =
    | Submitted
    | Waiting(waker: Waker)
    | Ignored(data: D)
    | Completed(cqe: Cqe)
    | CompletionList(ix: Indices)

  datatype Store<D> = Store(cells: map<nat, Slot<D>>, slab: map<nat, Entry<Cqe>>,
                            lists: map<nat, Named>, home: map<nat, nat>)

  /** The slots that say they have a list are those that have one, and it is
      not empty. */
  ghost predicate CellsOk<D>(cells: map<nat, Slot<D>>, lists: map<nat, Named>) {
    && (forall n :: n in lists ==> n in cells && cells[n] == CompletionList(lists[n].ix) && lists[n].keys != [])
    && (forall n :: n in cells && cells[n].CompletionList? ==> n in lists)
  }

  /** The completions slab holds exactly the entries of the queued lists. */
  ghost predicate StoreOk<D>(st: Store<D>) {
    Partition(st.slab, st.lists, st.home) && CellsOk(st.cells, st.lists)
  }

  function Plain<D>(slot: Slot<D>): L.Life<D> {
    match slot
    case Submitted => L.Submitted
    case Waiting(w) => L.Waiting(w)
    case Ignored(d) => L.Ignored(d)
    case Completed(c) => L.Completed(c)
    case CompletionList(_) => L.CompletionList([])
  }

  ghost function AbsSlot<D>(cells: map<nat, Slot<D>>, slab: map<nat, Entry<Cqe>>, lists: map<nat, Named>,
                            n: nat): L.Life<D>
    requires n in cells
  {
    if n in lists && Inside(slab, lists[n].keys) then L.CompletionList(Contents(slab, lists[n].keys))
    else Plain(cells[n])
  }

  /** The slots the store stands for. */
  ghost function Abs<D>(st: Store<D>): L.Slots<D> {
    AbsMap(st.cells, st.slab, st.lists)
  }

  ghost function AbsMap<D>(cells: map<nat, Slot<D>>, slab: map<nat, Entry<Cqe>>, lists: map<nat, Named>): L.Slots<D> {
    map n | n in cells :: AbsSlot(cells, slab, lists, n)
  }

  ghost predicate Represents<D>(st: Store<D>, slots: L.Slots<D>) {
    StoreOk(st) && slots == Abs(st)
  }

  /** Slot `n` gets the list `keys`. */
  ghost function WithList<D>(st: Store<D>, n: nat, slab: map<nat, Entry<Cqe>>, ix: Indices, keys: seq<nat>): Store<D> {
    Store(st.cells[n := CompletionList(ix)], slab, st.lists[n := Named(ix, keys)], HomeAfter(st.home, slab, n, keys))
  }

  /** Slot `n` has no list any more, and another state or none. */
  ghost function WithoutList<D>(st: Store<D>, n: nat, slab: map<nat, Entry<Cqe>>, slot: Option<Slot<D>>): Store<D> {
    Store(if slot.Some? then st.cells[n := slot.value] else st.cells - {n},
          slab, st.lists - {n}, HomeAfter(st.home, slab, n, []))
  }

  /** Maps that agree except at `n`. */
  ghost predicate AgreeOff<V>(m: map<nat, V>, m': map<nat, V>, n: nat) {
    forall k :: k != n ==> (k in m <==> k in m') && (k in m && k in m' ==> m'[k] == m[k])
  }

  lemma UpdateSame<V>(m: map<nat, V>, k: nat)
    requires k in m
    ensures m[k := m[k]] == m
  {
  }

  lemma MapUpdate<V>(m: map<nat, V>, m': map<nat, V>, n: nat)
    requires AgreeOff(m, m', n)
    ensures n in m' ==> m' == m[n := m'[n]]
    ensures n !in m' ==> m' == m - {n}
  {
  }

  lemma OthersAbs<D>(st: Store<D>, st': Store<D>, n: nat)
    requires OthersKept(st.slab, st'.slab, st.lists, n)
    requires AgreeOff(st.cells, st'.cells, n) && AgreeOff(st.lists, st'.lists, n)
    ensures AgreeOff(Abs(st), Abs(st'), n)
  {
  }

  lemma CellsUpdate<D>(cells: map<nat, Slot<D>>, lists: map<nat, Named>, cells': map<nat, Slot<D>>,
                       lists': map<nat, Named>, n: nat)
    requires CellsOk(cells, lists) && AgreeOff(cells, cells', n) && AgreeOff(lists, lists', n)
    requires n in lists' ==> n in cells' && cells'[n] == CompletionList(lists'[n].ix) && lists'[n].keys != []
    requires n in cells' && cells'[n].CompletionList? ==> n in lists'
    ensures CellsOk(cells', lists')
  {
  }

  lemma WithListPartition<D>(st: Store<D>, n: nat, slab: map<nat, Entry<Cqe>>, ix: Indices, keys: seq<nat>)
    requires StoreOk(st) && Rewires(st.slab, slab, KeysOf(st.lists, n), keys) && Chain(slab, ix, keys)
    ensures Partition(slab, st.lists[n := Named(ix, keys)], HomeAfter(st.home, slab, n, keys))
    ensures OthersKept(st.slab, slab, st.lists, n)
  {
    RewirePartition(st.slab, slab, st.lists, st.home, n, ix, keys);
  }

  lemma WithListCells<D>(cells: map<nat, Slot<D>>, lists: map<nat, Named>, n: nat, ix: Indices, keys: seq<nat>)
    requires CellsOk(cells, lists) && keys != []
    ensures CellsOk(cells[n := CompletionList(ix)], lists[n := Named(ix, keys)])
  {
  }

  lemma WithListStore<D>(st: Store<D>, n: nat, slab: map<nat, Entry<Cqe>>, ix: Indices, keys: seq<nat>)
    requires StoreOk(st) && Rewires(st.slab, slab, KeysOf(st.lists, n), keys) && Chain(slab, ix, keys) && keys != []
    ensures StoreOk(WithList(st, n, slab, ix, keys)) && OthersKept(st.slab, slab, st.lists, n)
  {
    WithListPartition(st, n, slab, ix, keys);
    WithListCells(st.cells, st.lists, n, ix, keys);
  }

  lemma WithListAbs<D>(st: Store<D>, n: nat, slab: map<nat, Entry<Cqe>>, ix: Indices, keys: seq<nat>)
    requires OthersKept(st.slab, slab, st.lists, n) && Inside(slab, keys)
    ensures Abs(WithList(st, n, slab, ix, keys)) == Abs(st)[n := L.CompletionList(Contents(slab, keys))]
  {
  }

  /** Giving slot `n` a list changes what the store stands for in `n` only. */
  lemma WithListOk<D>(st: Store<D>, n: nat, slab: map<nat, Entry<Cqe>>, ix: Indices, keys: seq<nat>)
    requires StoreOk(st) && Rewires(st.slab, slab, KeysOf(st.lists, n), keys) && Chain(slab, ix, keys) && keys != []
    ensures StoreOk(WithList(st, n, slab, ix, keys)) && Inside(slab, keys)
    ensures Abs(WithList(st, n, slab, ix, keys)) == Abs(st)[n := L.CompletionList(Contents(slab, keys))]
  {
    WithListStore(st, n, slab, ix, keys);
    ChainInside(slab, ix, keys);
    WithListAbs(st, n, slab, ix, keys);
  }

  lemma WithoutListPartition<D>(st: Store<D>, n: nat, slab: map<nat, Entry<Cqe>>)
    requires StoreOk(st) && Rewires(st.slab, slab, KeysOf(st.lists, n), [])
    ensures Partition(slab, st.lists - {n}, HomeAfter(st.home, slab, n, [])) && OthersKept(st.slab, slab, st.lists, n)
  {
    RewirePartition(st.slab, slab, st.lists, st.home, n, EMPTY, []);
    var lists := st.lists[n := Named(EMPTY, [])];
    ForgetPartition(slab, lists, HomeAfter(st.home, slab, n, []), n);
    assert lists - {n} == st.lists - {n};
  }

  lemma WithoutListAbs<D>(st: Store<D>, n: nat, slab: map<nat, Entry<Cqe>>, slot: Option<Slot<D>>)
    requires OthersKept(st.slab, slab, st.lists, n)
    ensures Abs(WithoutList(st, n, slab, slot)) == if slot.Some? then Abs(st)[n := Plain(slot.value)] else Abs(st) - {n}
  {
  }

  /** Taking the list from slot `n` changes what the store stands for in `n`
      only. */
  lemma WithoutListOk<D>(st: Store<D>, n: nat, slab: map<nat, Entry<Cqe>>, slot: Option<Slot<D>>)
    requires StoreOk(st) && Rewires(st.slab, slab, KeysOf(st.lists, n), [])
    requires slot.Some? ==> !slot.value.CompletionList?
    ensures StoreOk(WithoutList(st, n, slab, slot))
    ensures Abs(WithoutList(st, n, slab, slot)) == if slot.Some? then Abs(st)[n := Plain(slot.value)] else Abs(st) - {n}
  {
    WithoutListPartition(st, n, slab);
    WithoutListCells(st.cells, st.lists, n, slot);
    WithoutListAbs(st, n, slab, slot);
  }

  lemma WithoutListCells<D>(cells: map<nat, Slot<D>>, lists: map<nat, Named>, n: nat, slot: Option<Slot<D>>)
    requires CellsOk(cells, lists) && (slot.Some? ==> !slot.value.CompletionList?)
    ensures CellsOk(if slot.Some? then cells[n := slot.value] else cells - {n}, lists - {n})
  {
    CellsUpdate(cells, lists, if slot.Some? then cells[n := slot.value] else cells - {n}, lists - {n}, n);
  }

  /** Slot `n`, which has no list, gets another state or none. */
  function WithPlain<D>(st: Store<D>, n: nat, slot: Option<Slot<D>>): Store<D> {
    st.(cells := if slot.Some? then st.cells[n := slot.value] else st.cells - {n})
  }

  lemma PlainOk<D>(st: Store<D>, n: nat, slot: Option<Slot<D>>)
    requires StoreOk(st) && n !in st.lists
    requires slot.Some? ==> !slot.value.CompletionList?
    ensures StoreOk(WithPlain(st, n, slot))
    ensures Abs(WithPlain(st, n, slot)) == if slot.Some? then Abs(st)[n := Plain(slot.value)] else Abs(st) - {n}
  {
    var st' := WithPlain(st, n, slot);
    CellsUpdate(st.cells, st.lists, st'.cells, st.lists, n);
    SelfKept(st.slab, st.lists, n);
    OthersAbs(st, st', n);
    MapUpdate(Abs(st), Abs(st'), n);
  }

  lemma SelfKept(slab: map<nat, Entry<Cqe>>, lists: map<nat, Named>, n: nat)
    requires forall m :: m in lists ==> Chain(slab, lists[m].ix, lists[m].keys)
    ensures OthersKept(slab, slab, lists, n)
  {
    forall m | m in lists ensures Inside(slab, lists[m].keys) {
      ChainInside(slab, lists[m].ix, lists[m].keys);
    }
  }

  ghost function ListAt<D>(st: Store<D>, n: nat): seq<Cqe> {
    var keys := KeysOf(st.lists, n);
    if Inside(st.slab, keys) then Contents(st.slab, keys) else []
  }

  function IndicesAt<D>(st: Store<D>, n: nat): Indices {
    if n in st.lists then st.lists[n].ix else EMPTY
  }

  /** What the store stands for in one slot. */
  lemma SlotAt<D>(st: Store<D>, n: nat)
    requires StoreOk(st)
    ensures n in Abs(st) <==> n in st.cells
    ensures n in st.cells && !st.cells[n].CompletionList? ==> n !in st.lists && Abs(st)[n] == Plain(st.cells[n])
    ensures n in st.cells && st.cells[n].CompletionList? ==>
      && n in st.lists && Abs(st)[n] == L.CompletionList(ListAt(st, n))
      && st.cells[n].ix == IndicesAt(st, n) && ListAt(st, n) != []
    ensures n !in st.lists ==> ListAt(st, n) == []
    ensures Chain(st.slab, IndicesAt(st, n), KeysOf(st.lists, n)) && Inside(st.slab, KeysOf(st.lists, n))
    ensures USIZE_MAX !in st.slab
  {
    ChainInside(st.slab, IndicesAt(st, n), KeysOf(st.lists, n));
    NoEndMarker(st.slab, st.lists, st.home);
  }

  lemma NoEndMarker(slab: map<nat, Entry<Cqe>>, lists: map<nat, Named>, home: map<nat, nat>)
    requires Partition(slab, lists, home)
    ensures USIZE_MAX !in slab
  {
    forall k | k in slab ensures k < USIZE_MAX {
      var keys := lists[home[k]].keys;
      var i :| 0 <= i < |keys| && keys[i] == k;
      assert LinkOk(slab, keys, i);
    }
  }

  /** The store after a completion is queued under slab key `k`. */
  ghost function Appended<D>(st: Store<D>, n: nat, k: nat, c: Cqe): Store<D> {
    var (slab, ix) := Pushed(st.slab, IndicesAt(st, n), k, c);
    WithList(st, n, slab, ix, KeysOf(st.lists, n) + [k])
  }

  lemma AppendedOk<D>(st: Store<D>, n: nat, k: nat, c: Cqe)
    requires StoreOk(st) && k !in st.slab && k < USIZE_MAX
    ensures StoreOk(Appended(st, n, k, c))
    ensures n !in st.lists ==> Abs(Appended(st, n, k, c)) == Abs(st)[n := L.CompletionList([c])]
    ensures n in st.lists ==> n in Abs(st) && Abs(st)[n].CompletionList?
                              && Abs(Appended(st, n, k, c)) == Abs(st)[n := L.CompletionList(Abs(st)[n].cqes + [c])]
    ensures |Appended(st, n, k, c).slab| == |st.slab| + 1
  {
    SlotAt(st, n);
    var ix, keys := IndicesAt(st, n), KeysOf(st.lists, n);
    PushAppends(st.slab, ix, keys, k, c);
    PushRewires(st.slab, ix, keys, k, c);
    var (slab, ix') := Pushed(st.slab, ix, k, c);
    WithListOk(st, n, slab, ix', keys + [k]);
    assert slab.Keys == st.slab.Keys + {k};
    assert |slab.Keys| == |st.slab.Keys| + 1;
    assert n !in st.lists ==> ListAt(st, n) + [c] == [c];
  }

  /** A completion is queued at slot `n`, which had a list or not. */
  ghost predicate Longer<D>(before: L.Slots<D>, n: nat, had: bool, c: Cqe, after: L.Slots<D>) {
    if had
    then n in before && before[n].CompletionList? && after == before[n := L.CompletionList(before[n].cqes + [c])]
    else after == before[n := L.CompletionList([c])]
  }

  lemma AppendRepresents<D>(st: Store<D>, slots: L.Slots<D>, n: nat, k: nat, c: Cqe)
    requires Represents(st, slots) && k !in st.slab && k < USIZE_MAX
    ensures var st' := Appended(st, n, k, c);
      && Represents(st', Abs(st')) && Longer(slots, n, n in st.lists, c, Abs(st')) && |st'.slab| == |st.slab| + 1
  {
    AppendedOk(st, n, k, c);
  }

  /** The store after the first `n` entries of a slot's list are popped and
      the rest stays queued. */
  lemma PoppedOk<D>(st: Store<D>, index: nat, n: nat, ix: Indices)
    requires StoreOk(st) && n < |KeysOf(st.lists, index)|
    requires Chain(st.slab - FirstKeys(KeysOf(st.lists, index), n), ix, KeysOf(st.lists, index)[n..])
    ensures var keys := KeysOf(st.lists, index);
      var st' := WithList(st, index, st.slab - FirstKeys(keys, n), ix, keys[n..]);
      n <= |ListAt(st, index)| && StoreOk(st') && Abs(st') == Abs(st)[index := L.CompletionList(ListAt(st, index)[n..])]
  {
    SlotAt(st, index);
    var keys := KeysOf(st.lists, index);
    var slab := st.slab - FirstKeys(keys, n);
    FreeRewires(st.slab, IndicesAt(st, index), keys, n);
    ContentsSuffix(st.slab, IndicesAt(st, index), keys, n, slab);
    WithListOk(st, index, slab, ix, keys[n..]);
  }

  /** The store after all entries of a slot's list are freed. */
  lemma FreedOk<D>(st: Store<D>, index: nat, slot: Option<Slot<D>>)
    requires StoreOk(st) && (slot.Some? ==> !slot.value.CompletionList?)
    ensures var keys := KeysOf(st.lists, index);
      var st' := WithoutList(st, index, st.slab - FirstKeys(keys, |keys|), slot);
      StoreOk(st') && Abs(st') == if slot.Some? then Abs(st)[index := Plain(slot.value)] else Abs(st) - {index}
  {
    SlotAt(st, index);
    var keys := KeysOf(st.lists, index);
    FreeRewires(st.slab, IndicesAt(st, index), keys, |keys|);
    assert keys[|keys|..] == [];
    WithoutListOk(st, index, st.slab - FirstKeys(keys, |keys|), slot);
  }

  /** What is left of a list after `n` pops still has its values. */
  lemma ContentsSuffix<T>(slab: map<nat, Entry<T>>, ix: Indices, keys: seq<nat>, n: nat, slab': map<nat, Entry<T>>)
    requires Chain(slab, ix, keys) && n <= |keys| && slab' == slab - FirstKeys(keys, n)
    ensures Inside(slab, keys) && Inside(slab', keys[n..])
    ensures Contents(slab', keys[n..]) == Contents(slab, keys)[n..]
  {
    ChainInside(slab, ix, keys);
    FreeRewires(slab, ix, keys, n);
    forall i | 0 <= i < |keys[n..]| ensures keys[n..][i] in slab' && slab'[keys[n..][i]] == slab[keys[n + i]] {
      assert keys[n..][i] in keys[n..];
    }
  }

  /** Freeing the rest of a list after `n` pops frees all of it. */
  lemma FreeRest(slab: map<nat, Entry<Cqe>>, keys: seq<nat>, n: nat)
    requires n <= |keys|
    ensures slab - FirstKeys(keys, n) - FirstKeys(keys[n..], |keys[n..]|) == slab - FirstKeys(keys, |keys|)
  {
  }

  /** What a slot with a list stands for, and where its last completion is. */
  lemma ListIs<D>(st: Store<D>, slots: L.Slots<D>, n: nat)
    requires Represents(st, slots) && n in st.cells && st.cells[n].CompletionList?
    ensures n in st.lists && Chain(st.slab, st.cells[n].ix, KeysOf(st.lists, n)) && KeysOf(st.lists, n) != []
    ensures n in slots && slots[n].CompletionList? && slots[n].cqes != []
    ensures var keys := KeysOf(st.lists, n);
      keys[|keys| - 1] in st.slab && st.slab[keys[|keys| - 1]].value == slots[n].cqes[|slots[n].cqes| - 1]
  {
    SlotAt(st, n);
    LastValue(st.slab, KeysOf(st.lists, n));
  }

  lemma LastValue(slab: map<nat, Entry<Cqe>>, keys: seq<nat>)
    requires Inside(slab, keys) && keys != []
    ensures keys[|keys| - 1] in slab && |Contents(slab, keys)| == |keys|
    ensures Contents(slab, keys)[|keys| - 1] == slab[keys[|keys| - 1]].value
  {
  }
}
