/** Linked lists that all live in one slab. */
module SlabList {
  import opened Uring

  // ---- The slab: a table of entries under reusable keys ----

  /** Some key below `n` is vacant when fewer than `n` are taken. */
  lemma {:induction false} Vacancy(taken: set<nat>, n: nat) returns (k: nat)
    requires |taken| < n
    ensures k < n && k !in taken
    decreases n
  {
    if n - 1 !in taken {
      k := n - 1;
    } else {
      k := Vacancy(taken - {n - 1}, n - 1);
    }
  }

  /** Any vacant key. */
  method VacantKey(taken: set<nat>) returns (k: nat)
    requires |taken| < USIZE_MAX
    ensures k < USIZE_MAX && k !in taken
  {
    ghost var w := Vacancy(taken, USIZE_MAX);
    k :| k < USIZE_MAX && k !in taken;
  }

  /** Any vacant key may be handed out; a slab cannot hold `usize::MAX` entries. */
  class Slab<T> {
    var entries: map<nat, T>

    constructor ()
      ensures entries == map[]
    {
      entries := map[];
    }

    method Insert(v: T) returns (k: nat)
      requires |entries| < USIZE_MAX
      modifies this
      ensures k < USIZE_MAX && k !in old(entries)
      ensures entries == old(entries)[k := v]
    {
      k := VacantKey(entries.Keys);
      entries := entries[k := v];
    }

    method TryRemove(k: nat) returns (v: Option<T>)
      modifies this
      ensures v == if k in old(entries) then Some(old(entries)[k]) else None
      ensures entries == old(entries) - {k}
    {
      if k in entries {
        v := Some(entries[k]);
      } else {
        v := None;
      }
      entries := entries - {k};
    }
  }

  // ---- Chains ----

  datatype Entry<T> = Entry(value: T, next: nat)

  /** The head and the tail of one list; `usize::MAX` twice when it is empty. */
  datatype Indices = Indices(start: nat, end: nat)

  const EMPTY: Indices := Indices(USIZE_MAX, USIZE_MAX)

  /** `keys` is the list that starts and ends at these indices. */
  ghost predicate Chain<T>(slab: map<nat, Entry<T>>, ix: Indices, keys: seq<nat>) {
    if keys == [] then ix == EMPTY
    else
      && ix.start == keys[0] && ix.end == keys[|keys| - 1]
      && forall i :: 0 <= i < |keys| ==> LinkOk(slab, keys, i)
  }

  ghost predicate LinkOk<T>(slab: map<nat, Entry<T>>, keys: seq<nat>, i: nat)
    requires i < |keys|
  {
    && keys[i] in slab && keys[i] < USIZE_MAX
    && slab[keys[i]].next == (if i + 1 < |keys| then keys[i + 1] else USIZE_MAX)
  }

  ghost predicate Inside<T>(slab: map<nat, Entry<T>>, keys: seq<nat>) {
    forall k :: k in keys ==> k in slab
  }

  /** The values of a list, front to back. */
  ghost function Contents<T>(slab: map<nat, Entry<T>>, keys: seq<nat>): seq<T>
    requires Inside(slab, keys)
  {
    seq(|keys|, i requires 0 <= i < |keys| => assert keys[i] in keys; slab[keys[i]].value)
  }

  lemma ChainInside<T>(slab: map<nat, Entry<T>>, ix: Indices, keys: seq<nat>)
    requires Chain(slab, ix, keys)
    ensures Inside(slab, keys)
  {
    forall k | k in keys ensures k in slab {
      var i :| 0 <= i < |keys| && keys[i] == k;
      assert LinkOk(slab, keys, i);
    }
  }

  /** A chain never meets itself: it is acyclic. */
  lemma {:induction false} ChainAcyclic<T>(slab: map<nat, Entry<T>>, ix: Indices, keys: seq<nat>, i: nat, j: nat)
    requires Chain(slab, ix, keys) && i < j < |keys|
    ensures keys[i] != keys[j]
    decreases |keys| - j
  {
    assert LinkOk(slab, keys, i) && LinkOk(slab, keys, j) && LinkOk(slab, keys, i + 1);
    if j + 1 < |keys| {
      ChainAcyclic(slab, ix, keys, i + 1, j + 1);
    }
  }

  /** The indices alone determine the list. */
  lemma {:induction false} ChainUnique<T>(slab: map<nat, Entry<T>>, ix: Indices, xs: seq<nat>, ys: seq<nat>, i: nat)
    requires Chain(slab, ix, xs) && Chain(slab, ix, ys)
    requires xs != [] && i < |xs|
    ensures i < |ys| && xs[i] == ys[i]
    decreases i
  {
    assert LinkOk(slab, xs, 0);
    if i > 0 {
      ChainUnique(slab, ix, xs, ys, i - 1);
      assert LinkOk(slab, xs, i - 1) && LinkOk(slab, ys, i - 1);
      assert LinkOk(slab, xs, i);
    }
  }

  /** A list is not affected by changes to entries that are not on it. */
  lemma ChainFrame<T>(slab: map<nat, Entry<T>>, slab': map<nat, Entry<T>>, ix: Indices, keys: seq<nat>)
    requires Chain(slab, ix, keys)
    requires forall k :: k in keys && k in slab ==> k in slab' && slab'[k] == slab[k]
    ensures Chain(slab', ix, keys) && Inside(slab, keys) && Inside(slab', keys)
    ensures Contents(slab', keys) == Contents(slab, keys)
  {
    ChainInside(slab, ix, keys);
    forall i | 0 <= i < |keys| ensures LinkOk(slab', keys, i) {
      assert LinkOk(slab, keys, i) && keys[i] in keys;
    }
  }

  // ---- The list operations on values ----

  /** `push` of a value that the slab stores under key `k`. */
  function Pushed<T>(slab: map<nat, Entry<T>>, ix: Indices, k: nat, v: T): (map<nat, Entry<T>>, Indices) {
    var slab1 := slab[k := Entry(v, USIZE_MAX)];
    if ix.end != USIZE_MAX && ix.end in slab1
    then (slab1[ix.end := slab1[ix.end].(next := k)], Indices(ix.start, k))
    else (slab1, Indices(k, k))
  }

  /** `push` appends, changes no entry that is not on the list, and adds one. */
  lemma PushAppends<T>(slab: map<nat, Entry<T>>, ix: Indices, keys: seq<nat>, k: nat, v: T)
    requires Chain(slab, ix, keys) && k !in slab && k < USIZE_MAX
    ensures var (slab', ix') := Pushed(slab, ix, k, v);
      && Chain(slab', ix', keys + [k])
      && slab'.Keys == slab.Keys + {k}
      && (forall e :: e in slab && e !in keys ==> slab'[e] == slab[e])
      && Inside(slab, keys) && Inside(slab', keys + [k])
      && Contents(slab', keys + [k]) == Contents(slab, keys) + [v]
  {
    var (slab', ix') := Pushed(slab, ix, k, v);
    ChainInside(slab, ix, keys);
    var keys' := keys + [k];
    if keys != [] {
      assert LinkOk(slab, keys, |keys| - 1);
      assert ix.end in keys;
    }
    forall i | 0 <= i < |keys'| ensures LinkOk(slab', keys', i) {
      if i < |keys| {
        assert LinkOk(slab, keys, i) && keys[i] in keys;
        if i + 1 < |keys| {
          ChainAcyclic(slab, ix, keys, i, |keys| - 1);
        }
      }
    }
    ChainInside(slab', ix', keys');
    assert forall i :: 0 <= i < |keys| ==> keys'[i] == keys[i] && keys[i] in keys;
  }

  /** `pop` of a non-empty list. */
  function Popped<T>(slab: map<nat, Entry<T>>, ix: Indices): (map<nat, Entry<T>>, Indices)
    requires ix.start in slab
  {
    var next := slab[ix.start].next;
    (slab - {ix.start}, Indices(next, if next == USIZE_MAX then USIZE_MAX else ix.end))
  }

  lemma PopTakesFront<T>(slab: map<nat, Entry<T>>, ix: Indices, keys: seq<nat>)
    requires Chain(slab, ix, keys) && keys != []
    ensures ix.start in slab && ix.start == keys[0]
    ensures var (slab', ix') := Popped(slab, ix);
      && Chain(slab', ix', keys[1..])
      && Inside(slab, keys) && Inside(slab', keys[1..])
      && Contents(slab, keys) == [slab[ix.start].value] + Contents(slab', keys[1..])
  {
    assert LinkOk(slab, keys, 0);
    ChainInside(slab, ix, keys);
    var (slab', ix') := Popped(slab, ix);
    var tail := keys[1..];
    forall i | 0 <= i < |tail| ensures LinkOk(slab', tail, i) {
      assert LinkOk(slab, keys, i + 1);
      ChainAcyclic(slab, ix, keys, 0, i + 1);
    }
    if tail != [] {
      assert LinkOk(slab, keys, 1);
    }
    ChainInside(slab', ix', tail);
    assert forall i :: 0 <= i < |tail| ==> tail[i] == keys[i + 1] && tail[i] in tail && keys[i + 1] in keys;
  }

  // ---- Many lists in one slab ----

  datatype Named = Named(ix: Indices, keys: seq<nat>)

  /** The lists are chains, and every entry of the slab is on exactly one of
      them, the one `home` names. */
  ghost predicate Partition<T>(slab: map<nat, Entry<T>>, lists: map<nat, Named>, home: map<nat, nat>) {
    slab.Keys == home.Keys && Chains(slab, lists) && Homes(lists, home) && Members(lists, home)
  }

  ghost predicate Chains<T>(slab: map<nat, Entry<T>>, lists: map<nat, Named>) {
    forall n :: n in lists ==> Chain(slab, lists[n].ix, lists[n].keys)
  }

  /** Every entry is on the list that is its home. */
  ghost predicate Homes(lists: map<nat, Named>, home: map<nat, nat>) {
    forall k :: k in home ==> home[k] in lists && k in lists[home[k]].keys
  }

  /** Every entry of a list has that list as its home. */
  ghost predicate Members(lists: map<nat, Named>, home: map<nat, nat>) {
    forall n, k :: n in lists && k in lists[n].keys ==> k in home && home[k] == n
  }

  function KeysOf(lists: map<nat, Named>, n: nat): seq<nat> {
    if n in lists then lists[n].keys else []
  }

  /** The entry list of `n` becomes `keys`; entries of other lists stay. */
  ghost predicate Rewires<T>(slab: map<nat, Entry<T>>, slab': map<nat, Entry<T>>, before: seq<nat>, keys: seq<nat>) {
    && (forall k :: k in slab && k !in before ==> k in slab' && slab'[k] == slab[k])
    && (forall k :: k in slab' <==> (k in slab && k !in before) || k in keys)
    && (forall k :: k in keys ==> k in before || k !in slab)
  }

  ghost function HomeAfter<T>(home: map<nat, nat>, slab': map<nat, Entry<T>>, n: nat, keys: seq<nat>): map<nat, nat> {
    map k | k in slab' :: if k in keys || k !in home then n else home[k]
  }

  /** Every list other than `n` is the chain it was, with the same contents. */
  ghost predicate OthersKept<T>(slab: map<nat, Entry<T>>, slab': map<nat, Entry<T>>, lists: map<nat, Named>, n: nat) {
    forall m :: m in lists && m != n ==>
      && Chain(slab', lists[m].ix, lists[m].keys)
      && Inside(slab, lists[m].keys) && Inside(slab', lists[m].keys)
      && Contents(slab', lists[m].keys) == Contents(slab, lists[m].keys)
  }

  lemma RewireOthers<T>(slab: map<nat, Entry<T>>, slab': map<nat, Entry<T>>, lists: map<nat, Named>,
                        home: map<nat, nat>, n: nat, keys: seq<nat>)
    requires Partition(slab, lists, home) && Rewires(slab, slab', KeysOf(lists, n), keys)
    ensures OthersKept(slab, slab', lists, n)
  {
    forall m | m in lists && m != n
      ensures Chain(slab', lists[m].ix, lists[m].keys) && Inside(slab, lists[m].keys) && Inside(slab', lists[m].keys)
              && Contents(slab', lists[m].keys) == Contents(slab, lists[m].keys)
    {
      forall k | k in lists[m].keys && k in slab ensures k in slab' && slab'[k] == slab[k] {
        assert home[k] == m;
      }
      ChainFrame(slab, slab', lists[m].ix, lists[m].keys);
    }
  }

  /** Changing one list keeps the partition. */
  lemma RewirePartition<T>(slab: map<nat, Entry<T>>, slab': map<nat, Entry<T>>, lists: map<nat, Named>,
                           home: map<nat, nat>, n: nat, ix: Indices, keys: seq<nat>)
    requires Partition(slab, lists, home) && Rewires(slab, slab', KeysOf(lists, n), keys) && Chain(slab', ix, keys)
    ensures OthersKept(slab, slab', lists, n)
    ensures Partition(slab', lists[n := Named(ix, keys)], HomeAfter(home, slab', n, keys))
  {
    RewireOthers(slab, slab', lists, home, n, keys);
    RewireChains(slab, slab', lists, n, ix, keys);
    RewireHome(slab, slab', lists, home, n, ix, keys);
    RewireMembers(slab, slab', lists, home, n, ix, keys);
  }

  lemma RewireChains<T>(slab: map<nat, Entry<T>>, slab': map<nat, Entry<T>>, lists: map<nat, Named>, n: nat,
                        ix: Indices, keys: seq<nat>)
    requires OthersKept(slab, slab', lists, n) && Chain(slab', ix, keys)
    ensures Chains(slab', lists[n := Named(ix, keys)])
  {
  }

  lemma RewireHome<T>(slab: map<nat, Entry<T>>, slab': map<nat, Entry<T>>, lists: map<nat, Named>,
                      home: map<nat, nat>, n: nat, ix: Indices, keys: seq<nat>)
    requires Partition(slab, lists, home) && Rewires(slab, slab', KeysOf(lists, n), keys)
    ensures Homes(lists[n := Named(ix, keys)], HomeAfter(home, slab', n, keys))
  {
  }

  lemma RewireMembers<T>(slab: map<nat, Entry<T>>, slab': map<nat, Entry<T>>, lists: map<nat, Named>,
                         home: map<nat, nat>, n: nat, ix: Indices, keys: seq<nat>)
    requires Partition(slab, lists, home) && Rewires(slab, slab', KeysOf(lists, n), keys)
    ensures Members(lists[n := Named(ix, keys)], HomeAfter(home, slab', n, keys))
  {
    var lists', home' := lists[n := Named(ix, keys)], HomeAfter(home, slab', n, keys);
    forall m, k | m in lists' && k in lists'[m].keys ensures k in home' && home'[k] == m {
      if m != n {
        assert k in home && home[k] == m;
        assert k !in KeysOf(lists, n);
      }
    }
  }

  /** Forgetting an empty list keeps the partition. */
  lemma ForgetPartition<T>(slab: map<nat, Entry<T>>, lists: map<nat, Named>, home: map<nat, nat>, n: nat)
    requires Partition(slab, lists, home) && KeysOf(lists, n) == []
    ensures Partition(slab, lists - {n}, home)
  {
  }

  lemma PushRewires<T>(slab: map<nat, Entry<T>>, ix: Indices, keys: seq<nat>, k: nat, v: T)
    requires Chain(slab, ix, keys) && k !in slab && k < USIZE_MAX
    ensures Rewires(slab, Pushed(slab, ix, k, v).0, keys, keys + [k])
  {
    PushAppends(slab, ix, keys, k, v);
  }

  function FirstKeys(keys: seq<nat>, n: nat): set<nat>
    requires n <= |keys|
  {
    set k | k in keys[..n]
  }

  lemma FirstKeysStep(keys: seq<nat>, n: nat)
    requires n < |keys|
    ensures FirstKeys(keys, n + 1) == FirstKeys(keys, n) + {keys[n]}
  {
  }

  lemma FreeRewires<T>(slab: map<nat, Entry<T>>, ix: Indices, keys: seq<nat>, n: nat)
    requires Chain(slab, ix, keys) && n <= |keys|
    ensures Rewires(slab, slab - FirstKeys(keys, n), keys, keys[n..])
  {
    ChainInside(slab, ix, keys);
    var slab' := slab - FirstKeys(keys, n);
    forall k | k in slab' ensures k !in keys || k in keys[n..] {
      assert keys == keys[..n] + keys[n..];
    }
    forall k | k in keys[n..] ensures k in slab' && k in keys {
      var j :| n <= j < |keys| && keys[j] == k;
      forall i | 0 <= i < n ensures keys[i] != k {
        ChainAcyclic(slab, ix, keys, i, j);
      }
    }
  }

  /** Pushing on one of many lists appends to that list, leaves the contents of
      every other list alone, and keeps the slab partitioned. */
  lemma PushAmongMany<T>(slab: map<nat, Entry<T>>, lists: map<nat, Named>, home: map<nat, nat>, n: nat, k: nat, v: T)
    requires Partition(slab, lists, home) && n in lists && k !in slab && k < USIZE_MAX
    ensures var (slab', ix') := Pushed(slab, lists[n].ix, k, v);
      var keys' := lists[n].keys + [k];
      && Partition(slab', lists[n := Named(ix', keys')], HomeAfter(home, slab', n, keys'))
      && Inside(slab, lists[n].keys) && Inside(slab', keys')
      && Contents(slab', keys') == Contents(slab, lists[n].keys) + [v]
      && OthersKept(slab, slab', lists, n)
  {
    var (slab', ix') := Pushed(slab, lists[n].ix, k, v);
    PushAppends(slab, lists[n].ix, lists[n].keys, k, v);
    PushRewires(slab, lists[n].ix, lists[n].keys, k, v);
    RewirePartition(slab, slab', lists, home, n, ix', lists[n].keys + [k]);
  }

  lemma PopRewires<T>(slab: map<nat, Entry<T>>, ix: Indices, keys: seq<nat>)
    requires Chain(slab, ix, keys) && keys != [] && ix.start in slab
    ensures Rewires(slab, Popped(slab, ix).0, keys, keys[1..])
  {
    FreeRewires(slab, ix, keys, 1);
    assert keys[..1] == [keys[0]];
    assert slab - FirstKeys(keys, 1) == Popped(slab, ix).0;
  }

  /** Popping from one of many lists takes the oldest value of that list. */
  lemma PopAmongMany<T>(slab: map<nat, Entry<T>>, lists: map<nat, Named>, home: map<nat, nat>, n: nat)
    requires Partition(slab, lists, home) && n in lists && lists[n].keys != []
    ensures lists[n].ix.start in slab
    ensures var (slab', ix') := Popped(slab, lists[n].ix);
      var keys' := lists[n].keys[1..];
      && Partition(slab', lists[n := Named(ix', keys')], HomeAfter(home, slab', n, keys'))
      && Inside(slab, lists[n].keys) && Inside(slab', keys')
      && Contents(slab, lists[n].keys) == [slab[lists[n].ix.start].value] + Contents(slab', keys')
      && OthersKept(slab, slab', lists, n)
  {
    var keys := lists[n].keys;
    PopTakesFront(slab, lists[n].ix, keys);
    var (slab', ix') := Popped(slab, lists[n].ix);
    PopRewires(slab, lists[n].ix, keys);
    RewirePartition(slab, slab', lists, home, n, ix', keys[1..]);
  }

  /** Dropping one of many lists frees its entries and no others. */
  lemma DropAmongMany<T>(slab: map<nat, Entry<T>>, lists: map<nat, Named>, home: map<nat, nat>, n: nat)
    requires Partition(slab, lists, home) && n in lists
    ensures var slab' := slab - FirstKeys(lists[n].keys, |lists[n].keys|);
      && Partition(slab', lists - {n}, HomeAfter(home, slab', n, []))
      && OthersKept(slab, slab', lists, n)
  {
    var keys := lists[n].keys;
    FreeRewires(slab, lists[n].ix, keys, |keys|);
    assert keys[|keys|..] == [];
    var slab' := slab - FirstKeys(keys, |keys|);
    RewirePartition(slab, slab', lists, home, n, EMPTY, []);
    ForgetPartition(slab', lists[n := Named(EMPTY, [])], HomeAfter(home, slab', n, []), n);
    assert lists[n := Named(EMPTY, [])] - {n} == lists - {n};
  }

  // ---- The list as the source has it ----

  /** A list borrowed from the slab. `keys` is the chain of its entries. */
  class List<T> {
    const slab: Slab<Entry<T>>
    var index: Indices
    ghost var keys: seq<nat>

    ghost predicate Valid()
      reads this, slab
    {
      Chain(slab.entries, index, keys)
    }

    /** `into_list`. */
    constructor (ix: Indices, store: Slab<Entry<T>>, ghost ks: seq<nat>)
      requires Chain(store.entries, ix, ks)
      ensures slab == store && index == ix && keys == ks
    {
      slab, index, keys := store, ix, ks;
    }

    method IsEmpty() returns (empty: bool)
      requires Valid()
      ensures empty <==> keys == []
    {
      if keys != [] {
        assert LinkOk(slab.entries, keys, 0);
      }
      empty := index.start == USIZE_MAX;
    }

    method PeekEnd() returns (v: Option<T>)
      requires Valid()
      ensures keys == [] ==> v == None
      ensures keys != [] ==> keys[|keys| - 1] in slab.entries && v == Some(slab.entries[keys[|keys| - 1]].value)
    {
      if keys != [] {
        assert LinkOk(slab.entries, keys, |keys| - 1);
      }
      if index.end == USIZE_MAX {
        v := None;
      } else {
        v := Some(slab.entries[index.end].value);
      }
    }

    method Pop() returns (v: Option<T>)
      requires Valid() && USIZE_MAX !in slab.entries
      modifies this, slab
      ensures Valid()
      ensures old(keys) == [] ==> v == None && keys == [] && slab.entries == old(slab.entries)
      ensures old(keys) != [] ==>
        && old(keys)[0] in old(slab.entries)
        && keys == old(keys)[1..]
        && slab.entries == old(slab.entries) - {old(keys)[0]}
        && v == Some(old(slab.entries)[old(keys)[0]].value)
    {
      if keys != [] {
        PopTakesFront(slab.entries, index, keys);
      }
      var removed := slab.TryRemove(index.start);
      match removed {
        case None =>
          v := None;
          assert slab.entries == old(slab.entries);
        case Some(e) =>
          index := Indices(e.next, if e.next == USIZE_MAX then USIZE_MAX else index.end);
          v := Some(e.value);
          keys := keys[1..];
      }
    }

    method Push(v: T) returns (ghost key: nat)
      requires Valid() && |slab.entries| < USIZE_MAX
      modifies this, slab
      ensures Valid()
      ensures key !in old(slab.entries) && key < USIZE_MAX && keys == old(keys) + [key]
      ensures slab.entries == Pushed(old(slab.entries), old(index), key, v).0
      ensures index == Pushed(old(slab.entries), old(index), key, v).1
    {
      if keys != [] {
        assert LinkOk(slab.entries, keys, |keys| - 1);
      }
      var prev := index.end;
      ghost var before := slab.entries;
      var k := slab.Insert(Entry(v, USIZE_MAX));
      PushAppends(before, index, keys, k, v);
      index := index.(end := k);
      if prev != USIZE_MAX {
        slab.entries := slab.entries[prev := slab.entries[prev].(next := k)];
      } else {
        index := index.(start := k);
      }
      keys := keys + [k];
      key := k;
    }

    /** `into_indices`: the entries stay, the list object forgets them. */
    method IntoIndices() returns (ix: Indices)
      modifies this
      ensures ix == old(index) && index == EMPTY && keys == []
    {
      ix := index;
      index, keys := EMPTY, [];
    }

    /** `drop`: frees every entry of the list and no other. */
    method Drop()
      requires Valid()
      modifies this, slab
      ensures slab.entries == old(slab.entries) - FirstKeys(old(keys), |old(keys)|)
      ensures keys == []
    {
      ghost var all := keys;
      ghost var n := 0;
      if keys != [] {
        assert LinkOk(slab.entries, keys, 0);
      }
      while index.start != USIZE_MAX
        invariant 0 <= n <= |all| && keys == all[n..]
        invariant index.start == (if keys == [] then USIZE_MAX else keys[0])
        invariant keys != [] ==> keys[0] < USIZE_MAX
        invariant forall i :: 0 <= i < |keys| ==> LinkOk(slab.entries, keys, i)
        invariant slab.entries == old(slab.entries) - FirstKeys(all, n)
        decreases |all| - n
      {
        assert LinkOk(slab.entries, keys, 0);
        ghost var tail := keys[1..];
        ghost var ix := Indices(keys[0], keys[|keys| - 1]);
        assert Chain(slab.entries, ix, keys);
        PopTakesFront(slab.entries, ix, keys);
        var removed := slab.TryRemove(index.start);
        index := index.(start := removed.value.next);
        FirstKeysStep(all, n);
        keys := tail;
        n := n + 1;
        if keys != [] {
          assert LinkOk(slab.entries, keys, 0);
        }
      }
    }
  }
}
