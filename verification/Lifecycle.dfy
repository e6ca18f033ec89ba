/** What each driver operation does to the lifecycle slab, on values: the
    specification that the imperative `Driver` meets and that the protocol
    runs. Every `unreachable!`, `expect`, `unwrap` and slab index of the source
    is a `Panic` outcome here. */
module Lifecycle {
  import opened Uring
  import opened Multishot

  /** The state of one slot. A queued list is seen as the sequence of its
      entries; `D` is the data of an operation. */
  datatype Life<D> =
    | Submitted
    | Waiting(waker: Waker)
    | Ignored(data: D)
    | Completed(cqe: Cqe)
    | CompletionList(cqes: seq<Cqe>)

  type Slots<D> = map<nat, Life<D>>

  /** The new slot, whether it is to be freed, and the task to wake. */
  datatype Completion<D> = Completion(life: Life<D>, free: bool, wake: Option<Waker>)

  /** `Lifecycle::complete`. */
  function Complete<D>(life: Life<D>, c: Cqe): Outcome<Completion<D>> {
    match life
    case Submitted => Done(Completion(Arrived(c), false, None))
    case Waiting(w) => Done(Completion(Arrived(c), false, Some(w)))
    case Ignored(_) => Done(Completion(life, !More(c), None))
    case Completed(_) => Panic
    case CompletionList(l) => Done(Completion(CompletionList(l + [c]), false, None))
  }

  function Arrived<D>(c: Cqe): Life<D> {
    if More(c) then CompletionList([c]) else Completed(c)
  }

  /** The slots after a driver call and the wakers it invoked. */
  datatype Effect<D> = Effect(slots: Slots<D>, wakes: seq<Waker>)

  function Wakes(w: Option<Waker>): seq<Waker> {
    if w.Some? then [w.value] else []
  }

  /** One round of `dispatch_completions`: the result of a cancel is skipped,
      anything else goes to the slot its `user_data` names. */
  function Dispatch<D>(slots: Slots<D>, userData: nat, c: Cqe): Outcome<Effect<D>> {
    if userData == USIZE_MAX then Done(Effect(slots, []))
    else if userData !in slots then Panic
    else
      match Complete(slots[userData], c)
      case Panic => Panic
      case Done(r) =>
        Done(Effect(if r.free then slots - {userData} else slots[userData := r.life], Wakes(r.wake)))
  }

  /** What a poll leaves behind: the slots, the operation's data (`None` once
      the final completion was consumed), the output if it is ready, how many
      completions were used up, and whether the poll woke its own task. */
  datatype Polled<D, O> = Polled(slots: Slots<D>, data: Option<D>, out: Option<O>, taken: nat, wokeSelf: bool)

  /** `poll_op` and `poll_op_2` of an operation with a single completion. */
  function PollSingle<D, O>(b: Behaviour<D, O>, slots: Slots<D>, key: nat, data: D, w: Waker): Outcome<Polled<D, O>> {
    if key !in slots then Panic
    else
      match slots[key]
      case Submitted => Done(Polled(slots[key := Waiting(w)], Some(data), None, 0, false))
      case Waiting(_) => Done(Polled(slots[key := Waiting(w)], Some(data), None, 0, false))
      case Ignored(_) => Panic
      case Completed(c) => Done(Polled(slots - {key}, None, Some(b.complete(data, c)), 1, false))
      case CompletionList(_) => Panic
  }

  /** The completion `poll_multishot_op` makes up when the slot is gone. */
  const BROKEN_PIPE: Cqe := Cqe(-32, 0, [])

  /** `poll_multishot_op`. */
  function PollMulti<D, O>(b: Behaviour<D, O>, slots: Slots<D>, key: nat, data: D, w: Waker): Outcome<Polled<D, O>> {
    if key !in slots then Done(Polled(slots, None, Some(b.complete(data, BROKEN_PIPE)), 0, false))
    else
      match slots[key]
      case Submitted => Done(Polled(slots[key := Waiting(w)], Some(data), None, 0, false))
      case Waiting(_) => Done(Polled(slots[key := Waiting(w)], Some(data), None, 0, false))
      case Ignored(_) => Panic
      case Completed(c) => Done(Polled(slots - {key}, None, Some(b.complete(data, c)), 1, false))
      case CompletionList(l) => Done(AfterDrain(slots, key, w, |l|, Drain(b, data, l)))
  }

  function AfterDrain<D, O>(slots: Slots<D>, key: nat, w: Waker, n: nat, r: Drained<D, O>): Polled<D, O>
    requires !r.Exhausted? ==> |r.rest| <= n
  {
    match r
    case Exhausted(d) => Polled(slots[key := Waiting(w)], Some(d), None, n, false)
    case Yielded(o, d, rest) =>
      if rest != []
      then Polled(slots[key := CompletionList(rest)], Some(d), Some(o), n - |rest|, true)
      else Polled(slots[key := Waiting(w)], Some(d), Some(o), n, false)
    case Final(o, rest) => Polled(slots - {key}, None, Some(o), n - |rest|, false)
  }

  /** The slots after an operation is dropped, and whether its data was moved
      into the slot (otherwise it is released with the operation). */
  datatype Removed<D> = Removed(slots: Slots<D>, boxed: bool)

  /** `remove_op` and `remove_op_2` of an operation that is not finished. */
  function Remove<D>(slots: Slots<D>, key: nat, data: D): Outcome<Removed<D>> {
    if key !in slots then Done(Removed(slots, false))
    else
      match slots[key]
      case Submitted => Done(Removed(slots[key := Ignored(data)], true))
      case Waiting(_) => Done(Removed(slots[key := Ignored(data)], true))
      case Completed(_) => Done(Removed(slots - {key}, false))
      case CompletionList(l) =>
        if l == [] then Panic
        else if More(l[|l| - 1]) then Done(Removed(slots[key := Ignored(data)], true))
        else Done(Removed(slots - {key}, false))
      case Ignored(_) => Panic
  }

  /** `Dispatch` by the state of the slot. */
  lemma DispatchIs<D>(slots: Slots<D>, key: nat, c: Cqe)
    requires key in slots && key != USIZE_MAX
    ensures var r := Dispatch(slots, key, c);
      match slots[key]
      case Submitted => r == Done(Effect(slots[key := Arrived(c)], []))
      case Waiting(w) => r == Done(Effect(slots[key := Arrived(c)], [w]))
      case Ignored(_) => r == Done(Effect(if More(c) then slots else slots - {key}, []))
      case Completed(_) => r == Panic
      case CompletionList(l) => r == Done(Effect(slots[key := CompletionList(l + [c])], []))
  {
    assert slots[key := slots[key]] == slots;
  }

  /** A run of `dispatch_completions` over the entries of the completion queue. */
  function DispatchAll<D>(slots: Slots<D>, cq: seq<(nat, Cqe)>): Outcome<Effect<D>> {
    if cq == [] then Done(Effect(slots, []))
    else
      match DispatchAll(slots, cq[..|cq| - 1])
      case Panic => Panic
      case Done(e) =>
        match Dispatch(e.slots, cq[|cq| - 1].0, cq[|cq| - 1].1)
        case Panic => Panic
        case Done(e') => Done(Effect(e'.slots, e.wakes + e'.wakes))
  }

  /** A panic in the middle of the queue is a panic of the whole run. */
  lemma {:induction false} PanicIsFinal<D>(slots: Slots<D>, cq: seq<(nat, Cqe)>, n: nat)
    requires n <= |cq| && DispatchAll(slots, cq[..n]).Panic?
    ensures DispatchAll(slots, cq).Panic?
    decreases |cq|
  {
    if n == |cq| {
      assert cq[..n] == cq;
    } else {
      assert cq[..|cq| - 1][..n] == cq[..n];
      PanicIsFinal(slots, cq[..|cq| - 1], n);
    }
  }

  lemma DispatchNext<D>(slots: Slots<D>, cq: seq<(nat, Cqe)>, n: nat)
    requires n < |cq| && DispatchAll(slots, cq[..n]).Done?
    ensures var e := DispatchAll(slots, cq[..n]).value;
      var r := Dispatch(e.slots, cq[n].0, cq[n].1);
      DispatchAll(slots, cq[..n + 1]) ==
      (if r.Panic? then Panic else Done(Effect(r.value.slots, e.wakes + r.value.wakes)))
  {
    assert cq[..n + 1][..n] == cq[..n];
  }

  /** `Remove` by the state of the slot. */
  lemma RemoveIs<D>(slots: Slots<D>, key: nat, data: D)
    requires key in slots
    ensures var r := Remove(slots, key, data);
      match slots[key]
      case Submitted => r == Done(Removed(slots[key := Ignored(data)], true))
      case Waiting(_) => r == Done(Removed(slots[key := Ignored(data)], true))
      case Completed(_) => r == Done(Removed(slots - {key}, false))
      case Ignored(_) => r == Panic
      case CompletionList(_) => true
  {
  }

}
