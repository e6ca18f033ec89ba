/** Polling an operation again after it has returned its last output. Two of the
    three kinds of handle refuse before they look at the slab; `poll_op` does
    not, and its key may belong to a newer operation by then. */
module PollAgain {
  import opened Uring
  import opened Multishot
  import opened Lifecycle
  import opened Protocol
  import opened Invariant
  import opened DriverSafety

  /** The handle of the finished operation: an `Op` with many completions, an
      `Op` with one, or an `InFlightOneshot`. */
  datatype Handle = ManyOp | SingleOp | Oneshot

  /** The slots after such a poll, and whether it panicked. */
  datatype Repolled<D> = Repolled(slots: Slots<D>, panicked: bool)

  /** `poll_multishot_op` fails its assertion and the poll of `InFlightOneshot`
      its `expect`; `poll_op` treats the slot under its old key as its own. It
      takes the state out of the slot first, so a panic leaves `Submitted`
      behind, and a completed slot is freed before the missing data panics. */
  function Repoll<D>(h: Handle, slots: Slots<D>, key: nat, w: Waker): Repolled<D> {
    if !h.SingleOp? || key !in slots then Repolled(slots, true)
    else
      match slots[key]
      case Submitted => Repolled(slots[key := Waiting(w)], false)
      case Waiting(_) => Repolled(slots[key := Waiting(w)], false)
      case Ignored(_) => Repolled(slots[key := Submitted], true)
      case Completed(_) => Repolled(slots - {key}, true)
      case CompletionList(_) => Repolled(slots[key := Submitted], true)
  }

  /** The poll in the whole system: a freed slot has no owner any more, and with
      an `Ignored` state its box is gone. */
  ghost function RepollReq<D, O>(h: Handle, s: Core<D, O>, g: nat, w: Waker): Core<D, O>
    requires g < |s.reqs|
  {
    var key := s.reqs[g].key;
    var slots := Repoll(h, s.slots, key, w).slots;
    if slots == s.slots then s
    else if key !in s.owner || s.owner[key] >= |s.reqs| then s.(slots := slots)
    else
      var o := s.owner[key];
      var holder := if s.slots[key].Ignored? then Gone else s.reqs[o].use.holder;
      s.(slots := slots,
         owner := if key in slots then s.owner else s.owner - {key},
         reqs := WithUse(s.reqs, o, s.reqs[o].use.(holder := holder)))
  }

  predicate Finished<D, O>(s: Core<D, O>, g: nat) {
    g < |s.reqs| && s.reqs[g].use.ended
  }

  // ---- When such a poll keeps what the driver promises ----

  /** What the driver promises in every state, per generation: its data has one
      owner while the request is out; the waker of its latest poll is in the slot
      or has been woken since; and while it is unfinished it owns its slot, which
      holds completions exactly when some are dispatched and not consumed. */
  ghost predicate Promises<D, O>(s: Core<D, O>) {
    forall g :: 0 <= g < |s.reqs| ==> PromisesTo(s, g)
  }

  ghost predicate PromisesTo<D, O>(s: Core<D, O>, g: nat)
    requires g < |s.reqs|
  {
    var r := s.reqs[g];
    && (Outstanding(s, g) ==> (Unfinished(s.reqs, g) != InBox(s, g)))
    && ArmedOk(r, s.slots, s.wakes)
    && (Unfinished(s.reqs, g) ==>
          && Owns(s, r.key, g)
          && (r.use.cons < r.io.disp <==> s.slots[r.key].Completed? || s.slots[r.key].CompletionList?))
  }

  lemma InvPromises<D, O>(b: Behaviour<D, O>, s: Core<D, O>)
    requires Inv(b, s)
    ensures Promises(s)
  {
    forall g | 0 <= g < |s.reqs| ensures PromisesTo(s, g) {
      InvPromisesTo(b, s, g);
    }
  }

  lemma InvPromisesTo<D, O>(b: Behaviour<D, O>, s: Core<D, O>, g: nat)
    requires Inv(b, s) && g < |s.reqs|
    ensures PromisesTo(s, g)
  {
    assert ReqOk(b, s.reqs[g]) && ArmedOk(s.reqs[g], s.slots, s.wakes);
    assert Occupies(s.reqs, s.owner, g) <==> !s.reqs[g].use.holder.Gone?;
    SlotPromises(b, s, g);
  }

  /** A generation and its slot, if it has one. */
  lemma SlotPromises<D, O>(b: Behaviour<D, O>, s: Core<D, O>, g: nat)
    requires g < |s.reqs| && ReqOk(b, s.reqs[g]) && ArmedOk(s.reqs[g], s.slots, s.wakes)
    requires Occupies(s.reqs, s.owner, g) <==> !s.reqs[g].use.holder.Gone?
    requires Occupies(s.reqs, s.owner, g) ==> s.reqs[g].key in s.slots && SlotOk(s.reqs[g], s.slots[s.reqs[g].key])
    ensures PromisesTo(s, g)
  {
  }

  /** The latest poll of a generation loses nothing if its slot waits with `w`:
      there was none, it was made with `w`, or its waker has been called since. */
  ghost predicate Awake<D, O>(r: Req<D, O>, w: Waker, wakes: seq<Waker>) {
    r.use.armed.Some? ==>
      var a := r.use.armed.value;
      a.since <= |wakes| && (a.waker == w || a.waker in wakes[a.since..])
  }

  /** The handle refuses, the key is vacant, the newer operation under it has not
      been polled, or it waits and does not need its waker. */
  ghost predicate Keeps<D, O>(h: Handle, s: Core<D, O>, g: nat, w: Waker)
    requires g < |s.reqs|
  {
    var key := s.reqs[g].key;
    || !h.SingleOp?
    || key !in s.slots
    || s.slots[key].Submitted?
    || (s.slots[key].Waiting? && key in s.owner && s.owner[key] < |s.reqs| && Awake(s.reqs[s.owner[key]], w, s.wakes))
  }

  /** In every run, polling a finished operation again keeps everything the
      driver promises, and its whole invariant, if and only if `Keeps` held. */
  lemma KeepsExactly<D, O>(b: Behaviour<D, O>, depth: nat, steps: seq<Step<D>>, h: Handle, g: nat, w: Waker)
    requires Run(b, depth, steps).Done? && Finished(Run(b, depth, steps).value, g)
    ensures var s := Run(b, depth, steps).value;
      && (Promises(RepollReq(h, s, g, w)) <==> Keeps(h, s, g, w))
      && (Inv(b, RepollReq(h, s, g, w)) <==> Keeps(h, s, g, w))
      && (!Repoll(h, s.slots, s.reqs[g].key, w).panicked ==>
            && h.SingleOp? && s.reqs[g].key in RepollReq(h, s, g, w).slots
            && RepollReq(h, s, g, w).slots[s.reqs[g].key] == Waiting(w))
  {
    NeverPanics(b, depth, steps);
    var s := Run(b, depth, steps).value;
    if Keeps(h, s, g, w) {
      KeepsInv(b, s, h, g, w);
      InvPromises(b, RepollReq(h, s, g, w));
    } else {
      BreaksPromises(b, s, h, g, w);
      if Inv(b, RepollReq(h, s, g, w)) {
        InvPromises(b, RepollReq(h, s, g, w));
      }
    }
  }

  lemma KeepsInv<D, O>(b: Behaviour<D, O>, s: Core<D, O>, h: Handle, g: nat, w: Waker)
    requires Inv(b, s) && Finished(s, g) && Keeps(h, s, g, w)
    ensures Inv(b, RepollReq(h, s, g, w))
  {
    if RepollReq(h, s, g, w) != s {
      OtherOwner(b, s, g);
      var key := s.reqs[g].key;
      RearmedIs(h, s, g, w);
      RearmedOwn(s.reqs, s.slots, s.owner, s.owner[key], w);
      RearmedWake(s, s.owner[key], w);
    }
  }

  /** What such a poll does to a slot without completions. */
  lemma RearmedIs<D, O>(h: Handle, s: Core<D, O>, g: nat, w: Waker)
    requires g < |s.reqs| && h.SingleOp? && s.reqs[g].key in s.slots
    requires s.slots[s.reqs[g].key].Submitted? || s.slots[s.reqs[g].key].Waiting?
    requires s.reqs[g].key in s.owner && s.owner[s.reqs[g].key] < |s.reqs|
    ensures RepollReq(h, s, g, w) == s.(slots := s.slots[s.reqs[g].key := Waiting(w)])
  {
    var o := s.owner[s.reqs[g].key];
    assert WithUse(s.reqs, o, s.reqs[o].use.(holder := s.reqs[o].use.holder)) == s.reqs;
  }

  lemma RearmedOwn<D, O>(reqs: Reqs<D, O>, slots: Slots<D>, owner: map<nat, nat>, o: nat, w: Waker)
    requires OwnOk(reqs, slots, owner) && o < |reqs| && Occupies(reqs, owner, o)
    requires slots[reqs[o].key].Submitted? || slots[reqs[o].key].Waiting?
    ensures OwnOk(reqs, slots[reqs[o].key := Waiting(w)], owner)
  {
    assert reqs[o := reqs[o]] == reqs;
    FrameOwn(reqs, slots, owner, o, reqs[o], Waiting(w));
  }

  lemma RearmedWake<D, O>(s: Core<D, O>, o: nat, w: Waker)
    requires OwnOk(s.reqs, s.slots, s.owner) && WakeOk(s.reqs, s.slots, s.wakes)
    requires o < |s.reqs| && Occupies(s.reqs, s.owner, o)
    requires s.slots[s.reqs[o].key].Submitted? || Awake(s.reqs[o], w, s.wakes)
    ensures WakeOk(s.reqs, s.slots[s.reqs[o].key := Waiting(w)], s.wakes)
  {
    var key := s.reqs[o].key;
    assert ArmedOk(s.reqs[o], s.slots, s.wakes);
    assert s.reqs[o := s.reqs[o]] == s.reqs && s.wakes + [] == s.wakes;
    FrameWake(s.reqs, s.slots, s.owner, s.wakes, o, s.reqs[o], s.slots[key := Waiting(w)], []);
  }

  /** Otherwise the newer operation is not served as promised. */
  lemma BreaksPromises<D, O>(b: Behaviour<D, O>, s: Core<D, O>, h: Handle, g: nat, w: Waker)
    requires Inv(b, s) && Finished(s, g) && !Keeps(h, s, g, w)
    ensures !Promises(RepollReq(h, s, g, w))
  {
    OtherOwner(b, s, g);
    var o := s.owner[s.reqs[g].key];
    assert ReqOk(b, s.reqs[o]) && SlotOk(s.reqs[o], s.slots[s.reqs[g].key]) && ArmedOk(s.reqs[o], s.slots, s.wakes);
    OwnerIsNotServed(b, s, h, g, w, o);
    assert !PromisesTo(RepollReq(h, s, g, w), o);
  }

  lemma OwnerIsNotServed<D, O>(b: Behaviour<D, O>, s: Core<D, O>, h: Handle, g: nat, w: Waker, o: nat)
    requires g < |s.reqs| && o < |s.reqs| && s.reqs[o].key == s.reqs[g].key && !Keeps(h, s, g, w)
    requires Occupies(s.reqs, s.owner, o) && ReqOk(b, s.reqs[o]) && SlotOk(s.reqs[o], s.slots[s.reqs[o].key])
    requires ArmedOk(s.reqs[o], s.slots, s.wakes)
    ensures |RepollReq(h, s, g, w).reqs| == |s.reqs| && !PromisesTo(RepollReq(h, s, g, w), o)
  {
    if s.slots[s.reqs[g].key].Waiting? {
      RearmedIs(h, s, g, w);
    } else {
      RepollChanges(h, s.slots, s.reqs[g].key, w);
    }
  }

  /** A slot under the key of a finished operation has another owner. */
  lemma OtherOwner<D, O>(b: Behaviour<D, O>, s: Core<D, O>, g: nat)
    requires Inv(b, s) && Finished(s, g) && s.reqs[g].key in s.slots
    ensures s.reqs[g].key in s.owner
    ensures var o := s.owner[s.reqs[g].key];
      o != g && o < |s.reqs| && s.reqs[o].key == s.reqs[g].key && !s.reqs[o].use.holder.Gone?
  {
    assert ReqOk(b, s.reqs[g]);
    assert Occupies(s.reqs, s.owner, s.owner[s.reqs[g].key]);
  }

  lemma RepollChanges<D>(h: Handle, slots: Slots<D>, key: nat, w: Waker)
    requires h.SingleOp? && key in slots && slots[key] != Waiting(w)
    ensures Repoll(h, slots, key, w).slots != slots
  {
    var slots' := Repoll(h, slots, key, w).slots;
    assert key !in slots' || slots'[key] != slots[key];
  }

  /** In every run, if the newer operation waits with another waker that has not
      been called since, the poll takes that waker away: it is neither in the
      slot nor woken afterwards. */
  lemma StealsTheWaker<D, O>(b: Behaviour<D, O>, depth: nat, steps: seq<Step<D>>, g: nat, w: Waker, o: nat)
    requires Run(b, depth, steps).Done? && Finished(Run(b, depth, steps).value, g)
    requires var s := Run(b, depth, steps).value;
      && Unfinished(s.reqs, o) && s.reqs[o].key == s.reqs[g].key && s.reqs[o].use.armed.Some?
      && s.reqs[o].use.armed.value.waker != w
      && s.reqs[o].use.armed.value.since <= |s.wakes|
      && s.reqs[o].use.armed.value.waker !in s.wakes[s.reqs[o].use.armed.value.since..]
    ensures var s := Run(b, depth, steps).value;
      var t := RepollReq(SingleOp, s, g, w);
      && !Repoll(SingleOp, s.slots, s.reqs[g].key, w).panicked
      && o < |t.reqs| && t.reqs[o].use.armed == s.reqs[o].use.armed && t.wakes == s.wakes
      && !ArmedOk(t.reqs[o], t.slots, t.wakes)
  {
    NoLostWakeup(b, depth, steps, o);
    UnfinishedOwnsItsSlot(b, depth, steps, o);
    var s := Run(b, depth, steps).value;
    RepollChanges(SingleOp, s.slots, s.reqs[g].key, w);
  }

  /** In every run, if the newer operation is completed and nobody has polled it
      yet, the poll panics and frees its slot. When the newer operation is polled
      in turn, it panics, or if it is a multishot one returns an error that the
      kernel never posted. */
  lemma FreesTheSlot<D, O>(b: Behaviour<D, O>, depth: nat, steps: seq<Step<D>>, g: nat, w: Waker, o: nat, v: Waker)
    requires Run(b, depth, steps).Done? && Finished(Run(b, depth, steps).value, g)
    requires var s := Run(b, depth, steps).value;
      && Unfinished(s.reqs, o) && s.reqs[o].key == s.reqs[g].key
      && s.reqs[o].key in s.slots && s.slots[s.reqs[o].key].Completed?
    ensures var s := Run(b, depth, steps).value;
      var t := RepollReq(SingleOp, s, g, w);
      && Repoll(SingleOp, s.slots, s.reqs[g].key, w).panicked
      && Unfinished(t.reqs, o) && t.reqs[o].key !in t.slots
      && (!s.reqs[o].multi ==> PollReq(b, t, o, v).Panic?)
      && (s.reqs[o].multi ==>
            && PollReq(b, t, o, v).Done?
            && var u := PollReq(b, t, o, v).value.reqs[o].use;
            u.ended && u.outs == s.reqs[o].use.outs + [b.complete(s.reqs[o].use.holder.data, BROKEN_PIPE)])
  {
    UnfinishedOwnsItsSlot(b, depth, steps, o);
    var s := Run(b, depth, steps).value;
    RepollChanges(SingleOp, s.slots, s.reqs[g].key, w);
  }

  /** In every run, if the newer operation was dropped in flight, the poll panics
      and releases its data while the kernel still has the request: nobody owns
      the data any more. */
  lemma ReleasesDataInFlight<D, O>(b: Behaviour<D, O>, depth: nat, steps: seq<Step<D>>, g: nat, w: Waker)
    requires Run(b, depth, steps).Done? && Finished(Run(b, depth, steps).value, g)
    requires var s := Run(b, depth, steps).value;
      s.reqs[g].key in s.slots && s.slots[s.reqs[g].key].Ignored?
    ensures var s := Run(b, depth, steps).value;
      && s.reqs[g].key in s.owner && s.owner[s.reqs[g].key] < |s.reqs|
      && var o := s.owner[s.reqs[g].key];
      var t := RepollReq(SingleOp, s, g, w);
      && Repoll(SingleOp, s.slots, s.reqs[g].key, w).panicked
      && InBox(s, o) && |t.reqs| == |s.reqs| && Outstanding(t, o)
      && t.reqs[o].use.holder.Gone? && !InBox(t, o)
  {
    NeverPanics(b, depth, steps);
    var s := Run(b, depth, steps).value;
    IgnoredIsBoxed(b, s, s.reqs[g].key);
    BoxReleased(s, g, w, s.owner[s.reqs[g].key]);
  }

  lemma IgnoredIsBoxed<D, O>(b: Behaviour<D, O>, s: Core<D, O>, key: nat)
    requires Inv(b, s) && key in s.slots && s.slots[key].Ignored?
    ensures key in s.owner && s.owner[key] < |s.reqs| && s.reqs[s.owner[key]].key == key
    ensures InBox(s, s.owner[key]) && Outstanding(s, s.owner[key])
  {
    assert ReqOk(b, s.reqs[s.owner[key]]) && SlotOk(s.reqs[s.owner[key]], s.slots[key]);
  }

  lemma BoxReleased<D, O>(s: Core<D, O>, g: nat, w: Waker, o: nat)
    requires g < |s.reqs| && o < |s.reqs| && s.reqs[o].key == s.reqs[g].key && InBox(s, o) && Outstanding(s, o)
    ensures var t := RepollReq(SingleOp, s, g, w);
      |t.reqs| == |s.reqs| && Outstanding(t, o) && t.reqs[o].use.holder.Gone? && !InBox(t, o)
  {
    RepollChanges(SingleOp, s.slots, s.reqs[g].key, w);
  }

  /** In every run, if the newer operation has completions queued, the poll panics
      and throws them away: they are dispatched and not consumed, and the next
      poll of their operation finds nothing and waits. */
  lemma DropsTheQueue<D, O>(b: Behaviour<D, O>, depth: nat, steps: seq<Step<D>>, g: nat, w: Waker, o: nat, v: Waker)
    requires Run(b, depth, steps).Done? && Finished(Run(b, depth, steps).value, g)
    requires var s := Run(b, depth, steps).value;
      && Unfinished(s.reqs, o) && s.reqs[o].key == s.reqs[g].key
      && s.reqs[o].key in s.slots && s.slots[s.reqs[o].key].CompletionList?
    ensures var s := Run(b, depth, steps).value;
      var t := RepollReq(SingleOp, s, g, w);
      && Repoll(SingleOp, s.slots, s.reqs[g].key, w).panicked
      && t.reqs == s.reqs && s.reqs[o].use.cons < s.reqs[o].io.disp
      && PollReq(b, t, o, v).Done?
      && var t' := PollReq(b, t, o, v).value;
      t'.slots[s.reqs[o].key] == Waiting(v) && t'.reqs[o].use.cons == s.reqs[o].use.cons
  {
    UnfinishedOwnsItsSlot(b, depth, steps, o);
    NeverPanics(b, depth, steps);
    var s := Run(b, depth, steps).value;
    assert SlotOk(s.reqs[o], s.slots[s.reqs[o].key]);
    QueueDropped(b, s, g, w, o, v);
  }

  lemma QueueDropped<D, O>(b: Behaviour<D, O>, s: Core<D, O>, g: nat, w: Waker, o: nat, v: Waker)
    requires g < |s.reqs| && Unfinished(s.reqs, o) && s.reqs[o].key == s.reqs[g].key && Occupies(s.reqs, s.owner, o)
    requires s.reqs[o].key in s.slots && s.slots[s.reqs[o].key].CompletionList? && s.reqs[o].multi
    ensures var t := RepollReq(SingleOp, s, g, w);
      && t.reqs == s.reqs && PollReq(b, t, o, v).Done?
      && var t' := PollReq(b, t, o, v).value;
      && |t'.reqs| == |s.reqs| && s.reqs[o].key in t'.slots
      && t'.slots[s.reqs[o].key] == Waiting(v) && t'.reqs[o].use.cons == s.reqs[o].use.cons
  {
    assert WithUse(s.reqs, o, s.reqs[o].use.(holder := s.reqs[o].use.holder)) == s.reqs;
    RepollChanges(SingleOp, s.slots, s.reqs[g].key, w);
  }

  // ---- Runs with such polls ----

  datatype AnyStep<D> = Ordinary(step: Step<D>) | Again(handle: Handle, gen: nat, waker: Waker)

  /** A panic of the poll ends the task that polled, not the system. */
  ghost function NextAny<D, O>(b: Behaviour<D, O>, depth: nat, s: Core<D, O>, step: AnyStep<D>): Outcome<Core<D, O>> {
    match step
    case Ordinary(o) => Next(b, depth, s, o)
    case Again(h, g, w) => Done(if s.pending.Idle? && Finished(s, g) then RepollReq(h, s, g, w) else s)
  }

  ghost function RunAny<D, O>(b: Behaviour<D, O>, depth: nat, steps: seq<AnyStep<D>>): Outcome<Core<D, O>> {
    if steps == [] then Done(Start())
    else
      match RunAny(b, depth, steps[..|steps| - 1])
      case Panic => Panic
      case Done(s) => NextAny(b, depth, s, steps[|steps| - 1])
  }

  /** Every repeated poll of a run satisfied `Keeps` when it happened. */
  ghost predicate AllKeep<D, O>(b: Behaviour<D, O>, depth: nat, steps: seq<AnyStep<D>>) {
    steps == [] ||
    (var front, last := steps[..|steps| - 1], steps[|steps| - 1];
     && AllKeep(b, depth, front)
     && (last.Again? && RunAny(b, depth, front).Done? && Finished(RunAny(b, depth, front).value, last.gen) ==>
           Keeps(last.handle, RunAny(b, depth, front).value, last.gen, last.waker)))
  }

  /** Runs with repeated polls of that kind are as safe as runs without them: no
      driver call panics and everything promised holds in every state. */
  lemma {:induction false} KeepingRuns<D, O>(b: Behaviour<D, O>, depth: nat, steps: seq<AnyStep<D>>)
    requires AllKeep(b, depth, steps)
    ensures RunAny(b, depth, steps).Done?
    ensures Inv(b, RunAny(b, depth, steps).value) && Promises(RunAny(b, depth, steps).value)
    decreases |steps|
  {
    if steps == [] {
      StartOk(b);
    } else {
      var front, last := steps[..|steps| - 1], steps[|steps| - 1];
      KeepingRuns(b, depth, front);
      KeepingStep(b, depth, RunAny(b, depth, front).value, last);
    }
    InvPromises(b, RunAny(b, depth, steps).value);
  }

  lemma KeepingStep<D, O>(b: Behaviour<D, O>, depth: nat, s: Core<D, O>, step: AnyStep<D>)
    requires Inv(b, s)
    requires step.Again? && Finished(s, step.gen) ==> Keeps(step.handle, s, step.gen, step.waker)
    ensures NextAny(b, depth, s, step).Done? && Inv(b, NextAny(b, depth, s, step).value)
  {
    if step.Ordinary? {
      NextOk(b, depth, s, step.step);
    } else if s.pending.Idle? && Finished(s, step.gen) {
      KeepsInv(b, s, step.handle, step.gen, step.waker);
    }
  }

  // ---- A run in which a wakeup is lost ----

  const DONE: Cqe := Cqe(0, 0, [])

  /** Generation 0 is submitted under key 0 and polled to its end. */
  function FirstLife<D>(d: D): seq<Step<D>> {
    [Insert(0, false, None, None, d), Push, Consume, PostCqe(0, DONE), DispatchOne, Poll(0, 1)]
  }

  /** Generation 1 gets key 0 and waits with waker 7. */
  function SecondLife<D>(d: D): seq<Step<D>> {
    [Insert(0, false, None, None, d), Push, Consume, Poll(1, 7)]
  }

  /** A generation with key 0 and a single completion. */
  function ReqWith<D, O>(d: D, io: Io, use: Use<D, O>): Req<D, O> {
    Req(0, false, None, None, d, io, use)
  }

  /** Generation 0 after its life. */
  function Past<D, O>(b: Behaviour<D, O>, d: D): Req<D, O> {
    ReqWith(d, Io(Stage.Finished, [DONE], 1), Use(1, Gone, [b.complete(d, DONE)], true, None))
  }

  /** Generation 1 while it waits. */
  function Waiter<D, O>(d: D, io: Io): Req<D, O> {
    ReqWith(d, io, Use(0, Held(d), [], false, Some(Armed(7, 0))))
  }

  /** The system after the first life, and while generation 1 waits. */
  function AfterFirst<D, O>(b: Behaviour<D, O>, d: D): Core<D, O> {
    Core(map[], map[], [Past(b, d)], [], [], Idle, [], [(0, 0)], [])
  }

  function InSecond<D, O>(b: Behaviour<D, O>, d: D): Core<D, O> {
    Core(map[0 := Waiting(7)], map[0 := 1], [Past(b, d), Waiter(d, Io(InKernel, [], 0))],
         [], [], Idle, [], [(0, 0)], [])
  }

  /** Steps from a given state. */
  function RunFrom<D, O>(b: Behaviour<D, O>, s: Core<D, O>, steps: seq<Step<D>>): Outcome<Core<D, O>>
    decreases |steps|
  {
    if steps == [] then Done(s)
    else
      match Next(b, 1, s, steps[0])
      case Panic => Panic
      case Done(t) => RunFrom(b, t, steps[1..])
  }

  lemma {:induction false} RunOn<D, O>(b: Behaviour<D, O>, front: seq<Step<D>>, s: Core<D, O>, steps: seq<Step<D>>)
    requires Run(b, 1, front) == Done(s)
    ensures Run(b, 1, front + steps) == RunFrom(b, s, steps)
    decreases |steps|
  {
    if steps == [] {
      assert front + steps == front;
    } else {
      NeverPanics(b, 1, front + [steps[0]]);
      RunLast(b, 1, front, steps[0]);
      assert front + steps == front + [steps[0]] + steps[1..];
      RunOn(b, front + [steps[0]], Next(b, 1, s, steps[0]).value, steps[1..]);
    }
  }

  ghost predicate Same<D, O>(s: Core<D, O>, t: Core<D, O>) {
    && s.slots == t.slots && s.owner == t.owner && s.reqs == t.reqs && s.sq == t.sq && s.cq == t.cq
    && s.pending == t.pending && s.wakes == t.wakes && s.routed == t.routed && s.hits == t.hits
  }

  lemma OneStep<D, O>(b: Behaviour<D, O>, s: Core<D, O>, steps: seq<Step<D>>, k: nat, t: Core<D, O>)
    requires k < |steps| && Next(b, 1, s, steps[k]).Done? && Same(Next(b, 1, s, steps[k]).value, t)
    ensures RunFrom(b, s, steps[k..]) == RunFrom(b, t, steps[k + 1..])
  {
    assert steps[k..][1..] == steps[k + 1..];
  }

  /** Generation 0 on its way to the kernel and back. */
  function Underway<D, O>(d: D, stage: Stage, sq: seq<Sqe>, pending: Pending): Core<D, O> {
    Core(map[0 := Submitted], map[0 := 0], [ReqWith(d, Io(stage, [], 0), Use(0, Held(d), [], false, None))],
         sq, [], pending, [], [], [])
  }

  function Posted<D, O>(d: D, slot: Life<D>, disp: nat, cq: seq<Post>, routed: seq<(nat, nat)>): Core<D, O> {
    Core(map[0 := slot], map[0 := 0],
         [ReqWith(d, Io(Stage.Finished, [DONE], disp), Use(0, Held(d), [], false, None))],
         [], cq, Idle, [], routed, [])
  }

  lemma FirstLifeRuns<D, O>(b: Behaviour<D, O>, d: D)
    ensures RunFrom(b, Start(), FirstLife(d)) == Done(AfterFirst(b, d))
  {
    var steps := FirstLife(d);
    assert steps[0..] == steps;
    OneStep(b, Start(), steps, 0, Underway(d, Half, [], Submitting([0])));
    OneStep(b, Underway(d, Half, [], Submitting([0])), steps, 1, Underway(d, Queued, [OpSqe(0, 0)], Idle));
    OneStep(b, Underway(d, Queued, [OpSqe(0, 0)], Idle), steps, 2, Underway(d, InKernel, [], Idle));
    FirstLifeEnds(b, d);
  }

  lemma FirstLifeEnds<D, O>(b: Behaviour<D, O>, d: D)
    ensures RunFrom(b, Underway(d, InKernel, [], Idle), FirstLife(d)[3..]) == Done(AfterFirst(b, d))
  {
    var steps := FirstLife(d);
    assert [] + [DONE] == [DONE];
    OneStep(b, Underway(d, InKernel, [], Idle), steps, 3, Posted(d, Submitted, 0, [Post(0, DONE, 0)], []));
    FirstLifeReturns(b, d);
  }

  lemma FirstLifeReturns<D, O>(b: Behaviour<D, O>, d: D)
    ensures RunFrom(b, Posted(d, Submitted, 0, [Post(0, DONE, 0)], []), FirstLife(d)[4..]) == Done(AfterFirst(b, d))
  {
    var steps, o := FirstLife(d), b.complete(d, DONE);
    assert [] + [o] == [o];
    OneStep(b, Posted(d, Submitted, 0, [Post(0, DONE, 0)], []), steps, 4, Posted(d, Completed(DONE), 1, [], [(0, 0)]));
    OneStep(b, Posted(d, Completed(DONE), 1, [], [(0, 0)]), steps, 5, AfterFirst(b, d));
  }

  /** Generation 1 on its way to the kernel. */
  function Reusing<D, O>(b: Behaviour<D, O>, d: D, stage: Stage, sq: seq<Sqe>, pending: Pending): Core<D, O> {
    Core(map[0 := Submitted], map[0 := 1],
         [Past(b, d), ReqWith(d, Io(stage, [], 0), Use(0, Held(d), [], false, None))],
         sq, [], pending, [], [(0, 0)], [])
  }

  lemma SecondLifeRuns<D, O>(b: Behaviour<D, O>, d: D)
    ensures RunFrom(b, AfterFirst(b, d), SecondLife(d)) == Done(InSecond(b, d))
  {
    var steps := SecondLife(d);
    assert steps[0..] == steps;
    OneStep(b, AfterFirst(b, d), steps, 0, Reusing(b, d, Half, [], Submitting([1])));
    OneStep(b, Reusing(b, d, Half, [], Submitting([1])), steps, 1, Reusing(b, d, Queued, [OpSqe(0, 1)], Idle));
    SecondLifeEnds(b, d);
  }

  lemma SecondLifeEnds<D, O>(b: Behaviour<D, O>, d: D)
    ensures RunFrom(b, Reusing(b, d, Queued, [OpSqe(0, 1)], Idle), SecondLife(d)[2..]) == Done(InSecond(b, d))
  {
    var steps := SecondLife(d);
    OneStep(b, Reusing(b, d, Queued, [OpSqe(0, 1)], Idle), steps, 2, Reusing(b, d, InKernel, [], Idle));
    OneStep(b, Reusing(b, d, InKernel, [], Idle), steps, 3, InSecond(b, d));
  }

  /** The system after the poll of generation 0 with waker 9, and after the
      completion of generation 1 is posted and dispatched. */
  function Robbed<D, O>(b: Behaviour<D, O>, d: D, io: Io, slot: Life<D>, cq: seq<Post>, wakes: seq<Waker>,
                        routed: seq<(nat, nat)>): Core<D, O> {
    Core(map[0 := slot], map[0 := 1], [Past(b, d), Waiter(d, io)], [], cq, Idle, wakes, routed, [])
  }

  lemma RobbedRuns<D, O>(b: Behaviour<D, O>, d: D)
    ensures var s := RepollReq(SingleOp, InSecond(b, d), 0, 9);
      var t := Robbed(b, d, Io(Stage.Finished, [DONE], 1), Completed(DONE), [], [9], [(0, 0), (1, 1)]);
      RunFrom(b, s, [PostCqe(1, DONE), DispatchOne]) == Done(t)
  {
    var steps: seq<Step<D>> := [PostCqe(1, DONE), DispatchOne];
    assert steps[0..] == steps && [] + [DONE] == [DONE];
    RobbedIs(b, d);
    OneStep(b, Robbed(b, d, Io(InKernel, [], 0), Waiting(9), [], [], [(0, 0)]), steps, 0, RobbedPosted(b, d));
    RobbedDispatch(b, d);
  }

  function RobbedPosted<D, O>(b: Behaviour<D, O>, d: D): Core<D, O> {
    Robbed(b, d, Io(Stage.Finished, [DONE], 0), Waiting(9), [Post(0, DONE, 1)], [], [(0, 0)])
  }

  lemma RobbedDispatch<D, O>(b: Behaviour<D, O>, d: D)
    ensures var t := Robbed(b, d, Io(Stage.Finished, [DONE], 1), Completed(DONE), [], [9], [(0, 0), (1, 1)]);
      RunFrom(b, RobbedPosted(b, d), [PostCqe(1, DONE), DispatchOne][1..]) == Done(t)
  {
    var t := Robbed(b, d, Io(Stage.Finished, [DONE], 1), Completed(DONE), [], [9], [(0, 0), (1, 1)]);
    OneStep(b, RobbedPosted(b, d), [PostCqe(1, DONE), DispatchOne], 1, t);
  }

  lemma RobbedIs<D, O>(b: Behaviour<D, O>, d: D)
    ensures RepollReq(SingleOp, InSecond(b, d), 0, 9) ==
      Robbed(b, d, Io(InKernel, [], 0), Waiting(9), [], [], [(0, 0)])
  {
    var t := Robbed(b, d, Io(InKernel, [], 0), Waiting(9), [], [], [(0, 0)]);
    RepollChanges(SingleOp, InSecond(b, d).slots, 0, 9);
    assert Same(RepollReq(SingleOp, InSecond(b, d), 0, 9), t);
  }

  /** A run with a lost wakeup: generation 0 has ended, generation 1 has its key
      and waits with waker 7. Polling generation 0 again with waker 9 makes the
      completion of generation 1 wake 9, and 7 is never woken. */
  lemma WakeupIsLost<D, O>(b: Behaviour<D, O>, d: D)
    ensures Run(b, 1, FirstLife(d) + SecondLife(d)) == Done(InSecond(b, d))
    ensures Finished(InSecond(b, d), 0) && Unfinished(InSecond(b, d).reqs, 1)
    ensures var s := RepollReq(SingleOp, InSecond(b, d), 0, 9);
      && RunFrom(b, s, [PostCqe(1, DONE), DispatchOne]).Done?
      && var t := RunFrom(b, s, [PostCqe(1, DONE), DispatchOne]).value;
      && |t.reqs| == 2 && t.reqs[1].use.cons < t.reqs[1].io.disp && t.reqs[1].use.armed == Some(Armed(7, 0))
      && 9 in t.wakes && 7 !in t.wakes
  {
    FirstLifeRuns(b, d);
    SecondLifeRuns(b, d);
    assert [] + FirstLife(d) == FirstLife(d);
    RunOn(b, [], Start(), FirstLife(d));
    RunOn(b, FirstLife(d), AfterFirst(b, d), SecondLife(d));
    RobbedRuns(b, d);
  }
}
