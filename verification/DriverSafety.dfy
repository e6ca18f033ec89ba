/** What holds in every run of the driver protocol, whatever the kernel, the
    tasks and the interleaving. */
module DriverSafety {
  import opened Uring
  import opened Multishot
  import opened Lifecycle
  import opened Protocol
  import opened Invariant
  import opened Preservation
  import opened PollSteps

  lemma StartOk<D, O>(b: Behaviour<D, O>)
    ensures Inv<D, O>(b, Start())
  {
  }

  /** No step panics, and every step keeps the invariant. */
  lemma NextOk<D, O>(b: Behaviour<D, O>, depth: nat, s: Core<D, O>, step: Step<D>)
    requires Inv(b, s)
    ensures Next(b, depth, s, step).Done? && Inv(b, Next(b, depth, s, step).value)
  {
    if Enabled(depth, s, step) {
      match step
      case Poll(g, w) => StepPoll(b, s, g, w);
      case DropOp(g) => StepDrop(b, s, g);
      case CancelBegin(_) => CancelStepOk(b, depth, s, step);
      case CancelPush => CancelStepOk(b, depth, s, step);
      case _ => QueueStepOk(b, depth, s, step);
    }
  }

  lemma CancelStepOk<D, O>(b: Behaviour<D, O>, depth: nat, s: Core<D, O>, step: Step<D>)
    requires Inv(b, s) && Enabled(depth, s, step) && (step.CancelBegin? || step.CancelPush?)
    ensures Next(b, depth, s, step).Done? && Inv(b, Next(b, depth, s, step).value)
  {
    CancelStepIs(b, depth, s, step);
    if step.CancelPush? {
      CancelPushOk(b, s);
    } else {
      CancelBeginOk(b, s, step.gen);
    }
  }

  /** The state after `cancel` was called, and after its entry was pushed. */
  lemma CancelStepIs<D, O>(b: Behaviour<D, O>, depth: nat, s: Core<D, O>, step: Step<D>)
    requires Enabled(depth, s, step) && (step.CancelBegin? || step.CancelPush?)
    ensures step.CancelBegin? ==>
      var t := if s.reqs[step.gen].key in s.slots then s.(pending := Cancelling(step.gen)) else s;
      Next(b, depth, s, step) == Done(t)
    ensures step.CancelPush? && s.pending.gen < |s.reqs| ==>
      var entry := CancelSqe(s.reqs[s.pending.gen].key, s.pending.gen);
      Next(b, depth, s, step) == Done(s.(sq := s.sq + [entry], pending := Idle))
  {
  }

  lemma CancelPushOk<D, O>(b: Behaviour<D, O>, s: Core<D, O>)
    requires Inv(b, s) && s.pending.Cancelling?
    ensures s.pending.gen < |s.reqs|
    ensures var entry := CancelSqe(s.reqs[s.pending.gen].key, s.pending.gen);
      Inv(b, s.(sq := s.sq + [entry], pending := Idle))
  {
    StepCancelPush(b, s);
  }

  /** The steps that move requests and completions through the queues. */
  lemma QueueStepOk<D, O>(b: Behaviour<D, O>, depth: nat, s: Core<D, O>, step: Step<D>)
    requires Inv(b, s) && Enabled(depth, s, step)
    requires !step.Poll? && !step.DropOp? && !step.CancelBegin? && !step.CancelPush?
    ensures Next(b, depth, s, step).Done? && Inv(b, Next(b, depth, s, step).value)
  {
    match step
    case Consume => StepConsume(b, s);
    case PostCqe(g, c) => StepPost(b, s, g, c);
    case DispatchOne => StepDispatch(b, s);
    case Insert(key, multi, fd, closes, init) => StepInsert(b, s, key, multi, fd, closes, init);
    case Push => StepPush(b, s);
  }

  lemma CancelBeginOk<D, O>(b: Behaviour<D, O>, s: Core<D, O>, g: nat)
    requires Inv(b, s) && s.pending.Idle? && Unfinished(s.reqs, g)
    ensures Inv(b, s.(pending := Cancelling(g)))
  {
  }

  lemma RunLast<D, O>(b: Behaviour<D, O>, depth: nat, steps: seq<Step<D>>, step: Step<D>)
    ensures Run(b, depth, steps + [step]) ==
      match Run(b, depth, steps)
      case Panic => Panic
      case Done(s) => Next(b, depth, s, step)
  {
    assert (steps + [step])[..|steps|] == steps;
  }

  /** The driver never panics: no slab index misses, no "invalid operation
      state", no `unreachable!`, no failed `unwrap` or `expect`. */
  lemma {:induction false} NeverPanics<D, O>(b: Behaviour<D, O>, depth: nat, steps: seq<Step<D>>)
    ensures Run(b, depth, steps).Done? && Inv(b, Run(b, depth, steps).value)
    decreases |steps|
  {
    if steps == [] {
      StartOk(b);
    } else {
      var before := steps[..|steps| - 1];
      NeverPanics(b, depth, before);
      NextOk(b, depth, Run(b, depth, before).value, steps[|steps| - 1]);
    }
  }

  /** A request is on its way: its final completion is not dispatched. */
  predicate Outstanding<D, O>(s: Core<D, O>, g: nat)
    requires g < |s.reqs|
  {
    !Settled(s.reqs[g].io)
  }

  /** The slot `key` is occupied, by generation `g`. */
  predicate Owns<D, O>(s: Core<D, O>, key: nat, g: nat) {
    key in s.slots && key in s.owner && s.owner[key] == g
  }

  /** Reuse of slab keys never misroutes a completion: in every run, every
      generation with something in the submission queue, in the kernel or in
      the completion queue owns the slot its key names, every queued entry
      names that slot, and every entry dispatched so far reached the generation
      that submitted it. */
  lemma NoMisrouting<D, O>(b: Behaviour<D, O>, depth: nat, steps: seq<Step<D>>)
    ensures Run(b, depth, steps).Done?
    ensures var s := Run(b, depth, steps).value;
      && (forall g :: 0 <= g < |s.reqs| && Outstanding(s, g) ==> Owns(s, s.reqs[g].key, g))
      && (forall i :: 0 <= i < |s.sq| && s.sq[i].OpSqe? ==>
            Owns(s, s.sq[i].userData, s.sq[i].gen))
      && (forall i :: 0 <= i < |s.cq| && s.cq[i].userData != USIZE_MAX ==>
            Owns(s, s.cq[i].userData, s.cq[i].gen))
      && Diagonal(s.routed)
  {
    NeverPanics(b, depth, steps);
    var s := Run(b, depth, steps).value;
    forall g | 0 <= g < |s.reqs| && Outstanding(s, g) ensures Occupies(s.reqs, s.owner, g) {
      assert ReqOk(b, s.reqs[g]);
    }
    forall i | 0 <= i < |s.cq| && s.cq[i].userData != USIZE_MAX ensures Outstanding(s, s.cq[i].gen) {
      QueuedIsPosted(s.cq, i);
    }
  }

  lemma {:induction false} QueuedIsPosted(cq: seq<Post>, i: nat)
    requires i < |cq| && cq[i].userData != USIZE_MAX
    ensures PostsOf(cq, cq[i].gen) != []
    decreases i
  {
    if i > 0 {
      assert cq[1..][i - 1] == cq[i];
      QueuedIsPosted(cq[1..], i - 1);
    }
  }

  /** A cancel never reaches an operation that reuses the key of the one it
      was issued for. */
  lemma CancelsOnlyItsOp<D, O>(b: Behaviour<D, O>, depth: nat, steps: seq<Step<D>>)
    ensures Run(b, depth, steps).Done?
    ensures forall i :: 0 <= i < |Run(b, depth, steps).value.hits| ==>
      Run(b, depth, steps).value.hits[i].0 == Run(b, depth, steps).value.hits[i].1
  {
    NeverPanics(b, depth, steps);
  }

  /** The slot of generation `g` keeps its data in an `Ignored` box. */
  predicate InBox<D, O>(s: Core<D, O>, g: nat)
    requires g < |s.reqs|
  {
    var key := s.reqs[g].key;
    Owns(s, key, g) && s.slots[key].Ignored?
  }

  /** The data of a request without a dispatched final completion has exactly
      one owner: the operation or the box, never both and never neither; the
      box is there only while the final completion is to come. */
  lemma DataHasOneOwner<D, O>(b: Behaviour<D, O>, depth: nat, steps: seq<Step<D>>)
    ensures Run(b, depth, steps).Done?
    ensures var s := Run(b, depth, steps).value;
      forall g :: 0 <= g < |s.reqs| ==>
        && (Outstanding(s, g) ==> (Unfinished(s.reqs, g) != InBox(s, g)))
        && (InBox(s, g) ==> Outstanding(s, g) && s.reqs[g].use.holder == Boxed(s.slots[s.reqs[g].key].data))
  {
    NeverPanics(b, depth, steps);
    var s := Run(b, depth, steps).value;
    forall g | 0 <= g < |s.reqs|
      ensures Outstanding(s, g) ==> (Unfinished(s.reqs, g) != InBox(s, g))
      ensures InBox(s, g) ==> Outstanding(s, g) && s.reqs[g].use.holder == Boxed(s.slots[s.reqs[g].key].data)
    {
      assert ReqOk(b, s.reqs[g]);
      assert Occupies(s.reqs, s.owner, g) <==> !s.reqs[g].use.holder.Gone?;
    }
  }

  /** A box is released by the dispatch of its generation's final completion
      and by nothing else. */
  lemma BoxReleasedAtFinal<D, O>(b: Behaviour<D, O>, depth: nat, steps: seq<Step<D>>, step: Step<D>, g: nat)
    requires Run(b, depth, steps).Done? && g < |Run(b, depth, steps).value.reqs|
    requires Run(b, depth, steps).value.reqs[g].use.holder.Boxed?
    ensures Next(b, depth, Run(b, depth, steps).value, step).Done?
    ensures var s := Run(b, depth, steps).value;
      var t := Next(b, depth, s, step).value;
      && g < |t.reqs|
      && (t.reqs[g].use.holder == s.reqs[g].use.holder <==> Outstanding(t, g))
      && (!Outstanding(t, g) ==> step.DispatchOne? && s.cq != [] && s.cq[0].gen == g && !More(s.cq[0].cqe))
  {
    NeverPanics(b, depth, steps);
    var s := Run(b, depth, steps).value;
    NextOk(b, depth, s, step);
    var t := Next(b, depth, s, step).value;
    assert ReqOk(b, s.reqs[g]);
    BoxedStep(b, depth, s, step, g);
    assert ReqOk(b, t.reqs[g]);
  }

  lemma BoxedStep<D, O>(b: Behaviour<D, O>, depth: nat, s: Core<D, O>, step: Step<D>, g: nat)
    requires Inv(b, s) && g < |s.reqs| && s.reqs[g].use.holder.Boxed?
    requires Next(b, depth, s, step).Done?
    ensures var t := Next(b, depth, s, step).value;
      && g < |t.reqs|
      && (t.reqs[g].use.holder == s.reqs[g].use.holder || t.reqs[g].use.holder.Gone?)
      && (t.reqs[g].use.holder.Gone? ==> step.DispatchOne? && s.cq != [] && s.cq[0].gen == g && !More(s.cq[0].cqe))
  {
    if Enabled(depth, s, step) {
      if step.DispatchOne? {
        BoxedDispatch(b, s, g);
      } else {
        BoxedOther(b, depth, s, step, g);
      }
    }
  }

  lemma BoxedDispatch<D, O>(b: Behaviour<D, O>, s: Core<D, O>, g: nat)
    requires Inv(b, s) && g < |s.reqs| && s.reqs[g].use.holder.Boxed? && s.cq != []
    requires DispatchHead(s).Done?
    ensures var t := DispatchHead(s).value;
      && g < |t.reqs|
      && (t.reqs[g].use.holder == s.reqs[g].use.holder || t.reqs[g].use.holder.Gone?)
      && (t.reqs[g].use.holder.Gone? ==> s.cq[0].gen == g && !More(s.cq[0].cqe))
  {
    if s.cq[0].userData != USIZE_MAX {
      HeadOwner(b, s.reqs, s.slots, s.owner, s.cq);
    }
  }

  /** Nothing but a dispatch touches the data of a dropped operation. */
  lemma BoxedOther<D, O>(b: Behaviour<D, O>, depth: nat, s: Core<D, O>, step: Step<D>, g: nat)
    requires g < |s.reqs| && s.reqs[g].use.holder.Boxed? && !step.DispatchOne?
    requires Next(b, depth, s, step).Done?
    ensures var t := Next(b, depth, s, step).value;
      g < |t.reqs| && t.reqs[g].use.holder == s.reqs[g].use.holder
  {
  }

  /** What an operation returns is a function of its completions alone: in
      every run, whatever the interleaving of dispatches and polls, the outputs
      so far are those of the reference pass over the completions consumed so
      far, also after the operation was dropped; after the last output they are
      the transcript of the whole stream. Data that is not released is what the
      reference pass left. */
  lemma OutputsAreTheTranscript<D, O>(b: Behaviour<D, O>, depth: nat, steps: seq<Step<D>>, g: nat)
    requires Run(b, depth, steps).Done? && g < |Run(b, depth, steps).value.reqs|
    ensures var r := Run(b, depth, steps).value.reqs[g];
      && Stream(r.io.posted)
      && r.use.cons <= |r.io.posted|
      && (!r.use.ended ==> FeedAll(b, Acc([], r.init), r.io.posted[..r.use.cons]).outs == r.use.outs)
      && (!r.use.holder.Gone? ==>
            FeedAll(b, Acc([], r.init), r.io.posted[..r.use.cons]) == Acc(r.use.outs, r.use.holder.data))
      && (r.use.ended ==> Ended(r.io.posted) && r.use.outs == Transcript(b, r.init, r.io.posted))
  {
    NeverPanics(b, depth, steps);
    assert ReqOk(b, Run(b, depth, steps).value.reqs[g]);
  }

  /** No wakeup is lost: in every run, if the latest poll of an unfinished
      operation returned without its last output and a completion has been
      dispatched that the operation has not consumed, then the task of that
      poll has been woken since; otherwise its waker is in the slot or it has
      been woken. */
  lemma NoLostWakeup<D, O>(b: Behaviour<D, O>, depth: nat, steps: seq<Step<D>>, g: nat)
    requires Run(b, depth, steps).Done? && Unfinished(Run(b, depth, steps).value.reqs, g)
    requires Run(b, depth, steps).value.reqs[g].use.armed.Some?
    ensures var s := Run(b, depth, steps).value;
      var r, a := s.reqs[g], s.reqs[g].use.armed.value;
      && a.since <= |s.wakes| && r.key in s.slots
      && (s.slots[r.key] == Waiting(a.waker) || a.waker in s.wakes[a.since..])
      && (r.use.cons < r.io.disp ==> a.waker in s.wakes[a.since..])
  {
    NeverPanics(b, depth, steps);
    var s := Run(b, depth, steps).value;
    assert ArmedOk(s.reqs[g], s.slots, s.wakes);
    ReadyOp(b, s, g);
  }

  /** While an operation is unfinished, its slot is its own and not `Ignored`:
      the "already removed from slab" branch of `poll_multishot_op`, the early
      return of `remove_op` and the `unreachable!` arms are dead. */
  lemma UnfinishedOwnsItsSlot<D, O>(b: Behaviour<D, O>, depth: nat, steps: seq<Step<D>>, g: nat)
    requires Run(b, depth, steps).Done? && Unfinished(Run(b, depth, steps).value.reqs, g)
    ensures var s := Run(b, depth, steps).value;
      var key := s.reqs[g].key;
      && Owns(s, key, g) && !s.slots[key].Ignored?
      && (s.slots[key].CompletionList? ==> s.reqs[g].multi)
  {
    NeverPanics(b, depth, steps);
    ReadyOp(b, Run(b, depth, steps).value, g);
  }

  /** Every queued list is non-empty, and only its last completion may lack
      `more`. */
  lemma ListsAreStreams<D, O>(b: Behaviour<D, O>, depth: nat, steps: seq<Step<D>>, key: nat)
    requires Run(b, depth, steps).Done? && key in Run(b, depth, steps).value.slots
    requires Run(b, depth, steps).value.slots[key].CompletionList?
    ensures Run(b, depth, steps).value.slots[key].cqes != []
    ensures Stream(Run(b, depth, steps).value.slots[key].cqes)
  {
    NeverPanics(b, depth, steps);
    var s := Run(b, depth, steps).value;
    var r := s.reqs[s.owner[key]];
    assert ReqOk(b, r) && SlotOk(r, s.slots[key]);
    SliceIsStream(r.io.posted, r.use.cons, r.io.disp);
  }

  lemma SliceIsStream(cs: seq<Cqe>, i: nat, j: nat)
    requires Stream(cs) && i <= j <= |cs|
    ensures Stream(cs[i..j])
  {
  }
}
