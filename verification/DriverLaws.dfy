/** What single calls do in every run, beyond keeping the invariant. */
module DriverLaws {
  import opened Uring
  import opened Multishot
  import opened Lifecycle
  import opened Protocol
  import opened Invariant
  import opened Preservation
  import opened PollSteps
  import opened DriverSafety

  /** In every run, an operation is submitted under any vacant key, its entry goes
      to the end of the queue as soon as there is room, and the kernel takes the
      entry at the head. */
  lemma RequestsTravel<D, O>(b: Behaviour<D, O>, depth: nat, steps: seq<Step<D>>, key: nat, multi: bool,
                             fd: Option<nat>, init: D)
    requires Run(b, depth, steps).Done? && Run(b, depth, steps).value.pending.Idle?
    requires key !in Run(b, depth, steps).value.slots && key < USIZE_MAX
    ensures var s := Run(b, depth, steps).value;
      var g := |s.reqs|;
      var r: Req<D, O> := Fresh(key, multi, fd, None, init);
      && Next(b, depth, s, Insert(key, multi, fd, None, init)).Done?
      && var t := Next(b, depth, s, Insert(key, multi, fd, None, init)).value;
      && t.reqs == s.reqs + [r] && t.slots == s.slots[key := Submitted] && t.sq == s.sq && t.pending == Submitting([g])
      && (|s.sq| < depth ==>
            && Next(b, depth, t, Push).Done?
            && var u := Next(b, depth, t, Push).value;
            && u.sq == s.sq + [OpSqe(key, g)] && u.pending.Idle? && u.slots == t.slots
            && |u.reqs| == g + 1 && u.reqs[g] == r.(io := Io(Queued, [], 0)))
  {
    var s := Run(b, depth, steps).value;
    assert [] + [|s.reqs|] == [|s.reqs|];
  }

  /** In every run, the kernel takes the entry at the head of the queue, and posts
      for a request that it has any completion that its kind allows, behind those
      posted before. */
  lemma KernelServes<D, O>(b: Behaviour<D, O>, depth: nat, steps: seq<Step<D>>, g: nat, c: Cqe)
    requires Run(b, depth, steps).Done?
    ensures var s := Run(b, depth, steps).value;
      && (s.sq != [] && s.sq[0].OpSqe? && s.sq[0].gen == g && g < |s.reqs| ==>
            && Next(b, depth, s, Consume).Done?
            && var t := Next(b, depth, s, Consume).value;
            t.sq == s.sq[1..] && |t.reqs| == |s.reqs| && t.reqs[g].io == s.reqs[g].io.(stage := InKernel))
      && (g < |s.reqs| && s.reqs[g].io.stage.InKernel? && (More(c) ==> s.reqs[g].multi) ==>
            && Next(b, depth, s, PostCqe(g, c)).Done?
            && var t := Next(b, depth, s, PostCqe(g, c)).value;
            && t.cq == s.cq + [Post(s.reqs[g].key, c, g)] && |t.reqs| == |s.reqs|
            && t.reqs[g].io == Io(if More(c) then InKernel else Finished, s.reqs[g].io.posted + [c], s.reqs[g].io.disp))
  {
  }

  /** In every run, `cancel` on an unfinished multishot operation pushes, as soon
      as there is room, one entry that names the operation's key, and changes
      nothing else. */
  lemma CancelIsPushed<D, O>(b: Behaviour<D, O>, depth: nat, steps: seq<Step<D>>, g: nat)
    requires Run(b, depth, steps).Done? && Run(b, depth, steps).value.pending.Idle?
    requires Unfinished(Run(b, depth, steps).value.reqs, g) && Run(b, depth, steps).value.reqs[g].multi
    ensures var s := Run(b, depth, steps).value;
      var begun := s.(pending := Cancelling(g));
      && Next(b, depth, s, CancelBegin(g)) == Done(begun)
      && (|s.sq| < depth ==>
            Next(b, depth, begun, CancelPush) == Done(s.(sq := s.sq + [CancelSqe(s.reqs[g].key, g)])))
  {
    UnfinishedOwnsItsSlot(b, depth, steps, g);
    var s := Run(b, depth, steps).value;
    CancelStepIs(b, depth, s, CancelBegin(g));
    if |s.sq| < depth {
      CancelStepIs(b, depth, s.(pending := Cancelling(g)), CancelPush);
    }
  }

  /** In every run, a cancel that the kernel takes names the key of the generation
      it was issued for, which is with the kernel or finished by then, and it finds
      exactly that generation if it is with the kernel, and nothing otherwise. */
  lemma CancelFindsItsOp<D, O>(b: Behaviour<D, O>, depth: nat, steps: seq<Step<D>>)
    requires Run(b, depth, steps).Done? && Run(b, depth, steps).value.sq != []
    requires Run(b, depth, steps).value.sq[0].CancelSqe?
    ensures var s := Run(b, depth, steps).value;
      var g := s.sq[0].gen;
      && g < |s.reqs| && s.sq[0].target == s.reqs[g].key
      && (s.reqs[g].io.stage.InKernel? || s.reqs[g].io.stage.Finished?)
      && Matching(s.reqs, s.sq[0].target) == (if s.reqs[g].io.stage.InKernel? then [g] else [])
      && Next(b, depth, s, Consume).Done?
      && var t := Next(b, depth, s, Consume).value;
      && t.hits == s.hits + (if s.reqs[g].io.stage.InKernel? then [(g, g)] else [])
      && t.sq == s.sq[1..] && |t.cq| == |s.cq| + 1 && t.cq[..|s.cq|] == s.cq && t.cq[|s.cq|].userData == USIZE_MAX
  {
    NeverPanics(b, depth, steps);
    HeadCancel(b, depth, Run(b, depth, steps).value);
  }

  lemma HeadCancel<D, O>(b: Behaviour<D, O>, depth: nat, s: Core<D, O>)
    requires CancelOk(s.reqs, s.sq) && s.sq != [] && s.sq[0].CancelSqe?
    ensures var g := s.sq[0].gen;
      && g < |s.reqs| && s.sq[0].target == s.reqs[g].key
      && (s.reqs[g].io.stage.InKernel? || s.reqs[g].io.stage.Finished?)
      && Matching(s.reqs, s.sq[0].target) == (if s.reqs[g].io.stage.InKernel? then [g] else [])
      && Next(b, depth, s, Consume).Done?
      && var t := Next(b, depth, s, Consume).value;
      && t.hits == s.hits + (if s.reqs[g].io.stage.InKernel? then [(g, g)] else [])
      && t.sq == s.sq[1..] && |t.cq| == |s.cq| + 1 && t.cq[..|s.cq|] == s.cq && t.cq[|s.cq|].userData == USIZE_MAX
  {
    assert CancelNames(s.reqs, s.sq, 0);
    MatchingIs(s.reqs, s.sq[0].target, s.sq[0].gen);
  }

  /** In every run, dropping an unfinished operation moves its data into the slot
      if the final completion is not dispatched, and otherwise releases it and
      frees the slot; what it has returned and the request stay as they are. */
  lemma DropMovesData<D, O>(b: Behaviour<D, O>, depth: nat, steps: seq<Step<D>>, g: nat)
    requires Run(b, depth, steps).Done? && Run(b, depth, steps).value.pending.Idle?
    requires Unfinished(Run(b, depth, steps).value.reqs, g)
    ensures var s := Run(b, depth, steps).value;
      && Next(b, depth, s, DropOp(g)).Done?
      && var t := Next(b, depth, s, DropOp(g)).value;
      && |t.reqs| == |s.reqs| && t.reqs[g].io == s.reqs[g].io && t.reqs[g].use.outs == s.reqs[g].use.outs
      && (Outstanding(s, g) ==> t.reqs[g].use.holder == Boxed(s.reqs[g].use.holder.data) && InBox(t, g))
      && (!Outstanding(s, g) ==> t.reqs[g].use.holder.Gone? && s.reqs[g].key !in t.slots)
  {
    NeverPanics(b, depth, steps);
    var s := Run(b, depth, steps).value;
    ReadyOp(b, s, g);
    ReadyDrops(b, depth, s, g);
  }

  lemma ReadyDrops<D, O>(b: Behaviour<D, O>, depth: nat, s: Core<D, O>, g: nat)
    requires s.pending.Idle? && Unfinished(s.reqs, g) && Ready(b, s.reqs[g], s.slots) && Occupies(s.reqs, s.owner, g)
    ensures Next(b, depth, s, DropOp(g)).Done?
    ensures var t := Next(b, depth, s, DropOp(g)).value;
      && |t.reqs| == |s.reqs| && t.reqs[g].io == s.reqs[g].io && t.reqs[g].use.outs == s.reqs[g].use.outs
      && (Outstanding(s, g) ==> t.reqs[g].use.holder == Boxed(s.reqs[g].use.holder.data) && InBox(t, g))
      && (!Outstanding(s, g) ==> t.reqs[g].use.holder.Gone? && s.reqs[g].key !in t.slots)
  {
    var r := s.reqs[g];
    if s.slots[r.key].CompletionList? {
      var l := s.slots[r.key].cqes;
      assert l[|l| - 1] == r.io.posted[r.io.disp - 1];
    }
  }

  /** In every run, the waker and the moment on record for a generation are those
      of its latest poll: a poll that does not end it records its own waker and
      the wakes so far, and no other step changes the record. */
  lemma LatestPollIsRecorded<D, O>(b: Behaviour<D, O>, depth: nat, steps: seq<Step<D>>, step: Step<D>, g: nat)
    requires Run(b, depth, steps).Done? && g < |Run(b, depth, steps).value.reqs|
    ensures var s := Run(b, depth, steps).value;
      && Next(b, depth, s, step).Done? && g < |Next(b, depth, s, step).value.reqs|
      && var u := Next(b, depth, s, step).value.reqs[g].use;
      if step.Poll? && step.gen == g && s.pending.Idle? && Unfinished(s.reqs, g)
      then u.armed == if u.holder.Held? then Some(Armed(step.waker, |s.wakes|)) else None
      else u.armed == s.reqs[g].use.armed
  {
    NeverPanics(b, depth, steps);
    NextOk(b, depth, Run(b, depth, steps).value, step);
    ArmedAfter(b, depth, Run(b, depth, steps).value, step, g);
  }

  lemma ArmedAfter<D, O>(b: Behaviour<D, O>, depth: nat, s: Core<D, O>, step: Step<D>, g: nat)
    requires g < |s.reqs| && Next(b, depth, s, step).Done?
    ensures g < |Next(b, depth, s, step).value.reqs|
    ensures var u := Next(b, depth, s, step).value.reqs[g].use;
      if step.Poll? && step.gen == g && s.pending.Idle? && Unfinished(s.reqs, g)
      then u.armed == if u.holder.Held? then Some(Armed(step.waker, |s.wakes|)) else None
      else u.armed == s.reqs[g].use.armed
  {
  }

  /** In every run, dispatching an entry that is not the result of a cancel counts
      it for the generation that posted it, which owns the slot, and changes no
      other generation and no other slot. */
  lemma DispatchReachesItsOwn<D, O>(b: Behaviour<D, O>, depth: nat, steps: seq<Step<D>>)
    requires Run(b, depth, steps).Done? && Run(b, depth, steps).value.cq != []
    requires Run(b, depth, steps).value.cq[0].userData != USIZE_MAX
    ensures var s := Run(b, depth, steps).value;
      var p := s.cq[0];
      && Owns(s, p.userData, p.gen) && p.gen < |s.reqs| && Next(b, depth, s, DispatchOne).Done?
      && var t := Next(b, depth, s, DispatchOne).value;
      && |t.reqs| == |s.reqs| && t.reqs[p.gen].io == s.reqs[p.gen].io.(disp := s.reqs[p.gen].io.disp + 1)
      && (forall h :: 0 <= h < |s.reqs| && h != p.gen ==> t.reqs[h] == s.reqs[h])
      && t.slots - {p.userData} == s.slots - {p.userData}
  {
    NeverPanics(b, depth, steps);
    var s := Run(b, depth, steps).value;
    HeadOwner(b, s.reqs, s.slots, s.owner, s.cq);
    NextOk(b, depth, s, DispatchOne);
    DispatchTouches(b, depth, s);
  }

  lemma DispatchTouches<D, O>(b: Behaviour<D, O>, depth: nat, s: Core<D, O>)
    requires s.cq != [] && s.cq[0].userData != USIZE_MAX && s.cq[0].gen < |s.reqs|
    requires Owns(s, s.cq[0].userData, s.cq[0].gen) && Next(b, depth, s, DispatchOne).Done?
    ensures var p := s.cq[0];
      var t := Next(b, depth, s, DispatchOne).value;
      && |t.reqs| == |s.reqs| && t.reqs[p.gen].io == s.reqs[p.gen].io.(disp := s.reqs[p.gen].io.disp + 1)
      && (forall h :: 0 <= h < |s.reqs| && h != p.gen ==> t.reqs[h] == s.reqs[h])
      && t.slots - {p.userData} == s.slots - {p.userData}
  {
  }
}
