/** What the kernel owes at teardown is what the waiting loop needs: once every
    request of a run has its final completion posted, the completion queue
    settles exactly the slots the first pass marks `Ignored`. */
module TeardownOwed {
  import opened Uring
  import opened Multishot
  import opened Lifecycle
  import opened Protocol
  import opened Invariant
  import opened DriverSafety
  import opened Teardown

  /** The completion queue without the generations. */
  function Untagged(cq: seq<Post>): seq<(nat, Cqe)> {
    if cq == [] then [] else [(cq[0].userData, cq[0].cqe)] + Untagged(cq[1..])
  }

  /** The completions in the queue that name slot `key`. */
  function PostsTo(cq: seq<Post>, key: nat): seq<Cqe> {
    if cq == [] then []
    else (if cq[0].userData == key then [cq[0].cqe] else []) + PostsTo(cq[1..], key)
  }

  /** Each ignored slot is owed a stream, and nobody else anything. */
  ghost predicate Owes(ignored: set<nat>, cq: seq<Post>) {
    && (forall i :: 0 <= i < |cq| ==> cq[i].userData == USIZE_MAX || cq[i].userData in ignored)
    && (forall k :: k in ignored ==> k != USIZE_MAX && Stream(PostsTo(cq, k)) && Ended(PostsTo(cq, k)))
  }

  lemma {:induction false} NoPostsTo(cq: seq<Post>, key: nat)
    requires PostsTo(cq, key) == []
    ensures forall i :: 0 <= i < |cq| ==> cq[i].userData != key
    decreases |cq|
  {
    if cq != [] {
      NoPostsTo(cq[1..], key);
      forall i | 0 <= i < |cq| ensures cq[i].userData != key {
        if i > 0 {
          assert cq[i] == cq[1..][i - 1];
        }
      }
    }
  }

  lemma PostsToTail(cq: seq<Post>, h: nat)
    requires cq != []
    ensures PostsTo(cq, h) == (if cq[0].userData == h then [cq[0].cqe] else []) + PostsTo(cq[1..], h)
    ensures cq[0].userData != h ==> PostsTo(cq, h) == PostsTo(cq[1..], h)
  {
  }

  lemma StreamTail(cs: seq<Cqe>)
    requires cs != [] && Stream(cs) && Ended(cs)
    ensures if More(cs[0]) then Stream(cs[1..]) && Ended(cs[1..]) else cs[1..] == []
  {
  }

  /** The entries that are left name what they named. */
  lemma NamesTail(ignored: set<nat>, cq: seq<Post>)
    requires cq != [] && forall i :: 0 <= i < |cq| ==> cq[i].userData == USIZE_MAX || cq[i].userData in ignored
    ensures forall i :: 0 <= i < |cq[1..]| ==> cq[1..][i].userData == USIZE_MAX || cq[1..][i].userData in ignored
  {
  }

  lemma OwesSkip(ignored: set<nat>, cq: seq<Post>)
    requires Owes(ignored, cq) && cq != [] && cq[0].userData == USIZE_MAX
    ensures Owes(ignored, cq[1..])
  {
    NamesTail(ignored, cq);
    forall h | h in ignored ensures PostsTo(cq[1..], h) == PostsTo(cq, h) {
      PostsToTail(cq, h);
    }
  }

  lemma OwesMore(ignored: set<nat>, cq: seq<Post>)
    requires Owes(ignored, cq) && cq != [] && cq[0].userData != USIZE_MAX && More(cq[0].cqe)
    ensures Owes(ignored, cq[1..])
  {
    NamesTail(ignored, cq);
    forall h | h in ignored ensures Stream(PostsTo(cq[1..], h)) && Ended(PostsTo(cq[1..], h)) {
      PostsToTail(cq, h);
      if cq[0].userData == h {
        StreamTail(PostsTo(cq, h));
        assert PostsTo(cq, h)[1..] == PostsTo(cq[1..], h);
      }
    }
  }

  lemma OwesFinal(ignored: set<nat>, cq: seq<Post>)
    requires Owes(ignored, cq) && cq != [] && cq[0].userData != USIZE_MAX && !More(cq[0].cqe)
    ensures Owes(ignored - {cq[0].userData}, cq[1..])
  {
    var k := cq[0].userData;
    NamesTail(ignored, cq);
    PostsToTail(cq, k);
    StreamTail(PostsTo(cq, k));
    assert PostsTo(cq, k)[1..] == PostsTo(cq[1..], k);
    NoPostsTo(cq[1..], k);
    forall h | h in ignored - {k} ensures PostsTo(cq[1..], h) == PostsTo(cq, h) {
      PostsToTail(cq, h);
    }
  }

  lemma {:induction false} OwesSettles(ignored: set<nat>, cq: seq<Post>)
    requires Owes(ignored, cq)
    ensures Settles(ignored, Untagged(cq))
    decreases |cq|
  {
    if cq == [] {
      assert forall k :: k in ignored ==> !Ended(PostsTo(cq, k));
    } else {
      assert Untagged(cq)[1..] == Untagged(cq[1..]);
      if cq[0].userData == USIZE_MAX {
        OwesSkip(ignored, cq);
        OwesSettles(ignored, cq[1..]);
      } else if More(cq[0].cqe) {
        OwesMore(ignored, cq);
        OwesSettles(ignored, cq[1..]);
      } else {
        OwesFinal(ignored, cq);
        OwesSettles(ignored - {cq[0].userData}, cq[1..]);
      }
    }
  }

  /** A stream without the results of cancels. */
  function WithoutCancels(stream: seq<(nat, Cqe)>): seq<(nat, Cqe)> {
    if stream == [] then []
    else (if stream[0].0 == USIZE_MAX then [] else [stream[0]]) + WithoutCancels(stream[1..])
  }

  /** The results of the cancels that the second pass submits may arrive
      anywhere between the owed completions. */
  lemma {:induction false} CancelResultsDoNotMatter(ignored: set<nat>, stream: seq<(nat, Cqe)>)
    ensures Settles(ignored, stream) <==> Settles(ignored, WithoutCancels(stream))
    decreases |stream|
  {
    if stream != [] {
      var (key, c) := stream[0];
      if key == USIZE_MAX {
        CancelResultsDoNotMatter(ignored, stream[1..]);
        assert WithoutCancels(stream) == WithoutCancels(stream[1..]);
      } else {
        CancelResultsDoNotMatter(if More(c) then ignored else ignored - {key}, stream[1..]);
        assert WithoutCancels(stream)[1..] == WithoutCancels(stream[1..]);
      }
    }
  }

  /** What names slot `key` in the queue belongs to the generation in it. */
  lemma {:induction false} PostsToOf(cq: seq<Post>, key: nat, g: nat)
    requires key != USIZE_MAX
    requires forall i :: 0 <= i < |cq| && cq[i].userData != USIZE_MAX ==> (cq[i].userData == key <==> cq[i].gen == g)
    ensures PostsTo(cq, key) == PostsOf(cq, g)
    decreases |cq|
  {
    if cq != [] {
      PostsToOf(cq[1..], key, g);
    }
  }

  /** The slots the first pass marks `Ignored` are those whose final completion
      is not dispatched. */
  lemma IgnoredAreUnsettled<D, O>(b: Behaviour<D, O>, s: Core<D, O>, unit: D, k: nat)
    requires Inv(b, s) && k in s.slots
    ensures k in s.owner && s.owner[k] < |s.reqs|
    ensures k in IgnoredKeys(MarkAll(s.slots, unit)) <==> Outstanding(s, s.owner[k])
  {
    var r := s.reqs[s.owner[k]];
    assert ReqOk(b, r) && SlotOk(r, s.slots[k]);
    MarkedIffUnsettled(b, r, s.slots[k], unit);
  }

  lemma MarkedIffUnsettled<D, O>(b: Behaviour<D, O>, r: Req<D, O>, life: Life<D>, unit: D)
    requires ReqOk(b, r) && SlotOk(r, life)
    ensures Marked(life, unit).Ignored? <==> !Settled(r.io)
  {
  }

  /** Untagged for a slot are entries of the generation that owns it. */
  lemma SameInQueue<D, O>(s: Core<D, O>, k: nat)
    requires k in s.owner && s.owner[k] < |s.reqs| && s.reqs[s.owner[k]].key == k
    requires forall i :: 0 <= i < |s.cq| && s.cq[i].userData != USIZE_MAX ==> Owns(s, s.cq[i].userData, s.cq[i].gen)
    requires CqOk(s.reqs, s.cq)
    ensures forall i :: 0 <= i < |s.cq| && s.cq[i].userData != USIZE_MAX ==>
      (s.cq[i].userData == k <==> s.cq[i].gen == s.owner[k])
  {
  }

  lemma FinishedOwes<D, O>(b: Behaviour<D, O>, s: Core<D, O>, unit: D, k: nat)
    requires Inv(b, s) && k in IgnoredKeys(MarkAll(s.slots, unit))
    requires forall g :: 0 <= g < |s.reqs| ==> s.reqs[g].io.stage.Finished?
    requires forall i :: 0 <= i < |s.cq| && s.cq[i].userData != USIZE_MAX ==> Owns(s, s.cq[i].userData, s.cq[i].gen)
    ensures k != USIZE_MAX && Stream(PostsTo(s.cq, k)) && Ended(PostsTo(s.cq, k))
  {
    IgnoredAreUnsettled(b, s, unit, k);
    var g := s.owner[k];
    var io := s.reqs[g].io;
    assert ReqOk(b, s.reqs[g]);
    SameInQueue(s, k);
    PostsToOf(s.cq, k, g);
    SuffixStream(io.posted, io.disp);
  }

  lemma SuffixStream(cs: seq<Cqe>, d: nat)
    requires Stream(cs) && Ended(cs) && d < |cs|
    ensures Stream(cs[d..]) && Ended(cs[d..])
  {
  }

  /** In every run that ends with all final completions posted, tearing the
      driver down terminates: the queue is what `DropDriver` asks for. */
  lemma KernelPaysItsDebts<D, O>(b: Behaviour<D, O>, depth: nat, steps: seq<Step<D>>, unit: D)
    requires Run(b, depth, steps).Done?
    requires forall g :: 0 <= g < |Run(b, depth, steps).value.reqs| ==>
      Run(b, depth, steps).value.reqs[g].io.stage.Finished?
    ensures var s := Run(b, depth, steps).value;
      Settles(IgnoredKeys(MarkAll(s.slots, unit)), Untagged(s.cq))
  {
    NeverPanics(b, depth, steps);
    NoMisrouting(b, depth, steps);
    var s := Run(b, depth, steps).value;
    var ignored := IgnoredKeys(MarkAll(s.slots, unit));
    forall k | k in ignored ensures k != USIZE_MAX && Stream(PostsTo(s.cq, k)) && Ended(PostsTo(s.cq, k)) {
      FinishedOwes(b, s, unit, k);
    }
    forall i | 0 <= i < |s.cq| && s.cq[i].userData != USIZE_MAX ensures s.cq[i].userData in ignored {
      IgnoredAreUnsettled(b, s, unit, s.cq[i].userData);
      QueuedIsPosted(s.cq, i);
    }
    OwesSettles(ignored, s.cq);
  }

  /** Steps of the kernel alone. */
  predicate KernelOnly<D>(steps: seq<Step<D>>) {
    forall i :: 0 <= i < |steps| ==> steps[i].Consume? || steps[i].PostCqe?
  }

  /** The kernel does not touch the slots. */
  lemma {:induction false} KernelKeepsSlots<D, O>(b: Behaviour<D, O>, depth: nat, steps: seq<Step<D>>,
                                                  more: seq<Step<D>>)
    requires KernelOnly(more)
    ensures Run(b, depth, steps).Done? && Run(b, depth, steps + more).Done?
    ensures Run(b, depth, steps + more).value.slots == Run(b, depth, steps).value.slots
    decreases |more|
  {
    if more == [] {
      NeverPanics(b, depth, steps);
      assert steps + more == steps;
    } else {
      var front, last := more[..|more| - 1], more[|more| - 1];
      KernelKeepsSlots(b, depth, steps, front);
      assert steps + more == steps + front + [last];
      RunLast(b, depth, steps + front, last);
      KernelStepKeepsSlots(b, depth, Run(b, depth, steps + front).value, last);
    }
  }

  lemma KernelStepKeepsSlots<D, O>(b: Behaviour<D, O>, depth: nat, s: Core<D, O>, step: Step<D>)
    requires step.Consume? || step.PostCqe?
    ensures Next(b, depth, s, step).Done? && Next(b, depth, s, step).value.slots == s.slots
  {
  }

  /** What is owed at the end of a run: the completions that the kernel has
      posted once it is done with every request, in that order, with the results
      of cancels anywhere between them. */
  ghost predicate OwedAfter<D, O>(b: Behaviour<D, O>, depth: nat, steps: seq<Step<D>>, more: seq<Step<D>>,
                                  owed: seq<(nat, Cqe)>) {
    && KernelOnly(more) && Run(b, depth, steps + more).Done?
    && var s := Run(b, depth, steps + more).value;
    && (forall g :: 0 <= g < |s.reqs| ==> s.reqs[g].io.stage.Finished?)
    && WithoutCancels(owed) == WithoutCancels(Untagged(s.cq))
  }

  /** It settles exactly the slots the first pass marks `Ignored`. */
  lemma OwedSettles<D, O>(b: Behaviour<D, O>, depth: nat, steps: seq<Step<D>>, more: seq<Step<D>>,
                          owed: seq<(nat, Cqe)>, unit: D)
    requires OwedAfter(b, depth, steps, more, owed)
    ensures Run(b, depth, steps).Done?
    ensures Settles(IgnoredKeys(MarkAll(Run(b, depth, steps).value.slots, unit)), owed)
  {
    KernelKeepsSlots(b, depth, steps, more);
    KernelPaysItsDebts(b, depth, steps + more, unit);
    var ignored := IgnoredKeys(MarkAll(Run(b, depth, steps).value.slots, unit));
    CancelResultsDoNotMatter(ignored, owed);
    CancelResultsDoNotMatter(ignored, Untagged(Run(b, depth, steps + more).value.cq));
  }
}
