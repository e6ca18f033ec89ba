/** Every step of the protocol keeps the invariant and panics nowhere. */
module Preservation {
  import opened Uring
  import opened Multishot
  import opened Lifecycle
  import opened Protocol
  import opened Invariant

  // ---- The completion queue ----

  lemma {:induction false} PostsOfAppend(cq: seq<Post>, p: Post, g: nat)
    ensures PostsOf(cq + [p], g) == PostsOf(cq, g) + (if p.userData != USIZE_MAX && p.gen == g then [p.cqe] else [])
    decreases |cq|
  {
    if cq == [] {
      assert cq + [p] == [p];
      assert [p][1..] == [];
    } else {
      assert (cq + [p])[1..] == cq[1..] + [p];
      PostsOfAppend(cq[1..], p, g);
    }
  }

  lemma FrameCq<D, O>(reqs: Reqs<D, O>, g: nat, r: Req<D, O>, cq: seq<Post>)
    requires g < |reqs| && r.key == reqs[g].key
    requires r.io.posted == reqs[g].io.posted && r.io.disp == reqs[g].io.disp
    requires CqOk(reqs, cq)
    ensures CqOk(reqs[g := r], cq)
  {
  }

  /** The result of a cancel joins the completion queue. */
  lemma CqCancel<D, O>(reqs: Reqs<D, O>, cq: seq<Post>, c: Cqe, h: nat)
    requires CqOk(reqs, cq)
    ensures CqOk(reqs, cq + [Post(USIZE_MAX, c, h)])
  {
    forall g | 0 <= g < |reqs| ensures PostsOf(cq + [Post(USIZE_MAX, c, h)], g) == PostsOf(cq, g) {
      PostsOfAppend(cq, Post(USIZE_MAX, c, h), g);
    }
  }

  /** A completion of generation `g` joins the completion queue. */
  lemma CqPost<D, O>(reqs: Reqs<D, O>, cq: seq<Post>, g: nat, r: Req<D, O>, c: Cqe)
    requires CqOk(reqs, cq) && g < |reqs| && reqs[g].key < USIZE_MAX
    requires r.key == reqs[g].key && r.io.disp == reqs[g].io.disp && r.io.posted == reqs[g].io.posted + [c]
    ensures CqOk(reqs[g := r], cq + [Post(r.key, c, g)])
  {
    var p := Post(r.key, c, g);
    forall h | 0 <= h < |reqs|
      ensures PostsOf(cq + [p], h) == reqs[g := r][h].io.posted[reqs[g := r][h].io.disp..]
    {
      PostsOfAppend(cq, p, h);
    }
  }

  lemma CqPop<D, O>(reqs: Reqs<D, O>, cq: seq<Post>, r: Req<D, O>)
    requires CqOk(reqs, cq) && cq != [] && cq[0].userData != USIZE_MAX
    requires cq[0].gen < |reqs| && r.key == reqs[cq[0].gen].key
    requires reqs[cq[0].gen].io.disp < |reqs[cq[0].gen].io.posted|
    requires r.io == reqs[cq[0].gen].io.(disp := reqs[cq[0].gen].io.disp + 1)
    ensures CqOk(reqs[cq[0].gen := r], cq[1..])
  {
    var g, reqs' := cq[0].gen, reqs[cq[0].gen := r];
    assert forall i :: 0 <= i < |cq[1..]| ==> cq[1..][i] == cq[i + 1];
    forall h | 0 <= h < |reqs| ensures PostsOf(cq[1..], h) == reqs'[h].io.posted[reqs'[h].io.disp..] {
      if h == g {
        assert PostsOf(cq[1..], g) == PostsOf(cq, g)[1..];
      } else {
        assert PostsOf(cq[1..], h) == PostsOf(cq, h);
      }
    }
  }

  lemma CqSkip<D, O>(reqs: Reqs<D, O>, cq: seq<Post>)
    requires CqOk(reqs, cq) && cq != [] && cq[0].userData == USIZE_MAX
    ensures CqOk(reqs, cq[1..])
  {
    assert forall i :: 0 <= i < |cq[1..]| ==> cq[1..][i] == cq[i + 1];
    forall h | 0 <= h < |reqs| ensures PostsOf(cq[1..], h) == PostsOf(cq, h) {
      assert PostsOf(cq, h) == [] + PostsOf(cq[1..], h);
    }
  }

  // ---- The submission queue ----

  lemma SqPopOp<D, O>(reqs: Reqs<D, O>, sq: seq<Sqe>, r: Req<D, O>)
    requires SqOk(reqs, sq) && CancelOk(reqs, sq) && sq != [] && sq[0].OpSqe?
    requires r.key == reqs[sq[0].gen].key && r.io.stage.InKernel?
    ensures SqOk(reqs[sq[0].gen := r], sq[1..]) && CancelOk(reqs[sq[0].gen := r], sq[1..])
  {
  }

  lemma SqPopCancel<D, O>(reqs: Reqs<D, O>, sq: seq<Sqe>)
    requires SqOk(reqs, sq) && CancelOk(reqs, sq) && sq != [] && sq[0].CancelSqe?
    ensures SqOk(reqs, sq[1..]) && CancelOk(reqs, sq[1..])
  {
  }

  lemma SqPushOp<D, O>(reqs: Reqs<D, O>, sq: seq<Sqe>, g: nat, r: Req<D, O>)
    requires SqOk(reqs, sq) && CancelOk(reqs, sq)
    requires g < |reqs| && reqs[g].io.stage.Half? && r.key == reqs[g].key && r.io.stage.Queued?
    ensures SqOk(reqs[g := r], sq + [OpSqe(r.key, g)]) && CancelOk(reqs[g := r], sq + [OpSqe(r.key, g)])
  {
  }

  /** Nothing of another generation is in flight under this key. */
  ghost predicate AloneInFlight<D, O>(reqs: Reqs<D, O>, g: nat)
    requires g < |reqs|
  {
    forall h ::
      0 <= h < |reqs| && reqs[h].key == reqs[g].key && (reqs[h].io.stage.InKernel? || reqs[h].io.stage.Queued?) ==>
        h == g
  }

  lemma Alone<D, O>(b: Behaviour<D, O>, reqs: Reqs<D, O>, slots: Slots<D>, owner: map<nat, nat>, g: nat)
    requires ReqsOk(b, reqs) && OwnOk(reqs, slots, owner)
    requires g < |reqs| && !reqs[g].use.holder.Gone?
    ensures AloneInFlight(reqs, g)
  {
  }

  lemma SqPushCancel<D, O>(reqs: Reqs<D, O>, sq: seq<Sqe>, g: nat)
    requires SqOk(reqs, sq) && CancelOk(reqs, sq)
    requires g < |reqs| && AloneInFlight(reqs, g) && !reqs[g].io.stage.Half?
    ensures SqOk(reqs, sq + [CancelSqe(reqs[g].key, g)]) && CancelOk(reqs, sq + [CancelSqe(reqs[g].key, g)])
  {
    var sq' := sq + [CancelSqe(reqs[g].key, g)];
    SqGrows(reqs, sq, CancelSqe(reqs[g].key, g));
    forall i | 0 <= i < |sq'| && sq'[i].CancelSqe? ensures CancelNames(reqs, sq', i) {
      if i < |sq| {
        NamesStay(reqs, sq, sq', i);
      } else if reqs[g].io.stage.Queued? {
        var j :| 0 <= j < |sq| && sq[j] == OpSqe(reqs[g].key, g);
        assert sq'[j] == OpSqe(reqs[g].key, g);
      }
    }
  }

  lemma SqGrows<D, O>(reqs: Reqs<D, O>, sq: seq<Sqe>, c: Sqe)
    requires SqOk(reqs, sq) && c.CancelSqe?
    ensures SqOk(reqs, sq + [c])
  {
  }

  lemma NamesStay<D, O>(reqs: Reqs<D, O>, sq: seq<Sqe>, sq': seq<Sqe>, i: nat)
    requires i < |sq| && sq[i].CancelSqe? && CancelNames(reqs, sq, i) && |sq| <= |sq'| && sq'[..|sq|] == sq
    ensures sq'[i] == sq[i] && CancelNames(reqs, sq', i)
  {
    assert forall j :: 0 <= j < |sq| ==> sq'[j] == sq[j];
    if reqs[sq[i].gen].io.stage.Queued? {
      var j :| 0 <= j < i && sq[j] == OpSqe(sq[i].target, sq[i].gen);
      assert sq'[j] == OpSqe(sq[i].target, sq[i].gen);
    }
  }

  /** What a cancel can find: the in-kernel requests with its key, each once. */
  lemma {:induction false} MatchingFinds<D, O>(reqs: Reqs<D, O>, target: nat)
    ensures forall g: nat :: g in Matching(reqs, target) <==>
      g < |reqs| && reqs[g].io.stage.InKernel? && reqs[g].key == target
    ensures forall i, j :: 0 <= i < j < |Matching(reqs, target)| ==>
      Matching(reqs, target)[i] != Matching(reqs, target)[j]
    decreases |reqs|
  {
    if reqs != [] {
      var n := |reqs| - 1;
      var found := Matching(reqs[..n], target);
      MatchingFinds(reqs[..n], target);
      assert forall i :: 0 <= i < |found| ==> found[i] in found;
      assert Matching(reqs, target) == found + if reqs[n].io.stage.InKernel? && reqs[n].key == target then [n] else [];
      forall g: nat
        ensures g in Matching(reqs, target) <==> g < |reqs| && reqs[g].io.stage.InKernel? && reqs[g].key == target
      {
        assert g in found <==> g < n && reqs[..n][g].io.stage.InKernel? && reqs[..n][g].key == target;
      }
    }
  }

  /** With one such request, that is what it finds. */
  lemma MatchingIs<D, O>(reqs: Reqs<D, O>, target: nat, g: nat)
    requires g < |reqs| && reqs[g].key == target
    requires forall h :: 0 <= h < |reqs| && reqs[h].io.stage.InKernel? && reqs[h].key == target ==> h == g
    ensures Matching(reqs, target) == if reqs[g].io.stage.InKernel? then [g] else []
  {
    MatchingFinds(reqs, target);
    var found := Matching(reqs, target);
    assert |found| <= 1 || found[0] != found[1];
    forall i | 0 <= i < |found| ensures found[i] == g {
      assert found[i] in found;
    }
    assert found == [] || found == [g];
    assert g in found <==> reqs[g].io.stage.InKernel?;
  }

  // ---- Kernel steps ----

  lemma StepConsume<D, O>(b: Behaviour<D, O>, s: Core<D, O>)
    requires Inv(b, s) && s.sq != []
    ensures Inv(b, ConsumeHead(s))
  {
    match s.sq[0]
    case OpSqe(_, g) =>
      var r := s.reqs[g].(io := s.reqs[g].io.(stage := InKernel));
      StageMoves(b, s.reqs, s.slots, s.owner, s.wakes, g, r);
      SqPopOp(s.reqs, s.sq, r);
      FramePending(s.reqs, g, r, s.pending);
      FrameCq(s.reqs, g, r, s.cq);
    case CancelSqe(target, g) =>
      SqPopCancel(s.reqs, s.sq);
      CqCancel(s.reqs, s.cq, Cqe(0, 0, []), g);
      CancelFinds(s.reqs, s.sq, s.hits);
  }

  /** What a cancel finds when the kernel consumes it is the generation it was
      issued for. */
  lemma CancelFinds<D, O>(reqs: Reqs<D, O>, sq: seq<Sqe>, hits: seq<(nat, nat)>)
    requires CancelOk(reqs, sq) && sq != [] && sq[0].CancelSqe? && Diagonal(hits)
    ensures Diagonal(hits + Pairs(sq[0].gen, Matching(reqs, sq[0].target)))
  {
    assert CancelNames(reqs, sq, 0);
    MatchingIs(reqs, sq[0].target, sq[0].gen);
  }

  /** A request moves from the caller towards the kernel. */
  lemma StageMoves<D, O>(b: Behaviour<D, O>, reqs: Reqs<D, O>, slots: Slots<D>, owner: map<nat, nat>,
                         wakes: seq<Waker>, g: nat, r: Req<D, O>)
    requires ReqsOk(b, reqs) && KeysOk(reqs) && OwnOk(reqs, slots, owner) && WakeOk(reqs, slots, wakes)
    requires g < |reqs| && (reqs[g].io.stage.Half? || reqs[g].io.stage.Queued?)
    requires (r.io.stage.InKernel? || r.io.stage.Queued?) && r == reqs[g].(io := reqs[g].io.(stage := r.io.stage))
    ensures ReqsOk(b, reqs[g := r]) && KeysOk(reqs[g := r])
    ensures OwnOk(reqs[g := r], slots, owner) && WakeOk(reqs[g := r], slots, wakes)
  {
    assert ReqOk(b, reqs[g]);
    assert ReqOk(b, r);
    FrameReqs(b, reqs, g, r);
    assert Occupies(reqs, owner, g);
    FrameIo(reqs, slots, owner, g, r);
    FrameWakeSame(reqs, slots, wakes, g, r);
  }

  lemma FrameWakeSame<D, O>(reqs: Reqs<D, O>, slots: Slots<D>, wakes: seq<Waker>, g: nat, r: Req<D, O>)
    requires g < |reqs| && r.key == reqs[g].key && r.use == reqs[g].use
    requires WakeOk(reqs, slots, wakes)
    ensures WakeOk(reqs[g := r], slots, wakes)
  {
  }

  /** One more completion extends the stream the kernel owes. */
  lemma PostedOk<D, O>(b: Behaviour<D, O>, r: Req<D, O>, c: Cqe, r': Req<D, O>)
    requires ReqOk(b, r) && r.io.stage.InKernel? && (More(c) ==> r.multi)
    requires r' == r.(io := r.io.(posted := r.io.posted + [c], stage := if More(c) then InKernel else Finished))
    ensures ReqOk(b, r')
  {
    var u := r.use;
    assert r'.io.posted[..u.cons] == r.io.posted[..u.cons];
    assert !Ended(r.io.posted);
    assert AllMore(r.io.posted);
  }

  lemma StepPost<D, O>(b: Behaviour<D, O>, s: Core<D, O>, g: nat, c: Cqe)
    requires Inv(b, s)
    requires g < |s.reqs| && s.reqs[g].io.stage.InKernel? && (More(c) ==> s.reqs[g].multi)
    ensures Inv(b, PostFor(s, g, c))
  {
    var io := s.reqs[g].io;
    var r := s.reqs[g].(io := io.(posted := io.posted + [c], stage := if More(c) then io.stage else Finished));
    PostMoves(b, s.reqs, s.slots, s.owner, s.wakes, g, c, r);
    SqPosted(s.reqs, s.sq, g, r);
    FramePending(s.reqs, g, r, s.pending);
    CqPost(s.reqs, s.cq, g, r, c);
  }

  lemma PostMoves<D, O>(b: Behaviour<D, O>, reqs: Reqs<D, O>, slots: Slots<D>, owner: map<nat, nat>,
                        wakes: seq<Waker>, g: nat, c: Cqe, r: Req<D, O>)
    requires ReqsOk(b, reqs) && KeysOk(reqs) && OwnOk(reqs, slots, owner) && WakeOk(reqs, slots, wakes)
    requires g < |reqs| && reqs[g].io.stage.InKernel? && (More(c) ==> reqs[g].multi)
    requires var stage := if More(c) then InKernel else Finished;
      r == reqs[g].(io := reqs[g].io.(posted := reqs[g].io.posted + [c], stage := stage))
    ensures ReqsOk(b, reqs[g := r]) && KeysOk(reqs[g := r])
    ensures OwnOk(reqs[g := r], slots, owner) && WakeOk(reqs[g := r], slots, wakes)
  {
    assert ReqOk(b, reqs[g]);
    PostedOk(b, reqs[g], c, r);
    FrameReqs(b, reqs, g, r);
    assert Occupies(reqs, owner, g);
    PostedSlot(reqs[g], slots[r.key], r, c);
    FrameIo(reqs, slots, owner, g, r);
    FrameWakeSame(reqs, slots, wakes, g, r);
  }

  /** A slot does not notice a completion that is not dispatched yet. */
  lemma PostedSlot<D, O>(r: Req<D, O>, life: Life<D>, r': Req<D, O>, c: Cqe)
    requires SlotOk(r, life) && r.io.stage.InKernel? && r.io.disp <= |r.io.posted|
    requires r'.use == r.use && r'.multi == r.multi
    requires r'.io.posted == r.io.posted + [c] && r'.io.disp == r.io.disp
    ensures SlotOk(r', life)
  {
  }

  lemma SqPosted<D, O>(reqs: Reqs<D, O>, sq: seq<Sqe>, g: nat, r: Req<D, O>)
    requires SqOk(reqs, sq) && CancelOk(reqs, sq)
    requires g < |reqs| && reqs[g].io.stage.InKernel? && r.key == reqs[g].key
    requires r.io.stage.InKernel? || r.io.stage.Finished?
    ensures SqOk(reqs[g := r], sq) && CancelOk(reqs[g := r], sq)
  {
  }

  // ---- Submission and cancellation ----

  lemma StepInsert<D, O>(b: Behaviour<D, O>, s: Core<D, O>, key: nat, multi: bool, fd: Option<nat>,
                         closes: Option<nat>, init: D)
    requires Inv(b, s) && key !in s.slots && key < USIZE_MAX && !s.pending.Cancelling?
    ensures Inv(b, InsertReq(s, Fresh(key, multi, fd, closes, init)))
  {
    var r: Req<D, O> := Fresh(key, multi, fd, closes, init);
    FreshOk(b, s.reqs, r, key, multi, fd, closes, init);
    InsertOwn(s.reqs, s.slots, s.owner, r);
    InsertWake(s.reqs, s.slots, s.owner, s.wakes, r);
    InsertQueues(s.reqs, s.sq, s.cq, r);
    InsertPending(s.reqs, s.pending, r);
  }

  lemma FreshOk<D, O>(b: Behaviour<D, O>, reqs: Reqs<D, O>, r: Req<D, O>, key: nat, multi: bool, fd: Option<nat>,
                      closes: Option<nat>, init: D)
    requires ReqsOk(b, reqs) && KeysOk(reqs) && key < USIZE_MAX && r == Fresh(key, multi, fd, closes, init)
    ensures ReqsOk(b, reqs + [r]) && KeysOk(reqs + [r]) && SlotOk(r, Submitted)
  {
  }

  lemma InsertOwn<D, O>(reqs: Reqs<D, O>, slots: Slots<D>, owner: map<nat, nat>, r: Req<D, O>)
    requires OwnOk(reqs, slots, owner) && r.key !in slots && r.key < USIZE_MAX
    requires r.use.holder.Held? && SlotOk(r, Submitted)
    ensures OwnOk(reqs + [r], slots[r.key := Submitted], owner[r.key := |reqs|])
  {
  }

  lemma InsertWake<D, O>(reqs: Reqs<D, O>, slots: Slots<D>, owner: map<nat, nat>, wakes: seq<Waker>, r: Req<D, O>)
    requires OwnOk(reqs, slots, owner) && WakeOk(reqs, slots, wakes) && r.key !in slots && r.use.armed.None?
    ensures WakeOk(reqs + [r], slots[r.key := Submitted], wakes)
  {
  }

  lemma InsertQueues<D, O>(reqs: Reqs<D, O>, sq: seq<Sqe>, cq: seq<Post>, r: Req<D, O>)
    requires SqOk(reqs, sq) && CancelOk(reqs, sq) && CqOk(reqs, cq)
    requires r.io == Io(Half, [], 0)
    ensures SqOk(reqs + [r], sq) && CancelOk(reqs + [r], sq) && CqOk(reqs + [r], cq)
  {
    var reqs' := reqs + [r];
    forall h | 0 <= h < |reqs'| && reqs'[h].io.stage.Queued?
      ensures OpSqe(reqs'[h].key, h) in sq
    {
      assert reqs[h].io.stage.Queued?;
    }
    NoPosts(cq, |reqs|);
  }

  lemma {:induction false} NoPosts(cq: seq<Post>, g: nat)
    requires forall i :: 0 <= i < |cq| && cq[i].userData != USIZE_MAX ==> cq[i].gen < g
    ensures PostsOf(cq, g) == []
    decreases |cq|
  {
    if cq != [] {
      NoPosts(cq[1..], g);
    }
  }

  lemma InsertPending<D, O>(reqs: Reqs<D, O>, p: Pending, r: Req<D, O>)
    requires PendingOk(reqs, p) && !p.Cancelling? && r.io.stage.Half?
    ensures PendingOk(reqs + [r], Submitting((if p.Submitting? then p.gens else []) + [|reqs|]))
  {
  }

  lemma StepPush<D, O>(b: Behaviour<D, O>, s: Core<D, O>)
    requires Inv(b, s) && s.pending.Submitting? && s.pending.gens != []
    ensures Inv(b, PushReq(s))
  {
    var g := s.pending.gens[0];
    var r := s.reqs[g].(io := s.reqs[g].io.(stage := Queued));
    assert g in s.pending.gens;
    StageMoves(b, s.reqs, s.slots, s.owner, s.wakes, g, r);
    SqPushOp(s.reqs, s.sq, g, r);
    PushPending(s.reqs, s.pending, r);
    FrameCq(s.reqs, g, r, s.cq);
  }

  lemma PushPending<D, O>(reqs: Reqs<D, O>, p: Pending, r: Req<D, O>)
    requires PendingOk(reqs, p) && p.Submitting? && p.gens != [] && r.io.stage.Queued?
    ensures PendingOk(reqs[p.gens[0] := r], if p.gens[1..] == [] then Idle else Submitting(p.gens[1..]))
  {
  }

  lemma StepCancelPush<D, O>(b: Behaviour<D, O>, s: Core<D, O>)
    requires Inv(b, s) && s.pending.Cancelling?
    ensures s.pending.gen < |s.reqs|
    ensures Inv(b, s.(sq := s.sq + [CancelSqe(s.reqs[s.pending.gen].key, s.pending.gen)], pending := Idle))
  {
    Alone(b, s.reqs, s.slots, s.owner, s.pending.gen);
    SqPushCancel(s.reqs, s.sq, s.pending.gen);
  }

  // ---- Dispatch ----

  /** The generation after one more of its completions is dispatched. */
  function Received<D, O>(r: Req<D, O>, freed: bool): Req<D, O> {
    r.(io := r.io.(disp := r.io.disp + 1), use := if freed then r.use.(holder := Gone) else r.use)
  }

  /** What `Lifecycle::complete` does to the slot is right for the generation,
      and the "invalid operation state" arm is dead. */
  lemma CompleteLife<D, O>(b: Behaviour<D, O>, r: Req<D, O>, life: Life<D>)
    requires ReqOk(b, r) && SlotOk(r, life) && r.io.disp < |r.io.posted|
    ensures Complete(life, r.io.posted[r.io.disp]).Done?
    ensures var e := Complete(life, r.io.posted[r.io.disp]).value;
      && ReqOk(b, Received(r, e.free)) && (!e.free ==> SlotOk(Received(r, false), e.life))
      && (e.free <==> Received(r, e.free).use.holder.Gone?)
      && (e.free ==> r.use.holder.Boxed?)
  {
    var io, c := r.io, r.io.posted[r.io.disp];
    if !More(c) {
      assert io.disp == |io.posted| - 1;
    } else {
      assert io.disp + 1 == |io.posted| ==> !Ended(io.posted);
    }
    if life.CompletionList? {
      assert io.posted[r.use.cons..io.disp] + [c] == io.posted[r.use.cons..io.disp + 1];
    } else if life.Submitted? || life.Waiting? {
      OneSlice(io.posted, io.disp);
    }
  }

  lemma OneSlice(cs: seq<Cqe>, i: nat)
    requires i < |cs|
    ensures cs[i..i + 1] == [cs[i]]
  {
  }

  /** A dispatched completion reaches the generation that submitted it. */
  lemma HeadOwner<D, O>(b: Behaviour<D, O>, reqs: Reqs<D, O>, slots: Slots<D>, owner: map<nat, nat>, cq: seq<Post>)
    requires ReqsOk(b, reqs) && OwnOk(reqs, slots, owner) && CqOk(reqs, cq)
    requires cq != [] && cq[0].userData != USIZE_MAX
    ensures cq[0].userData in slots && cq[0].userData in owner && owner[cq[0].userData] == cq[0].gen
    ensures cq[0].gen < |reqs| && cq[0].userData == reqs[cq[0].gen].key
    ensures reqs[cq[0].gen].io.disp < |reqs[cq[0].gen].io.posted|
    ensures cq[0].cqe == reqs[cq[0].gen].io.posted[reqs[cq[0].gen].io.disp]
    ensures SlotOk(reqs[cq[0].gen], slots[cq[0].userData])
  {
  }

  lemma DispatchMoves<D, O>(b: Behaviour<D, O>, reqs: Reqs<D, O>, slots: Slots<D>, owner: map<nat, nat>, g: nat,
                            e: Completion<D>)
    requires ReqsOk(b, reqs) && KeysOk(reqs) && OwnOk(reqs, slots, owner) && g < |reqs| && Occupies(reqs, owner, g)
    requires ReqOk(b, Received(reqs[g], e.free)) && (e.free <==> Received(reqs[g], e.free).use.holder.Gone?)
    requires !e.free ==> SlotOk(Received(reqs[g], false), e.life)
    ensures var r := Received(reqs[g], e.free);
      && ReqsOk(b, reqs[g := r]) && KeysOk(reqs[g := r])
      && (if e.free then OwnOk(reqs[g := r], slots - {r.key}, owner - {r.key})
          else OwnOk(reqs[g := r], slots[r.key := e.life], owner))
  {
    var r := Received(reqs[g], e.free);
    FrameReqs(b, reqs, g, r);
    if e.free {
      FrameFree(reqs, slots, owner, g, r);
    } else {
      FrameOwn(reqs, slots, owner, g, r, e.life);
    }
  }

  lemma DispatchWakes<D, O>(reqs: Reqs<D, O>, slots: Slots<D>, owner: map<nat, nat>, wakes: seq<Waker>, g: nat,
                            c: Cqe, r: Req<D, O>)
    requires g < |reqs| && OwnOk(reqs, slots, owner) && Occupies(reqs, owner, g) && WakeOk(reqs, slots, wakes)
    requires Complete(slots[reqs[g].key], c).Done?
    requires r == Received(reqs[g], Complete(slots[reqs[g].key], c).value.free)
    ensures var e := Complete(slots[reqs[g].key], c).value;
      WakeOk(reqs[g := r], if e.free then slots - {r.key} else slots[r.key := e.life], wakes + Wakes(e.wake))
  {
    var e := Complete(slots[r.key], c).value;
    var slots' := if e.free then slots - {r.key} else slots[r.key := e.life];
    assert ArmedOk(reqs[g], slots, wakes);
    if r.use.holder.Held? && r.use.armed.Some? {
      WokenStays(wakes, Wakes(e.wake), r.use.armed.value);
    }
    FrameWake(reqs, slots, owner, wakes, g, r, slots', Wakes(e.wake));
  }

  lemma StepDispatch<D, O>(b: Behaviour<D, O>, s: Core<D, O>)
    requires Inv(b, s) && s.cq != []
    ensures DispatchHead(s).Done? && Inv(b, DispatchHead(s).value)
  {
    var p := s.cq[0];
    if p.userData == USIZE_MAX {
      CqSkip(s.reqs, s.cq);
      assert s.wakes + [] == s.wakes;
    } else {
      HeadOwner(b, s.reqs, s.slots, s.owner, s.cq);
      var g := p.gen;
      assert ReqOk(b, s.reqs[g]);
      CompleteLife(b, s.reqs[g], s.slots[p.userData]);
      var e := Complete(s.slots[p.userData], p.cqe).value;
      DispatchHeadIs(s, e);
      DeliveredOk(b, s, e);
    }
  }

  /** The state after the head of the completion queue went to its generation. */
  function Delivered<D, O>(s: Core<D, O>, e: Completion<D>): Core<D, O>
    requires s.cq != [] && s.cq[0].gen < |s.reqs|
  {
    var key, g := s.cq[0].userData, s.cq[0].gen;
    Core(if e.free then s.slots - {key} else s.slots[key := e.life],
         if e.free then s.owner - {key} else s.owner,
         s.reqs[g := Received(s.reqs[g], e.free)],
         s.sq, s.cq[1..], s.pending, s.wakes + Wakes(e.wake), s.routed + [(g, g)], s.hits)
  }

  lemma DispatchHeadIs<D, O>(s: Core<D, O>, e: Completion<D>)
    requires s.cq != [] && s.cq[0].userData != USIZE_MAX && s.cq[0].gen < |s.reqs|
    requires s.cq[0].userData in s.slots && s.cq[0].userData in s.owner && s.owner[s.cq[0].userData] == s.cq[0].gen
    requires Complete(s.slots[s.cq[0].userData], s.cq[0].cqe) == Done(e)
    ensures DispatchHead(s) == Done(Delivered(s, e))
  {
  }

  /** What `CompleteLife` gives, for the head of the completion queue. */
  ghost predicate Delivers<D, O>(b: Behaviour<D, O>, s: Core<D, O>, e: Completion<D>) {
    && s.cq != [] && s.cq[0].userData != USIZE_MAX && s.cq[0].gen < |s.reqs|
    && Occupies(s.reqs, s.owner, s.cq[0].gen) && s.cq[0].userData in s.slots
    && s.cq[0].userData == s.reqs[s.cq[0].gen].key
    && Complete(s.slots[s.cq[0].userData], s.cq[0].cqe) == Done(e)
    && var r := s.reqs[s.cq[0].gen];
    && r.io.disp < |r.io.posted|
    && ReqOk(b, Received(r, e.free))
    && (e.free <==> Received(r, e.free).use.holder.Gone?)
    && (e.free ==> r.use.holder.Boxed?)
    && (!e.free ==> SlotOk(Received(r, false), e.life))
  }

  lemma DeliveredOwn<D, O>(b: Behaviour<D, O>, s: Core<D, O>, e: Completion<D>)
    requires Delivers(b, s, e) && ReqsOk(b, s.reqs) && KeysOk(s.reqs) && OwnOk(s.reqs, s.slots, s.owner)
    ensures var t := Delivered(s, e); ReqsOk(b, t.reqs) && KeysOk(t.reqs) && OwnOk(t.reqs, t.slots, t.owner)
  {
    DispatchMoves(b, s.reqs, s.slots, s.owner, s.cq[0].gen, e);
  }

  lemma DeliveredWake<D, O>(b: Behaviour<D, O>, s: Core<D, O>, e: Completion<D>)
    requires Delivers(b, s, e) && OwnOk(s.reqs, s.slots, s.owner) && WakeOk(s.reqs, s.slots, s.wakes)
    ensures var t := Delivered(s, e); WakeOk(t.reqs, t.slots, t.wakes)
  {
    var g := s.cq[0].gen;
    DispatchWakes(s.reqs, s.slots, s.owner, s.wakes, g, s.cq[0].cqe, Received(s.reqs[g], e.free));
  }

  lemma DeliveredQueues<D, O>(b: Behaviour<D, O>, s: Core<D, O>, e: Completion<D>)
    requires Delivers(b, s, e)
    requires SqOk(s.reqs, s.sq) && CancelOk(s.reqs, s.sq) && CqOk(s.reqs, s.cq) && PendingOk(s.reqs, s.pending)
    ensures var t := Delivered(s, e);
      SqOk(t.reqs, t.sq) && CancelOk(t.reqs, t.sq) && CqOk(t.reqs, t.cq) && PendingOk(t.reqs, t.pending)
  {
    DispatchQueues(s.reqs, s.sq, s.cq, s.pending, Received(s.reqs[s.cq[0].gen], e.free));
  }

  lemma DeliveredOk<D, O>(b: Behaviour<D, O>, s: Core<D, O>, e: Completion<D>)
    requires Inv(b, s) && Delivers(b, s, e)
    ensures Inv(b, Delivered(s, e))
  {
    DeliveredOwn(b, s, e);
    DeliveredWake(b, s, e);
    DeliveredQueues(b, s, e);
  }

  lemma DispatchQueues<D, O>(reqs: Reqs<D, O>, sq: seq<Sqe>, cq: seq<Post>, p: Pending, r: Req<D, O>)
    requires SqOk(reqs, sq) && CancelOk(reqs, sq) && CqOk(reqs, cq) && PendingOk(reqs, p)
    requires cq != [] && cq[0].userData != USIZE_MAX && cq[0].gen < |reqs|
    requires reqs[cq[0].gen].io.disp < |reqs[cq[0].gen].io.posted|
    requires r.key == reqs[cq[0].gen].key && r.io == reqs[cq[0].gen].io.(disp := reqs[cq[0].gen].io.disp + 1)
    requires reqs[cq[0].gen].use.holder.Held? ==> r.use.holder.Held?
    ensures SqOk(reqs[cq[0].gen := r], sq) && CancelOk(reqs[cq[0].gen := r], sq)
    ensures CqOk(reqs[cq[0].gen := r], cq[1..]) && PendingOk(reqs[cq[0].gen := r], p)
  {
    var g := cq[0].gen;
    FrameSq(reqs, g, r, sq);
    FramePending(reqs, g, r, p);
    CqPop(reqs, cq, r);
  }
}
