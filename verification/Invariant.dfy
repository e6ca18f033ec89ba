/** The inductive invariant of the protocol, in parts that each read only the
    components they speak about, with the frame lemma of each part. */
module Invariant {
  import opened Uring
  import opened Multishot
  import opened Lifecycle
  import opened Protocol

  // ---- One generation by itself ----

  /** The final completion has been dispatched. */
  predicate Settled(io: Io) {
    io.stage.Finished? && io.disp == |io.posted|
  }

  /** A run of completions with `more`, then exactly one without. */
  ghost predicate IoOk(multi: bool, io: Io) {
    && io.disp <= |io.posted|
    && (io.stage.Half? || io.stage.Queued? ==> io.posted == [])
    && Stream(io.posted)
    && (io.stage.Finished? <==> Ended(io.posted))
    && (!multi ==> |io.posted| <= 1 && (io.posted != [] ==> io.stage.Finished?))
  }

  /** The outputs returned and the data held are what the reference pass over
      the consumed completions gives. */
  ghost predicate UseOk<D, O>(b: Behaviour<D, O>, init: D, io: Io, u: Use<D, O>) {
    && u.cons <= io.disp <= |io.posted|
    && (!u.holder.Gone? ==> AllMore(io.posted[..u.cons])
                            && FeedAll(b, Acc([], init), io.posted[..u.cons]) == Acc(u.outs, u.holder.data))
    && (!u.ended ==> FeedAll(b, Acc([], init), io.posted[..u.cons]).outs == u.outs)
    && (u.holder.Gone? ==> Settled(io))
    && (u.holder.Boxed? ==> !Settled(io))
    && (u.ended ==> u.holder.Gone? && io.posted != [] && u.outs == Transcript(b, init, io.posted))
  }

  ghost predicate ReqOk<D, O>(b: Behaviour<D, O>, r: Req<D, O>) {
    IoOk(r.multi, r.io) && UseOk(b, r.init, r.io, r.use)
  }

  ghost predicate ReqsOk<D, O>(b: Behaviour<D, O>, reqs: Reqs<D, O>) {
    forall g :: 0 <= g < |reqs| ==> ReqOk(b, reqs[g])
  }

  // ---- A generation and the slot it owns ----

  ghost predicate SlotOk<D, O>(r: Req<D, O>, life: Life<D>) {
    var io, u := r.io, r.use;
    match life
    case Submitted => u.holder.Held? && !Settled(io) && u.cons == io.disp
    case Waiting(_) => u.holder.Held? && !Settled(io) && u.cons == io.disp
    case Ignored(d) => u.holder == Boxed(d)
    case Completed(c) => u.holder.Held? && Settled(io) && u.cons == |io.posted| - 1 && c == io.posted[u.cons]
    case CompletionList(l) =>
      u.holder.Held? && r.multi && u.cons < io.disp <= |io.posted| && l == io.posted[u.cons..io.disp]
  }

  predicate Occupies<D, O>(reqs: Reqs<D, O>, owner: map<nat, nat>, g: nat)
    requires g < |reqs|
  {
    reqs[g].key in owner && owner[reqs[g].key] == g
  }

  /** Exactly the generations whose data is not released own a slot, and the
      slot says what has been dispatched and not consumed. */
  ghost predicate OwnOk<D, O>(reqs: Reqs<D, O>, slots: Slots<D>, owner: map<nat, nat>) {
    && owner.Keys == slots.Keys
    && (forall k :: k in owner ==> owner[k] < |reqs| && reqs[owner[k]].key == k && k < USIZE_MAX)
    && (forall g :: 0 <= g < |reqs| ==> (Occupies(reqs, owner, g) <==> !reqs[g].use.holder.Gone?))
    && (forall k :: k in owner ==> SlotOk(reqs[owner[k]], slots[k]))
  }

  /** The waker of the latest poll is in the slot or has been woken since. */
  ghost predicate WakeOk<D, O>(reqs: Reqs<D, O>, slots: Slots<D>, wakes: seq<Waker>) {
    forall g :: 0 <= g < |reqs| ==> ArmedOk(reqs[g], slots, wakes)
  }

  ghost predicate ArmedOk<D, O>(r: Req<D, O>, slots: Slots<D>, wakes: seq<Waker>) {
    r.use.holder.Held? && r.use.armed.Some? ==>
      var a := r.use.armed.value;
      && a.since <= |wakes|
      && r.key in slots
      && (slots[r.key] == Waiting(a.waker) || a.waker in wakes[a.since..])
  }

  // ---- The queues ----

  /** Every queued submission entry names its generation's key, and the queued
      generations are those in the queue, once each. */
  ghost predicate SqOk<D, O>(reqs: Reqs<D, O>, sq: seq<Sqe>) {
    && (forall i :: 0 <= i < |sq| && sq[i].OpSqe? ==>
          sq[i].gen < |reqs| && reqs[sq[i].gen].io.stage.Queued? && sq[i].userData == reqs[sq[i].gen].key)
    && (forall i, j :: 0 <= i < j < |sq| && sq[i].OpSqe? && sq[j].OpSqe? ==> sq[i].gen != sq[j].gen)
    && (forall g :: 0 <= g < |reqs| && reqs[g].io.stage.Queued? ==> OpSqe(reqs[g].key, g) in sq)
  }

  /** A cancel in the queue cannot meet another generation with its key: such
      a generation is not in the kernel and not ahead of the cancel. */
  ghost predicate CancelOk<D, O>(reqs: Reqs<D, O>, sq: seq<Sqe>) {
    && CancelAlone(reqs, sq)
    && forall i :: 0 <= i < |sq| && sq[i].CancelSqe? ==> CancelNames(reqs, sq, i)
  }

  ghost predicate CancelAlone<D, O>(reqs: Reqs<D, O>, sq: seq<Sqe>) {
    forall i :: 0 <= i < |sq| && sq[i].CancelSqe? ==>
      && (forall h :: 0 <= h < |reqs| && reqs[h].io.stage.InKernel? && reqs[h].key == sq[i].target ==> h == sq[i].gen)
      && (forall j :: 0 <= j < i && sq[j].OpSqe? && sq[j].userData == sq[i].target ==> sq[j].gen == sq[i].gen)
  }

  /** A cancel in the queue names the key of its own generation, which was pushed
      before it. */
  ghost predicate CancelNames<D, O>(reqs: Reqs<D, O>, sq: seq<Sqe>, i: nat)
    requires i < |sq| && sq[i].CancelSqe?
  {
    && sq[i].gen < |reqs| && sq[i].target == reqs[sq[i].gen].key && !reqs[sq[i].gen].io.stage.Half?
    && (reqs[sq[i].gen].io.stage.Queued? ==> exists j :: 0 <= j < i && sq[j] == OpSqe(sq[i].target, sq[i].gen))
  }

  ghost predicate PendingOk<D, O>(reqs: Reqs<D, O>, p: Pending) {
    match p
    case Idle => forall g :: 0 <= g < |reqs| ==> !reqs[g].io.stage.Half?
    case Submitting(gens) =>
      && (forall i, j :: 0 <= i < j < |gens| ==> gens[i] != gens[j])
      && (forall g :: 0 <= g < |reqs| ==> (reqs[g].io.stage.Half? <==> g in gens))
      && (forall i :: 0 <= i < |gens| ==> gens[i] < |reqs|)
    case Cancelling(c) =>
      && c < |reqs| && reqs[c].use.holder.Held?
      && forall g :: 0 <= g < |reqs| ==> !reqs[g].io.stage.Half?
  }

  /** The completions of one generation waiting in the completion queue. */
  function PostsOf(cq: seq<Post>, g: nat): seq<Cqe> {
    if cq == [] then []
    else (if cq[0].userData != USIZE_MAX && cq[0].gen == g then [cq[0].cqe] else []) + PostsOf(cq[1..], g)
  }

  /** The completion queue holds, per generation and in order, exactly what was
      posted and not yet dispatched, under that generation's key. */
  ghost predicate CqOk<D, O>(reqs: Reqs<D, O>, cq: seq<Post>) {
    && (forall i :: 0 <= i < |cq| && cq[i].userData != USIZE_MAX ==>
          cq[i].gen < |reqs| && cq[i].userData == reqs[cq[i].gen].key)
    && (forall g :: 0 <= g < |reqs| ==>
          reqs[g].io.disp <= |reqs[g].io.posted| && PostsOf(cq, g) == reqs[g].io.posted[reqs[g].io.disp..])
  }

  ghost predicate KeysOk<D, O>(reqs: Reqs<D, O>) {
    forall g :: 0 <= g < |reqs| ==> reqs[g].key < USIZE_MAX
  }

  ghost predicate Diagonal(ps: seq<(nat, nat)>) {
    forall i :: 0 <= i < |ps| ==> ps[i].0 == ps[i].1
  }

  ghost predicate Inv<D, O>(b: Behaviour<D, O>, s: Core<D, O>) {
    && ReqsOk(b, s.reqs)
    && KeysOk(s.reqs)
    && OwnOk(s.reqs, s.slots, s.owner)
    && WakeOk(s.reqs, s.slots, s.wakes)
    && SqOk(s.reqs, s.sq)
    && CancelOk(s.reqs, s.sq)
    && PendingOk(s.reqs, s.pending)
    && CqOk(s.reqs, s.cq)
    && Diagonal(s.routed)
    && Diagonal(s.hits)
  }

  // ---- Frames: the parts that a change of one generation leaves alone ----

  /** A change of the caller's side only. */
  lemma FrameUse<D, O>(reqs: Reqs<D, O>, g: nat, r: Req<D, O>, sq: seq<Sqe>, cq: seq<Post>)
    requires g < |reqs| && r.key == reqs[g].key && r.io == reqs[g].io
    requires SqOk(reqs, sq) && CancelOk(reqs, sq) && CqOk(reqs, cq) && KeysOk(reqs)
    ensures SqOk(reqs[g := r], sq) && CancelOk(reqs[g := r], sq) && CqOk(reqs[g := r], cq) && KeysOk(reqs[g := r])
  {
    FrameSq(reqs, g, r, sq);
    FrameCqIo(reqs, g, r, cq);
  }

  lemma FrameCqIo<D, O>(reqs: Reqs<D, O>, g: nat, r: Req<D, O>, cq: seq<Post>)
    requires g < |reqs| && r.key == reqs[g].key && r.io == reqs[g].io && CqOk(reqs, cq)
    ensures CqOk(reqs[g := r], cq)
  {
  }

  /** A change that keeps the stage. */
  lemma FrameSq<D, O>(reqs: Reqs<D, O>, g: nat, r: Req<D, O>, sq: seq<Sqe>)
    requires g < |reqs| && r.key == reqs[g].key && r.io.stage == reqs[g].io.stage
    requires SqOk(reqs, sq) && CancelOk(reqs, sq)
    ensures SqOk(reqs[g := r], sq) && CancelOk(reqs[g := r], sq)
  {
  }

  lemma FramePending<D, O>(reqs: Reqs<D, O>, g: nat, r: Req<D, O>, p: Pending)
    requires g < |reqs| && (r.io.stage.Half? <==> reqs[g].io.stage.Half?)
    requires PendingOk(reqs, p)
    requires p.Cancelling? && p.gen == g ==> r.use.holder.Held?
    ensures PendingOk(reqs[g := r], p)
  {
  }

  lemma FrameReqs<D, O>(b: Behaviour<D, O>, reqs: Reqs<D, O>, g: nat, r: Req<D, O>)
    requires g < |reqs| && ReqsOk(b, reqs) && ReqOk(b, r)
    ensures ReqsOk(b, reqs[g := r])
  {
  }

  /** A change of one generation and of the slot it owns and keeps. */
  lemma FrameOwn<D, O>(reqs: Reqs<D, O>, slots: Slots<D>, owner: map<nat, nat>, g: nat, r: Req<D, O>, life: Life<D>)
    requires g < |reqs| && r.key == reqs[g].key
    requires OwnOk(reqs, slots, owner) && Occupies(reqs, owner, g)
    requires !r.use.holder.Gone? && SlotOk(r, life)
    ensures OwnOk(reqs[g := r], slots[r.key := life], owner)
  {
  }

  /** A generation gives up its slot. */
  lemma FrameFree<D, O>(reqs: Reqs<D, O>, slots: Slots<D>, owner: map<nat, nat>, g: nat, r: Req<D, O>)
    requires g < |reqs| && r.key == reqs[g].key
    requires OwnOk(reqs, slots, owner) && Occupies(reqs, owner, g)
    requires r.use.holder.Gone?
    ensures OwnOk(reqs[g := r], slots - {r.key}, owner - {r.key})
  {
  }

  /** A change of one generation's kernel side that its slot does not notice. */
  lemma FrameIo<D, O>(reqs: Reqs<D, O>, slots: Slots<D>, owner: map<nat, nat>, g: nat, r: Req<D, O>)
    requires g < |reqs| && r.key == reqs[g].key && r.use == reqs[g].use
    requires OwnOk(reqs, slots, owner)
    requires Occupies(reqs, owner, g) ==> SlotOk(r, slots[r.key])
    ensures OwnOk(reqs[g := r], slots, owner)
  {
  }

  /** Wakers stay armed or woken when the log grows, other slots stay, and the
      generation `g` is fine by itself. */
  lemma FrameWake<D, O>(reqs: Reqs<D, O>, slots: Slots<D>, owner: map<nat, nat>, wakes: seq<Waker>,
                        g: nat, r: Req<D, O>, slots': Slots<D>, more: seq<Waker>)
    requires g < |reqs| && r.key == reqs[g].key
    requires OwnOk(reqs, slots, owner) && Occupies(reqs, owner, g) && WakeOk(reqs, slots, wakes)
    requires forall k :: k in slots && k != r.key ==> k in slots' && slots'[k] == slots[k]
    requires ArmedOk(r, slots', wakes + more)
    ensures WakeOk(reqs[g := r], slots', wakes + more)
  {
    var reqs' := reqs[g := r];
    forall h | 0 <= h < |reqs'| ensures ArmedOk(reqs'[h], slots', wakes + more) {
      if h != g && reqs[h].use.holder.Held? && reqs[h].use.armed.Some? {
        var a := reqs[h].use.armed.value;
        assert ArmedOk(reqs[h], slots, wakes);
        assert Occupies(reqs, owner, h);
        assert reqs[h].key != r.key;
        WokenStays(wakes, more, a);
      }
    }
  }

  lemma WokenStays(wakes: seq<Waker>, more: seq<Waker>, a: Armed)
    requires a.since <= |wakes|
    ensures a.waker in wakes[a.since..] ==> a.waker in (wakes + more)[a.since..]
    ensures a.waker in more ==> a.waker in (wakes + more)[a.since..]
  {
    assert (wakes + more)[a.since..] == wakes[a.since..] + more;
  }
}
