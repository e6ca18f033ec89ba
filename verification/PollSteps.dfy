/** Polling and dropping an operation keep the invariant and panic nowhere. */
module PollSteps {
  import opened Uring
  import opened Multishot
  import opened Lifecycle
  import opened Protocol
  import opened Invariant

  /** The new caller's side and the new slot of a polled generation fit. */
  ghost predicate PollFits<D, O>(b: Behaviour<D, O>, r: Req<D, O>, slots: Slots<D>, p: Polled<D, O>, u: Use<D, O>) {
    && ReqOk(b, r.(use := u))
    && (u.holder.Gone? || u.holder.Held?)
    && (u.holder.Gone? ==> p.slots == slots - {r.key})
    && (u.holder.Held? ==>
      r.key in p.slots && p.slots == slots[r.key := p.slots[r.key]] && SlotOk(r.(use := u), p.slots[r.key]))
  }

  /** The latest poll's waker is in the slot, or the poll woke its own task. */
  ghost predicate PollArms<D, O>(r: Req<D, O>, p: Polled<D, O>, u: Use<D, O>, w: Waker, now: nat) {
    u.holder.Held? ==>
      r.key in p.slots && u.armed == Some(Armed(w, now)) && (p.slots[r.key] == Waiting(w) || p.wokeSelf)
  }

  /** What holds of an unfinished operation that owns its slot. */
  ghost predicate Ready<D, O>(b: Behaviour<D, O>, r: Req<D, O>, slots: Slots<D>) {
    ReqOk(b, r) && r.use.holder.Held? && r.key in slots && SlotOk(r, slots[r.key])
  }

  lemma PollPending<D, O>(b: Behaviour<D, O>, r: Req<D, O>, slots: Slots<D>, w: Waker, now: nat)
    requires Ready(b, r, slots) && (slots[r.key].Submitted? || slots[r.key].Waiting?)
    ensures var p := Polled(slots[r.key := Waiting(w)], Some(r.use.holder.data), None, 0, false);
      var u := UseAfter(r.use, p, w, now);
      PollFits(b, r, slots, p, u) && PollArms(r, p, u, w, now)
  {
  }

  /** Consuming the final completion returns the last part of the transcript. */
  lemma PollEnds<D, O>(b: Behaviour<D, O>, r: Req<D, O>, slots: Slots<D>, w: Waker, now: nat)
    requires Ready(b, r, slots) && slots[r.key].Completed?
    ensures var p := Polled(slots - {r.key}, None, Some(b.complete(r.use.holder.data, slots[r.key].cqe)), 1, false);
      var u := UseAfter(r.use, p, w, now);
      PollFits(b, r, slots, p, u)
  {
  }

  // ---- Draining a queued list ----

  ghost predicate Queue<D, O>(b: Behaviour<D, O>, r: Req<D, O>, l: seq<Cqe>) {
    && ReqOk(b, r) && r.use.holder.Held? && r.multi && r.use.cons < r.io.disp
    && l == r.io.posted[r.use.cons..r.io.disp]
  }

  /** Consuming the first `k` queued completions, which all carry `more`. */
  lemma ConsumeSome<D, O>(b: Behaviour<D, O>, r: Req<D, O>, l: seq<Cqe>, k: nat, outs: seq<O>, d: D,
                          armed: Option<Armed>)
    requires Queue(b, r, l) && 0 < k <= |l| && AllMore(l[..k])
    requires FeedAll(b, Acc(r.use.outs, r.use.holder.data), l[..k]) == Acc(outs, d)
    ensures ReqOk(b, r.(use := Use(r.use.cons + k, Held(d), outs, false, armed)))
    ensures k == |l| ==> !Settled(r.io)
  {
    FeedOn(b, Acc([], r.init), r.io.posted, r.use.cons, r.io.disp, l, k);
    if k == |l| {
      LastTaken(r.io.posted, r.use.cons, r.io.disp, l);
    }
  }

  /** The reference pass goes on over the next `k` completions. */
  lemma FeedOn<D, O>(b: Behaviour<D, O>, a: Acc<D, O>, cs: seq<Cqe>, n: nat, m: nat, l: seq<Cqe>, k: nat)
    requires n <= m <= |cs| && l == cs[n..m] && k <= |l|
    ensures FeedAll(b, a, cs[..n + k]) == FeedAll(b, FeedAll(b, a, cs[..n]), l[..k])
    ensures AllMore(cs[..n]) && AllMore(l[..k]) ==> AllMore(cs[..n + k])
  {
    assert cs[..n + k] == cs[..n] + l[..k];
    FeedAllConcat(b, a, cs[..n], l[..k]);
    if AllMore(cs[..n]) && AllMore(l[..k]) {
      MoreConcat(cs[..n], l[..k]);
    }
  }

  /** A stream of which only completions with `more` are taken has not ended. */
  lemma LastTaken(cs: seq<Cqe>, n: nat, m: nat, l: seq<Cqe>)
    requires n < m <= |cs| && l == cs[n..m] && AllMore(l[..|l|])
    ensures m == |cs| ==> !Ended(cs)
  {
    assert l[..|l|][|l| - 1] == cs[m - 1];
  }

  lemma MoreConcat(xs: seq<Cqe>, ys: seq<Cqe>)
    requires AllMore(xs) && AllMore(ys)
    ensures AllMore(xs + ys)
  {
  }

  /** Consuming `k` queued completions and then the final one. */
  lemma ConsumeFinal<D, O>(b: Behaviour<D, O>, r: Req<D, O>, l: seq<Cqe>, k: nat, o: O)
    requires Queue(b, r, l) && k < |l| && !More(l[k])
    requires var a := FeedAll(b, Acc(r.use.outs, r.use.holder.data), l[..k]);
      a.outs == r.use.outs && b.complete(a.data, l[k]) == o
    ensures k == |l| - 1
    ensures ReqOk(b, r.(use := Use(r.use.cons + k + 1, Gone, r.use.outs + [o], true, None)))
  {
    FinalIsLast(r.io.posted, r.use.cons + k);
    FeedOn(b, Acc([], r.init), r.io.posted, r.use.cons, r.io.disp, l, k);
  }

  lemma FinalIsLast(cs: seq<Cqe>, i: nat)
    requires Stream(cs) && i < |cs| && !More(cs[i])
    ensures i == |cs| - 1
  {
  }

  /** What stays queued, and the slot that shows it. */
  lemma RestSlot<D, O>(b: Behaviour<D, O>, r: Req<D, O>, l: seq<Cqe>, k: nat, u: Use<D, O>, w: Waker)
    requires Queue(b, r, l) && 0 < k <= |l| && (k == |l| ==> !Settled(r.io)) && u.holder.Held?
      && u.cons == r.use.cons + k
    ensures k < |l| ==> SlotOk(r.(use := u), CompletionList(l[k..]))
    ensures k == |l| ==> SlotOk(r.(use := u), Waiting(w))
  {
  }

  lemma PollExhausted<D, O>(b: Behaviour<D, O>, r: Req<D, O>, slots: Slots<D>, l: seq<Cqe>, d: D, w: Waker, now: nat)
    requires Queue(b, r, l) && r.key in slots && DrainMeans(b, r.use.outs, r.use.holder.data, l, Exhausted(d))
    ensures var p := AfterDrain(slots, r.key, w, |l|, Exhausted(d));
      var u := UseAfter(r.use, p, w, now);
      PollFits(b, r, slots, p, u) && PollArms(r, p, u, w, now)
  {
    assert l[..|l|] == l;
    ConsumeSome(b, r, l, |l|, r.use.outs, d, Some(Armed(w, now)));
    RestSlot(b, r, l, |l|, Use(r.use.cons + |l|, Held(d), r.use.outs, false, Some(Armed(w, now))), w);
  }

  lemma PollYields<D, O>(b: Behaviour<D, O>, r: Req<D, O>, slots: Slots<D>, l: seq<Cqe>, o: O, d: D, rest: seq<Cqe>,
                         w: Waker, now: nat)
    requires Queue(b, r, l) && r.key in slots && DrainMeans(b, r.use.outs, r.use.holder.data, l, Yielded(o, d, rest))
    ensures var p := AfterDrain(slots, r.key, w, |l|, Yielded(o, d, rest));
      var u := UseAfter(r.use, p, w, now);
      PollFits(b, r, slots, p, u) && PollArms(r, p, u, w, now)
  {
    var k := |l| - |rest|;
    var u := Use(r.use.cons + k, Held(d), r.use.outs + [o], false, Some(Armed(w, now)));
    ConsumeSome(b, r, l, k, r.use.outs + [o], d, Some(Armed(w, now)));
    RestSlot(b, r, l, k, u, w);
    YieldIs(r, slots, l, o, d, rest, w, now, u);
  }

  lemma YieldIs<D, O>(r: Req<D, O>, slots: Slots<D>, l: seq<Cqe>, o: O, d: D, rest: seq<Cqe>, w: Waker, now: nat,
                      u: Use<D, O>)
    requires |rest| < |l|
    requires u == Use(r.use.cons + (|l| - |rest|), Held(d), r.use.outs + [o], false, Some(Armed(w, now)))
    ensures var p := AfterDrain(slots, r.key, w, |l|, Yielded(o, d, rest));
      && UseAfter(r.use, p, w, now) == u && PollArms(r, p, u, w, now)
      && p.slots == slots[r.key := if rest == [] then Waiting(w) else CompletionList(rest)]
  {
  }

  lemma PollFinal<D, O>(b: Behaviour<D, O>, r: Req<D, O>, slots: Slots<D>, l: seq<Cqe>, o: O, rest: seq<Cqe>,
                        w: Waker, now: nat)
    requires Queue(b, r, l) && r.key in slots && DrainMeans(b, r.use.outs, r.use.holder.data, l, Final(o, rest))
    ensures var p := AfterDrain(slots, r.key, w, |l|, Final(o, rest));
      var u := UseAfter(r.use, p, w, now);
      PollFits(b, r, slots, p, u)
  {
    ConsumeFinal(b, r, l, |l| - |rest| - 1, o);
  }

  /** A pass over the queued list leaves the generation and its slot right. */
  lemma PollDrains<D, O>(b: Behaviour<D, O>, r: Req<D, O>, slots: Slots<D>, l: seq<Cqe>, w: Waker, now: nat)
    requires Queue(b, r, l) && r.key in slots
    ensures var p := AfterDrain(slots, r.key, w, |l|, Drain(b, r.use.holder.data, l));
      var u := UseAfter(r.use, p, w, now);
      PollFits(b, r, slots, p, u) && PollArms(r, p, u, w, now)
  {
    DrainIsFeed(b, r.use.outs, r.use.holder.data, l);
    match Drain(b, r.use.holder.data, l)
    case Exhausted(d) => PollExhausted(b, r, slots, l, d, w, now);
    case Yielded(o, d, rest) => PollYields(b, r, slots, l, o, d, rest, w, now);
    case Final(o, rest) => PollFinal(b, r, slots, l, o, rest, w, now);
  }

  // ---- The poll step ----

  /** Which of the two polls an operation uses. */
  function PollOf<D, O>(b: Behaviour<D, O>, r: Req<D, O>, slots: Slots<D>, d: D, w: Waker): Outcome<Polled<D, O>> {
    if r.multi then PollMulti(b, slots, r.key, d, w) else PollSingle(b, slots, r.key, d, w)
  }

  lemma PollDone<D, O>(b: Behaviour<D, O>, r: Req<D, O>, slots: Slots<D>, w: Waker, now: nat)
    requires Ready(b, r, slots)
    ensures PollOf(b, r, slots, r.use.holder.data, w).Done?
    ensures var p := PollOf(b, r, slots, r.use.holder.data, w).value;
      var u := UseAfter(r.use, p, w, now);
      PollFits(b, r, slots, p, u) && PollArms(r, p, u, w, now)
  {
    match slots[r.key]
    case Submitted => PollPending(b, r, slots, w, now);
    case Waiting(_) => PollPending(b, r, slots, w, now);
    case Completed(_) => PollEnds(b, r, slots, w, now);
    case CompletionList(l) => PollDrains(b, r, slots, l, w, now);
    case Ignored(_) =>
  }

  /** The state after a generation's caller's side and slot changed together. */
  function Used<D, O>(s: Core<D, O>, g: nat, slots: Slots<D>, u: Use<D, O>, more: seq<Waker>): Core<D, O>
    requires g < |s.reqs|
  {
    var key := s.reqs[g].key;
    s.(slots := slots,
       owner := if key in slots then s.owner else s.owner - {key},
       reqs := WithUse(s.reqs, g, u),
       wakes := s.wakes + more)
  }

  lemma UsedOwn<D, O>(b: Behaviour<D, O>, s: Core<D, O>, g: nat, slots: Slots<D>, u: Use<D, O>, more: seq<Waker>)
    requires ReqsOk(b, s.reqs) && OwnOk(s.reqs, s.slots, s.owner) && g < |s.reqs| && Occupies(s.reqs, s.owner, g)
    requires ReqOk(b, s.reqs[g].(use := u))
    requires u.holder.Gone? ==> slots == s.slots - {s.reqs[g].key}
    requires !u.holder.Gone? ==> s.reqs[g].key in slots && slots == s.slots[s.reqs[g].key := slots[s.reqs[g].key]]
                                 && SlotOk(s.reqs[g].(use := u), slots[s.reqs[g].key])
    ensures var t := Used(s, g, slots, u, more); ReqsOk(b, t.reqs) && OwnOk(t.reqs, t.slots, t.owner)
  {
    var r := s.reqs[g].(use := u);
    FrameReqs(b, s.reqs, g, r);
    if u.holder.Gone? {
      FrameFree(s.reqs, s.slots, s.owner, g, r);
    } else {
      FrameOwn(s.reqs, s.slots, s.owner, g, r, slots[r.key]);
    }
  }

  /** Only the slot `key` is changed or freed. */
  ghost predicate OneSlot<D>(before: Slots<D>, after: Slots<D>, key: nat) {
    after == before - {key} || (key in after && after == before[key := after[key]])
  }

  lemma UsedWake<D, O>(s: Core<D, O>, g: nat, slots: Slots<D>, u: Use<D, O>, more: seq<Waker>)
    requires OwnOk(s.reqs, s.slots, s.owner) && WakeOk(s.reqs, s.slots, s.wakes) && g < |s.reqs|
      && Occupies(s.reqs, s.owner, g)
    requires OneSlot(s.slots, slots, s.reqs[g].key)
    requires ArmedOk(s.reqs[g].(use := u), slots, s.wakes + more)
    ensures var t := Used(s, g, slots, u, more); WakeOk(t.reqs, t.slots, t.wakes)
  {
    FrameWake(s.reqs, s.slots, s.owner, s.wakes, g, s.reqs[g].(use := u), slots, more);
  }

  lemma UsedQueues<D, O>(s: Core<D, O>, g: nat, u: Use<D, O>)
    requires SqOk(s.reqs, s.sq) && CancelOk(s.reqs, s.sq) && CqOk(s.reqs, s.cq) && KeysOk(s.reqs)
    requires PendingOk(s.reqs, s.pending) && s.pending.Idle? && g < |s.reqs|
    ensures var reqs := WithUse(s.reqs, g, u);
      SqOk(reqs, s.sq) && CancelOk(reqs, s.sq) && CqOk(reqs, s.cq) && KeysOk(reqs) && PendingOk(reqs, s.pending)
  {
    FrameUse(s.reqs, g, s.reqs[g].(use := u), s.sq, s.cq);
    FramePending(s.reqs, g, s.reqs[g].(use := u), s.pending);
  }

  lemma ReadyOp<D, O>(b: Behaviour<D, O>, s: Core<D, O>, g: nat)
    requires Inv(b, s) && Unfinished(s.reqs, g)
    ensures Ready(b, s.reqs[g], s.slots) && Occupies(s.reqs, s.owner, g)
  {
  }

  lemma StepPoll<D, O>(b: Behaviour<D, O>, s: Core<D, O>, g: nat, w: Waker)
    requires Inv(b, s) && s.pending.Idle? && Unfinished(s.reqs, g)
    ensures PollReq(b, s, g, w).Done? && Inv(b, PollReq(b, s, g, w).value)
  {
    ReadyOp(b, s, g);
    var r := s.reqs[g];
    PollDone(b, r, s.slots, w, |s.wakes|);
    var p := PollOf(b, r, s.slots, r.use.holder.data, w).value;
    var u := UseAfter(r.use, p, w, |s.wakes|);
    var more := if p.wokeSelf then [w] else [];
    PollIs(b, s, g, w, p);
    PolledOk(b, s, g, w, p, u, more);
  }

  lemma PollIs<D, O>(b: Behaviour<D, O>, s: Core<D, O>, g: nat, w: Waker, p: Polled<D, O>)
    requires Unfinished(s.reqs, g) && PollOf(b, s.reqs[g], s.slots, s.reqs[g].use.holder.data, w) == Done(p)
    ensures PollReq(b, s, g, w) ==
      Done(Used(s, g, p.slots, UseAfter(s.reqs[g].use, p, w, |s.wakes|), if p.wokeSelf then [w] else []))
  {
    assert s.wakes + [] == s.wakes;
  }

  lemma PolledOk<D, O>(b: Behaviour<D, O>, s: Core<D, O>, g: nat, w: Waker, p: Polled<D, O>, u: Use<D, O>,
                       more: seq<Waker>)
    requires Inv(b, s) && s.pending.Idle? && g < |s.reqs| && Occupies(s.reqs, s.owner, g)
    requires PollFits(b, s.reqs[g], s.slots, p, u) && PollArms(s.reqs[g], p, u, w, |s.wakes|)
    requires more == if p.wokeSelf then [w] else []
    ensures Inv(b, Used(s, g, p.slots, u, more))
  {
    UsedOwn(b, s, g, p.slots, u, more);
    PolledArmed(s.reqs[g], p, u, w, s.wakes, more);
    UsedWake(s, g, p.slots, u, more);
    UsedQueues(s, g, u);
  }

  lemma PolledArmed<D, O>(r: Req<D, O>, p: Polled<D, O>, u: Use<D, O>, w: Waker, wakes: seq<Waker>, more: seq<Waker>)
    requires PollArms(r, p, u, w, |wakes|) && more == if p.wokeSelf then [w] else []
    ensures ArmedOk(r.(use := u), p.slots, wakes + more)
  {
  }

  // ---- The drop step ----

  /** Dropping an unfinished operation: its data moves into the slot exactly
      when its final completion is still to be dispatched. */
  lemma RemoveDone<D, O>(b: Behaviour<D, O>, r: Req<D, O>, slots: Slots<D>)
    requires Ready(b, r, slots)
    ensures Remove(slots, r.key, r.use.holder.data).Done?
    ensures var e := Remove(slots, r.key, r.use.holder.data).value;
      && (e.boxed <==> !Settled(r.io))
      && e.slots == (if e.boxed then slots[r.key := Ignored(r.use.holder.data)] else slots - {r.key})
      && ReqOk(b, r.(use := r.use.(holder := if e.boxed then Boxed(r.use.holder.data) else Gone)))
  {
  }

  lemma StepDrop<D, O>(b: Behaviour<D, O>, s: Core<D, O>, g: nat)
    requires Inv(b, s) && s.pending.Idle? && Unfinished(s.reqs, g)
    ensures DropReq(s, g).Done? && Inv(b, DropReq(s, g).value)
  {
    ReadyOp(b, s, g);
    var r := s.reqs[g];
    var d := r.use.holder.data;
    RemoveDone(b, r, s.slots);
    var e := Remove(s.slots, r.key, d).value;
    var u := r.use.(holder := if e.boxed then Boxed(d) else Gone);
    assert DropReq(s, g).value == Used(s, g, e.slots, u, []) by {
      assert s.wakes + [] == s.wakes;
    }
    DroppedOk(b, s, g, e, u);
  }

  lemma DroppedOk<D, O>(b: Behaviour<D, O>, s: Core<D, O>, g: nat, e: Removed<D>, u: Use<D, O>)
    requires Inv(b, s) && s.pending.Idle? && g < |s.reqs| && Occupies(s.reqs, s.owner, g)
    requires ReqOk(b, s.reqs[g].(use := u)) && !u.holder.Held?
    requires u.holder.Gone? ==> e.slots == s.slots - {s.reqs[g].key}
    requires u.holder.Boxed? ==> e.slots == s.slots[s.reqs[g].key := Ignored(u.holder.data)]
    ensures Inv(b, Used(s, g, e.slots, u, []))
  {
    UsedOwn(b, s, g, e.slots, u, []);
    UsedWake(s, g, e.slots, u, []);
    UsedQueues(s, g, u);
  }
}
