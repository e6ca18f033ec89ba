/** Polling gets an operation on: what is dispatched is consumed, and an
    operation whose final completion has arrived ends after few polls. */
module Progress {
  import opened Uring
  import opened Multishot
  import opened Lifecycle
  import opened Protocol
  import opened Invariant
  import opened PollSteps
  import opened DriverSafety

  /** A pass over a list with a final completion yields or ends. */
  lemma {:induction false} DrainEnds<D, O>(b: Behaviour<D, O>, d: D, cs: seq<Cqe>)
    requires Ended(cs)
    ensures !Drain(b, d, cs).Exhausted?
    decreases |cs|
  {
    if More(cs[0]) {
      var rest := cs[1..];
      assert rest[|rest| - 1] == cs[|cs| - 1];
      DrainEnds(b, b.update(d, cs[0]), rest);
    }
  }

  /** An operation that does not yield ends with the pass. */
  lemma {:induction false} DrainDoesNotYield<D(!new), O>(b: Behaviour<D, O>, d: D, cs: seq<Cqe>)
    requires forall e :: !b.shouldYield(e)
    ensures !Drain(b, d, cs).Yielded?
    decreases |cs|
  {
    if cs != [] && More(cs[0]) {
      DrainDoesNotYield(b, b.update(d, cs[0]), cs[1..]);
    }
  }

  /** What a poll returns for a slot that holds completions. */
  lemma PollTakes<D, O>(b: Behaviour<D, O>, r: Req<D, O>, slots: Slots<D>, w: Waker)
    requires Ready(b, r, slots) && r.use.cons < r.io.disp
    ensures PollOf(b, r, slots, r.use.holder.data, w).Done?
    ensures var p := PollOf(b, r, slots, r.use.holder.data, w).value;
      p.taken > 0 && (Settled(r.io) ==> p.out.Some?)
  {
    if slots[r.key].CompletionList? && Settled(r.io) {
      var l := slots[r.key].cqes;
      assert l[|l| - 1] == r.io.posted[|r.io.posted| - 1];
      DrainEnds(b, r.use.holder.data, l);
    }
  }

  /** What a poll does for a generation with completions to consume. */
  ghost predicate Advances<D, O>(r: Req<D, O>, r': Req<D, O>) {
    && r'.io == r.io && r'.use.cons > r.use.cons
    && (Settled(r.io) ==> |r'.use.outs| == |r.use.outs| + 1)
    && (r'.use.ended <==> !r'.use.holder.Held?)
  }

  /** A poll changes its own generation only, as `UseAfter` says. */
  lemma PollNextIs<D, O>(b: Behaviour<D, O>, depth: nat, s: Core<D, O>, g: nat, w: Waker, p: Polled<D, O>)
    requires s.pending.Idle? && Unfinished(s.reqs, g)
    requires PollOf(b, s.reqs[g], s.slots, s.reqs[g].use.holder.data, w) == Done(p)
    ensures Next(b, depth, s, Poll(g, w)).Done?
    ensures var t := Next(b, depth, s, Poll(g, w)).value;
      t.pending.Idle? && t.reqs == WithUse(s.reqs, g, UseAfter(s.reqs[g].use, p, w, |s.wakes|))
  {
  }

  lemma PollAdvances<D, O>(b: Behaviour<D, O>, depth: nat, s: Core<D, O>, g: nat, w: Waker)
    requires Inv(b, s) && s.pending.Idle? && Unfinished(s.reqs, g) && s.reqs[g].use.cons < s.reqs[g].io.disp
    ensures Next(b, depth, s, Poll(g, w)).Done?
    ensures var t := Next(b, depth, s, Poll(g, w)).value;
      |t.reqs| == |s.reqs| && t.pending.Idle? && Advances(s.reqs[g], t.reqs[g])
  {
    ReadyOp(b, s, g);
    ReadyAdvances(b, depth, s, g, w);
  }

  lemma ReadyAdvances<D, O>(b: Behaviour<D, O>, depth: nat, s: Core<D, O>, g: nat, w: Waker)
    requires s.pending.Idle? && Unfinished(s.reqs, g) && s.reqs[g].use.cons < s.reqs[g].io.disp
    requires Ready(b, s.reqs[g], s.slots)
    ensures Next(b, depth, s, Poll(g, w)).Done?
    ensures var t := Next(b, depth, s, Poll(g, w)).value;
      |t.reqs| == |s.reqs| && t.pending.Idle? && Advances(s.reqs[g], t.reqs[g])
  {
    PollTakes(b, s.reqs[g], s.slots, w);
    PollNextIs(b, depth, s, g, w, PollOf(b, s.reqs[g], s.slots, s.reqs[g].use.holder.data, w).value);
  }

  /** In every run, polling an unfinished operation for which a completion has
      been dispatched and not consumed consumes at least one. Once the final one
      has been dispatched, every such poll returns an output. */
  lemma PollConsumes<D, O>(b: Behaviour<D, O>, depth: nat, steps: seq<Step<D>>, g: nat, w: Waker)
    requires Run(b, depth, steps).Done? && Run(b, depth, steps).value.pending.Idle?
    requires Unfinished(Run(b, depth, steps).value.reqs, g)
    requires Run(b, depth, steps).value.reqs[g].use.cons < Run(b, depth, steps).value.reqs[g].io.disp
    ensures Run(b, depth, steps + [Poll(g, w)]).Done?
    ensures var t := Run(b, depth, steps + [Poll(g, w)]).value;
      g < |t.reqs| && Advances(Run(b, depth, steps).value.reqs[g], t.reqs[g])
  {
    NeverPanics(b, depth, steps);
    RunLast(b, depth, steps, Poll(g, w));
    PollAdvances(b, depth, Run(b, depth, steps).value, g, w);
  }

  /** In every run, one poll ends an operation that does not yield and whose
      final completion has been dispatched. */
  lemma NonYieldingEnds<D(!new), O>(b: Behaviour<D, O>, depth: nat, steps: seq<Step<D>>, g: nat, w: Waker)
    requires forall d :: !b.shouldYield(d)
    requires Run(b, depth, steps).Done? && Run(b, depth, steps).value.pending.Idle?
    requires Unfinished(Run(b, depth, steps).value.reqs, g) && Settled(Run(b, depth, steps).value.reqs[g].io)
    ensures Run(b, depth, steps + [Poll(g, w)]).Done?
    ensures var t := Run(b, depth, steps + [Poll(g, w)]).value; g < |t.reqs| && t.reqs[g].use.ended
  {
    NeverPanics(b, depth, steps);
    RunLast(b, depth, steps, Poll(g, w));
    var s := Run(b, depth, steps).value;
    ReadyOp(b, s, g);
    NonYieldingPoll(b, s.reqs[g], s.slots, w);
    PollNextIs(b, depth, s, g, w, PollOf(b, s.reqs[g], s.slots, s.reqs[g].use.holder.data, w).value);
  }

  lemma NonYieldingPoll<D(!new), O>(b: Behaviour<D, O>, r: Req<D, O>, slots: Slots<D>, w: Waker)
    requires forall d :: !b.shouldYield(d)
    requires Ready(b, r, slots) && Settled(r.io)
    ensures PollOf(b, r, slots, r.use.holder.data, w).Done?
    ensures PollOf(b, r, slots, r.use.holder.data, w).value.data.None?
  {
    FinalIsLeft(b, r);
    PollTakes(b, r, slots, w);
    if slots[r.key].CompletionList? {
      DrainDoesNotYield(b, r.use.holder.data, slots[r.key].cqes);
    }
  }

  /** An unfinished operation whose final completion has been dispatched has
      completions left to consume. */
  lemma FinalIsLeft<D, O>(b: Behaviour<D, O>, r: Req<D, O>)
    requires ReqOk(b, r) && r.use.holder.Held? && Settled(r.io)
    ensures r.use.cons < r.io.disp
  {
  }

  /** The states of polls in a row. */
  ghost predicate Polls<D, O>(b: Behaviour<D, O>, depth: nat, states: seq<Core<D, O>>, g: nat, w: Waker) {
    forall i :: 0 <= i < |states| - 1 ==> Polled(b, depth, states[i], g, w, states[i + 1])
  }

  ghost predicate Polled<D, O>(b: Behaviour<D, O>, depth: nat, s: Core<D, O>, g: nat, w: Waker, t: Core<D, O>) {
    Next(b, depth, s, Poll(g, w)) == Done(t)
  }

  /** The generation is finished, or its final completion has been dispatched and
      at most `n` completions are left. */
  ghost predicate NearEnd<D, O>(s: Core<D, O>, g: nat, n: nat) {
    && g < |s.reqs| && s.pending.Idle? && (s.reqs[g].use.ended <==> !s.reqs[g].use.holder.Held?)
    && (!s.reqs[g].use.ended ==> Settled(s.reqs[g].io) && |s.reqs[g].io.posted| <= s.reqs[g].use.cons + n)
  }

  lemma PollNearsEnd<D, O>(b: Behaviour<D, O>, depth: nat, s: Core<D, O>, g: nat, w: Waker, n: nat)
    returns (t: Core<D, O>)
    requires Inv(b, s) && NearEnd(s, g, n) && n > 0
    ensures Polled(b, depth, s, g, w, t) && Inv(b, t) && NearEnd(t, g, n - 1)
  {
    NextOk(b, depth, s, Poll(g, w));
    t := Next(b, depth, s, Poll(g, w)).value;
    if !s.reqs[g].use.ended {
      FinalIsLeft(b, s.reqs[g]);
      PollAdvances(b, depth, s, g, w);
    }
  }

  lemma {:induction false} PollsReachEnd<D, O>(b: Behaviour<D, O>, depth: nat, s: Core<D, O>, g: nat, w: Waker, n: nat)
    returns (states: seq<Core<D, O>>)
    requires Inv(b, s) && NearEnd(s, g, n)
    ensures |states| == n + 1 && states[0] == s && Polls(b, depth, states, g, w)
    ensures g < |states[n].reqs| && states[n].reqs[g].use.ended
    decreases n
  {
    if n == 0 {
      if !s.reqs[g].use.ended {
        FinalIsLeft(b, s.reqs[g]);
      }
      states := [s];
    } else {
      var t := PollNearsEnd(b, depth, s, g, w, n);
      var rest := PollsReachEnd(b, depth, t, g, w, n - 1);
      states := [s] + rest;
      PollsOn(b, depth, s, rest, g, w);
    }
  }

  lemma PollsOn<D, O>(b: Behaviour<D, O>, depth: nat, s: Core<D, O>, rest: seq<Core<D, O>>, g: nat, w: Waker)
    requires rest != [] && Polled(b, depth, s, g, w, rest[0]) && Polls(b, depth, rest, g, w)
    ensures Polls(b, depth, [s] + rest, g, w)
  {
    var states := [s] + rest;
    forall i | 0 <= i < |states| - 1 ensures Polled(b, depth, states[i], g, w, states[i + 1]) {
      assert i > 0 ==> states[i] == rest[i - 1] && states[i + 1] == rest[i];
    }
  }

  /** In every run, an unfinished operation whose final completion has been
      dispatched ends after at most as many polls as it has completions left:
      `states` are the states of that many polls in a row. */
  lemma FewPollsEnd<D, O>(b: Behaviour<D, O>, depth: nat, steps: seq<Step<D>>, g: nat, w: Waker, n: nat)
    returns (states: seq<Core<D, O>>)
    requires Run(b, depth, steps).Done? && Run(b, depth, steps).value.pending.Idle?
    requires Unfinished(Run(b, depth, steps).value.reqs, g) && Settled(Run(b, depth, steps).value.reqs[g].io)
    requires var r := Run(b, depth, steps).value.reqs[g]; |r.io.posted| <= r.use.cons + n
    ensures |states| == n + 1 && states[0] == Run(b, depth, steps).value && Polls(b, depth, states, g, w)
    ensures g < |states[n].reqs| && states[n].reqs[g].use.ended
  {
    NeverPanics(b, depth, steps);
    NearAtFinal(b, Run(b, depth, steps).value, g, n);
    states := PollsReachEnd(b, depth, Run(b, depth, steps).value, g, w, n);
  }

  lemma NearAtFinal<D, O>(b: Behaviour<D, O>, s: Core<D, O>, g: nat, n: nat)
    requires Inv(b, s) && s.pending.Idle? && Unfinished(s.reqs, g) && Settled(s.reqs[g].io)
    requires |s.reqs[g].io.posted| <= s.reqs[g].use.cons + n
    ensures NearEnd(s, g, n)
  {
    assert ReqOk(b, s.reqs[g]);
  }
}
