/** The driver's slabs through whole runs: the calls of any run of the protocol,
    carried out in place one after the other. */
module Replay {
  import opened Uring
  import opened Multishot
  import opened Protocol
  import opened DriverSafety
  import L = Lifecycle
  import V = Driver

  /** What the steps other than polls and drops do to the slots. */
  lemma SlotsAfter<D, O>(b: Behaviour<D, O>, depth: nat, s: Core<D, O>, step: Step<D>)
    requires Next(b, depth, s, step).Done?
    ensures var t := Next(b, depth, s, step).value;
      && (!Enabled(depth, s, step) ==> t.slots == s.slots)
      && (!step.DispatchOne? && !step.Insert? && !step.Poll? && !step.DropOp? ==> t.slots == s.slots)
      && (Enabled(depth, s, step) && step.Insert? ==>
            step.key !in s.slots && t.slots == s.slots[step.key := L.Submitted])
      && (Enabled(depth, s, step) && step.DispatchOne? ==>
            && s.cq != []
            && var r := L.Dispatch(s.slots, s.cq[0].userData, s.cq[0].cqe);
            r.Done? && t.slots == r.value.slots)
  {
  }

  /** Carries out the driver's part of one step; `t` is the state after it. */
  method Perform<D, O>(drv: V.Driver<D, O>, b: Behaviour<D, O>, depth: nat, s: Core<D, O>, step: Step<D>)
    returns (t: Core<D, O>)
    requires drv.Valid() && drv.slots == s.slots && |drv.completions.entries| < USIZE_MAX
    requires Next(b, depth, s, step).Done?
    modifies drv, drv.completions
    ensures drv.Valid() && Next(b, depth, s, step) == Done(t) && drv.slots == t.slots
    ensures |drv.completions.entries| <= |old(drv.completions.entries)| + 1
  {
    t := Next(b, depth, s, step).value;
    SlotsAfter(b, depth, s, step);
    if Enabled(depth, s, step) {
      if step.DispatchOne? {
        PerformDispatch(drv, s.cq[0].userData, s.cq[0].cqe, t.slots);
      } else if step.Insert? {
        PerformInsert(drv, step.key);
      } else if step.Poll? {
        PerformPoll(drv, b, depth, s, step.gen, step.waker);
      } else if step.DropOp? {
        PerformDrop(drv, b, depth, s, step.gen);
      }
    }
  }

  method PerformDispatch<D, O>(drv: V.Driver<D, O>, userData: nat, cqe: Cqe, ghost after: L.Slots<D>)
    requires drv.Valid() && |drv.completions.entries| < USIZE_MAX
    requires L.Dispatch(drv.slots, userData, cqe).Done? && L.Dispatch(drv.slots, userData, cqe).value.slots == after
    modifies drv, drv.completions
    ensures drv.Valid() && drv.slots == after
    ensures |drv.completions.entries| <= |old(drv.completions.entries)| + 1
  {
    var panicked, woken := drv.DispatchEntry(userData, cqe);
  }

  method PerformInsert<D, O>(drv: V.Driver<D, O>, key: nat)
    requires drv.Valid() && key !in drv.slots
    modifies drv
    ensures drv.Valid() && drv.slots == old(drv.slots)[key := L.Submitted]
    ensures drv.completions.entries == old(drv.completions.entries)
  {
    drv.InsertAt(key);
  }

  method PerformPoll<D, O>(drv: V.Driver<D, O>, b: Behaviour<D, O>, ghost depth: nat, s: Core<D, O>, g: nat, w: Waker)
    requires drv.Valid() && drv.slots == s.slots && Enabled(depth, s, Poll(g, w))
    requires Next(b, depth, s, Poll(g, w)).Done?
    modifies drv, drv.completions
    ensures drv.Valid() && drv.slots == Next(b, depth, s, Poll(g, w)).value.slots
    ensures |drv.completions.entries| <= |old(drv.completions.entries)|
  {
    var r := s.reqs[g];
    ghost var before := drv.completions.entries;
    if r.multi {
      var panicked, data, out, woke := drv.PollMultishotOp(b, r.key, r.use.holder.data, w);
    } else {
      var panicked, out := drv.PollOp(b, r.key, r.use.holder.data, w);
    }
    FewerKeys(before, drv.completions.entries);
  }

  method PerformDrop<D, O>(drv: V.Driver<D, O>, ghost b: Behaviour<D, O>, ghost depth: nat, s: Core<D, O>, g: nat)
    requires drv.Valid() && drv.slots == s.slots && Enabled(depth, s, DropOp(g))
    requires Next(b, depth, s, DropOp(g)).Done?
    modifies drv, drv.completions
    ensures drv.Valid() && drv.slots == Next(b, depth, s, DropOp(g)).value.slots
    ensures |drv.completions.entries| <= |old(drv.completions.entries)|
  {
    var r := s.reqs[g];
    ghost var before := drv.completions.entries;
    var panicked, boxed := drv.RemoveOp(r.key, r.use.holder.data);
    FewerKeys(before, drv.completions.entries);
  }

  lemma FewerKeys<V>(m: map<nat, V>, m': map<nat, V>)
    requires m'.Keys <= m.Keys
    ensures |m'| <= |m|
  {
    assert m.Keys == m'.Keys + (m.Keys - m'.Keys);
    assert |m.Keys| == |m| && |m'.Keys| == |m'|;
  }

  /** The states of a run, one after the other. */
  ghost predicate Trace<D, O>(b: Behaviour<D, O>, depth: nat, steps: seq<Step<D>>, states: seq<Core<D, O>>) {
    && |states| == |steps| + 1 && states[0] == Start()
    && forall i :: 0 <= i < |steps| ==> Leads(b, depth, states[i], steps[i], states[i + 1])
  }

  ghost predicate Leads<D, O>(b: Behaviour<D, O>, depth: nat, s: Core<D, O>, step: Step<D>, t: Core<D, O>) {
    Next(b, depth, s, step) == Done(t)
  }

  lemma {:induction false} TraceOf<D, O>(b: Behaviour<D, O>, depth: nat, steps: seq<Step<D>>)
    returns (states: seq<Core<D, O>>)
    ensures Trace(b, depth, steps, states) && Run(b, depth, steps) == Done(states[|steps|])
    decreases |steps|
  {
    if steps == [] {
      states := [Start()];
    } else {
      var front, last := steps[..|steps| - 1], steps[|steps| - 1];
      var before := TraceOf(b, depth, front);
      var t := NextOfRun(b, depth, front, last, before[|front|]);
      assert front + [last] == steps;
      states := before + [t];
      TraceOn(b, depth, front, last, before, t);
    }
  }

  lemma NextOfRun<D, O>(b: Behaviour<D, O>, depth: nat, front: seq<Step<D>>, step: Step<D>, s: Core<D, O>)
    returns (t: Core<D, O>)
    requires Run(b, depth, front) == Done(s)
    ensures Leads(b, depth, s, step, t) && Run(b, depth, front + [step]) == Done(t)
  {
    RunLast(b, depth, front, step);
    NeverPanics(b, depth, front + [step]);
    t := Next(b, depth, s, step).value;
  }

  lemma TraceOn<D, O>(b: Behaviour<D, O>, depth: nat, front: seq<Step<D>>, step: Step<D>, states: seq<Core<D, O>>,
                      t: Core<D, O>)
    requires Trace(b, depth, front, states) && Leads(b, depth, states[|front|], step, t)
    ensures Trace(b, depth, front + [step], states + [t])
  {
  }

  /** Every run of the protocol is a sequence of in-place calls: after it the two
      slabs stand for the slots of the run, and the completions slab holds exactly
      the completions that are queued there. */
  method Execute<D, O>(b: Behaviour<D, O>, depth: nat, steps: seq<Step<D>>)
    returns (drv: V.Driver<D, O>, s: Core<D, O>)
    requires |steps| < USIZE_MAX
    ensures fresh(drv) && drv.Valid()
    ensures Run(b, depth, steps) == Done(s) && drv.slots == s.slots
  {
    ghost var states := TraceOf(b, depth, steps);
    drv, s := Follow(b, depth, steps, states);
  }

  method Follow<D, O>(b: Behaviour<D, O>, depth: nat, steps: seq<Step<D>>, ghost states: seq<Core<D, O>>)
    returns (drv: V.Driver<D, O>, s: Core<D, O>)
    requires |steps| < USIZE_MAX && Trace(b, depth, steps, states)
    ensures fresh(drv) && drv.Valid() && drv.slots == s.slots && s == states[|steps|]
  {
    drv := new V.Driver<D, O>();
    s := Start();
    var i := 0;
    while i < |steps|
      invariant 0 <= i <= |steps| && s == states[i]
      invariant fresh(drv) && fresh(drv.completions) && drv.Valid()
      invariant drv.slots == s.slots && |drv.completions.entries| <= i
    {
      assert Leads(b, depth, states[i], steps[i], states[i + 1]);
      s := Perform(drv, b, depth, s, steps[i]);
      i := i + 1;
    }
  }
}
