/** Tasks that share a buffer pool: check-out and check-in, handles in their
    two forms, and waiting for a buffer with one `Notify` per capacity. */
module PoolProtocol {
  import opened Uring
  import opened Buffers
  import opened Pool

  // ---- Handles ----

  /** A `FixedBuf`: the index stands for the address and the pool information. */
  datatype FixedBuf = FixedBuf(index: nat, initLen: nat, cap: nat)

  /** A `Buffer`: one length and one capacity per iovec. */
  datatype Buffer = Buffer(lens: seq<nat>, caps: seq<nat>, user: nat)

  datatype Handle = Fixed(fixed: FixedBuf) | Buf(buffer: Buffer)

  /** `Buffer::new`, through `into_raw_parts`. */
  function IntoBuffer(f: FixedBuf): Buffer {
    Buffer([f.initLen], [f.cap], f.index)
  }

  /** `from_raw_parts`, as `try_into` and the destructor use it. */
  function FromBuffer(b: Buffer): FixedBuf
    requires b.lens != [] && b.caps != []
  {
    FixedBuf(b.user, b.lens[0], b.caps[0])
  }

  /** The buffer index behind a handle. */
  function IndexOf(h: Handle): nat {
    match h case Fixed(f) => f.index case Buf(b) => b.user
  }

  /** The length that the destructor of a handle checks in. */
  function LenAtDrop(h: Handle): nat
    requires h.Buf? ==> h.buffer.lens != []
  {
    match h case Fixed(f) => f.initLen case Buf(b) => b.lens[0]
  }

  // ---- Waiting ----

  /** A `Notify`: a stored permit and the queue of waiting tasks; `woken` are
      the tasks that were notified and have not run yet. */
  datatype Gate = Gate(permit: bool, waiters: seq<nat>, woken: seq<nat>)

  /** `notify_one`: the oldest waiter, or a permit. */
  function NotifyOne(g: Gate): Gate {
    if g.waiters != [] then Gate(g.permit, g.waiters[1..], g.woken + [g.waiters[0]])
    else g.(permit := true)
  }

  /** A task starts to wait after its `try_next` failed. A stored permit lets
      the first wait pass, but the next `try_next` fails again and the task
      waits anew. */
  function Wait(g: Gate, task: nat): Gate {
    Gate(false, g.waiters + [task], g.woken)
  }

  function Without(s: seq<nat>, i: nat): seq<nat>
    requires i < |s|
  {
    s[..i] + s[i + 1..]
  }

  // ---- The whole ----

  /** Live handles by name, and one gate per capacity that was ever waited for. */
  datatype Sys = Sys(pool: Stacks, handles: map<nat, Handle>, gates: map<nat, Gate>)

  datatype Step =
    | TryNext(cap: nat, name: nat)             // a direct call
    | Next(cap: nat, task: nat, name: nat)     // `next`, up to its first wait
    | RunWoken(cap: nat, i: nat, name: nat)    // a notified task runs
    | ForgetWaiter(cap: nat, i: nat)           // a waiting `next` is dropped
    | ForgetWoken(cap: nat, i: nat)            // a notified `next` is dropped before it ran
    | ToBuffer(name: nat)
    | ToFixed(name: nat)
    | Resize(name: nat, pos: nat)              // `set_init` on a `Buffer`
    | DropHandle(name: nat)

  predicate Enabled(s: Sys, step: Step) {
    match step
    case TryNext(_, name) => name !in s.handles
    case Next(_, _, name) => name !in s.handles
    case RunWoken(cap, i, name) => cap in s.gates && i < |s.gates[cap].woken| && name !in s.handles
    case ForgetWaiter(cap, i) => cap in s.gates && i < |s.gates[cap].waiters|
    case ForgetWoken(cap, i) => cap in s.gates && i < |s.gates[cap].woken|
    case ToBuffer(name) => name in s.handles && s.handles[name].Fixed?
    case ToFixed(name) => name in s.handles && s.handles[name].Buf?
    case Resize(name, _) => name in s.handles && s.handles[name].Buf?
    case DropHandle(name) => name in s.handles
  }

  /** `Pool::try_next` with its panics. */
  function PoolTryNext(p: Stacks, cap: nat): Outcome<Option<(nat, nat)>> {
    if StackOf(p, cap) == [] then Done(None)
    else
      var i := StackOf(p, cap)[0];
      if i >= |p.lens| || i >= |p.caps| || p.lens[i].None? then Panic
      else Done(Some((i, p.lens[i].value)))
  }

  /** `FixedBufPool::try_next`: the buffer comes as a `Buffer`. */
  function Checkout(s: Sys, cap: nat, name: nat): Outcome<(Sys, bool)> {
    match PoolTryNext(s.pool, cap)
    case Panic => Panic
    case Done(None) => Done((s, false))
    case Done(Some((i, len))) =>
      if StackOf(s.pool, cap) == [] || StackOf(s.pool, cap)[0] >= |s.pool.lens| || i >= |s.pool.caps| then Panic
      else
        var h := Buf(IntoBuffer(FixedBuf(i, len, s.pool.caps[i])));
        Done((s.(pool := Took(s.pool, cap), handles := s.handles[name := h]), true))
  }

  function GateOf(s: Sys, cap: nat): Gate {
    if cap in s.gates then s.gates[cap] else Gate(false, [], [])
  }

  /** Try to take a buffer, and wait if there is none. */
  function TakeOrWait(s: Sys, cap: nat, task: nat, name: nat): Outcome<Sys> {
    match Checkout(s, cap, name)
    case Panic => Panic
    case Done((t, true)) => Done(t)
    case Done((t, false)) => Done(t.(gates := t.gates[cap := Wait(GateOf(t, cap), task)]))
  }

  /** `Pool::check_in` with its assertion, and the notification. */
  function CheckinHandle(s: Sys, name: nat): Outcome<Sys>
    requires name in s.handles
  {
    var h := s.handles[name];
    var i := IndexOf(h);
    if h.Buf? && h.buffer.lens == [] then Panic
    else if i >= |s.pool.lens| || i >= |s.pool.caps| || s.pool.lens[i].Some? then Panic
    else
      var cap := s.pool.caps[i];
      Done(Sys(Returned(s.pool, i, LenAtDrop(h)), s.handles - {name},
               if cap in s.gates then s.gates[cap := NotifyOne(s.gates[cap])] else s.gates))
  }

  function NextState(s: Sys, step: Step): Outcome<Sys> {
    if !Enabled(s, step) then Done(s)
    else
      match step
      case TryNext(cap, name) =>
        (match Checkout(s, cap, name)
         case Panic => Panic
         case Done((t, _)) => Done(t))
      case Next(cap, task, name) => TakeOrWait(s, cap, task, name)
      case RunWoken(cap, i, name) =>
        var g := s.gates[cap];
        TakeOrWait(s.(gates := s.gates[cap := g.(woken := Without(g.woken, i))]), cap, g.woken[i], name)
      case ForgetWaiter(cap, i) =>
        Done(s.(gates := s.gates[cap := s.gates[cap].(waiters := Without(s.gates[cap].waiters, i))]))
      case ForgetWoken(cap, i) =>
        Done(s.(gates := s.gates[cap := NotifyOne(s.gates[cap].(woken := Without(s.gates[cap].woken, i)))]))
      case ToBuffer(name) => Done(s.(handles := s.handles[name := Buf(IntoBuffer(s.handles[name].fixed))]))
      case ToFixed(name) =>
        var b := s.handles[name].buffer;
        if b.lens == [] || b.caps == [] then Panic
        else Done(s.(handles := s.handles[name := Fixed(FromBuffer(b))]))
      case Resize(name, pos) =>
        var b := s.handles[name].buffer;
        Done(s.(handles := s.handles[name := Buf(b.(lens := SetInit(b.caps, pos)))]))
      case DropHandle(name) => CheckinHandle(s, name)
  }

  function RunPool(start: Stacks, steps: seq<Step>): Outcome<Sys> {
    if steps == [] then Done(Sys(start, map[], map[]))
    else
      match RunPool(start, steps[..|steps| - 1])
      case Panic => Panic
      case Done(s) => NextState(s, steps[|steps| - 1])
  }

  // ---- The invariant ----

  /** Recorded lengths do not exceed capacities. */
  ghost predicate LensOk(p: Stacks) {
    |p.lens| == |p.caps| && forall i :: 0 <= i < |p.caps| && p.lens[i].Some? ==> p.lens[i].value <= p.caps[i]
  }

  /** A handle names a checked-out buffer and knows its capacity. */
  ghost predicate HandleOk(p: Stacks, h: Handle) {
    && IndexOf(h) < |p.caps| && IndexOf(h) < |p.lens| && p.lens[IndexOf(h)].None?
    && match h
       case Fixed(f) => f.cap == p.caps[f.index] && f.initLen <= f.cap
       case Buf(b) => |b.lens| == 1 && b.caps == [p.caps[b.user]] && b.lens[0] <= b.caps[0]
  }

  /** Handles and checked-out buffers correspond one to one; `by` gives the
      handle of each buffer. */
  ghost predicate HandlesOk(p: Stacks, handles: map<nat, Handle>) {
    && (forall n :: n in handles ==> HandleOk(p, handles[n]))
    && (forall m, n :: m in handles && n in handles && IndexOf(handles[m]) == IndexOf(handles[n]) ==> m == n)
    && (forall i :: 0 <= i < |p.lens| && p.lens[i].None? ==> HasHandle(handles, i))
  }

  ghost predicate HasHandle(handles: map<nat, Handle>, i: nat) {
    exists n :: n in handles && IndexOf(handles[n]) == i
  }

  /** While a task waits un-notified, no permit is stored and the free buffers
      of the capacity do not outnumber the notified tasks. */
  ghost predicate GateOk(g: Gate, free: nat) {
    g.waiters != [] ==> !g.permit && free <= |g.woken|
  }

  ghost predicate GatesOk(p: Stacks, gates: map<nat, Gate>) {
    forall c :: c in gates ==> GateOk(gates[c], |StackOf(p, c)|)
  }

  ghost predicate Inv(s: Sys) {
    StacksOk(s.pool) && LensOk(s.pool) && HandlesOk(s.pool, s.handles) && GatesOk(s.pool, s.gates)
  }

  // ---- Preservation ----

  lemma CheckoutOk(s: Sys, cap: nat, name: nat)
    requires Inv(s) && name !in s.handles
    ensures Checkout(s, cap, name).Done?
    ensures var (t, got) := Checkout(s, cap, name).value;
      && Inv(t) && (got <==> StackOf(s.pool, cap) != []) && t.gates == s.gates && (!got ==> t == s)
      && |StackOf(t.pool, cap)| == |StackOf(s.pool, cap)| - (if got then 1 else 0)
      && (got ==> name in t.handles && t.handles[name].Buf? && t.handles[name].buffer.caps == [cap])
  {
    if StackOf(s.pool, cap) != [] {
      TookOk(s.pool, cap);
      var i := StackOf(s.pool, cap)[0];
      var p := Took(s.pool, cap);
      TakenHandles(s.pool, s.handles, p, name, i, cap);
      TakenGates(s.pool, s.gates, p, cap);
    }
  }

  lemma TakenHandles(p: Stacks, handles: map<nat, Handle>, q: Stacks, name: nat, i: nat, cap: nat)
    requires LensOk(p) && HandlesOk(p, handles) && name !in handles
    requires i < |p.caps| && p.lens[i].Some? && q.caps == p.caps && q.lens == p.lens[i := None] && p.caps[i] == cap
    ensures LensOk(q)
    ensures HandlesOk(q, handles[name := Buf(IntoBuffer(FixedBuf(i, p.lens[i].value, cap)))])
  {
    var h := Buf(IntoBuffer(FixedBuf(i, p.lens[i].value, cap)));
    var handles' := handles[name := h];
    assert HandleOk(q, h);
    forall n | n in handles ensures HandleOk(q, handles[n]) && IndexOf(handles[n]) != i {
      assert HandleOk(p, handles[n]);
    }
    forall j | 0 <= j < |q.lens| && q.lens[j].None? ensures HasHandle(handles', j) {
      if j == i {
        assert IndexOf(handles'[name]) == i;
      } else {
        var n :| n in handles && IndexOf(handles[n]) == j;
        assert IndexOf(handles'[n]) == j;
      }
    }
  }

  lemma TakenGates(p: Stacks, gates: map<nat, Gate>, q: Stacks, cap: nat)
    requires GatesOk(p, gates) && |StackOf(q, cap)| <= |StackOf(p, cap)|
    requires forall c :: c != cap ==> StackOf(q, c) == StackOf(p, c)
    ensures GatesOk(q, gates)
  {
  }

  lemma TakeOrWaitOk(s: Sys, cap: nat, task: nat, name: nat)
    requires Inv(s) && name !in s.handles
    ensures TakeOrWait(s, cap, task, name).Done? && Inv(TakeOrWait(s, cap, task, name).value)
  {
    CheckoutOk(s, cap, name);
  }

  /** A notified task runs: it takes a buffer and gives up its notification, or
      finds none and waits again. */
  lemma RunWokenOk(s: Sys, cap: nat, i: nat, name: nat)
    requires Inv(s) && Enabled(s, RunWoken(cap, i, name))
    ensures NextState(s, RunWoken(cap, i, name)).Done? && Inv(NextState(s, RunWoken(cap, i, name)).value)
  {
    var g := s.gates[cap];
    var g' := g.(woken := Without(g.woken, i));
    var s' := s.(gates := s.gates[cap := g']);
    assert GateOk(g, |StackOf(s.pool, cap)|);
    if StackOf(s.pool, cap) == [] {
      assert GatesOk(s'.pool, s'.gates);
      TakeOrWaitOk(s', cap, g.woken[i], name);
    } else {
      RunTakes(s, cap, i, name);
    }
  }

  lemma RunTakes(s: Sys, cap: nat, i: nat, name: nat)
    requires Inv(s) && Enabled(s, RunWoken(cap, i, name)) && StackOf(s.pool, cap) != []
    ensures NextState(s, RunWoken(cap, i, name)).Done? && Inv(NextState(s, RunWoken(cap, i, name)).value)
    ensures name in NextState(s, RunWoken(cap, i, name)).value.handles
  {
    var g := s.gates[cap];
    var g' := g.(woken := Without(g.woken, i));
    CheckoutOk(s, cap, name);
    var t := Checkout(s, cap, name).value.0;
    RunTakesIs(s, cap, i, name, t, g');
    assert GateOk(g, |StackOf(s.pool, cap)|);
    GateChange(t.pool, t.gates, cap, g');
  }

  lemma RunTakesIs(s: Sys, cap: nat, i: nat, name: nat, t: Sys, g: Gate)
    requires Enabled(s, RunWoken(cap, i, name)) && Checkout(s, cap, name) == Done((t, true)) && t.gates == s.gates
    requires g == s.gates[cap].(woken := Without(s.gates[cap].woken, i))
    ensures NextState(s, RunWoken(cap, i, name)) == Done(t.(gates := t.gates[cap := g]))
  {
  }

  lemma GateChange(p: Stacks, gates: map<nat, Gate>, cap: nat, g: Gate)
    requires GatesOk(p, gates) && GateOk(g, |StackOf(p, cap)|)
    ensures GatesOk(p, gates[cap := g])
  {
  }

  lemma ForgetOk(s: Sys, step: Step)
    requires Inv(s) && Enabled(s, step) && (step.ForgetWaiter? || step.ForgetWoken?)
    ensures NextState(s, step).Done? && Inv(NextState(s, step).value)
  {
  }

  lemma CheckinOk(s: Sys, name: nat)
    requires Inv(s) && name in s.handles
    ensures CheckinHandle(s, name).Done? && Inv(CheckinHandle(s, name).value)
  {
    var h := s.handles[name];
    assert HandleOk(s.pool, h);
    var i := IndexOf(h);
    ReturnedOk(s.pool, i, LenAtDrop(h));
    GivenHandles(s.pool, s.handles, name);
    GivenGates(s.pool, s.gates, Returned(s.pool, i, LenAtDrop(h)), s.pool.caps[i]);
  }

  lemma GivenHandles(p: Stacks, handles: map<nat, Handle>, name: nat)
    requires LensOk(p) && HandlesOk(p, handles) && name in handles && HandleOk(p, handles[name])
    ensures var q := Returned(p, IndexOf(handles[name]), LenAtDrop(handles[name]));
      LensOk(q) && HandlesOk(q, handles - {name})
  {
    var i := IndexOf(handles[name]);
    var q := Returned(p, i, LenAtDrop(handles[name]));
    forall n | n in handles && n != name ensures HandleOk(q, handles[n]) {
      assert HandleOk(p, handles[n]) && IndexOf(handles[n]) != i;
    }
    forall j | 0 <= j < |q.lens| && q.lens[j].None? ensures HasHandle(handles - {name}, j) {
      var n :| n in handles && IndexOf(handles[n]) == j;
      assert n in handles - {name};
    }
  }

  /** A check-in adds one free buffer and, if anybody waits, one notified task. */
  lemma GivenGates(p: Stacks, gates: map<nat, Gate>, q: Stacks, cap: nat)
    requires GatesOk(p, gates) && |StackOf(q, cap)| == |StackOf(p, cap)| + 1
    requires forall c :: c != cap ==> StackOf(q, c) == StackOf(p, c)
    ensures GatesOk(q, if cap in gates then gates[cap := NotifyOne(gates[cap])] else gates)
  {
  }

  /** Changing the form of a handle, or the length it records. */
  lemma ReformOk(s: Sys, step: Step)
    requires Inv(s) && Enabled(s, step) && (step.ToBuffer? || step.ToFixed? || step.Resize?)
    ensures NextState(s, step).Done? && Inv(NextState(s, step).value)
  {
    var h := s.handles[step.name];
    assert HandleOk(s.pool, h);
    if step.Resize? {
      SetInitOne(h.buffer.caps, step.pos);
    }
    var t := NextState(s, step).value;
    assert HandleOk(s.pool, t.handles[step.name]) && IndexOf(t.handles[step.name]) == IndexOf(h);
    ReformHandles(s.pool, s.handles, step.name, t.handles[step.name]);
  }

  lemma SetInitOne(caps: seq<nat>, pos: nat)
    requires |caps| == 1
    ensures SetInit(caps, pos) == [Min(caps[0], pos)]
  {
  }

  lemma ReformHandles(p: Stacks, handles: map<nat, Handle>, name: nat, h: Handle)
    requires HandlesOk(p, handles) && name in handles && HandleOk(p, h) && IndexOf(h) == IndexOf(handles[name])
    ensures HandlesOk(p, handles[name := h])
  {
    forall i | 0 <= i < |p.lens| && p.lens[i].None? ensures HasHandle(handles[name := h], i) {
      var n :| n in handles && IndexOf(handles[n]) == i;
      assert IndexOf(handles[name := h][n]) == i;
    }
  }

  lemma NextOk(s: Sys, step: Step)
    requires Inv(s)
    ensures NextState(s, step).Done? && Inv(NextState(s, step).value)
  {
    if Enabled(s, step) {
      match step
      case TryNext(cap, name) => CheckoutOk(s, cap, name);
      case Next(cap, task, name) => TakeOrWaitOk(s, cap, task, name);
      case RunWoken(cap, i, name) => RunWokenOk(s, cap, i, name);
      case DropHandle(name) => CheckinOk(s, name);
      case ForgetWaiter(_, _) => ForgetOk(s, step);
      case ForgetWoken(_, _) => ForgetOk(s, step);
      case _ => ReformOk(s, step);
    }
  }

  /** A pool whose buffers are all free and within their capacities. */
  ghost predicate Fresh(p: Stacks) {
    StacksOk(p) && LensOk(p) && forall i :: 0 <= i < |p.lens| ==> p.lens[i].Some?
  }

  lemma {:induction false} RunPoolOk(start: Stacks, steps: seq<Step>)
    requires Fresh(start)
    ensures RunPool(start, steps).Done? && Inv(RunPool(start, steps).value)
    decreases |steps|
  {
    if steps != [] {
      var before := steps[..|steps| - 1];
      RunPoolOk(start, before);
      NextOk(RunPool(start, before).value, steps[|steps| - 1]);
    }
  }

  // ---- What holds in every run ----

  /** Waiting for a buffer loses no wakeup: while a task waits un-notified for a
      capacity, the free buffers of that capacity never outnumber the notified
      tasks that have yet to run, whatever permits were stored and whoever
      called `try_next` in between. */
  lemma NoLostWakeup(start: Stacks, steps: seq<Step>, cap: nat)
    requires Fresh(start) && RunPool(start, steps).Done? && cap in RunPool(start, steps).value.gates
    ensures var s := RunPool(start, steps).value;
      s.gates[cap].waiters != [] ==> |StackOf(s.pool, cap)| <= |s.gates[cap].woken|
  {
    RunPoolOk(start, steps);
    var s := RunPool(start, steps).value;
    assert GateOk(s.gates[cap], |StackOf(s.pool, cap)|);
  }

  /** If a buffer is free while a task waits for it, then a notified task is
      there to run, and running it takes a buffer. */
  lemma FreeBufferIsTaken(start: Stacks, steps: seq<Step>, cap: nat, name: nat)
    requires Fresh(start) && RunPool(start, steps).Done? && cap in RunPool(start, steps).value.gates
    requires RunPool(start, steps).value.gates[cap].waiters != []
    requires StackOf(RunPool(start, steps).value.pool, cap) != [] && name !in RunPool(start, steps).value.handles
    ensures var s := RunPool(start, steps).value;
      && s.gates[cap].woken != []
      && NextState(s, RunWoken(cap, 0, name)).Done? && name in NextState(s, RunWoken(cap, 0, name)).value.handles
  {
    NoLostWakeup(start, steps, cap);
    RunPoolOk(start, steps);
    RunTakes(RunPool(start, steps).value, cap, 0, name);
  }

  /** Every check-out is matched by exactly one check-in: handles and
      checked-out buffers correspond one to one through every change of form,
      recorded lengths never exceed capacities, and once no handle is left all
      buffers are free, which is the assertion of `Pool::drop`. No panic of the
      pool is ever hit. */
  lemma HandlesMatchBuffers(start: Stacks, steps: seq<Step>)
    requires Fresh(start)
    ensures RunPool(start, steps).Done?
    ensures var s := RunPool(start, steps).value;
      && (forall i :: 0 <= i < |s.pool.lens| ==> (s.pool.lens[i].None? <==> HasHandle(s.handles, i)))
      && (forall m, n :: m in s.handles && n in s.handles && IndexOf(s.handles[m]) == IndexOf(s.handles[n]) ==> m == n)
      && (forall i :: 0 <= i < |s.pool.lens| && s.pool.lens[i].Some? ==>
        i < |s.pool.caps| && s.pool.lens[i].value <= s.pool.caps[i])
      && (s.handles == map[] ==> forall i :: 0 <= i < |s.pool.lens| ==> s.pool.lens[i].Some?)
  {
    RunPoolOk(start, steps);
    var s := RunPool(start, steps).value;
    forall i | 0 <= i < |s.pool.lens| && HasHandle(s.handles, i) ensures s.pool.lens[i].None? {
      var n :| n in s.handles && IndexOf(s.handles[n]) == i;
      assert HandleOk(s.pool, s.handles[n]);
    }
  }
}
