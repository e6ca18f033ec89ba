/** Which task gets a buffer, and with which length: the waiting line of each
    capacity in every run of the pool, and what a check-in hands on to the next
    check-out. */
module PoolWaiting {
  import opened Uring
  import opened Buffers
  import opened Pool
  import opened PoolProtocol

  // ---- The waiting line ----

  /** The tasks that wait for a capacity: those notified, then the others. */
  function Line(g: Gate): seq<nat> {
    g.woken + g.waiters
  }

  /** A notification neither loses nor reorders anybody: it moves the boundary of
      the line past the task that has waited longest, or stores a permit if nobody
      waits un-notified. */
  lemma NotifyKeepsLine(g: Gate)
    ensures Line(NotifyOne(g)) == Line(g)
    ensures |NotifyOne(g).waiters| == if g.waiters == [] then 0 else |g.waiters| - 1
    ensures NotifyOne(g).permit <==> g.permit || g.waiters == []
  {
    if g.waiters != [] {
      assert g.waiters == [g.waiters[0]] + g.waiters[1..];
    }
  }

  /** How one step from `s` to `t` changes the line of a capacity: a `next` that
      gets no buffer joins at the end; a notified task that runs leaves with a
      buffer, or joins at the end again; a `next` that is dropped leaves. */
  function Moved(line: seq<nat>, s: Sys, t: Sys, step: Step, cap: nat): seq<nat> {
    if !Enabled(s, step) then line
    else
      match step
      case Next(c, task, name) => if c == cap && name !in t.handles then line + [task] else line
      case RunWoken(c, i, name) =>
        if c != cap || i >= |line| then line
        else if name in t.handles then line[..i] + line[i + 1..]
        else line[..i] + line[i + 1..] + [line[i]]
      case ForgetWaiter(c, i) =>
        var j := |s.gates[c].woken| + i;
        if c != cap || j >= |line| then line else line[..j] + line[j + 1..]
      case ForgetWoken(c, i) => if c != cap || i >= |line| then line else line[..i] + line[i + 1..]
      case _ => line
  }

  /** The line of a capacity after a run. */
  function LineAfter(start: Stacks, steps: seq<Step>, cap: nat): seq<nat> {
    if steps == [] then []
    else
      var front, last := steps[..|steps| - 1], steps[|steps| - 1];
      match (RunPool(start, front), RunPool(start, steps))
      case (Done(s), Done(t)) => Moved(LineAfter(start, front, cap), s, t, last, cap)
      case (_, _) => []
  }

  /** In every run, every task whose `next` got no buffer and was not dropped is
      in the line of its capacity, once for each such `next`, in the order in
      which they began to wait, and the notified tasks are those that have waited
      longest. */
  lemma {:induction false} ServedInOrder(start: Stacks, steps: seq<Step>, cap: nat)
    requires Fresh(start)
    ensures RunPool(start, steps).Done?
    ensures Line(GateOf(RunPool(start, steps).value, cap)) == LineAfter(start, steps, cap)
    decreases |steps|
  {
    RunPoolOk(start, steps);
    if steps != [] {
      var front := steps[..|steps| - 1];
      ServedInOrder(start, front, cap);
      RunPoolOk(start, front);
      LineStep(RunPool(start, front).value, steps[|steps| - 1], cap);
    }
  }

  lemma LineStep(s: Sys, step: Step, cap: nat)
    requires Inv(s)
    ensures NextState(s, step).Done?
    ensures var t := NextState(s, step).value;
      Line(GateOf(t, cap)) == Moved(Line(GateOf(s, cap)), s, t, step, cap)
  {
    if Enabled(s, step) {
      match step
      case Next(c, task, name) => LineNext(s, c, task, name, cap);
      case RunWoken(c, i, name) => LineRun(s, c, i, name, cap);
      case ForgetWaiter(_, _) => LineForget(s, step, cap);
      case ForgetWoken(_, _) => LineForget(s, step, cap);
      case DropHandle(name) => LineDrop(s, name, cap);
      case _ => GatesStay(s, step);
    }
  }

  /** Direct check-outs and changes of form do not touch the gates. */
  lemma GatesStay(s: Sys, step: Step)
    requires Inv(s) && Enabled(s, step) && (step.TryNext? || step.ToBuffer? || step.ToFixed? || step.Resize?)
    ensures NextState(s, step).Done? && NextState(s, step).value.gates == s.gates
  {
    if step.TryNext? {
      CheckoutOk(s, step.cap, step.name);
    } else {
      ReformOk(s, step);
    }
  }

  lemma LineNext(s: Sys, c: nat, task: nat, name: nat, cap: nat)
    requires Inv(s) && Enabled(s, Next(c, task, name))
    ensures NextState(s, Next(c, task, name)).Done?
    ensures var t := NextState(s, Next(c, task, name)).value;
      Line(GateOf(t, cap)) == Moved(Line(GateOf(s, cap)), s, t, Next(c, task, name), cap)
  {
    NextIs(s, c, task, name);
    JoinsLine(GateOf(s, c), task);
  }

  /** A `next` takes a buffer exactly when one is free, and waits otherwise. */
  lemma NextIs(s: Sys, c: nat, task: nat, name: nat)
    requires Inv(s) && Enabled(s, Next(c, task, name))
    ensures NextState(s, Next(c, task, name)).Done?
    ensures var t := NextState(s, Next(c, task, name)).value;
      && (name in t.handles <==> StackOf(s.pool, c) != [])
      && t.gates == if StackOf(s.pool, c) != [] then s.gates else s.gates[c := Wait(GateOf(s, c), task)]
  {
    CheckoutOk(s, c, name);
  }

  lemma JoinsLine(g: Gate, task: nat)
    ensures Line(Wait(g, task)) == Line(g) + [task]
  {
  }

  lemma LineRun(s: Sys, c: nat, i: nat, name: nat, cap: nat)
    requires Inv(s) && Enabled(s, RunWoken(c, i, name))
    ensures NextState(s, RunWoken(c, i, name)).Done?
    ensures var t := NextState(s, RunWoken(c, i, name)).value;
      Line(GateOf(t, cap)) == Moved(Line(GateOf(s, cap)), s, t, RunWoken(c, i, name), cap)
  {
    RunWokenIs(s, c, i, name);
    LineWithout(s.gates[c], i);
  }

  /** A notified task that runs takes a buffer exactly when one is free. */
  lemma RunWokenIs(s: Sys, c: nat, i: nat, name: nat)
    requires Inv(s) && Enabled(s, RunWoken(c, i, name))
    ensures NextState(s, RunWoken(c, i, name)).Done?
    ensures var t := NextState(s, RunWoken(c, i, name)).value;
      var g := s.gates[c];
      var rest := g.(woken := Without(g.woken, i));
      && (name in t.handles <==> StackOf(s.pool, c) != [])
      && t.gates == s.gates[c := if StackOf(s.pool, c) != [] then rest else Wait(rest, g.woken[i])]
  {
    if StackOf(s.pool, c) != [] {
      CheckoutOk(s, c, name);
      RunTakesIs(s, c, i, name, Checkout(s, c, name).value.0, s.gates[c].(woken := Without(s.gates[c].woken, i)));
    } else {
      RunWaitsIs(s, c, i, name);
    }
  }

  lemma RunWaitsIs(s: Sys, c: nat, i: nat, name: nat)
    requires Enabled(s, RunWoken(c, i, name)) && StackOf(s.pool, c) == []
    ensures var g := s.gates[c];
      var t := s.(gates := s.gates[c := Wait(g.(woken := Without(g.woken, i)), g.woken[i])]);
      NextState(s, RunWoken(c, i, name)) == Done(t)
  {
    var g := s.gates[c];
    var rest := g.(woken := Without(g.woken, i));
    assert s.gates[c := rest][c := Wait(rest, g.woken[i])] == s.gates[c := Wait(rest, g.woken[i])];
  }

  /** A notified task leaves the line. */
  lemma LineWithout(g: Gate, i: nat)
    requires i < |g.woken|
    ensures Line(g.(woken := Without(g.woken, i))) == Line(g)[..i] + Line(g)[i + 1..]
    ensures Line(Wait(g.(woken := Without(g.woken, i)), g.woken[i])) == Line(g)[..i] + Line(g)[i + 1..] + [Line(g)[i]]
  {
  }

  lemma LineForget(s: Sys, step: Step, cap: nat)
    requires Inv(s) && Enabled(s, step) && (step.ForgetWaiter? || step.ForgetWoken?)
    ensures NextState(s, step).Done?
    ensures var t := NextState(s, step).value;
      Line(GateOf(t, cap)) == Moved(Line(GateOf(s, cap)), s, t, step, cap)
  {
    var g := s.gates[step.cap];
    if step.ForgetWoken? {
      LineWithout(g, step.i);
      NotifyKeepsLine(g.(woken := Without(g.woken, step.i)));
    } else {
      var j := |g.woken| + step.i;
      assert Line(g)[..j] + Line(g)[j + 1..] == g.woken + Without(g.waiters, step.i);
    }
  }

  lemma LineDrop(s: Sys, name: nat, cap: nat)
    requires Inv(s) && Enabled(s, DropHandle(name))
    ensures NextState(s, DropHandle(name)).Done?
    ensures Line(GateOf(NextState(s, DropHandle(name)).value, cap)) == Line(GateOf(s, cap))
  {
    CheckinOk(s, name);
    NotifyKeepsLine(GateOf(s, cap));
  }

  /** In every run, a `next` takes a buffer exactly when one of its capacity is
      free, and otherwise joins the line; a direct `try_next` takes one exactly
      then, too. */
  lemma NextTakesOrWaits(start: Stacks, steps: seq<Step>, cap: nat, task: nat, name: nat)
    requires Fresh(start) && RunPool(start, steps).Done? && name !in RunPool(start, steps).value.handles
    ensures var s := RunPool(start, steps).value;
      && NextState(s, Next(cap, task, name)).Done? && NextState(s, TryNext(cap, name)).Done?
      && var t, u := NextState(s, Next(cap, task, name)).value, NextState(s, TryNext(cap, name)).value;
      && (name in t.handles <==> StackOf(s.pool, cap) != []) && (name in u.handles <==> StackOf(s.pool, cap) != [])
      && (name !in t.handles ==> Line(GateOf(t, cap)) == Line(GateOf(s, cap)) + [task] && u == s)
  {
    RunPoolOk(start, steps);
    var s := RunPool(start, steps).value;
    CheckoutOk(s, cap, name);
    LineNext(s, cap, task, name, cap);
  }

  /** In every run, a `next` that waits un-notified and is dropped leaves the line,
      and the others stay in order. */
  lemma DroppedWaiterLeaves(start: Stacks, steps: seq<Step>, cap: nat, i: nat)
    requires Fresh(start) && RunPool(start, steps).Done? && i < |GateOf(RunPool(start, steps).value, cap).waiters|
    ensures var s := RunPool(start, steps).value;
      && NextState(s, ForgetWaiter(cap, i)).Done?
      && var line, j := Line(GateOf(s, cap)), |GateOf(s, cap).woken| + i;
      Line(GateOf(NextState(s, ForgetWaiter(cap, i)).value, cap)) == line[..j] + line[j + 1..]
  {
    RunPoolOk(start, steps);
    ForgottenLeaves(RunPool(start, steps).value, ForgetWaiter(cap, i));
  }

  /** The same for a `next` that was notified and is dropped before it ran. */
  lemma DroppedWokenLeaves(start: Stacks, steps: seq<Step>, cap: nat, i: nat)
    requires Fresh(start) && RunPool(start, steps).Done? && i < |GateOf(RunPool(start, steps).value, cap).woken|
    ensures var s := RunPool(start, steps).value;
      && NextState(s, ForgetWoken(cap, i)).Done?
      && var line := Line(GateOf(s, cap));
      Line(GateOf(NextState(s, ForgetWoken(cap, i)).value, cap)) == line[..i] + line[i + 1..]
  {
    RunPoolOk(start, steps);
    ForgottenLeaves(RunPool(start, steps).value, ForgetWoken(cap, i));
  }

  lemma ForgottenLeaves(s: Sys, step: Step)
    requires Inv(s) && (step.ForgetWaiter? || step.ForgetWoken?)
    requires var g := GateOf(s, step.cap); step.i < if step.ForgetWaiter? then |g.waiters| else |g.woken|
    ensures NextState(s, step).Done?
    ensures var g := GateOf(s, step.cap);
      var j := if step.ForgetWaiter? then |g.woken| + step.i else step.i;
      Line(GateOf(NextState(s, step).value, step.cap)) == Line(g)[..j] + Line(g)[j + 1..]
  {
    LineForget(s, step, step.cap);
  }

  // ---- Lengths ----

  /** How many initialized bytes a handle shows. */
  function Shows(h: Handle): nat {
    match h case Fixed(f) => f.initLen case Buf(b) => Sum(b.lens)
  }

  /** Changing the form of a handle and back is the identity. */
  lemma FormsRoundTrip(f: FixedBuf, b: Buffer)
    ensures FromBuffer(IntoBuffer(f)) == f
    ensures |b.lens| == 1 && |b.caps| == 1 ==> IntoBuffer(FromBuffer(b)) == b
  {
  }

  /** In every run, a change of form keeps what a handle shows and which buffer it
      is, and `set_init` makes it show that many bytes as far as there is room. */
  lemma FormsKeepLength(start: Stacks, steps: seq<Step>, step: Step)
    requires Fresh(start) && RunPool(start, steps).Done?
    requires (step.ToBuffer? || step.ToFixed? || step.Resize?) && step.name in RunPool(start, steps).value.handles
    requires RunPool(start, steps).value.handles[step.name].Fixed? <==> step.ToBuffer?
    ensures var s := RunPool(start, steps).value;
      && NextState(s, step).Done? && step.name in s.handles && step.name in NextState(s, step).value.handles
      && var h, h' := s.handles[step.name], NextState(s, step).value.handles[step.name];
      && IndexOf(h') == IndexOf(h) && IndexOf(h) < |s.pool.caps|
      && Shows(h') == (if step.Resize? then Min(step.pos, s.pool.caps[IndexOf(h)]) else Shows(h))
      && (h'.Fixed? <==> step.ToFixed?)
  {
    RunPoolOk(start, steps);
    var s := RunPool(start, steps).value;
    assert HandleOk(s.pool, s.handles[step.name]);
    FormKeeps(s, step);
  }

  lemma FormKeeps(s: Sys, step: Step)
    requires Enabled(s, step) && (step.ToBuffer? || step.ToFixed? || step.Resize?)
    requires HandleOk(s.pool, s.handles[step.name])
    ensures NextState(s, step).Done? && step.name in NextState(s, step).value.handles
    ensures var h, h' := s.handles[step.name], NextState(s, step).value.handles[step.name];
      && IndexOf(h') == IndexOf(h) && (h'.Fixed? <==> step.ToFixed?)
      && Shows(h') == if step.Resize? then Min(step.pos, s.pool.caps[IndexOf(h)]) else Shows(h)
  {
    match s.handles[step.name]
    case Fixed(f) =>
      SumOne(f.initLen);
    case Buf(b) =>
      assert b.lens == [b.lens[0]];
      SumOne(b.lens[0]);
      if step.Resize? {
        SetInitOne(b.caps, step.pos);
        SumOne(Min(b.caps[0], step.pos));
      }
  }

  lemma SumOne(n: nat)
    ensures Sum([n]) == n
  {
    assert [n][1..] == [];
  }

  /** In every run, dropping a handle records what it showed; the buffer is the
      next one checked out for its capacity, and then shows exactly that. */
  lemma CheckInIsNextCheckOut(start: Stacks, steps: seq<Step>, name: nat, name': nat)
    requires Fresh(start) && RunPool(start, steps).Done? && name in RunPool(start, steps).value.handles
    requires name' == name || name' !in RunPool(start, steps).value.handles
    ensures var s := RunPool(start, steps).value;
      var h := s.handles[name];
      && IndexOf(h) < |s.pool.caps| && NextState(s, DropHandle(name)).Done?
      && var t := NextState(s, DropHandle(name)).value;
      && name !in t.handles && IndexOf(h) < |t.pool.lens| && t.pool.lens[IndexOf(h)] == Some(Shows(h))
      && NextState(t, TryNext(s.pool.caps[IndexOf(h)], name')).Done?
      && var u := NextState(t, TryNext(s.pool.caps[IndexOf(h)], name')).value;
      && name' in u.handles && IndexOf(u.handles[name']) == IndexOf(h) && Shows(u.handles[name']) == Shows(h)
  {
    RunPoolOk(start, steps);
    var s := RunPool(start, steps).value;
    assert HandleOk(s.pool, s.handles[name]);
    DropRecords(s, name);
    CheckinOk(s, name);
    var t := CheckinHandle(s, name).value;
    TopIsShown(t, s.pool.caps[IndexOf(s.handles[name])], name');
  }

  lemma DropRecords(s: Sys, name: nat)
    requires Inv(s) && name in s.handles && HandleOk(s.pool, s.handles[name])
    ensures NextState(s, DropHandle(name)) == CheckinHandle(s, name) && CheckinHandle(s, name).Done?
    ensures var t, i := CheckinHandle(s, name).value, IndexOf(s.handles[name]);
      && t.handles == s.handles - {name} && t.pool.caps == s.pool.caps
      && i < |t.pool.lens| && t.pool.lens[i] == Some(Shows(s.handles[name]))
      && StackOf(t.pool, s.pool.caps[i]) == [i] + StackOf(s.pool, s.pool.caps[i])
  {
    ReturnedOk(s.pool, IndexOf(s.handles[name]), LenAtDrop(s.handles[name]));
    if s.handles[name].Buf? {
      var lens := s.handles[name].buffer.lens;
      assert lens == [lens[0]];
      SumOne(lens[0]);
    }
  }

  /** The top buffer of a stack is checked out with its recorded length. */
  lemma TopIsShown(s: Sys, cap: nat, name: nat)
    requires Inv(s) && name !in s.handles && StackOf(s.pool, cap) != []
    ensures NextState(s, TryNext(cap, name)).Done?
    ensures var t, i := NextState(s, TryNext(cap, name)).value, StackOf(s.pool, cap)[0];
      && name in t.handles && IndexOf(t.handles[name]) == i
      && i < |s.pool.lens| && s.pool.lens[i] == Some(Shows(t.handles[name]))
  {
    CheckoutOk(s, cap, name);
    TookOk(s.pool, cap);
    SumOne(s.pool.lens[StackOf(s.pool, cap)[0]].value);
  }
}
