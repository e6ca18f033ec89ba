/** Descriptors on top of the driver protocol: operations hold clones of the
    descriptor they name from the moment they are built, a `File` or `Socket`
    holds the original, and closing is one more request. */
module FdProtocol {
  import opened Uring
  import opened Multishot
  import opened Protocol
  import opened SharedFd

  /** The owner of the original `SharedFd`: in use; inside `close`, waiting for
      the other clones; inside `close`, with the close request submitted; or
      dropped. */
  datatype User = InUse | Closing(armed: Option<Armed>) | Awaiting | Released

  /** `prepared` counts the clones in operations that are built and not submitted
      yet, `closer` is the generation of the close request, `os` says that the
      operating system has not closed the descriptor yet. */
  datatype Fd = Fd(inner: Inner, user: User, prepared: nat, closer: Option<nat>, os: bool, asyncCloses: nat)

  datatype Sys<D, O> = Sys(core: Core<D, O>, fds: seq<Fd>, wakes: seq<Waker>, executed: set<nat>)

  datatype FdStep<D> =
    | Driver(step: Step<D>)
    | Prepare(fd: nat)             // `read_at`, `write_at`, `statx_builder`: a clone, nothing submitted
    | SubmitPrepared(fd: nat, key: nat, multi: bool, init: D)
    | DropPrepared(fd: nat)
    | OpenFd(raw: nat)             // the operating system hands out an unused number
    | DropUser(fd: nat)            // the `File`, or the future of `close`, is dropped
    | BeginClose(fd: nat)
    | PollCloseFd(fd: nat, waker: Waker, key: nat, init: D)
    | ExecuteClose(gen: nat)       // the kernel carries out a close request

  function StartSys<D, O>(): Sys<D, O> {
    Sys(Start(), [], [], {})
  }

  predicate EnabledFd<D, O>(depth: nat, s: Sys<D, O>, step: FdStep<D>) {
    match step
    case Driver(Insert(_, _, fd, closes, _)) =>
      closes.None? && (fd.Some? ==> fd.value < |s.fds| && s.fds[fd.value].user.InUse?)
    case Driver(_) => true
    case Prepare(f) => f < |s.fds| && s.fds[f].user.InUse?
    case SubmitPrepared(f, key, multi, init) =>
      f < |s.fds| && s.fds[f].prepared > 0 && Enabled(depth, s.core, Insert(key, multi, Some(f), None, init))
    case DropPrepared(f) => f < |s.fds| && s.fds[f].prepared > 0
    case OpenFd(raw) => forall f :: 0 <= f < |s.fds| && s.fds[f].inner.raw == raw ==> !s.fds[f].os
    case DropUser(f) => f < |s.fds| && !s.fds[f].user.Released?
    case BeginClose(f) => f < |s.fds| && s.fds[f].user.InUse?
    case PollCloseFd(f, w, key, init) =>
      f < |s.fds| && s.fds[f].user.Closing? && s.core.pending.Idle?
      && Enabled(depth, s.core, Insert(key, false, None, Some(f), init))
    case ExecuteClose(g) =>
      g < |s.core.reqs| && s.core.reqs[g].closes.Some? && s.core.reqs[g].io.stage.InKernel?
      && g !in s.executed && s.core.reqs[g].closes.value < |s.fds|
  }

  /** The one generation a driver step can change. */
  function Candidate<D, O>(s: Core<D, O>, step: Step<D>): Option<nat> {
    match step
    case Consume => if s.sq != [] && s.sq[0].OpSqe? then Some(s.sq[0].gen) else None
    case PostCqe(g, _) => Some(g)
    case DispatchOne =>
      if s.cq != [] && s.cq[0].userData != USIZE_MAX && s.cq[0].userData in s.owner
      then Some(s.owner[s.cq[0].userData]) else None
    case Push => if s.pending.Submitting? && s.pending.gens != [] then Some(s.pending.gens[0]) else None
    case Poll(g, _) => Some(g)
    case DropOp(g) => Some(g)
    case _ => None
  }

  /** The generation whose data this driver step releases. */
  function Releases<D, O>(s: Core<D, O>, t: Core<D, O>, step: Step<D>): Option<nat> {
    var c := Candidate(s, step);
    if c.Some? && c.value < |s.reqs| && c.value < |t.reqs|
       && !s.reqs[c.value].use.holder.Gone? && t.reqs[c.value].use.holder.Gone?
    then c else None
  }

  /** One reference to descriptor `f` is dropped. */
  function DropRef<D, O>(s: Sys<D, O>, f: nat): Sys<D, O>
    requires f < |s.fds| && s.fds[f].inner.strong > 0
  {
    var i := Dropped(s.fds[f].inner);
    s.(fds := s.fds[f := s.fds[f].(inner := i, os := s.fds[f].os && i.syncCloses == s.fds[f].inner.syncCloses)],
       wakes := s.wakes + DropWakes(s.fds[f].inner))
  }

  /** A driver step: a new request clones its descriptor, released data drops
      its clone. */
  function DriverStep<D, O>(b: Behaviour<D, O>, depth: nat, s: Sys<D, O>, step: Step<D>): Outcome<Sys<D, O>> {
    match Next(b, depth, s.core, step)
    case Panic => Panic
    case Done(t) =>
      var s' := s.(core := t);
      if step.Insert? then
        if Enabled(depth, s.core, step) && step.fd.Some? && step.fd.value < |s.fds|
        then
          var f := step.fd.value;
          Done(s'.(fds := s.fds[f := s.fds[f].(inner := Cloned(s.fds[f].inner))]))
        else Done(s')
      else
        var g := Releases(s.core, t, step);
        if g.None? || s.core.reqs[g.value].fd.None? then Done(s')
        else
          var f := s.core.reqs[g.value].fd.value;
          if f < |s.fds| && s.fds[f].inner.strong > 0 then Done(DropRef(s', f)) else Panic
  }

  function PollCloseStep<D, O>(s: Sys<D, O>, f: nat, w: Waker, key: nat, init: D): Outcome<Sys<D, O>>
    requires f < |s.fds|
  {
    match PollClose(s.fds[f].inner, w)
    case Panic => Panic
    case Done(AlreadyClosed) => Done(s.(fds := s.fds[f := s.fds[f].(user := Awaiting)]))
    case Done(Pending(i)) =>
      Done(s.(fds := s.fds[f := s.fds[f].(inner := i, user := Closing(Some(Armed(w, |s.wakes|))))]))
    case Done(Submit(i)) =>
      Done(s.(core := InsertReq(s.core, Fresh(key, false, None, Some(f), init)),
              fds := s.fds[f := s.fds[f].(inner := i, user := Awaiting, closer := Some(|s.core.reqs|))]))
  }

  function NextFd<D, O>(b: Behaviour<D, O>, depth: nat, s: Sys<D, O>, step: FdStep<D>): Outcome<Sys<D, O>> {
    if !EnabledFd(depth, s, step) then Done(s)
    else
      match step
      case Driver(d) => DriverStep(b, depth, s, d)
      case OpenFd(raw) => Done(s.(fds := s.fds + [Fd(Opened(raw), InUse, 0, None, true, 0)]))
      case DropUser(f) =>
        var s' := s.(fds := s.fds[f := s.fds[f].(user := Released)]);
        if s.fds[f].inner.strong > 0 then Done(DropRef(s', f)) else Panic
      case Prepare(f) =>
        var fd := s.fds[f].(inner := Cloned(s.fds[f].inner), prepared := s.fds[f].prepared + 1);
        Done(s.(fds := s.fds[f := fd]))
      case SubmitPrepared(f, key, multi, init) =>
        Done(s.(core := InsertReq(s.core, Fresh(key, multi, Some(f), None, init)),
                fds := s.fds[f := s.fds[f].(prepared := s.fds[f].prepared - 1)]))
      case DropPrepared(f) =>
        var s' := s.(fds := s.fds[f := s.fds[f].(prepared := s.fds[f].prepared - 1)]);
        if s.fds[f].inner.strong > 0 then Done(DropRef(s', f)) else Panic
      case BeginClose(f) => Done(s.(fds := s.fds[f := s.fds[f].(user := Closing(None))]))
      case PollCloseFd(f, w, key, init) => PollCloseStep(s, f, w, key, init)
      case ExecuteClose(g) =>
        var f := s.core.reqs[g].closes.value;
        Done(s.(fds := s.fds[f := s.fds[f].(os := false, asyncCloses := s.fds[f].asyncCloses + 1)],
                executed := s.executed + {g}))
  }

  function RunFd<D, O>(b: Behaviour<D, O>, depth: nat, steps: seq<FdStep<D>>): Outcome<Sys<D, O>> {
    if steps == [] then Done(StartSys())
    else
      match RunFd(b, depth, steps[..|steps| - 1])
      case Panic => Panic
      case Done(s) => NextFd(b, depth, s, steps[|steps| - 1])
  }
}
