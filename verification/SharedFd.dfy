/** The shared descriptor: a reference count and a small state that decides
    when the descriptor may be closed. */
module SharedFd {
  import opened Uring

  datatype State = Init | WaitingForUniqueness(waker: Waker) | Closed

  /** `Inner` behind its `Rc`: the raw number, the strong count, the state, and
      how often the descriptor was closed synchronously. */
  datatype Inner = Inner(raw: nat, strong: nat, state: State, syncCloses: nat)

  function Opened(raw: nat): Inner { Inner(raw, 1, Init, 0) }

  function Cloned(i: Inner): Inner { i.(strong := i.strong + 1) }

  /** The task a drop wakes. */
  function DropWakes(i: Inner): seq<Waker> {
    if i.state.WaitingForUniqueness? then [i.state.waker] else []
  }

  /** Dropping one `SharedFd`: a waiting closer is woken and has to register
      again; the last drop closes the descriptor unless an asynchronous close
      was started. */
  function Dropped(i: Inner): Inner
    requires i.strong > 0
  {
    var state := if i.state.WaitingForUniqueness? then Init else i.state;
    var last := i.strong == 1 && !state.Closed?;
    Inner(i.raw, i.strong - 1, state, if last then i.syncCloses + 1 else i.syncCloses)
  }

  /** What one poll of `close` does before the close request is awaited. */
  datatype ClosePoll = Submit(inner: Inner) | AlreadyClosed | Pending(inner: Inner)

  /** The loop of `close`: with the only reference, mark the descriptor closed
      and submit the close; otherwise wait for a drop. `Closed` with several
      references would make the loop spin for ever, which is a `Panic` here. */
  function PollClose(i: Inner, w: Waker): Outcome<ClosePoll> {
    if i.strong == 1 then
      if i.state.Closed? then Done(AlreadyClosed) else Done(Submit(i.(state := Closed)))
    else
      match i.state
      case Init => Done(Pending(i.(state := WaitingForUniqueness(w))))
      case WaitingForUniqueness(_) => Done(Pending(i.(state := WaitingForUniqueness(w))))
      case Closed => Panic
  }

  /** The shared cell itself, updated in place. */
  class Cell {
    const raw: nat
    var strong: nat
    var state: State
    var syncCloses: nat

    ghost function Value(): Inner
      reads this
    {
      Inner(raw, strong, state, syncCloses)
    }

    constructor (fd: nat)
      ensures Value() == Opened(fd)
    {
      raw, strong, state, syncCloses := fd, 1, Init, 0;
    }

    method Clone()
      modifies this
      ensures Value() == Cloned(old(Value()))
    {
      strong := strong + 1;
    }

    /** `SharedFd::drop`, then the `Rc` gives up one reference, and with the
        last one `Inner::drop` runs. */
    method Drop() returns (woken: Option<Waker>)
      requires strong > 0
      modifies this
      ensures Value() == Dropped(old(Value()))
      ensures (if woken.Some? then [woken.value] else []) == DropWakes(old(Value()))
    {
      woken := None;
      match state {
        case WaitingForUniqueness(w) =>
          state := Init;
          woken := Some(w);
        case _ =>
      }
      strong := strong - 1;
      if strong == 0 && !state.Closed? {
        syncCloses := syncCloses + 1;
      }
    }

    /** `Rc::get_mut` and `async_close_op`: true if the close is to be
        submitted. */
    method TryClose() returns (submit: bool)
      requires strong == 1
      modifies this`state
      ensures state.Closed?
      ensures submit <==> !old(state).Closed?
      ensures forall w :: PollClose(old(Value()), w) == Done(if submit then Submit(Value()) else AlreadyClosed)
    {
      submit := !state.Closed?;
      state := Closed;
    }

    /** One poll of `sharedfd_is_unique`. */
    method PollUnique(w: Waker) returns (ready: bool)
      modifies this`state
      ensures ready <==> strong == 1 || old(state).Closed?
      ensures ready ==> Value() == old(Value())
      ensures !ready ==> PollClose(old(Value()), w) == Done(Pending(Value()))
    {
      if strong == 1 {
        return true;
      }
      match state {
        case Init =>
          state := WaitingForUniqueness(w);
          ready := false;
        case WaitingForUniqueness(old_) =>
          if old_ != w {
            state := WaitingForUniqueness(w);
          }
          ready := false;
        case Closed =>
          ready := true;
      }
    }
  }
}
