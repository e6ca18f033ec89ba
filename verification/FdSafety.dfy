/** No request is ever in flight on a closed descriptor, and a descriptor is
    closed at most once: the invariant of the composed system and its proof. */
module FdSafety {
  import opened Uring
  import opened Multishot
  import opened Protocol
  import opened Invariant
  import opened Preservation
  import opened DriverSafety
  import opened SharedFd
  import opened FdProtocol

  // ---- Counting the clones held by operations ----

  predicate Holds<D, O>(r: Req<D, O>, f: nat) {
    !r.use.holder.Gone? && r.fd == Some(f)
  }

  /** How many operations' data hold a clone of descriptor `f`. */
  function Holders<D, O>(reqs: Reqs<D, O>, f: nat): nat {
    if reqs == [] then 0
    else Holders(reqs[..|reqs| - 1], f) + (if Holds(reqs[|reqs| - 1], f) then 1 else 0)
  }

  lemma {:induction false} HoldersUpdate<D, O>(reqs: Reqs<D, O>, g: nat, r: Req<D, O>, f: nat)
    requires g < |reqs|
    ensures Holders(reqs[g := r], f) + (if Holds(reqs[g], f) then 1 else 0) ==
      Holders(reqs, f) + (if Holds(r, f) then 1 else 0)
    decreases |reqs|
  {
    var n := |reqs| - 1;
    if g == n {
      assert reqs[g := r][..n] == reqs[..n];
    } else {
      assert reqs[g := r][..n] == reqs[..n][g := r];
      HoldersUpdate(reqs[..n], g, r, f);
    }
  }

  lemma {:induction false} HoldersPositive<D, O>(reqs: Reqs<D, O>, g: nat, f: nat)
    requires g < |reqs| && Holds(reqs[g], f)
    ensures Holders(reqs, f) > 0
    decreases |reqs|
  {
    if g < |reqs| - 1 {
      HoldersPositive(reqs[..|reqs| - 1], g, f);
    }
  }

  lemma {:induction false} NoHolders<D, O>(reqs: Reqs<D, O>, f: nat)
    requires forall g :: 0 <= g < |reqs| ==> reqs[g].fd != Some(f)
    ensures Holders(reqs, f) == 0
    decreases |reqs|
  {
    if reqs != [] {
      NoHolders(reqs[..|reqs| - 1], f);
    }
  }

  // ---- The invariant ----

  /** One descriptor, given how many operations hold it. */
  ghost predicate FdOk(fd: Fd, holders: nat, wakes: seq<Waker>, executed: set<nat>) {
    var i := fd.inner;
    && i.strong == (if fd.user.Released? then 0 else 1) + fd.prepared + holders
    && (i.state.Closed? <==> fd.closer.Some?)
    && (fd.user.Awaiting? ==> i.state.Closed?)
    && (i.state.Closed? ==>
          && fd.prepared == 0 && holders == 0 && (fd.user.Awaiting? || fd.user.Released?) && i.syncCloses == 0
          && fd.asyncCloses == (if fd.closer.value in executed then 1 else 0)
          && (fd.os <==> fd.asyncCloses == 0))
    && (!i.state.Closed? ==>
          && fd.asyncCloses == 0 && i.syncCloses == (if i.strong == 0 then 1 else 0)
          && (fd.os <==> i.strong > 0))
    && (i.state.WaitingForUniqueness? ==> fd.user.Closing? && i.strong > 1)
    && CloserOk(fd, wakes)
  }

  /** A waiting closer is registered or has been woken since it last polled. */
  ghost predicate CloserOk(fd: Fd, wakes: seq<Waker>) {
    fd.user.Closing? && fd.user.armed.Some? ==>
      var a := fd.user.armed.value;
      && a.since <= |wakes|
      && (fd.inner.state == WaitingForUniqueness(a.waker) || a.waker in wakes[a.since..])
  }

  ghost predicate FdsOk<D, O>(reqs: Reqs<D, O>, fds: seq<Fd>, wakes: seq<Waker>, executed: set<nat>) {
    forall f :: 0 <= f < |fds| ==> FdOk(fds[f], Holders(reqs, f), wakes, executed)
  }

  /** Requests name descriptors that exist, and the close request of a
      descriptor is unique. */
  ghost predicate TagsOk<D, O>(reqs: Reqs<D, O>, fds: seq<Fd>, executed: set<nat>) {
    && (forall g :: 0 <= g < |reqs| && reqs[g].fd.Some? ==> reqs[g].fd.value < |fds|)
    && (forall g :: 0 <= g < |reqs| && reqs[g].closes.Some? ==>
          reqs[g].closes.value < |fds| && fds[reqs[g].closes.value].closer == Some(g))
    && (forall f :: 0 <= f < |fds| && fds[f].closer.Some? ==>
          fds[f].closer.value < |reqs| && reqs[fds[f].closer.value].closes == Some(f))
    && (forall g :: g in executed ==> g < |reqs|)
  }

  /** Descriptors the operating system has open have different numbers. */
  ghost predicate RawOk(fds: seq<Fd>) {
    forall f, h ::
      0 <= f < |fds| && 0 <= h < |fds| && fds[f].os && fds[h].os && fds[f].inner.raw == fds[h].inner.raw ==>
        f == h
  }

  ghost predicate FdInv<D, O>(s: Sys<D, O>) {
    FdsOk(s.core.reqs, s.fds, s.wakes, s.executed) && TagsOk(s.core.reqs, s.fds, s.executed) && RawOk(s.fds)
  }

  // ---- What a driver step does to the requests ----

  ghost predicate SameTags<D, O>(r: Req<D, O>, r': Req<D, O>) {
    r'.fd == r.fd && r'.closes == r.closes && (r.use.holder.Gone? ==> r'.use.holder.Gone?)
  }

  /** A driver step that inserts nothing changes at most its candidate, keeps
      the descriptors it names, and never takes released data back. */
  ghost predicate TouchesOne<D, O>(s: Core<D, O>, t: Core<D, O>, step: Step<D>) {
    t.reqs == s.reqs ||
    (var c := Candidate(s, step);
     c.Some? && c.value < |s.reqs| && |t.reqs| == |s.reqs|
     && t.reqs == s.reqs[c.value := t.reqs[c.value]] && SameTags(s.reqs[c.value], t.reqs[c.value]))
  }

  lemma DriverTouchesOne<D, O>(b: Behaviour<D, O>, depth: nat, s: Core<D, O>, step: Step<D>)
    requires Next(b, depth, s, step).Done? && !step.Insert?
    ensures TouchesOne(s, Next(b, depth, s, step).value, step)
  {
  }

  // ---- Steps ----

  /** Everything but one descriptor and one generation stays as it is. */
  lemma FdsFrame<D, O>(reqs: Reqs<D, O>, reqs': Reqs<D, O>, fds: seq<Fd>, wakes: seq<Waker>, more: seq<Waker>,
                       executed: set<nat>, f: nat, fd: Fd)
    requires FdsOk(reqs, fds, wakes, executed) && f < |fds|
    requires forall h :: 0 <= h < |fds| && h != f ==> Holders(reqs', h) == Holders(reqs, h)
    requires FdOk(fd, Holders(reqs', f), wakes + more, executed)
    ensures FdsOk(reqs', fds[f := fd], wakes + more, executed)
  {
    forall h | 0 <= h < |fds| ensures FdOk(fds[f := fd][h], Holders(reqs', h), wakes + more, executed) {
      if h != f {
        FdOkMonotone(fds[h], Holders(reqs, h), wakes, more, executed);
      }
    }
  }

  lemma FdOkMonotone(fd: Fd, holders: nat, wakes: seq<Waker>, more: seq<Waker>, executed: set<nat>)
    requires FdOk(fd, holders, wakes, executed)
    ensures FdOk(fd, holders, wakes + more, executed)
  {
    if fd.user.Closing? && fd.user.armed.Some? {
      WokenStays(wakes, more, fd.user.armed.value);
    }
  }

  /** The descriptor after one reference is dropped. */
  function FdDropped(fd: Fd): Fd
    requires fd.inner.strong > 0
  {
    fd.(inner := Dropped(fd.inner), os := fd.os && Dropped(fd.inner).syncCloses == fd.inner.syncCloses)
  }

  /** Operation data is released and drops its clone. */
  lemma OpDropsFd(fd: Fd, holders: nat, wakes: seq<Waker>, executed: set<nat>)
    requires FdOk(fd, holders, wakes, executed) && holders > 0
    ensures FdOk(FdDropped(fd), holders - 1, wakes + DropWakes(fd.inner), executed)
  {
    if fd.user.Closing? && fd.user.armed.Some? {
      WokenStays(wakes, DropWakes(fd.inner), fd.user.armed.value);
    }
  }

  lemma UserDropsFd(fd: Fd, holders: nat, wakes: seq<Waker>, executed: set<nat>)
    requires FdOk(fd, holders, wakes, executed) && !fd.user.Released?
    ensures FdOk(FdDropped(fd.(user := Released)), holders, wakes + DropWakes(fd.inner), executed)
  {
  }

  lemma StepDriverQuiet<D, O>(s: Sys<D, O>, t: Core<D, O>, step: Step<D>)
    requires FdInv(s) && TouchesOne(s.core, t, step)
    requires Releases(s.core, t, step).None? || s.core.reqs[Releases(s.core, t, step).value].fd.None?
    ensures FdInv(s.(core := t))
  {
    if t.reqs != s.core.reqs {
      var c := Candidate(s.core, step).value;
      forall f | 0 <= f < |s.fds| ensures Holders(t.reqs, f) == Holders(s.core.reqs, f) {
        HoldersUpdate(s.core.reqs, c, t.reqs[c], f);
      }
    }
  }

  lemma StepDriverRelease<D, O>(s: Sys<D, O>, t: Core<D, O>, step: Step<D>, g: nat, f: nat)
    requires FdInv(s) && TouchesOne(s.core, t, step)
    requires Releases(s.core, t, step) == Some(g) && s.core.reqs[g].fd == Some(f)
    ensures f < |s.fds| && s.fds[f].inner.strong > 0 && FdInv(DropRef(s.(core := t), f))
  {
    HoldersPositive(s.core.reqs, g, f);
    assert FdOk(s.fds[f], Holders(s.core.reqs, f), s.wakes, s.executed);
    ReleaseFds(s.core.reqs, t.reqs, s.fds, s.wakes, s.executed, g, f);
    ReleaseTags(s.core.reqs, t.reqs, s.fds, s.executed, g, f);
  }

  lemma ReleaseFds<D, O>(reqs: Reqs<D, O>, reqs': Reqs<D, O>, fds: seq<Fd>, wakes: seq<Waker>, executed: set<nat>,
                         g: nat, f: nat)
    requires FdsOk(reqs, fds, wakes, executed) && f < |fds| && fds[f].inner.strong > 0
    requires g < |reqs| && |reqs'| == |reqs| && reqs' == reqs[g := reqs'[g]]
    requires Holds(reqs[g], f) && reqs'[g].fd == reqs[g].fd && reqs'[g].use.holder.Gone?
    ensures FdsOk(reqs', fds[f := FdDropped(fds[f])], wakes + DropWakes(fds[f].inner), executed)
  {
    HoldersPositive(reqs, g, f);
    forall h: nat ensures Holders(reqs', h) == Holders(reqs, h) - (if h == f then 1 else 0) {
      HoldersUpdate(reqs, g, reqs'[g], h);
    }
    assert FdOk(fds[f], Holders(reqs, f), wakes, executed);
    OpDropsFd(fds[f], Holders(reqs, f), wakes, executed);
    FdsFrame(reqs, reqs', fds, wakes, DropWakes(fds[f].inner), executed, f, FdDropped(fds[f]));
  }

  lemma ReleaseTags<D, O>(reqs: Reqs<D, O>, reqs': Reqs<D, O>, fds: seq<Fd>, executed: set<nat>, g: nat, f: nat)
    requires TagsOk(reqs, fds, executed) && RawOk(fds) && f < |fds| && fds[f].inner.strong > 0
    requires g < |reqs| && |reqs'| == |reqs| && reqs' == reqs[g := reqs'[g]] && SameTags(reqs[g], reqs'[g])
    ensures TagsOk(reqs', fds[f := FdDropped(fds[f])], executed) && RawOk(fds[f := FdDropped(fds[f])])
  {
  }

  /** A new request: its descriptor, if any, is in use and gains a clone. */
  lemma StepInsertFd<D, O>(s: Sys<D, O>, r: Req<D, O>)
    requires FdInv(s) && r.closes.None? && r.use.holder.Held?
    requires r.fd.Some? ==> r.fd.value < |s.fds| && s.fds[r.fd.value].user.InUse?
    ensures FdInv(s.(core := InsertReq(s.core, r), fds := WithClone(s.fds, r)))
  {
    InsertFds(s.core.reqs, s.fds, s.wakes, s.executed, r);
    InsertTags(s.core.reqs, s.fds, s.executed, r);
  }

  /** The descriptors after a new request cloned the one it names. */
  function WithClone<D, O>(fds: seq<Fd>, r: Req<D, O>): seq<Fd> {
    if r.fd.Some? && r.fd.value < |fds|
    then fds[r.fd.value := fds[r.fd.value].(inner := Cloned(fds[r.fd.value].inner))] else fds
  }

  lemma InsertFds<D, O>(reqs: Reqs<D, O>, fds: seq<Fd>, wakes: seq<Waker>, executed: set<nat>, r: Req<D, O>)
    requires FdsOk(reqs, fds, wakes, executed) && r.use.holder.Held?
    requires r.fd.Some? ==> r.fd.value < |fds| && fds[r.fd.value].user.InUse?
    ensures FdsOk(reqs + [r], WithClone(fds, r), wakes, executed)
  {
  }

  lemma InsertTags<D, O>(reqs: Reqs<D, O>, fds: seq<Fd>, executed: set<nat>, r: Req<D, O>)
    requires TagsOk(reqs, fds, executed) && RawOk(fds) && r.closes.None?
    requires r.fd.Some? ==> r.fd.value < |fds|
    ensures TagsOk(reqs + [r], WithClone(fds, r), executed) && RawOk(WithClone(fds, r))
  {
  }

  lemma StepOpen<D, O>(s: Sys<D, O>, raw: nat)
    requires FdInv(s)
    requires forall f :: 0 <= f < |s.fds| && s.fds[f].inner.raw == raw ==> !s.fds[f].os
    ensures FdInv(s.(fds := s.fds + [Fd(Opened(raw), InUse, 0, None, true, 0)]))
  {
    NoHolders(s.core.reqs, |s.fds|);
  }

  lemma StepDropUser<D, O>(s: Sys<D, O>, f: nat)
    requires FdInv(s) && f < |s.fds| && !s.fds[f].user.Released?
    ensures s.fds[f].inner.strong > 0
    ensures FdInv(DropRef(s.(fds := s.fds[f := s.fds[f].(user := Released)]), f))
  {
    var reqs := s.core.reqs;
    assert FdOk(s.fds[f], Holders(reqs, f), s.wakes, s.executed);
    UserDropsFd(s.fds[f], Holders(reqs, f), s.wakes, s.executed);
    var fd := FdDropped(s.fds[f].(user := Released));
    FdsFrame(reqs, reqs, s.fds, s.wakes, DropWakes(s.fds[f].inner), s.executed, f, fd);
    assert s.fds[f := s.fds[f].(user := Released)][f := fd] == s.fds[f := fd];
  }

  /** An operation is built: one more clone that no request holds. */
  lemma StepPrepare<D, O>(s: Sys<D, O>, f: nat)
    requires FdInv(s) && f < |s.fds| && s.fds[f].user.InUse?
    ensures FdInv(s.(fds := s.fds[f := s.fds[f].(inner := Cloned(s.fds[f].inner), prepared := s.fds[f].prepared + 1)]))
  {
    var reqs := s.core.reqs;
    var fd := s.fds[f].(inner := Cloned(s.fds[f].inner), prepared := s.fds[f].prepared + 1);
    assert FdOk(s.fds[f], Holders(reqs, f), s.wakes, s.executed);
    assert s.wakes + [] == s.wakes;
    FdsFrame(reqs, reqs, s.fds, s.wakes, [], s.executed, f, fd);
  }

  /** An operation that was built and not submitted is dropped. */
  lemma StepDropPrepared<D, O>(s: Sys<D, O>, f: nat)
    requires FdInv(s) && f < |s.fds| && s.fds[f].prepared > 0
    ensures s.fds[f].inner.strong > 0
    ensures FdInv(DropRef(s.(fds := s.fds[f := s.fds[f].(prepared := s.fds[f].prepared - 1)]), f))
  {
    var reqs := s.core.reqs;
    assert FdOk(s.fds[f], Holders(reqs, f), s.wakes, s.executed);
    PreparedDropsFd(s.fds[f], Holders(reqs, f), s.wakes, s.executed);
    var fd := FdDropped(s.fds[f].(prepared := s.fds[f].prepared - 1));
    FdsFrame(reqs, reqs, s.fds, s.wakes, DropWakes(s.fds[f].inner), s.executed, f, fd);
    assert s.fds[f := s.fds[f].(prepared := s.fds[f].prepared - 1)][f := fd] == s.fds[f := fd];
  }

  lemma PreparedDropsFd(fd: Fd, holders: nat, wakes: seq<Waker>, executed: set<nat>)
    requires FdOk(fd, holders, wakes, executed) && fd.prepared > 0
    ensures FdOk(FdDropped(fd.(prepared := fd.prepared - 1)), holders, wakes + DropWakes(fd.inner), executed)
  {
    if fd.user.Closing? && fd.user.armed.Some? {
      WokenStays(wakes, DropWakes(fd.inner), fd.user.armed.value);
    }
  }

  /** A built operation is submitted, whatever its owner does meanwhile: the
      clone moves from the operation into the request. */
  lemma StepSubmitPrepared<D, O>(s: Sys<D, O>, f: nat, r: Req<D, O>)
    requires FdInv(s) && f < |s.fds| && s.fds[f].prepared > 0
    requires r.fd == Some(f) && r.closes.None? && r.use.holder.Held?
    ensures FdInv(s.(core := InsertReq(s.core, r), fds := s.fds[f := s.fds[f].(prepared := s.fds[f].prepared - 1)]))
  {
    var reqs, fd := s.core.reqs, s.fds[f].(prepared := s.fds[f].prepared - 1);
    assert FdOk(s.fds[f], Holders(reqs, f), s.wakes, s.executed);
    assert (reqs + [r])[..|reqs|] == reqs;
    assert s.wakes + [] == s.wakes;
    assert FdOk(fd, Holders(reqs + [r], f), s.wakes + [], s.executed);
    FdsFrame(reqs, reqs + [r], s.fds, s.wakes, [], s.executed, f, fd);
    SubmitPreparedTags(reqs, s.fds, s.executed, f, fd, r);
  }

  lemma SubmitPreparedTags<D, O>(reqs: Reqs<D, O>, fds: seq<Fd>, executed: set<nat>, f: nat, fd: Fd, r: Req<D, O>)
    requires TagsOk(reqs, fds, executed) && RawOk(fds) && f < |fds| && r.fd == Some(f) && r.closes.None?
    requires fd.closer == fds[f].closer && fd.os == fds[f].os && fd.inner.raw == fds[f].inner.raw
    ensures TagsOk(reqs + [r], fds[f := fd], executed) && RawOk(fds[f := fd])
  {
  }

  lemma StepBeginClose<D, O>(s: Sys<D, O>, f: nat)
    requires FdInv(s) && f < |s.fds| && s.fds[f].user.InUse?
    ensures FdInv(s.(fds := s.fds[f := s.fds[f].(user := Closing(None))]))
  {
  }

  lemma StepPollClose<D, O>(s: Sys<D, O>, f: nat, w: Waker, key: nat, init: D)
    requires FdInv(s) && f < |s.fds| && s.fds[f].user.Closing?
    ensures PollCloseStep(s, f, w, key, init).Done? && FdInv(PollCloseStep(s, f, w, key, init).value)
  {
    var reqs := s.core.reqs;
    var i := s.fds[f].inner;
    assert FdOk(s.fds[f], Holders(reqs, f), s.wakes, s.executed);
    assert s.wakes + [] == s.wakes;
    if i.strong == 1 {
      SubmitClose(s, f, key, init);
    } else {
      var fd := s.fds[f].(inner := i.(state := WaitingForUniqueness(w)), user := Closing(Some(Armed(w, |s.wakes|))));
      assert FdOk(fd, Holders(reqs, f), s.wakes + [], s.executed);
      FdsFrame(reqs, reqs, s.fds, s.wakes, [], s.executed, f, fd);
    }
  }

  /** The close request is submitted by the last holder only. */
  lemma SubmitClose<D, O>(s: Sys<D, O>, f: nat, key: nat, init: D)
    requires FdInv(s) && f < |s.fds| && s.fds[f].user.Closing? && s.fds[f].inner.strong == 1
    ensures !s.fds[f].inner.state.Closed? && Holders(s.core.reqs, f) == 0
    ensures var inner := s.fds[f].inner.(state := Closed);
      var fd := s.fds[f].(inner := inner, user := Awaiting, closer := Some(|s.core.reqs|));
      FdInv(s.(core := InsertReq(s.core, Fresh(key, false, None, Some(f), init)), fds := s.fds[f := fd]))
  {
    var reqs, r := s.core.reqs, Fresh<D, O>(key, false, None, Some(f), init);
    var fd := s.fds[f].(inner := s.fds[f].inner.(state := Closed), user := Awaiting, closer := Some(|reqs|));
    SubmitCloseFds(reqs, s.fds, s.wakes, s.executed, f, fd, r);
    SubmitCloseTags(reqs, s.fds, s.executed, f, fd, r);
  }

  lemma SubmitCloseFds<D, O>(reqs: Reqs<D, O>, fds: seq<Fd>, wakes: seq<Waker>, executed: set<nat>, f: nat, fd: Fd,
                             r: Req<D, O>)
    requires FdsOk(reqs, fds, wakes, executed) && f < |fds| && fds[f].user.Closing? && fds[f].inner.strong == 1
    requires fd == fds[f].(inner := fds[f].inner.(state := Closed), user := Awaiting, closer := Some(|reqs|))
    requires r.fd.None? && |reqs| !in executed
    ensures !fds[f].inner.state.Closed? && Holders(reqs, f) == 0
    ensures FdsOk(reqs + [r], fds[f := fd], wakes, executed)
  {
  }

  lemma SubmitCloseTags<D, O>(reqs: Reqs<D, O>, fds: seq<Fd>, executed: set<nat>, f: nat, fd: Fd, r: Req<D, O>)
    requires TagsOk(reqs, fds, executed) && RawOk(fds) && f < |fds| && fds[f].closer.None?
    requires fd.closer == Some(|reqs|) && fd.os == fds[f].os && fd.inner.raw == fds[f].inner.raw
    requires r.fd.None? && r.closes == Some(f)
    ensures TagsOk(reqs + [r], fds[f := fd], executed) && RawOk(fds[f := fd])
  {
  }

  lemma StepExecute<D, O>(s: Sys<D, O>, g: nat)
    requires FdInv(s) && g < |s.core.reqs| && s.core.reqs[g].closes.Some? && g !in s.executed
    ensures var f := s.core.reqs[g].closes.value;
      f < |s.fds| && s.fds[f].os &&
      var fd := s.fds[f].(os := false, asyncCloses := s.fds[f].asyncCloses + 1);
      FdInv(s.(fds := s.fds[f := fd], executed := s.executed + {g}))
  {
  }

  lemma StepDriver<D, O>(b: Behaviour<D, O>, depth: nat, s: Sys<D, O>, step: Step<D>)
    requires Inv(b, s.core) && FdInv(s) && EnabledFd(depth, s, Driver(step))
    ensures DriverStep(b, depth, s, step).Done?
    ensures Inv(b, DriverStep(b, depth, s, step).value.core) && FdInv(DriverStep(b, depth, s, step).value)
  {
    if step.Insert? {
      StepDriverInsert(b, depth, s, step);
    } else {
      NextOk(b, depth, s.core, step);
      DriverTouchesOne(b, depth, s.core, step);
      StepDriverOther(b, depth, s, step, Next(b, depth, s.core, step).value);
    }
  }

  lemma StepDriverInsert<D, O>(b: Behaviour<D, O>, depth: nat, s: Sys<D, O>, step: Step<D>)
    requires Inv(b, s.core) && FdInv(s) && step.Insert? && EnabledFd(depth, s, Driver(step))
    ensures DriverStep(b, depth, s, step).Done?
    ensures Inv(b, DriverStep(b, depth, s, step).value.core) && FdInv(DriverStep(b, depth, s, step).value)
  {
    if Enabled(depth, s.core, step) {
      var r: Req<D, O> := Fresh(step.key, step.multi, step.fd, step.closes, step.init);
      StepInsert(b, s.core, step.key, step.multi, step.fd, step.closes, step.init);
      StepInsertFd(s, r);
      InsertIs(b, depth, s, step, r);
    }
  }

  lemma InsertIs<D, O>(b: Behaviour<D, O>, depth: nat, s: Sys<D, O>, step: Step<D>, r: Req<D, O>)
    requires step.Insert? && Enabled(depth, s.core, step)
    requires r == Fresh(step.key, step.multi, step.fd, step.closes, step.init)
    ensures DriverStep(b, depth, s, step) == Done(s.(core := InsertReq(s.core, r), fds := WithClone(s.fds, r)))
  {
  }

  lemma StepDriverOther<D, O>(b: Behaviour<D, O>, depth: nat, s: Sys<D, O>, step: Step<D>, t: Core<D, O>)
    requires FdInv(s) && !step.Insert? && Next(b, depth, s.core, step) == Done(t) && TouchesOne(s.core, t, step)
    ensures DriverStep(b, depth, s, step).Done?
    ensures DriverStep(b, depth, s, step).value.core == t && FdInv(DriverStep(b, depth, s, step).value)
  {
    var g := Releases(s.core, t, step);
    if g.None? || s.core.reqs[g.value].fd.None? {
      StepDriverQuiet(s, t, step);
    } else {
      StepDriverRelease(s, t, step, g.value, s.core.reqs[g.value].fd.value);
    }
  }

  lemma PollCloseCore<D, O>(b: Behaviour<D, O>, depth: nat, s: Sys<D, O>, f: nat, w: Waker, key: nat, init: D)
    requires Inv(b, s.core) && f < |s.fds| && PollCloseStep(s, f, w, key, init).Done?
    requires Enabled(depth, s.core, Insert(key, false, None, Some(f), init))
    ensures Inv(b, PollCloseStep(s, f, w, key, init).value.core)
  {
    StepInsert(b, s.core, key, false, None, Some(f), init);
  }

  lemma NextSubmitPrepared<D, O>(b: Behaviour<D, O>, depth: nat, s: Sys<D, O>, step: FdStep<D>)
    requires Inv(b, s.core) && FdInv(s) && step.SubmitPrepared? && EnabledFd(depth, s, step)
    ensures NextFd(b, depth, s, step).Done?
    ensures Inv(b, NextFd(b, depth, s, step).value.core) && FdInv(NextFd(b, depth, s, step).value)
  {
    var r: Req<D, O> := Fresh(step.key, step.multi, Some(step.fd), None, step.init);
    StepSubmitPrepared(s, step.fd, r);
    SubmitPreparedCore(b, depth, s, step, r);
  }

  lemma SubmitPreparedCore<D, O>(b: Behaviour<D, O>, depth: nat, s: Sys<D, O>, step: FdStep<D>, r: Req<D, O>)
    requires Inv(b, s.core) && step.SubmitPrepared? && EnabledFd(depth, s, step)
    requires r == Fresh(step.key, step.multi, Some(step.fd), None, step.init)
    ensures Inv(b, InsertReq(s.core, r))
    ensures var fd := s.fds[step.fd].(prepared := s.fds[step.fd].prepared - 1);
      NextFd(b, depth, s, step) == Done(s.(core := InsertReq(s.core, r), fds := s.fds[step.fd := fd]))
  {
    StepInsert(b, s.core, step.key, step.multi, Some(step.fd), None, step.init);
    SubmitPreparedIs(b, depth, s, step, r);
  }

  lemma SubmitPreparedIs<D, O>(b: Behaviour<D, O>, depth: nat, s: Sys<D, O>, step: FdStep<D>, r: Req<D, O>)
    requires step.SubmitPrepared? && EnabledFd(depth, s, step)
    requires r == Fresh(step.key, step.multi, Some(step.fd), None, step.init)
    ensures var fd := s.fds[step.fd].(prepared := s.fds[step.fd].prepared - 1);
      NextFd(b, depth, s, step) == Done(s.(core := InsertReq(s.core, r), fds := s.fds[step.fd := fd]))
  {
  }

  lemma NextPollClose<D, O>(b: Behaviour<D, O>, depth: nat, s: Sys<D, O>, step: FdStep<D>)
    requires Inv(b, s.core) && FdInv(s) && step.PollCloseFd? && EnabledFd(depth, s, step)
    ensures NextFd(b, depth, s, step).Done?
    ensures Inv(b, NextFd(b, depth, s, step).value.core) && FdInv(NextFd(b, depth, s, step).value)
  {
    StepPollClose(s, step.fd, step.waker, step.key, step.init);
    PollCloseCore(b, depth, s, step.fd, step.waker, step.key, step.init);
  }

  lemma NextFdOk<D, O>(b: Behaviour<D, O>, depth: nat, s: Sys<D, O>, step: FdStep<D>)
    requires Inv(b, s.core) && FdInv(s)
    ensures NextFd(b, depth, s, step).Done?
    ensures Inv(b, NextFd(b, depth, s, step).value.core) && FdInv(NextFd(b, depth, s, step).value)
  {
    if EnabledFd(depth, s, step) {
      match step
      case Driver(d) => StepDriver(b, depth, s, d);
      case PollCloseFd(_, _, _, _) => NextPollClose(b, depth, s, step);
      case SubmitPrepared(_, _, _, _) => NextSubmitPrepared(b, depth, s, step);
      case _ => StepFdOnly(b, depth, s, step);
    }
  }

  /** The steps that do not involve the driver. */
  lemma StepFdOnly<D, O>(b: Behaviour<D, O>, depth: nat, s: Sys<D, O>, step: FdStep<D>)
    requires FdInv(s) && EnabledFd(depth, s, step) && !step.Driver? && !step.PollCloseFd? && !step.SubmitPrepared?
    ensures NextFd(b, depth, s, step).Done?
    ensures NextFd(b, depth, s, step).value.core == s.core && FdInv(NextFd(b, depth, s, step).value)
  {
    match step
    case OpenFd(raw) => StepOpen(s, raw);
    case DropUser(f) => StepDropUser(s, f);
    case BeginClose(f) => StepBeginClose(s, f);
    case Prepare(f) => StepPrepare(s, f);
    case DropPrepared(f) => StepDropPrepared(s, f);
    case ExecuteClose(g) => StepExecute(s, g);
  }

  /** Every run of the composed system keeps both invariants, and no reference
      count underflows and no `close` spins. */
  lemma {:induction false} RunFdOk<D, O>(b: Behaviour<D, O>, depth: nat, steps: seq<FdStep<D>>)
    ensures RunFd(b, depth, steps).Done?
    ensures Inv(b, RunFd(b, depth, steps).value.core) && FdInv(RunFd(b, depth, steps).value)
    decreases |steps|
  {
    if steps == [] {
      StartOk(b);
    } else {
      var before := steps[..|steps| - 1];
      RunFdOk(b, depth, before);
      NextFdOk(b, depth, RunFd(b, depth, before).value, steps[|steps| - 1]);
    }
  }

  /** In every run, a request that is half submitted, queued or in the kernel,
      or whose completions are not all dispatched, names a descriptor that is
      open, that no close was started for, and whose number means that
      descriptor and no other. */
  lemma NoRequestOnClosedFd<D, O>(b: Behaviour<D, O>, depth: nat, steps: seq<FdStep<D>>, g: nat)
    requires RunFd(b, depth, steps).Done? && g < |RunFd(b, depth, steps).value.core.reqs|
    requires RunFd(b, depth, steps).value.core.reqs[g].fd.Some?
    requires Outstanding(RunFd(b, depth, steps).value.core, g)
    ensures var s := RunFd(b, depth, steps).value;
      var f := s.core.reqs[g].fd.value;
      && f < |s.fds|
      && s.fds[f].os && !s.fds[f].inner.state.Closed?
      && s.fds[f].inner.syncCloses == 0 && s.fds[f].asyncCloses == 0
      && (forall h :: 0 <= h < |s.fds| && s.fds[h].os && s.fds[h].inner.raw == s.fds[f].inner.raw ==> h == f)
  {
    RunFdOk(b, depth, steps);
    var s := RunFd(b, depth, steps).value;
    var f := s.core.reqs[g].fd.value;
    assert ReqOk(b, s.core.reqs[g]);
    HoldersPositive(s.core.reqs, g, f);
    assert FdOk(s.fds[f], Holders(s.core.reqs, f), s.wakes, s.executed);
  }

  /** In every run, a descriptor is closed at most once, by the asynchronous
      close or by the last drop and never by both; a close request exists only
      once nobody else holds the descriptor, so an operation that was built
      earlier can still be submitted on it, whatever its owner does. */
  lemma ClosedAtMostOnce<D, O>(b: Behaviour<D, O>, depth: nat, steps: seq<FdStep<D>>, f: nat)
    requires RunFd(b, depth, steps).Done? && f < |RunFd(b, depth, steps).value.fds|
    ensures var s := RunFd(b, depth, steps).value;
      var fd := s.fds[f];
      && fd.inner.syncCloses + fd.asyncCloses <= 1
      && (fd.os <==> fd.inner.syncCloses + fd.asyncCloses == 0)
      && (fd.closer.Some? ==> fd.inner.syncCloses == 0 && fd.prepared == 0 && Holders(s.core.reqs, f) == 0)
      && (fd.prepared > 0 ==> fd.os && fd.closer.None?)
      && (fd.inner.syncCloses > 0 ==> fd.inner.strong == 0 && fd.closer.None?)
      && (forall g :: 0 <= g < |s.core.reqs| && s.core.reqs[g].closes == Some(f) ==> fd.closer == Some(g))
  {
    RunFdOk(b, depth, steps);
    var s := RunFd(b, depth, steps).value;
    assert FdOk(s.fds[f], Holders(s.core.reqs, f), s.wakes, s.executed);
  }

  /** In every run, the strong count is the original handle plus the clones in
      operations built and in operations submitted, and a closer that is the only holder left is not left
      asleep. */
  lemma CloserIsWoken<D, O>(b: Behaviour<D, O>, depth: nat, steps: seq<FdStep<D>>, f: nat)
    requires RunFd(b, depth, steps).Done? && f < |RunFd(b, depth, steps).value.fds|
    ensures var s := RunFd(b, depth, steps).value;
      var fd := s.fds[f];
      && fd.inner.strong == (if fd.user.Released? then 0 else 1) + fd.prepared + Holders(s.core.reqs, f)
      && (fd.user.Closing? && fd.user.armed.Some? && fd.inner.strong == 1 ==>
            fd.user.armed.value.since <= |s.wakes| && fd.user.armed.value.waker in s.wakes[fd.user.armed.value.since..])
  {
    RunFdOk(b, depth, steps);
    var s := RunFd(b, depth, steps).value;
    assert FdOk(s.fds[f], Holders(s.core.reqs, f), s.wakes, s.executed);
  }

  /** What a poll of the closer does: with the only reference it submits the close
      request, otherwise it registers the waker. */
  ghost predicate MovesOn<D, O>(s: Sys<D, O>, t: Sys<D, O>, f: nat, w: Waker, key: nat, init: D)
    requires f < |s.fds|
  {
    && |t.fds| == |s.fds|
    && if s.fds[f].inner.strong == 1
       then
         && t.core.reqs == s.core.reqs + [Fresh(key, false, None, Some(f), init)]
         && t.core.pending == Submitting([|s.core.reqs|])
         && t.fds[f].closer == Some(|s.core.reqs|) && t.fds[f].user.Awaiting? && t.fds[f].inner.state.Closed?
       else
         && t.core == s.core && t.fds[f].closer.None? && t.fds[f].inner.state == WaitingForUniqueness(w)
         && t.fds[f].user == Closing(Some(Armed(w, |s.wakes|)))
  }

  /** In every run, polling the closer of a descriptor submits the close request
      if and only if nobody else holds the descriptor, and otherwise registers the
      waker of the poll. */
  lemma CloserMovesOn<D, O>(b: Behaviour<D, O>, depth: nat, steps: seq<FdStep<D>>, f: nat, w: Waker, key: nat, init: D)
    requires RunFd(b, depth, steps).Done? && f < |RunFd(b, depth, steps).value.fds|
    requires EnabledFd(depth, RunFd(b, depth, steps).value, PollCloseFd(f, w, key, init))
    ensures var s := RunFd(b, depth, steps).value;
      var next := NextFd(b, depth, s, PollCloseFd(f, w, key, init));
      next.Done? && MovesOn(s, next.value, f, w, key, init)
  {
    RunFdOk(b, depth, steps);
    NotClosed(RunFd(b, depth, steps).value, f);
    ClosePolled(b, depth, RunFd(b, depth, steps).value, f, w, key, init);
  }

  lemma NotClosed<D, O>(s: Sys<D, O>, f: nat)
    requires FdInv(s) && f < |s.fds| && s.fds[f].user.Closing?
    ensures !s.fds[f].inner.state.Closed? && s.fds[f].closer.None?
  {
    assert FdOk(s.fds[f], Holders(s.core.reqs, f), s.wakes, s.executed);
  }

  lemma ClosePolled<D, O>(b: Behaviour<D, O>, depth: nat, s: Sys<D, O>, f: nat, w: Waker, key: nat, init: D)
    requires EnabledFd(depth, s, PollCloseFd(f, w, key, init))
    requires !s.fds[f].inner.state.Closed? && s.fds[f].closer.None?
    ensures var next := NextFd(b, depth, s, PollCloseFd(f, w, key, init));
      next.Done? && MovesOn(s, next.value, f, w, key, init)
  {
  }

  /** In every run, a number that the operating system has free can be opened and
      then means a new descriptor, in use, with one holder. */
  lemma OpenGivesFd<D, O>(b: Behaviour<D, O>, depth: nat, steps: seq<FdStep<D>>, raw: nat)
    requires RunFd(b, depth, steps).Done?
    requires var fds := RunFd(b, depth, steps).value.fds;
      forall f :: 0 <= f < |fds| && fds[f].inner.raw == raw ==> !fds[f].os
    ensures var s := RunFd(b, depth, steps).value;
      && NextFd(b, depth, s, OpenFd(raw)).Done?
      && var t := NextFd(b, depth, s, OpenFd(raw)).value;
      && t.core == s.core && |t.fds| == |s.fds| + 1 && t.fds[..|s.fds|] == s.fds
      && var fd := t.fds[|s.fds|];
      fd.os && fd.inner.raw == raw && fd.inner.strong == 1 && fd.user.InUse? && fd.closer.None? && fd.prepared == 0
  {
  }

  /** In every run, a descriptor in use can be named by a request that is submitted
      at once and clones it, and its owner can begin to close it. */
  lemma InUseCanSubmit<D, O>(b: Behaviour<D, O>, depth: nat, steps: seq<FdStep<D>>, f: nat, key: nat, multi: bool,
                             init: D)
    requires RunFd(b, depth, steps).Done? && f < |RunFd(b, depth, steps).value.fds|
    requires RunFd(b, depth, steps).value.fds[f].user.InUse?
    ensures var s := RunFd(b, depth, steps).value;
      && NextFd(b, depth, s, BeginClose(f)) == Done(s.(fds := s.fds[f := s.fds[f].(user := Closing(None))]))
      && (key !in s.core.slots && key < USIZE_MAX && !s.core.pending.Cancelling? ==>
            && NextFd(b, depth, s, Driver(Insert(key, multi, Some(f), None, init))).Done?
            && var t := NextFd(b, depth, s, Driver(Insert(key, multi, Some(f), None, init))).value;
            && t.core.reqs == s.core.reqs + [Fresh(key, multi, Some(f), None, init)] && |t.fds| == |s.fds|
            && t.fds[f] == s.fds[f].(inner := s.fds[f].inner.(strong := s.fds[f].inner.strong + 1)))
  {
  }

  /** In every run, an operation can be built on a descriptor in use, and a built
      operation can be submitted in every state of the owner; the request then
      names the descriptor and holds the clone. */
  lemma BuiltIsSubmitted<D, O>(b: Behaviour<D, O>, depth: nat, steps: seq<FdStep<D>>, f: nat, key: nat, multi: bool,
                               init: D)
    requires RunFd(b, depth, steps).Done? && f < |RunFd(b, depth, steps).value.fds|
    ensures var s := RunFd(b, depth, steps).value;
      && (s.fds[f].user.InUse? ==>
            && NextFd(b, depth, s, Prepare(f)).Done? && f < |NextFd(b, depth, s, Prepare(f)).value.fds|
            && var fd := NextFd(b, depth, s, Prepare(f)).value.fds[f];
            fd.prepared == s.fds[f].prepared + 1 && fd.inner.strong == s.fds[f].inner.strong + 1)
      && (s.fds[f].prepared > 0 && key !in s.core.slots && key < USIZE_MAX && !s.core.pending.Cancelling? ==>
            && NextFd(b, depth, s, SubmitPrepared(f, key, multi, init)).Done?
            && var t := NextFd(b, depth, s, SubmitPrepared(f, key, multi, init)).value;
            && t.core.reqs == s.core.reqs + [Fresh(key, multi, Some(f), None, init)] && |t.fds| == |s.fds|
            && t.fds[f] == s.fds[f].(prepared := s.fds[f].prepared - 1))
  {
  }

  /** In every run, dropping the last holder of a descriptor closes it, unless a
      close was started, and dropping any other does not. */
  lemma LastDropCloses<D, O>(b: Behaviour<D, O>, depth: nat, steps: seq<FdStep<D>>, f: nat, step: FdStep<D>)
    requires RunFd(b, depth, steps).Done? && f < |RunFd(b, depth, steps).value.fds|
    requires var fd := RunFd(b, depth, steps).value.fds[f];
      (step == DropUser(f) && !fd.user.Released?) || (step == DropPrepared(f) && fd.prepared > 0)
    ensures var s := RunFd(b, depth, steps).value;
      && NextFd(b, depth, s, step).Done? && |NextFd(b, depth, s, step).value.fds| == |s.fds|
      && var fd, fd' := s.fds[f], NextFd(b, depth, s, step).value.fds[f];
      && fd'.inner.strong == fd.inner.strong - 1
      && fd'.inner.syncCloses == (if fd.inner.strong == 1 && fd.closer.None? then 1 else 0)
      && (fd'.os <==> fd.os && !(fd.inner.strong == 1 && fd.closer.None?))
  {
    RunFdOk(b, depth, steps);
    var s := RunFd(b, depth, steps).value;
    assert FdOk(s.fds[f], Holders(s.core.reqs, f), s.wakes, s.executed);
    DropCloses(b, depth, s, f, step);
  }

  lemma DropCloses<D, O>(b: Behaviour<D, O>, depth: nat, s: Sys<D, O>, f: nat, step: FdStep<D>)
    requires f < |s.fds| && (step == DropUser(f) || step == DropPrepared(f)) && EnabledFd(depth, s, step)
    requires FdOk(s.fds[f], Holders(s.core.reqs, f), s.wakes, s.executed)
    ensures NextFd(b, depth, s, step).Done? && |NextFd(b, depth, s, step).value.fds| == |s.fds|
    ensures var fd, fd' := s.fds[f], NextFd(b, depth, s, step).value.fds[f];
      && fd'.inner.strong == fd.inner.strong - 1
      && fd'.inner.syncCloses == (if fd.inner.strong == 1 && fd.closer.None? then 1 else 0)
      && (fd'.os <==> fd.os && !(fd.inner.strong == 1 && fd.closer.None?))
  {
  }

  /** In every run, the kernel can carry out a close request that it has, once,
      and then the descriptor that the request names is closed. */
  lemma CloseRequestCloses<D, O>(b: Behaviour<D, O>, depth: nat, steps: seq<FdStep<D>>, f: nat)
    requires RunFd(b, depth, steps).Done? && f < |RunFd(b, depth, steps).value.fds|
    requires RunFd(b, depth, steps).value.fds[f].closer.Some?
    ensures var s := RunFd(b, depth, steps).value;
      var g := s.fds[f].closer.value;
      && g < |s.core.reqs| && s.core.reqs[g].closes == Some(f)
      && (s.core.reqs[g].io.stage.InKernel? && g !in s.executed ==>
            && EnabledFd(depth, s, ExecuteClose(g)) && s.fds[f].os
            && NextFd(b, depth, s, ExecuteClose(g)).Done?
            && var t := NextFd(b, depth, s, ExecuteClose(g)).value;
            && |t.fds| == |s.fds| && !t.fds[f].os && t.fds[f].asyncCloses == 1 && g in t.executed)
  {
    RunFdOk(b, depth, steps);
    var s := RunFd(b, depth, steps).value;
    assert FdOk(s.fds[f], Holders(s.core.reqs, f), s.wakes, s.executed);
  }

  /** The driver steps contained in a step of the composed system. */
  function DriverPart<D, O>(depth: nat, s: Sys<D, O>, step: FdStep<D>): seq<Step<D>> {
    if !EnabledFd(depth, s, step) then []
    else
      match step
      case Driver(d) => [d]
      case SubmitPrepared(f, key, multi, init) => [Insert(key, multi, Some(f), None, init)]
      case PollCloseFd(f, w, key, init) =>
        (match PollClose(s.fds[f].inner, w)
         case Done(Submit(_)) => [Insert(key, false, None, Some(f), init)]
         case _ => [])
      case _ => []
  }

  lemma StepProjects<D, O>(b: Behaviour<D, O>, depth: nat, s: Sys<D, O>, step: FdStep<D>)
    requires NextFd(b, depth, s, step).Done?
    ensures var part := DriverPart(depth, s, step);
      var t := NextFd(b, depth, s, step).value.core;
      |part| <= 1 && if part == [] then t == s.core else Next(b, depth, s.core, part[0]) == Done(t)
  {
  }

  /** Appending the driver's part of one more step. */
  lemma RunAppend<D, O>(b: Behaviour<D, O>, depth: nat, driver: seq<Step<D>>, part: seq<Step<D>>, s: Core<D, O>,
                        t: Core<D, O>)
    requires Run(b, depth, driver) == Done(s) && |part| <= 1
    requires if part == [] then t == s else Next(b, depth, s, part[0]) == Done(t)
    ensures Run(b, depth, driver + part) == Done(t)
  {
    if part == [] {
      assert driver + part == driver;
    } else {
      assert part == [part[0]];
      RunLast(b, depth, driver, part[0]);
    }
  }

  /** Adding descriptors adds no behaviour: the driver's part of every run of
      the composed system is a run of the driver alone, so everything proved
      about driver runs holds of it. */
  lemma {:induction false} RunProjects<D, O>(b: Behaviour<D, O>, depth: nat, steps: seq<FdStep<D>>)
    returns (driver: seq<Step<D>>)
    ensures RunFd(b, depth, steps).Done? && Run(b, depth, driver) == Done(RunFd(b, depth, steps).value.core)
    decreases |steps|
  {
    RunFdOk(b, depth, steps);
    if steps == [] {
      driver := [];
    } else {
      var before, step := steps[..|steps| - 1], steps[|steps| - 1];
      RunFdOk(b, depth, before);
      var front := RunProjects(b, depth, before);
      var s := RunFd(b, depth, before).value;
      StepProjects(b, depth, s, step);
      var part := DriverPart(depth, s, step);
      RunAppend(b, depth, front, part, s.core, NextFd(b, depth, s, step).value.core);
      driver := front + part;
    }
  }
}
