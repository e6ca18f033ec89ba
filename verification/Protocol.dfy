/** The driver, the submission and completion queues, the kernel and the
    operations as one state machine. Every operation ever submitted has a
    generation number (its position in `reqs`) that the real system does not
    have; slab keys are reused, generations are not. */
module Protocol {
  import opened Uring
  import opened Multishot
  import opened Lifecycle

  /** Where a request is on its way through the kernel. `Half` is between the
      slab insertion and the push of its submission entry. */
  datatype Stage = Half | Queued | InKernel | Finished

  /** The kernel's side of a request: the completions posted so far, and how
      many of them the driver has dispatched. */
  datatype Io = Io(stage: Stage, posted: seq<Cqe>, disp: nat)

  /** Who owns the operation's data: the operation handle (which is then not
      finished), the slot's `Ignored` box, or nobody any more. */
  datatype Holder<D> = Held(data: D) | Boxed(data: D) | Gone

  /** The waker of the latest poll, and the length of the wake log then. */
  datatype Armed = Armed(waker: Waker, since: nat)

  /** The caller's side: completions consumed, data, outputs returned, whether
      the final output was returned, and the latest poll. */
  datatype Use<D, O> = Use(cons: nat, holder: Holder<D>, outs: seq<O>, ended: bool, armed: Option<Armed>)

  /** One generation. `fd` is the descriptor whose clone the data holds,
      `closes` the descriptor an `IORING_OP_CLOSE` names. */
  datatype Req<D, O> = Req(key: nat, multi: bool, fd: Option<nat>, closes: Option<nat>, init: D,
                           io: Io, use: Use<D, O>)

  type Reqs<D, O> = seq<Req<D, O>>

  /** Submission entries. `gen` is not part of the real entry. */
  datatype Sqe = OpSqe(userData: nat, gen: nat) | CancelSqe(target: nat, gen: nat)

  /** Completion entries. `gen` is not part of the real entry. */
  datatype Post = Post(userData: nat, cqe: Cqe, gen: nat)

  /** The driver call in progress; it borrows the driver, so no other call runs. */
  datatype Pending = Idle | Submitting(gens: seq<nat>) | Cancelling(gen: nat)

  datatype Core<D, O> = Core(
    slots: Slots<D>,
    owner: map<nat, nat>,      // the generation in each slot
    reqs: Reqs<D, O>,
    sq: seq<Sqe>,
    cq: seq<Post>,
    pending: Pending,
    wakes: seq<Waker>,         // every wake call, in order
    routed: seq<(nat, nat)>,   // of each dispatched entry: generation posted, generation reached
    hits: seq<(nat, nat)>)     // of each cancel that found a request: generation cancelled, generation found

  datatype Step<D> =
    | Consume                  // the kernel takes the next submission entry
    | PostCqe(gen: nat, cqe: Cqe)
    | DispatchOne
    | Insert(key: nat, multi: bool, fd: Option<nat>, closes: Option<nat>, init: D)
    | Push
    | Poll(gen: nat, waker: Waker)
    | DropOp(gen: nat)
    | CancelBegin(gen: nat)
    | CancelPush

  function Start<D, O>(): Core<D, O> {
    Core(map[], map[], [], [], [], Idle, [], [], [])
  }

  predicate Unfinished<D, O>(reqs: Reqs<D, O>, g: nat) {
    g < |reqs| && reqs[g].use.holder.Held?
  }

  /** When a step can happen. `depth` is the size of the submission queue. The
      kernel posts completions only for requests it holds, and `more` only for
      multishot ones; a future is not polled after it returned its last output. */
  predicate Enabled<D, O>(depth: nat, s: Core<D, O>, step: Step<D>) {
    match step
    case Consume => s.sq != []
    case PostCqe(g, c) =>
      g < |s.reqs| && s.reqs[g].io.stage.InKernel? && (More(c) ==> s.reqs[g].multi)
    case DispatchOne => s.cq != []
    case Insert(key, _, _, _, _) => key !in s.slots && key < USIZE_MAX && !s.pending.Cancelling?
    case Push => s.pending.Submitting? && s.pending.gens != [] && |s.sq| < depth
    case Poll(g, _) => s.pending.Idle? && Unfinished(s.reqs, g)
    case DropOp(g) => s.pending.Idle? && Unfinished(s.reqs, g)
    case CancelBegin(g) => s.pending.Idle? && Unfinished(s.reqs, g) && s.reqs[g].multi
    case CancelPush => s.pending.Cancelling? && |s.sq| < depth
  }

  function WithIo<D, O>(reqs: Reqs<D, O>, g: nat, io: Io): Reqs<D, O>
    requires g < |reqs|
  {
    reqs[g := reqs[g].(io := io)]
  }

  function WithUse<D, O>(reqs: Reqs<D, O>, g: nat, use: Use<D, O>): Reqs<D, O>
    requires g < |reqs|
  {
    reqs[g := reqs[g].(use := use)]
  }

  /** The generations of in-kernel requests whose `user_data` is `target`:
      what a cancel can find. */
  function Matching<D, O>(reqs: Reqs<D, O>, target: nat): seq<nat> {
    if reqs == [] then []
    else
      var g := |reqs| - 1;
      Matching(reqs[..g], target) +
      (if reqs[g].io.stage.InKernel? && reqs[g].key == target then [g] else [])
  }

  function Pairs(g: nat, found: seq<nat>): seq<(nat, nat)> {
    seq(|found|, i requires 0 <= i < |found| => (g, found[i]))
  }

  /** The kernel takes the entry at the head of the submission queue. A cancel
      looks for its target and posts its own result; what it finds ends with a
      `PostCqe` step later. */
  function ConsumeHead<D, O>(s: Core<D, O>): Core<D, O>
    requires s.sq != []
  {
    match s.sq[0]
    case OpSqe(_, g) =>
      if g < |s.reqs|
      then s.(sq := s.sq[1..], reqs := WithIo(s.reqs, g, s.reqs[g].io.(stage := InKernel)))
      else s.(sq := s.sq[1..])
    case CancelSqe(target, g) =>
      s.(sq := s.sq[1..],
         cq := s.cq + [Post(USIZE_MAX, Cqe(0, 0, []), g)],
         hits := s.hits + Pairs(g, Matching(s.reqs, target)))
  }

  function PostFor<D, O>(s: Core<D, O>, g: nat, c: Cqe): Core<D, O>
    requires g < |s.reqs|
  {
    var io := s.reqs[g].io;
    s.(reqs := WithIo(s.reqs, g, io.(posted := io.posted + [c], stage := if More(c) then io.stage else Finished)),
       cq := s.cq + [Post(s.reqs[g].key, c, g)])
  }

  /** The generation a dispatched entry reaches is the one that owns the slot. */
  function DispatchHead<D, O>(s: Core<D, O>): Outcome<Core<D, O>>
    requires s.cq != []
  {
    var p := s.cq[0];
    match Dispatch(s.slots, p.userData, p.cqe)
    case Panic => Panic
    case Done(e) =>
      var s' := s.(cq := s.cq[1..], slots := e.slots, wakes := s.wakes + e.wakes);
      if p.userData == USIZE_MAX then Done(s')
      else if p.userData !in s.owner || s.owner[p.userData] >= |s.reqs| then Panic
      else
        var g := s.owner[p.userData];
        var r := s.reqs[g];
        var freed := p.userData !in e.slots;
        var use := if freed then r.use.(holder := Gone) else r.use;
        Done(s'.(reqs := s.reqs[g := r.(io := r.io.(disp := r.io.disp + 1), use := use)],
                 owner := if freed then s.owner - {p.userData} else s.owner,
                 routed := s.routed + [(p.gen, g)]))
  }

  function Fresh<D, O>(key: nat, multi: bool, fd: Option<nat>, closes: Option<nat>, init: D): Req<D, O> {
    Req(key, multi, fd, closes, init, Io(Half, [], 0), Use(0, Held(init), [], false, None))
  }

  function InsertReq<D, O>(s: Core<D, O>, r: Req<D, O>): Core<D, O> {
    s.(slots := s.slots[r.key := Submitted],
       owner := s.owner[r.key := |s.reqs|],
       reqs := s.reqs + [r],
       pending := Submitting((if s.pending.Submitting? then s.pending.gens else []) + [|s.reqs|]))
  }

  function PushReq<D, O>(s: Core<D, O>): Core<D, O>
    requires s.pending.Submitting? && s.pending.gens != []
  {
    var g := s.pending.gens[0];
    var rest := s.pending.gens[1..];
    if g < |s.reqs| then
      s.(sq := s.sq + [OpSqe(s.reqs[g].key, g)],
         reqs := WithIo(s.reqs, g, s.reqs[g].io.(stage := Queued)),
         pending := if rest == [] then Idle else Submitting(rest))
    else s
  }

  /** The caller's side after a poll. */
  function UseAfter<D, O>(u: Use<D, O>, p: Polled<D, O>, w: Waker, now: nat): Use<D, O> {
    Use(u.cons + p.taken,
        if p.data.Some? then Held(p.data.value) else Gone,
        if p.out.Some? then u.outs + [p.out.value] else u.outs,
        p.data.None?,
        if p.data.Some? then Some(Armed(w, now)) else None)
  }

  function PollReq<D, O>(b: Behaviour<D, O>, s: Core<D, O>, g: nat, w: Waker): Outcome<Core<D, O>>
    requires Unfinished(s.reqs, g)
  {
    var r := s.reqs[g];
    var d := r.use.holder.data;
    match (if r.multi then PollMulti(b, s.slots, r.key, d, w) else PollSingle(b, s.slots, r.key, d, w))
    case Panic => Panic
    case Done(p) =>
      Done(s.(slots := p.slots,
              owner := if r.key in p.slots then s.owner else s.owner - {r.key},
              reqs := WithUse(s.reqs, g, UseAfter(r.use, p, w, |s.wakes|)),
              wakes := if p.wokeSelf then s.wakes + [w] else s.wakes))
  }

  function DropReq<D, O>(s: Core<D, O>, g: nat): Outcome<Core<D, O>>
    requires Unfinished(s.reqs, g)
  {
    var r := s.reqs[g];
    var d := r.use.holder.data;
    match Remove(s.slots, r.key, d)
    case Panic => Panic
    case Done(e) =>
      Done(s.(slots := e.slots,
              owner := if r.key in e.slots then s.owner else s.owner - {r.key},
              reqs := WithUse(s.reqs, g, r.use.(holder := if e.boxed then Boxed(d) else Gone))))
  }

  /** One step. A step that is not enabled changes nothing, so every sequence
      of steps is a run. */
  function Next<D, O>(b: Behaviour<D, O>, depth: nat, s: Core<D, O>, step: Step<D>): Outcome<Core<D, O>> {
    if !Enabled(depth, s, step) then Done(s)
    else
      match step
      case Consume => Done(ConsumeHead(s))
      case PostCqe(g, c) => Done(PostFor(s, g, c))
      case DispatchOne => DispatchHead(s)
      case Insert(key, multi, fd, closes, init) => Done(InsertReq(s, Fresh(key, multi, fd, closes, init)))
      case Push => Done(PushReq(s))
      case Poll(g, w) => PollReq(b, s, g, w)
      case DropOp(g) => DropReq(s, g)
      case CancelBegin(g) =>
        if s.reqs[g].key in s.slots then Done(s.(pending := Cancelling(g))) else Done(s)
      case CancelPush =>
        if s.pending.gen < |s.reqs|
        then Done(s.(sq := s.sq + [CancelSqe(s.reqs[s.pending.gen].key, s.pending.gen)], pending := Idle))
        else Done(s)
  }

  /** The state after a whole run. */
  function Run<D, O>(b: Behaviour<D, O>, depth: nat, steps: seq<Step<D>>): Outcome<Core<D, O>> {
    if steps == [] then Done(Start())
    else
      match Run(b, depth, steps[..|steps| - 1])
      case Panic => Panic
      case Done(s) => Next(b, depth, s, steps[|steps| - 1])
  }
}
