/** How an operation turns its completions into outputs, and the reference
    meaning of that: one left-to-right pass over all completions. */
module Multishot {
  import opened Uring

  /** The `Completable` and `Updateable` code of an operation. */
  datatype Behaviour<!D, !O> = Behaviour(
    update: (D, Cqe) -> D,
    shouldYield: D -> bool,
    yieldResult: D -> (O, D),
    complete: (D, Cqe) -> O)

  /** Outputs handed out so far, and the operation's data. */
  datatype Acc<D, O> = Acc(outs: seq<O>, data: D)

  /** The reference semantics of one completion that carries `more`. */
  function Feed<D, O>(b: Behaviour<D, O>, a: Acc<D, O>, c: Cqe): Acc<D, O> {
    var d := b.update(a.data, c);
    if b.shouldYield(d)
    then var (o, d') := b.yieldResult(d); Acc(a.outs + [o], d')
    else Acc(a.outs, d)
  }

  /** The reference semantics of a run of completions that all carry `more`. */
  function FeedAll<D, O>(b: Behaviour<D, O>, a: Acc<D, O>, cs: seq<Cqe>): Acc<D, O> {
    if cs == [] then a
    else Feed(b, FeedAll(b, a, cs[..|cs| - 1]), cs[|cs| - 1])
  }

  /** Everything an operation outputs over its whole life. */
  function Transcript<D, O>(b: Behaviour<D, O>, init: D, cs: seq<Cqe>): seq<O>
    requires cs != []
  {
    var n := |cs| - 1;
    var a := FeedAll(b, Acc([], init), cs[..n]);
    a.outs + [b.complete(a.data, cs[n])]
  }

  /** A completion stream as the kernel produces it: all entries but the last
      carry `more`. */
  ghost predicate Stream(cs: seq<Cqe>) {
    forall i :: 0 <= i < |cs| - 1 ==> More(cs[i])
  }

  ghost predicate AllMore(cs: seq<Cqe>) {
    forall i :: 0 <= i < |cs| ==> More(cs[i])
  }

  ghost predicate Ended(cs: seq<Cqe>) {
    cs != [] && !More(cs[|cs| - 1])
  }

  /** What one pass of the poll loop over a queued list ends with. */
  datatype Drained<D, O> =
    | Exhausted(data: D)
    | Yielded(out: O, data: D, rest: seq<Cqe>)
    | Final(out: O, rest: seq<Cqe>)

  /** The loop of `poll_multishot_op` over the queued completions. */
  function Drain<D, O>(b: Behaviour<D, O>, d: D, cs: seq<Cqe>): (r: Drained<D, O>)
    ensures !r.Exhausted? ==> |r.rest| < |cs|
  {
    if cs == [] then Exhausted(d)
    else if !More(cs[0]) then Final(b.complete(d, cs[0]), cs[1..])
    else
      var d1 := b.update(d, cs[0]);
      if b.shouldYield(d1)
      then var (o, d2) := b.yieldResult(d1); Yielded(o, d2, cs[1..])
      else Drain(b, d1, cs[1..])
  }

  /** Feeding runs one after the other. */
  lemma {:induction false} FeedAllConcat<D, O>(b: Behaviour<D, O>, a: Acc<D, O>, xs: seq<Cqe>, ys: seq<Cqe>)
    ensures FeedAll(b, a, xs + ys) == FeedAll(b, FeedAll(b, a, xs), ys)
    decreases |ys|
  {
    if ys == [] {
      assert xs + ys == xs;
    } else {
      var n := |ys| - 1;
      assert (xs + ys)[..|xs + ys| - 1] == xs + ys[..n];
      FeedAllConcat(b, a, xs, ys[..n]);
    }
  }

  lemma FeedOne<D, O>(b: Behaviour<D, O>, a: Acc<D, O>, c: Cqe)
    ensures FeedAll(b, a, [c]) == Feed(b, a, c)
  {
  }

  /** The state the reference semantics reaches with what one pass of the poll
      loop used up. */
  ghost predicate DrainMeans<D, O>(b: Behaviour<D, O>, outs: seq<O>, d: D, cs: seq<Cqe>, r: Drained<D, O>) {
    match r
    case Exhausted(d') => AllMore(cs) && FeedAll(b, Acc(outs, d), cs) == Acc(outs, d')
    case Yielded(o, d', rest) =>
      |rest| < |cs| && rest == cs[|cs| - |rest|..] && AllMore(cs[..|cs| - |rest|]) &&
      FeedAll(b, Acc(outs, d), cs[..|cs| - |rest|]) == Acc(outs + [o], d')
    case Final(o, rest) =>
      |rest| < |cs| && rest == cs[|cs| - |rest|..] &&
      var k := |cs| - |rest| - 1;
      !More(cs[k]) && AllMore(cs[..k]) &&
      var a := FeedAll(b, Acc(outs, d), cs[..k]);
      a.outs == outs && b.complete(a.data, cs[k]) == o
  }

  /** The poll loop does what the reference pass does, and it stops right after
      the first output. */
  lemma {:induction false} DrainIsFeed<D, O>(b: Behaviour<D, O>, outs: seq<O>, d: D, cs: seq<Cqe>)
    ensures DrainMeans(b, outs, d, cs, Drain(b, d, cs))
    decreases |cs|
  {
    if cs == [] {
    } else if !More(cs[0]) {
      assert cs[..0] == [];
    } else {
      var a := Acc(outs, d);
      FeedOne(b, a, cs[0]);
      var d1 := b.update(d, cs[0]);
      if b.shouldYield(d1) {
        assert cs[..1] == [cs[0]];
      } else {
        DrainIsFeed(b, outs, d1, cs[1..]);
        DrainStep(b, outs, d, cs, d1, Drain(b, d1, cs[1..]));
      }
    }
  }

  /** Putting one more completion, which yields nothing, before a pass. */
  lemma DrainStep<D, O>(b: Behaviour<D, O>, outs: seq<O>, d: D, cs: seq<Cqe>, d1: D, r: Drained<D, O>)
    requires cs != [] && More(cs[0])
    requires Feed(b, Acc(outs, d), cs[0]) == Acc(outs, d1)
    requires DrainMeans(b, outs, d1, cs[1..], r)
    ensures DrainMeans(b, outs, d, cs, r)
  {
    match r
    case Exhausted(_) => DrainStepAll(b, outs, d, cs, d1, r);
    case Yielded(_, _, _) => DrainStepYield(b, outs, d, cs, d1, r);
    case Final(_, _) => DrainStepFinal(b, outs, d, cs, d1, r);
  }

  lemma DrainStepAll<D, O>(b: Behaviour<D, O>, outs: seq<O>, d: D, cs: seq<Cqe>, d1: D, r: Drained<D, O>)
    requires cs != [] && More(cs[0]) && r.Exhausted?
    requires Feed(b, Acc(outs, d), cs[0]) == Acc(outs, d1) && DrainMeans(b, outs, d1, cs[1..], r)
    ensures DrainMeans(b, outs, d, cs, r)
  {
    FeedFront(b, Acc(outs, d), cs, |cs| - 1);
    assert cs[..|cs|] == cs && cs[1..][..|cs| - 1] == cs[1..];
  }

  lemma DrainStepYield<D, O>(b: Behaviour<D, O>, outs: seq<O>, d: D, cs: seq<Cqe>, d1: D, r: Drained<D, O>)
    requires cs != [] && More(cs[0]) && r.Yielded?
    requires Feed(b, Acc(outs, d), cs[0]) == Acc(outs, d1) && DrainMeans(b, outs, d1, cs[1..], r)
    ensures DrainMeans(b, outs, d, cs, r)
  {
    var k := |cs| - 1 - |r.rest|;
    FeedFront(b, Acc(outs, d), cs, k);
    assert cs[1..][k..] == cs[k + 1..];
  }

  lemma DrainStepFinal<D, O>(b: Behaviour<D, O>, outs: seq<O>, d: D, cs: seq<Cqe>, d1: D, r: Drained<D, O>)
    requires cs != [] && More(cs[0]) && r.Final?
    requires Feed(b, Acc(outs, d), cs[0]) == Acc(outs, d1) && DrainMeans(b, outs, d1, cs[1..], r)
    ensures DrainMeans(b, outs, d, cs, r)
  {
    var k := |cs| - 2 - |r.rest|;
    FeedFront(b, Acc(outs, d), cs, k);
    assert cs[1..][k] == cs[k + 1] && cs[1..][k + 1..] == cs[k + 2..];
  }

  lemma FeedFront<D, O>(b: Behaviour<D, O>, a: Acc<D, O>, cs: seq<Cqe>, k: nat)
    requires cs != [] && k < |cs|
    ensures FeedAll(b, a, cs[..k + 1]) == FeedAll(b, Feed(b, a, cs[0]), cs[1..][..k])
    ensures More(cs[0]) && AllMore(cs[1..][..k]) ==> AllMore(cs[..k + 1])
  {
    FeedOne(b, a, cs[0]);
    assert cs[..k + 1] == [cs[0]] + cs[1..][..k];
    FeedAllConcat(b, a, [cs[0]], cs[1..][..k]);
  }

  /** The left fold of `update`. */
  function Fold<D, O>(b: Behaviour<D, O>, init: D, cs: seq<Cqe>): D {
    if cs == [] then init else b.update(Fold(b, init, cs[..|cs| - 1]), cs[|cs| - 1])
  }

  lemma {:induction false} FeedWithoutYield<D, O>(b: Behaviour<D, O>, init: D, cs: seq<Cqe>)
    requires forall d :: !b.shouldYield(d)
    ensures FeedAll(b, Acc([], init), cs) == Acc([], Fold(b, init, cs))
    decreases |cs|
  {
    if cs != [] {
      FeedWithoutYield(b, init, cs[..|cs| - 1]);
    }
  }

  /** An operation that never yields outputs once: `complete` of the last
      completion, applied to the left fold of `update` over all earlier ones. */
  lemma NonYieldingTranscript<D, O>(b: Behaviour<D, O>, init: D, cs: seq<Cqe>)
    requires cs != []
    requires forall d :: !b.shouldYield(d)
    ensures Transcript(b, init, cs) == [b.complete(Fold(b, init, cs[..|cs| - 1]), cs[|cs| - 1])]
  {
    FeedWithoutYield(b, init, cs[..|cs| - 1]);
  }
}
