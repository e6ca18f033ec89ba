/** Zero-copy send: a multishot operation that never yields early. */
module SendZc {
  import opened Uring
  import opened Multishot
  import opened Protocol
  import opened DriverSafety

  /** The bytes counted so far, or what is left after the `unwrap` of `update`
      met an error. */
  datatype Data = Sending(bytes: nat) | Panicked

  datatype Output = Sent(bytes: nat) | Failed(errno: int) | Aborted

  function Update(d: Data, c: Cqe): Data {
    match (d, ToResult(c))
    case (Sending(n), Success(v)) => Sending(n + v)
    case (_, _) => Panicked
  }

  function Complete(d: Data, c: Cqe): Output {
    match (d, ToResult(c))
    case (Sending(n), Success(v)) => Sent(n + v)
    case (Sending(_), Failure(e)) => Failed(e)
    case (Panicked, _) => Aborted
  }

  const CODE: Behaviour<Data, Output> :=
    Behaviour((d, c) => Update(d, c), d => false, d => (Aborted, d), (d, c) => Complete(d, c))

  predicate NoError(cs: seq<Cqe>) {
    forall i :: 0 <= i < |cs| ==> cs[i].res >= 0
  }

  function Sum(cs: seq<Cqe>): int {
    if cs == [] then 0 else Sum(cs[..|cs| - 1]) + cs[|cs| - 1].res
  }

  /** The fold counts every byte, and breaks exactly on an error. */
  lemma {:induction false} FoldCounts(cs: seq<Cqe>)
    ensures NoError(cs) ==> Sum(cs) >= 0 && Fold(CODE, Sending(0), cs) == Sending(Sum(cs))
    ensures !NoError(cs) ==> Fold(CODE, Sending(0), cs) == Panicked
    decreases |cs|
  {
    if cs != [] {
      var n := |cs| - 1;
      FoldCounts(cs[..n]);
      assert NoError(cs) <==> NoError(cs[..n]) && cs[n].res >= 0;
    }
  }

  /** Everything a zero-copy send can return, by its completions. */
  lemma SendTranscript(cs: seq<Cqe>)
    requires cs != []
    ensures var n := |cs| - 1;
      Transcript(CODE, Sending(0), cs) ==
      [if !NoError(cs[..n]) then Aborted
       else if cs[n].res < 0 then Failed(-cs[n].res)
       else assert Sum(cs[..n]) >= 0 by { FoldCounts(cs[..n]); } Sent(Sum(cs[..n]) + cs[n].res)]
  {
    NonYieldingTranscript(CODE, Sending(0), cs);
    FoldCounts(cs[..|cs| - 1]);
  }

  /** In every run, a zero-copy send without error completions returns the sum
      of all results, however dispatches and polls interleave. */
  lemma SendCountsEveryByte(depth: nat, steps: seq<Step<Data>>, g: nat)
    requires Run(CODE, depth, steps).Done? && g < |Run(CODE, depth, steps).value.reqs|
    requires var r := Run(CODE, depth, steps).value.reqs[g];
      r.init == Sending(0) && r.use.ended && NoError(r.io.posted)
    ensures var r := Run(CODE, depth, steps).value.reqs[g];
      Sum(r.io.posted) >= 0 && r.use.outs == [Sent(Sum(r.io.posted))]
  {
    OutputsAreTheTranscript(CODE, depth, steps, g);
    SumOfAll(Run(CODE, depth, steps).value.reqs[g].io.posted);
  }

  lemma SumOfAll(cs: seq<Cqe>)
    requires cs != [] && NoError(cs)
    ensures Sum(cs) >= 0 && Transcript(CODE, Sending(0), cs) == [Sent(Sum(cs))]
  {
    SendTranscript(cs);
    FoldCounts(cs);
  }
}
