/** Multishot receive: batches of packets and of buffers that could not be
    parsed. */
module RecvMultishot {
  import opened Uring
  import opened Multishot
  import opened RecvLayout
  import opened Protocol
  import opened DriverSafety

  datatype Packet<A> = Packet(bytes: nat, source: A, bufferId: nat, offset: nat, more: bool)

  datatype End = Clean | Error(errno: int)

  datatype Batch<A> = Batch(packets: seq<Packet<A>>, unparsed: seq<nat>, end: Option<End>)

  /** What accumulates between two yields, or what is left after the parser
      panicked. */
  datatype Data<A> = Recv(batch: seq<Packet<A>>, unparsed: seq<nat>) | Crashed

  /** The constants of one operation. */
  datatype Config<!A> = Config(decode: seq<Byte> -> Option<A>, nameLen: nat, controlLen: nat)

  /** What one successful completion contributes. */
  datatype Item<A> = Nothing | Good(packet: Packet<A>) | Raw(bufferId: nat) | Crash

  /** `record`, as a classification of the completion. */
  function Classify<A>(cfg: Config<A>, c: Cqe): Item<A> {
    match BufferSelect(c)
    case None => Nothing
    case Some(id) =>
      match ParseRecvMsgOut(cfg.decode, c.filled, cfg.nameLen, cfg.controlLen)
      case Panic => Crash
      case Done(Parsed(a, offset, length)) => Good(Packet(length, a, id, offset, More(c)))
      case Done(_) => Raw(id)
  }

  function Recorded<A>(cfg: Config<A>, d: Data<A>, c: Cqe): Data<A> {
    match (d, Classify(cfg, c))
    case (Recv(b, u), Nothing) => d
    case (Recv(b, u), Good(p)) => Recv(b + [p], u)
    case (Recv(b, u), Raw(id)) => Recv(b, u + [id])
    case (_, _) => Crashed
  }

  function Update<A>(cfg: Config<A>, d: Data<A>, c: Cqe): Data<A> {
    if c.res >= 0 then Recorded(cfg, d, c) else d
  }

  predicate ShouldYield<A>(d: Data<A>) {
    d.Recv? && (d.batch != [] || d.unparsed != [])
  }

  function Batched<A>(d: Data<A>, end: Option<End>): (Batch<A>, Data<A>) {
    if d.Recv? then (Batch(d.batch, d.unparsed, end), Recv([], [])) else (Batch([], [], end), d)
  }

  function Complete<A>(cfg: Config<A>, d: Data<A>, c: Cqe): Batch<A> {
    if c.res >= 0 then Batched(Recorded(cfg, d, c), Some(Clean)).0
    else Batched(d, Some(Error(-c.res))).0
  }

  function Code<A>(cfg: Config<A>): Behaviour<Data<A>, Batch<A>> {
    Behaviour((d, c) => Update(cfg, d, c), d => ShouldYield(d), d => Batched(d, None), (d, c) => Complete(cfg, d, c))
  }

  // ---- The receive state as the source has it ----

  class Receiver<A> {
    var batch: seq<Packet<A>>
    var unparsed: seq<nat>

    function Value(): Data<A>
      reads this
    {
      Recv(batch, unparsed)
    }

    constructor ()
      ensures Value() == Recv([], [])
    {
      batch, unparsed := [], [];
    }

    /** `record`; `crashed` reports a panic of the parser. */
    method Record(cfg: Config<A>, c: Cqe) returns (crashed: bool)
      modifies this
      ensures crashed <==> Classify(cfg, c).Crash?
      ensures !crashed ==> Value() == Recorded(cfg, old(Value()), c)
      ensures crashed ==> Value() == old(Value())
    {
      crashed := false;
      match BufferSelect(c) {
        case None =>
        case Some(id) =>
          match ParseRecvMsgOut(cfg.decode, c.filled, cfg.nameLen, cfg.controlLen) {
            case Panic => crashed := true;
            case Done(Parsed(a, offset, length)) => batch := batch + [Packet(length, a, id, offset, More(c))];
            case Done(_) => unparsed := unparsed + [id];
          }
      }
    }

    /** `update`; an error completion with `more` only leaves a trace. */
    method UpdateWith(cfg: Config<A>, c: Cqe) returns (crashed: bool)
      modifies this
      ensures crashed <==> c.res >= 0 && Classify(cfg, c).Crash?
      ensures !crashed ==> Value() == Update(cfg, old(Value()), c)
    {
      crashed := false;
      if c.res >= 0 {
        crashed := Record(cfg, c);
      }
    }

    /** `complete`. */
    method CompleteWith(cfg: Config<A>, c: Cqe) returns (crashed: bool, out: Batch<A>)
      modifies this
      ensures crashed <==> c.res >= 0 && Classify(cfg, c).Crash?
      ensures !crashed ==> out == Complete(cfg, old(Value()), c)
    {
      crashed, out := false, Batch([], [], None);
      if c.res >= 0 {
        crashed := Record(cfg, c);
        if !crashed {
          out := TakeBatch(Some(Clean));
        }
      } else {
        out := TakeBatch(Some(Error(-c.res)));
      }
    }

    /** `take_batch`, which `complete` and `yield_result` call. */
    method TakeBatch(end: Option<End>) returns (out: Batch<A>)
      modifies this
      ensures (out, Value()) == Batched(old(Value()), end)
    {
      out := Batch(batch, unparsed, end);
      batch, unparsed := [], [];
    }
  }

  // ---- What a receive delivers ----

  /** What the completions contribute, in arrival order. */
  function Contribution<A>(cfg: Config<A>, c: Cqe): Item<A> {
    if c.res >= 0 then Classify(cfg, c) else Nothing
  }

  function ItemPackets<A>(item: Item<A>): seq<Packet<A>> {
    if item.Good? then [item.packet] else []
  }

  function ItemIds<A>(item: Item<A>): seq<nat> {
    if item.Raw? then [item.bufferId] else []
  }

  function PacketsOf<A>(cfg: Config<A>, cs: seq<Cqe>): seq<Packet<A>> {
    if cs == [] then []
    else
      var n := |cs| - 1;
      PacketsOf(cfg, cs[..n]) +
      ItemPackets(Contribution(cfg, cs[n]))
  }

  function UnparsedOf<A>(cfg: Config<A>, cs: seq<Cqe>): seq<nat> {
    if cs == [] then []
    else
      var n := |cs| - 1;
      UnparsedOf(cfg, cs[..n]) +
      ItemIds(Contribution(cfg, cs[n]))
  }

  ghost predicate NoCrash<A>(cfg: Config<A>, cs: seq<Cqe>) {
    forall i :: 0 <= i < |cs| ==> !Contribution(cfg, cs[i]).Crash?
  }

  /** No parse fails exactly when no selected buffer announces an overlong name. */
  lemma CrashesExactly<A>(cfg: Config<A>, cs: seq<Cqe>)
    ensures NoCrash(cfg, cs) <==>
      forall i :: 0 <= i < |cs| && cs[i].res >= 0 && BufferSelect(cs[i]).Some? ==>
        !Overlong(cs[i].filled, cfg.nameLen, cfg.controlLen)
  {
    forall i | 0 <= i < |cs|
      ensures Contribution(cfg, cs[i]).Crash? <==>
        cs[i].res >= 0 && BufferSelect(cs[i]).Some? && Overlong(cs[i].filled, cfg.nameLen, cfg.controlLen)
    {
      FailsExactly(cfg.decode, cs[i].filled, cfg.nameLen, cfg.controlLen);
    }
  }

  /** A buffer whose recorded name length fits the space reserved for it. */
  ghost predicate NameFits<A>(cfg: Config<A>, c: Cqe) {
    |c.filled| >= HEADER ==> FromLe(c.filled[0..4]) <= cfg.nameLen
  }

  /** As long as the kernel announces no name longer than the space that was
      reserved for it, which is the address storage, the parser does not fail. */
  lemma FittingNamesDoNotCrash<A>(cfg: Config<A>, cs: seq<Cqe>)
    requires cfg.nameLen <= STORAGE
    requires forall i :: 0 <= i < |cs| && cs[i].res >= 0 && BufferSelect(cs[i]).Some? ==> NameFits(cfg, cs[i])
    ensures NoCrash(cfg, cs)
  {
  }

  /** A completion as the kernel writes it: the result, the id of the selected
      buffer if there is one, whether more follow, the other flag bits, and what
      it left in the buffer. */
  datatype Posting = Posting(res: int, id: Option<nat>, more: bool, other: nat, filled: seq<Byte>)

  predicate PostingOk(k: Posting) {
    k.other < 0x4000 && (k.id.Some? ==> k.id.value < 0x1_0000)
  }

  function LowFlags(k: Posting): nat {
    4 * k.other + (if k.more then 2 else 0) + (if k.id.Some? then 1 else 0)
  }

  /** The completion entry with these flags. */
  function Written(k: Posting): Cqe {
    Cqe(k.res, (if k.id.Some? then k.id.value else 0) * 0x1_0000 + LowFlags(k), k.filled)
  }

  /** The driver reads from the flag word what the kernel wrote into it. */
  lemma FlagsRoundTrip(k: Posting)
    requires PostingOk(k)
    ensures BufferSelect(Written(k)) == k.id && More(Written(k)) == k.more
  {
    var low, more, sel := LowFlags(k), if k.more then 1 else 0, if k.id.Some? then 1 else 0;
    Halves(low, 2 * k.other + more, sel);
    Halves(2 * k.other + more, k.other, more);
    FlagWord(k.res, if k.id.Some? then k.id.value else 0, low, k.filled);
  }

  /** What a completion delivers whose buffer, with the id the kernel wrote, holds
      message `m`: a packet that names the sender, that buffer and the payload in
      it, or the buffer. Only a name longer than the address storage makes the
      parser fail. */
  lemma MessageDelivered<A>(cfg: Config<A>, k: Posting, m: Message)
    requires PostingOk(k) && k.res >= 0 && k.id.Some? && k.filled == Encode(m)
    requires |m.name| + |m.namePad| == cfg.nameLen && |m.control| + |m.controlPad| == cfg.controlLen
    requires |m.name| < 0x1_0000_0000 && |m.payload| < 0x1_0000_0000
    ensures var item := Contribution(cfg, Written(k));
      if |m.name| > STORAGE then item == Crash
      else if |m.name| >= MIN_NAME && cfg.decode(m.name).Some?
      then
        && item.Good? && item.packet.source == cfg.decode(m.name).value
        && item.packet.bufferId == k.id.value && item.packet.more == k.more
        && item.packet.offset + item.packet.bytes <= |k.filled|
        && k.filled[item.packet.offset..item.packet.offset + item.packet.bytes] == m.payload
      else item == Raw(k.id.value)
  {
    FlagsRoundTrip(k);
    ParseEncode(cfg.decode, m, cfg.nameLen, cfg.controlLen);
  }

  /** All packets of some batches, in order. */
  function AllPackets<A>(bs: seq<Batch<A>>): seq<Packet<A>> {
    if bs == [] then [] else AllPackets(bs[..|bs| - 1]) + bs[|bs| - 1].packets
  }

  function AllUnparsed<A>(bs: seq<Batch<A>>): seq<nat> {
    if bs == [] then [] else AllUnparsed(bs[..|bs| - 1]) + bs[|bs| - 1].unparsed
  }

  lemma AllAppend<A>(bs: seq<Batch<A>>, b: Batch<A>)
    ensures AllPackets(bs + [b]) == AllPackets(bs) + b.packets
    ensures AllUnparsed(bs + [b]) == AllUnparsed(bs) + b.unparsed
  {
  }

  /** Whatever has accumulated, a completion adds what it contributes behind it, a
      yield hands over all of it and starts anew, and the final completion hands
      over all of it with how the operation ended. */
  lemma NothingIsDropped<A>(cfg: Config<A>, d: Data<A>, c: Cqe)
    requires d.Recv? && !Contribution(cfg, c).Crash?
    ensures var item := Contribution(cfg, c);
      && Update(cfg, d, c) == Recv(d.batch + ItemPackets(item), d.unparsed + ItemIds(item))
      && Batched(d, None) == (Batch(d.batch, d.unparsed, None), Recv([], []))
      && Complete(cfg, d, c) == Batch(d.batch + ItemPackets(item), d.unparsed + ItemIds(item),
                                      Some(if c.res >= 0 then Clean else Error(-c.res)))
  {
    assert d.batch + [] == d.batch && d.unparsed + [] == d.unparsed;
  }

  /** A batch that is not the last: it does not end the operation, and it
      carries exactly one buffer. */
  predicate Partial<A>(b: Batch<A>) {
    b.end.None? && |b.packets| + |b.unparsed| == 1
  }

  /** While completions with `more` arrive, every buffer is handed over at once:
      nothing accumulates, and each batch carries exactly one buffer. */
  lemma {:induction false} FeedDelivers<A>(cfg: Config<A>, cs: seq<Cqe>)
    requires NoCrash(cfg, cs)
    ensures var a := FeedAll(Code(cfg), Acc([], Recv([], [])), cs);
      && a.data == Recv([], [])
      && AllPackets(a.outs) == PacketsOf(cfg, cs) && AllUnparsed(a.outs) == UnparsedOf(cfg, cs)
      && (forall i :: 0 <= i < |a.outs| ==> Partial(a.outs[i]))
    decreases |cs|
  {
    if cs != [] {
      var n := |cs| - 1;
      FeedDelivers(cfg, cs[..n]);
      var a := FeedAll(Code(cfg), Acc([], Recv([], [])), cs[..n]);
      FeedItem(cfg, a.outs, cs[n]);
    }
  }

  /** One completion with `more`, met with nothing accumulated. */
  lemma FeedItem<A>(cfg: Config<A>, outs: seq<Batch<A>>, c: Cqe)
    requires !Contribution(cfg, c).Crash?
    ensures var a := Feed(Code(cfg), Acc(outs, Recv([], [])), c);
      && a.data == Recv([], [])
      && (a.outs == outs || (|a.outs| == |outs| + 1 && a.outs[..|outs|] == outs && Partial(a.outs[|outs|])))
      && AllPackets(a.outs) == AllPackets(outs) + ItemPackets(Contribution(cfg, c))
      && AllUnparsed(a.outs) == AllUnparsed(outs) + ItemIds(Contribution(cfg, c))
  {
    match Contribution(cfg, c)
    case Nothing =>
      assert Feed(Code(cfg), Acc(outs, Recv([], [])), c) == Acc(outs, Recv([], []));
    case Good(p) =>
      FeedYields(cfg, outs, c, Batch([p], [], None));
    case Raw(id) =>
      FeedYields(cfg, outs, c, Batch([], [id], None));
  }

  /** A completion that carries a buffer is handed over as one batch. */
  lemma FeedYields<A>(cfg: Config<A>, outs: seq<Batch<A>>, c: Cqe, batch: Batch<A>)
    requires Contribution(cfg, c).Good? || Contribution(cfg, c).Raw?
    requires batch == Batch(ItemPackets(Contribution(cfg, c)), ItemIds(Contribution(cfg, c)), None)
    ensures Feed(Code(cfg), Acc(outs, Recv([], [])), c) == Acc(outs + [batch], Recv([], []))
    ensures AllPackets(outs + [batch]) == AllPackets(outs) + batch.packets
    ensures AllUnparsed(outs + [batch]) == AllUnparsed(outs) + batch.unparsed
  {
    AllAppend(outs, batch);
    assert [] + batch.packets == batch.packets && [] + batch.unparsed == batch.unparsed;
    assert Update(cfg, Recv([], []), c) == Recv(batch.packets, batch.unparsed);
  }

  /** What a multishot receive delivers over its whole life: every buffer that
      a successful completion selected is in exactly one batch, as a packet or
      as an unparsed buffer, in arrival order; exactly the last batch says how
      the operation ended; and every other batch carries exactly one buffer,
      so the configured batch size never shows. */
  lemma RecvTranscript<A>(cfg: Config<A>, cs: seq<Cqe>)
    requires cs != [] && NoCrash(cfg, cs)
    ensures var bs := Transcript(Code(cfg), Recv([], []), cs);
      var n := |bs| - 1;
      && n >= 0
      && AllPackets(bs) == PacketsOf(cfg, cs)
      && AllUnparsed(bs) == UnparsedOf(cfg, cs)
      && (forall i :: 0 <= i < n ==> Partial(bs[i]))
      && bs[n].end == Some(if cs[|cs| - 1].res >= 0 then Clean else Error(-cs[|cs| - 1].res))
      && |bs[n].packets| + |bs[n].unparsed| <= 1
  {
    var m := |cs| - 1;
    FeedDelivers(cfg, cs[..m]);
    var a := FeedAll(Code(cfg), Acc([], Recv([], [])), cs[..m]);
    var last := Complete(cfg, Recv([], []), cs[m]);
    LastBatch(cfg, cs[m]);
    AllAppend(a.outs, last);
    assert Transcript(Code(cfg), Recv([], []), cs) == a.outs + [last];
  }

  /** The final completion, met with nothing accumulated. */
  lemma LastBatch<A>(cfg: Config<A>, c: Cqe)
    requires !Contribution(cfg, c).Crash?
    ensures var last := Complete(cfg, Recv([], []), c);
      && last.packets == ItemPackets(Contribution(cfg, c)) && last.unparsed == ItemIds(Contribution(cfg, c))
      && last.end == Some(if c.res >= 0 then Clean else Error(-c.res))
  {
  }

  /** In every run, a multishot receive polled to its end has delivered every
      buffer exactly once, whatever the interleaving of dispatches, early
      yields and restored lists. */
  lemma EveryBufferDelivered<A>(cfg: Config<A>, depth: nat, steps: seq<Step<Data<A>>>, g: nat)
    requires Run(Code(cfg), depth, steps).Done? && g < |Run(Code(cfg), depth, steps).value.reqs|
    requires var r := Run(Code(cfg), depth, steps).value.reqs[g];
      r.init == Recv([], []) && r.use.ended && NoCrash(cfg, r.io.posted)
    ensures var r := Run(Code(cfg), depth, steps).value.reqs[g];
      var bs := r.use.outs;
      && bs != []
      && AllPackets(bs) == PacketsOf(cfg, r.io.posted) && AllUnparsed(bs) == UnparsedOf(cfg, r.io.posted)
      && (forall i :: 0 <= i < |bs| ==> (bs[i].end.Some? <==> i == |bs| - 1))
      && (forall i :: 0 <= i < |bs| - 1 ==> Partial(bs[i]))
  {
    OutputsAreTheTranscript(Code(cfg), depth, steps, g);
    RecvTranscript(cfg, Run(Code(cfg), depth, steps).value.reqs[g].io.posted);
  }

  /** The completion entries of a stream, and the buffer ids that the kernel wrote
      into the successful ones. */
  function WrittenAll(ks: seq<Posting>): seq<Cqe> {
    seq(|ks|, i requires 0 <= i < |ks| => Written(ks[i]))
  }

  function SelectedBy(ks: seq<Posting>): seq<nat> {
    if ks == [] then []
    else
      var n := |ks| - 1;
      SelectedBy(ks[..n]) + (if ks[n].res >= 0 && ks[n].id.Some? then [ks[n].id.value] else [])
  }

  function IdsOf<A>(ps: seq<Packet<A>>): seq<nat> {
    seq(|ps|, i requires 0 <= i < |ps| => ps[i].bufferId)
  }

  /** The ids handed over are the ids the kernel wrote, split into parsed and
      unparsed without loss. */
  lemma {:induction false} NothingLost<A>(cfg: Config<A>, ks: seq<Posting>)
    requires NoCrash(cfg, WrittenAll(ks)) && forall i :: 0 <= i < |ks| ==> PostingOk(ks[i])
    ensures var cs := WrittenAll(ks);
      multiset(IdsOf(PacketsOf(cfg, cs))) + multiset(UnparsedOf(cfg, cs)) == multiset(SelectedBy(ks))
    decreases |ks|
  {
    if ks != [] {
      var n, cs := |ks| - 1, WrittenAll(ks);
      assert cs[..n] == WrittenAll(ks[..n]);
      NothingLost(cfg, ks[..n]);
      IdsAppend(PacketsOf(cfg, cs[..n]), ItemPackets(Contribution(cfg, cs[n])));
      OneSelected(cfg, ks[n]);
    }
  }

  lemma IdsAppend<A>(ps: seq<Packet<A>>, qs: seq<Packet<A>>)
    ensures IdsOf(ps + qs) == IdsOf(ps) + IdsOf(qs)
  {
  }

  /** The buffer one completion selects is its packet's or its unparsed one. */
  lemma OneSelected<A>(cfg: Config<A>, k: Posting)
    requires PostingOk(k) && !Contribution(cfg, Written(k)).Crash?
    ensures var item := Contribution(cfg, Written(k));
      multiset(IdsOf(ItemPackets(item))) + multiset(ItemIds(item)) ==
      multiset(if k.res >= 0 && k.id.Some? then [k.id.value] else [])
  {
    FlagsRoundTrip(k);
    match Contribution(cfg, Written(k))
    case Nothing =>
    case Good(p) =>
      assert IdsOf([p]) == [p.bufferId];
    case Raw(id) =>
      assert IdsOf<A>([]) == [];
  }
}
