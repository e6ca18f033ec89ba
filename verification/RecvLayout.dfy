/** The layout of a buffer filled by a multishot `recvmsg`: the header
    `io_uring_recvmsg_out` of the Linux user API, then the reserved name space,
    the reserved control space and the payload. */
module RecvLayout {
  import opened Uring

  const HEADER: nat := 16
  /** The size of `sockaddr_in`. */
  const MIN_NAME: nat := 16
  /** The size of `sockaddr_storage`, which the name is copied into. */
  const STORAGE: nat := 128

  function FromLe(s: seq<Byte>): (n: nat)
    requires |s| == 4
    ensures n < 0x1_0000_0000
  {
    s[0] as int + 0x100 * (s[1] as int) + 0x1_0000 * (s[2] as int) + 0x100_0000 * (s[3] as int)
  }

  function ToLe(n: nat): seq<Byte> {
    [n % 0x100, n / 0x100 % 0x100, n / 0x1_0000 % 0x100, n / 0x100_0000 % 0x100]
  }

  lemma LeRoundTrip(n: nat)
    requires n < 0x1_0000_0000
    ensures FromLe(ToLe(n)) == n
  {
    var a := n / 0x100;
    var b := a / 0x100;
    assert n / 0x1_0000 == b && n / 0x100_0000 == b / 0x100;
  }

  /** The byte order, on one word. */
  lemma LittleEndian()
    ensures FromLe([1, 2, 3, 4]) == 0x0403_0201 && ToLe(0x0403_0201) == [1, 2, 3, 4]
  {
  }

  datatype Parse<A> =
    | Parsed(source: A, offset: nat, length: nat)
    | NoHeader
    | TooSmall
    | ShortName
    | BadAddress

  /** `parse_recvmsg_out`. `decode` is the decoding of a socket address. It fails
      in two ways, which are both a `Panic` here: a name length that points
      outside the buffer makes the slice panic, and a name longer than the
      address storage is copied over the end of it. */
  function ParseRecvMsgOut<A>(decode: seq<Byte> -> Option<A>, buffer: seq<Byte>, nameLen: nat,
                              controlLen: nat): Outcome<Parse<A>> {
    if |buffer| < HEADER then Done(NoHeader)
    else
      var actualName := FromLe(buffer[0..4]);
      var payloadLen := FromLe(buffer[8..12]);
      var offset := HEADER + nameLen + controlLen;
      if |buffer| < offset + payloadLen then Done(TooSmall)
      else if HEADER + actualName > |buffer| then Panic
      else if actualName < MIN_NAME then Done(ShortName)
      else if actualName > STORAGE then Panic
      else
        match decode(buffer[HEADER..HEADER + actualName])
        case None => Done(BadAddress)
        case Some(a) => Done(Parsed(a, offset, payloadLen))
  }

  /** When the parser fails: the buffer is long enough for its payload, and the
      announced name leaves the buffer or the address storage. */
  ghost predicate Overlong(buffer: seq<Byte>, nameLen: nat, controlLen: nat) {
    && |buffer| >= HEADER
    && HEADER + nameLen + controlLen + FromLe(buffer[8..12]) <= |buffer|
    && (HEADER + FromLe(buffer[0..4]) > |buffer| || FromLe(buffer[0..4]) > STORAGE)
  }

  lemma FailsExactly<A>(decode: seq<Byte> -> Option<A>, buffer: seq<Byte>, nameLen: nat, controlLen: nat)
    ensures ParseRecvMsgOut(decode, buffer, nameLen, controlLen).Panic? <==> Overlong(buffer, nameLen, controlLen)
  {
  }

  /** With the space reserved for a name within the storage, a failure takes a
      name that is longer than that space. */
  lemma FailureTakesLongName(buffer: seq<Byte>, nameLen: nat, controlLen: nat)
    requires nameLen <= STORAGE && Overlong(buffer, nameLen, controlLen)
    ensures FromLe(buffer[0..4]) > nameLen
  {
  }

  /** A buffer with a header that announces `name` bytes of name and `payload`
      bytes of payload, with the space the receive operation reserves. */
  function Announcing(name: nat, payload: nat): seq<Byte> {
    ToLe(name) + ToLe(0) + ToLe(payload) + ToLe(0) + seq(STORAGE + payload, _ => 0)
  }

  lemma AnnouncingFields(name: nat, payload: nat)
    requires name < 0x1_0000_0000 && payload < 0x1_0000_0000
    ensures var buffer := Announcing(name, payload);
      && |buffer| == HEADER + STORAGE + payload
      && FromLe(buffer[0..4]) == name && FromLe(buffer[8..12]) == payload
  {
    var buffer := Announcing(name, payload);
    assert buffer[0..4] == ToLe(name) && buffer[8..12] == ToLe(payload);
    LeRoundTrip(name);
    LeRoundTrip(payload);
  }

  /** Both failures happen with the lengths the receive operation uses: an empty
      datagram whose announced name points behind the buffer, and a datagram of
      1500 bytes whose announced name of 200 bytes lies inside the buffer and
      does not fit the storage. */
  lemma BothFailures<A>(decode: seq<Byte> -> Option<A>)
    ensures |Announcing(129, 0)| == 144
    ensures ParseRecvMsgOut(decode, Announcing(129, 0), 128, 0).Panic?
    ensures |Announcing(200, 1500)| == 1644
    ensures ParseRecvMsgOut(decode, Announcing(200, 1500), 128, 0).Panic?
  {
    AnnouncingFields(129, 0);
    AnnouncingFields(200, 1500);
    FailsExactly(decode, Announcing(129, 0), 128, 0);
    FailsExactly(decode, Announcing(200, 1500), 128, 0);
  }

  /** A parsed payload lies inside the buffer, behind the reserved space. */
  lemma ParsedIsInside<A>(decode: seq<Byte> -> Option<A>, buffer: seq<Byte>, nameLen: nat, controlLen: nat, p: Parse<A>)
    requires ParseRecvMsgOut(decode, buffer, nameLen, controlLen) == Done(p) && p.Parsed?
    ensures p.offset == HEADER + nameLen + controlLen && p.offset + p.length <= |buffer|
    ensures |buffer| >= HEADER && p.length == FromLe(buffer[8..12])
  {
  }

  /** What the kernel writes. The actual name and control data stand at the
      start of the space reserved for them; what the rest of that space and the
      end of the buffer hold is arbitrary. */
  datatype Message = Message(name: seq<Byte>, namePad: seq<Byte>, control: seq<Byte>, controlPad: seq<Byte>,
                             payload: seq<Byte>, flags: nat, tail: seq<Byte>)

  function Header(m: Message): seq<Byte> {
    ToLe(|m.name|) + ToLe(|m.control|) + ToLe(|m.payload|) + ToLe(m.flags)
  }

  function Encode(m: Message): seq<Byte> {
    Header(m) + m.name + m.namePad + m.control + m.controlPad + m.payload + m.tail
  }

  lemma HeaderFields(m: Message)
    ensures |Header(m)| == HEADER && |Encode(m)| >= HEADER
    ensures Encode(m)[0..4] == ToLe(|m.name|) && Encode(m)[8..12] == ToLe(|m.payload|)
  {
  }

  lemma Sections(m: Message)
    ensures var n := HEADER + |m.name|;
      n <= |Encode(m)| && Encode(m)[HEADER..n] == m.name
    ensures var o := HEADER + |m.name| + |m.namePad| + |m.control| + |m.controlPad|;
      o + |m.payload| <= |Encode(m)| && Encode(m)[o..o + |m.payload|] == m.payload
  {
  }

  /** Parsing what the kernel wrote, for every message whose name and control
      data fit the space reserved for them: the address that was encoded and
      exactly the payload, or the error that the name deserves, or the overrun
      of a name longer than the storage. */
  lemma ParseEncode<A>(decode: seq<Byte> -> Option<A>, m: Message, nameLen: nat, controlLen: nat)
    requires |m.name| + |m.namePad| == nameLen && |m.control| + |m.controlPad| == controlLen
    requires |m.name| < 0x1_0000_0000 && |m.payload| < 0x1_0000_0000
    ensures var offset := HEADER + nameLen + controlLen;
      && ParseRecvMsgOut(decode, Encode(m), nameLen, controlLen) ==
        (if |m.name| > STORAGE then Panic
         else if |m.name| < MIN_NAME then Done(ShortName)
         else if decode(m.name).None? then Done(BadAddress)
         else Done(Parsed(decode(m.name).value, offset, |m.payload|)))
      && offset + |m.payload| <= |Encode(m)|
      && Encode(m)[offset..offset + |m.payload|] == m.payload
  {
    HeaderFields(m);
    Sections(m);
    LeRoundTrip(|m.name|);
    LeRoundTrip(|m.payload|);
  }

  /** A datagram with an IPv4 sender, whose address has 16 bytes, in the space
      that the receive operation reserves: the payload begins at byte 144. */
  lemma Ipv4Parses<A>(decode: seq<Byte> -> Option<A>, m: Message)
    requires |m.name| == 16 && |m.namePad| == 112 && m.control == [] && m.controlPad == []
    requires |m.payload| < 0x1_0000_0000 && decode(m.name).Some?
    ensures ParseRecvMsgOut(decode, Encode(m), 128, 0) == Done(Parsed(decode(m.name).value, 144, |m.payload|))
    ensures 144 + |m.payload| <= |Encode(m)| && Encode(m)[144..144 + |m.payload|] == m.payload
    ensures Encode(m)[16..32] == m.name
  {
    ParseEncode(decode, m, 128, 0);
    Sections(m);
  }

  /** The longest name that fits the storage is accepted. */
  lemma LongestNameParses<A>(decode: seq<Byte> -> Option<A>, m: Message)
    requires |m.name| == 128 && m.namePad == [] && m.control == [] && m.controlPad == []
    requires |m.payload| < 0x1_0000_0000 && decode(m.name).Some?
    ensures ParseRecvMsgOut(decode, Encode(m), 128, 0) == Done(Parsed(decode(m.name).value, 144, |m.payload|))
  {
    ParseEncode(decode, m, 128, 0);
  }

  /** A message cut off before the end of its payload is rejected. */
  lemma TruncatedIsRejected<A>(decode: seq<Byte> -> Option<A>, m: Message, nameLen: nat, controlLen: nat, n: nat)
    requires |m.name| + |m.namePad| == nameLen && |m.control| + |m.controlPad| == controlLen
    requires |m.payload| < 0x1_0000_0000
    requires n < HEADER + nameLen + controlLen + |m.payload| && n <= |Encode(m)|
    ensures ParseRecvMsgOut(decode, Encode(m)[..n], nameLen, controlLen) ==
      Done(if n < HEADER then NoHeader else TooSmall)
  {
    HeaderFields(m);
    LeRoundTrip(|m.payload|);
    if n >= HEADER {
      assert Encode(m)[..n][8..12] == Encode(m)[8..12];
    }
  }
}
