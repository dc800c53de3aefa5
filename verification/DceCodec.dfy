/** The DATA_CHANNEL_OPEN message (section 5.1 of RFC 8832) as src/dce/dce.c writes and reads it. */
module DceCodec {
  import opened Dce
  import opened DceSides

  const OPEN_REQUEST: Byte := 0x03
  const HEADER := 12

  function Be16(n: int): (r: seq<Byte>)
    requires 0 <= n < 0x10000
    ensures |r| == 2 && Read16(r, 0) == n
  {
    [n / 256, n % 256]
  }

  function Read16(b: seq<Byte>, i: nat): (n: int)
    requires i + 2 <= |b|
    ensures 0 <= n < 0x10000
  {
    (b[i] as int) * 256 + b[i + 1]
  }

  function Be32(n: int): (r: seq<Byte>)
    requires 0 <= n < 0x1_0000_0000
    ensures |r| == 4 && Read32(r, 0) == n
  {
    Be16(n / 0x10000) + Be16(n % 0x10000)
  }

  function Read32(b: seq<Byte>, i: nat): (n: int)
    requires i + 4 <= |b|
    ensures 0 <= n < 0x1_0000_0000
  {
    Read16(b, i) * 0x10000 + Read16(b, i + 2)
  }

  /** The channel type of a request. */
  function TypeOf(unordered: bool, policy: int): Byte
    requires policy == PR_NONE || policy == PR_TTL || policy == PR_RTX
  {
    (if unordered then 0x80 else 0x00) + (if policy == PR_RTX then 0x01 else if policy == PR_TTL then 0x02 else 0x00)
  }

  function Unordered(kind: Byte): bool {
    kind == 0x80 || kind == 0x81 || kind == 0x82
  }

  function Policy(kind: Byte): int {
    if kind == 0x01 || kind == 0x81 then PR_RTX
    else if kind == 0x02 || kind == 0x82 then PR_TTL
    else PR_NONE
  }

  /** What open_channel lets through, with a 32-bit reliability parameter. */
  predicate Sendable(q: Request) {
    Openable(q) && 0 <= q.value < 0x1_0000_0000
  }

  /** The twelve fixed bytes: message type, channel type, priority, parameter and the lengths of the two texts. */
  function Header(kind: Byte, value: int, nameLen: int, protoLen: int): (b: seq<Byte>)
    requires 0 <= value < 0x1_0000_0000 && 0 <= nameLen < 0x10000 && 0 <= protoLen < 0x10000
    ensures |b| == HEADER
  {
    var v, n, p := Be32(value), Be16(nameLen), Be16(protoLen);
    [OPEN_REQUEST, kind, 0, 0, v[0], v[1], v[2], v[3], n[0], n[1], p[0], p[1]]
  }

  /** send_open_request_message */
  function Encode(q: Request): (b: seq<Byte>)
    requires Sendable(q)
    ensures |b| == HEADER + |q.name| + |q.proto|
  {
    Header(TypeOf(q.unordered, q.policy), q.value, |q.name|, |q.proto|) + q.name + q.proto
  }

  predicate Complete(b: seq<Byte>) {
    HEADER <= |b| && HEADER + Read16(b, 8) + Read16(b, 10) <= |b|
  }

  /** The reading half of handle_open_request_message: a text that does not fit is not copied, nor stepped over. */
  function Decode(b: seq<Byte>): Request
    requires Complete(b)
  {
    var nameLen, protoLen := Read16(b, 8), Read16(b, 10);
    var name := if nameLen <= MAX_TEXT then b[HEADER..HEADER + nameLen] else [];
    var at := HEADER + |name|;
    Request(Unordered(b[1]), Policy(b[1]), Read32(b, 4), name,
            if protoLen <= MAX_TEXT then b[at..at + protoLen] else [])
  }

  lemma HeaderReads(kind: Byte, value: int, nameLen: int, protoLen: int)
    requires 0 <= value < 0x1_0000_0000 && 0 <= nameLen < 0x10000 && 0 <= protoLen < 0x10000
    ensures var h := Header(kind, value, nameLen, protoLen);
            Read16(h, 2) == 0 && Read32(h, 4) == value && Read16(h, 8) == nameLen && Read16(h, 10) == protoLen
  {
    var h, v := Header(kind, value, nameLen, protoLen), Be32(value);
    assert Read16(h, 4) == Read16(v, 0) && Read16(h, 6) == Read16(v, 2);
  }

  /** Reading the header of a message is reading the header alone. */
  lemma ReadsInHeader(h: seq<Byte>, rest: seq<Byte>)
    requires |h| == HEADER
    ensures Read16(h + rest, 2) == Read16(h, 2) && Read32(h + rest, 4) == Read32(h, 4)
    ensures Read16(h + rest, 8) == Read16(h, 8) && Read16(h + rest, 10) == Read16(h, 10)
  {
  }

  lemma EncodedSplits(q: Request)
    requires Sendable(q)
    ensures Encode(q) == Header(TypeOf(q.unordered, q.policy), q.value, |q.name|, |q.proto|) + (q.name + q.proto)
  {
  }

  lemma EncodedHeader(q: Request)
    requires Sendable(q)
    ensures var b := Encode(q);
            && b[0] == OPEN_REQUEST && b[1] == TypeOf(q.unordered, q.policy) && Read16(b, 2) == 0
            && Read32(b, 4) == q.value && Read16(b, 8) == |q.name| && Read16(b, 10) == |q.proto|
  {
    var h := Header(TypeOf(q.unordered, q.policy), q.value, |q.name|, |q.proto|);
    EncodedSplits(q);
    HeaderReads(TypeOf(q.unordered, q.policy), q.value, |q.name|, |q.proto|);
    ReadsInHeader(h, q.name + q.proto);
  }

  lemma TextsAfter(h: seq<Byte>, name: seq<Byte>, proto: seq<Byte>)
    requires |h| == HEADER
    ensures (h + name + proto)[HEADER..HEADER + |name|] == name
    ensures (h + name + proto)[HEADER + |name|..HEADER + |name| + |proto|] == proto
  {
  }

  lemma EncodedTexts(q: Request)
    requires Sendable(q)
    ensures var b := Encode(q);
            b[HEADER..HEADER + |q.name|] == q.name && b[HEADER + |q.name|..HEADER + |q.name| + |q.proto|] == q.proto
  {
    TextsAfter(Header(TypeOf(q.unordered, q.policy), q.value, |q.name|, |q.proto|), q.name, q.proto);
  }

  /** Every request open_channel sends is read back as it was: ordering, policy, parameter and both texts. */
  lemma RoundTrip(q: Request)
    requires Sendable(q)
    ensures Complete(Encode(q)) && Decode(Encode(q)) == q
  {
    EncodedHeader(q);
    EncodedTexts(q);
    TypeReads(q.unordered, q.policy);
    DecodeIs(Encode(q), q);
  }

  lemma DecodeIs(b: seq<Byte>, q: Request)
    requires Complete(b) && Unordered(b[1]) == q.unordered && Policy(b[1]) == q.policy && Read32(b, 4) == q.value
    requires Read16(b, 8) == |q.name| <= MAX_TEXT && Read16(b, 10) == |q.proto| <= MAX_TEXT
    requires b[HEADER..HEADER + |q.name|] == q.name
    requires b[HEADER + |q.name|..HEADER + |q.name| + |q.proto|] == q.proto
    ensures Decode(b) == q
  {
  }

  lemma TypeReads(unordered: bool, policy: int)
    requires policy == PR_NONE || policy == PR_TTL || policy == PR_RTX
    ensures Unordered(TypeOf(unordered, policy)) == unordered && Policy(TypeOf(unordered, policy)) == policy
    ensures KnownType(TypeOf(unordered, policy))
  {
  }

  predicate KnownType(kind: Byte) {
    kind == 0x00 || kind == 0x01 || kind == 0x02 || kind == 0x80 || kind == 0x81 || kind == 0x82
  }

  /** The messages the sender produces: known type, no priority, texts that fit and nothing after them. */
  predicate Canonical(b: seq<Byte>) {
    && Complete(b) && |b| == HEADER + Read16(b, 8) + Read16(b, 10)
    && Read16(b, 8) <= MAX_TEXT && Read16(b, 10) <= MAX_TEXT
    && b[0] == OPEN_REQUEST && Read16(b, 2) == 0
    && KnownType(b[1]) && (Policy(b[1]) == PR_NONE ==> Read32(b, 4) == 0)
  }

  lemma Be16Reads(b: seq<Byte>, i: nat)
    requires i + 2 <= |b|
    ensures Be16(Read16(b, i)) == b[i..i + 2]
  {
  }

  lemma Be32Reads(b: seq<Byte>, i: nat)
    requires i + 4 <= |b|
    ensures Be32(Read32(b, i)) == b[i..i + 4]
  {
    Be16Reads(b, i);
    Be16Reads(b, i + 2);
    assert Read32(b, i) / 0x10000 == Read16(b, i) && Read32(b, i) % 0x10000 == Read16(b, i + 2);
  }

  /** A header is written back from what is read of it, but for an unknown message type or priority. */
  lemma HeaderRewrites(b: seq<Byte>)
    requires |b| >= HEADER && b[0] == OPEN_REQUEST && Read16(b, 2) == 0
    ensures Header(b[1], Read32(b, 4), Read16(b, 8), Read16(b, 10)) == b[..HEADER]
  {
    Be32Reads(b, 4);
    Be16Reads(b, 8);
    Be16Reads(b, 10);
    HeaderBytes(b);
  }

  lemma HeaderBytes(b: seq<Byte>)
    requires |b| >= HEADER && b[0] == OPEN_REQUEST && Read16(b, 2) == 0
    requires Be32(Read32(b, 4)) == b[4..8] && Be16(Read16(b, 8)) == b[8..10] && Be16(Read16(b, 10)) == b[10..12]
    ensures Header(b[1], Read32(b, 4), Read16(b, 8), Read16(b, 10)) == b[..HEADER]
  {
    assert b[2] == 0 && b[3] == 0;
  }

  lemma TypeOfRead(kind: Byte)
    ensures TypeOf(Unordered(kind), Policy(kind)) == kind <==> KnownType(kind)
  {
  }

  lemma DecodedFields(b: seq<Byte>)
    requires Canonical(b)
    ensures Sendable(Decode(b)) && Decode(b).value == Read32(b, 4)
    ensures |Decode(b).name| == Read16(b, 8) && |Decode(b).proto| == Read16(b, 10)
    ensures Decode(b).name == b[12..12 + Read16(b, 8)] && Decode(b).proto == b[12 + Read16(b, 8)..]
  {
  }

  lemma ThreeParts(b: seq<Byte>, n: int)
    requires 0 <= n && HEADER + n <= |b|
    ensures b == b[..HEADER] + b[HEADER..HEADER + n] + b[HEADER + n..]
  {
  }

  lemma CanonicalReencodes(b: seq<Byte>)
    requires Canonical(b)
    ensures Sendable(Decode(b)) && Encode(Decode(b)) == b
  {
    DecodedFields(b);
    TypeOfRead(b[1]);
    HeaderRewrites(b);
    ThreeParts(b, Read16(b, 8));
  }

  lemma EncodedIsCanonical(q: Request)
    requires Sendable(q)
    ensures Canonical(Encode(q))
  {
    EncodedHeader(q);
    TypeReads(q.unordered, q.policy);
  }

  /** A message is what the sender writes for what the receiver reads exactly when it is canonical. */
  lemma ReencodesIff(b: seq<Byte>)
    requires Complete(b)
    ensures Canonical(b) <==> Sendable(Decode(b)) && Encode(Decode(b)) == b
  {
    if Canonical(b) {
      CanonicalReencodes(b);
    } else if Sendable(Decode(b)) {
      EncodedIsCanonical(Decode(b));
    }
  }

  // ---------------------------------------------------------------------------------------
  // The handshake
  // ---------------------------------------------------------------------------------------

  /** What one side's channel c promises about stream s after a request q. */
  predicate Carries(t: Tables, c: int, s: int, q: Request)
    requires Shaped(t)
  {
    && 0 <= c < NUM && 0 < s < NUM && t.outMap[s] == c && t.inMap[s] == c
    && t.chans[c].state.Open? && t.chans[c].oStream == s && t.chans[c].iStream == s
    && t.chans[c].unordered == q.unordered && t.chans[c].policy == q.policy && t.chans[c].value == q.value
    && |q.name| <= |t.chans[c].name| && t.chans[c].name[..|q.name|] == q.name
    && |q.proto| <= |t.chans[c].proto| && t.chans[c].proto[..|q.proto|] == q.proto
  }

  /** The handshake on a stream that is free on the second side. */
  lemma FreeStreamIsTaken(a: Tables, b: Tables, q: Request, aStreams: int, bStreams: int)
    requires Shaped(a) && Shaped(b) && Sendable(q) && FreeChannel(a) < NUM && FreeChannel(b) < NUM
    requires var s := FreeStream(a, aStreams); 0 < s < NUM && Free(b, s) && ValidStream(s, bStreams)
    ensures var s := FreeStream(a, aStreams);
            && Complete(Encode(q)) && Admits(b, s, bStreams)
            && Carries(Acknowledge(OpenChannel(a, q, aStreams, Taken).0, s), FreeChannel(a), s, q)
            && Carries(RemoteOpen(b, Decode(Encode(q)), s, bStreams, Taken), FreeChannel(b), s, q)
  {
    RoundTrip(q);
    OpenCarries(a, q, FreeChannel(a), FreeStream(a, aStreams));
    AcceptCarries(b, q, FreeChannel(b), FreeStream(a, aStreams));
  }

  /**
   Any two sides with a channel to spare. One asks the other for a stream it picked: the other takes it up, with the
   ordering, policy, parameter and texts asked for, if and only if the stream is free there and within its bounds.
   */
  lemma HandshakeSucceedsIff(a: Tables, b: Tables, q: Request, aStreams: int, bStreams: int)
    requires Shaped(a) && Shaped(b) && Sendable(q) && FreeChannel(a) < NUM && FreeChannel(b) < NUM
    requires 0 < FreeStream(a, aStreams) < NUM
    ensures var s := FreeStream(a, aStreams);
            Carries(RemoteOpen(b, Decode(Encode(q)), s, bStreams, Taken), FreeChannel(b), s, q)
            <==> Free(b, s) && ValidStream(s, bStreams)
  {
    var s := FreeStream(a, aStreams);
    if Free(b, s) && ValidStream(s, bStreams) {
      FreeStreamIsTaken(a, b, q, aStreams, bStreams);
    } else {
      assert b.chans[FreeChannel(b)].state.Closed?;
    }
  }

  /** The stream is of the picking side's parity and was not asked for before, and the other side keeps to its own. */
  predicate FirstUse(even: bool, theirs: seq<Event>, s: int, aStreams: int) {
    !AskedFor(theirs, s) && if even then aStreams != 0 else AllReported(theirs)
  }

  /**
   Two sides with opposite roles, each after any run of its own. One picks a stream that it asks for the first time,
   or that is free again; the other takes the message and answers, the first takes the answer. Then the request was
   admitted, and both hold an open channel on that stream, with what was asked for.
   */
  lemma HandshakeOpensBothEnds(even: bool, mine: seq<Event>, theirs: seq<Event>, q: Request,
                               aStreams: int, bStreams: int)
    requires InsideRun(Init(even), mine) && InsideRun(Init(!even), theirs) && Sendable(q)
    requires var a, b := Run(Init(even), mine), Run(Init(!even), theirs);
             var s := FreeStream(a, aStreams);
             && 0 < s < NUM && FreeChannel(a) < NUM && FreeChannel(b) < NUM && ValidStream(s, bStreams)
             && (FirstUse(even, theirs, s, aStreams) || Free(b, s))
    ensures var a, b := Run(Init(even), mine), Run(Init(!even), theirs);
            var s := FreeStream(a, aStreams);
            && Complete(Encode(q)) && Admits(b, s, bStreams)
            && Carries(Acknowledge(OpenChannel(a, q, aStreams, Taken).0, s), FreeChannel(a), s, q)
            && Carries(RemoteOpen(b, Decode(Encode(q)), s, bStreams, Taken), FreeChannel(b), s, q)
  {
    var a, b := Run(Init(even), mine), Run(Init(!even), theirs);
    var s := FreeStream(a, aStreams);
    if FirstUse(even, theirs, s, aStreams) {
      PickIsOfSideIff(a, aStreams);
      OtherSidesStreamsAreFree(!even, theirs, s);
    }
    FreeStreamIsTaken(a, b, q, aStreams, bStreams);
  }

  /**
   A stream asked for again may be refused: the first side has reset it and picks it once more, while the second,
   which has seen the reset, still waits for its own to be confirmed.
   */
  lemma ReusedStreamMayBeRefused(q: Request)
    requires Openable(q)
    ensures var a := ResetOut(ResetIn(OpenChannel(Init(false), q, NUM, Taken).0, 1), 1);
            var b := ResetIn(RemoteOpen(Init(true), q, 1, NUM, Taken), 1);
            FreeStream(a, NUM) == 1 && !Admits(b, 1, NUM)
  {
    assert FreeChannel(Init(false)) == 0 && FreeChannel(Init(true)) == 0;
    assert FreeStream(Init(false), NUM) == 1 by {
      assert MayOpen(Init(false), 1);
    }
    var a := ResetOut(ResetIn(OpenChannel(Init(false), q, NUM, Taken).0, 1), 1);
    assert MayOpen(a, 1);
  }

  lemma OpenCarries(t: Tables, q: Request, c: int, s: int)
    requires Shaped(t) && 0 <= c < NUM && 0 < s < NUM
    ensures Carries(Acknowledge(OpenOn(t, q, c, s, Taken).0, s), c, s, q)
  {
  }

  lemma AcceptCarries(t: Tables, q: Request, c: int, s: int)
    requires Shaped(t) && 0 <= c < NUM && 0 < s < NUM
    ensures Carries(AcceptOn(t, q, c, s, Taken), c, s, q)
  {
  }
}
