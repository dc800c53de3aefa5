/**
 Data-channel establishment (src/dce/dce.c, the protocol of RFC 8832): a fixed table of channels, two
 tables from stream ids to channels, and the list of streams waiting to be reset.

 What usrsctp answers is input: `streams` is the number of outgoing streams it reports (negative when it
 reports an error), a send is taken, deferred (EAGAIN) or refused, and a reset request is accepted or not.
 */
module Dce {

  const NUM: int := 10                  // NUMBER_OF_CHANNELS and NUMBER_OF_STREAMS
  const NONE: int := -1                 // a null pointer in a stream table

  const PR_NONE := 0                    // SCTP_PR_SCTP_NONE
  const PR_TTL := 1                     // SCTP_PR_SCTP_TTL
  const PR_RTX := 3                     // SCTP_PR_SCTP_RTX

  const MAX_TEXT: int := 128            // DATA_CHANNEL_MAX_LABEL_STR_LEN and ..._PROTOCOL_STR_LEN

  type Byte = b: int | 0 <= b < 256

  datatype ChanState = Closed | Connecting | Open | Closing

  datatype Channel = Channel(
    state: ChanState,
    unordered: bool,
    policy: int,
    value: int,
    iStream: int,
    oStream: int,
    sendReq: bool,
    sendAck: bool,
    name: seq<Byte>,
    proto: seq<Byte>)

  datatype Tables = Tables(
    chans: seq<Channel>,
    inMap: seq<int>,
    outMap: seq<int>,
    pending: seq<int>,
    evenSid: bool)

  datatype Sent = Taken | Deferred | Refused

  /** What an open request asks for. */
  datatype Request = Request(unordered: bool, policy: int, value: int, name: seq<Byte>, proto: seq<Byte>)

  const BLANK := seq(128, _ => 0 as Byte)

  /** init_peer_connection, and the role dce_connect sets. */
  function Init(even: bool): Tables {
    Tables(seq(NUM, _ => Channel(Closed, false, PR_NONE, 0, 0, 0, false, false, BLANK, BLANK)),
           seq(NUM, _ => NONE), seq(NUM, _ => NONE), [], even)
  }

  predicate ChannelOrNone(c: int) {
    c == NONE || 0 <= c < NUM
  }

  predicate StreamsInRange(ch: Channel) {
    0 <= ch.iStream < NUM && 0 <= ch.oStream < NUM
  }

  /** Every table has its size and every index held in one fits the table it points into. */
  predicate Shaped(t: Tables) {
    && |t.chans| == NUM && |t.inMap| == NUM && |t.outMap| == NUM
    && (forall c | 0 <= c < NUM :: StreamsInRange(t.chans[c]))
    && (forall s | 0 <= s < NUM :: ChannelOrNone(t.inMap[s]) && ChannelOrNone(t.outMap[s]))
  }

  /** memcpy into a fixed text field: what is beyond the copied bytes stays. */
  function Overlay(field: seq<Byte>, text: seq<Byte>): (r: seq<Byte>)
    ensures |text| <= |r| && r[..|text|] == text
    ensures |text| <= |field| ==> |r| == |field|
  {
    if |text| <= |field| then text + field[|text|..] else text
  }

  // ---------------------------------------------------------------------------------------
  // Searching
  // ---------------------------------------------------------------------------------------

  function FreeChannelFrom(t: Tables, i: int): (r: int)
    requires Shaped(t) && 0 <= i <= NUM
    ensures i <= r <= NUM && (r < NUM ==> t.chans[r].state.Closed?)
    decreases NUM - i
  {
    if i == NUM || t.chans[i].state.Closed? then i else FreeChannelFrom(t, i + 1)
  }

  /** find_free_channel; NUM when there is none. */
  function FreeChannel(t: Tables): int
    requires Shaped(t)
  {
    FreeChannelFrom(t, 0)
  }

  /** This side may open stream i: it is free and of the parity of this side. */
  predicate MayOpen(t: Tables, i: int)
    requires Shaped(t)
  {
    0 < i < NUM && t.outMap[i] == NONE && (i % 2 == 0 <==> t.evenSid)
  }

  function FreeStreamFrom(t: Tables, i: int, limit: int): (r: int)
    requires Shaped(t) && 1 <= i && limit <= NUM
    ensures i <= r && (i <= limit ==> r <= limit) && (r < limit ==> MayOpen(t, r))
    ensures limit < i ==> r == i
    ensures forall j | i <= j < r :: !MayOpen(t, j)
    decreases limit - i
  {
    if i >= limit || MayOpen(t, i) then i else FreeStreamFrom(t, i + 1, limit)
  }

  function Limit(streams: int): int {
    if streams < NUM then streams else NUM
  }

  /** find_free_o_stream; 0 when there is none. */
  function FreeStream(t: Tables, streams: int): int
    requires Shaped(t)
  {
    if streams < 0 then 0
    else
      var i := FreeStreamFrom(t, 1, Limit(streams));
      if i == Limit(streams) then 0 else i
  }

  /** A search result the callers can use: none, or a stream this side may open. */
  predicate GoodStream(t: Tables, s: int)
    requires Shaped(t)
  {
    s == 0 || MayOpen(t, s)
  }

  /**
   The search returns a usable stream exactly when usrsctp reports an error or at least one stream; with
   none reported it answers 1 unchecked, which is usable only if 1 happens to be.
   */
  lemma FreeStreamIsGoodIff(t: Tables, streams: int)
    requires Shaped(t)
    ensures GoodStream(t, FreeStream(t, streams)) <==> streams != 0 || MayOpen(t, 1)
    ensures streams == 0 ==> FreeStream(t, streams) == 1
  {
  }

  /** And with streams reported it fails only when every stream of this side below the limit is taken. */
  lemma FreeStreamFindsOne(t: Tables, streams: int)
    requires Shaped(t) && streams > 0
    ensures FreeStream(t, streams) == 0 <==> forall j | 1 <= j < Limit(streams) :: !MayOpen(t, j)
  {
  }

  /** valid_o_stream */
  predicate ValidStream(s: int, streams: int) {
    streams >= 0 && s <= Limit(streams)
  }

  function InChannel(t: Tables, s: int): int
    requires Shaped(t) && 0 <= s
  {
    if s < NUM then t.inMap[s] else NONE
  }

  function OutChannel(t: Tables, s: int): int
    requires Shaped(t) && 0 <= s
  {
    if s < NUM then t.outMap[s] else NONE
  }

  /** The checks handle_open_request_message makes before it takes a channel. */
  predicate Admits(t: Tables, s: int, streams: int)
    requires Shaped(t) && 0 <= s
  {
    InChannel(t, s) == NONE && ValidStream(s, streams) && OutChannel(t, s) == NONE
  }

  /** The stream a remote open enters in the tables is one of theirs. */
  predicate EntersInside(t: Tables, s: int, streams: int)
    requires Shaped(t) && 0 <= s
  {
    Admits(t, s, streams) && FreeChannel(t) < NUM ==> s < NUM
  }

  /** The checks let an entry outside the tables through in one case: id 10, ten or more streams, a free channel. */
  lemma EntersOutsideIff(t: Tables, s: int, streams: int)
    requires Shaped(t) && 0 <= s
    ensures !EntersInside(t, s, streams) <==> s == NUM && streams >= NUM && FreeChannel(t) < NUM
  {
  }

  // ---------------------------------------------------------------------------------------
  // Operations
  // ---------------------------------------------------------------------------------------

  function SetChan(t: Tables, c: int, ch: Channel): (r: Tables)
    requires Shaped(t) && 0 <= c < NUM && StreamsInRange(ch)
    ensures Shaped(r) && r.evenSid == t.evenSid
  {
    t.(chans := t.chans[c := ch])
  }

  function SetIn(t: Tables, s: int, c: int): (r: Tables)
    requires Shaped(t) && 0 <= s < NUM && ChannelOrNone(c)
    ensures Shaped(r) && r.evenSid == t.evenSid
  {
    t.(inMap := t.inMap[s := c])
  }

  function SetOut(t: Tables, s: int, c: int): (r: Tables)
    requires Shaped(t) && 0 <= s < NUM && ChannelOrNone(c)
    ensures Shaped(r) && r.evenSid == t.evenSid
  {
    t.(outMap := t.outMap[s := c])
  }

  predicate Openable(r: Request) {
    && |r.name| <= MAX_TEXT && |r.proto| <= MAX_TEXT
    && (r.policy == PR_NONE || r.policy == PR_TTL || r.policy == PR_RTX)
    && (r.policy == PR_NONE ==> r.value == 0)
  }

  /** open_channel once channel c and stream s are chosen. */
  function OpenOn(t: Tables, q: Request, c: int, s: int, sent: Sent): (r: (Tables, int))
    requires Shaped(t) && 0 <= c < NUM && 0 <= s < NUM
    ensures Shaped(r.0) && r.0.evenSid == t.evenSid
  {
    var ch := Channel(Connecting, q.unordered, q.policy, q.value, s, s, false, false,
                      Overlay(t.chans[c].name, q.name), Overlay(t.chans[c].proto, q.proto));
    var t1 := SetIn(SetChan(t, c, ch), s, c);
    if s == 0 then (t1, c)
    else match sent
      case Taken => (SetOut(t1, s, c), c)
      case Deferred => (SetChan(SetOut(t1, s, c), c, ch.(sendReq := true)), c)
      case Refused =>
        (SetChan(t1, c, ch.(state := Closed, unordered := false, policy := 0, value := 0, oStream := 0)), NONE)
  }

  /** open_channel; the channel number, or NONE. */
  function OpenChannel(t: Tables, q: Request, streams: int, sent: Sent): (r: (Tables, int))
    requires Shaped(t)
    ensures Shaped(r.0) && r.0.evenSid == t.evenSid
  {
    var c := FreeChannel(t);
    if !Openable(q) || c == NUM then (t, NONE) else OpenOn(t, q, c, FreeStream(t, streams), sent)
  }

  /** handle_open_request_message once its checks passed and channel c is chosen. */
  function AcceptOn(t: Tables, q: Request, c: int, s: int, sent: Sent): (r: Tables)
    requires Shaped(t) && 0 <= c < NUM && 0 <= s < NUM
    ensures Shaped(r) && r.evenSid == t.evenSid
  {
    var ch := Channel(Open, q.unordered, q.policy, q.value, s, s, false, false,
                      Overlay(t.chans[c].name, q.name),
                      Overlay(t.chans[c].proto, q.proto));
    var t1 := SetIn(SetChan(t, c, ch), s, c);
    if s == 0 then t1
    else match sent
      case Taken => SetOut(t1, s, c)
      case Deferred => SetOut(SetChan(t1, c, ch.(sendAck := true)), s, c)
      case Refused =>
        SetChan(SetIn(t1, s, NONE), c,
                ch.(state := Closed, unordered := false, policy := 0, value := 0, iStream := 0, oStream := 0))
  }

  /** handle_open_request_message, for a request already taken apart. */
  function RemoteOpen(t: Tables, q: Request, s: int, streams: int, sent: Sent): (r: Tables)
    requires Shaped(t) && 0 <= s && EntersInside(t, s, streams)
    ensures Shaped(r) && r.evenSid == t.evenSid
  {
    var c := FreeChannel(t);
    if !Admits(t, s, streams) || c == NUM then t else AcceptOn(t, q, c, s, sent)
  }

  /** handle_open_ack_message, and the implicit acknowledgement in handle_data_message. */
  function Acknowledge(t: Tables, s: int): (r: Tables)
    requires Shaped(t) && 0 <= s
    ensures Shaped(r) && r.evenSid == t.evenSid
  {
    var c := InChannel(t, s);
    if c != NONE && t.chans[c].state.Connecting? then SetChan(t, c, t.chans[c].(state := Open)) else t
  }

  /** reset_outgoing_stream */
  function QueueReset(t: Tables, s: int): Tables {
    if s in t.pending then t else t.(pending := t.pending + [s])
  }

  /** send_outgoing_stream_reset */
  function SendResets(t: Tables, accepted: bool): Tables {
    if accepted then t.(pending := []) else t
  }

  /** close_channel */
  function CloseChannel(t: Tables, c: int, accepted: bool): (r: Tables)
    requires Shaped(t) && 0 <= c < NUM
    ensures Shaped(r) && r.evenSid == t.evenSid
  {
    if !t.chans[c].state.Open? then t
    else SetChan(SendResets(QueueReset(t, t.chans[c].oStream), accepted), c, t.chans[c].(state := Closing))
  }

  function Cleared(ch: Channel): Channel {
    ch.(policy := PR_NONE, value := 0, unordered := false, sendReq := false, sendAck := false, state := Closed)
  }

  /** An incoming stream was reset by the peer. */
  function ResetIn(t: Tables, s: int): (r: Tables)
    requires Shaped(t) && 0 <= s
    ensures Shaped(r) && r.evenSid == t.evenSid
  {
    var c := InChannel(t, s);
    if c == NONE then t
    else
      var ch := t.chans[c].(iStream := 0);
      var t1 := SetChan(SetIn(t, t.chans[c].iStream, NONE), c, ch);
      if ch.oStream == 0 then SetChan(t1, c, Cleared(ch))
      else if ch.state.Open? then SetChan(QueueReset(t1, ch.oStream), c, ch.(state := Closing))
      else t1
  }

  /** An outgoing stream was reset. */
  function ResetOut(t: Tables, s: int): (r: Tables)
    requires Shaped(t) && 0 <= s
    ensures Shaped(r) && r.evenSid == t.evenSid
  {
    var c := OutChannel(t, s);
    if c == NONE then t
    else
      var ch := t.chans[c].(oStream := 0);
      SetChan(SetOut(t, t.chans[c].oStream, NONE), c, if ch.iStream == 0 then Cleared(ch) else ch)
  }

  /** handle_stream_reset_event over the listed streams. */
  function ResetBoth(t: Tables, incoming: bool, outgoing: bool, id: nat): (r: Tables)
    requires Shaped(t)
    ensures Shaped(r) && r.evenSid == t.evenSid
  {
    var t1 := if incoming then ResetIn(t, id) else t;
    if outgoing then ResetOut(t1, id) else t1
  }

  function ResetStreams(t: Tables, incoming: bool, outgoing: bool, ids: seq<nat>): (r: Tables)
    requires Shaped(t)
    ensures Shaped(r) && r.evenSid == t.evenSid
    decreases |ids|
  {
    if |ids| == 0 then t
    else ResetStreams(ResetBoth(t, incoming, outgoing, ids[0]), incoming, outgoing, ids[1..])
  }

  /** One channel in handle_stream_change_event; the flag tells to stop looking further. */
  function ChangeOne(t: Tables, c: int, failed: bool, streams: int): (r: (Tables, bool))
    requires Shaped(t) && 0 <= c < NUM
    ensures Shaped(r.0) && r.0.evenSid == t.evenSid
  {
    var ch := t.chans[c];
    if !ch.state.Connecting? || ch.oStream != 0 then (t, false)
    else if failed then
      var t1 := if ch.iStream != 0 then SetIn(t, ch.iStream, NONE) else t;
      (SetChan(t1, c, Cleared(ch).(iStream := 0, oStream := 0)), false)
    else
      var s := FreeStream(t, streams);
      if s == 0 then (t, true)
      else (SetOut(SetChan(t, c, ch.(oStream := s, sendReq := ch.sendReq || ch.iStream == 0)), s, c), false)
  }

  /** handle_stream_change_event from channel c on; streams[c] is what usrsctp reports when c is looked at. */
  function ChangeFrom(t: Tables, c: int, failed: bool, streams: seq<int>): (r: Tables)
    requires Shaped(t) && 0 <= c <= NUM == |streams|
    ensures Shaped(r) && r.evenSid == t.evenSid
    decreases NUM - c
  {
    if c == NUM then t
    else
      var (t1, stop) := ChangeOne(t, c, failed, streams[c]);
      if stop then t1 else ChangeFrom(t1, c + 1, failed, streams)
  }

  // ---------------------------------------------------------------------------------------
  // Runs
  // ---------------------------------------------------------------------------------------

  datatype Event =
    | LocalOpen(req: Request, streams: int, sent: Sent)
    | PeerOpen(req: Request, s: nat, streams: int, sent: Sent)
    | PeerData(s: nat)
    | LocalClose(c: nat, accepted: bool)
    | StreamReset(incoming: bool, outgoing: bool, ids: seq<nat>, accepted: bool)
    | StreamChange(failed: bool, counts: seq<int>, accepted: bool)

  /** The step stays within the tables: its channel exists and a remote open enters a stream of theirs. */
  predicate Inside(t: Tables, e: Event)
    requires Shaped(t)
  {
    match e
    case PeerOpen(_, s, streams, _) => EntersInside(t, s, streams)
    case LocalClose(c, _) => c < NUM
    case StreamChange(_, counts, _) => |counts| == NUM
    case _ => true
  }

  function Step(t: Tables, e: Event): (r: Tables)
    requires Shaped(t) && Inside(t, e)
    ensures Shaped(r) && r.evenSid == t.evenSid
  {
    match e
    case LocalOpen(req, streams, sent) => OpenChannel(t, req, streams, sent).0
    case PeerOpen(req, s, streams, sent) => RemoteOpen(t, req, s, streams, sent)
    case PeerData(s) => Acknowledge(t, s)
    case LocalClose(c, accepted) => CloseChannel(t, c, accepted)
    case StreamReset(incoming, outgoing, ids, accepted) =>
      SendResets(ResetStreams(t, incoming, outgoing, ids), accepted)
    case StreamChange(failed, counts, accepted) => SendResets(ChangeFrom(t, 0, failed, counts), accepted)
  }

  predicate InsideRun(t: Tables, es: seq<Event>)
    requires Shaped(t)
    decreases |es|
  {
    |es| == 0 || (Inside(t, es[0]) && InsideRun(Step(t, es[0]), es[1..]))
  }

  function Run(t: Tables, es: seq<Event>): (r: Tables)
    requires Shaped(t) && InsideRun(t, es)
    ensures Shaped(r) && r.evenSid == t.evenSid
    decreases |es|
  {
    if |es| == 0 then t else Run(Step(t, es[0]), es[1..])
  }
}
