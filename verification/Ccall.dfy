/**
 The conference call's state machine (src/ccall/ccall.c): its states, the connect and keepalive timers, the
 reconnect counters, and what it sends to and takes from SFTs (conference media servers).

 What the layers below answer is input: whether a send fails, which SFTs the configuration allows, whether the
 call to the SFT still has its connection, who else is in the call.
 */
module Ccall {
  import opened CallAgreement

  const MAX_MISSING_PINGS: nat := 4         // CCALL_MAX_MISSING_PINGS
  const MAX_RECONNECT_ATTEMPTS: nat := 2    // CCALL_MAX_RECONNECT_ATTEMPTS
  const MAX_SFTS: nat := 3

  datatype State =
    | None | Idle | Incoming | WaitConfig | WaitConfigOutgoing | ConnSent | SetupRecv
    | Connecting | Connected | Active | Terminating | WaitNetwork

  datatype Timers = Timers(connect: bool, keepalive: bool)

  /** reconnect_attempts, expected_ping, and the metrics reconnects_attempted, reconnects_successful, inc_reconnects. */
  datatype Counts = Counts(attempts: nat, expected: nat, tried: nat, done: nat, pending: bool)

  /** What the call did that the race between SFTs is about. */
  datatype Mark = Entered | ConfConn | Forwarded

  datatype Conf = Conf(
    state: State,
    tmr: Timers,
    n: Counts,
    ecall: bool,
    caller: bool,
    confpart: bool,
    call: Call,
    trace: seq<Mark>)

  function Alloc(): Conf {
    Conf(Idle, Timers(false, false), Counts(0, 0, 0, 0, false), false, false, false, NO_CALL, [])
  }

  // ---------------------------------------------------------------------------------------
  // set_state
  // ---------------------------------------------------------------------------------------

  function TimersIn(t: Timers, s: State): Timers {
    match s
    case Idle => Timers(false, false)
    case Incoming => t.(keepalive := false)
    case WaitConfig => Timers(true, false)
    case WaitConfigOutgoing => Timers(true, false)
    case ConnSent => Timers(true, false)
    case Connected => t.(connect := false)
    case Active => Timers(false, true)
    case Terminating => Timers(false, false)
    case _ => t
  }

  function SetState(c: Conf, s: State): Conf {
    c.(state := s,
       tmr := TimersIn(c.tmr, s),
       n := if s.Active? then c.n.(expected := 0) else c.n,
       confpart := c.confpart && (s.SetupRecv? || s.Connecting? || s.Connected? || s.Active? || s.Terminating?
                                  || s.WaitNetwork? || s.None?),
       call := if s.Idle? then c.call.(ts := 0) else c.call,
       trace := if s.ConnSent? then c.trace + [Entered] else c.trace)
  }

  // ---------------------------------------------------------------------------------------
  // Ending and reconnecting
  // ---------------------------------------------------------------------------------------

  /** ccall_end_with_err; econn tells whether the call to the SFT has a connection to end. */
  function EndWithErr(c: Conf, econn: bool): Conf {
    var c1 := match c.state
      case Terminating => c
      case SetupRecv => SetState(c, Terminating)
      case Connecting => SetState(c, Terminating)
      case Connected => SetState(c, Terminating)
      case Active => SetState(c, Terminating)
      case _ => SetState(c, Idle);
    if c.ecall && econn then c1 else SetState(c1, Idle)
  }

  /** A CONFCONN that went out. */
  function SendConn(c: Conf, failed: bool): Conf {
    if failed then c else c.(trace := c.trace + [ConfConn])
  }

  /** ccall_reconnect; known tells whether an SFT URL is set, and failed whether the CONFCONN to it fails. */
  function Reconnect(c: Conf, notify: bool, known: bool, failed: bool, econn: bool): Conf {
    if c.state.ConnSent? then c
    else if c.n.attempts >= MAX_RECONNECT_ATTEMPTS then EndWithErr(c, econn)
    else
      var n := c.n.(attempts := c.n.attempts + 1, expected := 0,
                    pending := c.n.pending || notify, tried := c.n.tried + if notify then 1 else 0);
      SendConn(SetState(c.(n := n), ConnSent), failed || !known)
  }

  /** ecall_ping_handler */
  function Ping(c: Conf): Conf {
    c.(n := c.n.(attempts := 0, expected := 0, done := c.n.done + (if c.n.pending then 1 else 0), pending := false))
  }

  /** ccall_keepalive_timeout; the timer has run out. */
  function Keepalive(c: Conf, known: bool, failed: bool, econn: bool): Conf {
    var c0 := c.(tmr := c.tmr.(keepalive := false));
    if !c.state.Active? || !c.ecall then c0
    else
      var c1 := c0.(n := c.n.(expected := c.n.expected + 1));
      if c1.n.expected > MAX_MISSING_PINGS then Reconnect(c1, true, known, failed, econn)
      else c1.(tmr := c1.tmr.(keepalive := true))
  }

  /** ccall_decrypt_check_timeout, as far as it reconnects. */
  function DecryptCheck(c: Conf, known: bool, failed: bool, econn: bool): Conf {
    if c.state.Active? && !c.confpart then Reconnect(c, true, known, failed, econn) else c
  }

  // ---------------------------------------------------------------------------------------
  // Joining
  // ---------------------------------------------------------------------------------------

  /** ccall_req_cfg_join once memory was had. */
  function Join(c: Conf, outgoing: bool): Conf {
    SetState(c, if outgoing then WaitConfigOutgoing else WaitConfig)
  }

  /** An SFT the configuration may allow, and whether sending it a CONFCONN fails. */
  datatype Sft = Sft(allowed: bool, failed: bool)

  /** Trying the listed SFTs until three were reached: how many were, and whether the last send failed. */
  function TryList(sfts: seq<Sft>, reached: nat, lastFailed: bool): (r: (nat, bool))
    requires reached <= MAX_SFTS
    ensures reached <= r.0 <= MAX_SFTS
    decreases |sfts|
  {
    if |sfts| == 0 || reached == MAX_SFTS then (reached, lastFailed)
    else if !sfts[0].allowed then TryList(sfts[1..], reached, lastFailed)
    else TryList(sfts[1..], if sfts[0].failed then reached else reached + 1, sfts[0].failed)
  }

  /** Trying each of at most three configured SFTs. */
  function TryEach(sfts: seq<Sft>, reached: nat, lastFailed: bool): (r: (nat, bool))
    requires reached + |sfts| <= MAX_SFTS
    ensures reached <= r.0 <= reached + |sfts|
    decreases |sfts|
  {
    if |sfts| == 0 then (reached, lastFailed)
    else TryEach(sfts[1..], if sfts[0].failed then reached else reached + 1, sfts[0].failed)
  }

  function ConfConns(k: nat): seq<Mark> {
    seq(k, _ => ConfConn)
  }

  /** A configuration that arrives: is it the one waited for, which SFTs it names, the call's own list and primary. */
  datatype Config = Config(
    current: bool,
    urls: seq<Sft>,
    list: seq<Sft>,
    primary: seq<Sft>,                  // empty when no primary SFT is known, else that one
    federating: bool,
    retry: bool)

  /** The end of config_update_handler. */
  function Settle(c: Conf, reached: nat, failed: bool): Conf {
    var c1 := c.(trace := c.trace + ConfConns(reached));
    if failed then c1 else SetState(c1, ConnSent)
  }

  /** The last part of config_update_handler: the configured SFTs. */
  function UseUrls(c: Conf, urls: seq<Sft>, lastFailed: bool): Conf {
    var r := TryEach(FirstThree(urls), 0, lastFailed);
    Settle(c, r.0, r.1)
  }

  function FirstThree(urls: seq<Sft>): (r: seq<Sft>)
    ensures r <= urls && |r| <= MAX_SFTS
  {
    if |urls| < MAX_SFTS then urls else urls[..MAX_SFTS]
  }

  /** When none of the call's own SFTs was tried or reached. */
  function NoneReached(c: Conf, g: Config, failed: bool, econn: bool): Conf {
    if g.federating then UseUrls(c, g.urls, failed)
    else if g.retry then Settle(EndWithErr(c, econn), 0, true)
    else Settle(Join(c, false), 0, true)
  }

  /** config_update_handler */
  function ConfigUpdate(c: Conf, g: Config, econn: bool): Conf {
    if !g.current then c
    else if |g.urls| == 0 then Settle(EndWithErr(c, econn), 0, false)
    else if c.state.WaitConfigOutgoing? then UseUrls(c, g.urls, false)
    else if !c.state.WaitConfig? then Settle(c, 0, false)
    else if |g.list| > 0 then
      var r := TryList(g.list, 0, false);
      if r.0 > 0 then Settle(c, r.0, r.1) else NoneReached(c, g, r.1, econn)
    else if |g.primary| > 0 && g.primary[0].allowed then
      Settle(c, if g.primary[0].failed then 0 else 1, g.primary[0].failed)
    else NoneReached(c, g, false, econn)
  }

  // ---------------------------------------------------------------------------------------
  // Messages
  // ---------------------------------------------------------------------------------------

  /** ccall_handle_confstart_check */
  function ConfStart(c: Conf, m: Msg): Conf {
    if !Valid(m) then c
    else
      var cmp := TsCmp(c.call, m.call);
      var c1 := c.(call := Handle(c.call, m), caller := c.caller && cmp <= 0);
      match c.state
      case None => c1
      case Terminating => c1
      case Idle => SetState(c1, Incoming)
      case Incoming => c1
      case _ => if cmp > 0 then Join(c1.(ecall := false), false) else c1
  }

  /**
   ecall_confpart_handler: the SFT's list of participants, which tells a caller that it starts the call, and when
   the SFT made the call. A caller that is alone and has no call yet starts it in any case.
   */
  function TakeConfPart(c: Conf, start: bool, alone: bool, ts: nat, seqno: nat): Conf {
    var unset := c.call.ts == 0 && c.call.seqno == 0;
    var starts := (start || (unset && alone)) && c.caller;
    c.(confpart := true, call := if starts || unset then c.call.(ts := ts, seqno := seqno) else c.call)
  }

  /** What an SFT sends, as ccall_sft_msg_recv tells it apart; a SETUP may name its SFT. */
  datatype SftMsg = NetworkError | Nothing | OtherSession | ConfConnReply | Setup(url: string) | Update | Other

  function SftRecv(c: Conf, m: SftMsg, econn: bool): Conf {
    match m
    case NetworkError => EndWithErr(c, econn)
    case Nothing => if c.state.ConnSent? then SetState(c, WaitNetwork) else c
    case OtherSession => c
    case ConfConnReply => c
    case Setup(url) => Forward(Named(c, url))
    case Update => Forward(c)
    case Other => c.(ecall := true)
  }

  /** The first SETUP taken names the primary SFT of a call that has none. */
  function Named(c: Conf, url: string): Conf {
    if c.state.ConnSent? && |url| > 0 && |c.call.url| == 0 then c.(call := c.call.(url := Slashed(url))) else c
  }

  /** A SETUP or UPDATE is handed on only from CONNSENT. */
  function Forward(c: Conf): Conf {
    if !c.state.ConnSent? then c
    else
      var c1 := SetState(c, SetupRecv);
      c1.(ecall := true, trace := c1.trace + [Forwarded])
  }

  /** Why the call to the SFT closed, in ecall_close_handler. */
  datatype CloseCause = Again(notify: bool) | Ended(shouldEnd: bool, duration: bool)

  function EcallClose(c: Conf, cause: CloseCause, known: bool, failed: bool, econn: bool): Conf {
    match cause
    case Again(notify) =>
      Reconnect(c.(n := c.n.(attempts := 0, expected := 0)), notify, known, failed, econn)
    case Ended(shouldEnd, duration) =>
      var c1 := if shouldEnd then SetState(c, Idle) else if duration then c else SetState(c, Incoming);
      c1.(ecall := false)
  }

  datatype Event =
    | Start                                                 // ccall_start
    | Answer                                                // ccall_answer
    | Heard(m: Msg)                                         // CONFSTART or CONFCHECK
    | ConfEnd(mine: bool)                                   // CONFEND
    | Configured(g: Config, econn: bool)
    | FromSft(s: SftMsg, econn: bool)
    | Answered                                              // a SETUP or UPDATE went out to the SFT
    | DataChan                                              // ecall_datachan_estab_handler
    | Media(mine: bool)                                     // ecall_media_estab_handler
    | ConfPart(start: bool, alone: bool, ts: nat, seqno: nat)
    | Pinged
    | KeepaliveFires(known: bool, failed: bool, econn: bool)
    | DecryptFires(known: bool, failed: bool, econn: bool)
    | ConnectFires(econn: bool)                             // ccall_connect_timeout
    | OngoingFires                                          // ccall_ongoing_call_timeout
    | RejectFires                                           // ccall_sft_reject_timeout
    | AloneFires(econn: bool)                               // ccall_alone_timeout
    | DurationFires                                         // durterm_timeout_handler
    | Closed(cause: CloseCause, known: bool, failed: bool, econn: bool)
    | Fail(econn: bool)                                     // ccall_end_with_err from elsewhere

  /** ccall_connect_timeout; the timer has run out. */
  function ConnectTimeout(c: Conf, econn: bool): Conf {
    var c0 := c.(tmr := c.tmr.(connect := false));
    if c.state.Active? then c0 else EndWithErr(c0, econn)
  }

  /** A timer's handler only runs when the timer was set. */
  predicate Possible(c: Conf, e: Event) {
    match e
    case KeepaliveFires(_, _, _) => c.tmr.keepalive
    case ConnectFires(_) => c.tmr.connect
    case _ => true
  }

  function Step(c: Conf, e: Event): Conf {
    match e
    case Start =>
      if c.state.Idle? then Join(c.(caller := true), true)
      else if c.state.Incoming? then Join(c.(caller := false), false)
      else c
    case Answer => if c.state.Idle? || c.state.Incoming? then Join(c.(caller := false), false) else c
    case Heard(m) => ConfStart(c, m)
    case ConfEnd(mine) => if c.state.Incoming? && mine then SetState(c, Idle) else c
    case Configured(g, econn) => ConfigUpdate(c, g, econn)
    case FromSft(s, econn) => SftRecv(c, s, econn)
    case Answered => if c.state.Active? then c else SetState(c, Connecting)
    case DataChan => if c.state.Connecting? then SetState(c, Connected) else c
    case Media(mine) => if mine && !c.state.ConnSent? then SetState(c, Active) else c
    case ConfPart(start, alone, ts, seqno) => TakeConfPart(c, start, alone, ts, seqno)
    case Pinged => Ping(c)
    case KeepaliveFires(known, failed, econn) => Keepalive(c, known, failed, econn)
    case DecryptFires(known, failed, econn) => DecryptCheck(c, known, failed, econn)
    case ConnectFires(econn) => ConnectTimeout(c, econn)
    case OngoingFires => if c.state.Incoming? then SetState(c, Idle) else c
    case RejectFires => if c.state.ConnSent? then SetState(c, Idle) else c
    case AloneFires(econn) => if c.state.Active? && c.ecall then EndWithErr(c, econn) else c
    case DurationFires => SetState(c, Idle)
    case Closed(cause, known, failed, econn) => EcallClose(c, cause, known, failed, econn)
    case Fail(econn) => EndWithErr(c, econn)
  }

  function Run(c: Conf, es: seq<Event>): Conf
    decreases |es|
  {
    if |es| == 0 then c else Run(Step(c, es[0]), es[1..])
  }

  /** Timers only fire while they run. */
  predicate PossibleRun(c: Conf, es: seq<Event>)
    decreases |es|
  {
    |es| == 0 || (Possible(c, es[0]) && PossibleRun(Step(c, es[0]), es[1..]))
  }
}
