/**
 One encrypted connection (src/econn/econn.c) as a value and the step each entry point takes.

 A connection is the record of struct econn that the state machine reads or writes, together
 with the messages it handed to the transport (`outbox`) and the callbacks it made (`upcalls`).
 The transport either takes a message or fails with the error code given as `sendErr`; it does
 not call back into the connection. Every entry point sends at most one message.
 */
module Econn {
  import opened Ids

  datatype State =
    | Idle
    | PendingOutgoing
    | PendingIncoming
    | ConflictResolution
    | Answered
    | DataChanEstablished
    | HangupSent
    | HangupRecv
    | UpdateSent
    | UpdateRecv
    | Terminating

  datatype Dir = DirUnknown | DirOutgoing | DirIncoming

  /** The handler the single local timer runs when it fires. */
  datatype Handler = LocalTimeout | TermTimeout | CancelTimeout

  datatype Timer = Off | On(ms: nat, handler: Handler)

  /** The kinds of message that move the state machine; the other kinds are `Other`. */
  datatype Kind = Setup | Update | Cancel | Hangup | Other

  datatype Msg = Msg(kind: Kind, resp: bool, sessid: string)

  datatype Upcall =
    | ConnUp(reset: bool)
    | AnswerUp(reset: bool)
    | UpdateReqUp(reset: bool)
    | UpdateRespUp
    | CloseUp(err: int)

  datatype Conf = Conf(timeoutSetup: nat, timeoutTerm: nat)

  /** Who the local side is; fixed when the connection is allocated. */
  datatype Self = Self(conf: Conf, user: string, client: string, sess: string)

  /** What is known of the remote side; empty strings until the first SETUP. */
  datatype Remote = Remote(user: string, client: string, sess: string)

  datatype Conn = Conn(
    self: Self,
    remote: Remote,
    state: State,
    dir: Dir,
    timer: Timer,
    conflict: int,
    setupErr: int,
    err: int,
    closeArmed: bool,
    outbox: seq<Msg>,
    upcalls: seq<Upcall>)

  const EPROTO := 71
  const ECANCELED := 125
  const ETIMEDOUT_ECONN := -1000

  /** What econn_alloc hands out: an idle connection with the setup timer running. */
  function Alloc(conf: Conf, user: string, client: string, sess: string): Conn {
    Conn(Self(conf, user, client, Stored(sess)), Remote("", "", ""), Idle, DirUnknown,
         On(conf.timeoutSetup, LocalTimeout), 0, 0, 0, true, [], [])
  }

  function Post(c: Conn, kind: Kind, resp: bool, sendErr: int): Conn {
    if sendErr == 0 then c.(outbox := c.outbox + [Msg(kind, resp, c.self.sess)]) else c
  }

  /** econn_send_setup: a SETUP or UPDATE that the transport refuses ends the connection. */
  function SendSetup(c: Conn, resp: bool, update: bool, sendErr: int): Conn {
    if sendErr == 0 then Post(c, if update then Update else Setup, resp, 0)
    else c.(setupErr := sendErr, state := Terminating)
  }

  /** econn_close */
  function Close(c: Conn, err: int, sendErr: int): Conn {
    var c1 := c.(timer := Off, setupErr := err);
    var c2 := if c.state.PendingOutgoing? then Post(c1, Cancel, false, sendErr) else c1;
    var c3 := c2.(state := Terminating);
    if c.closeArmed then c3.(closeArmed := false, upcalls := c3.upcalls + [CloseUp(err)]) else c3
  }

  function StartSetupTimer(c: Conn): Conn {
    c.(timer := On(c.self.conf.timeoutSetup, LocalTimeout))
  }

  /** ecall_start marks a connection it just allocated as outgoing, before its SETUP is ready. */
  function MarkOutgoing(c: Conn): Conn {
    if c.state.Idle? then c.(state := PendingOutgoing) else c
  }

  /** econn_start */
  function Start(c: Conn, sendErr: int): (Conn, int) {
    if !c.state.Idle? && !c.state.PendingOutgoing? then (c, EPROTO)
    else
      var c1 := SendSetup(c.(state := PendingOutgoing, dir := DirOutgoing), false, false, sendErr);
      if sendErr != 0 then (c1, sendErr)
      else if c.self.conf.timeoutSetup == 0 then (c1, EPROTO)
      else (StartSetupTimer(c1), 0)
  }

  /** econn_answer */
  function Answer(c: Conn, sendErr: int): (Conn, int) {
    if !c.state.PendingIncoming? && !c.state.ConflictResolution? then (c, EPROTO)
    else
      var c1 := SendSetup(c.(timer := Off), true, false, sendErr);
      if sendErr != 0 then (c1, sendErr) else (c1.(state := Answered), 0)
  }

  predicate Established(s: State) {
    s.Answered? || s.DataChanEstablished?
  }

  /** econn_update_req */
  function UpdateReq(c: Conn, sendErr: int): (Conn, int) {
    if !Established(c.state) && !c.state.UpdateSent? && !c.state.UpdateRecv? then (c, EPROTO)
    else
      var c1 := SendSetup(c.(state := UpdateSent), false, true, sendErr);
      if sendErr != 0 then (c1.(timer := On(1, LocalTimeout)), sendErr)
      else if c.self.conf.timeoutSetup == 0 then (c1, EPROTO)
      else (StartSetupTimer(c1), 0)
  }

  /** econn_update_resp */
  function UpdateResp(c: Conn, sendErr: int): (Conn, int) {
    if !c.state.UpdateRecv? then (c, EPROTO)
    else
      var c1 := SendSetup(c.(timer := Off), true, true, sendErr);
      if sendErr != 0 then (c1, sendErr) else (c1.(state := Answered), 0)
  }

  /** econn_end */
  function End(c: Conn, sendErr: int): Conn {
    match c.state
    case UpdateRecv | PendingIncoming =>
      c.(state := Terminating, timer := On(1, CancelTimeout))
    case UpdateSent | PendingOutgoing | Answered | ConflictResolution =>
      Post(c, Cancel, false, sendErr).(state := Terminating, timer := On(1, CancelTimeout))
    case DataChanEstablished =>
      if sendErr != 0 then c.(err := sendErr, timer := On(1, TermTimeout))
      else Post(c, Hangup, false, 0).(state := HangupSent, timer := On(c.self.conf.timeoutTerm, TermTimeout))
    case Terminating | Idle => c
    case HangupSent | HangupRecv =>
      c.(state := Terminating, timer := On(c.self.conf.timeoutTerm, TermTimeout))
  }

  /** econn_set_datachan_established */
  function DataChan(c: Conn): Conn {
    if c.state.Answered? then c.(state := DataChanEstablished) else c
  }

  /** handle_setup_request; `won` is the verdict of econn_iswinner against the sender. */
  function HandleSetupRequest(c: Conn, won: bool, m: Msg): Conn {
    match c.state
    case PendingOutgoing =>
      var c1 := c.(remote := c.remote.(sess := Stored(m.sessid)));
      if won then c1.(conflict := 1)
      else c1.(conflict := -1, state := ConflictResolution, upcalls := c.upcalls + [AnswerUp(true)])
    case Idle | Answered | DataChanEstablished | UpdateSent =>
      StartSetupTimer(c.(state := PendingIncoming, dir := DirIncoming, remote := c.remote.(sess := Stored(m.sessid)),
                         upcalls := c.upcalls + [ConnUp(!c.state.Idle?)]))
    case _ => c
  }

  /** handle_setup_response */
  function HandleSetupResponse(c: Conn, m: Msg): Conn {
    if c.state.PendingOutgoing? || c.state.ConflictResolution? then
      c.(timer := Off, state := Answered, remote := c.remote.(sess := Stored(m.sessid)),
         upcalls := c.upcalls + [AnswerUp(false)])
    else c
  }

  /** recv_setup: the first SETUP fixes the remote user and the remote client; later ones must come from them. */
  function RecvSetup(c: Conn, user: string, client: string, m: Msg): Conn {
    if c.remote.user != "" && !SameId(c.remote.user, user) then c
    else
      var c1 := if c.remote.user == "" then c.(remote := c.remote.(user := Stored(user))) else c;
      if c.remote.client != "" && !SameId(c.remote.client, client) then c1
      else
        var c2 := if c.remote.client == "" then c1.(remote := c1.remote.(client := Stored(client))) else c1;
        if m.resp then HandleSetupResponse(c2, m)
        else HandleSetupRequest(c2, IsWinner(c.self.user, c.self.client, user, client), m)
  }

  /** handle_update_request */
  function HandleUpdateRequest(c: Conn, won: bool, client: string): Conn {
    if !SameId(c.remote.client, client) then c
    else match c.state
      case Answered | DataChanEstablished =>
        StartSetupTimer(c.(state := UpdateRecv, upcalls := c.upcalls + [UpdateReqUp(false)]))
      case UpdateSent =>
        if won then c
        else StartSetupTimer(c.(state := UpdateRecv, upcalls := c.upcalls + [UpdateReqUp(true)]))
      case _ => c
  }

  /** handle_update_response */
  function HandleUpdateResponse(c: Conn, client: string): Conn {
    if SameId(c.remote.client, client) && c.state.UpdateSent?
    then c.(timer := Off, state := Answered, upcalls := c.upcalls + [UpdateRespUp])
    else c
  }

  /** recv_update */
  function RecvUpdate(c: Conn, user: string, client: string, m: Msg): Conn {
    if !SameId(c.remote.sess, m.sessid) then c
    else if m.resp then HandleUpdateResponse(c, client)
    else HandleUpdateRequest(c, IsWinner(c.self.user, c.self.client, user, client), client)
  }

  /** recv_cancel */
  function RecvCancel(c: Conn, client: string, m: Msg, sendErr: int): Conn {
    if !SameId(client, c.remote.client) then c
    else if !c.state.PendingIncoming? && !c.state.UpdateSent? && !c.state.UpdateRecv? && !Established(c.state) then c
    else if !SameId(c.remote.sess, m.sessid) then c
    else
      var dflt := if c.state.PendingIncoming? then ECANCELED else 0;
      Close(c.(state := Terminating), if c.err != 0 then c.err else dflt, sendErr)
  }

  /** recv_hangup */
  function RecvHangup(c: Conn, m: Msg, sendErr: int): Conn {
    if !SameId(c.remote.sess, m.sessid) then c
    else if !c.state.DataChanEstablished? && !c.state.HangupSent? then c
    else
      var c1 := c.(state := HangupRecv);
      var c2 := if !m.resp then Post(c1, Hangup, true, sendErr) else c1;
      Close(c2.(state := Terminating), c.err, sendErr)
  }

  /** econn_recv_message */
  function Recv(c: Conn, user: string, client: string, m: Msg, sendErr: int): Conn {
    match m.kind
    case Setup => RecvSetup(c, user, client, m)
    case Update => RecvUpdate(c, user, client, m)
    case Cancel => RecvCancel(c, client, m, sendErr)
    case Hangup => RecvHangup(c, m, sendErr)
    case Other => c
  }

  /** The local timer expires (tmr_local_handler, tmr_term_handler, tmr_cancel_handler). */
  function Fire(c: Conn, sendErr: int): Conn {
    match c.timer
    case Off => c
    case On(_, LocalTimeout) =>
      Close(c.(timer := Off), if c.err != 0 then c.err else ETIMEDOUT_ECONN, sendErr)
    case On(_, _) => Close(c.(timer := Off), c.err, sendErr)
  }

  datatype Event =
    | PresetEvent
    | StartEvent
    | AnswerEvent
    | UpdateReqEvent
    | UpdateRespEvent
    | EndEvent
    | CloseEvent(err: int)
    | DataChanEvent
    | SetErrorEvent(err: int)
    | RecvEvent(user: string, client: string, msg: Msg)
    | FireEvent

  /** An event and the verdict of the transport on whatever the event sends. */
  datatype Input = Input(event: Event, sendErr: int)

  function Step(c: Conn, i: Input): Conn {
    match i.event
    case PresetEvent => MarkOutgoing(c)
    case StartEvent => Start(c, i.sendErr).0
    case AnswerEvent => Answer(c, i.sendErr).0
    case UpdateReqEvent => UpdateReq(c, i.sendErr).0
    case UpdateRespEvent => UpdateResp(c, i.sendErr).0
    case EndEvent => End(c, i.sendErr)
    case CloseEvent(err) => Close(c, err, i.sendErr)
    case DataChanEvent => DataChan(c)
    case SetErrorEvent(err) => c.(err := err)
    case RecvEvent(user, client, msg) => Recv(c, user, client, msg, i.sendErr)
    case FireEvent => Fire(c, i.sendErr)
  }

  function Run(c: Conn, inputs: seq<Input>): Conn
    decreases |inputs|
  {
    if inputs == [] then c else Run(Step(c, inputs[0]), inputs[1..])
  }
}
