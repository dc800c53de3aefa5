/**
 struct econn as an object: every entry point of src/econn/econn.c assigns the fields in place. Its history is kept
 beside it, and every entry point leaves it where that history leads: with at most one farewell and one reported
 close, silent once it terminates, and guarded by its timer exactly while it waits.
 */
module EconnObject {
  import opened Econn
  import opened EconnLifetime
  import opened Ids

  class Connection {
    const self: Self
    ghost const sess: string
    var state: State
    var dir: Dir
    var timer: Timer
    var remote: Remote
    var conflict: int
    var setupErr: int
    var err: int
    var closeArmed: bool
    var outbox: seq<Msg>
    var upcalls: seq<Upcall>
    ghost var inputs: seq<Input>

    function Value(): Conn
      reads this
    {
      Conn(self, remote, state, dir, timer, conflict, setupErr, err, closeArmed, outbox, upcalls)
    }

    /** The connection as it was allocated. */
    ghost function Born(): Conn {
      Alloc(self.conf, self.user, self.client, sess)
    }

    /** The connection is where its history leads, and what holds over all runs holds of it. */
    ghost predicate Valid()
      reads this
    {
      Value() == Run(Born(), inputs) && Promised(Value(), inputs)
    }

    /** The entry point did what the input does, the history has it, and a terminating connection stayed silent. */
    twostate predicate Took(i: Input)
      reads this
    {
      && inputs == old(inputs) + [i] && Value() == Step(old(Value()), i)
      && (old(state).Terminating? ==> state.Terminating? && outbox == old(outbox))
    }

    constructor (conf: Conf, user: string, client: string, sess: string)
      ensures Valid() && Value() == Alloc(conf, user, client, sess) && inputs == []
    {
      self := Self(conf, user, client, Stored(sess));
      this.sess := sess;
      state, dir := Idle, DirUnknown;
      remote := Remote("", "", "");
      conflict, setupErr, err := 0, 0, 0;
      closeArmed := true;
      outbox, upcalls := [], [];
      timer := On(conf.timeoutSetup, LocalTimeout);
      inputs := [];
      new;
      RunKeepsPromises(conf, user, client, sess, []);
    }

    /** Where an input leads. */
    lemma Foreseen(i: Input)
      requires Valid()
      ensures Step(Value(), i) == Run(Born(), inputs + [i]) && Promised(Step(Value(), i), inputs + [i])
      ensures state.Terminating? ==> Step(Value(), i).state.Terminating? && Step(Value(), i).outbox == outbox
    {
      RunNext(Born(), inputs, i);
      RunKeepsPromises(self.conf, self.user, self.client, sess, inputs + [i]);
      StepIsOrderly(Value(), i);
    }

    // -------------------------------------------------------------------------------------
    // Steps the entry points share
    // -------------------------------------------------------------------------------------

    method TranspSend(kind: Kind, resp: bool, sendErr: int) returns (r: int)
      modifies `outbox
      ensures Value() == Post(old(Value()), kind, resp, sendErr) && r == sendErr
    {
      if sendErr == 0 {
        outbox := outbox + [Msg(kind, resp, self.sess)];
      }
      return sendErr;
    }

    method SendSetupMsg(resp: bool, update: bool, sendErr: int) returns (r: int)
      modifies this
      ensures Value() == SendSetup(old(Value()), resp, update, sendErr) && r == sendErr
      ensures inputs == old(inputs)
    {
      r := TranspSend(if update then Update else Setup, resp, sendErr);
      if r != 0 {
        setupErr := r;
        state := Terminating;
      }
    }

    method CloseConn(e: int, sendErr: int)
      modifies this
      ensures Value() == Close(old(Value()), e, sendErr)
      ensures inputs == old(inputs)
    {
      var armed := closeArmed;
      timer := Off;
      setupErr := e;
      if state == PendingOutgoing {
        var _ := TranspSend(Cancel, false, sendErr);
      }
      state := Terminating;
      if armed {
        closeArmed := false;
        upcalls := upcalls + [CloseUp(e)];
      }
    }

    method TerminateIn(ms: nat, handler: Handler)
      modifies `state, `timer
      ensures Value() == old(Value()).(state := Terminating, timer := On(ms, handler))
    {
      state := Terminating;
      timer := On(ms, handler);
    }

    /** econn_end of an established call. */
    method HangUp(sendErr: int)
      requires state.DataChanEstablished?
      modifies `outbox, `err, `state, `timer
      ensures Value() == End(old(Value()), sendErr)
    {
      var r := TranspSend(Hangup, false, sendErr);
      if r != 0 {
        err := r;
        timer := On(1, TermTimeout);
      } else {
        state := HangupSent;
        timer := On(self.conf.timeoutTerm, TermTimeout);
      }
    }

    method OnSetupRequest(user: string, client: string, m: Msg)
      modifies this
      ensures Value() == HandleSetupRequest(old(Value()), IsWinner(self.user, self.client, user, client), m)
      ensures inputs == old(inputs)
    {
      var reset := false;
      match state {
        case Idle =>
        case Answered | DataChanEstablished | UpdateSent =>
          reset := true;
        case PendingOutgoing =>
          var won := IsWinner(self.user, self.client, user, client);
          remote := remote.(sess := Stored(m.sessid));
          if won {
            conflict := 1;
          } else {
            conflict := -1;
            state := ConflictResolution;
            upcalls := upcalls + [AnswerUp(true)];
          }
          return;
        case _ =>
          return;
      }
      state := PendingIncoming;
      dir := DirIncoming;
      remote := remote.(sess := Stored(m.sessid));
      timer := On(self.conf.timeoutSetup, LocalTimeout);
      upcalls := upcalls + [ConnUp(reset)];
    }

    method OnSetupResponse(m: Msg)
      modifies this
      ensures Value() == HandleSetupResponse(old(Value()), m)
      ensures inputs == old(inputs)
    {
      if state != PendingOutgoing && state != ConflictResolution {
        return;
      }
      timer := Off;
      state := Answered;
      remote := remote.(sess := Stored(m.sessid));
      upcalls := upcalls + [AnswerUp(false)];
    }

    method OnSetup(user: string, client: string, m: Msg)
      modifies this
      ensures Value() == RecvSetup(old(Value()), user, client, m)
      ensures inputs == old(inputs)
    {
      if remote.user != "" {
        if !SameId(remote.user, user) {
          return;
        }
      } else {
        remote := remote.(user := Stored(user));
      }
      if remote.client != "" {
        if !SameId(remote.client, client) {
          return;
        }
      } else {
        remote := remote.(client := Stored(client));
      }
      if !m.resp {
        OnSetupRequest(user, client, m);
      } else {
        OnSetupResponse(m);
      }
    }

    method OnUpdateRequest(user: string, client: string)
      modifies this
      ensures Value() == HandleUpdateRequest(old(Value()), IsWinner(self.user, self.client, user, client), client)
      ensures inputs == old(inputs)
    {
      if !SameId(remote.client, client) {
        return;
      }
      var reset := false;
      match state {
        case Answered | DataChanEstablished =>
          state := UpdateRecv;
        case UpdateSent =>
          if IsWinner(self.user, self.client, user, client) {
            return;
          }
          state := UpdateRecv;
          reset := true;
        case _ =>
          return;
      }
      timer := On(self.conf.timeoutSetup, LocalTimeout);
      upcalls := upcalls + [UpdateReqUp(reset)];
    }

    method OnUpdateResponse(client: string)
      modifies this
      ensures Value() == HandleUpdateResponse(old(Value()), client)
      ensures inputs == old(inputs)
    {
      if !SameId(remote.client, client) || state != UpdateSent {
        return;
      }
      timer := Off;
      state := Answered;
      upcalls := upcalls + [UpdateRespUp];
    }

    method OnUpdate(user: string, client: string, m: Msg)
      modifies this
      ensures Value() == RecvUpdate(old(Value()), user, client, m)
      ensures inputs == old(inputs)
    {
      if !SameId(remote.sess, m.sessid) {
        return;
      }
      if !m.resp {
        OnUpdateRequest(user, client);
      } else {
        OnUpdateResponse(client);
      }
    }

    method OnCancel(client: string, m: Msg, sendErr: int)
      modifies this
      ensures Value() == RecvCancel(old(Value()), client, m, sendErr)
      ensures inputs == old(inputs)
    {
      if !SameId(client, remote.client) {
        return;
      }
      var e := 0;
      if state == PendingIncoming {
        e := ECANCELED;
      } else if state == UpdateSent || state == UpdateRecv || state == Answered || state == DataChanEstablished {
        e := 0;
      } else {
        return;
      }
      if !SameId(remote.sess, m.sessid) {
        return;
      }
      state := Terminating;
      CloseConn(if err != 0 then err else e, sendErr);
    }

    method OnHangup(m: Msg, sendErr: int)
      modifies this
      ensures Value() == RecvHangup(old(Value()), m, sendErr)
      ensures inputs == old(inputs)
    {
      if !SameId(remote.sess, m.sessid) {
        return;
      }
      if state != DataChanEstablished && state != HangupSent {
        return;
      }
      state := HangupRecv;
      if !m.resp {
        var _ := TranspSend(Hangup, true, sendErr);
      }
      state := Terminating;
      CloseConn(err, sendErr);
    }

    // -------------------------------------------------------------------------------------
    // Entry points
    // -------------------------------------------------------------------------------------

    method SetStateOutgoing()
      requires Valid()
      modifies this
      ensures Valid() && Took(Input(PresetEvent, 0))
    {
      Foreseen(Input(PresetEvent, 0));
      inputs := inputs + [Input(PresetEvent, 0)];
      if state == Idle {
        state := PendingOutgoing;
      }
    }

    method StartCall(sendErr: int) returns (r: int)
      requires Valid()
      modifies this
      ensures Valid() && Took(Input(StartEvent, sendErr))
      ensures r == Start(old(Value()), sendErr).1
    {
      Foreseen(Input(StartEvent, sendErr));
      inputs := inputs + [Input(StartEvent, sendErr)];
      if state != Idle && state != PendingOutgoing {
        return EPROTO;
      }
      state := PendingOutgoing;
      dir := DirOutgoing;
      r := SendSetupMsg(false, false, sendErr);
      if r != 0 {
        return r;
      }
      if self.conf.timeoutSetup == 0 {
        return EPROTO;
      }
      timer := On(self.conf.timeoutSetup, LocalTimeout);
    }

    method AnswerCall(sendErr: int) returns (r: int)
      requires Valid()
      modifies this
      ensures Valid() && Took(Input(AnswerEvent, sendErr))
      ensures r == Answer(old(Value()), sendErr).1
    {
      Foreseen(Input(AnswerEvent, sendErr));
      inputs := inputs + [Input(AnswerEvent, sendErr)];
      if state != PendingIncoming && state != ConflictResolution {
        return EPROTO;
      }
      timer := Off;
      r := SendSetupMsg(true, false, sendErr);
      if r != 0 {
        return r;
      }
      state := Answered;
    }

    method SendUpdateRequest(sendErr: int) returns (r: int)
      modifies this
      ensures (Value(), r) == UpdateReq(old(Value()), sendErr)
      ensures inputs == old(inputs)
    {
      match state {
        case Answered | DataChanEstablished | UpdateSent | UpdateRecv =>
        case _ => return EPROTO;
      }
      state := UpdateSent;
      r := SendSetupMsg(false, true, sendErr);
      if r != 0 {
        timer := On(1, LocalTimeout);
        return r;
      }
      if self.conf.timeoutSetup == 0 {
        return EPROTO;
      }
      timer := On(self.conf.timeoutSetup, LocalTimeout);
    }

    method RequestUpdate(sendErr: int) returns (r: int)
      requires Valid()
      modifies this
      ensures Valid() && Took(Input(UpdateReqEvent, sendErr))
      ensures r == UpdateReq(old(Value()), sendErr).1
    {
      Foreseen(Input(UpdateReqEvent, sendErr));
      inputs := inputs + [Input(UpdateReqEvent, sendErr)];
      r := SendUpdateRequest(sendErr);
    }

    method RespondUpdate(sendErr: int) returns (r: int)
      requires Valid()
      modifies this
      ensures Valid() && Took(Input(UpdateRespEvent, sendErr))
      ensures r == UpdateResp(old(Value()), sendErr).1
    {
      Foreseen(Input(UpdateRespEvent, sendErr));
      inputs := inputs + [Input(UpdateRespEvent, sendErr)];
      if state != UpdateRecv {
        return EPROTO;
      }
      timer := Off;
      r := SendSetupMsg(true, true, sendErr);
      if r != 0 {
        return r;
      }
      state := Answered;
    }

    method EndCall(sendErr: int)
      requires Valid()
      modifies this
      ensures Valid() && Took(Input(EndEvent, sendErr))
    {
      Foreseen(Input(EndEvent, sendErr));
      inputs := inputs + [Input(EndEvent, sendErr)];
      match state {
        case UpdateRecv | PendingIncoming =>
          TerminateIn(1, CancelTimeout);
        case UpdateSent | PendingOutgoing | Answered | ConflictResolution =>
          var _ := TranspSend(Cancel, false, sendErr);
          TerminateIn(1, CancelTimeout);
        case DataChanEstablished =>
          HangUp(sendErr);
        case Terminating | Idle =>
        case _ =>
          TerminateIn(self.conf.timeoutTerm, TermTimeout);
      }
    }

    method SetDataChanEstablished()
      requires Valid()
      modifies this
      ensures Valid() && Took(Input(DataChanEvent, 0))
    {
      Foreseen(Input(DataChanEvent, 0));
      inputs := inputs + [Input(DataChanEvent, 0)];
      if state == Answered {
        state := DataChanEstablished;
      }
    }

    method RecvMessage(user: string, client: string, m: Msg, sendErr: int)
      requires Valid()
      modifies this
      ensures Valid() && Took(Input(RecvEvent(user, client, m), sendErr))
    {
      Foreseen(Input(RecvEvent(user, client, m), sendErr));
      inputs := inputs + [Input(RecvEvent(user, client, m), sendErr)];
      match m.kind {
        case Setup => OnSetup(user, client, m);
        case Update => OnUpdate(user, client, m);
        case Cancel => OnCancel(client, m, sendErr);
        case Hangup => OnHangup(m, sendErr);
        case Other =>
      }
    }

    method TimerExpired(sendErr: int)
      requires Valid()
      modifies this
      ensures Valid() && Took(Input(FireEvent, sendErr))
    {
      Foreseen(Input(FireEvent, sendErr));
      inputs := inputs + [Input(FireEvent, sendErr)];
      match timer {
        case Off =>
        case On(_, handler) =>
          timer := Off;
          if handler == LocalTimeout {
            CloseConn(if err != 0 then err else ETIMEDOUT_ECONN, sendErr);
          } else {
            CloseConn(err, sendErr);
          }
      }
    }

    method CloseCall(e: int, sendErr: int)
      requires Valid()
      modifies this
      ensures Valid() && Took(Input(CloseEvent(e), sendErr))
    {
      Foreseen(Input(CloseEvent(e), sendErr));
      inputs := inputs + [Input(CloseEvent(e), sendErr)];
      CloseConn(e, sendErr);
    }

    method SetError(e: int)
      requires Valid()
      modifies this
      ensures Valid() && Took(Input(SetErrorEvent(e), 0))
    {
      Foreseen(Input(SetErrorEvent(e), 0));
      inputs := inputs + [Input(SetErrorEvent(e), 0)];
      err := e;
    }
  }
}
