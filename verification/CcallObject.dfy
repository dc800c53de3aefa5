/**
 The conference call of src/ccall/ccall.c, updating its fields in place. Its history is kept beside it, and every
 handler leaves it where that history leads: guarded while it waits, with its counters bounded, and with one SETUP or
 UPDATE handed on per attempt.
 */
module CcallObject {
  import opened CallAgreement
  import opened Ccall
  import opened CcallLifetime

  lemma ConfConnsNext(k: nat)
    ensures ConfConns(k) + [ConfConn] == ConfConns(k + 1)
  {
  }

  lemma TraceNext(trace: seq<Mark>, k: nat)
    ensures trace + ConfConns(k) + [ConfConn] == trace + ConfConns(k + 1)
  {
    ConfConnsNext(k);
    assert trace + ConfConns(k) + [ConfConn] == trace + (ConfConns(k) + [ConfConn]);
  }

  lemma NothingSent(trace: seq<Mark>)
    ensures trace + ConfConns(0) == trace
  {
  }

  class Conference {
    var state: State
    var connectTimer: bool
    var keepaliveTimer: bool
    var n: Counts
    var ecall: bool
    var caller: bool
    var confpart: bool
    var call: Call
    ghost var trace: seq<Mark>
    ghost var events: seq<Event>

    ghost function Value(): Conf
      reads this
    {
      Conf(state, Timers(connectTimer, keepaliveTimer), n, ecall, caller, confpart, call, trace)
    }

    /** The conference is where its history leads, and what holds over all runs holds of it. */
    ghost predicate Valid()
      reads this
    {
      && PossibleRun(Alloc(), events) && Value() == Run(Alloc(), events)
      && Kept(Value()) && Fair(Value())
    }

    /** The handler did what the event does, and the history has it. */
    twostate predicate Took(e: Event)
      reads this
    {
      events == old(events) + [e] && Value() == Step(old(Value()), e)
    }

    constructor ()
      ensures Valid() && Value() == Alloc() && events == []
    {
      state := Idle;
      connectTimer, keepaliveTimer := false, false;
      n := Counts(0, 0, 0, 0, false);
      ecall, caller, confpart := false, false, false;
      call := NO_CALL;
      trace := [];
      events := [];
    }

    /** Where a possible event leads. */
    lemma Foreseen(e: Event)
      requires Valid() && Possible(Value(), e)
      ensures PossibleRun(Alloc(), events + [e]) && Step(Value(), e) == Run(Alloc(), events + [e])
      ensures Kept(Step(Value(), e)) && Fair(Step(Value(), e))
    {
      RunNext(Alloc(), events, e);
      StepKeeps(Value(), e);
      StepIsFair(Value(), e);
    }

    // -------------------------------------------------------------------------------------
    // Steps the handlers share
    // -------------------------------------------------------------------------------------

    method ChangeState(s: State)
      modifies this
      ensures Value() == SetState(old(Value()), s)
      ensures events == old(events)
    {
      state := s;
      match s
      case Idle =>
        call := call.(ts := 0);
        confpart, connectTimer, keepaliveTimer := false, false, false;
      case Incoming =>
        confpart, keepaliveTimer := false, false;
      case WaitConfig =>
        confpart, connectTimer, keepaliveTimer := false, true, false;
      case WaitConfigOutgoing =>
        confpart, connectTimer, keepaliveTimer := false, true, false;
      case ConnSent =>
        confpart, connectTimer, keepaliveTimer := false, true, false;
        trace := trace + [Entered];
      case Connected =>
        connectTimer := false;
      case Active =>
        n := n.(expected := 0);
        connectTimer, keepaliveTimer := false, true;
      case Terminating =>
        connectTimer, keepaliveTimer := false, false;
      case _ =>
    }

    method EndCall(econn: bool)
      modifies this
      ensures Value() == EndWithErr(old(Value()), econn)
      ensures events == old(events)
    {
      match state {
        case Terminating =>
        case SetupRecv => ChangeState(Terminating);
        case Connecting => ChangeState(Terminating);
        case Connected => ChangeState(Terminating);
        case Active => ChangeState(Terminating);
        case _ => ChangeState(Idle);
      }
      if !(ecall && econn) {
        ChangeState(Idle);
      }
    }

    /** ccall_send_conf_conn: what goes out is noted. */
    method SendConfConn(failed: bool)
      modifies this`trace
      ensures Value() == SendConn(old(Value()), failed)
    {
      if !failed {
        trace := trace + [ConfConn];
      }
    }

    method ReconnectCall(notify: bool, known: bool, failed: bool, econn: bool)
      modifies this
      ensures Value() == Reconnect(old(Value()), notify, known, failed, econn)
      ensures events == old(events)
    {
      if state.ConnSent? {
        return;
      }
      if n.attempts >= MAX_RECONNECT_ATTEMPTS {
        EndCall(econn);
        return;
      }
      n := n.(attempts := n.attempts + 1, expected := 0);
      if notify {
        n := n.(pending := true, tried := n.tried + 1);
      }
      ChangeState(ConnSent);
      SendConfConn(failed || !known);
    }

    method ReqCfgJoin(outgoing: bool)
      modifies this
      ensures Value() == Join(old(Value()), outgoing)
      ensures events == old(events)
    {
      ChangeState(if outgoing then WaitConfigOutgoing else WaitConfig);
    }

    /** The loop over the call's own SFTs. */
    method ConnectListed(sfts: seq<Sft>) returns (reached: nat, err: bool)
      modifies this`trace
      ensures (reached, err) == TryList(sfts, 0, false)
      ensures Value() == old(Value()).(trace := old(trace) + ConfConns(reached))
    {
      reached, err := 0, false;
      var i := 0;
      assert ConfConns(0) == [];
      while i < |sfts| && reached < MAX_SFTS
        invariant 0 <= i <= |sfts| && reached <= MAX_SFTS
        invariant TryList(sfts, 0, false) == TryList(sfts[i..], reached, err)
        invariant trace == old(trace) + ConfConns(reached)
        decreases |sfts| - i
      {
        assert sfts[i..][1..] == sfts[i + 1..];
        if sfts[i].allowed {
          err := sfts[i].failed;
          SendConfConn(err);
          if !err {
            TraceNext(old(trace), reached);
            reached := reached + 1;
          }
        }
        i := i + 1;
      }
    }

    /** The loop over the configured SFTs. */
    method ConnectEach(sfts: seq<Sft>, failed: bool) returns (reached: nat, err: bool)
      requires |sfts| <= MAX_SFTS
      modifies this`trace
      ensures (reached, err) == TryEach(sfts, 0, failed)
      ensures Value() == old(Value()).(trace := old(trace) + ConfConns(reached))
    {
      reached, err := 0, failed;
      var i := 0;
      assert ConfConns(0) == [];
      while i < |sfts|
        invariant 0 <= i <= |sfts| && reached <= i
        invariant TryEach(sfts, 0, failed) == TryEach(sfts[i..], reached, err)
        invariant trace == old(trace) + ConfConns(reached)
      {
        assert sfts[i..][1..] == sfts[i + 1..];
        err := sfts[i].failed;
        SendConfConn(err);
        if !err {
          TraceNext(old(trace), reached);
          reached := reached + 1;
        }
        i := i + 1;
      }
    }

    method ConnectUrls(urls: seq<Sft>, failed: bool)
      modifies this
      ensures Value() == UseUrls(old(Value()), urls, failed)
      ensures events == old(events)
    {
      var _, err := ConnectEach(FirstThree(urls), failed);
      if !err {
        ChangeState(ConnSent);
      }
    }

    method NoSftReached(g: Config, failed: bool, econn: bool)
      modifies this
      ensures Value() == NoneReached(old(Value()), g, failed, econn)
      ensures events == old(events)
    {
      NothingSent(old(trace));
      if g.federating {
        ConnectUrls(g.urls, failed);
      } else if g.retry {
        EndCall(econn);
      } else {
        ReqCfgJoin(false);
      }
    }

    /** The first SETUP names the primary SFT. */
    method NamePrimary(url: string)
      modifies this
      ensures Value() == Named(old(Value()), url)
      ensures events == old(events)
    {
      if state.ConnSent? && |url| > 0 && |call.url| == 0 {
        call := call.(url := Slashed(url));
      }
    }

    method ForwardToEcall()
      modifies this
      ensures Value() == Forward(old(Value()))
      ensures events == old(events)
    {
      if state.ConnSent? {
        ChangeState(SetupRecv);
        ecall := true;
        trace := trace + [Forwarded];
      }
    }

    /** config_update_handler, for the configuration that is waited for. */
    method UseConfig(g: Config, econn: bool)
      requires g.current
      modifies this
      ensures Value() == ConfigUpdate(old(Value()), g, econn)
      ensures events == old(events)
    {
      NothingSent(trace);
      if |g.urls| == 0 {
        EndCall(econn);
        ChangeState(ConnSent);
      } else if state.WaitConfigOutgoing? {
        ConnectUrls(g.urls, false);
      } else if !state.WaitConfig? {
        ChangeState(ConnSent);
      } else if |g.list| > 0 {
        var reached, err := ConnectListed(g.list);
        if reached == 0 {
          NoSftReached(g, err, econn);
        } else if !err {
          ChangeState(ConnSent);
        }
      } else if |g.primary| > 0 && g.primary[0].allowed {
        SendConfConn(g.primary[0].failed);
        ConfConnsNext(0);
        if !g.primary[0].failed {
          ChangeState(ConnSent);
        }
      } else {
        NoSftReached(g, false, econn);
      }
    }

    /** Adopts an earlier call, and joins it unless the conference is idle, ringing or ending. */
    method TakeMessage(m: Msg)
      requires CallAgreement.Valid(m)
      modifies this
      ensures Value() == ConfStart(old(Value()), m)
      ensures events == old(events)
    {
      var cmp := TsCmp(call, m.call);
      if cmp > 0 {
        call := Adopted(m.call);
        caller := false;
      }
      match state
      case None =>
      case Terminating =>
      case Incoming =>
      case Idle => ChangeState(Incoming);
      case _ =>
        if cmp > 0 {
          ecall := false;
          ReqCfgJoin(false);
        }
    }

    method GiveUp(econn: bool)
      modifies this
      ensures Value() == ConnectTimeout(old(Value()), econn) && !Waits(state)
      ensures events == old(events)
    {
      connectTimer := false;
      if !state.Active? {
        EndCall(econn);
      }
    }

    method CountMissingPing(known: bool, failed: bool, econn: bool)
      modifies this
      ensures Value() == Keepalive(old(Value()), known, failed, econn)
      ensures events == old(events)
    {
      keepaliveTimer := false;
      if state.Active? && ecall {
        n := n.(expected := n.expected + 1);
        if n.expected > MAX_MISSING_PINGS {
          ReconnectCall(true, known, failed, econn);
        } else {
          keepaliveTimer := true;
        }
      }
    }

    /** A lost flow reconnects; otherwise the call ends, waits for its duration timer, or is offered again. */
    method FollowClose(cause: CloseCause, known: bool, failed: bool, econn: bool)
      modifies this
      ensures Value() == EcallClose(old(Value()), cause, known, failed, econn)
      ensures events == old(events)
    {
      match cause
      case Again(notify) =>
        n := n.(attempts := 0, expected := 0);
        ReconnectCall(notify, known, failed, econn);
      case Ended(shouldEnd, duration) =>
        if shouldEnd {
          ChangeState(Idle);
        } else if !duration {
          ChangeState(Incoming);
        }
        ecall := false;
    }

    // -------------------------------------------------------------------------------------
    // Handlers
    // -------------------------------------------------------------------------------------

    method StartCall()
      requires Valid()
      modifies this
      ensures Valid() && Took(Start)
    {
      Foreseen(Start);
      if state.Idle? {
        caller := true;
        ReqCfgJoin(true);
      } else if state.Incoming? {
        caller := false;
        ReqCfgJoin(false);
      }
      events := events + [Start];
    }

    method AnswerCall()
      requires Valid()
      modifies this
      ensures Valid() && Took(Answer)
    {
      Foreseen(Answer);
      if state.Idle? || state.Incoming? {
        caller := false;
        ReqCfgJoin(false);
      }
      events := events + [Answer];
    }

    /** The result tells whether this client, if it is the key generator, answers a later call with a CONFSTART. */
    method HandleConfstartCheck(m: Msg, isKg: bool) returns (asserts: bool)
      requires Valid()
      modifies this
      ensures Valid() && Took(Heard(m))
      ensures asserts <==> CallAgreement.Valid(m) && old(state).Active? && isKg && TsCmp(old(call), m.call) < 0
    {
      Foreseen(Heard(m));
      asserts := CallAgreement.Valid(m) && state.Active? && isKg && TsCmp(call, m.call) < 0;
      if CallAgreement.Valid(m) {
        TakeMessage(m);
      }
      events := events + [Heard(m)];
    }

    method ConfEndRecv(mine: bool)
      requires Valid()
      modifies this
      ensures Valid() && Took(ConfEnd(mine))
    {
      Foreseen(ConfEnd(mine));
      if state.Incoming? && mine {
        ChangeState(Idle);
      }
      events := events + [ConfEnd(mine)];
    }

    method ConfigUpdateHandler(g: Config, econn: bool)
      requires Valid()
      modifies this
      ensures Valid() && Took(Configured(g, econn))
    {
      Foreseen(Configured(g, econn));
      if g.current {
        UseConfig(g, econn);
      }
      events := events + [Configured(g, econn)];
    }

    method SftMsgRecv(m: SftMsg, econn: bool)
      requires Valid()
      modifies this
      ensures Valid() && Took(FromSft(m, econn))
    {
      Foreseen(FromSft(m, econn));
      match m {
        case NetworkError => EndCall(econn);
        case Nothing =>
          if state.ConnSent? {
            ChangeState(WaitNetwork);
          }
        case OtherSession =>
        case ConfConnReply =>
        case Setup(url) =>
          NamePrimary(url);
          ForwardToEcall();
        case Update => ForwardToEcall();
        case Other => ecall := true;
      }
      events := events + [FromSft(m, econn)];
    }

    method SentToSft()
      requires Valid()
      modifies this
      ensures Valid() && Took(Answered)
    {
      Foreseen(Answered);
      if !state.Active? {
        ChangeState(Connecting);
      }
      events := events + [Answered];
    }

    method DatachanEstabHandler()
      requires Valid()
      modifies this
      ensures Valid() && Took(DataChan)
    {
      Foreseen(DataChan);
      if state.Connecting? {
        ChangeState(Connected);
      }
      events := events + [DataChan];
    }

    method MediaEstabHandler(mine: bool)
      requires Valid()
      modifies this
      ensures Valid() && Took(Media(mine))
    {
      Foreseen(Media(mine));
      if mine && !state.ConnSent? {
        ChangeState(Active);
      }
      events := events + [Media(mine)];
    }

    method ConfpartHandler(start: bool, alone: bool, ts: nat, seqno: nat)
      requires Valid()
      modifies this
      ensures Valid() && Took(ConfPart(start, alone, ts, seqno))
    {
      Foreseen(ConfPart(start, alone, ts, seqno));
      var shouldStart := start;
      if !shouldStart && caller && call.ts == 0 && call.seqno == 0 && alone {
        shouldStart := true;
      }
      confpart := true;
      if shouldStart && caller {
        call := call.(ts := ts, seqno := seqno);
      } else if call.ts == 0 && call.seqno == 0 {
        call := call.(ts := ts, seqno := seqno);
      }
      events := events + [ConfPart(start, alone, ts, seqno)];
    }

    method PingHandler()
      requires Valid()
      modifies this
      ensures Valid() && Took(Pinged)
    {
      Foreseen(Pinged);
      n := n.(expected := 0, attempts := 0);
      if n.pending {
        n := n.(done := n.done + 1, pending := false);
      }
      events := events + [Pinged];
    }

    /** Runs when the keepalive timer has run out. */
    method KeepaliveTimeout(known: bool, failed: bool, econn: bool)
      requires Valid() && keepaliveTimer
      modifies this
      ensures Valid() && Took(KeepaliveFires(known, failed, econn))
    {
      Foreseen(KeepaliveFires(known, failed, econn));
      CountMissingPing(known, failed, econn);
      events := events + [KeepaliveFires(known, failed, econn)];
    }

    /** The results tell whether the check is repeated, and whether keys are requested from the key generator. */
    method DecryptCheckTimeout(known: bool, failed: bool, econn: bool, hasKg: bool, isKg: bool, undecryptable: bool)
      returns (again: bool, requests: bool)
      requires Valid()
      modifies this
      ensures Valid() && Took(DecryptFires(known, failed, econn))
      ensures again <==> old(state).Active? && old(confpart) && !hasKg
      ensures requests <==> old(state).Active? && old(confpart) && hasKg && !isKg && undecryptable
    {
      Foreseen(DecryptFires(known, failed, econn));
      again, requests := false, false;
      if state.Active? {
        if !confpart {
          ReconnectCall(true, known, failed, econn);
        } else if !hasKg {
          again := true;
        } else if !isKg {
          requests := undecryptable;
        }
      }
      events := events + [DecryptFires(known, failed, econn)];
    }

    /** Runs when the connect timer has run out. */
    method ConnectTimeoutHandler(econn: bool)
      requires Valid() && connectTimer
      modifies this
      ensures Valid() && Took(ConnectFires(econn)) && !Waits(state)
    {
      Foreseen(ConnectFires(econn));
      GiveUp(econn);
      events := events + [ConnectFires(econn)];
    }

    method OngoingCallTimeout()
      requires Valid()
      modifies this
      ensures Valid() && Took(OngoingFires)
    {
      Foreseen(OngoingFires);
      if state.Incoming? {
        ChangeState(Idle);
      }
      events := events + [OngoingFires];
    }

    method SftRejectTimeout()
      requires Valid()
      modifies this
      ensures Valid() && Took(RejectFires)
    {
      Foreseen(RejectFires);
      if state.ConnSent? {
        ChangeState(Idle);
      }
      events := events + [RejectFires];
    }

    method AloneTimeout(econn: bool)
      requires Valid()
      modifies this
      ensures Valid() && Took(AloneFires(econn))
    {
      Foreseen(AloneFires(econn));
      if state.Active? && ecall {
        EndCall(econn);
      }
      events := events + [AloneFires(econn)];
    }

    method DurationTimeout()
      requires Valid()
      modifies this
      ensures Valid() && Took(DurationFires)
    {
      Foreseen(DurationFires);
      ChangeState(Idle);
      events := events + [DurationFires];
    }

    /** The call is ended with an error from elsewhere, as when the time of a meeting is up. */
    method FailCall(econn: bool)
      requires Valid()
      modifies this
      ensures Valid() && Took(Fail(econn)) && !Waits(state)
    {
      Foreseen(Fail(econn));
      EndKeeps(Value(), econn);
      EndCall(econn);
      events := events + [Fail(econn)];
    }

    /**
     The close of the current call to an SFT, or of a stale one. The result tells whether a CONFEND is sent; clean,
     whether the call ended without an error or because nobody else is in it.
     */
    method EcallCloseHandler(current: bool, cause: CloseCause, clean: bool, known: bool, failed: bool, econn: bool)
      returns (confEnd: bool)
      requires Valid()
      modifies this
      ensures Valid() && if current then Took(Closed(cause, known, failed, econn)) else unchanged(this)
      ensures confEnd <==> current && cause.Ended? && cause.shouldEnd && clean && old(confpart)
    {
      confEnd := false;
      if !current {
        return;
      }
      Foreseen(Closed(cause, known, failed, econn));
      confEnd := cause.Ended? && cause.shouldEnd && clean && confpart;
      FollowClose(cause, known, failed, econn);
      events := events + [Closed(cause, known, failed, econn)];
    }
  }
}
