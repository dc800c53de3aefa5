/**
 What every connection keeps over its whole life: it cannot hang half-open, and it is torn
 down once, with at most one farewell message and silence afterwards.
 */
module EconnLifetime {
  import opened Econn
  import opened Ids

  lemma {:induction false} RunAppend(c: Conn, xs: seq<Input>, ys: seq<Input>)
    ensures Run(c, xs + ys) == Run(Run(c, xs), ys)
    decreases |xs|
  {
    if xs == [] {
      assert xs + ys == ys;
    } else {
      assert (xs + ys)[0] == xs[0] && (xs + ys)[1..] == xs[1..] + ys;
      RunAppend(Step(c, xs[0]), xs[1..], ys);
    }
  }

  // ---------------------------------------------------------------------------------------
  // The local timer guards every state that waits for something
  // ---------------------------------------------------------------------------------------

  /** The call has neither been established nor been reported closed. */
  predicate Waiting(c: Conn) {
    c.closeArmed && !Established(c.state)
  }

  predicate HalfOpen(c: Conn) {
    Waiting(c) && c.timer.Off?
  }

  /** A reported close is final: the connection is terminating and its timer is stopped. */
  predicate CloseIsFinal(c: Conn) {
    !c.closeArmed ==> c.state.Terminating? && c.timer.Off?
  }

  predicate AllSent(inputs: seq<Input>) {
    forall i | 0 <= i < |inputs| :: inputs[i].sendErr == 0
  }

  lemma StepKeepsCloseFinal(c: Conn, i: Input)
    requires CloseIsFinal(c)
    ensures CloseIsFinal(Step(c, i))
  {
    match i.event {
      case RecvEvent(u, cl, m) =>
        match m.kind { case Setup => case Update => case Cancel => case Hangup => case Other => }
      case _ =>
    }
  }

  predicate TimerInv(c: Conn) {
    CloseIsFinal(c) && (c.timer.On? <==> Waiting(c))
  }

  lemma RecvKeepsTimer(c: Conn, user: string, client: string, m: Msg)
    requires TimerInv(c)
    ensures TimerInv(Recv(c, user, client, m, 0))
  {
    match m.kind { case Setup => case Update => case Cancel => case Hangup => case Other => }
  }

  lemma StepKeepsTimer(c: Conn, i: Input)
    requires c.self.conf.timeoutSetup > 0 && i.sendErr == 0 && TimerInv(c)
    ensures TimerInv(Step(c, i))
  {
    match i.event {
      case RecvEvent(user, client, m) => RecvKeepsTimer(c, user, client, m);
      case _ =>
    }
  }

  lemma StepKeepsSelf(c: Conn, i: Input)
    ensures Step(c, i).self == c.self
  {
    match i.event { case RecvEvent(user, client, m) => case _ => }
  }

  lemma {:induction false} RunKeepsTimer(c: Conn, inputs: seq<Input>)
    requires c.self.conf.timeoutSetup > 0 && AllSent(inputs)
    requires TimerInv(c)
    ensures TimerInv(Run(c, inputs))
    decreases |inputs|
  {
    if inputs != [] {
      StepKeepsTimer(c, inputs[0]);
      StepKeepsSelf(c, inputs[0]);
      RunKeepsTimer(Step(c, inputs[0]), inputs[1..]);
    }
  }

  /**
   With a transport that takes every message and a setup timeout, the timer runs exactly while
   the call is neither established nor reported closed, whatever happens in whatever order.
   */
  lemma TimerRunsExactlyWhileWaiting(conf: Conf, user: string, client: string, sess: string, inputs: seq<Input>)
    requires conf.timeoutSetup > 0 && AllSent(inputs)
    ensures var d := Run(Alloc(conf, user, client, sess), inputs);
            d.timer.On? <==> d.closeArmed && !Established(d.state)
  {
    RunKeepsTimer(Alloc(conf, user, client, sess), inputs);
  }

  /**
   Exactly which step leaves a connection half-open when the transport may fail: an answer or
   an update response that could not be sent, or an update request under a zero setup timeout.
   */
  predicate Abandons(c: Conn, i: Input) {
    || (i.event.AnswerEvent? && (c.state.PendingIncoming? || c.state.ConflictResolution?) && i.sendErr != 0)
    || (i.event.UpdateRespEvent? && c.state.UpdateRecv? && i.sendErr != 0)
    || (i.event.UpdateReqEvent? && Established(c.state) && c.timer.Off?
        && i.sendErr == 0 && c.self.conf.timeoutSetup == 0)
  }

  lemma RecvNeverAbandons(c: Conn, user: string, client: string, m: Msg, sendErr: int)
    requires CloseIsFinal(c) && !HalfOpen(c)
    ensures !HalfOpen(Recv(c, user, client, m, sendErr))
  {
    match m.kind { case Setup => case Update => case Cancel => case Hangup => case Other => }
  }

  lemma HalfOpenExactlyWhenAbandoned(c: Conn, i: Input)
    requires CloseIsFinal(c) && !HalfOpen(c)
    ensures HalfOpen(Step(c, i)) <==> Abandons(c, i)
  {
    match i.event {
      case RecvEvent(user, client, m) => RecvNeverAbandons(c, user, client, m, i.sendErr);
      case _ =>
    }
  }

  /** Some step of the run abandons the connection. */
  predicate EverAbandons(c: Conn, inputs: seq<Input>)
    decreases |inputs|
  {
    inputs != [] && (Abandons(c, inputs[0]) || EverAbandons(Step(c, inputs[0]), inputs[1..]))
  }

  lemma {:induction false} NeverHalfOpenUnlessAbandoned(c: Conn, inputs: seq<Input>)
    requires CloseIsFinal(c) && !HalfOpen(c) && !EverAbandons(c, inputs)
    ensures CloseIsFinal(Run(c, inputs)) && !HalfOpen(Run(c, inputs))
    decreases |inputs|
  {
    if inputs != [] {
      HalfOpenExactlyWhenAbandoned(c, inputs[0]);
      StepKeepsCloseFinal(c, inputs[0]);
      NeverHalfOpenUnlessAbandoned(Step(c, inputs[0]), inputs[1..]);
    }
  }

  /** A run with failing sends that hangs: the answer is refused and no timer is left. */
  lemma RefusedAnswerHangs(conf: Conf, u: string, cl: string, s: string, v: string, d: string)
    requires u != "" && cl != ""
    ensures var run := [Input(RecvEvent(v, d, Msg(Setup, false, "peer")), 0), Input(AnswerEvent, 5)];
            HalfOpen(Run(Alloc(conf, u, cl, s), run))
  {
    var c := Alloc(conf, u, cl, s);
    var i0 := Input(RecvEvent(v, d, Msg(Setup, false, "peer")), 0);
    var i1 := Input(AnswerEvent, 5);
    RunAppend(c, [i0], [i1]);
    assert [i0] + [i1] == [i0, i1];
    assert Run(c, [i0]) == Step(c, i0) && Run(Step(c, i0), [i1]) == Step(Step(c, i0), i1);
  }

  /** A connection that waits is reported closed by its timer, with the timeout or the recorded error. */
  lemma TimerClosesWaitingCall(conf: Conf, user: string, client: string, sess: string, inputs: seq<Input>, sendErr: int)
    requires conf.timeoutSetup > 0 && AllSent(inputs)
    requires var c := Run(Alloc(conf, user, client, sess), inputs); c.closeArmed && !Established(c.state)
    ensures var c := Run(Alloc(conf, user, client, sess), inputs);
            var d := Step(c, Input(FireEvent, sendErr));
            && d.state.Terminating? && !d.closeArmed && d.timer.Off?
            && d.upcalls == c.upcalls + [CloseUp(
                 if c.timer.handler.LocalTimeout? && c.err == 0 then ETIMEDOUT_ECONN else c.err)]
  {
    TimerRunsExactlyWhileWaiting(conf, user, client, sess, inputs);
  }

  // ---------------------------------------------------------------------------------------
  // Teardown
  // ---------------------------------------------------------------------------------------

  predicate Farewell(m: Msg) {
    m.kind.Cancel? || (m.kind.Hangup? && !m.resp)
  }

  predicate NoFarewell(ms: seq<Msg>) {
    forall i | 0 <= i < |ms| :: !Farewell(ms[i])
  }

  predicate AtMostOneFarewell(ms: seq<Msg>) {
    forall i, j | 0 <= i < j < |ms| :: !(Farewell(ms[i]) && Farewell(ms[j]))
  }

  predicate NoClose(us: seq<Upcall>) {
    forall i | 0 <= i < |us| :: !us[i].CloseUp?
  }

  predicate AtMostOneClose(us: seq<Upcall>) {
    forall i, j | 0 <= i < j < |us| :: !(us[i].CloseUp? && us[j].CloseUp?)
  }

  predicate TeardownInv(c: Conn) {
    && AtMostOneFarewell(c.outbox)
    && (NoFarewell(c.outbox) || c.state.HangupSent? || c.state.Terminating?)
    && AtMostOneClose(c.upcalls)
    && (if c.closeArmed then NoClose(c.upcalls) else c.state.Terminating?)
  }

  /** The step from c to d keeps the invariant, and it keeps a terminating connection silent. */
  predicate Orderly(c: Conn, d: Conn) {
    TeardownInv(c) ==> TeardownInv(d) && (c.state.Terminating? ==> d.state.Terminating? && d.outbox == c.outbox)
  }

  lemma CloseIsOrderly(c: Conn, err: int, sendErr: int)
    ensures Orderly(c, Close(c, err, sendErr))
  {
  }

  lemma SetupsAreOrderly(c: Conn, sendErr: int)
    ensures Orderly(c, Start(c, sendErr).0) && Orderly(c, Answer(c, sendErr).0)
  {
  }

  lemma UpdatesAreOrderly(c: Conn, sendErr: int)
    ensures Orderly(c, UpdateReq(c, sendErr).0) && Orderly(c, UpdateResp(c, sendErr).0)
  {
  }

  lemma EndIsOrderly(c: Conn, sendErr: int)
    ensures Orderly(c, End(c, sendErr))
  {
  }

  lemma HandleSetupIsOrderly(c: Conn, won: bool, m: Msg)
    ensures Orderly(c, HandleSetupRequest(c, won, m)) && Orderly(c, HandleSetupResponse(c, m))
  {
  }

  lemma RecvSetupIsOrderly(c: Conn, user: string, client: string, m: Msg)
    ensures Orderly(c, RecvSetup(c, user, client, m))
  {
    var c1 := if c.remote.user == "" then c.(remote := c.remote.(user := Stored(user))) else c;
    var c2 := if c.remote.client == "" then c1.(remote := c1.remote.(client := Stored(client))) else c1;
    HandleSetupIsOrderly(c2, IsWinner(c.self.user, c.self.client, user, client), m);
  }

  lemma RecvUpdateIsOrderly(c: Conn, user: string, client: string, m: Msg)
    ensures Orderly(c, RecvUpdate(c, user, client, m))
  {
  }

  lemma CancelAndHangupAreOrderly(c: Conn, client: string, m: Msg, sendErr: int)
    ensures Orderly(c, RecvCancel(c, client, m, sendErr)) && Orderly(c, RecvHangup(c, m, sendErr))
  {
  }

  lemma RecvIsOrderly(c: Conn, user: string, client: string, m: Msg, sendErr: int)
    ensures Orderly(c, Recv(c, user, client, m, sendErr))
  {
    match m.kind {
      case Setup => RecvSetupIsOrderly(c, user, client, m);
      case Update => RecvUpdateIsOrderly(c, user, client, m);
      case _ => CancelAndHangupAreOrderly(c, client, m, sendErr);
    }
  }

  lemma StepIsOrderly(c: Conn, i: Input)
    ensures Orderly(c, Step(c, i))
  {
    match i.event {
      case EndEvent => EndIsOrderly(c, i.sendErr);
      case CloseEvent(err) => CloseIsOrderly(c, err, i.sendErr);
      case RecvEvent(user, client, m) =>
        RecvIsOrderly(c, user, client, m, i.sendErr);
      case FireEvent =>
        CloseIsOrderly(c.(timer := Off), c.err, i.sendErr);
        CloseIsOrderly(c.(timer := Off), ETIMEDOUT_ECONN, i.sendErr);
      case _ =>
        SetupsAreOrderly(c, i.sendErr);
        UpdatesAreOrderly(c, i.sendErr);
    }
  }

  lemma {:induction false} RunKeepsTeardown(c: Conn, inputs: seq<Input>)
    requires TeardownInv(c)
    ensures TeardownInv(Run(c, inputs))
    ensures c.state.Terminating? ==> Run(c, inputs).state.Terminating? && Run(c, inputs).outbox == c.outbox
    decreases |inputs|
  {
    if inputs != [] {
      StepIsOrderly(c, inputs[0]);
      RunKeepsTeardown(Step(c, inputs[0]), inputs[1..]);
    }
  }

  /**
   Over any run, whether or not sends fail: at most one CANCEL or HANGUP request is ever sent,
   the close handler runs at most once, and after any prefix that ends in TERMINATING the
   connection stays there and sends nothing more.
   */
  lemma TeardownTrace(conf: Conf, user: string, client: string, sess: string, before: seq<Input>, after: seq<Input>)
    ensures var mid := Run(Alloc(conf, user, client, sess), before);
            var fin := Run(Alloc(conf, user, client, sess), before + after);
            && AtMostOneFarewell(fin.outbox)
            && AtMostOneClose(fin.upcalls)
            && (mid.state.Terminating? ==> fin.state.Terminating? && fin.outbox == mid.outbox)
  {
    var c := Alloc(conf, user, client, sess);
    RunAppend(c, before, after);
    RunKeepsTeardown(c, before);
    RunKeepsTeardown(Run(c, before), after);
  }

  // ---------------------------------------------------------------------------------------
  // What a connection promises at any point of its life
  // ---------------------------------------------------------------------------------------

  /** One farewell, one reported close, and, as long as sends succeed, a timer exactly while the call waits. */
  predicate Promised(c: Conn, inputs: seq<Input>) {
    && TeardownInv(c)
    && (c.self.conf.timeoutSetup > 0 && AllSent(inputs) ==> (c.timer.On? <==> Waiting(c)))
  }

  lemma AllocIsTornDownOnce(conf: Conf, user: string, client: string, sess: string)
    ensures TeardownInv(Alloc(conf, user, client, sess))
  {
  }

  lemma RunKeepsPromises(conf: Conf, user: string, client: string, sess: string, inputs: seq<Input>)
    ensures Promised(Run(Alloc(conf, user, client, sess), inputs), inputs)
  {
    var c := Alloc(conf, user, client, sess);
    AllocIsTornDownOnce(conf, user, client, sess);
    RunKeepsTeardown(c, inputs);
    RunKeepsSelf(c, inputs);
    if conf.timeoutSetup > 0 && AllSent(inputs) {
      TimerRunsExactlyWhileWaiting(conf, user, client, sess, inputs);
    }
  }

  lemma {:induction false} RunKeepsSelf(c: Conn, inputs: seq<Input>)
    ensures Run(c, inputs).self == c.self
    decreases |inputs|
  {
    if inputs != [] {
      StepKeepsSelf(c, inputs[0]);
      RunKeepsSelf(Step(c, inputs[0]), inputs[1..]);
    }
  }

  lemma RunNext(c: Conn, inputs: seq<Input>, i: Input)
    ensures Run(c, inputs + [i]) == Step(Run(c, inputs), i)
  {
    RunAppend(c, inputs, [i]);
  }
}
