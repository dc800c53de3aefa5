/** What every run of a conference call keeps: its connect guard, its reconnect counters, and one SFT per attempt. */
module CcallLifetime {
  import opened CallAgreement
  import opened Ccall

  // ---------------------------------------------------------------------------------------
  // The connect guard and the reconnect counters
  // ---------------------------------------------------------------------------------------

  /** The states in which the call waits for the configuration, the network or an SFT. */
  predicate Waits(s: State) {
    s.WaitConfig? || s.WaitConfigOutgoing? || s.ConnSent? || s.SetupRecv? || s.WaitNetwork?
  }

  /** Whoever waits has the connect timer running, and only an active call expects pings. */
  predicate Guarded(c: Conf) {
    (Waits(c.state) ==> c.tmr.connect) && (c.tmr.keepalive ==> c.state.Active?)
  }

  predicate Counted(c: Conf) {
    && c.n.attempts <= MAX_RECONNECT_ATTEMPTS && c.n.expected <= MAX_MISSING_PINGS + 1
    && (c.tmr.keepalive ==> c.n.expected <= MAX_MISSING_PINGS)
    && c.n.done + (if c.n.pending then 1 else 0) <= c.n.tried
  }

  predicate Kept(c: Conf) {
    Guarded(c) && Counted(c)
  }

  /** The moves set_state is used for, and the state each starts from. */
  predicate Allowed(c: Conf, s: State) {
    match s
    case SetupRecv => c.state.ConnSent?
    case WaitNetwork => c.state.ConnSent?
    case Connecting => !c.state.Active?
    case Connected => c.state.Connecting?
    case None => false
    case _ => true
  }

  lemma SetStateKeeps(c: Conf, s: State)
    requires Kept(c) && Allowed(c, s)
    ensures Kept(SetState(c, s))
  {
  }

  lemma EndKeeps(c: Conf, econn: bool)
    requires Counted(c) && (c.tmr.keepalive ==> c.state.Active?)
    ensures Kept(EndWithErr(c, econn)) && !Waits(EndWithErr(c, econn).state)
  {
  }

  lemma SettleKeeps(c: Conf, reached: nat, failed: bool)
    requires Kept(c)
    ensures Kept(Settle(c, reached, failed))
  {
  }

  lemma NoneReachedKeeps(c: Conf, g: Config, failed: bool, econn: bool)
    requires Kept(c)
    ensures Kept(NoneReached(c, g, failed, econn))
  {
    if g.federating {
      var r := TryEach(FirstThree(g.urls), 0, failed);
      SettleKeeps(c, r.0, r.1);
    } else if g.retry {
      EndKeeps(c, econn);
      SettleKeeps(EndWithErr(c, econn), 0, true);
    } else {
      SetStateKeeps(c, WaitConfig);
      SettleKeeps(Join(c, false), 0, true);
    }
  }

  lemma ConfigKeeps(c: Conf, g: Config, econn: bool)
    requires Kept(c)
    ensures Kept(ConfigUpdate(c, g, econn))
  {
    var r := TryList(g.list, 0, false);
    if !g.current {
    } else if |g.urls| == 0 {
      EndKeeps(c, econn);
      SettleKeeps(EndWithErr(c, econn), 0, false);
    } else if c.state.WaitConfigOutgoing? {
      var q := TryEach(FirstThree(g.urls), 0, false);
      SettleKeeps(c, q.0, q.1);
    } else if !c.state.WaitConfig? {
      SettleKeeps(c, 0, false);
    } else if |g.list| > 0 {
      SettleKeeps(c, r.0, r.1);
      NoneReachedKeeps(c, g, r.1, econn);
    } else if |g.primary| > 0 && g.primary[0].allowed {
      SettleKeeps(c, if g.primary[0].failed then 0 else 1, g.primary[0].failed);
    } else {
      NoneReachedKeeps(c, g, false, econn);
    }
  }

  lemma ReconnectKeeps(c: Conf, notify: bool, known: bool, failed: bool, econn: bool)
    requires Counted(c) && (c.tmr.keepalive ==> c.state.Active?) && (c.state.ConnSent? ==> Guarded(c))
    ensures Kept(Reconnect(c, notify, known, failed, econn))
  {
    if !c.state.ConnSent? && c.n.attempts >= MAX_RECONNECT_ATTEMPTS {
      EndKeeps(c, econn);
    }
  }

  lemma KeepaliveKeeps(c: Conf, known: bool, failed: bool, econn: bool)
    requires Kept(c) && c.tmr.keepalive
    ensures Kept(Keepalive(c, known, failed, econn))
  {
    var c1 := c.(tmr := c.tmr.(keepalive := false), n := c.n.(expected := c.n.expected + 1));
    ReconnectKeeps(c1, true, known, failed, econn);
  }

  lemma ConnectTimeoutKeeps(c: Conf, econn: bool)
    requires Kept(c)
    ensures Kept(ConnectTimeout(c, econn))
  {
    EndKeeps(c.(tmr := c.tmr.(connect := false)), econn);
  }

  lemma HeardKeeps(c: Conf, m: Msg)
    requires Kept(c)
    ensures Kept(ConfStart(c, m))
  {
    var c1 := c.(call := Handle(c.call, m), caller := c.caller && TsCmp(c.call, m.call) <= 0);
    SetStateKeeps(c1, Incoming);
    SetStateKeeps(c1.(ecall := false), WaitConfig);
  }

  lemma SftKeeps(c: Conf, s: SftMsg, econn: bool)
    requires Kept(c)
    ensures Kept(SftRecv(c, s, econn))
  {
    EndKeeps(c, econn);
    if c.state.ConnSent? {
      SetStateKeeps(if s.Setup? then Named(c, s.url) else c, SetupRecv);
      SetStateKeeps(c, WaitNetwork);
    }
  }

  lemma ClosedKeeps(c: Conf, cause: CloseCause, known: bool, failed: bool, econn: bool)
    requires Kept(c)
    ensures Kept(EcallClose(c, cause, known, failed, econn))
  {
    match cause
    case Again(notify) => ReconnectKeeps(c.(n := c.n.(attempts := 0, expected := 0)), notify, known, failed, econn);
    case Ended(_, _) =>
      SetStateKeeps(c, Idle);
      SetStateKeeps(c, Incoming);
  }

  /** The events handled without a lemma of their own: at most one change of state. */
  lemma SimpleStepKeeps(c: Conf, e: Event)
    requires Kept(c)
    requires e.Start? || e.Answer? || e.ConfEnd? || e.Answered? || e.DataChan? || e.Media? || e.ConfPart? || e.Pinged?
             || e.OngoingFires? || e.RejectFires? || e.DurationFires?
    ensures Kept(Step(c, e))
  {
    var s := if e.Start? && c.state.Idle? then WaitConfigOutgoing
             else if e.Start? || e.Answer? then WaitConfig
             else if e.Answered? then Connecting
             else if e.DataChan? then Connected
             else if e.Media? then Active
             else Idle;
    var c1 := if e.Start? || e.Answer? then c.(caller := e.Start? && c.state.Idle?) else c;
    if Allowed(c1, s) {
      SetStateKeeps(c1, s);
    }
  }

  lemma StepKeeps(c: Conf, e: Event)
    requires Kept(c) && Possible(c, e)
    ensures Kept(Step(c, e))
  {
    match e
    case Heard(m) => HeardKeeps(c, m);
    case Configured(g, econn) => ConfigKeeps(c, g, econn);
    case FromSft(s, econn) => SftKeeps(c, s, econn);
    case KeepaliveFires(known, failed, econn) => KeepaliveKeeps(c, known, failed, econn);
    case DecryptFires(known, failed, econn) => ReconnectKeeps(c, true, known, failed, econn);
    case ConnectFires(econn) => ConnectTimeoutKeeps(c, econn);
    case AloneFires(econn) => EndKeeps(c, econn);
    case Closed(cause, known, failed, econn) => ClosedKeeps(c, cause, known, failed, econn);
    case Fail(econn) => EndKeeps(c, econn);
    case _ => SimpleStepKeeps(c, e);
  }

  lemma {:induction false} RunKeeps(c: Conf, es: seq<Event>)
    requires Kept(c) && PossibleRun(c, es)
    ensures Kept(Run(c, es))
    decreases |es|
  {
    if |es| > 0 {
      StepKeeps(c, es[0]);
      RunKeeps(Step(c, es[0]), es[1..]);
    }
  }

  /** A run, and what it leads to, one event longer. */
  lemma {:induction false} RunNext(c: Conf, es: seq<Event>, e: Event)
    ensures Run(c, es + [e]) == Step(Run(c, es), e)
    ensures PossibleRun(c, es + [e]) <==> PossibleRun(c, es) && Possible(Run(c, es), e)
    decreases |es|
  {
    var all := es + [e];
    if |es| == 0 {
      assert all[1..] == [];
    } else {
      assert all[1..] == es[1..] + [e];
      RunNext(Step(c, es[0]), es[1..], e);
    }
  }

  /** No call waits without its guard, in any state of any run. */
  lemma WaitingIsAlwaysGuarded(es: seq<Event>)
    requires PossibleRun(Alloc(), es)
    ensures Waits(Run(Alloc(), es).state) ==> Run(Alloc(), es).tmr.connect
  {
    RunKeeps(Alloc(), es);
  }

  /** And when the guard fires the call no longer waits: it is idle, or terminating if it already had its SFT. */
  lemma GuardEndsTheWait(es: seq<Event>, econn: bool)
    requires PossibleRun(Alloc(), es) && Waits(Run(Alloc(), es).state)
    ensures var c := Run(Alloc(), es);
            var d := Step(c, ConnectFires(econn));
            && Possible(c, ConnectFires(econn))
            && d.state == (if c.state.SetupRecv? && c.ecall && econn then Terminating else Idle)
            && !d.tmr.connect && !d.tmr.keepalive
  {
    RunKeeps(Alloc(), es);
  }

  /** At most two attempts, five missing pings, and no more successes than attempts, in every state of every run. */
  lemma CountersStayBounded(es: seq<Event>)
    requires PossibleRun(Alloc(), es)
    ensures var n := Run(Alloc(), es).n;
            n.attempts <= 2 && n.expected <= 5 && n.done <= n.tried
  {
    RunKeeps(Alloc(), es);
  }

  // ---------------------------------------------------------------------------------------
  // A call without pings ends
  // ---------------------------------------------------------------------------------------

  /**
   What can happen to a call that hears no ping: everything but a ping, a lost flow, an earlier call, the
   configuration waited for, and media established once more while active.
   */
  predicate Silent(c: Conf, e: Event) {
    match e
    case Pinged => false
    case Closed(_, _, _, _) => false
    case Heard(m) => !Valid(m) || TsCmp(c.call, m.call) <= 0
    case Configured(g, _) => !g.current
    case Media(_) => !c.state.Active?
    case _ => true
  }

  predicate Over(s: State) {
    s.Terminating? || s.Idle?
  }

  /** A run of such events that stops once the call is over. */
  predicate SilentRun(c: Conf, es: seq<Event>)
    decreases |es|
  {
    |es| == 0 || (!Over(c.state) && Possible(c, es[0]) && Silent(c, es[0]) && SilentRun(Step(c, es[0]), es[1..]))
  }

  predicate Returning(s: State) {
    s.ConnSent? || s.SetupRecv? || s.WaitNetwork? || s.Connecting? || s.Connected?
  }

  /** What a silent call looks like: over, active and counting, or on its way back with the count at zero. */
  predicate Lingers(c: Conf) {
    && Kept(c)
    && (Over(c.state) || (c.ecall && if c.state.Active? then c.tmr.keepalive
                                     else Returning(c.state) && c.n.expected == 0))
  }

  /** Keepalives left before the call gives up. */
  function Rank(c: Conf): int {
    if Over(c.state) then 0
    else (MAX_MISSING_PINGS + 1) * (MAX_RECONNECT_ATTEMPTS - c.n.attempts) + (MAX_MISSING_PINGS + 1 - c.n.expected)
  }

  lemma RankIsBounded(c: Conf)
    requires Lingers(c)
    ensures 0 <= Rank(c) <= 15 && (Rank(c) == 0 <==> Over(c.state))
  {
  }

  lemma ReconnectCounts(c: Conf, known: bool, failed: bool, econn: bool)
    requires Counted(c) && c.state.Active? && !c.tmr.keepalive && c.ecall && c.n.expected == MAX_MISSING_PINGS + 1
    ensures var d := Reconnect(c, true, known, failed, econn);
            && Lingers(d) && Rank(d) == Rank(c)
            && (Rank(d) == 0 ==> d.state == if econn then Terminating else Idle)
  {
    ReconnectKeeps(c, true, known, failed, econn);
  }

  /** A keepalive costs exactly one; the last one ends the call, through its connection if it still has one. */
  lemma KeepaliveCounts(c: Conf, known: bool, failed: bool, econn: bool)
    requires Lingers(c) && !Over(c.state) && c.tmr.keepalive
    ensures var d := Keepalive(c, known, failed, econn);
            && Lingers(d) && Rank(d) == Rank(c) - 1
            && (Rank(d) == 0 ==> d.state == if econn then Terminating else Idle)
  {
    var c1 := c.(tmr := c.tmr.(keepalive := false), n := c.n.(expected := c.n.expected + 1));
    if c1.n.expected > MAX_MISSING_PINGS {
      ReconnectCounts(c1, known, failed, econn);
    }
  }

  lemma DecryptCounts(c: Conf, known: bool, failed: bool, econn: bool)
    requires Lingers(c)
    ensures Lingers(DecryptCheck(c, known, failed, econn)) && Rank(DecryptCheck(c, known, failed, econn)) <= Rank(c)
  {
    ReconnectKeeps(c, true, known, failed, econn);
  }

  lemma EndCounts(c: Conf, econn: bool)
    requires Kept(c)
    ensures Over(EndWithErr(c, econn).state) && Lingers(EndWithErr(c, econn))
  {
    EndKeeps(c, econn);
  }

  lemma SftCounts(c: Conf, s: SftMsg, econn: bool)
    requires Lingers(c) && !Over(c.state)
    ensures Lingers(SftRecv(c, s, econn)) && Rank(SftRecv(c, s, econn)) <= Rank(c)
  {
    SftKeeps(c, s, econn);
    EndCounts(c, econn);
  }

  lemma ConnectTimeoutCounts(c: Conf, econn: bool)
    requires Lingers(c) && !Over(c.state)
    ensures Lingers(ConnectTimeout(c, econn)) && Rank(ConnectTimeout(c, econn)) <= Rank(c)
  {
    ConnectTimeoutKeeps(c, econn);
  }

  lemma HeardCounts(c: Conf, m: Msg)
    requires Lingers(c) && !Over(c.state) && Silent(c, Heard(m))
    ensures Lingers(ConfStart(c, m)) && Rank(ConfStart(c, m)) <= Rank(c)
  {
    HeardKeeps(c, m);
  }

  lemma SimpleStepCounts(c: Conf, e: Event)
    requires Lingers(c) && !Over(c.state) && Silent(c, e)
    requires e.Start? || e.Answer? || e.ConfEnd? || e.Answered? || e.DataChan? || e.Media? || e.ConfPart?
             || e.OngoingFires? || e.RejectFires? || e.DurationFires?
    ensures Lingers(Step(c, e)) && Rank(Step(c, e)) <= Rank(c)
  {
    SimpleStepKeeps(c, e);
  }

  lemma OtherStepCounts(c: Conf, e: Event)
    requires Lingers(c) && !Over(c.state) && Silent(c, e) && !e.KeepaliveFires?
    ensures Lingers(Step(c, e)) && Rank(Step(c, e)) <= Rank(c)
  {
    match e
    case Heard(m) => HeardCounts(c, m);
    case Configured(_, _) =>
    case FromSft(s, econn) => SftCounts(c, s, econn);
    case DecryptFires(known, failed, econn) => DecryptCounts(c, known, failed, econn);
    case ConnectFires(econn) => ConnectTimeoutCounts(c, econn);
    case AloneFires(econn) => EndCounts(c, econn);
    case Fail(econn) => EndCounts(c, econn);
    case _ => SimpleStepCounts(c, e);
  }

  function Fires(es: seq<Event>): nat {
    if |es| == 0 then 0 else (if es[0].KeepaliveFires? then 1 else 0) + Fires(es[1..])
  }

  /** The run ends with the keepalive that ended the call. */
  predicate EndsByKeepalive(es: seq<Event>, s: State) {
    && |es| > 0 && es[|es| - 1].KeepaliveFires?
    && s == (if es[|es| - 1].econn then Terminating else Idle)
  }

  /** Each keepalive costs one, nothing gives any back, and only a keepalive can use up the last. */
  lemma {:induction false} SilenceIsCounted(c: Conf, es: seq<Event>)
    requires Lingers(c) && SilentRun(c, es)
    ensures Lingers(Run(c, es)) && Fires(es) + Rank(Run(c, es)) <= Rank(c)
    ensures |es| > 0 && Fires(es) == Rank(c) ==> EndsByKeepalive(es, Run(c, es).state)
    decreases |es|
  {
    if |es| > 0 {
      if es[0].KeepaliveFires? {
        KeepaliveCounts(c, es[0].known, es[0].failed, es[0].econn);
      } else {
        OtherStepCounts(c, es[0]);
      }
      RankIsBounded(c);
      SilenceIsCounted(Step(c, es[0]), es[1..]);
    }
  }

  /**
   An active call that hears no ping sees at most 15 keepalives, however its reconnects go: whether they succeed,
   time out, fail or are refused. After 15 it is over: terminating, or idle if its connection was gone.
   */
  lemma SilentCallEnds(before: seq<Event>, es: seq<Event>)
    requires PossibleRun(Alloc(), before)
    requires var c := Run(Alloc(), before);
             c.state.Active? && c.tmr.keepalive && c.ecall && SilentRun(c, es)
    ensures Fires(es) <= 15
    ensures Fires(es) == 15 ==> EndsByKeepalive(es, Run(Run(Alloc(), before), es).state)
  {
    RunKeeps(Alloc(), before);
    var c := Run(Alloc(), before);
    SilenceIsCounted(c, es);
    RankIsBounded(c);
    RankIsBounded(Run(c, es));
  }

  // ---------------------------------------------------------------------------------------
  // One SFT per attempt
  // ---------------------------------------------------------------------------------------

  /** How many of the SFTs are allowed and can be reached. */
  function Reachable(sfts: seq<Sft>): nat {
    if |sfts| == 0 then 0 else (if sfts[0].allowed && !sfts[0].failed then 1 else 0) + Reachable(sfts[1..])
  }

  /** Of the call's own SFTs the first three that can be reached are. */
  lemma {:induction false} ListReachesThree(sfts: seq<Sft>, reached: nat, lastFailed: bool)
    requires reached <= MAX_SFTS
    ensures TryList(sfts, reached, lastFailed).0
            == if reached + Reachable(sfts) < MAX_SFTS then reached + Reachable(sfts) else MAX_SFTS
    decreases |sfts|
  {
    if |sfts| > 0 && reached < MAX_SFTS {
      ListReachesThree(sfts[1..], if sfts[0].allowed && !sfts[0].failed then reached + 1 else reached,
                       if sfts[0].allowed then sfts[0].failed else lastFailed);
    }
  }

  function CountOf(trace: seq<Mark>, m: Mark): nat {
    if |trace| == 0 then 0 else CountOf(trace[..|trace| - 1], m) + if trace[|trace| - 1] == m then 1 else 0
  }

  lemma CountNext(trace: seq<Mark>, last: Mark, m: Mark)
    ensures CountOf(trace + [last], m) == CountOf(trace, m) + if last == m then 1 else 0
  {
    assert (trace + [last])[..|trace|] == trace;
  }

  lemma ConfConnsGrow(trace: seq<Mark>, k: nat)
    requires k > 0
    ensures trace + ConfConns(k) == (trace + ConfConns(k - 1)) + [ConfConn]
  {
    assert ConfConns(k) == ConfConns(k - 1) + [ConfConn];
  }

  lemma {:induction false} ConfConnsCount(trace: seq<Mark>, k: nat)
    ensures CountOf(trace + ConfConns(k), ConfConn) == CountOf(trace, ConfConn) + k
    decreases k
  {
    if k == 0 {
      assert trace + ConfConns(0) == trace;
    } else {
      ConfConnsCount(trace, k - 1);
      ConfConnsGrow(trace, k);
      CountNext(trace + ConfConns(k - 1), ConfConn, ConfConn);
    }
  }

  lemma SettleSends(c: Conf, reached: nat, failed: bool)
    ensures CountOf(Settle(c, reached, failed).trace, ConfConn) == CountOf(c.trace, ConfConn) + reached
  {
    ConfConnsCount(c.trace, reached);
    CountNext(c.trace + ConfConns(reached), Entered, ConfConn);
  }

  lemma EndSendsNothing(c: Conf, econn: bool)
    ensures EndWithErr(c, econn).trace == c.trace
  {
  }

  lemma NoneReachedSends(c: Conf, g: Config, failed: bool, econn: bool)
    ensures CountOf(NoneReached(c, g, failed, econn).trace, ConfConn) <= CountOf(c.trace, ConfConn) + MAX_SFTS
  {
    var r := TryEach(FirstThree(g.urls), 0, failed);
    SettleSends(c, r.0, r.1);
    EndSendsNothing(c, econn);
    SettleSends(EndWithErr(c, econn), 0, true);
    SettleSends(Join(c, false), 0, true);
  }

  /** One configuration leads to at most three CONFCONNs that go out. */
  lemma ConfigSendsAtMostThree(c: Conf, g: Config, econn: bool)
    ensures CountOf(ConfigUpdate(c, g, econn).trace, ConfConn) <= CountOf(c.trace, ConfConn) + MAX_SFTS
  {
    var r := TryList(g.list, 0, false);
    if !g.current {
    } else if |g.urls| == 0 {
      EndSendsNothing(c, econn);
      SettleSends(EndWithErr(c, econn), 0, false);
    } else if c.state.WaitConfigOutgoing? {
      var q := TryEach(FirstThree(g.urls), 0, false);
      SettleSends(c, q.0, q.1);
    } else if !c.state.WaitConfig? {
      SettleSends(c, 0, false);
    } else if |g.list| > 0 {
      SettleSends(c, r.0, r.1);
      NoneReachedSends(c, g, r.1, econn);
    } else if |g.primary| > 0 && g.primary[0].allowed {
      SettleSends(c, if g.primary[0].failed then 0 else 1, g.primary[0].failed);
    } else {
      NoneReachedSends(c, g, false, econn);
    }
  }

  /** The race is open: CONNSENT was entered and no SETUP or UPDATE handed on since. */
  predicate Open(trace: seq<Mark>) {
    |trace| > 0 && (trace[|trace| - 1].Entered? || (trace[|trace| - 1].ConfConn? && Open(trace[..|trace| - 1])))
  }

  /** Everything handed on was handed on in an open race. */
  ghost predicate Disciplined(trace: seq<Mark>) {
    forall j | 0 <= j < |trace| && trace[j].Forwarded? :: Open(trace[..j])
  }

  predicate Raced(c: Conf) {
    c.state.ConnSent? ==> Open(c.trace)
  }

  lemma Append(trace: seq<Mark>, m: Mark)
    requires Disciplined(trace) && (m.Forwarded? ==> Open(trace))
    ensures Disciplined(trace + [m])
    ensures m.Entered? ==> Open(trace + [m])
    ensures m.ConfConn? && Open(trace) ==> Open(trace + [m])
  {
    var next := trace + [m];
    assert next[..|trace|] == trace;
    forall j | 0 <= j < |next| && next[j].Forwarded? ensures Open(next[..j]) {
      if j < |trace| {
        assert next[..j] == trace[..j];
      }
    }
  }

  lemma AppendConns(trace: seq<Mark>, k: nat)
    requires Disciplined(trace)
    ensures Disciplined(trace + ConfConns(k)) && (Open(trace) ==> Open(trace + ConfConns(k)))
    decreases k
  {
    if k == 0 {
      assert trace + ConfConns(k) == trace;
    } else {
      AppendConns(trace, k - 1);
      Append(trace + ConfConns(k - 1), ConfConn);
      ConfConnsGrow(trace, k);
    }
  }

  ghost predicate Fair(c: Conf) {
    Disciplined(c.trace) && Raced(c)
  }

  lemma SetStateIsFair(c: Conf, s: State)
    requires Disciplined(c.trace)
    ensures Fair(SetState(c, s))
  {
    if s.ConnSent? {
      Append(c.trace, Entered);
    }
  }

  lemma EndIsFair(c: Conf, econn: bool)
    requires Disciplined(c.trace)
    ensures Fair(EndWithErr(c, econn))
  {
    EndSendsNothing(c, econn);
  }

  lemma SettleIsFair(c: Conf, reached: nat, failed: bool)
    requires Fair(c)
    ensures Fair(Settle(c, reached, failed))
  {
    AppendConns(c.trace, reached);
    SetStateIsFair(c.(trace := c.trace + ConfConns(reached)), ConnSent);
  }

  lemma NoneReachedIsFair(c: Conf, g: Config, failed: bool, econn: bool)
    requires Fair(c)
    ensures Fair(NoneReached(c, g, failed, econn))
  {
    if g.federating {
      var r := TryEach(FirstThree(g.urls), 0, failed);
      SettleIsFair(c, r.0, r.1);
    } else if g.retry {
      EndIsFair(c, econn);
      SettleIsFair(EndWithErr(c, econn), 0, true);
    } else {
      SettleIsFair(Join(c, false), 0, true);
    }
  }

  lemma ConfigIsFair(c: Conf, g: Config, econn: bool)
    requires Fair(c)
    ensures Fair(ConfigUpdate(c, g, econn))
  {
    var r := TryList(g.list, 0, false);
    if !g.current {
    } else if |g.urls| == 0 {
      EndIsFair(c, econn);
      SettleIsFair(EndWithErr(c, econn), 0, false);
    } else if c.state.WaitConfigOutgoing? {
      var q := TryEach(FirstThree(g.urls), 0, false);
      SettleIsFair(c, q.0, q.1);
    } else if !c.state.WaitConfig? {
      SettleIsFair(c, 0, false);
    } else if |g.list| > 0 {
      SettleIsFair(c, r.0, r.1);
      NoneReachedIsFair(c, g, r.1, econn);
    } else if |g.primary| > 0 && g.primary[0].allowed {
      SettleIsFair(c, if g.primary[0].failed then 0 else 1, g.primary[0].failed);
    } else {
      NoneReachedIsFair(c, g, false, econn);
    }
  }

  lemma ReconnectIsFair(c: Conf, notify: bool, known: bool, failed: bool, econn: bool)
    requires Fair(c)
    ensures Fair(Reconnect(c, notify, known, failed, econn))
  {
    if c.state.ConnSent? {
    } else if c.n.attempts >= MAX_RECONNECT_ATTEMPTS {
      EndIsFair(c, econn);
    } else {
      Append(c.trace, Entered);
      Append(c.trace + [Entered], ConfConn);
    }
  }

  lemma ForwardIsFair(c: Conf)
    requires Fair(c)
    ensures Fair(Forward(c))
  {
    if c.state.ConnSent? {
      Append(c.trace, Forwarded);
    }
  }

  lemma SftIsFair(c: Conf, s: SftMsg, econn: bool)
    requires Fair(c)
    ensures Fair(SftRecv(c, s, econn))
  {
    EndIsFair(c, econn);
    ForwardIsFair(if s.Setup? then Named(c, s.url) else c);
  }

  lemma ClosedIsFair(c: Conf, cause: CloseCause, known: bool, failed: bool, econn: bool)
    requires Fair(c)
    ensures Fair(EcallClose(c, cause, known, failed, econn))
  {
    if cause.Again? {
      ReconnectIsFair(c.(n := c.n.(attempts := 0, expected := 0)), cause.notify, known, failed, econn);
    }
  }

  lemma KeepaliveIsFair(c: Conf, known: bool, failed: bool, econn: bool)
    requires Fair(c)
    ensures Fair(Keepalive(c, known, failed, econn))
  {
    var c1 := c.(tmr := c.tmr.(keepalive := false), n := c.n.(expected := c.n.expected + 1));
    ReconnectIsFair(c1, true, known, failed, econn);
  }

  lemma ConnectTimeoutIsFair(c: Conf, econn: bool)
    requires Fair(c)
    ensures Fair(ConnectTimeout(c, econn))
  {
    EndIsFair(c.(tmr := c.tmr.(connect := false)), econn);
  }

  lemma SimpleStepSendsNothing(c: Conf, e: Event)
    requires e.Start? || e.Answer? || e.Heard? || e.ConfEnd? || e.Answered? || e.DataChan? || e.Media? || e.ConfPart?
             || e.Pinged? || e.OngoingFires? || e.RejectFires? || e.DurationFires?
    ensures Step(c, e).trace == c.trace && (Step(c, e).state.ConnSent? ==> c.state.ConnSent?)
  {
  }

  lemma SimpleStepIsFair(c: Conf, e: Event)
    requires Fair(c)
    requires e.Start? || e.Answer? || e.Heard? || e.ConfEnd? || e.Answered? || e.DataChan? || e.Media? || e.ConfPart?
             || e.Pinged? || e.OngoingFires? || e.RejectFires? || e.DurationFires?
    ensures Fair(Step(c, e))
  {
    SimpleStepSendsNothing(c, e);
  }

  lemma StepIsFair(c: Conf, e: Event)
    requires Fair(c)
    ensures Fair(Step(c, e))
  {
    match e
    case Configured(g, econn) => ConfigIsFair(c, g, econn);
    case FromSft(s, econn) => SftIsFair(c, s, econn);
    case KeepaliveFires(known, failed, econn) => KeepaliveIsFair(c, known, failed, econn);
    case DecryptFires(known, failed, econn) => ReconnectIsFair(c, true, known, failed, econn);
    case ConnectFires(econn) => ConnectTimeoutIsFair(c, econn);
    case AloneFires(econn) => EndIsFair(c, econn);
    case Closed(cause, known, failed, econn) => ClosedIsFair(c, cause, known, failed, econn);
    case Fail(econn) => EndIsFair(c, econn);
    case _ => SimpleStepIsFair(c, e);
  }

  lemma {:induction false} RunIsFair(c: Conf, es: seq<Event>)
    requires Fair(c)
    ensures Fair(Run(c, es))
    decreases |es|
  {
    if |es| > 0 {
      StepIsFair(c, es[0]);
      RunIsFair(Step(c, es[0]), es[1..]);
    }
  }

  /** An open race began at some entry, with nothing handed on after it. */
  lemma {:induction false} OpenSince(trace: seq<Mark>) returns (k: nat)
    requires Open(trace)
    ensures k < |trace| && trace[k].Entered? && forall i | k < i < |trace| :: !trace[i].Forwarded?
  {
    if trace[|trace| - 1].Entered? {
      k := |trace| - 1;
    } else {
      k := OpenSince(trace[..|trace| - 1]);
    }
  }

  /** Over any run, between any two SETUPs or UPDATEs handed on lies an entry to CONNSENT, and one before the first. */
  lemma OneForwardPerEntry(es: seq<Event>, i: int, j: int)
    requires var trace := Run(Alloc(), es).trace;
             0 <= j < |trace| && -1 <= i < j && trace[j].Forwarded? && (i >= 0 ==> trace[i].Forwarded?)
    ensures exists k | i < k < j :: Run(Alloc(), es).trace[k].Entered?
  {
    RunIsFair(Alloc(), es);
    var trace := Run(Alloc(), es).trace;
    var k := OpenSince(trace[..j]);
    assert trace[k] == trace[..j][k];
    assert i >= 0 ==> trace[i] == trace[..j][i];
  }

  // ---------------------------------------------------------------------------------------
  // The call a conference ends up in
  // ---------------------------------------------------------------------------------------

  /** The CONFSTARTs and CONFCHECKs of a run. */
  function MsgsOf(es: seq<Event>): seq<Msg> {
    if |es| == 0 then [] else (if es[0].Heard? then [es[0].m] else []) + MsgsOf(es[1..])
  }

  function AfterHearing(call: Call, e: Event): Call {
    if e.Heard? then Handle(call, e.m) else call
  }

  predicate SameOrCleared(after: Call, before: Call) {
    after == before || after == before.(ts := 0)
  }

  lemma EndChangesCall(c: Conf, econn: bool)
    ensures SameOrCleared(EndWithErr(c, econn).call, c.call)
  {
  }

  lemma SettleKeepsCall(c: Conf, reached: nat, failed: bool)
    ensures Settle(c, reached, failed).call == c.call
  {
  }

  lemma NoneReachedChangesCall(c: Conf, g: Config, failed: bool, econn: bool)
    ensures SameOrCleared(NoneReached(c, g, failed, econn).call, c.call)
  {
    var r := TryEach(FirstThree(g.urls), 0, failed);
    SettleKeepsCall(c, r.0, r.1);
    EndChangesCall(c, econn);
    SettleKeepsCall(EndWithErr(c, econn), 0, true);
    SettleKeepsCall(Join(c, false), 0, true);
  }

  lemma ConfigChangesCall(c: Conf, g: Config, econn: bool)
    ensures SameOrCleared(ConfigUpdate(c, g, econn).call, c.call)
  {
    var r := TryList(g.list, 0, false);
    if !g.current {
    } else if |g.urls| == 0 {
      EndChangesCall(c, econn);
      SettleKeepsCall(EndWithErr(c, econn), 0, false);
    } else if c.state.WaitConfigOutgoing? {
      var q := TryEach(FirstThree(g.urls), 0, false);
      SettleKeepsCall(c, q.0, q.1);
    } else if !c.state.WaitConfig? {
      SettleKeepsCall(c, 0, false);
    } else if |g.list| > 0 {
      SettleKeepsCall(c, r.0, r.1);
      NoneReachedChangesCall(c, g, r.1, econn);
    } else {
      NoneReachedChangesCall(c, g, false, econn);
    }
  }

  lemma ReconnectChangesCall(c: Conf, notify: bool, known: bool, failed: bool, econn: bool)
    ensures SameOrCleared(Reconnect(c, notify, known, failed, econn).call, c.call)
  {
    EndChangesCall(c, econn);
  }

  lemma TimerChangesCall(c: Conf, known: bool, failed: bool, econn: bool)
    ensures SameOrCleared(Keepalive(c, known, failed, econn).call, c.call)
    ensures SameOrCleared(ConnectTimeout(c, econn).call, c.call)
  {
    var c1 := c.(tmr := c.tmr.(keepalive := false), n := c.n.(expected := c.n.expected + 1));
    ReconnectChangesCall(c1, true, known, failed, econn);
    EndChangesCall(c.(tmr := c.tmr.(connect := false)), econn);
  }

  /** A SETUP names the primary SFT of a conference that knows none. */
  predicate Names(c: Conf, e: Event) {
    e.FromSft? && e.s.Setup? && c.state.ConnSent? && |e.s.url| > 0 && |c.call.url| == 0
  }

  /** The SFT tells the conference the timestamp and number of its call: it has none, or it is the caller. */
  predicate Dated(c: Conf, e: Event) {
    e.ConfPart? && (c.caller || (c.call.ts == 0 && c.call.seqno == 0))
  }

  lemma SimpleStepChangesCall(c: Conf, e: Event)
    requires e.Start? || e.Answer? || e.ConfEnd? || e.Answered? || e.DataChan? || e.Media? || e.Pinged?
             || e.OngoingFires? || e.RejectFires? || e.DurationFires?
    ensures SameOrCleared(Step(c, e).call, c.call)
  {
  }

  lemma HearingChangesCall(c: Conf, m: Msg)
    ensures ConfStart(c, m).call == Handle(c.call, m)
  {
  }

  lemma ClosedChangesCall(c: Conf, cause: CloseCause, known: bool, failed: bool, econn: bool)
    ensures SameOrCleared(EcallClose(c, cause, known, failed, econn).call, c.call)
  {
    if cause.Again? {
      ReconnectChangesCall(c.(n := c.n.(attempts := 0, expected := 0)), cause.notify, known, failed, econn);
    }
  }

  lemma SftChangesCall(c: Conf, s: SftMsg, econn: bool)
    requires !Names(c, FromSft(s, econn))
    ensures SameOrCleared(SftRecv(c, s, econn).call, c.call)
  {
    EndChangesCall(c, econn);
  }

  lemma OtherStepChangesCall(c: Conf, e: Event)
    requires !e.Heard? && !e.ConfPart? && !Names(c, e)
    ensures SameOrCleared(Step(c, e).call, c.call)
  {
    match e
    case Configured(g, econn) => ConfigChangesCall(c, g, econn);
    case FromSft(s, econn) => SftChangesCall(c, s, econn);
    case KeepaliveFires(known, failed, econn) => TimerChangesCall(c, known, failed, econn);
    case DecryptFires(known, failed, econn) => ReconnectChangesCall(c, true, known, failed, econn);
    case ConnectFires(econn) => TimerChangesCall(c, false, false, econn);
    case AloneFires(econn) => EndChangesCall(c, econn);
    case Closed(cause, known, failed, econn) => ClosedChangesCall(c, cause, known, failed, econn);
    case Fail(econn) => EndChangesCall(c, econn);
    case _ => SimpleStepChangesCall(c, e);
  }

  /**
   Only hearing of an earlier call changes the call held, save that the SFT dates it or names its primary, and that
   going idle clears its timestamp.
   */
  lemma StepChangesCall(c: Conf, e: Event)
    ensures || Step(c, e).call == AfterHearing(c.call, e)
            || Step(c, e).call == c.call.(ts := 0)
            || (Dated(c, e) && Step(c, e).call == c.call.(ts := e.ts, seqno := e.seqno))
            || (Names(c, e) && Step(c, e).call == c.call.(url := Slashed(e.s.url)))
  {
    if e.Heard? {
      HearingChangesCall(c, e.m);
    } else if !e.ConfPart? && !Names(c, e) {
      OtherStepChangesCall(c, e);
    }
  }

  /** The step leaves the call: it clears the timestamp the conference holds. */
  predicate Leaves(c: Conf, e: Event) {
    c.call.ts > 0 && Step(c, e).call.ts == 0
  }

  /** Along the run the SFT neither dates nor names the call, and the conference does not leave it. */
  predicate StaysInCall(c: Conf, es: seq<Event>)
    decreases |es|
  {
    |es| == 0 ||
    (!Dated(c, es[0]) && !Names(c, es[0]) && !Leaves(c, es[0]) && StaysInCall(Step(c, es[0]), es[1..]))
  }

  lemma StayingOnlyHears(c: Conf, e: Event)
    requires !Dated(c, e) && !Names(c, e) && !Leaves(c, e)
    ensures Step(c, e).call == AfterHearing(c.call, e)
  {
    if e.Heard? {
      HearingChangesCall(c, e.m);
    } else if !e.ConfPart? {
      OtherStepChangesCall(c, e);
      assert c.call.ts == 0 ==> c.call.(ts := 0) == c.call;
    }
  }

  lemma {:induction false} HandleFirst(local: Call, m: Msg, ms: seq<Msg>)
    ensures HandleAll(local, [m] + ms) == HandleAll(Handle(local, m), ms)
    decreases |ms|
  {
    var all := [m] + ms;
    if |ms| == 0 {
      assert all[..0] == [] && HandleAll(local, all[..0]) == local;
    } else {
      assert all[..|all| - 1] == [m] + ms[..|ms| - 1];
      HandleFirst(local, m, ms[..|ms| - 1]);
    }
  }

  lemma {:induction false} RunHandlesAll(c: Conf, es: seq<Event>)
    requires StaysInCall(c, es)
    ensures Run(c, es).call == HandleAll(c.call, MsgsOf(es))
    decreases |es|
  {
    if |es| > 0 {
      StayingOnlyHears(c, es[0]);
      RunHandlesAll(Step(c, es[0]), es[1..]);
      if es[0].Heard? {
        HandleFirst(c.call, es[0].m, MsgsOf(es[1..]));
      } else {
        assert MsgsOf(es) == MsgsOf(es[1..]);
      }
    }
  }

  /**
   From any point on, whatever else happens meanwhile, a conference that stays in its call is in the earliest of
   that call and those it is told of.
   */
  lemma ConferenceIsInEarliestCall(before: seq<Event>, es: seq<Event>)
    requires var c := Run(Alloc(), before);
             StaysInCall(c, es) && Real(Known(c.call, MsgsOf(es))) && Known(c.call, MsgsOf(es)) != {}
    ensures var c := Run(Alloc(), before);
            IsEarliest(Run(c, es).call, Known(c.call, MsgsOf(es)))
  {
    var c := Run(Alloc(), before);
    RunHandlesAll(c, es);
    EndsWithEarliest(c.call, MsgsOf(es));
  }
}
