/**
 Who owns the media flows of a one-to-one call (src/ecall/ecall.c): `flow` is in use, `oldflow` is the one it
 replaced. Flows are numbered in the order they are made; `closes` is every close a flow was given, in order.

 What the media layer and the connection answer is input: whether a flow could be made, whether a later step of
 a handler fails, and which way a handler branches on the connection's state.
 */
module MediaFlow {

  const NONE: int := -1

  datatype Flows = Flows(flow: int, oldflow: int, made: nat, closes: seq<int>)

  /** What iflow_alloc did: a flow, an error, or an error that leaves a flow behind. */
  datatype Made = Fine | Failed | Broken

  function Init(): Flows {
    Flows(NONE, NONE, 0, [])
  }

  function CloseFlow(t: Flows, f: int): Flows {
    if f == NONE then t else t.(closes := t.closes + [f])
  }

  /** The flow in use becomes the replaced one, and the one replaced before is closed. */
  function Retire(t: Flows): Flows {
    CloseFlow(t, t.oldflow).(oldflow := t.flow, flow := NONE)
  }

  /** What iflow_alloc made comes into use, or is closed at once. */
  function Fill(t: Flows, made: Made): Flows {
    match made
    case Fine => t.(flow := t.made, made := t.made + 1)
    case Failed => t
    case Broken => CloseFlow(t.(made := t.made + 1), t.made)
  }

  /** alloc_flow */
  function AllocFlow(t: Flows, made: Made): Flows {
    Fill(Retire(t), made)
  }

  /** The closing part of ecall_close and of the destructor. */
  function CloseCall(t: Flows): Flows {
    CloseFlow(CloseFlow(t.(flow := NONE, oldflow := NONE), t.flow), t.oldflow)
  }

  /** A handler that replaces the flow when told to, and closes the call if that or a later step fails. */
  function Replacing(t: Flows, needed: bool, made: Made, laterErr: bool): Flows {
    var t1 := if needed then AllocFlow(t, made) else t;
    if (needed && !made.Fine?) || laterErr then CloseCall(t1) else t1
  }

  /** ecall_restart: only in the answered and later states; a conference is told to reconnect instead. */
  function Restart(t: Flows, restartable: bool, conference: bool, made: Made): Flows {
    if restartable && !conference then AllocFlow(t, made) else t
  }

  /** The flow that was replaced is no longer needed. */
  function DropOld(t: Flows): Flows {
    CloseFlow(t.(oldflow := NONE), t.oldflow)
  }

  function AfterEstab(t: Flows, delayed: bool, conference: bool, made: Made, laterErr: bool): Flows {
    if delayed then Restart(t, true, conference, made) else if laterErr then CloseCall(t) else t
  }

  /** channel_estab_handler */
  function ChannelEstab(t: Flows, f: int, delayed: bool, conference: bool, made: Made, laterErr: bool): Flows {
    if f != t.flow then t else AfterEstab(DropOld(t), delayed, conference, made, laterErr)
  }

  /** How a handler goes on about the flow in use: it restarts, ends through the connection, or closes the call. */
  datatype Course = Restarting(conference: bool, made: Made) | Ending | Closing

  function Follow(t: Flows, course: Course): Flows {
    match course
    case Restarting(conference, made) => Restart(t, true, conference, made)
    case Ending => t
    case Closing => CloseCall(t)
  }

  /** mf_close_handler */
  function FlowClosed(t: Flows, f: int, course: Course): Flows {
    if f == t.oldflow then DropOld(t)
    else if f != t.flow then t
    else Follow(t, course)
  }

  /** channel_close_handler and mf_restart_handler. */
  function ChannelLost(t: Flows, f: int, course: Course): Flows {
    if f != t.flow then t else Follow(t, course)
  }

  datatype Event =
    | Start(inProgress: bool, made: Made)                                     // ecall_start
    | Conn(reset: bool, made: Made, laterErr: bool)                           // econn_conn_handler
    | UpdateReq(streamChange: bool, made: Made, laterErr: bool)               // econn_update_req_handler
    | Answer(reset: bool, made: Made, laterErr: bool)                         // econn_answer_handler
    | RestartCall(restartable: bool, conference: bool, made: Made)            // ecall_restart
    | Estab(f: int, delayed: bool, conference: bool, made: Made, laterErr: bool)
    | Closed(f: int, course: Course)
    | Lost(f: int, course: Course)
    | Close                                                                   // ecall_close from anywhere else

  function Step(t: Flows, e: Event): Flows {
    match e
    case Start(inProgress, made) => if inProgress then t else AllocFlow(t, made)
    case Conn(reset, made, laterErr) => Replacing(t, reset || t.flow == NONE, made, laterErr)
    case UpdateReq(streamChange, made, laterErr) => Replacing(t, t.flow == NONE || !streamChange, made, laterErr)
    case Answer(reset, made, laterErr) => Replacing(t, reset, made, reset && laterErr)
    case RestartCall(restartable, conference, made) => Restart(t, restartable, conference, made)
    case Estab(f, delayed, conference, made, laterErr) => ChannelEstab(t, f, delayed, conference, made, laterErr)
    case Closed(f, course) => FlowClosed(t, f, course)
    case Lost(f, course) => ChannelLost(t, f, course)
    case Close => CloseCall(t)
  }

  function Run(t: Flows, es: seq<Event>): Flows
    decreases |es|
  {
    if es == [] then t else Run(Step(t, es[0]), es[1..])
  }

  // ---------------------------------------------------------------------------------------
  // Ownership
  // ---------------------------------------------------------------------------------------

  function Owned(t: Flows): set<int> {
    {t.flow, t.oldflow} - {NONE}
  }

  function Unclosed(t: Flows): set<int> {
    set f | 0 <= f < t.made && f !in t.closes
  }

  predicate NoRepeats(s: seq<int>) {
    forall i, j | 0 <= i < j < |s| :: s[i] != s[j]
  }

  predicate IsFlow(t: Flows, f: int) {
    0 <= f < t.made
  }

  predicate Held(t: Flows, f: int) {
    f != NONE ==> IsFlow(t, f) && f !in t.closes
  }

  /** The flows that are made and not closed are the owned ones, and no close is repeated. */
  ghost predicate Inv(t: Flows) {
    && Held(t, t.flow) && Held(t, t.oldflow) && (t.flow != NONE ==> t.flow != t.oldflow)
    && (forall i | 0 <= i < |t.closes| :: IsFlow(t, t.closes[i])) && NoRepeats(t.closes)
    && (forall f | IsFlow(t, f) :: f in t.closes || f == t.flow || f == t.oldflow)
  }

  /** Giving a held flow its close, once no field points at it any more. */
  lemma ClosingOne(t: Flows, u: Flows, f: int)
    requires u == CloseFlow(t, f)
    requires Held(t, t.flow) && Held(t, t.oldflow) && Held(t, f) && (t.flow != NONE ==> t.flow != t.oldflow)
    requires f != NONE ==> f != t.flow && f != t.oldflow
    requires (forall i | 0 <= i < |t.closes| :: IsFlow(t, t.closes[i])) && NoRepeats(t.closes)
    requires forall g | IsFlow(t, g) :: g in t.closes || g == t.flow || g == t.oldflow || g == f
    ensures Inv(u)
  {
  }

  lemma AllocKeepsInv(t: Flows, made: Made)
    requires Inv(t)
    ensures Inv(AllocFlow(t, made))
  {
    var t0 := t.(oldflow := t.flow, flow := NONE);
    var t1 := CloseFlow(t0, t.oldflow);
    ClosingOne(t0, t1, t.oldflow);
    match made
    case Fine =>
    case Failed =>
    case Broken => ClosingOne(t1.(made := t.made + 1), AllocFlow(t, made), t.made);
  }

  lemma CloseCallKeepsInv(t: Flows)
    requires Inv(t)
    ensures Inv(CloseCall(t)) && CloseCall(t).made == t.made
    ensures CloseCall(t).flow == NONE == CloseCall(t).oldflow
  {
    var t1 := CloseFlow(t.(flow := NONE), t.flow);
    ClosingOne(t.(flow := NONE), t1, t.flow);
    ClosingOne(t1.(oldflow := NONE), CloseCall(t), t.oldflow);
  }

  lemma DropOldKeepsInv(t: Flows)
    requires Inv(t)
    ensures Inv(DropOld(t))
  {
    ClosingOne(t.(oldflow := NONE), DropOld(t), t.oldflow);
  }

  lemma FollowKeepsInv(t: Flows, course: Course)
    requires Inv(t)
    ensures Inv(Follow(t, course))
  {
    if course.Restarting? {
      AllocKeepsInv(t, course.made);
    }
    CloseCallKeepsInv(t);
  }

  lemma ReplacingKeepsInv(t: Flows, needed: bool, made: Made, laterErr: bool)
    requires Inv(t)
    ensures Inv(Replacing(t, needed, made, laterErr))
  {
    AllocKeepsInv(t, made);
    CloseCallKeepsInv(if needed then AllocFlow(t, made) else t);
  }

  lemma EstabKeepsInv(t: Flows, f: int, delayed: bool, conference: bool, made: Made, laterErr: bool)
    requires Inv(t)
    ensures Inv(ChannelEstab(t, f, delayed, conference, made, laterErr))
  {
    DropOldKeepsInv(t);
    AllocKeepsInv(DropOld(t), made);
    CloseCallKeepsInv(DropOld(t));
  }

  lemma StepKeepsInv(t: Flows, e: Event)
    requires Inv(t)
    ensures Inv(Step(t, e))
  {
    match e
    case Start(_, made) => AllocKeepsInv(t, made);
    case Conn(reset, made, laterErr) => ReplacingKeepsInv(t, reset || t.flow == NONE, made, laterErr);
    case UpdateReq(streamChange, made, laterErr) =>
      ReplacingKeepsInv(t, t.flow == NONE || !streamChange, made, laterErr);
    case Answer(reset, made, laterErr) => ReplacingKeepsInv(t, reset, made, reset && laterErr);
    case RestartCall(_, _, made) => AllocKeepsInv(t, made);
    case Estab(f, delayed, conference, made, laterErr) => EstabKeepsInv(t, f, delayed, conference, made, laterErr);
    case Closed(_, course) =>
      DropOldKeepsInv(t);
      FollowKeepsInv(t, course);
    case Lost(_, course) => FollowKeepsInv(t, course);
    case Close => CloseCallKeepsInv(t);
  }

  lemma {:induction false} RunKeepsInv(t: Flows, es: seq<Event>)
    requires Inv(t)
    ensures Inv(Run(t, es))
    decreases |es|
  {
    if es != [] {
      StepKeepsInv(t, es[0]);
      RunKeepsInv(Step(t, es[0]), es[1..]);
    }
  }

  lemma {:induction false} CountOfRepeatless(s: seq<int>, f: int)
    requires NoRepeats(s)
    ensures multiset(s)[f] == if f in s then 1 else 0
  {
    if |s| > 0 {
      var last := s[|s| - 1];
      assert s == s[..|s| - 1] + [last];
      CountOfRepeatless(s[..|s| - 1], f);
    }
  }

  /**
   After any run: the flows made and not closed are exactly those the call still points at, and no flow was
   closed twice.
   */
  lemma OwnershipHolds(es: seq<Event>, f: int)
    ensures var t := Run(Init(), es);
            Unclosed(t) == Owned(t) && multiset(t.closes)[f] <= 1
  {
    RunKeepsInv(Init(), es);
    var t := Run(Init(), es);
    CountOfRepeatless(t.closes, f);
    forall g ensures g in Unclosed(t) <==> g in Owned(t) {
      assert IsFlow(t, g) <==> 0 <= g < t.made;
    }
  }

  /** And once the call is destroyed, every flow it ever made was closed exactly once. */
  lemma EveryFlowClosedOnce(es: seq<Event>, f: int)
    requires 0 <= f < Run(Init(), es).made
    ensures multiset(CloseCall(Run(Init(), es)).closes)[f] == 1
  {
    RunKeepsInv(Init(), es);
    var t := Run(Init(), es);
    CloseCallKeepsInv(t);
    assert IsFlow(CloseCall(t), f);
    CountOfRepeatless(CloseCall(t).closes, f);
  }
}
