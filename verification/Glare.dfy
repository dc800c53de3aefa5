/**
 Two connections facing each other over in-order lossless queues (src/econn/econn.c): SETUP
 glare when both sides call at once, then any number of UPDATE rounds with UPDATE glare.

 The peer that econn_iswinner favours is called W, the other one L. Each side may mark itself
 outgoing early (as ecall_start does), sends its SETUP at most once, answers when it owes an
 answer, and asks for an UPDATE only from ANSWERED or DATACHAN_ESTABLISHED. Ends and timeouts
 are not part of these runs.

 The proof goes through a small abstract protocol: `Peer` keeps of a connection only the state,
 the glare verdict and the kinds of the queued messages.
 */
module Glare {
  import opened Ids
  import opened Econn

  // ---------------------------------------------------------------------------------------
  // The system of two connections
  // ---------------------------------------------------------------------------------------

  /** What one side has done so far. */
  datatype History = History(
    sentSetup: bool,      // its SETUP request went out
    setupResps: nat,      // SETUP responses it sent
    asked: nat,           // UPDATE requests it sent
    replied: nat,         // UPDATE responses it sent
    dropped: nat,         // UPDATE requests that reached it and were not taken up
    accepted: nat)        // UPDATE responses it took

  datatype Side = Side(conn: Conn, inbox: seq<Msg>, past: History)

  datatype Sys = Sys(w: Side, l: Side)

  datatype Move = Preset | Call | Reply | AskUpdate | ReplyUpdate | OpenChannel | Deliver

  /** `byW` tells which side moves; `Deliver` hands that side its oldest queued message. */
  datatype Turn = Turn(byW: bool, move: Move)

  function Act(me: Side, peer: Side, move: Move): (Side, Side) {
    var c := me.conn;
    match move
    case Deliver =>
      if me.inbox == [] then (me, peer)
      else
        var m := me.inbox[0];
        var d := Recv(c, peer.conn.self.user, peer.conn.self.client, m, 0);
        var dropped := m.kind.Update? && !m.resp && !(!c.state.UpdateRecv? && d.state.UpdateRecv?);
        var accepted := m.kind.Update? && m.resp && c.state.UpdateSent? && d.state.Answered?;
        (Side(d, me.inbox[1..], me.past.(dropped := me.past.dropped + if dropped then 1 else 0,
                                         accepted := me.past.accepted + if accepted then 1 else 0)),
         peer)
    case Preset => Emit(me, peer, MarkOutgoing(c), me.past)
    case OpenChannel => Emit(me, peer, DataChan(c), me.past)
    case Call =>
      if me.past.sentSetup then (me, peer)
      else
        var d := Start(c, 0).0;
        Emit(me, peer, d, me.past.(sentSetup := |d.outbox| > |c.outbox|))
    case Reply =>
      var d := Answer(c, 0).0;
      Emit(me, peer, d, me.past.(setupResps := me.past.setupResps + if |d.outbox| > |c.outbox| then 1 else 0))
    case AskUpdate =>
      if !Established(c.state) then (me, peer)
      else Emit(me, peer, UpdateReq(c, 0).0, me.past.(asked := me.past.asked + 1))
    case ReplyUpdate =>
      var d := UpdateResp(c, 0).0;
      Emit(me, peer, d, me.past.(replied := me.past.replied + if |d.outbox| > |c.outbox| then 1 else 0))
  }

  /** `me` becomes d, and whatever d newly put into its outbox travels to the peer. */
  function Emit(me: Side, peer: Side, d: Conn, past: History): (Side, Side) {
    var mail := if |me.conn.outbox| <= |d.outbox| then d.outbox[|me.conn.outbox|..] else [];
    (Side(d, me.inbox, past), peer.(inbox := peer.inbox + mail))
  }

  function Next(s: Sys, t: Turn): Sys {
    if t.byW then
      var (a, b) := Act(s.w, s.l, t.move); Sys(a, b)
    else
      var (a, b) := Act(s.l, s.w, t.move); Sys(b, a)
  }

  function Play(s: Sys, turns: seq<Turn>): Sys
    decreases |turns|
  {
    if turns == [] then s else Play(Next(s, turns[0]), turns[1..])
  }

  const NEWBORN := History(false, 0, 0, 0, 0, 0)

  /** The identifiers that the fields of a connection can hold. */
  predicate ValidId(s: string) {
    0 < |s| < ID_LEN
  }

  /** A connection as econn_alloc hands it out to a holder with valid ids. */
  predicate Newly(c: Conn) {
    && c.state.Idle? && |c.remote.user| == 0 && |c.remote.client| == 0 && c.conflict == 0
    && ValidId(c.self.user) && ValidId(c.self.client) && |c.self.sess| < ID_LEN
  }

  lemma AllocIsNewlyIff(conf: Conf, user: string, client: string, sess: string)
    ensures Newly(Alloc(conf, user, client, sess)) <==> ValidId(user) && ValidId(client)
  {
  }

  /** A longer id is cut off when it is put on record, and then its holder is never heard again. */
  lemma LongIdIsNotHeard(c: Conn, user: string, client: string, m: Msg, sendErr: int)
    requires c.remote.client == Stored(client) && |client| >= ID_LEN && !m.kind.Hangup?
    ensures Recv(c, user, client, m, sendErr).(remote := c.remote) == c
  {
    RecognisedIff(client);
  }

  /** Two freshly allocated connections, the winner first. */
  predicate Initial(s: Sys) {
    && Newly(s.w.conn) && Newly(s.l.conn)
    && |s.w.inbox| == 0 && |s.l.inbox| == 0 && s.w.past == NEWBORN && s.l.past == NEWBORN
    && IsWinner(s.w.conn.self.user, s.w.conn.self.client, s.l.conn.self.user, s.l.conn.self.client)
  }

  /** Any two different clients with valid ids make up an initial system, one way round. */
  lemma AnyTwoClientsMeet(a: Conn, b: Conn)
    requires Newly(a) && Newly(b)
    requires (a.self.user, a.self.client) != (b.self.user, b.self.client)
    ensures var x, y := Side(a, [], NEWBORN), Side(b, [], NEWBORN);
            Initial(Sys(x, y)) <==> !Initial(Sys(y, x))
  {
    ExactlyOneWinner(a.self.user, a.self.client, b.self.user, b.self.client);
  }

  // ---------------------------------------------------------------------------------------
  // The abstract protocol
  // ---------------------------------------------------------------------------------------

  datatype Tok = SReq | SResp | UReq | UResp

  datatype Peer = Peer(st: State, verdict: int, inbox: seq<Tok>, past: History)

  datatype Pair = Pair(w: Peer, l: Peer)

  /** The state after taking a message of kind t; `won` tells who wins glare. */
  function After(st: State, t: Tok, won: bool): State {
    match t
    case SReq =>
      (match st
       case Idle | Answered | DataChanEstablished | UpdateSent => PendingIncoming
       case PendingOutgoing => if won then st else ConflictResolution
       case _ => st)
    case SResp => if st.PendingOutgoing? || st.ConflictResolution? then Answered else st
    case UReq =>
      if Established(st) || (st.UpdateSent? && !won) then UpdateRecv else st
    case UResp => if st.UpdateSent? then Answered else st
  }

  function Take(me: Peer, won: bool): Peer
    requires me.inbox != []
  {
    var t := me.inbox[0];
    var st := After(me.st, t, won);
    Peer(st,
         if t.SReq? && me.st.PendingOutgoing? then (if won then 1 else -1) else me.verdict,
         me.inbox[1..],
         me.past.(dropped := me.past.dropped + if t.UReq? && !(st.UpdateRecv? && !me.st.UpdateRecv?) then 1 else 0,
                  accepted := me.past.accepted + if t.UResp? && me.st.UpdateSent? then 1 else 0))
  }

  function Put(peer: Peer, t: Tok): Peer {
    peer.(inbox := peer.inbox + [t])
  }

  function AbsAct(me: Peer, peer: Peer, won: bool, move: Move): (Peer, Peer) {
    match move
    case Deliver => if me.inbox == [] then (me, peer) else (Take(me, won), peer)
    case Preset => (if me.st.Idle? then me.(st := PendingOutgoing) else me, peer)
    case OpenChannel => (if me.st.Answered? then me.(st := DataChanEstablished) else me, peer)
    case Call =>
      if !me.past.sentSetup && (me.st.Idle? || me.st.PendingOutgoing?)
      then (me.(st := PendingOutgoing, past := me.past.(sentSetup := true)), Put(peer, SReq))
      else (me, peer)
    case Reply =>
      if me.st.PendingIncoming? || me.st.ConflictResolution?
      then (me.(st := Answered, past := me.past.(setupResps := me.past.setupResps + 1)), Put(peer, SResp))
      else (me, peer)
    case AskUpdate =>
      if Established(me.st)
      then (me.(st := UpdateSent, past := me.past.(asked := me.past.asked + 1)), Put(peer, UReq))
      else (me, peer)
    case ReplyUpdate =>
      if me.st.UpdateRecv?
      then (me.(st := Answered, past := me.past.(replied := me.past.replied + 1)), Put(peer, UResp))
      else (me, peer)
  }

  function AbsNext(p: Pair, t: Turn): Pair {
    if t.byW then
      var (a, b) := AbsAct(p.w, p.l, true, t.move); Pair(a, b)
    else
      var (a, b) := AbsAct(p.l, p.w, false, t.move); Pair(b, a)
  }

  // ---------------------------------------------------------------------------------------
  // Invariant of the abstract protocol
  // ---------------------------------------------------------------------------------------

  /** A round is opened by a SETUP or by an UPDATE request. */
  datatype Round = SetupRound | UpdateRound

  function Req(k: Round): Tok { if k.SetupRound? then SReq else UReq }
  function Resp(k: Round): Tok { if k.SetupRound? then SResp else UResp }

  predicate Asking(p: Peer, k: Round) {
    if k.SetupRound? then p.st.PendingOutgoing? && p.past.sentSetup else p.st.UpdateSent?
  }

  predicate Owing(p: Peer, k: Round) {
    if k.SetupRound? then p.st.PendingIncoming? || p.st.ConflictResolution? else p.st.UpdateRecv?
  }

  /** No SETUP has been taken up yet; W may already have dropped the one of L. */
  predicate Opening(p: Pair) {
    && (p.w.st.Idle? || p.w.st.PendingOutgoing?) && (p.l.st.Idle? || p.l.st.PendingOutgoing?)
    && (p.w.st.Idle? ==> !p.w.past.sentSetup) && (p.l.st.Idle? ==> !p.l.past.sentSetup)
    && p.l.verdict == 0
    && (p.w.verdict == 1 ==> p.l.past.sentSetup && p.w.st.PendingOutgoing?)
    && p.l.inbox == (if p.w.past.sentSetup then [SReq] else [])
    && p.w.inbox == (if p.l.past.sentSetup && p.w.verdict == 0 then [SReq] else [])
  }

  /** L took the request of W up; its own crossing request may still be on its way to W. */
  predicate LAnswers(p: Pair, k: Round) {
    && Asking(p.w, k) && p.l.inbox == []
    && ( || (Owing(p.l, k) && (p.w.inbox == [] || p.w.inbox == [Req(k)]))
         || (Established(p.l.st) && (p.w.inbox == [Resp(k)] || p.w.inbox == [Req(k), Resp(k)]))
         || (p.l.st.UpdateSent? && (p.w.inbox == [Resp(k), UReq] || p.w.inbox == [Req(k), Resp(k), UReq])))
  }

  /** W took the request of L up, having none of its own. */
  predicate WAnswers(p: Pair, k: Round) {
    && Asking(p.l, k) && p.w.inbox == []
    && ( || (Owing(p.w, k) && p.l.inbox == [])
         || (Established(p.w.st) && p.l.inbox == [Resp(k)])
         || (p.w.st.UpdateSent? && p.l.inbox == [Resp(k), UReq]))
  }

  predicate Settled(p: Pair) {
    Established(p.w.st) && Established(p.l.st) && p.w.inbox == [] && p.l.inbox == []
  }

  /** Requests for an UPDATE under way that nobody has taken up yet. */
  predicate Requested(p: Pair) {
    || (p.w.st.UpdateSent? && Established(p.l.st) && p.l.inbox == [UReq] && p.w.inbox == [])
    || (p.l.st.UpdateSent? && Established(p.w.st) && p.w.inbox == [UReq] && p.l.inbox == [])
    || (p.w.st.UpdateSent? && p.l.st.UpdateSent? && p.l.inbox == [UReq] && (p.w.inbox == [] || p.w.inbox == [UReq]))
  }

  predicate Phase(p: Pair) {
    || Opening(p)
    || LAnswers(p, SetupRound) || WAnswers(p, SetupRound)
    || LAnswers(p, UpdateRound) || WAnswers(p, UpdateRound)
    || Settled(p) || Requested(p)
  }

  /** W never loses and L never wins. */
  predicate Verdicts(p: Pair) {
    && (p.w.verdict == 0 || p.w.verdict == 1) && (p.l.verdict == 0 || p.l.verdict == -1)
    && !p.w.st.ConflictResolution?
  }

  function Count(ts: seq<Tok>, t: Tok): nat {
    if |ts| == 0 then 0 else (if ts[0] == t then 1 else 0) + Count(ts[1..], t)
  }

  function Bit(b: bool): nat { if b then 1 else 0 }

  /** Of the UPDATE requests `a` sent, each was answered, dropped, is queued, or is being handled. */
  predicate Accounted(a: Peer, b: Peer) {
    && a.past.asked == b.past.replied + b.past.dropped + Count(b.inbox, UReq) + Bit(b.st.UpdateRecv?)
    && b.past.replied == a.past.accepted + Count(a.inbox, UResp)
  }

  predicate Accounts(p: Pair) {
    && Accounted(p.w, p.l) && Accounted(p.l, p.w)
    && p.l.past.dropped == 0
    && p.w.past.setupResps + p.l.past.setupResps == Bit(!Early(p.w.st) || !Early(p.l.st))
  }

  /** The states before an answer. */
  predicate Early(st: State) {
    st.Idle? || st.PendingOutgoing? || st.PendingIncoming? || st.ConflictResolution?
  }

  predicate Inv(p: Pair) {
    Phase(p) && Verdicts(p) && Accounts(p)
  }

  lemma {:induction false} CountSnoc(ts: seq<Tok>, x: Tok, t: Tok)
    ensures Count(ts + [x], t) == Count(ts, t) + Bit(x == t)
  {
    if ts != [] {
      CountSnoc(ts[1..], x, t);
      assert (ts + [x])[1..] == ts[1..] + [x];
    } else {
      assert ts + [x] == [x];
    }
  }

  lemma FromOpening(p: Pair, t: Turn)
    requires Opening(p) && Verdicts(p)
    ensures Phase(AbsNext(p, t)) && Verdicts(AbsNext(p, t))
  {
  }

  lemma WFromLAnswers(p: Pair, k: Round, move: Move)
    requires LAnswers(p, k) && Verdicts(p)
    ensures var q := AbsNext(p, Turn(true, move)); Phase(q) && Verdicts(q)
  {
  }

  lemma LFromLAnswers(p: Pair, k: Round, move: Move)
    requires LAnswers(p, k) && Verdicts(p)
    ensures var q := AbsNext(p, Turn(false, move)); LAnswers(q, k) && Verdicts(q)
  {
  }

  lemma FromLAnswers(p: Pair, k: Round, t: Turn)
    requires LAnswers(p, k) && Verdicts(p)
    ensures Phase(AbsNext(p, t)) && Verdicts(AbsNext(p, t))
  {
    if t.byW {
      WFromLAnswers(p, k, t.move);
    } else {
      LFromLAnswers(p, k, t.move);
    }
  }

  lemma FromWAnswers(p: Pair, k: Round, t: Turn)
    requires WAnswers(p, k) && Verdicts(p)
    ensures Phase(AbsNext(p, t)) && Verdicts(AbsNext(p, t))
  {
  }

  lemma FromSettled(p: Pair, t: Turn)
    requires Settled(p) && Verdicts(p)
    ensures Phase(AbsNext(p, t)) && Verdicts(AbsNext(p, t))
  {
  }

  lemma FromRequested(p: Pair, t: Turn)
    requires Requested(p) && Verdicts(p)
    ensures Phase(AbsNext(p, t)) && Verdicts(AbsNext(p, t))
  {
  }

  lemma PhaseKept(p: Pair, t: Turn)
    requires Phase(p) && Verdicts(p)
    ensures Phase(AbsNext(p, t)) && Verdicts(AbsNext(p, t))
  {
    if Opening(p) { FromOpening(p, t); }
    else if LAnswers(p, SetupRound) { FromLAnswers(p, SetupRound, t); }
    else if WAnswers(p, SetupRound) { FromWAnswers(p, SetupRound, t); }
    else if LAnswers(p, UpdateRound) { FromLAnswers(p, UpdateRound, t); }
    else if WAnswers(p, UpdateRound) { FromWAnswers(p, UpdateRound, t); }
    else if Settled(p) { FromSettled(p, t); }
    else { FromRequested(p, t); }
  }

  /** The message a peer takes next is one its state expects. */
  predicate ExpectsNext(me: Peer) {
    |me.inbox| > 0 ==> Expects(me.st, me.inbox[0])
  }

  predicate Expects(st: State, t: Tok) {
    match t
    case SReq => st.Idle? || st.PendingOutgoing?
    case SResp => st.PendingOutgoing?
    case UReq => Established(st) || st.UpdateSent?
    case UResp => st.UpdateSent?
  }

  /** An answer is under way only once somebody answered, and nobody answers twice. */
  predicate AnswersInOrder(me: Peer, peer: Peer) {
    && (me.st.PendingIncoming? || me.st.ConflictResolution? ==> Early(peer.st))
    && (me.inbox != [] && me.inbox[0].SResp? ==> !Early(peer.st))
  }

  lemma PhaseImplies(p: Pair)
    requires Phase(p) && Verdicts(p)
    ensures ExpectsNext(p.w) && ExpectsNext(p.l)
    ensures AnswersInOrder(p.w, p.l) && AnswersInOrder(p.l, p.w)
  {
  }

  lemma ActKeepsAccounts(me: Peer, peer: Peer, won: bool, move: Move)
    requires Accounted(me, peer) && Accounted(peer, me) && ExpectsNext(me)
    ensures var (a, b) := AbsAct(me, peer, won, move); Accounted(a, b) && Accounted(b, a)
    ensures !won ==> AbsAct(me, peer, won, move).0.past.dropped == me.past.dropped
    ensures AbsAct(me, peer, won, move).1.past == peer.past
  {
    forall x, t { CountSnoc(peer.inbox, x, t); }
  }

  lemma ActKeepsAnswerCount(me: Peer, peer: Peer, won: bool, move: Move)
    requires ExpectsNext(me) && AnswersInOrder(me, peer)
    requires me.past.setupResps + peer.past.setupResps == Bit(!Early(me.st) || !Early(peer.st))
    ensures var (a, b) := AbsAct(me, peer, won, move);
            a.past.setupResps + b.past.setupResps == Bit(!Early(a.st) || !Early(b.st))
  {
  }

  lemma InvKept(p: Pair, t: Turn)
    requires Inv(p)
    ensures Inv(AbsNext(p, t))
  {
    PhaseKept(p, t);
    PhaseImplies(p);
    if t.byW {
      ActKeepsAccounts(p.w, p.l, true, t.move);
      ActKeepsAnswerCount(p.w, p.l, true, t.move);
    } else {
      ActKeepsAccounts(p.l, p.w, false, t.move);
      ActKeepsAnswerCount(p.l, p.w, false, t.move);
    }
  }

  // ---------------------------------------------------------------------------------------
  // The connections refine the abstract protocol
  // ---------------------------------------------------------------------------------------

  function TokOf(m: Msg): Tok {
    if m.kind.Setup? then (if m.resp then SResp else SReq) else (if m.resp then UResp else UReq)
  }

  function Toks(ms: seq<Msg>): (ts: seq<Tok>)
    ensures |ts| == |ms|
  {
    seq(|ms|, i requires 0 <= i < |ms| => TokOf(ms[i]))
  }

  function Abs(x: Side): Peer {
    Peer(x.conn.state, x.conn.conflict, Toks(x.inbox), x.past)
  }

  function AbsSys(s: Sys): Pair {
    Pair(Abs(s.w), Abs(s.l))
  }

  function Known(p: Self): Remote {
    Remote(p.user, p.client, p.sess)
  }

  predicate FromPeer(m: Msg, p: Self) {
    (m.kind.Setup? || m.kind.Update?) && m.sessid == p.sess
  }

  /** What c knows of the peer p is right, and complete once a SETUP was taken up. */
  predicate Trusts(c: Conn, p: Self) {
    && ValidId(p.user) && ValidId(p.client) && |p.sess| < ID_LEN
    && (c.remote.user == "" || c.remote.user == p.user)
    && (c.remote.client == "" || c.remote.client == p.client)
    && (!c.state.Idle? && !c.state.PendingOutgoing? ==> c.remote == Known(p))
  }

  predicate Linked(me: Side, peer: Side) {
    && Trusts(me.conn, peer.conn.self)
    && forall i | 0 <= i < |me.inbox| :: FromPeer(me.inbox[i], peer.conn.self)
  }

  /** How a message of the peer changes c; the ids and sessions it carries all match. */
  predicate Takes(c: Conn, d: Conn, p: Self, t: Tok, won: bool) {
    && d.state == After(c.state, t, won)
    && d.conflict == (if t.SReq? && c.state.PendingOutgoing? then (if won then 1 else -1) else c.conflict)
    && d.self == c.self && d.outbox == c.outbox && Trusts(d, p)
  }

  /** Past the checks of recv_setup the peer is on record. */
  lemma SetupPassesChecks(c: Conn, p: Self, m: Msg, won: bool)
    requires Trusts(c, p) && won == IsWinner(c.self.user, c.self.client, p.user, p.client)
    ensures var c2 := c.(remote := c.remote.(user := p.user, client := p.client));
            RecvSetup(c, p.user, p.client, m)
            == if m.resp then HandleSetupResponse(c2, m) else HandleSetupRequest(c2, won, m)
  {
    assert Stored(p.user) == p.user && Stored(p.client) == p.client;
    assert SameId(p.user, p.user) && SameId(p.client, p.client);
  }

  lemma SetupIsTaken(c: Conn, p: Self, m: Msg, won: bool)
    requires Trusts(c, p) && FromPeer(m, p) && m.kind.Setup?
    requires won == IsWinner(c.self.user, c.self.client, p.user, p.client)
    requires c.state.PendingOutgoing? || (c.state.Idle? && !m.resp)
    ensures Takes(c, RecvSetup(c, p.user, p.client, m), p, TokOf(m), won)
  {
    SetupPassesChecks(c, p, m, won);
  }

  lemma UpdateIsTaken(c: Conn, p: Self, m: Msg, won: bool)
    requires Trusts(c, p) && FromPeer(m, p) && m.kind.Update? && c.remote == Known(p)
    requires won == IsWinner(c.self.user, c.self.client, p.user, p.client)
    ensures Takes(c, RecvUpdate(c, p.user, p.client, m), p, TokOf(m), won)
  {
  }

  /** A step that leaves ids alone and sends either nothing or one message is an abstract `Put`. */
  lemma EmitRefines(me: Side, peer: Side, d: Conn, past: History, sent: seq<Msg>)
    requires Linked(me, peer) && Linked(peer, me)
    requires d.self == me.conn.self && Trusts(d, peer.conn.self)
    requires d.outbox == me.conn.outbox + sent
    requires sent == [] || (|sent| == 1 && FromPeer(sent[0], d.self))
    ensures var (a, b) := Emit(me, peer, d, past);
            && Abs(a) == Peer(d.state, d.conflict, Toks(me.inbox), past)
            && Abs(b) == (if sent == [] then Abs(peer) else Put(Abs(peer), TokOf(sent[0])))
            && Linked(a, b) && Linked(b, a) && a.conn.self == me.conn.self && b.conn.self == peer.conn.self
  {
    assert d.outbox[|me.conn.outbox|..] == sent;
    assert sent == [] ==> peer.inbox + sent == peer.inbox;
    assert sent != [] ==> Toks(peer.inbox + sent) == Toks(peer.inbox) + [TokOf(sent[0])];
  }

  /** What the refinement of one act by `me` amounts to. */
  predicate Refines(me: Side, peer: Side, won: bool, move: Move) {
    var (a, b) := Act(me, peer, move);
    && (Abs(a), Abs(b)) == AbsAct(Abs(me), Abs(peer), won, move)
    && Linked(a, b) && Linked(b, a) && a.conn.self == me.conn.self && b.conn.self == peer.conn.self
  }

  lemma ToksNext(inbox: seq<Msg>)
    requires |inbox| > 0
    ensures Toks(inbox)[0] == TokOf(inbox[0]) && Toks(inbox)[1..] == Toks(inbox[1..])
    ensures forall i | 0 <= i < |inbox[1..]| :: inbox[1..][i] == inbox[i + 1]
  {
  }

  lemma MessageIsTaken(c: Conn, p: Self, m: Msg, won: bool)
    requires Trusts(c, p) && FromPeer(m, p) && Expects(c.state, TokOf(m))
    requires won == IsWinner(c.self.user, c.self.client, p.user, p.client)
    ensures Takes(c, Recv(c, p.user, p.client, m, 0), p, TokOf(m), won)
  {
    if m.kind.Setup? {
      SetupIsTaken(c, p, m, won);
    } else {
      UpdateIsTaken(c, p, m, won);
    }
  }

  lemma DeliverRefines(me: Side, peer: Side, won: bool)
    requires Linked(me, peer) && Linked(peer, me) && ExpectsNext(Abs(me))
    requires won == IsWinner(me.conn.self.user, me.conn.self.client, peer.conn.self.user, peer.conn.self.client)
    ensures Refines(me, peer, won, Deliver)
  {
    if me.inbox != [] {
      ToksNext(me.inbox);
      MessageIsTaken(me.conn, peer.conn.self, me.inbox[0], won);
    }
  }

  lemma CallRefines(me: Side, peer: Side, won: bool)
    requires Linked(me, peer) && Linked(peer, me)
    ensures Refines(me, peer, won, Call)
  {
    var c, h := me.conn, me.past;
    var d := Start(c, 0).0;
    EmitRefines(me, peer, d, h.(sentSetup := |d.outbox| > |c.outbox|),
                if c.state.Idle? || c.state.PendingOutgoing? then [Msg(Setup, false, c.self.sess)] else []);
  }

  lemma ReplyRefines(me: Side, peer: Side, won: bool)
    requires Linked(me, peer) && Linked(peer, me)
    ensures Refines(me, peer, won, Reply)
  {
    var c, h := me.conn, me.past;
    var d := Answer(c, 0).0;
    var owed := c.state.PendingIncoming? || c.state.ConflictResolution?;
    EmitRefines(me, peer, d, h.(setupResps := h.setupResps + if |d.outbox| > |c.outbox| then 1 else 0),
                if owed then [Msg(Setup, true, c.self.sess)] else []);
  }

  lemma AskUpdateRefines(me: Side, peer: Side, won: bool)
    requires Linked(me, peer) && Linked(peer, me)
    ensures Refines(me, peer, won, AskUpdate)
  {
    var c, h := me.conn, me.past;
    if Established(c.state) {
      EmitRefines(me, peer, UpdateReq(c, 0).0, h.(asked := h.asked + 1), [Msg(Update, false, c.self.sess)]);
    }
  }

  lemma ReplyUpdateRefines(me: Side, peer: Side, won: bool)
    requires Linked(me, peer) && Linked(peer, me)
    ensures Refines(me, peer, won, ReplyUpdate)
  {
    var c, h := me.conn, me.past;
    var d := UpdateResp(c, 0).0;
    EmitRefines(me, peer, d, h.(replied := h.replied + if |d.outbox| > |c.outbox| then 1 else 0),
                if c.state.UpdateRecv? then [Msg(Update, true, c.self.sess)] else []);
  }

  lemma SilentMovesRefine(me: Side, peer: Side, won: bool)
    requires Linked(me, peer) && Linked(peer, me)
    ensures Refines(me, peer, won, Preset) && Refines(me, peer, won, OpenChannel)
  {
    EmitRefines(me, peer, MarkOutgoing(me.conn), me.past, []);
    EmitRefines(me, peer, DataChan(me.conn), me.past, []);
  }

  lemma ActRefines(me: Side, peer: Side, won: bool, move: Move)
    requires Linked(me, peer) && Linked(peer, me) && ExpectsNext(Abs(me))
    requires won == IsWinner(me.conn.self.user, me.conn.self.client, peer.conn.self.user, peer.conn.self.client)
    ensures Refines(me, peer, won, move)
  {
    match move {
      case Deliver => DeliverRefines(me, peer, won);
      case Call => CallRefines(me, peer, won);
      case Reply => ReplyRefines(me, peer, won);
      case AskUpdate => AskUpdateRefines(me, peer, won);
      case ReplyUpdate => ReplyUpdateRefines(me, peer, won);
      case _ => SilentMovesRefine(me, peer, won);
    }
  }

  // ---------------------------------------------------------------------------------------
  // Every run of two connections
  // ---------------------------------------------------------------------------------------

  predicate Good(s: Sys) {
    && Inv(AbsSys(s)) && Linked(s.w, s.l) && Linked(s.l, s.w)
    && IsWinner(s.w.conn.self.user, s.w.conn.self.client, s.l.conn.self.user, s.l.conn.self.client)
  }

  lemma NextKeepsGood(s: Sys, t: Turn)
    requires Good(s)
    ensures Good(Next(s, t)) && AbsSys(Next(s, t)) == AbsNext(AbsSys(s), t)
  {
    PhaseImplies(AbsSys(s));
    InvKept(AbsSys(s), t);
    ExactlyOneWinner(s.w.conn.self.user, s.w.conn.self.client, s.l.conn.self.user, s.l.conn.self.client);
    if t.byW {
      ActRefines(s.w, s.l, true, t.move);
    } else {
      ActRefines(s.l, s.w, false, t.move);
    }
  }

  lemma {:induction false} PlayKeepsGood(s: Sys, turns: seq<Turn>)
    requires Good(s)
    ensures Good(Play(s, turns))
    decreases |turns|
  {
    if turns != [] {
      NextKeepsGood(s, turns[0]);
      PlayKeepsGood(Next(s, turns[0]), turns[1..]);
    }
  }

  lemma InitialIsGood(s: Sys)
    requires Initial(s)
    ensures Good(s)
  {
    assert Opening(AbsSys(s));
  }

  lemma ReachableIsGood(s: Sys, turns: seq<Turn>)
    requires Initial(s)
    ensures Good(Play(s, turns))
  {
    InitialIsGood(s);
    PlayKeepsGood(s, turns);
  }

  /** A side owes something: an announced SETUP, an answer, or an UPDATE response. */
  predicate Owes(x: Side) {
    || (x.conn.state.PendingOutgoing? && !x.past.sentSetup)
    || x.conn.state.PendingIncoming? || x.conn.state.ConflictResolution? || x.conn.state.UpdateRecv?
  }

  predicate Quiescent(s: Sys) {
    s.w.inbox == [] && s.l.inbox == [] && !Owes(s.w) && !Owes(s.l)
  }

  /**
   SETUP glare. In every reachable state: not both sides are resolving a conflict and not both
   believe they won one; at most one SETUP response has ever been sent; and when nothing is in
   flight and nobody owes anything, both sides are still idle or both are established.
   */
  lemma SetupGlareIsResolved(s: Sys, turns: seq<Turn>)
    requires Initial(s)
    ensures var r := Play(s, turns);
            && !(r.w.conn.state.ConflictResolution? && r.l.conn.state.ConflictResolution?)
            && !(r.w.conn.conflict == 1 && r.l.conn.conflict == 1)
            && r.w.past.setupResps + r.l.past.setupResps <= 1
            && (Quiescent(r) ==> || (r.w.conn.state.Idle? && r.l.conn.state.Idle?)
                                 || (Established(r.w.conn.state) && Established(r.l.conn.state)))
  {
    ReachableIsGood(s, turns);
  }

  /**
   UPDATE glare, any number of rounds. Never both sides hold a request of the other; every
   request of W is answered, never dropped; every request of L is answered or dropped by W; and
   once nothing is in flight the sums close: each answer has been taken by the side that asked.
   */
  lemma UpdateGlareIsResolved(s: Sys, turns: seq<Turn>)
    requires Initial(s)
    ensures var r := Play(s, turns);
            && !(r.w.conn.state.UpdateRecv? && r.l.conn.state.UpdateRecv?)
            && r.l.past.dropped == 0
            && r.w.past.accepted <= r.l.past.replied <= r.w.past.asked
            && r.l.past.accepted <= r.w.past.replied && r.w.past.replied + r.w.past.dropped <= r.l.past.asked
            && (Quiescent(r) ==> && r.w.past.asked == r.l.past.replied == r.w.past.accepted
                                 && r.l.past.asked == r.w.past.replied + r.w.past.dropped
                                 && r.w.past.replied == r.l.past.accepted
                                 && !r.w.conn.state.UpdateSent? && !r.l.conn.state.UpdateSent?)
  {
    ReachableIsGood(s, turns);
    assert AbsSys(Play(s, turns)).w.inbox == Toks(Play(s, turns).w.inbox);
  }

  lemma AbsDropIsACrossing(p: Pair, t: Turn)
    requires Inv(p)
    ensures var q := AbsNext(p, t);
            && q.l.past.dropped == p.l.past.dropped
            && (q.w.past.dropped != p.w.past.dropped ==>
                  && q.w.past.dropped == p.w.past.dropped + 1
                  && p.w.st.UpdateSent? && q.w.st.UpdateSent? && p.w.past.accepted < p.w.past.asked)
  {
    PhaseImplies(p);
    ActKeepsAccounts(p.l, p.w, false, t.move);
    ActKeepsAccounts(p.w, p.l, true, t.move);
  }

  /** A request is dropped only by W, only while its own request is unanswered. */
  lemma OnlyACrossingDrops(s: Sys, turns: seq<Turn>, t: Turn)
    requires Initial(s)
    ensures var r := Play(s, turns);
            var q := Next(r, t);
            && q.l.past.dropped == r.l.past.dropped
            && (q.w.past.dropped != r.w.past.dropped ==>
                  && q.w.past.dropped == r.w.past.dropped + 1
                  && r.w.conn.state.UpdateSent? && q.w.conn.state.UpdateSent?
                  && r.w.past.accepted < r.w.past.asked)
  {
    ReachableIsGood(s, turns);
    NextKeepsGood(Play(s, turns), t);
    AbsDropIsACrossing(AbsSys(Play(s, turns)), t);
  }

  // ---------------------------------------------------------------------------------------
  // Discharging what is owed leads to agreement
  // ---------------------------------------------------------------------------------------

  /** The move delivers a queued message or discharges something its side owes. */
  predicate Duty(s: Sys, t: Turn) {
    var x := if t.byW then s.w else s.l;
    match t.move
    case Deliver => x.inbox != []
    case Call => x.conn.state.PendingOutgoing? && !x.past.sentSetup
    case Reply => x.conn.state.PendingIncoming? || x.conn.state.ConflictResolution?
    case ReplyUpdate => x.conn.state.UpdateRecv?
    case _ => false
  }

  predicate AllDuties(s: Sys, turns: seq<Turn>)
    decreases |turns|
  {
    turns == [] || (Duty(s, turns[0]) && AllDuties(Next(s, turns[0]), turns[1..]))
  }

  function Load(ts: seq<Tok>): nat {
    if |ts| == 0 then 0 else (if ts[0].SReq? || ts[0].UReq? then 3 else 1) + Load(ts[1..])
  }

  function PeerLoad(x: Peer): nat {
    Load(x.inbox) + (if x.st.PendingOutgoing? && !x.past.sentSetup then 4
                     else if x.st.PendingIncoming? || x.st.ConflictResolution? || x.st.UpdateRecv? then 2 else 0)
  }

  function Work(s: Sys): nat {
    PeerLoad(Abs(s.w)) + PeerLoad(Abs(s.l))
  }

  lemma {:induction false} LoadSnoc(ts: seq<Tok>, x: Tok)
    ensures Load(ts + [x]) == Load(ts) + if x.SReq? || x.UReq? then 3 else 1
  {
    if |ts| != 0 {
      LoadSnoc(ts[1..], x);
      assert (ts + [x])[1..] == ts[1..] + [x];
    } else {
      assert (ts + [x])[1..] == ts;
    }
  }

  lemma DutyLightens(me: Peer, peer: Peer, won: bool, move: Move)
    requires ExpectsNext(me)
    requires match move
             case Deliver => me.inbox != []
             case Call => me.st.PendingOutgoing? && !me.past.sentSetup
             case Reply => me.st.PendingIncoming? || me.st.ConflictResolution?
             case ReplyUpdate => me.st.UpdateRecv?
             case _ => false
    ensures var (a, b) := AbsAct(me, peer, won, move); PeerLoad(a) + PeerLoad(b) < PeerLoad(me) + PeerLoad(peer)
  {
    LoadSnoc(peer.inbox, SReq);
    LoadSnoc(peer.inbox, SResp);
    LoadSnoc(peer.inbox, UResp);
  }

  lemma DutyReducesWork(s: Sys, t: Turn)
    requires Good(s) && Duty(s, t)
    ensures Work(Next(s, t)) < Work(s)
  {
    NextKeepsGood(s, t);
    PhaseImplies(AbsSys(s));
    if t.byW {
      DutyLightens(Abs(s.w), Abs(s.l), true, t.move);
    } else {
      DutyLightens(Abs(s.l), Abs(s.w), false, t.move);
    }
  }

  lemma {:induction false} DutiesAreBounded(s: Sys, turns: seq<Turn>)
    requires Good(s) && AllDuties(s, turns)
    ensures |turns| + Work(Play(s, turns)) <= Work(s)
    decreases |turns|
  {
    if turns != [] {
      NextKeepsGood(s, turns[0]);
      DutyReducesWork(s, turns[0]);
      DutiesAreBounded(Next(s, turns[0]), turns[1..]);
    }
  }

  lemma NoDutyIsQuiescent(r: Sys)
    requires forall t :: !Duty(r, t)
    ensures Quiescent(r)
  {
    assert !Duty(r, Turn(true, Deliver)) && !Duty(r, Turn(false, Deliver));
    assert !Duty(r, Turn(true, Call)) && !Duty(r, Turn(false, Call));
    assert !Duty(r, Turn(true, Reply)) && !Duty(r, Turn(false, Reply));
    assert !Duty(r, Turn(true, ReplyUpdate)) && !Duty(r, Turn(false, ReplyUpdate));
  }

  lemma QuiescentSidesAgree(r: Sys)
    requires Good(r) && Quiescent(r)
    ensures || (r.w.conn.state.Idle? && r.l.conn.state.Idle?)
            || (Established(r.w.conn.state) && Established(r.l.conn.state))
  {
  }

  /**
   From any reachable state, delivering messages and discharging duties in any order stops after
   at most Work steps, and where no duty is left the two sides agree.
   */
  lemma DutiesLeadToAgreement(s: Sys, turns: seq<Turn>, more: seq<Turn>)
    requires Initial(s)
    requires AllDuties(Play(s, turns), more)
    requires forall t :: !Duty(Play(Play(s, turns), more), t)
    ensures |more| <= Work(Play(s, turns))
    ensures var r := Play(Play(s, turns), more);
            || (r.w.conn.state.Idle? && r.l.conn.state.Idle?)
            || (Established(r.w.conn.state) && Established(r.l.conn.state))
  {
    ReachableIsGood(s, turns);
    DutiesAreBounded(Play(s, turns), more);
    PlayKeepsGood(Play(s, turns), more);
    NoDutyIsQuiescent(Play(Play(s, turns), more));
    QuiescentSidesAgree(Play(Play(s, turns), more));
  }
}
