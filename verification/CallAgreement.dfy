/**
 Which conference call a client joins (src/ccall/ccall.c): of the calls it hears of in CONFSTART and CONFCHECK
 messages it takes the one with the earliest timestamp, and on equal timestamps the lowest sequence number.
 */
module CallAgreement {

  const HALF: int := 0x8000_0000
  const WORD: int := 0x1_0000_0000
  const MAX_AGE: nat := 120             // CCALL_CONFSTART_TIMEOUT_S

  /** A call: when its SFT made it, the SFT's number for it, its secret and its primary SFT. Timestamp 0 is no call. */
  datatype Call = Call(ts: nat, seqno: nat, secret: string, url: string)

  const NO_CALL := Call(0, 0, "", "")

  datatype Msg = Msg(start: bool, request: bool, age: nat, call: Call)

  /** CONFSTART, or the response form of CONFCHECK, that is young enough. */
  predicate Valid(m: Msg) {
    m.age < MAX_AGE && (m.start || !m.request)
  }

  /** The C conversion of a 32-bit difference to int. */
  function Signed32(d: int): (r: int)
    ensures -HALF <= r < HALF && (-HALF <= d < HALF ==> r == d)
  {
    (d + HALF) % WORD - HALF
  }

  /** ts_cmp in ccall_handle_confstart_check. */
  function TsCmp(local: Call, heard: Call): int {
    if local.ts == 0 || heard.ts < local.ts then 1
    else if heard.ts > local.ts then -1
    else Signed32(local.seqno - heard.seqno)
  }

  /** copy_sft: the URL with a slash at its end. */
  function Slashed(url: string): (r: string)
    ensures |r| > 0 && r[|r| - 1] == '/'
  {
    if |url| > 0 && url[|url| - 1] == '/' then url else url + "/"
  }

  /** The call as a client that adopts it holds it. */
  function Adopted(c: Call): Call {
    c.(url := Slashed(c.url))
  }

  /** What handling one message does to the call a client holds. */
  function Handle(local: Call, m: Msg): Call {
    if Valid(m) && TsCmp(local, m.call) > 0 then Adopted(m.call) else local
  }

  function HandleAll(local: Call, ms: seq<Msg>): Call {
    if |ms| == 0 then local else Handle(HandleAll(local, ms[..|ms| - 1]), ms[|ms| - 1])
  }

  // ---------------------------------------------------------------------------------------
  // The order on calls
  // ---------------------------------------------------------------------------------------

  predicate Earlier(a: Call, b: Call) {
    a.ts < b.ts || (a.ts == b.ts && a.seqno < b.seqno)
  }

  /** The 32-bit comparison of two sequence numbers is the one meant. */
  predicate Comparable(local: Call, heard: Call) {
    local.ts == heard.ts ==> -HALF <= local.seqno - heard.seqno < HALF
  }

  /**
   The comparison prefers the heard call exactly when it is earlier, if and only if the numbers are in reach, or, over
   a held timestamp of 0, the heard one is 0 too with a lower number.
   */
  lemma CmpIsEarlierIff(local: Call, heard: Call)
    requires local.seqno < WORD && heard.seqno < WORD
    ensures (TsCmp(local, heard) > 0 <==> Earlier(heard, local))
            <==> if local.ts == 0 then heard.ts == 0 && heard.seqno < local.seqno else Comparable(local, heard)
  {
  }

  /** A set of calls whose sequence numbers span less than half the range wherever timestamps meet. */
  ghost predicate InReach(calls: set<Call>) {
    forall a, b | a in calls && b in calls && a.ts == b.ts :: -HALF < a.seqno - b.seqno < HALF
  }

  ghost predicate Real(calls: set<Call>) {
    InReach(calls) && forall a | a in calls :: a.ts > 0
  }

  /** The calls that valid messages tell of, as they are adopted. */
  function CallsOf(ms: seq<Msg>): set<Call> {
    if |ms| == 0 then {} else CallsOf(ms[..|ms| - 1]) + CallOf(ms[|ms| - 1])
  }

  function CallOf(m: Msg): set<Call> {
    if Valid(m) then {Adopted(m.call)} else {}
  }

  /** c is one of the calls and none of them is earlier. */
  ghost predicate IsEarliest(c: Call, calls: set<Call>) {
    c in calls && forall a | a in calls :: !Earlier(a, c)
  }

  /** The calls a client with call `local` can end with: those heard of, and its own if it has one. */
  function Known(local: Call, ms: seq<Msg>): set<Call> {
    CallsOf(ms) + if local.ts > 0 then {local} else {}
  }

  lemma KnownGrows(local: Call, ms: seq<Msg>)
    requires |ms| > 0
    ensures Known(local, ms) == Known(local, ms[..|ms| - 1]) + CallOf(ms[|ms| - 1])
  {
  }

  /**
   In whatever order messages come, a client ends with the earliest call it knows of, with that call's secret
   and primary SFT; it has none only if it knew of none.
   */
  lemma {:induction false} EndsWithEarliest(local: Call, ms: seq<Msg>)
    requires Real(Known(local, ms))
    ensures Known(local, ms) != {} ==> IsEarliest(HandleAll(local, ms), Known(local, ms))
    ensures Known(local, ms) == {} ==> HandleAll(local, ms) == local
  {
    if |ms| > 0 {
      KnownGrows(local, ms);
      var init, m := ms[..|ms| - 1], ms[|ms| - 1];
      EndsWithEarliest(local, init);
      var held := HandleAll(local, init);
      if Valid(m) {
        OneMore(held, m, Known(local, init), Known(local, ms));
      }
    }
  }

  lemma OneMore(held: Call, m: Msg, before: set<Call>, after: set<Call>)
    requires Valid(m) && Real(after) && after == before + {Adopted(m.call)}
    requires if before == {} then held.ts == 0 else IsEarliest(held, before)
    ensures IsEarliest(Handle(held, m), after)
  {
    var c := Adopted(m.call);
    assert c in after;
    if before != {} {
      assert held in after;
      assert held.ts == c.ts ==> -HALF < held.seqno - c.seqno < HALF;
    }
  }

  /** No two different calls have the same timestamp and number. */
  ghost predicate DistinctPairs(calls: set<Call>) {
    forall a, b | a in calls && b in calls && a.ts == b.ts && a.seqno == b.seqno :: a == b
  }

  lemma EarliestIsUnique(a: Call, b: Call, calls: set<Call>)
    requires DistinctPairs(calls) && IsEarliest(a, calls) && IsEarliest(b, calls)
    ensures a == b
  {
    assert !Earlier(a, b) && !Earlier(b, a);
  }

  /** Two clients that know the same calls end with the same call, however differently the messages reached them. */
  lemma OrderDoesNotMatter(mine: Call, ms: seq<Msg>, theirs: Call, ns: seq<Msg>)
    requires Known(mine, ms) == Known(theirs, ns) != {}
    requires Real(Known(mine, ms)) && DistinctPairs(Known(mine, ms))
    ensures HandleAll(mine, ms) == HandleAll(theirs, ns)
  {
    EndsWithEarliest(mine, ms);
    EndsWithEarliest(theirs, ns);
    EarliestIsUnique(HandleAll(mine, ms), HandleAll(theirs, ns), Known(mine, ms));
  }

  /** Beyond the reach the earliest call is lost: numbers 0 and 0x80000001 under one timestamp. */
  lemma WideNumbersLoseTheEarliest(ts: nat, secret: string, url: string)
    requires ts > 0
    ensures var low, high := Call(ts, 0, secret, url), Call(ts, HALF + 1, secret, url);
            Earlier(low, high) && HandleAll(low, [Msg(true, true, 0, high)]) == Adopted(high)
  {
    var low, high := Call(ts, 0, secret, url), Call(ts, HALF + 1, secret, url);
    var ms := [Msg(true, true, 0, high)];
    assert HandleAll(low, ms[..0]) == low;
    assert Signed32(-HALF - 1) == HALF - 1;
  }

  /** So it is when a call has timestamp 0, which stands for no call: a later one replaces it. */
  lemma ZeroTimestampLosesTheEarliest(later: Call, secret: string, url: string)
    requires later.ts > 0
    ensures var zero := Call(0, 0, secret, url);
            && Earlier(zero, later)
            && HandleAll(NO_CALL, [Msg(true, true, 0, zero), Msg(true, true, 0, later)]) == Adopted(later)
  {
    var zero := Call(0, 0, secret, url);
    var ms := [Msg(true, true, 0, zero), Msg(true, true, 0, later)];
    assert ms[..1][..0] == [] && ms[..2][..1] == ms[..1];
    assert HandleAll(NO_CALL, ms[..1]) == Adopted(zero);
  }

  // ---------------------------------------------------------------------------------------
  // Exactly when the earliest call survives
  // ---------------------------------------------------------------------------------------

  ghost predicate HasZero(calls: set<Call>) {
    exists a | a in calls :: a.ts == 0
  }

  /** The call of the last valid message, as it is adopted, or `local` if there was none. */
  function LastTold(local: Call, ms: seq<Msg>): Call {
    if |ms| == 0 then local
    else if Valid(ms[|ms| - 1]) then Adopted(ms[|ms| - 1].call)
    else LastTold(local, ms[..|ms| - 1])
  }

  /** Timestamp 0 beats any other and is beaten by any: it is held only as long as it is the last told of. */
  lemma {:induction false} ZeroIsTheLast(local: Call, ms: seq<Msg>)
    ensures HandleAll(local, ms).ts == 0 || LastTold(local, ms).ts == 0 ==> HandleAll(local, ms) == LastTold(local, ms)
  {
    if |ms| > 0 {
      ZeroIsTheLast(local, ms[..|ms| - 1]);
    }
  }

  lemma {:induction false} LastIsTold(local: Call, ms: seq<Msg>)
    ensures CallsOf(ms) != {} ==> LastTold(local, ms) in CallsOf(ms)
  {
    if |ms| > 0 {
      LastIsTold(local, ms[..|ms| - 1]);
    }
  }

  /** When a call with timestamp 0 is heard of, the earliest call survives if and only if it is the last told of. */
  lemma ZeroSurvivesIff(local: Call, ms: seq<Msg>)
    requires HasZero(CallsOf(ms))
    ensures IsEarliest(HandleAll(local, ms), Known(local, ms)) <==> IsEarliest(LastTold(local, ms), Known(local, ms))
  {
    var zero :| zero in CallsOf(ms) && zero.ts == 0;
    assert zero in Known(local, ms);
    ZeroIsTheLast(local, ms);
  }

  /** So a client ends with the earliest call it knows of, unless one has timestamp 0 and another was told of last. */
  lemma EndsWithEarliestIff(local: Call, ms: seq<Msg>)
    requires InReach(Known(local, ms)) && Known(local, ms) != {}
    ensures IsEarliest(HandleAll(local, ms), Known(local, ms))
            <==> HasZero(CallsOf(ms)) ==> IsEarliest(LastTold(local, ms), Known(local, ms))
  {
    if HasZero(CallsOf(ms)) {
      ZeroSurvivesIff(local, ms);
    } else {
      EndsWithEarliest(local, ms);
    }
  }

  /** Under the earliest timestamp all numbers lie within half the range above the lowest. */
  ghost predicate FirstInReach(calls: set<Call>) {
    forall a, b | a in calls && IsEarliest(b, calls) && a.ts == b.ts :: a.seqno - b.seqno < HALF
  }

  /** However a client is told of these calls, it ends with the earliest. */
  ghost predicate EveryOrderWins(calls: set<Call>) {
    forall ms | CallsOf(ms) == calls :: IsEarliest(HandleAll(NO_CALL, ms), calls)
  }

  function Tell(c: Call): Msg {
    Msg(true, true, 0, c)
  }

  lemma HandleNext(local: Call, ms: seq<Msg>, m: Msg)
    ensures HandleAll(local, ms + [m]) == Handle(HandleAll(local, ms), m)
    ensures CallsOf(ms + [m]) == CallsOf(ms) + CallOf(m)
    ensures Valid(m) ==> LastTold(local, ms + [m]) == Adopted(m.call)
  {
    assert (ms + [m])[..|ms|] == ms;
  }

  lemma {:induction false} HandleThen(local: Call, ms: seq<Msg>, ns: seq<Msg>)
    ensures HandleAll(local, ms + ns) == HandleAll(HandleAll(local, ms), ns)
    ensures CallsOf(ms + ns) == CallsOf(ms) + CallsOf(ns)
    decreases |ns|
  {
    if |ns| == 0 {
      assert ms + ns == ms;
    } else {
      var init, m := ns[..|ns| - 1], ns[|ns| - 1];
      HandleThen(local, ms, init);
      HandleNext(local, ms + init, m);
      assert ms + ns == ms + init + [m];
    }
  }

  ghost predicate AllAdopted(calls: set<Call>) {
    forall a | a in calls :: Adopted(a) == a && a.seqno < WORD
  }

  /** Messages that tell of just these calls. */
  lemma {:induction false} Spelled(calls: set<Call>) returns (ms: seq<Msg>)
    requires AllAdopted(calls)
    ensures CallsOf(ms) == calls
    decreases |calls|
  {
    if calls == {} {
      ms := [];
    } else {
      var c :| c in calls;
      var init := Spelled(calls - {c});
      ms := init + [Tell(c)];
      HandleNext(NO_CALL, init, Tell(c));
    }
  }

  lemma {:induction false} SomeIsEarliest(calls: set<Call>) returns (b: Call)
    requires calls != {}
    ensures IsEarliest(b, calls)
    decreases |calls|
  {
    var c :| c in calls;
    var rest := calls - {c};
    if rest == {} {
      assert calls == {c};
      b := c;
    } else {
      var d := SomeIsEarliest(rest);
      b := if Earlier(c, d) then c else d;
      forall a | a in calls ensures !Earlier(a, b) {
        assert a == c || a in rest;
      }
    }
  }

  /** In reach, a client that was told of an earliest call holds one. */
  lemma {:induction false} InReachWins(ms: seq<Msg>, calls: set<Call>)
    requires CallsOf(ms) <= calls && !HasZero(calls) && FirstInReach(calls)
    ensures if CallsOf(ms) == {} then HandleAll(NO_CALL, ms) == NO_CALL else HandleAll(NO_CALL, ms) in CallsOf(ms)
    ensures (exists b | b in CallsOf(ms) :: IsEarliest(b, calls)) ==> IsEarliest(HandleAll(NO_CALL, ms), calls)
  {
    if |ms| > 0 {
      var init, m := ms[..|ms| - 1], ms[|ms| - 1];
      InReachWins(init, calls);
      var held, c := HandleAll(NO_CALL, init), Adopted(m.call);
      if Valid(m) {
        assert c in CallsOf(ms);
        if CallsOf(init) != {} {
          InReachPrefers(held, c, calls);
        }
      }
    }
  }

  lemma InReachPrefers(held: Call, c: Call, calls: set<Call>)
    requires held in calls && c in calls && !HasZero(calls) && FirstInReach(calls)
    ensures IsEarliest(held, calls) || IsEarliest(c, calls)
            ==> IsEarliest(if TsCmp(held, c) > 0 then c else held, calls)
  {
    if IsEarliest(held, calls) {
      assert !Earlier(c, held) && (held.ts == c.ts ==> c.seqno - held.seqno < HALF);
    }
    if IsEarliest(c, calls) {
      assert !Earlier(held, c) && (held.ts == c.ts ==> held.seqno - c.seqno < HALF);
    }
  }

  lemma InReachAlwaysWins(calls: set<Call>)
    requires calls != {} && !HasZero(calls) && FirstInReach(calls)
    ensures EveryOrderWins(calls)
  {
    var b := SomeIsEarliest(calls);
    forall ms | CallsOf(ms) == calls ensures IsEarliest(HandleAll(NO_CALL, ms), calls) {
      InReachWins(ms, calls);
    }
  }

  lemma {:induction false} HeldWasTold(ms: seq<Msg>)
    ensures HandleAll(NO_CALL, ms) == NO_CALL || HandleAll(NO_CALL, ms) in CallsOf(ms)
  {
    if |ms| > 0 {
      HeldWasTold(ms[..|ms| - 1]);
    }
  }

  lemma FarAbovePrefers(held: Call, a: Call, b: Call)
    requires held.ts == 0 || (held.ts == b.ts && held.seqno == b.seqno)
    requires a.ts == b.ts && HALF < a.seqno - b.seqno < WORD
    ensures TsCmp(held, a) > 0
  {
  }

  /** A number more than half the range above the lowest displaces it: an order that ends with a later call than b. */
  lemma FarAboveOrder(calls: set<Call>, a: Call, b: Call) returns (ms: seq<Msg>)
    requires AllAdopted(calls) && a in calls && IsEarliest(b, calls)
    requires a.ts == b.ts && a.seqno - b.seqno > HALF
    ensures CallsOf(ms) == calls && Earlier(b, HandleAll(NO_CALL, ms))
  {
    ms := Spelled(calls);
    var held := HandleAll(NO_CALL, ms);
    if !Earlier(b, held) {
      HeldWasTold(ms);
      FarAbovePrefers(held, a, b);
      HandleNext(NO_CALL, ms, Tell(a));
      ms := ms + [Tell(a)];
    }
  }

  /** Held, it is kept over calls with the lowest number when it is exactly half the range above them. */
  lemma {:induction false} HalfwayIsKept(a: Call, b: Call, ms: seq<Msg>)
    requires a.ts == b.ts > 0 && a.seqno - b.seqno == HALF
    requires forall c | c in CallsOf(ms) :: c.ts == b.ts && c.seqno == b.seqno
    ensures HandleAll(a, ms) == a
  {
    if |ms| > 0 {
      HalfwayIsKept(a, b, ms[..|ms| - 1]);
      var m := ms[|ms| - 1];
      assert Valid(m) ==> Adopted(m.call) in CallsOf(ms);
      assert Signed32(HALF) == -HALF;
    }
  }

  /** Whoever is not told of an earliest call does not come to hold one. */
  lemma {:induction false} UntoldIsNotHeld(held: Call, ms: seq<Msg>, b: Call)
    requires Earlier(b, held) && forall c | c in CallsOf(ms) :: Earlier(b, c)
    ensures Earlier(b, HandleAll(held, ms))
  {
    if |ms| > 0 {
      UntoldIsNotHeld(held, ms[..|ms| - 1], b);
      var m := ms[|ms| - 1];
      assert Valid(m) ==> Adopted(m.call) in CallsOf(ms);
    }
  }

  lemma HalfwayOutlasts(a: Call, b: Call, low: seq<Msg>, high: seq<Msg>)
    requires Adopted(a) == a && a.ts == b.ts > 0 && a.seqno - b.seqno == HALF
    requires forall c | c in CallsOf(low) :: c.ts == b.ts && c.seqno == b.seqno
    requires forall c | c in CallsOf(high) :: Earlier(b, c)
    ensures Earlier(b, HandleAll(NO_CALL, [Tell(a)] + low + high))
    ensures CallsOf([Tell(a)] + low + high) == {a} + CallsOf(low) + CallsOf(high)
  {
    HandleNext(NO_CALL, [], Tell(a));
    assert [] + [Tell(a)] == [Tell(a)];
    HandleThen(NO_CALL, [Tell(a)], low);
    HandleThen(NO_CALL, [Tell(a)] + low, high);
    HalfwayIsKept(a, b, low);
    UntoldIsNotHeld(a, high, b);
  }

  lemma PartsJoin(calls: set<Call>, part: set<Call>, a: Call)
    requires a in calls && part <= calls
    ensures {a} + part + (calls - part) == calls
  {
  }

  /** A number exactly half the range above is kept over the lowest: again such an order. */
  lemma HalfwayOrder(calls: set<Call>, a: Call, b: Call) returns (ms: seq<Msg>)
    requires AllAdopted(calls) && a in calls && IsEarliest(b, calls)
    requires a.ts == b.ts > 0 && a.seqno - b.seqno == HALF
    ensures CallsOf(ms) == calls && Earlier(b, HandleAll(NO_CALL, ms))
  {
    var lowest := set c | c in calls && !Earlier(b, c);
    var low := Spelled(lowest);
    var high := Spelled(calls - lowest);
    HalfwayOutlasts(a, b, low, high);
    PartsJoin(calls, lowest, a);
    ms := [Tell(a)] + low + high;
  }

  lemma OneOrderLoses(calls: set<Call>, ms: seq<Msg>, b: Call)
    requires CallsOf(ms) == calls && b in calls && Earlier(b, HandleAll(NO_CALL, ms))
    ensures !EveryOrderWins(calls)
  {
  }

  /** All calls carry one timestamp and number. */
  ghost predicate OnePair(calls: set<Call>) {
    forall a, b | a in calls && b in calls :: !Earlier(a, b)
  }

  lemma ZeroWinsIff(calls: set<Call>)
    requires AllAdopted(calls) && HasZero(calls)
    ensures EveryOrderWins(calls) <==> OnePair(calls)
  {
    var all := Spelled(calls);
    forall a | a in calls && EveryOrderWins(calls) ensures IsEarliest(a, calls) {
      HandleNext(NO_CALL, all, Tell(a));
      assert CallsOf(all + [Tell(a)]) == calls;
      ZeroSurvivesIff(NO_CALL, all + [Tell(a)]);
    }
    forall ms | CallsOf(ms) == calls && OnePair(calls)
      ensures IsEarliest(HandleAll(NO_CALL, ms), calls)
    {
      LastIsTold(NO_CALL, ms);
      ZeroSurvivesIff(NO_CALL, ms);
    }
  }

  /**
   In every order a client ends with the earliest of these calls exactly when the numbers under the earliest timestamp
   lie within half the range and no timestamp is 0, or all calls have timestamp 0 and one number.
   */
  lemma EveryOrderWinsIff(calls: set<Call>)
    requires calls != {} && AllAdopted(calls)
    ensures EveryOrderWins(calls) <==> if HasZero(calls) then OnePair(calls) else FirstInReach(calls)
  {
    if HasZero(calls) {
      ZeroWinsIff(calls);
    } else if FirstInReach(calls) {
      InReachAlwaysWins(calls);
    } else {
      var a, b :| a in calls && IsEarliest(b, calls) && a.ts == b.ts && a.seqno - b.seqno >= HALF;
      var ms;
      if a.seqno - b.seqno == HALF {
        ms := HalfwayOrder(calls, a, b);
      } else {
        ms := FarAboveOrder(calls, a, b);
      }
      OneOrderLoses(calls, ms, b);
    }
  }

  // ---------------------------------------------------------------------------------------
  // Many clients
  // ---------------------------------------------------------------------------------------

  /** Clients by number, every message ever sent, and every call ever made. */
  datatype World = World(held: seq<Call>, sent: set<Call>, made: set<Call>)

  datatype Move =
    | Make(i: nat, call: Call)          // the SFT starts a call for client i, which announces it
    | Send(i: nat)                      // client i sends CONFSTART or CONFCHECK for the call it holds
    | Hear(i: nat, call: Call, start: bool, request: bool, age: nat)

  /** A client has something to announce once it has a call; it hears what was sent; calls are made with fresh pairs. */
  ghost predicate Enabled(w: World, e: Move) {
    match e
    case Make(i, c) =>
      && i < |w.held| && w.held[i].ts == 0 && Adopted(c) == c
      && Real(w.made + {c}) && (forall a | a in w.made :: a.ts != c.ts || a.seqno != c.seqno)
    case Send(i) => i < |w.held| && w.held[i].ts > 0
    case Hear(i, c, _, _, _) => i < |w.held| && c in w.sent
  }

  function Next(w: World, e: Move): World
    requires e.i < |w.held|
  {
    match e
    case Make(i, c) => World(w.held[i := c], w.sent + {c}, w.made + {c})
    case Send(i) => w.(sent := w.sent + {w.held[i]})
    case Hear(i, c, start, request, age) => w.(held := w.held[i := Handle(w.held[i], Msg(start, request, age, c))])
  }

  ghost predicate Plays(w: World, es: seq<Move>)
    decreases |es|
  {
    es == [] || (Enabled(w, es[0]) && Plays(Next(w, es[0]), es[1..]))
  }

  ghost function Play(w: World, es: seq<Move>): World
    requires Plays(w, es)
    decreases |es|
  {
    if es == [] then w else Play(Next(w, es[0]), es[1..])
  }

  function Fresh(n: nat): World {
    World(seq(n, _ => NO_CALL), {}, {})
  }

  ghost predicate Held(w: World, i: int)
    requires 0 <= i < |w.held|
  {
    w.held[i].ts == 0 || w.held[i] in w.made
  }

  /** Whatever is held or on the way is a call that was made, and made calls differ in their pairs. */
  ghost predicate Sound(w: World) {
    && Real(w.made) && DistinctPairs(w.made) && w.sent <= w.made && (forall c | c in w.made :: Adopted(c) == c)
    && forall i | 0 <= i < |w.held| :: Held(w, i)
  }

  /** A client's call is kept or replaced by an earlier one. */
  predicate NoLater(after: Call, before: Call) {
    before.ts == 0 || after == before || (after.ts > 0 && Earlier(after, before))
  }

  lemma HearKeeps(w: World, i: nat, m: Msg)
    requires Sound(w) && i < |w.held| && m.call in w.sent
    ensures var c := Handle(w.held[i], m);
            (c.ts == 0 || c in w.made) && NoLater(c, w.held[i])
            && (Valid(m) ==> c in w.made && !Earlier(m.call, c))
  {
    assert Held(w, i);
    var held := w.held[i];
    if held.ts > 0 {
      assert held.ts == m.call.ts ==> -HALF < held.seqno - m.call.seqno < HALF;
    }
  }

  lemma MakeKeeps(w: World, j: nat, c: Call)
    requires Sound(w) && Enabled(w, Make(j, c))
    ensures Sound(Next(w, Make(j, c)))
    ensures forall i | 0 <= i < |w.held| :: NoLater(Next(w, Make(j, c)).held[i], w.held[i])
  {
    var u := Next(w, Make(j, c));
    forall i | 0 <= i < |u.held| ensures Held(u, i) {
      assert Held(w, i);
    }
  }

  lemma NextKeeps(w: World, e: Move)
    requires Sound(w) && Enabled(w, e)
    ensures Sound(Next(w, e)) && |Next(w, e).held| == |w.held| && w.made <= Next(w, e).made
    ensures forall i | 0 <= i < |w.held| :: NoLater(Next(w, e).held[i], w.held[i])
  {
    var u := Next(w, e);
    match e
    case Make(j, c) => MakeKeeps(w, j, c);
    case Send(j) =>
      assert Held(w, j);
      forall i | 0 <= i < |u.held| ensures Held(u, i) {
        assert Held(w, i);
      }
    case Hear(j, c, start, request, age) =>
      HearKeeps(w, j, Msg(start, request, age, c));
      forall i | 0 <= i < |u.held| ensures Held(u, i) {
        assert Held(w, i);
      }
  }

  lemma NoLaterChains(a: Call, b: Call, c: Call)
    requires NoLater(b, c) && NoLater(a, b)
    ensures NoLater(a, c)
  {
  }

  lemma {:induction false} PlayKeeps(w: World, es: seq<Move>)
    requires Sound(w) && Plays(w, es)
    ensures Sound(Play(w, es)) && |Play(w, es).held| == |w.held| && w.made <= Play(w, es).made
    ensures forall i | 0 <= i < |w.held| :: NoLater(Play(w, es).held[i], w.held[i])
    decreases |es|
  {
    if es != [] {
      NextKeeps(w, es[0]);
      var u := Next(w, es[0]);
      PlayKeeps(u, es[1..]);
      forall i | 0 <= i < |w.held| ensures NoLater(Play(w, es).held[i], w.held[i]) {
        NoLaterChains(Play(w, es).held[i], u.held[i], w.held[i]);
      }
    }
  }

  lemma FreshIsSound(n: nat)
    ensures Sound(Fresh(n))
  {
  }

  /** Of the calls that were made, one that a client holds it leaves only for an earlier one. */
  lemma EarliestIsKept(w: World, es: seq<Move>, i: nat)
    requires Sound(w) && Plays(w, es) && i < |w.held| && w.held[i].ts > 0
    requires IsEarliest(w.held[i], Play(w, es).made)
    ensures i < |Play(w, es).held| && Play(w, es).held[i] == w.held[i]
  {
    PlayKeeps(w, es);
    var u := Play(w, es);
    assert NoLater(u.held[i], w.held[i]) && Held(u, i);
    assert Held(w, i);
  }

  /** Two clients whose calls carry one timestamp and number share its secret and primary SFT. */
  lemma SamePairSameCall(n: nat, es: seq<Move>, i: nat, j: nat)
    requires Plays(Fresh(n), es) && i < n && j < n
    ensures var held := Play(Fresh(n), es).held;
            && |held| == n
            && (held[i].ts == held[j].ts > 0 && held[i].seqno == held[j].seqno ==> held[i] == held[j])
  {
    FreshIsSound(n);
    PlayKeeps(Fresh(n), es);
    var u := Play(Fresh(n), es);
    assert Held(u, i) && Held(u, j);
  }

  /** Client i hears of call c in a valid message during the run. */
  predicate Heard(es: seq<Move>, i: nat, c: Call) {
    exists k | 0 <= k < |es| :: HeardAt(es[k], i, c)
  }

  predicate HeardAt(e: Move, i: nat, c: Call) {
    e.Hear? && e.i == i && e.call == c && Valid(Msg(e.start, e.request, e.age, c))
  }

  lemma {:induction false} HeardSettles(w: World, es: seq<Move>, i: nat, c: Call)
    requires Sound(w) && Plays(w, es) && i < |w.held| && Heard(es, i, c)
    requires IsEarliest(c, Play(w, es).made)
    ensures i < |Play(w, es).held| && Play(w, es).held[i] == c
    decreases |es|
  {
    PlayKeeps(w, es);
    var k :| 0 <= k < |es| && HeardAt(es[k], i, c);
    var u := Next(w, es[0]);
    NextKeeps(w, es[0]);
    PlayKeeps(u, es[1..]);
    if k == 0 {
      HearKeeps(w, i, Msg(es[0].start, es[0].request, es[0].age, c));
      assert u.held[i] == c by {
        assert !Earlier(u.held[i], c) && !Earlier(c, u.held[i]);
      }
      EarliestIsKept(u, es[1..], i);
    } else {
      assert es[1..][k - 1] == es[k];
      HeardSettles(u, es[1..], i, c);
    }
  }

  /** Client i makes call c during the run. */
  predicate Makes(es: seq<Move>, i: nat, c: Call) {
    exists k | 0 <= k < |es| :: es[k] == Make(i, c)
  }

  lemma {:induction false} MakingSettles(w: World, es: seq<Move>, i: nat, c: Call)
    requires Sound(w) && Plays(w, es) && i < |w.held| && Makes(es, i, c)
    requires IsEarliest(c, Play(w, es).made)
    ensures i < |Play(w, es).held| && Play(w, es).held[i] == c
    decreases |es|
  {
    PlayKeeps(w, es);
    var k :| 0 <= k < |es| && es[k] == Make(i, c);
    NextKeeps(w, es[0]);
    if k == 0 {
      EarliestIsKept(Next(w, es[0]), es[1..], i);
    } else {
      assert es[1..][k - 1] == es[k];
      MakingSettles(Next(w, es[0]), es[1..], i, c);
    }
  }

  /**
   Agreement: when every client has made or heard of the earliest call that was made, whatever else was sent and in
   whatever order, all of them hold that call.
   */
  lemma AllAgreeOnTheEarliest(n: nat, es: seq<Move>, c: Call)
    requires Plays(Fresh(n), es) && IsEarliest(c, Play(Fresh(n), es).made)
    requires forall i | 0 <= i < n :: Heard(es, i, c) || Makes(es, i, c)
    ensures Play(Fresh(n), es).held == seq(n, _ => c)
  {
    FreshIsSound(n);
    PlayKeeps(Fresh(n), es);
    forall i | 0 <= i < n ensures Play(Fresh(n), es).held[i] == c {
      if Heard(es, i, c) {
        HeardSettles(Fresh(n), es, i, c);
      } else {
        MakingSettles(Fresh(n), es, i, c);
      }
    }
  }
}
