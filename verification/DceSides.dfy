/**
 The two sides of a data-channel association pick streams of different parity, so that neither opens a stream the
 other has picked, and a stream one side asks for is free on the other.
 */
module DceSides {
  import opened Dce

  // ---------------------------------------------------------------------------------------
  // The two sides open different streams
  // ---------------------------------------------------------------------------------------

  predicate OfSide(s: int, even: bool) {
    0 < s < NUM && (s % 2 == 0 <==> even)
  }

  /** The stream picked, if any, has the parity of the side exactly when streams are reported or the side is odd. */
  lemma PickIsOfSideIff(t: Tables, streams: int)
    requires Shaped(t)
    ensures FreeStream(t, streams) == 0 || OfSide(FreeStream(t, streams), t.evenSid) <==> streams != 0 || !t.evenSid
  {
    FreeStreamIsGoodIff(t, streams);
  }

  /** The streams a step picks for channels of this side, at once or after more streams were granted. */
  function Picks(t: Tables, e: Event): set<int>
    requires Shaped(t) && Inside(t, e)
  {
    match e
    case LocalOpen(req, streams, _) =>
      if Openable(req) && FreeChannel(t) < NUM then {FreeStream(t, streams)} - {0} else {}
    case StreamChange(failed, counts, _) => ChangePicks(t, 0, failed, counts)
    case _ => {}
  }

  function ChangeOnePicks(t: Tables, c: int, failed: bool, streams: int): set<int>
    requires Shaped(t) && 0 <= c < NUM
  {
    var s := ChangeOne(t, c, failed, streams).0.chans[c].oStream;
    if s != t.chans[c].oStream then {s} else {}
  }

  function ChangePicks(t: Tables, c: int, failed: bool, streams: seq<int>): set<int>
    requires Shaped(t) && 0 <= c <= NUM == |streams|
    decreases NUM - c
  {
    if c == NUM then {}
    else
      var (t1, stop) := ChangeOne(t, c, failed, streams[c]);
      ChangeOnePicks(t, c, failed, streams[c]) + if stop then {} else ChangePicks(t1, c + 1, failed, streams)
  }

  function AllPicks(t: Tables, es: seq<Event>): set<int>
    requires Shaped(t) && InsideRun(t, es)
    decreases |es|
  {
    if |es| == 0 then {} else Picks(t, es[0]) + AllPicks(Step(t, es[0]), es[1..])
  }

  /** Whenever the step looks for a stream, usrsctp reports an error or some streams. */
  predicate Reported(e: Event) {
    match e
    case LocalOpen(_, streams, _) => streams != 0
    case StreamChange(_, counts, _) => forall i | 0 <= i < |counts| :: counts[i] != 0
    case _ => true
  }

  predicate AllReported(es: seq<Event>) {
    forall i | 0 <= i < |es| :: Reported(es[i])
  }

  /** What a side can pick at all: streams of its parity, and stream 1. */
  predicate OfSideOrOne(s: int, even: bool) {
    OfSide(s, even) || s == 1
  }

  lemma ChangeOnePicksOfSide(t: Tables, c: int, failed: bool, streams: int)
    requires Shaped(t) && 0 <= c < NUM
    ensures forall s | s in ChangeOnePicks(t, c, failed, streams) :: OfSideOrOne(s, t.evenSid)
    ensures streams != 0 ==> forall s | s in ChangeOnePicks(t, c, failed, streams) :: OfSide(s, t.evenSid)
  {
    FreeStreamIsGoodIff(t, streams);
  }

  lemma {:induction false} ChangePicksOfSide(t: Tables, c: int, failed: bool, streams: seq<int>)
    requires Shaped(t) && 0 <= c <= NUM == |streams|
    ensures forall s | s in ChangePicks(t, c, failed, streams) :: OfSideOrOne(s, t.evenSid)
    ensures (forall i | 0 <= i < NUM :: streams[i] != 0) ==>
              forall s | s in ChangePicks(t, c, failed, streams) :: OfSide(s, t.evenSid)
    decreases NUM - c
  {
    if c < NUM {
      ChangeOnePicksOfSide(t, c, failed, streams[c]);
      var (t1, stop) := ChangeOne(t, c, failed, streams[c]);
      if !stop {
        ChangePicksOfSide(t1, c + 1, failed, streams);
      }
    }
  }

  lemma PicksOfSide(t: Tables, e: Event)
    requires Shaped(t) && Inside(t, e)
    ensures forall s | s in Picks(t, e) :: OfSideOrOne(s, t.evenSid)
    ensures Reported(e) ==> forall s | s in Picks(t, e) :: OfSide(s, t.evenSid)
  {
    if e.LocalOpen? {
      FreeStreamIsGoodIff(t, e.streams);
    } else if e.StreamChange? {
      ChangePicksOfSide(t, 0, e.failed, e.counts);
    }
  }

  lemma {:induction false} AllPicksOfSide(t: Tables, es: seq<Event>)
    requires Shaped(t) && InsideRun(t, es)
    ensures forall s | s in AllPicks(t, es) :: OfSideOrOne(s, t.evenSid)
    ensures AllReported(es) ==> forall s | s in AllPicks(t, es) :: OfSide(s, t.evenSid)
    decreases |es|
  {
    if |es| > 0 {
      PicksOfSide(t, es[0]);
      AllPicksOfSide(Step(t, es[0]), es[1..]);
      assert AllReported(es) ==> Reported(es[0]) && AllReported(es[1..]);
    }
  }

  lemma DisjointIff(evens: set<int>, odds: set<int>)
    requires forall s | s in evens :: OfSideOrOne(s, true)
    requires forall s | s in odds :: OfSideOrOne(s, false)
    ensures evens !! odds <==> !(1 in evens && 1 in odds)
  {
    forall s | s in evens && s in odds ensures s == 1 {
      assert OfSideOrOne(s, true) && OfSideOrOne(s, false);
    }
  }

  lemma PicksFromInit(even: bool, es: seq<Event>)
    requires InsideRun(Init(even), es)
    ensures forall s | s in AllPicks(Init(even), es) :: OfSideOrOne(s, even)
    ensures AllReported(es) ==> forall s | s in AllPicks(Init(even), es) :: OfSide(s, even)
  {
    AllPicksOfSide(Init(even), es);
  }

  /** Whatever the two sides do, they pick a stream in common if and only if both pick stream 1. */
  lemma SidesCollideOnlyOnOne(evens: seq<Event>, odds: seq<Event>)
    requires InsideRun(Init(true), evens) && InsideRun(Init(false), odds)
    ensures AllPicks(Init(true), evens) !! AllPicks(Init(false), odds)
            <==> !(1 in AllPicks(Init(true), evens) && 1 in AllPicks(Init(false), odds))
  {
    PicksFromInit(true, evens);
    PicksFromInit(false, odds);
    DisjointIff(AllPicks(Init(true), evens), AllPicks(Init(false), odds));
  }

  /** A search answers 1: unchecked when no streams are reported, or because 1 is free on the odd side. */
  predicate AnswersOne(t: Tables, streams: int)
    requires Shaped(t)
  {
    streams == 0 || (streams > 1 && !t.evenSid && t.outMap[1] == NONE)
  }

  lemma FreeStreamIsOneIff(t: Tables, streams: int)
    requires Shaped(t)
    ensures FreeStream(t, streams) == 1 <==> AnswersOne(t, streams)
  {
    FreeStreamIsGoodIff(t, streams);
  }

  /** A channel that was opened and still waits for its stream. */
  predicate Deferred(t: Tables, c: int)
    requires Shaped(t) && 0 <= c < NUM
  {
    t.chans[c].state.Connecting? && t.chans[c].oStream == 0
  }

  predicate ChangeAsksForOne(t: Tables, c: int, failed: bool, streams: seq<int>)
    requires Shaped(t) && 0 <= c <= NUM == |streams|
    decreases NUM - c
  {
    c < NUM &&
    (|| (Deferred(t, c) && !failed && AnswersOne(t, streams[c]))
     || (&& !ChangeOne(t, c, failed, streams[c]).1
         && ChangeAsksForOne(ChangeOne(t, c, failed, streams[c]).0, c + 1, failed, streams)))
  }

  /** The step looks for a stream, for a new channel or a deferred one it comes to, and the search answers 1. */
  predicate AsksForOne(t: Tables, e: Event)
    requires Shaped(t) && Inside(t, e)
  {
    match e
    case LocalOpen(req, streams, _) => Openable(req) && FreeChannel(t) < NUM && AnswersOne(t, streams)
    case StreamChange(failed, counts, _) => ChangeAsksForOne(t, 0, failed, counts)
    case _ => false
  }

  predicate EverAsksForOne(t: Tables, es: seq<Event>)
    requires Shaped(t) && InsideRun(t, es)
    decreases |es|
  {
    |es| > 0 && (AsksForOne(t, es[0]) || EverAsksForOne(Step(t, es[0]), es[1..]))
  }

  lemma ChangeOnePicksOneIff(t: Tables, c: int, failed: bool, streams: int)
    requires Shaped(t) && 0 <= c < NUM
    ensures 1 in ChangeOnePicks(t, c, failed, streams) <==> Deferred(t, c) && !failed && AnswersOne(t, streams)
  {
    FreeStreamIsOneIff(t, streams);
  }

  lemma {:induction false} ChangePicksOneIff(t: Tables, c: int, failed: bool, streams: seq<int>)
    requires Shaped(t) && 0 <= c <= NUM == |streams|
    ensures 1 in ChangePicks(t, c, failed, streams) <==> ChangeAsksForOne(t, c, failed, streams)
    decreases NUM - c
  {
    if c < NUM {
      ChangeOnePicksOneIff(t, c, failed, streams[c]);
      var (t1, stop) := ChangeOne(t, c, failed, streams[c]);
      if !stop {
        ChangePicksOneIff(t1, c + 1, failed, streams);
      }
    }
  }

  /** A step picks stream 1 exactly when it looks for a stream and the search answers 1. */
  lemma PicksOneIff(t: Tables, e: Event)
    requires Shaped(t) && Inside(t, e)
    ensures 1 in Picks(t, e) <==> AsksForOne(t, e)
  {
    if e.LocalOpen? {
      FreeStreamIsOneIff(t, e.streams);
    } else if e.StreamChange? {
      ChangePicksOneIff(t, 0, e.failed, e.counts);
    }
  }

  lemma {:induction false} AllPicksOneIff(t: Tables, es: seq<Event>)
    requires Shaped(t) && InsideRun(t, es)
    ensures 1 in AllPicks(t, es) <==> EverAsksForOne(t, es)
    decreases |es|
  {
    if |es| > 0 {
      PicksOneIff(t, es[0]);
      AllPicksOneIff(Step(t, es[0]), es[1..]);
    }
  }

  /**
   So they collide if and only if the even side looks for a stream while none are reported and the odd side, too,
   looks for one while none are reported or stream 1 is free.
   */
  lemma SidesCollideIff(evens: seq<Event>, odds: seq<Event>)
    requires InsideRun(Init(true), evens) && InsideRun(Init(false), odds)
    ensures AllPicks(Init(true), evens) !! AllPicks(Init(false), odds)
            <==> !(EverAsksForOne(Init(true), evens) && EverAsksForOne(Init(false), odds))
  {
    SidesCollideOnlyOnOne(evens, odds);
    AllPicksOneIff(Init(true), evens);
    AllPicksOneIff(Init(false), odds);
  }

  lemma EvensLeaveOne(evens: set<int>)
    requires forall s | s in evens :: OfSide(s, true)
    ensures 1 !in evens
  {
    assert !OfSide(1, true);
  }

  /** So they never do when the even side, the one with the active DTLS role, is never told that there are none. */
  lemma SidesNeverCollide(evens: seq<Event>, odds: seq<Event>)
    requires InsideRun(Init(true), evens) && InsideRun(Init(false), odds) && AllReported(evens)
    ensures AllPicks(Init(true), evens) !! AllPicks(Init(false), odds)
  {
    SidesCollideOnlyOnOne(evens, odds);
    PicksFromInit(true, evens);
    EvensLeaveOne(AllPicks(Init(true), evens));
  }

  /** Told so, it picks stream 1, and so does the odd side when two or more streams, or none, are reported. */
  lemma ToldOfNoneTheSidesCollide(q: Request, streams: int)
    requires Openable(q) && (streams == 0 || streams > 1)
    ensures FreeStream(Init(true), 0) == 1 == FreeStream(Init(false), streams)
    ensures Picks(Init(true), LocalOpen(q, 0, Taken)) == {1} == Picks(Init(false), LocalOpen(q, streams, Taken))
  {
    assert FreeChannel(Init(true)) == 0 && FreeChannel(Init(false)) == 0;
    assert MayOpen(Init(false), 1);
  }

  // ---------------------------------------------------------------------------------------
  // A stream the other side opens is free here
  // ---------------------------------------------------------------------------------------

  predicate Free(t: Tables, s: int)
    requires Shaped(t) && 0 <= s < NUM
  {
    t.inMap[s] == NONE && t.outMap[s] == NONE
  }

  lemma {:induction false} ResetKeepsFree(t: Tables, incoming: bool, outgoing: bool, ids: seq<nat>, s: int)
    requires Shaped(t) && 0 < s < NUM && Free(t, s)
    ensures Free(ResetStreams(t, incoming, outgoing, ids), s)
    decreases |ids|
  {
    if |ids| > 0 {
      var t1 := if incoming then ResetIn(t, ids[0]) else t;
      assert Free(t1, s);
      var t2 := if outgoing then ResetOut(t1, ids[0]) else t1;
      assert Free(t2, s);
      ResetKeepsFree(t2, incoming, outgoing, ids[1..], s);
    }
  }

  lemma ChangeOneKeepsFree(t: Tables, c: int, failed: bool, streams: int, s: int)
    requires Shaped(t) && 0 <= c < NUM && 0 < s < NUM && Free(t, s)
    requires s !in ChangeOnePicks(t, c, failed, streams)
    ensures Free(ChangeOne(t, c, failed, streams).0, s)
  {
  }

  lemma {:induction false} ChangeKeepsFree(t: Tables, c: int, failed: bool, streams: seq<int>, s: int)
    requires Shaped(t) && 0 <= c <= NUM == |streams| && 0 < s < NUM && Free(t, s)
    requires s !in ChangePicks(t, c, failed, streams)
    ensures Free(ChangeFrom(t, c, failed, streams), s)
    decreases NUM - c
  {
    if c < NUM {
      ChangeOneKeepsFree(t, c, failed, streams[c], s);
      var (t1, stop) := ChangeOne(t, c, failed, streams[c]);
      if !stop {
        ChangeKeepsFree(t1, c + 1, failed, streams, s);
      }
    }
  }

  lemma OpenKeepsFree(t: Tables, q: Request, streams: int, sent: Sent, s: int)
    requires Shaped(t) && 0 < s < NUM && Free(t, s)
    requires s !in Picks(t, LocalOpen(q, streams, sent))
    ensures Free(OpenChannel(t, q, streams, sent).0, s)
  {
  }

  lemma RemoteOpenKeepsFree(t: Tables, q: Request, r: int, streams: int, sent: Sent, s: int)
    requires Shaped(t) && 0 < s < NUM && Free(t, s) && 0 <= r && r != s && EntersInside(t, r, streams)
    ensures Free(RemoteOpen(t, q, r, streams, sent), s)
  {
  }

  /** A free stream stays free unless this side picks it or the other side asks for it. */
  lemma StepKeepsFree(t: Tables, e: Event, s: int)
    requires Shaped(t) && Inside(t, e) && 0 < s < NUM && Free(t, s)
    requires s !in Picks(t, e) && !(e.PeerOpen? && e.s == s)
    ensures Free(Step(t, e), s)
  {
    match e
    case LocalOpen(q, streams, sent) => OpenKeepsFree(t, q, streams, sent, s);
    case PeerOpen(q, r, streams, sent) => RemoteOpenKeepsFree(t, q, r, streams, sent, s);
    case PeerData(_) =>
    case LocalClose(_, _) =>
    case StreamReset(incoming, outgoing, ids, _) => ResetKeepsFree(t, incoming, outgoing, ids, s);
    case StreamChange(failed, counts, _) => ChangeKeepsFree(t, 0, failed, counts, s);
  }

  predicate AskedFor(es: seq<Event>, s: int) {
    exists i | 0 <= i < |es| :: es[i].PeerOpen? && es[i].s == s
  }

  lemma {:induction false} RunKeepsFree(t: Tables, es: seq<Event>, s: int)
    requires Shaped(t) && InsideRun(t, es) && 0 < s < NUM && Free(t, s)
    requires s !in AllPicks(t, es) && !AskedFor(es, s)
    ensures Free(Run(t, es), s)
    decreases |es|
  {
    if |es| > 0 {
      StepKeepsFree(t, es[0], s);
      assert !AskedFor(es[1..], s) by {
        forall i | 0 <= i < |es[1..]| ensures !(es[1..][i].PeerOpen? && es[1..][i].s == s) {
          assert es[1..][i] == es[i + 1];
        }
      }
      RunKeepsFree(Step(t, es[0]), es[1..], s);
    }
  }

  /** In any run, a stream of the other side's parity that it has not asked for yet is free in both tables. */
  lemma OtherSidesStreamsAreFree(even: bool, es: seq<Event>, s: int)
    requires InsideRun(Init(even), es) && OfSide(s, !even) && !AskedFor(es, s) && (even ==> AllReported(es))
    ensures Free(Run(Init(even), es), s)
  {
    PicksFromInit(even, es);
    assert s !in AllPicks(Init(even), es);
    RunKeepsFree(Init(even), es, s);
  }
}
