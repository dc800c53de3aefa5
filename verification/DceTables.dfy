/**
 What every run of data-channel operations keeps: the outgoing table and the channels' own stream numbers are
 one bijection, exactly as long as no step enters a channel on a stream of another, and the reset list never
 outgrows its buffer.
 */
module DceTables {
  import opened Dce

  // ---------------------------------------------------------------------------------------
  // Invariants
  // ---------------------------------------------------------------------------------------

  predicate ChannelLinked(t: Tables, c: int)
    requires Shaped(t) && 0 <= c < NUM
  {
    && (t.chans[c].oStream != 0 ==> t.outMap[t.chans[c].oStream] == c)
    && (t.chans[c].state.Closed? ==> t.chans[c].oStream == 0)
  }

  predicate StreamLinked(t: Tables, s: int)
    requires Shaped(t) && 0 <= s < NUM
  {
    t.outMap[s] != NONE ==> s != 0 && t.chans[t.outMap[s]].oStream == s
  }

  /** Channels with an outgoing stream and occupied slots correspond one to one, slot 0 is never occupied, and a
      closed channel has no outgoing stream. */
  predicate Linked(t: Tables)
    requires Shaped(t)
  {
    (forall c | 0 <= c < NUM :: ChannelLinked(t, c)) && (forall s | 0 <= s < NUM :: StreamLinked(t, s))
  }

  /** The pending resets are distinct streams of the tables. */
  predicate PendingSound(p: seq<int>) {
    && (forall i | 0 <= i < |p| :: 0 <= p[i] < NUM)
    && (forall i, j | 0 <= i < j < |p| :: p[i] != p[j])
  }

  predicate Inv(t: Tables) {
    Shaped(t) && Linked(t) && PendingSound(t.pending)
  }

  /** The bijection, said of any two channels and any stream. */
  lemma LinkedIsBijection(t: Tables, s: int, c: int)
    requires Shaped(t) && Linked(t) && 0 < s < NUM && 0 <= c < NUM
    ensures t.outMap[s] == c <==> t.chans[c].oStream == s
  {
    assert ChannelLinked(t, c) && StreamLinked(t, s);
  }

  // ---------------------------------------------------------------------------------------
  // The reset list fits its buffer
  // ---------------------------------------------------------------------------------------

  lemma {:induction false} DistinctInRangeIsShort(p: seq<int>, n: nat)
    requires forall i | 0 <= i < |p| :: 0 <= p[i] < n
    requires forall i, j | 0 <= i < j < |p| :: p[i] != p[j]
    ensures |p| <= n
    decreases n
  {
    if |p| == 0 {
    } else {
      assert 0 <= p[0] < n;
      if k :| 0 <= k < |p| && p[k] == n - 1 {
        DistinctInRangeIsShort(p[..k] + p[k + 1..], n - 1);
      } else {
        DistinctInRangeIsShort(p, n - 1);
      }
    }
  }

  /** A stream that is not yet listed finds room: the append in reset_outgoing_stream is within the buffer. */
  lemma PendingHasRoom(p: seq<int>, s: int)
    requires PendingSound(p) && 0 <= s < NUM && s !in p
    ensures |p| < NUM && PendingSound(p + [s])
  {
    DistinctInRangeIsShort(p + [s], NUM);
  }

  lemma QueueResetSound(t: Tables, s: int)
    requires PendingSound(t.pending) && 0 <= s < NUM
    ensures PendingSound(QueueReset(t, s).pending)
  {
    if s !in t.pending {
      PendingHasRoom(t.pending, s);
    }
  }

  // ---------------------------------------------------------------------------------------
  // Three ways to touch the outgoing table
  // ---------------------------------------------------------------------------------------

  /** Nothing changes for the outgoing side. */
  lemma Untouched(t: Tables, u: Tables)
    requires Shaped(t) && Linked(t) && Shaped(u) && u.outMap == t.outMap
    requires forall c | 0 <= c < NUM :: u.chans[c].oStream == t.chans[c].oStream
    requires forall c | 0 <= c < NUM && u.chans[c].state.Closed? :: t.chans[c].state.Closed? || u.chans[c].oStream == 0
    ensures Linked(u)
  {
    forall c | 0 <= c < NUM ensures ChannelLinked(u, c) {
      assert ChannelLinked(t, c);
    }
    forall s | 0 <= s < NUM ensures StreamLinked(u, s) {
      assert StreamLinked(t, s);
    }
  }

  /** Channel c, which had no stream, gets the free stream s. */
  lemma Bound(t: Tables, u: Tables, c: int, s: int)
    requires Shaped(t) && Linked(t) && Shaped(u) && 0 <= c < NUM && 0 < s < NUM
    requires t.chans[c].oStream == 0 && t.outMap[s] == NONE
    requires u.outMap == t.outMap[s := c] && u.chans[c].oStream == s && !u.chans[c].state.Closed?
    requires forall d | 0 <= d < NUM && d != c :: u.chans[d] == t.chans[d]
    ensures Linked(u)
  {
    forall d | 0 <= d < NUM ensures ChannelLinked(u, d) {
      assert ChannelLinked(t, d);
    }
    forall r | 0 <= r < NUM ensures StreamLinked(u, r) {
      assert StreamLinked(t, r);
    }
  }

  /** Channel c gives up its stream. */
  lemma Unbound(t: Tables, u: Tables, c: int)
    requires Shaped(t) && Linked(t) && Shaped(u) && 0 <= c < NUM && t.chans[c].oStream != 0
    requires u.outMap == t.outMap[t.chans[c].oStream := NONE] && u.chans[c].oStream == 0
    requires forall d | 0 <= d < NUM && d != c :: u.chans[d] == t.chans[d]
    ensures Linked(u)
  {
    forall d | 0 <= d < NUM ensures ChannelLinked(u, d) {
      assert ChannelLinked(t, d);
      assert ChannelLinked(t, c);
    }
    forall r | 0 <= r < NUM ensures StreamLinked(u, r) {
      assert StreamLinked(t, r);
      assert ChannelLinked(t, c);
    }
  }

  /** A stream taken from another channel breaks the table. */
  lemma Stolen(t: Tables, u: Tables, c: int, s: int)
    requires Shaped(t) && Linked(t) && Shaped(u) && 0 <= c < NUM && 0 < s < NUM
    requires t.chans[c].oStream == 0 && t.outMap[s] != NONE
    requires u.outMap == t.outMap[s := c]
    requires forall d | 0 <= d < NUM && d != c :: u.chans[d] == t.chans[d]
    ensures !Linked(u)
  {
    assert StreamLinked(t, s);
    assert !ChannelLinked(u, t.outMap[s]);
  }

  // ---------------------------------------------------------------------------------------
  // Operations
  // ---------------------------------------------------------------------------------------

  lemma FreeChannelIsClosed(t: Tables)
    requires Shaped(t) && Linked(t)
    ensures FreeChannel(t) < NUM ==> 0 <= FreeChannel(t) && t.chans[FreeChannel(t)].state.Closed?
                                     && t.chans[FreeChannel(t)].oStream == 0
  {
    if FreeChannel(t) < NUM {
      assert ChannelLinked(t, FreeChannel(t));
    }
  }

  lemma OpenOnKeepsLinkedIff(t: Tables, q: Request, c: int, s: int, sent: Sent)
    requires Shaped(t) && Linked(t) && 0 <= c < NUM && 0 <= s < NUM && t.chans[c].oStream == 0
    ensures Linked(OpenOn(t, q, c, s, sent).0) <==> s == 0 || sent.Refused? || t.outMap[s] == NONE
    ensures OpenOn(t, q, c, s, sent).0.pending == t.pending
  {
    var u := OpenOn(t, q, c, s, sent).0;
    if s == 0 || sent.Refused? {
      Untouched(t, u);
    } else if t.outMap[s] == NONE {
      Bound(t, u, c, s);
    } else {
      Stolen(t, u, c, s);
    }
  }

  /** The open goes as far as entering its stream in the outgoing table. */
  predicate Enters(t: Tables, q: Request, sent: Sent)
    requires Shaped(t)
  {
    Openable(q) && FreeChannel(t) < NUM && !sent.Refused?
  }

  /**
   Opening keeps the bijection exactly when it does not enter stream 1 over another channel's, which happens
   when usrsctp reports no streams at all and stream 1 is in use.
   */
  lemma OpenKeepsLinkedIff(t: Tables, q: Request, streams: int, sent: Sent)
    requires Shaped(t) && Linked(t)
    ensures Linked(OpenChannel(t, q, streams, sent).0)
            <==> !(streams == 0 && t.outMap[1] != NONE && Enters(t, q, sent))
    ensures OpenChannel(t, q, streams, sent).0.pending == t.pending
  {
    FreeChannelIsClosed(t);
    FreeStreamIsGoodIff(t, streams);
    if FreeChannel(t) < NUM {
      OpenOnKeepsLinkedIff(t, q, FreeChannel(t), FreeStream(t, streams), sent);
    }
  }

  lemma AcceptOnKeepsInv(t: Tables, q: Request, c: int, s: int, sent: Sent)
    requires Inv(t) && 0 <= c < NUM && 0 <= s < NUM && t.chans[c].oStream == 0 && t.outMap[s] == NONE
    ensures Inv(AcceptOn(t, q, c, s, sent))
  {
    var u := AcceptOn(t, q, c, s, sent);
    if s == 0 || sent.Refused? {
      Untouched(t, u);
    } else {
      Bound(t, u, c, s);
    }
  }

  lemma RemoteOpenKeepsInv(t: Tables, q: Request, s: int, streams: int, sent: Sent)
    requires Inv(t) && 0 <= s && EntersInside(t, s, streams)
    ensures Inv(RemoteOpen(t, q, s, streams, sent))
  {
    FreeChannelIsClosed(t);
    if Admits(t, s, streams) && FreeChannel(t) < NUM {
      AcceptOnKeepsInv(t, q, FreeChannel(t), s, sent);
    }
  }

  lemma AcknowledgeKeepsInv(t: Tables, s: int)
    requires Inv(t) && 0 <= s
    ensures Inv(Acknowledge(t, s))
  {
    Untouched(t, Acknowledge(t, s));
  }

  lemma CloseKeepsInv(t: Tables, c: int, accepted: bool)
    requires Inv(t) && 0 <= c < NUM
    ensures Inv(CloseChannel(t, c, accepted))
  {
    Untouched(t, CloseChannel(t, c, accepted));
    QueueResetSound(t, t.chans[c].oStream);
  }

  lemma ResetInKeepsInv(t: Tables, s: int)
    requires Inv(t) && 0 <= s
    ensures Inv(ResetIn(t, s))
  {
    var c := InChannel(t, s);
    if c != NONE {
      Untouched(t, ResetIn(t, s));
      QueueResetSound(t, t.chans[c].oStream);
    }
  }

  lemma ResetOutKeepsInv(t: Tables, s: int)
    requires Inv(t) && 0 <= s
    ensures Inv(ResetOut(t, s))
  {
    var c := OutChannel(t, s);
    if c != NONE {
      assert StreamLinked(t, s);
      Unbound(t, ResetOut(t, s), c);
    }
  }

  lemma {:induction false} ResetStreamsKeepsInv(t: Tables, incoming: bool, outgoing: bool, ids: seq<nat>)
    requires Inv(t)
    ensures Inv(ResetStreams(t, incoming, outgoing, ids))
    decreases |ids|
  {
    if ids != [] {
      var t1 := if incoming then ResetIn(t, ids[0]) else t;
      if incoming {
        ResetInKeepsInv(t, ids[0]);
      }
      if outgoing {
        ResetOutKeepsInv(t1, ids[0]);
      }
      ResetStreamsKeepsInv(if outgoing then ResetOut(t1, ids[0]) else t1, incoming, outgoing, ids[1..]);
    }
  }

  /** The channel is deferred, and given stream 1 unchecked while another channel has it. */
  predicate ChangeOneSteals(t: Tables, c: int, failed: bool, streams: int)
    requires Shaped(t) && 0 <= c < NUM
  {
    t.chans[c].state.Connecting? && t.chans[c].oStream == 0 && !failed && streams == 0 && t.outMap[1] != NONE
  }

  lemma ChangeOneKeepsLinkedIff(t: Tables, c: int, failed: bool, streams: int)
    requires Shaped(t) && Linked(t) && 0 <= c < NUM
    ensures Linked(ChangeOne(t, c, failed, streams).0) <==> !ChangeOneSteals(t, c, failed, streams)
  {
    var u := ChangeOne(t, c, failed, streams).0;
    FreeStreamIsGoodIff(t, streams);
    var s := FreeStream(t, streams);
    if !t.chans[c].state.Connecting? || t.chans[c].oStream != 0 {
    } else if failed || s == 0 {
      Untouched(t, u);
    } else if t.outMap[s] == NONE {
      Bound(t, u, c, s);
    } else {
      Stolen(t, u, c, s);
    }
  }

  /** A channel whose stream was taken stays without it while other channels are given theirs. */
  lemma StaysStolen(t: Tables, c: int, failed: bool, streams: int, d: int)
    requires Shaped(t) && 0 <= c < NUM && 0 <= d < NUM && t.chans[d].oStream != 0 && t.outMap[t.chans[d].oStream] != d
    ensures var u := ChangeOne(t, c, failed, streams).0;
            u.chans[d].oStream != 0 && u.outMap[u.chans[d].oStream] != d
  {
  }

  lemma {:induction false} StolenToTheEnd(t: Tables, c: int, failed: bool, streams: seq<int>, d: int)
    requires Shaped(t) && 0 <= c <= NUM == |streams|
    requires 0 <= d < NUM && t.chans[d].oStream != 0 && t.outMap[t.chans[d].oStream] != d
    ensures !Linked(ChangeFrom(t, c, failed, streams))
    decreases NUM - c
  {
    if c == NUM {
      assert !ChannelLinked(t, d);
    } else {
      StaysStolen(t, c, failed, streams[c], d);
      var (t1, stop) := ChangeOne(t, c, failed, streams[c]);
      if stop {
        assert !ChannelLinked(t1, d);
      } else {
        StolenToTheEnd(t1, c + 1, failed, streams, d);
      }
    }
  }

  predicate ChangeSteals(t: Tables, c: int, failed: bool, streams: seq<int>)
    requires Shaped(t) && 0 <= c <= NUM == |streams|
    decreases NUM - c
  {
    c < NUM &&
    (|| ChangeOneSteals(t, c, failed, streams[c])
     || (!ChangeOne(t, c, failed, streams[c]).1
         && ChangeSteals(ChangeOne(t, c, failed, streams[c]).0, c + 1, failed, streams)))
  }

  lemma WhoWasRobbed(t: Tables, c: int, failed: bool, streams: int) returns (d: int)
    requires Shaped(t) && Linked(t) && 0 <= c < NUM && ChangeOneSteals(t, c, failed, streams)
    ensures var u := ChangeOne(t, c, failed, streams).0;
            0 <= d < NUM && u.chans[d].oStream != 0 && u.outMap[u.chans[d].oStream] != d
    ensures !ChangeOne(t, c, failed, streams).1
  {
    FreeStreamIsGoodIff(t, streams);
    assert StreamLinked(t, 1);
    d := t.outMap[1];
  }

  lemma StealingNowBreaks(t: Tables, c: int, failed: bool, streams: seq<int>)
    requires Shaped(t) && Linked(t) && 0 <= c < NUM == |streams| && ChangeOneSteals(t, c, failed, streams[c])
    ensures !Linked(ChangeFrom(t, c, failed, streams))
  {
    var d := WhoWasRobbed(t, c, failed, streams[c]);
    StolenToTheEnd(ChangeOne(t, c, failed, streams[c]).0, c + 1, failed, streams, d);
  }

  /** A stream change keeps the bijection exactly when it gives no channel a stream of another. */
  lemma {:induction false} ChangeKeepsLinkedIff(t: Tables, c: int, failed: bool, streams: seq<int>)
    requires Shaped(t) && Linked(t) && 0 <= c <= NUM == |streams|
    ensures Linked(ChangeFrom(t, c, failed, streams)) <==> !ChangeSteals(t, c, failed, streams)
    decreases NUM - c
  {
    if c < NUM {
      if ChangeOneSteals(t, c, failed, streams[c]) {
        StealingNowBreaks(t, c, failed, streams);
      } else {
        ChangeOneKeepsLinkedIff(t, c, failed, streams[c]);
        if !ChangeOne(t, c, failed, streams[c]).1 {
          ChangeKeepsLinkedIff(ChangeOne(t, c, failed, streams[c]).0, c + 1, failed, streams);
        }
      }
    }
  }

  lemma {:induction false} ChangeKeepsPending(t: Tables, c: int, failed: bool, streams: seq<int>)
    requires Shaped(t) && 0 <= c <= NUM == |streams|
    ensures ChangeFrom(t, c, failed, streams).pending == t.pending
    decreases NUM - c
  {
    if c < NUM {
      var (t1, stop) := ChangeOne(t, c, failed, streams[c]);
      if !stop {
        ChangeKeepsPending(t1, c + 1, failed, streams);
      }
    }
  }

  // ---------------------------------------------------------------------------------------
  // Runs
  // ---------------------------------------------------------------------------------------

  /** The step enters a channel on a stream of another one, which takes a report of no streams. */
  predicate Steals(t: Tables, e: Event)
    requires Shaped(t) && Inside(t, e)
  {
    match e
    case LocalOpen(req, streams, sent) => streams == 0 && t.outMap[1] != NONE && Enters(t, req, sent)
    case StreamChange(failed, counts, _) => ChangeSteals(t, 0, failed, counts)
    case _ => false
  }

  lemma SendResetsKeepsLinked(t: Tables, accepted: bool)
    requires Shaped(t)
    ensures Linked(SendResets(t, accepted)) <==> Linked(t)
  {
    var u := SendResets(t, accepted);
    if Linked(t) {
      Untouched(t, u);
    }
    if Linked(u) {
      Untouched(u, t);
    }
  }

  lemma OtherStepKeepsLinked(t: Tables, e: Event)
    requires Inv(t) && Inside(t, e) && !e.LocalOpen? && !e.StreamChange?
    ensures Inv(Step(t, e))
  {
    match e
    case PeerOpen(req, s, streams, sent) => RemoteOpenKeepsInv(t, req, s, streams, sent);
    case PeerData(s) => AcknowledgeKeepsInv(t, s);
    case LocalClose(c, accepted) => CloseKeepsInv(t, c, accepted);
    case StreamReset(incoming, outgoing, ids, accepted) =>
      ResetStreamsKeepsInv(t, incoming, outgoing, ids);
      SendResetsKeepsLinked(ResetStreams(t, incoming, outgoing, ids), accepted);
  }

  /** Every step keeps the reset list sound, and keeps the bijection exactly when it does not steal. */
  lemma StepKeepsLinkedIff(t: Tables, e: Event)
    requires Inv(t) && Inside(t, e)
    ensures PendingSound(Step(t, e).pending)
    ensures Linked(Step(t, e)) <==> !Steals(t, e)
  {
    match e
    case LocalOpen(req, streams, sent) => OpenKeepsLinkedIff(t, req, streams, sent);
    case StreamChange(failed, counts, accepted) =>
      ChangeKeepsPending(t, 0, failed, counts);
      ChangeKeepsLinkedIff(t, 0, failed, counts);
      SendResetsKeepsLinked(ChangeFrom(t, 0, failed, counts), accepted);
    case _ => OtherStepKeepsLinked(t, e);
  }

  lemma InitIsInv(even: bool)
    ensures Inv(Init(even))
  {
    var t := Init(even);
    assert forall c | 0 <= c < NUM :: ChannelLinked(t, c);
    assert forall s | 0 <= s < NUM :: StreamLinked(t, s);
  }

  predicate NeverSteals(t: Tables, es: seq<Event>)
    requires Shaped(t) && InsideRun(t, es)
    decreases |es|
  {
    |es| == 0 || (!Steals(t, es[0]) && NeverSteals(Step(t, es[0]), es[1..]))
  }

  predicate AlwaysLinked(t: Tables, es: seq<Event>)
    requires Shaped(t) && InsideRun(t, es)
    decreases |es|
  {
    Linked(t) && (|es| == 0 || AlwaysLinked(Step(t, es[0]), es[1..]))
  }

  lemma {:induction false} RunKeepsLinkedIff(t: Tables, es: seq<Event>)
    requires Inv(t) && InsideRun(t, es)
    ensures AlwaysLinked(t, es) <==> NeverSteals(t, es)
    ensures NeverSteals(t, es) ==> Inv(Run(t, es))
    decreases |es|
  {
    if |es| > 0 {
      StepKeepsLinkedIff(t, es[0]);
      if !Steals(t, es[0]) {
        RunKeepsLinkedIff(Step(t, es[0]), es[1..]);
      }
    }
  }

  /** All states of a run have their outgoing tables linked if and only if no step of it steals a stream. */
  lemma TablesStayLinkedIff(even: bool, es: seq<Event>)
    requires InsideRun(Init(even), es)
    ensures AlwaysLinked(Init(even), es) <==> NeverSteals(Init(even), es)
  {
    InitIsInv(even);
    RunKeepsLinkedIff(Init(even), es);
  }

  /** And then: the bijection, slot 0 empty, closed channels without a stream, and the reset list within its buffer. */
  lemma TablesStayLinked(even: bool, es: seq<Event>)
    requires InsideRun(Init(even), es) && NeverSteals(Init(even), es)
    ensures var t := Run(Init(even), es);
            && t.outMap[0] == NONE && |t.pending| <= NUM
            && (forall s, c | 0 < s < NUM && 0 <= c < NUM :: t.outMap[s] == c <==> t.chans[c].oStream == s)
            && (forall c | 0 <= c < NUM && t.chans[c].state.Closed? :: t.chans[c].oStream == 0)
  {
    InitIsInv(even);
    RunKeepsLinkedIff(Init(even), es);
    var t := Run(Init(even), es);
    assert StreamLinked(t, 0);
    DistinctInRangeIsShort(t.pending, NUM);
    forall s, c | 0 < s < NUM && 0 <= c < NUM ensures t.outMap[s] == c <==> t.chans[c].oStream == s {
      LinkedIsBijection(t, s, c);
    }
    forall c | 0 <= c < NUM && t.chans[c].state.Closed? ensures t.chans[c].oStream == 0 {
      assert ChannelLinked(t, c);
    }
  }

  /** With no streams reported, opening twice gives both channels stream 1. */
  lemma NoStreamsReportedBreaksTable(even: bool, q: Request)
    requires Openable(q)
    ensures var t := OpenChannel(OpenChannel(Init(even), q, 0, Taken).0, q, 0, Taken).0;
            !Linked(t) && t.chans[0].oStream == 1 && t.chans[1].oStream == 1
  {
    InitIsInv(even);
    var t1 := OpenChannel(Init(even), q, 0, Taken).0;
    OpenKeepsLinkedIff(Init(even), q, 0, Taken);
    assert t1.outMap[1] == 0 && !t1.chans[0].state.Closed? && t1.chans[1].state.Closed?;
    assert FreeChannel(t1) == 1;
    OpenKeepsLinkedIff(t1, q, 0, Taken);
  }

  /** So does a stream change that finds a deferred channel: one open, one deferred, then a report of none. */
  lemma NoStreamsReportedBreaksChange(q: Request, counts: seq<int>)
    requires Openable(q) && |counts| == NUM && counts[1] == 0
    ensures var t := OpenChannel(OpenChannel(Init(false), q, NUM, Taken).0, q, -1, Taken).0;
            Linked(t) && ChangeSteals(t, 0, false, counts) && !Linked(ChangeFrom(t, 0, false, counts))
  {
    InitIsInv(false);
    var t1 := OpenChannel(Init(false), q, NUM, Taken).0;
    OpenKeepsLinkedIff(Init(false), q, NUM, Taken);
    assert FreeStream(Init(false), NUM) == 1;
    assert t1.outMap[1] == 0 && !t1.chans[0].state.Closed? && t1.chans[1].state.Closed?;
    assert FreeChannel(t1) == 1;
    var t := OpenChannel(t1, q, -1, Taken).0;
    OpenKeepsLinkedIff(t1, q, -1, Taken);
    assert t.chans[1].oStream == 0 && t.chans[1].state.Connecting? && t.outMap[1] == 0;
    assert ChangeOne(t, 0, false, counts[0]) == (t, false);
    assert ChangeSteals(t, 1, false, counts);
    ChangeKeepsLinkedIff(t, 0, false, counts);
  }
}
