/**
 The peer connection of src/dce/dce.c, updating its tables in place. Every operation leaves the outgoing table linked
 to the channels if it was, save an open or a stream change that is told of no streams.
 */
module DceObject {
  import opened Dce
  import opened DceTables

  class PeerConnection {
    const channels: array<Channel>
    const iTable: array<int>
    const oTable: array<int>
    const oBuffer: array<int>
    var count: int
    const evenSid: bool

    ghost predicate Sized()
      reads this
    {
      && channels.Length == iTable.Length == oTable.Length == oBuffer.Length == NUM && 0 <= count <= NUM
      && iTable != oTable && iTable != oBuffer && oTable != oBuffer
    }

    ghost function Value(): Tables
      requires Sized()
      reads this, channels, iTable, oTable, oBuffer
    {
      Tables(channels[..], iTable[..], oTable[..], oBuffer[..count], evenSid)
    }

    ghost predicate Valid()
      reads this, channels, iTable, oTable, oBuffer
    {
      Sized() && Shaped(Value()) && PendingSound(Value().pending)
    }

    constructor (even: bool)
      ensures Valid() && Value() == Init(even)
      ensures fresh(channels) && fresh(iTable) && fresh(oTable) && fresh(oBuffer)
    {
      channels := new Channel[NUM](_ => Channel(Closed, false, PR_NONE, 0, 0, 0, false, false, BLANK, BLANK));
      iTable := new int[NUM](_ => NONE);
      oTable := new int[NUM](_ => NONE);
      oBuffer := new int[NUM](_ => 0);
      count := 0;
      evenSid := even;
      new;
      assert channels[..] == Init(even).chans;
      assert iTable[..] == Init(even).inMap;
      assert oTable[..] == Init(even).outMap;
    }

    method PutChannel(c: int, ch: Channel)
      requires Valid() && 0 <= c < NUM && StreamsInRange(ch)
      modifies channels
      ensures Valid() && Value() == SetChan(old(Value()), c, ch)
    {
      channels[c] := ch;
    }

    method PutIn(s: int, c: int)
      requires Valid() && 0 <= s < NUM && ChannelOrNone(c)
      modifies iTable
      ensures Valid() && Value() == SetIn(old(Value()), s, c)
    {
      iTable[s] := c;
    }

    method PutOut(s: int, c: int)
      requires Valid() && 0 <= s < NUM && ChannelOrNone(c)
      modifies oTable
      ensures Valid() && Value() == SetOut(old(Value()), s, c)
    {
      oTable[s] := c;
    }

    method FindFreeChannel() returns (c: int)
      requires Valid()
      ensures c == FreeChannel(Value())
    {
      c := 0;
      while c < NUM && !channels[c].state.Closed?
        invariant 0 <= c <= NUM && FreeChannel(Value()) == FreeChannelFrom(Value(), c)
        decreases NUM - c
      {
        c := c + 1;
      }
    }

    method FindFreeOStream(streams: int) returns (s: int)
      requires Valid()
      ensures s == FreeStream(Value(), streams)
    {
      if streams < 0 {
        return 0;
      }
      var limit := if streams < NUM then streams else NUM;
      s := 1;
      while s < limit && !(oTable[s] == NONE && (s % 2 == 0 <==> evenSid))
        invariant 1 <= s && (limit >= 1 ==> s <= limit)
        invariant FreeStreamFrom(Value(), 1, limit) == FreeStreamFrom(Value(), s, limit)
        decreases limit - s
      {
        s := s + 1;
      }
      if s == limit {
        s := 0;
      }
    }

    method OpenOnStream(q: Request, c: int, s: int, sent: Sent) returns (number: int)
      requires Valid() && 0 <= c < NUM && 0 <= s < NUM
      modifies channels, iTable, oTable
      ensures Valid() && (Value(), number) == OpenOn(old(Value()), q, c, s, sent)
    {
      PutChannel(c, Channel(Connecting, q.unordered, q.policy, q.value, s, s, false, false,
                            Overlay(channels[c].name, q.name), Overlay(channels[c].proto, q.proto)));
      PutIn(s, c);
      number := c;
      if s == 0 {
      } else if sent.Taken? {
        PutOut(s, c);
      } else if sent.Deferred? {
        PutOut(s, c);
        PutChannel(c, channels[c].(sendReq := true));
      } else {
        PutChannel(c, channels[c].(state := Closed, unordered := false, policy := 0, value := 0, oStream := 0));
        number := NONE;
      }
    }

    method OpenChannel(q: Request, streams: int, sent: Sent) returns (number: int)
      requires Valid()
      modifies channels, iTable, oTable
      ensures Valid() && (Value(), number) == Dce.OpenChannel(old(Value()), q, streams, sent)
      ensures old(Linked(Value())) && (streams != 0 || old(Value()).outMap[1] == NONE) ==> Linked(Value())
    {
      if Linked(Value()) {
        OpenKeepsLinkedIff(Value(), q, streams, sent);
      }
      if !Openable(q) {
        return NONE;
      }
      var c := FindFreeChannel();
      if c == NUM {
        return NONE;
      }
      var s := FindFreeOStream(streams);
      number := OpenOnStream(q, c, s, sent);
    }

    method AcceptOnStream(q: Request, c: int, s: int, sent: Sent)
      requires Valid() && 0 <= c < NUM && 0 <= s < NUM
      modifies channels, iTable, oTable
      ensures Valid() && Value() == AcceptOn(old(Value()), q, c, s, sent)
    {
      PutChannel(c, Channel(Open, q.unordered, q.policy, q.value, s, s, false, false,
                            Overlay(channels[c].name, q.name),
                            Overlay(channels[c].proto, q.proto)));
      PutIn(s, c);
      if s == 0 {
      } else if sent.Taken? {
        PutOut(s, c);
      } else if sent.Deferred? {
        PutChannel(c, channels[c].(sendAck := true));
        PutOut(s, c);
      } else {
        PutIn(s, NONE);
        PutChannel(c, channels[c].(state := Closed, unordered := false, policy := 0, value := 0,
                                   iStream := 0, oStream := 0));
      }
    }

    method HandleOpenRequest(q: Request, s: int, streams: int, sent: Sent)
      requires Valid() && 0 <= s && EntersInside(Value(), s, streams)
      modifies channels, iTable, oTable
      ensures Valid() && Value() == RemoteOpen(old(Value()), q, s, streams, sent)
      ensures old(Linked(Value())) ==> Linked(Value())
    {
      if Linked(Value()) {
        RemoteOpenKeepsInv(Value(), q, s, streams, sent);
      }
      if s < NUM && iTable[s] != NONE {
        return;
      }
      if !ValidStream(s, streams) {
        return;
      }
      if s < NUM && oTable[s] != NONE {
        return;
      }
      var c := FindFreeChannel();
      if c < NUM {
        AcceptOnStream(q, c, s, sent);
      }
    }

    method HandleAck(s: int)
      requires Valid() && 0 <= s
      modifies channels
      ensures Valid() && Value() == Acknowledge(old(Value()), s)
      ensures old(Linked(Value())) ==> Linked(Value())
    {
      if Linked(Value()) {
        AcknowledgeKeepsInv(Value(), s);
      }
      if s < NUM && iTable[s] != NONE {
        var c := iTable[s];
        if channels[c].state.Connecting? {
          PutChannel(c, channels[c].(state := Open));
        }
      }
    }

    method ResetOutgoingStream(s: int)
      requires Valid() && 0 <= s < NUM
      modifies this`count, oBuffer
      ensures Valid() && Value() == QueueReset(old(Value()), s)
    {
      var i := 0;
      while i < count
        invariant 0 <= i <= count && s !in oBuffer[..i]
        invariant unchanged(this, oBuffer)
      {
        if oBuffer[i] == s {
          assert s in oBuffer[..count];
          return;
        }
        i := i + 1;
      }
      PendingHasRoom(oBuffer[..count], s);
      oBuffer[count] := s;
      count := count + 1;
      assert oBuffer[..count] == old(oBuffer[..count]) + [s];
    }

    method SendOutgoingStreamReset(accepted: bool)
      requires Valid()
      modifies this`count
      ensures Valid() && Value() == SendResets(old(Value()), accepted)
    {
      if accepted {
        count := 0;
      }
    }

    method CloseChannel(c: int, accepted: bool)
      requires Valid() && 0 <= c < NUM
      modifies this`count, oBuffer, channels
      ensures Valid() && Value() == Dce.CloseChannel(old(Value()), c, accepted)
      ensures old(Linked(Value())) ==> Linked(Value())
    {
      if Linked(Value()) {
        CloseKeepsInv(Value(), c, accepted);
      }
      if !channels[c].state.Open? {
        return;
      }
      ResetOutgoingStream(channels[c].oStream);
      SendOutgoingStreamReset(accepted);
      PutChannel(c, channels[c].(state := Closing));
    }

    method IncomingReset(s: int)
      requires Valid() && 0 <= s
      modifies this`count, oBuffer, channels, iTable
      ensures Valid() && Value() == ResetIn(old(Value()), s)
    {
      if s >= NUM || iTable[s] == NONE {
        return;
      }
      var c := iTable[s];
      PutIn(channels[c].iStream, NONE);
      PutChannel(c, channels[c].(iStream := 0));
      if channels[c].oStream == 0 {
        PutChannel(c, Cleared(channels[c]));
      } else if channels[c].state.Open? {
        ResetOutgoingStream(channels[c].oStream);
        PutChannel(c, channels[c].(state := Closing));
      }
    }

    method OutgoingReset(s: int)
      requires Valid() && 0 <= s
      modifies channels, oTable
      ensures Valid() && Value() == ResetOut(old(Value()), s)
    {
      if s >= NUM || oTable[s] == NONE {
        return;
      }
      var c := oTable[s];
      PutOut(channels[c].oStream, NONE);
      PutChannel(c, channels[c].(oStream := 0));
      if channels[c].iStream == 0 {
        PutChannel(c, Cleared(channels[c]));
      }
    }

    method ResetEach(incoming: bool, outgoing: bool, id: nat)
      requires Valid()
      modifies this`count, oBuffer, channels, iTable, oTable
      ensures Valid() && Value() == ResetBoth(old(Value()), incoming, outgoing, id)
    {
      if incoming {
        IncomingReset(id);
      }
      if outgoing {
        OutgoingReset(id);
      }
    }

    method ResetAll(incoming: bool, outgoing: bool, ids: seq<nat>)
      requires Valid()
      modifies this`count, oBuffer, channels, iTable, oTable
      ensures Valid() && Value() == ResetStreams(old(Value()), incoming, outgoing, ids)
    {
      var i := 0;
      while i < |ids|
        invariant 0 <= i <= |ids| && Valid()
        invariant ResetStreams(old(Value()), incoming, outgoing, ids)
                  == ResetStreams(Value(), incoming, outgoing, ids[i..])
      {
        ResetEach(incoming, outgoing, ids[i]);
        assert ids[i..][1..] == ids[i + 1..];
        i := i + 1;
      }
    }

    method HandleStreamReset(incoming: bool, outgoing: bool, ids: seq<nat>)
      requires Valid()
      modifies this`count, oBuffer, channels, iTable, oTable
      ensures Valid() && Value() == ResetStreams(old(Value()), incoming, outgoing, ids)
      ensures old(Linked(Value())) ==> Linked(Value())
    {
      if Linked(Value()) {
        ResetStreamsKeepsInv(Value(), incoming, outgoing, ids);
      }
      ResetAll(incoming, outgoing, ids);
    }

    method ChangeOneChannel(c: int, failed: bool, streams: int) returns (stop: bool)
      requires Valid() && 0 <= c < NUM
      modifies channels, iTable, oTable
      ensures Valid() && (Value(), stop) == ChangeOne(old(Value()), c, failed, streams)
    {
      stop := false;
      if channels[c].state.Connecting? && channels[c].oStream == 0 {
        if failed {
          if channels[c].iStream != 0 {
            PutIn(channels[c].iStream, NONE);
          }
          PutChannel(c, Cleared(channels[c]).(iStream := 0, oStream := 0));
        } else {
          var s := FindFreeOStream(streams);
          if s != 0 {
            var ch := channels[c].(oStream := s);
            if ch.iStream == 0 {
              ch := ch.(sendReq := true);
            }
            PutChannel(c, ch);
            PutOut(s, c);
          } else {
            stop := true;
          }
        }
      }
    }

    method ChangeStreams(failed: bool, counts: seq<int>)
      requires Valid() && |counts| == NUM
      modifies channels, iTable, oTable
      ensures Valid() && Value() == ChangeFrom(old(Value()), 0, failed, counts)
    {
      var i := 0;
      while i < NUM
        invariant 0 <= i <= NUM && Valid()
        invariant ChangeFrom(old(Value()), 0, failed, counts) == ChangeFrom(Value(), i, failed, counts)
      {
        var stop := ChangeOneChannel(i, failed, counts[i]);
        if stop {
          return;
        }
        i := i + 1;
      }
    }

    method HandleStreamChange(failed: bool, counts: seq<int>)
      requires Valid() && |counts| == NUM
      modifies channels, iTable, oTable
      ensures Valid() && Value() == ChangeFrom(old(Value()), 0, failed, counts)
      ensures old(Linked(Value())) && !ChangeSteals(old(Value()), 0, failed, counts) ==> Linked(Value())
    {
      if Linked(Value()) {
        ChangeKeepsLinkedIff(Value(), 0, failed, counts);
      }
      ChangeStreams(failed, counts);
    }
  }
}
