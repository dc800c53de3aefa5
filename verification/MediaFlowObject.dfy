/**
 The call of src/ecall/ecall.c with its media flows as objects it makes and closes. Every handler leaves the call
 owning exactly the flows it made and has not closed.
 */
module MediaFlowObject {
  import opened MediaFlow

  class Iflow {
    ghost const number: nat
    var closed: nat                     // how often it was closed

    constructor (ghost number: nat)
      ensures this.number == number && closed == 0
    {
      this.number := number;
      closed := 0;
    }
  }

  class Ecall {
    var flow: Iflow?
    var oldflow: Iflow?
    ghost var flows: set<Iflow>         // every flow ever made
    ghost var made: nat
    ghost var closes: seq<int>

    ghost predicate Known(f: Iflow?)
      reads this
    {
      f != null ==> f in flows
    }

    /** Flows are told apart by number, and each counts its own entries in the list of closes. */
    ghost predicate Tied()
      reads this, flows
    {
      && Known(flow) && Known(oldflow)
      && (forall f | f in flows :: f.number < made && f.closed == multiset(closes)[f.number])
      && (forall f, g | f in flows && g in flows && f.number == g.number :: f == g)
      && (forall i | 0 <= i < |closes| :: closes[i] < made)
    }

    ghost function NumberOf(f: Iflow?): int {
      if f == null then NONE else f.number
    }

    ghost function Value(): Flows
      reads this
    {
      Flows(NumberOf(flow), NumberOf(oldflow), made, closes)
    }

    /** And the call owns exactly the flows it made and has not closed, none of them closed twice. */
    ghost predicate Valid()
      reads this, flows
    {
      Tied() && Inv(Value())
    }

    /** The handler did what the event does to the flows, and what it made is new. */
    twostate predicate Took(e: Event)
      reads this
    {
      Value() == Step(old(Value()), e) && fresh(flows - old(flows))
    }

    constructor ()
      ensures Valid() && Value() == Init() && flows == {}
    {
      flow := null;
      oldflow := null;
      flows := {};
      made := 0;
      closes := [];
    }

    /** A handler that does what its event does keeps the ownership. */
    lemma StaysOwner(was: Flows, e: Event)
      requires Tied() && Inv(was) && Value() == Step(was, e)
      ensures Valid()
    {
      StepKeepsInv(was, e);
    }

    /** Seen on the objects: the flow in use and the one it replaced are not closed, every other one is, once. */
    lemma OwnsTheUnclosed()
      requires Valid()
      ensures forall f | f in flows :: f.closed == if f == flow || f == oldflow then 0 else 1
    {
      forall f | f in flows ensures f.closed == if f == flow || f == oldflow then 0 else 1 {
        assert IsFlow(Value(), f.number);
        CountOfRepeatless(closes, f.number);
      }
    }

    method GiveClose(f: Iflow?)
      requires Tied() && Known(f)
      modifies this`closes, flows
      ensures Tied() && Value() == CloseFlow(old(Value()), NumberOf(f))
    {
      if f != null {
        f.closed := f.closed + 1;
        closes := closes + [f.number];
      }
    }

    /** A flow the media layer makes, whether or not the call keeps it. */
    method MakeFlow() returns (f: Iflow)
      requires Tied()
      modifies this`flows, this`made
      ensures Tied() && fresh(f) && flows == old(flows) + {f} && f.number == old(made)
      ensures Value() == old(Value()).(made := old(made) + 1)
    {
      f := new Iflow(made);
      assert f.number !in closes;
      flows := flows + {f};
      made := made + 1;
    }

    method RetireFlow()
      requires Tied()
      modifies this`flow, this`oldflow, this`closes, flows
      ensures Tied() && Value() == Retire(old(Value()))
    {
      GiveClose(oldflow);
      oldflow := flow;
      flow := null;
    }

    method FillFlow(made: Made) returns (err: bool)
      requires Tied()
      modifies this`flow, this`closes, this`flows, this`made, flows
      ensures Tied() && Value() == Fill(old(Value()), made)
      ensures err == !made.Fine? && fresh(flows - old(flows))
    {
      if made.Fine? {
        flow := MakeFlow();
      } else if made.Broken? {
        var f := MakeFlow();
        GiveClose(f);
      }
      err := !made.Fine?;
    }

    method AllocFlow(made: Made) returns (err: bool)
      requires Tied()
      modifies this, flows
      ensures Tied() && Value() == MediaFlow.AllocFlow(old(Value()), made)
      ensures err == !made.Fine? && fresh(flows - old(flows))
    {
      RetireFlow();
      err := FillFlow(made);
    }

    method CloseCall()
      requires Tied()
      modifies this`flow, this`oldflow, this`closes, flows
      ensures Tied() && Value() == MediaFlow.CloseCall(old(Value()))
    {
      var f := flow;
      flow := null;
      var g := oldflow;
      GiveClose(f);
      oldflow := null;
      GiveClose(g);
    }

    method LetGoOfOld()
      requires Tied()
      modifies this`oldflow, this`closes, flows
      ensures Tied() && Value() == DropOld(old(Value()))
    {
      var f := oldflow;
      oldflow := null;
      GiveClose(f);
    }

    /** A delayed restart once the channel is established, or the close after an error. */
    method GoOn(delayed: bool, conference: bool, made: Made, laterErr: bool)
      requires Tied()
      modifies this, flows
      ensures Tied() && fresh(flows - old(flows))
      ensures Value() == AfterEstab(old(Value()), delayed, conference, made, laterErr)
    {
      if delayed {
        RestartFlow(true, conference, made);
      } else if laterErr {
        CloseCall();
      }
    }

    method ReplaceFlow(needed: bool, made: Made, laterErr: bool)
      requires Tied()
      modifies this, flows
      ensures Tied() && Value() == Replacing(old(Value()), needed, made, laterErr) && fresh(flows - old(flows))
    {
      var err := false;
      if needed {
        err := AllocFlow(made);
      }
      if err || laterErr {
        CloseCall();
      }
    }

    method Start(inProgress: bool, made: Made)
      requires Valid()
      modifies this, flows
      ensures Valid() && Took(Event.Start(inProgress, made))
    {
      if !inProgress {
        var _ := AllocFlow(made);
      }
      StaysOwner(old(Value()), Event.Start(inProgress, made));
    }

    method ConnHandler(reset: bool, made: Made, laterErr: bool)
      requires Valid()
      modifies this, flows
      ensures Valid() && Took(Conn(reset, made, laterErr))
    {
      ReplaceFlow(reset || flow == null, made, laterErr);
      StaysOwner(old(Value()), Conn(reset, made, laterErr));
    }

    method UpdateReqHandler(streamChange: bool, made: Made, laterErr: bool)
      requires Valid()
      modifies this, flows
      ensures Valid() && Took(UpdateReq(streamChange, made, laterErr))
    {
      ReplaceFlow(flow == null || !streamChange, made, laterErr);
      StaysOwner(old(Value()), UpdateReq(streamChange, made, laterErr));
    }

    method AnswerHandler(reset: bool, made: Made, laterErr: bool)
      requires Valid()
      modifies this, flows
      ensures Valid() && Took(Answer(reset, made, laterErr))
    {
      ReplaceFlow(reset, made, reset && laterErr);
      StaysOwner(old(Value()), Answer(reset, made, laterErr));
    }

    method RestartFlow(restartable: bool, conference: bool, made: Made)
      requires Tied()
      modifies this, flows
      ensures Tied() && Value() == Restart(old(Value()), restartable, conference, made) && fresh(flows - old(flows))
    {
      if restartable && !conference {
        var _ := AllocFlow(made);
      }
    }

    method RestartHandler(restartable: bool, conference: bool, made: Made)
      requires Valid()
      modifies this, flows
      ensures Valid() && Took(RestartCall(restartable, conference, made))
    {
      RestartFlow(restartable, conference, made);
      StaysOwner(old(Value()), RestartCall(restartable, conference, made));
    }

    method CloseHandler()
      requires Valid()
      modifies this, flows
      ensures Valid() && Took(Event.Close)
    {
      CloseCall();
      StaysOwner(old(Value()), Event.Close);
    }

    method FollowCourse(course: Course)
      requires Tied()
      modifies this, flows
      ensures Tied() && Value() == Follow(old(Value()), course) && fresh(flows - old(flows))
    {
      match course
      case Restarting(conference, made) => RestartFlow(true, conference, made);
      case Ending =>
      case Closing => CloseCall();
    }

    /** A handler knows its flow by its address, and the model by its number. */
    lemma ToldApart(f: Iflow)
      requires Tied() && f in flows
      ensures f.number == NumberOf(flow) <==> f == flow
      ensures f.number == NumberOf(oldflow) <==> f == oldflow
    {
    }

    method OnEstab(f: Iflow, delayed: bool, conference: bool, made: Made, laterErr: bool)
      requires Tied() && f in flows
      modifies this, flows
      ensures Tied() && fresh(flows - old(flows))
      ensures Value() == ChannelEstab(old(Value()), f.number, delayed, conference, made, laterErr)
    {
      ToldApart(f);
      if f == flow {
        LetGoOfOld();
        GoOn(delayed, conference, made, laterErr);
      }
    }

    method OnFlowClosed(f: Iflow, course: Course)
      requires Tied() && f in flows
      modifies this, flows
      ensures Tied() && Value() == FlowClosed(old(Value()), f.number, course) && fresh(flows - old(flows))
    {
      ToldApart(f);
      if f == oldflow {
        LetGoOfOld();
      } else if f == flow {
        FollowCourse(course);
      }
    }

    method OnChannelLost(f: Iflow, course: Course)
      requires Tied() && f in flows
      modifies this, flows
      ensures Tied() && Value() == ChannelLost(old(Value()), f.number, course) && fresh(flows - old(flows))
    {
      ToldApart(f);
      if f == flow {
        FollowCourse(course);
      }
    }

    method ChannelEstabHandler(f: Iflow, delayed: bool, conference: bool, made: Made, laterErr: bool)
      requires Valid() && Known(f)
      modifies this, flows
      ensures Valid() && Took(Estab(f.number, delayed, conference, made, laterErr))
    {
      OnEstab(f, delayed, conference, made, laterErr);
      StaysOwner(old(Value()), Estab(f.number, delayed, conference, made, laterErr));
    }

    method FlowCloseHandler(f: Iflow, course: Course)
      requires Valid() && Known(f)
      modifies this, flows
      ensures Valid() && Took(Event.Closed(f.number, course))
    {
      OnFlowClosed(f, course);
      StaysOwner(old(Value()), Event.Closed(f.number, course));
    }

    method ChannelCloseHandler(f: Iflow, course: Course)
      requires Valid() && Known(f)
      modifies this, flows
      ensures Valid() && Took(Lost(f.number, course))
    {
      OnChannelLost(f, course);
      StaysOwner(old(Value()), Lost(f.number, course));
    }

    /** The destructor: whatever the call did before, each flow it made has now been closed exactly once. */
    method Destroy()
      requires Valid()
      modifies this`flow, this`oldflow, this`closes, flows
      ensures Valid() && Value() == MediaFlow.CloseCall(old(Value()))
      ensures forall f | f in flows :: f.closed == 1
    {
      CloseCallKeepsInv(Value());
      CloseCall();
      forall f | f in flows ensures f.closed == 1 {
        assert IsFlow(Value(), f.number);
        CountOfRepeatless(closes, f.number);
      }
    }
  }
}
