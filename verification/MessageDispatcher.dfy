/** The dispatcher and the reply objects it fills, updated in place. Each method is
    one stretch between suspension points and does to its object what the step
    function of the same name says. */
module MessageDispatcher {
  import opened Common
  import opened StreamSteps
  import opened StreamSystem
  import opened StreamNotice

  class Dispatcher {
    var pendingStreams: map<nat, StreamingReply>
    var totalBufferedBytes: nat
    var channelUp: bool
    const limits: Limits
    /** Every reply object there has been, by correlation id. */
    ghost var replies: seq<StreamingReply>
    /** What all of them come to together. */
    ghost var sys: System

    constructor (limits: Limits)
      ensures Valid() && this.limits == limits
      ensures replies == [] && sys == Run(limits, [])
    {
      this.limits := limits;
      pendingStreams, totalBufferedBytes, channelUp := map[], 0, true;
      replies, sys := [], System([], 0, true);
    }

    /** The objects are what `sys` says, apart from one call and the total, which a
        method is in the middle of changing. */
    ghost predicate ValidBut(id: nat)
      reads this, replies
    {
      && |sys.streams| == |replies|
      && (forall i :: 0 <= i < |replies| ==> replies[i].id == i && replies[i].dispatcher == this)
      && (forall i :: 0 <= i < |replies| && i != id ==> Shown(i))
      && (forall i :: i in pendingStreams ==> i < |replies| && pendingStreams[i] == replies[i])
      && sys.channelUp == channelUp
      && Lawful(limits, sys)
    }

    ghost predicate Shown(i: nat)
      requires i < |replies| == |sys.streams| && replies[i].dispatcher == this
      reads this, replies
    {
      sys.streams[i] == replies[i].View()
    }

    /** What holds between any two steps: the objects are what `sys` says, which has
        all that every run keeps. */
    ghost predicate Valid()
      reads this, replies
    {
      && ValidBut(|replies|)
      && sys.total == totalBufferedBytes
    }

    /** Only one reply, its routing and the total have been changed. */
    twostate predicate OnlyTouched(reply: StreamingReply)
      reads this, replies
    {
      && replies == old(replies) && sys == old(sys) && channelUp == old(channelUp)
      && pendingStreams - {reply.id} == old(pendingStreams) - {reply.id}
      && (reply.id in pendingStreams ==> pendingStreams[reply.id] == reply)
      && forall other :: other in replies && other != reply ==> unchanged(other)
    }

    twostate lemma OthersStay(reply: StreamingReply)
      requires reply.dispatcher == this && old(Valid()) && old(reply.Registered()) && OnlyTouched(reply)
      ensures ValidBut(reply.id)
    {
      forall i | 0 <= i < |replies| && i != reply.id
        ensures Shown(i)
      {
        var other := replies[i];
        assert other in replies && old(Shown(i)) && old(other.View()) == sys.streams[i];
        assert i in pendingStreams <==> i in pendingStreams - {reply.id};
        assert i in old(pendingStreams) <==> i in old(pendingStreams) - {reply.id};
      }
      forall i | i in pendingStreams
        ensures i < |replies| && pendingStreams[i] == replies[i]
      {
        if i != reply.id { assert i in pendingStreams - {reply.id}; }
      }
    }

    /** A new reply is routed to, unless its call was aborted before it began. */
    method Route(reply: StreamingReply, abortedBefore: bool)
      requires reply.id !in pendingStreams
      modifies this`pendingStreams
      ensures abortedBefore ==> pendingStreams == old(pendingStreams)
      ensures !abortedBefore ==> pendingStreams == old(pendingStreams)[reply.id := reply]
    {
      pendingStreams := pendingStreams[reply.id := reply];
      if abortedBefore {
        pendingStreams := pendingStreams - {reply.id};
      }
    }

    twostate lemma Joined(new reply: StreamingReply)
      requires old(Valid()) && reply.dispatcher == this && reply.id == |old(replies)| && reply !in old(replies)
      requires replies == old(replies) + [reply] && sys == old(sys).(streams := old(sys).streams + [reply.View()])
      requires pendingStreams - {reply.id} == old(pendingStreams)
      requires reply.id in pendingStreams ==> pendingStreams[reply.id] == reply
      requires totalBufferedBytes == old(totalBufferedBytes) && channelUp == old(channelUp)
      requires forall other :: other in old(replies) ==> other.Fields() == old(other.Fields())
      requires Lawful(limits, sys)
      ensures Valid()
    {
      forall i | 0 <= i < |replies|
        ensures Shown(i)
      {
        if i < |old(replies)| {
          assert replies[i] == old(replies)[i] && old(Shown(i)) && old(sys).streams[i] == old(replies[i].View());
          assert i in pendingStreams <==> i in pendingStreams - {reply.id};
        }
      }
      forall i | i in pendingStreams
        ensures i < |replies| && pendingStreams[i] == replies[i]
      {
        if i != reply.id { assert i in pendingStreams - {reply.id}; }
      }
    }

    /** All calls together took this step, and everything between two steps holds. */
    twostate predicate Took(e: Event)
      reads this, replies
    {
      && Valid() && replies == old(replies) && channelUp == old(channelUp)
      && sys == Step(limits, old(sys), e)
    }

    /** The step that one call has just taken is a step of all of them. */
    ghost method Record(e: Event)
      requires Enabled(sys, e) && !e.Open? && !e.Disconnect? && !e.ChannelOpened?
      requires ValidBut(e.id) && (replies[e.id].View(), totalBufferedBytes) == Touch(limits, sys, e)
      modifies this`sys
      ensures Valid() && sys == Step(limits, old(sys), e)
    {
      StepLawful(limits, sys, e);
      StepTouches(limits, sys, e);
      sys := Step(limits, sys, e);
      forall i | 0 <= i < |replies|
        ensures Shown(i)
      {
        if i != e.id { assert old(Shown(i)); }
      }
    }

    /** The connection is gone: every pending call ends with an error. */
    method OnDisconnected()
      requires Valid()
      modifies this`pendingStreams, this`totalBufferedBytes, this`channelUp, this`sys
      modifies replies
      ensures Valid() && replies == old(replies) && sys == Step(limits, old(sys), Disconnect)
      ensures pendingStreams == map[] && totalBufferedBytes == 0 && !channelUp
      ensures forall i :: 0 <= i < |replies| ==> replies[i].View() == StreamSteps.OnDisconnected(old(replies[i].View()))
    {
      FailPending();
      StepLawful(limits, sys, Disconnect);
      sys := System(Dropped(sys.streams), 0, false);
      EachFailed();
    }

    /** Each reply that was pending has an error and no other has changed. */
    twostate predicate PendingFailed()
      reads this, replies
    {
      && pendingStreams == map[] && totalBufferedBytes == 0 && !channelUp
      && replies == old(replies)
      && forall i :: 0 <= i < |replies| ==>
        if i in old(pendingStreams) then replies[i].Failed() else unchanged(replies[i])
    }

    method FailPending()
      requires forall i :: 0 <= i < |replies| ==> replies[i].id == i
      requires forall id :: id in pendingStreams ==> id < |replies| && pendingStreams[id] == replies[id]
      modifies this`pendingStreams, this`totalBufferedBytes, this`channelUp
      modifies replies
      ensures PendingFailed()
    {
      channelUp := false;
      forall reply | reply in pendingStreams.Values {
        reply.error := Some(Disconnected);
      }
      forall reply | reply in pendingStreams.Values {
        reply.ended := true;
      }
      pendingStreams := map[];
      totalBufferedBytes := 0;
    }

    /** What failing the pending replies comes to, for all of them. */
    twostate lemma EachFailed()
      requires old(Valid()) && PendingFailed()
      requires sys == System(Dropped(old(sys).streams), 0, false) && Lawful(limits, sys)
      ensures Valid()
      ensures forall i :: 0 <= i < |replies| ==> replies[i].View() == StreamSteps.OnDisconnected(old(replies[i].View()))
    {
      forall i | 0 <= i < |replies|
        ensures Shown(i) && sys.streams[i] == StreamSteps.OnDisconnected(old(replies[i].View()))
      {
        assert old(Shown(i)) && old(replies[i].View()) == old(sys).streams[i];
      }
    }

    /** The publishing channel is there again. */
    method OnChannelOpened()
      requires Valid()
      modifies this`channelUp, this`sys
      ensures Valid() && replies == old(replies) && sys == Step(limits, old(sys), ChannelOpened)
    {
      channelUp := true;
      StepLawful(limits, sys, ChannelOpened);
      sys := sys.(channelUp := true);
      forall i | 0 <= i < |replies|
        ensures Shown(i)
      {
        assert old(Shown(i));
      }
    }

    /** A reply body for some call: routed to its stream while that is pending. */
    method OnResult(id: nat, delivery: Delivery) returns (routed: bool)
      requires Valid()
      modifies this, replies
      ensures Valid() && replies == old(replies)
      ensures routed <==> id in old(pendingStreams)
      ensures sys == if routed then Step(limits, old(sys), Arrive(id, delivery)) else old(sys)
      ensures forall i :: 0 <= i < |replies| && i != id ==> replies[i].View() == old(replies[i].View())
    {
      routed := id in pendingStreams;
      if routed {
        pendingStreams[id].OnStreamChunk(delivery);
        forall i | 0 <= i < |replies| && i != id
          ensures replies[i].View() == old(replies[i].View())
        {
          assert Shown(i) && old(Shown(i));
        }
      }
    }
  }

  class StreamingReply {
    const dispatcher: Dispatcher
    const id: nat
    var chunks: seq<Bytes>
    var bufferedBytes: nat
    var lastSeq: Option<nat>
    var ended: bool
    var error: Option<StreamError>
    var alive: bool
    var cancelled: bool
    var released: bool
    var publishState: SendState
    var publishTask: TaskState
    var notifyQueued: bool
    var notices: nat
    ghost var given: seq<Bytes>
    ghost var callerStopped: bool

    ghost function Fields(): Stream
      reads this
    {
      Stream(chunks, bufferedBytes, lastSeq, ended, error, false, alive, cancelled, released,
             publishState, publishTask, notifyQueued, notices, given, callerStopped)
    }

    /** The end a pending call gets when the connection is lost. */
    twostate predicate Failed()
      reads this
    {
      Fields() == old(Fields()).(error := Some(Disconnected), ended := true)
    }

    /** Just opened, apart from the routing. */
    ghost predicate New(abortedBefore: bool)
      reads this
    {
      Fields().(pending := !abortedBefore) == StreamSteps.Opened(abortedBefore)
    }

    ghost predicate Pending()
      reads this, dispatcher
    {
      id in dispatcher.pendingStreams && dispatcher.pendingStreams[id] == this
    }

    /** The id is this call's own. */
    ghost predicate Routed()
      reads this, dispatcher
    {
      id in dispatcher.pendingStreams ==> Pending()
    }

    ghost function View(): Stream
      reads this, dispatcher
    {
      Fields().(pending := Pending())
    }

    /** The dispatcher has this reply on its list. */
    ghost predicate Registered()
      reads dispatcher
    {
      id < |dispatcher.replies| && dispatcher.replies[id] == this
    }

    /** No other call is touched, and no channel state. */
    twostate predicate OthersKept()
      reads this, dispatcher
    {
      && dispatcher.pendingStreams - {id} == old(dispatcher.pendingStreams) - {id}
      && Routed()
    }

    /** A new call, under the next correlation id. */
    constructor (dispatcher: Dispatcher, id: nat, abortedBeforeStart: bool)
      requires dispatcher.Valid() && id == |dispatcher.replies|
      modifies dispatcher
      ensures this.dispatcher == dispatcher && this.id == id && Registered()
      ensures View() == StreamSteps.Opened(abortedBeforeStart)
      ensures dispatcher.Valid() && dispatcher.replies == old(dispatcher.replies) + [this]
      ensures dispatcher.sys == Step(dispatcher.limits, old(dispatcher.sys), Open(abortedBeforeStart))
    {
      this.dispatcher, this.id := dispatcher, id;
      chunks, bufferedBytes, lastSeq := [], 0, None;
      ended, error, alive, cancelled, released := abortedBeforeStart, None, true, false, false;
      publishState, notifyQueued, notices := Unsent, false, 0;
      publishTask := if abortedBeforeStart then NoTask else Running;
      given, callerStopped := [], abortedBeforeStart;
      new;
      dispatcher.Route(this, abortedBeforeStart);
      StepLawful(dispatcher.limits, dispatcher.sys, Open(abortedBeforeStart));
      dispatcher.replies := dispatcher.replies + [this];
      dispatcher.sys := Step(dispatcher.limits, dispatcher.sys, Open(abortedBeforeStart));
      dispatcher.Joined(this);
    }

    method DropBuffer()
      modifies this`chunks, this`bufferedBytes, dispatcher`totalBufferedBytes
      ensures (View(), dispatcher.totalBufferedBytes)
           == StreamSteps.DropBuffer(old(View()), old(dispatcher.totalBufferedBytes))
    {
      chunks := [];
      dispatcher.totalBufferedBytes := Minus(dispatcher.totalBufferedBytes, bufferedBytes);
      bufferedBytes := 0;
    }

    /** Everything this call holds, given back once. The id is this call's own. */
    method ReleaseCall()
      requires Routed()
      modifies this`chunks, this`bufferedBytes, this`released, dispatcher`pendingStreams, dispatcher`totalBufferedBytes
      ensures (View(), dispatcher.totalBufferedBytes)
           == Release(old(View()), old(dispatcher.totalBufferedBytes))
      ensures OthersKept()
    {
      if released { return; }
      released := true;
      dispatcher.pendingStreams := dispatcher.pendingStreams - {id};
      DropBuffer();
    }

    method Notify()
      modifies this`notices
      ensures View() == StreamSteps.Notify(old(View()), dispatcher.channelUp)
    {
      if publishState == Unsent { return; }
      if publishState.SendFailed? && !publishState.ambiguous { return; }
      if !dispatcher.channelUp { return; }
      notices := notices + 1;
    }

    /** Tells the producer to stop, or withdraws a request still unsent. */
    method Inform()
      modifies this`publishTask, this`notifyQueued, this`notices
      ensures View() == StreamSteps.Inform(old(View()), dispatcher.channelUp)
    {
      if publishTask == Running {
        if publishState == Unsent {
          publishTask := Withdrawn;
          return;
        }
        notifyQueued := true;
        return;
      }
      Notify();
    }

    /** The caller itself asked: a consumer parked on the next chunk sees the end. */
    method StopReading()
      modifies this`ended, this`callerStopped
      ensures View() == old(View()).(ended := true, callerStopped := true)
    {
      ended := true;
      callerStopped := true;
    }

    method MarkCancelled()
      modifies this`cancelled
      ensures View() == old(View()).(cancelled := true)
    {
      cancelled := true;
    }

    method Cancel(notifyOnly: bool)
      requires Routed()
      modifies this, dispatcher`pendingStreams, dispatcher`totalBufferedBytes
      ensures (View(), dispatcher.totalBufferedBytes)
           == StreamSteps.Cancel(old(View()), old(dispatcher.totalBufferedBytes), old(dispatcher.channelUp), notifyOnly)
      ensures OthersKept()
    {
      if cancelled { return; }
      MarkCancelled();
      ReleaseCall();
      if !notifyOnly {
        StopReading();
      }
      Inform();
    }

    /** The call ends with an error for its reader. */
    method Break(failure: StreamError)
      modifies this`error, this`ended
      ensures View() == old(View()).(error := Some(failure), ended := true)
    {
      error := Some(failure);
      ended := true;
    }

    method FailStream(failure: StreamError)
      requires Routed()
      modifies this, dispatcher`pendingStreams, dispatcher`totalBufferedBytes
      ensures (View(), dispatcher.totalBufferedBytes)
           == Fail(old(View()), old(dispatcher.totalBufferedBytes), old(dispatcher.channelUp), failure)
      ensures OthersKept()
    {
      Break(failure);
      DropBuffer();
      if alive {
        Cancel(true);
      }
    }

    method OnStreamChunk(d: Delivery)
      requires dispatcher.Valid() && Registered() && Pending()
      modifies this, dispatcher
      ensures (View(), dispatcher.totalBufferedBytes)
           == OnChunk(dispatcher.limits, old(View()), old(dispatcher.totalBufferedBytes), old(dispatcher.channelUp), d)
      ensures dispatcher.Took(Arrive(id, d))
    {
      assert dispatcher.Shown(id);
      Receive(d);
      dispatcher.OthersStay(this);
      dispatcher.Record(Arrive(id, d));
    }

    /** Frames that carry a number are taken in order: an older one is ignored but for
        its end mark, and a missing one fails the call. */
    method Receive(d: Delivery)
      requires Routed()
      modifies this, dispatcher`pendingStreams, dispatcher`totalBufferedBytes
      ensures (View(), dispatcher.totalBufferedBytes)
           == OnChunk(dispatcher.limits, old(View()), old(dispatcher.totalBufferedBytes), old(dispatcher.channelUp), d)
      ensures OthersKept()
    {
      if d.seqNo.Some? {
        var expected := if lastSeq == None then 0 else lastSeq.value + 1;
        if d.seqNo.value < expected {
          if d.final { ended := true; }
          return;
        }
        if d.seqNo.value > expected {
          FailStream(SequenceGap);
          return;
        }
        lastSeq := d.seqNo;
      }
      Accept(d.body, d.final);
    }

    method Accept(body: Bytes, final: bool)
      requires Routed()
      modifies this, dispatcher`pendingStreams, dispatcher`totalBufferedBytes
      ensures (View(), dispatcher.totalBufferedBytes)
           == StreamSteps.Accept(dispatcher.limits, old(View()), old(dispatcher.totalBufferedBytes),
             old(dispatcher.channelUp), body, final)
      ensures OthersKept()
    {
      if body != [] {
        var wouldBeBytes := bufferedBytes + |body|;
        var wouldBeTotal := dispatcher.totalBufferedBytes + |body|;
        if || |chunks| + 1 > dispatcher.limits.maxChunks
           || wouldBeBytes > dispatcher.limits.maxBytes
           || wouldBeTotal > dispatcher.limits.maxTotal {
          FailStream(Backpressure);
          return;
        }
        chunks := chunks + [body];
        bufferedBytes := wouldBeBytes;
        dispatcher.totalBufferedBytes := wouldBeTotal;
      }
      if final { ended := true; }
    }

    /** One look at the buffer; a parked consumer looks again when it is woken. */
    method Next() returns (pulled: Pulled)
      requires dispatcher.Valid() && Registered() && alive
      modifies this, dispatcher
      ensures (View(), dispatcher.totalBufferedBytes, pulled)
           == StreamSteps.Next(old(View()), old(dispatcher.totalBufferedBytes))
      ensures dispatcher.Took(PullOne(id))
    {
      assert dispatcher.Shown(id);
      pulled := Look();
      dispatcher.OthersStay(this);
      dispatcher.Record(PullOne(id));
    }

    method Look() returns (pulled: Pulled)
      requires Routed()
      modifies this, dispatcher`pendingStreams, dispatcher`totalBufferedBytes
      ensures (View(), dispatcher.totalBufferedBytes, pulled)
           == StreamSteps.Next(old(View()), old(dispatcher.totalBufferedBytes))
      ensures OthersKept()
    {
      if error.Some? {
        var failure := error.value;
        ReleaseCall();
        return Raised(failure);
      }
      if chunks != [] {
        var value := chunks[0];
        chunks := chunks[1..];
        bufferedBytes := Minus(bufferedBytes, |value|);
        dispatcher.totalBufferedBytes := Minus(dispatcher.totalBufferedBytes, |value|);
        given := given + [value];
        return Value(value);
      }
      if ended {
        ReleaseCall();
        return End;
      }
      return Parked;
    }

    method OnIdle()
      requires dispatcher.Valid() && Registered() && alive && !released
      modifies this, dispatcher
      ensures (View(), dispatcher.totalBufferedBytes)
           == StreamSteps.OnIdle(old(View()), old(dispatcher.totalBufferedBytes), old(dispatcher.channelUp))
      ensures dispatcher.Took(Idle(id))
    {
      assert dispatcher.Shown(id);
      GiveUp();
      dispatcher.OthersStay(this);
      dispatcher.Record(Idle(id));
    }

    method GiveUp()
      requires Routed()
      modifies this, dispatcher`pendingStreams, dispatcher`totalBufferedBytes
      ensures (View(), dispatcher.totalBufferedBytes)
           == StreamSteps.OnIdle(old(View()), old(dispatcher.totalBufferedBytes), old(dispatcher.channelUp))
      ensures OthersKept()
    {
      if ended { return; }
      Break(IdleTimeout);
      Cancel(true);
    }

    /** The caller closes the call, or aborts it. */
    method Close()
      requires dispatcher.Valid() && Registered() && alive
      modifies this, dispatcher
      ensures (View(), dispatcher.totalBufferedBytes)
           == StreamSteps.Cancel(old(View()), old(dispatcher.totalBufferedBytes), old(dispatcher.channelUp), false)
      ensures dispatcher.Took(CallerStops(id))
    {
      assert dispatcher.Shown(id);
      Cancel(false);
      dispatcher.OthersStay(this);
      dispatcher.Record(CallerStops(id));
    }

    /** The sending task gets past readiness. */
    method PublishStarts()
      requires dispatcher.Valid() && Registered() && publishTask == Running && publishState == Unsent
      modifies this`publishTask, this`publishState, dispatcher
      ensures View() == SendStart(old(View())) && dispatcher.totalBufferedBytes == old(dispatcher.totalBufferedBytes)
      ensures dispatcher.Took(SendStarts(id))
    {
      assert dispatcher.Shown(id);
      publishTask := if cancelled then Done else publishTask;
      publishState := if cancelled then publishState else Sending;
      dispatcher.OthersStay(this);
      dispatcher.Record(SendStarts(id));
    }

    method Abandon(ambiguous: bool)
      requires Routed()
      modifies this, dispatcher`pendingStreams, dispatcher`totalBufferedBytes
      ensures (View(), dispatcher.totalBufferedBytes)
           == StreamSteps.Abandon(old(View()), old(dispatcher.totalBufferedBytes), old(dispatcher.channelUp), ambiguous)
      ensures OthersKept()
    {
      Break(PublishFailed(ambiguous));
      if ambiguous {
        Cancel(true);
      } else {
        ReleaseCall();
      }
    }

    /** The sending task ends with the broker's verdict, or with a readiness wait
        that failed. */
    method PublishEnds(verdict: SendState)
      requires dispatcher.Valid() && Registered() && Enabled(dispatcher.sys, SendEnds(id, verdict))
      modifies this, dispatcher
      ensures (View(), dispatcher.totalBufferedBytes)
           == SendEnd(old(View()), old(dispatcher.totalBufferedBytes), old(dispatcher.channelUp), verdict)
      ensures dispatcher.Took(SendEnds(id, verdict))
    {
      assert dispatcher.Shown(id);
      Conclude(verdict);
      dispatcher.OthersStay(this);
      dispatcher.Record(SendEnds(id, verdict));
    }

    method Conclude(verdict: SendState)
      requires Routed()
      modifies this, dispatcher`pendingStreams, dispatcher`totalBufferedBytes
      ensures (View(), dispatcher.totalBufferedBytes)
           == SendEnd(old(View()), old(dispatcher.totalBufferedBytes), old(dispatcher.channelUp), verdict)
      ensures OthersKept()
    {
      Settle(verdict);
      if verdict.SendFailed? && !released {
        Abandon(verdict.ambiguous);
      }
      Finish();
    }

    method Settle(verdict: SendState)
      modifies this`publishState
      ensures View() == old(View()).(send := verdict)
    {
      publishState := verdict;
    }

    method Finish()
      modifies this`publishTask
      ensures View() == old(View()).(task := Done)
    {
      publishTask := Done;
    }

    /** The finished task's callback. */
    method AfterPublish()
      requires dispatcher.Valid() && Registered() && publishTask == Done && notifyQueued
      modifies this`notifyQueued, this`notices, dispatcher
      ensures View() == NotifyLater(old(View()), dispatcher.channelUp)
      ensures dispatcher.Took(RunNotify(id))
    {
      assert dispatcher.Shown(id);
      notifyQueued := false;
      Notify();
      dispatcher.OthersStay(this);
      dispatcher.Record(RunNotify(id));
    }

    /** The reply object was dropped without being closed or exhausted. */
    method ForgetStream()
      requires dispatcher.Valid() && Registered() && alive && !released
      modifies this, dispatcher
      ensures (View(), dispatcher.totalBufferedBytes)
           == Forget(old(View()), old(dispatcher.totalBufferedBytes))
      ensures dispatcher.Took(Drop(id))
    {
      assert dispatcher.Shown(id);
      Abandoned();
      dispatcher.OthersStay(this);
      dispatcher.Record(Drop(id));
    }

    method Abandoned()
      requires Routed()
      modifies this, dispatcher`pendingStreams, dispatcher`totalBufferedBytes
      ensures (View(), dispatcher.totalBufferedBytes)
           == Forget(old(View()), old(dispatcher.totalBufferedBytes))
      ensures OthersKept()
    {
      alive := false;
      if id in dispatcher.pendingStreams && dispatcher.pendingStreams[id] == this {
        dispatcher.pendingStreams := dispatcher.pendingStreams - {id};
        DropBuffer();
      }
    }
  }
}
