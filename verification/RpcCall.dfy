/** The coroutine behind one unary call, updated in place. */
module RpcCall {
  import opened Common
  import opened RpcSteps

  class PublishCall {
    const messageId: nat
    const correlationId: nat
    const deadline: int
    var pc: Pc
    var now: int
    var conn: Conn
    var callbackQueue: nat
    var slot: bool
    var future: Future
    var republished: bool
    var attempts: seq<Attempt>
    var verdicts: seq<Verdict>
    ghost var atEnd: seq<Verdict>

    ghost function View(): Call
      reads this
    {
      Call(pc, messageId, correlationId, deadline, now, conn, callbackQueue, slot, future, republished, attempts,
        verdicts, atEnd)
    }

    /** What every run keeps of a call. */
    ghost predicate Valid()
      reads this
    {
      Inv(View())
    }

    constructor (messageId: nat, correlationId: nat, limit: nat, now: int, conn: Conn, callbackQueue: nat)
      ensures View() == Start(messageId, correlationId, now + limit, now, conn, callbackQueue)
      ensures Valid()
    {
      this.messageId, this.correlationId, this.deadline := messageId, correlationId, now + limit;
      this.now, this.conn, this.callbackQueue := now, conn, callbackQueue;
      pc, slot, future, republished := Ready, false, Open, false;
      attempts, verdicts, atEnd := [], [], [];
      new;
      AwaitPublishable();
    }

    method End(outcome: Outcome)
      modifies this`pc, this`atEnd
      ensures View() == RpcSteps.End(old(View()), outcome)
    {
      pc := Finished(outcome);
      atEnd := verdicts;
    }

    method ReleaseSlot()
      modifies this`slot
      ensures View() == RpcSteps.ReleaseSlot(old(View()))
    {
      slot := false;
    }

    method AwaitPublishable()
      modifies this
      ensures View() == RpcSteps.AwaitPublishable(old(View()))
    {
      match conn {
        case Up => TryPublish();
        case Coming => pc := Ready;
        case Down => End(NotConnected);
      }
    }

    /** The head of the loop: nothing is published once the deadline has passed; the
        slot is armed before the publish begins. */
    method TryPublish()
      modifies this
      ensures View() == RpcSteps.TryPublish(old(View()))
    {
      if deadline <= now {
        End(TimedOut(if republished then None else Some(false)));
        return;
      }
      future := Open;
      slot := true;
      attempts := attempts + [Attempt(messageId, correlationId, callbackQueue, now)];
      verdicts := verdicts + [Outstanding];
      pc := Racing;
    }

    method Tick(to: int)
      requires Valid() && now <= to
      modifies this`now
      ensures View() == Step(old(View()), Event.Tick(to))
      ensures Valid()
    {
      StepInv(View(), Event.Tick(to));
      now := to;
    }

    /** The broker's answer to one of the publishes. */
    method PublishSettles(k: nat, verdict: Verdict)
      requires Valid() && Enabled(View(), Event.PublishSettles(k, verdict))
      modifies this`verdicts
      ensures View() == Step(old(View()), Event.PublishSettles(k, verdict))
      ensures Valid()
    {
      StepInv(View(), Event.PublishSettles(k, verdict));
      verdicts := verdicts[k := verdict];
    }

    method OnConnected(queue: nat)
      requires Valid()
      modifies this`conn, this`callbackQueue
      ensures View() == Step(old(View()), ConnectionBack(queue))
      ensures Valid()
    {
      StepInv(View(), ConnectionBack(queue));
      conn, callbackQueue := Up, queue;
    }

    method OnGivenUp()
      requires Valid()
      modifies this`conn
      ensures View() == Step(old(View()), ConnectionGivenUp)
      ensures Valid()
    {
      StepInv(View(), ConnectionGivenUp);
      conn := Down;
    }

    method OnResult(body: Bytes)
      requires Valid()
      modifies this`slot, this`future
      ensures View() == Step(old(View()), ReplyArrives(body))
      ensures Valid()
    {
      StepInv(View(), ReplyArrives(body));
      if slot {
        slot := false;
        if future == Open { future := Replied(body); }
      }
    }

    method OnDisconnected()
      requires Valid()
      modifies this`conn, this`slot, this`future
      ensures View() == Step(old(View()), ConnectionLost)
      ensures Valid()
    {
      StepInv(View(), ConnectionLost);
      conn := Coming;
      if slot && future == Open { future := Disconnected; }
      slot := false;
    }

    method ReadyResolves()
      requires Valid() && pc == Ready
      modifies this
      ensures View() == Step(old(View()), Event.ReadyResolves)
      ensures Valid()
    {
      StepInv(View(), Event.ReadyResolves);
      TryPublish();
    }

    method ReadyFails()
      requires Valid() && pc == Ready
      modifies this
      ensures View() == Step(old(View()), Event.ReadyFails)
      ensures Valid()
    {
      StepInv(View(), Event.ReadyFails);
      End(NotReady);
    }

    /** The coroutine runs again: what it waited for happened, or its time is up. */
    method Resume()
      requires Valid() && Runnable(View())
      modifies this
      ensures View() == Step(old(View()), Event.Resume)
      ensures Valid()
    {
      StepInv(View(), Event.Resume);
      match pc {
        case Ready => End(TimedOut(if republished then None else Some(false)));
        case Racing =>
          if future.Replied? {
            ReleaseSlot();
            End(Reply(future.body));
            return;
          }
          if future.Disconnected? && Last(verdicts) == Outstanding {
            pc := Settling;
            return;
          }
          Publication();
        case Settling => Publication();
        case Awaiting =>
          ReleaseSlot();
          match future {
            case Open => End(TimedOut(Some(true)));
            case Replied(body) => End(Reply(body));
            case Disconnected => End(LostConnection);
          }
      }
    }

    /** What the publish's answer, or its absence at the deadline, means. */
    method Publication()
      modifies this
      ensures View() == AfterRace(old(View()))
    {
      var verdict := Last(verdicts);
      if verdict == Outstanding {
        ReleaseSlot();
        End(TimedOut(None));
        return;
      }
      if verdict == Confirmed {
        pc := Awaiting;
        return;
      }
      ReleaseSlot();
      if verdict == ChannelClosed && !republished && conn != Up {
        republished := true;
        AwaitPublishable();
        return;
      }
      End(PublishError(verdict));
    }

    method Cancel()
      requires Valid() && !pc.Finished?
      modifies this
      ensures View() == Step(old(View()), CallerCancels)
      ensures Valid()
    {
      StepInv(View(), CallerCancels);
      if pc != Ready {
        verdicts := Abandon(verdicts);
        ReleaseSlot();
      }
      End(CancelledByCaller);
    }
  }
}
