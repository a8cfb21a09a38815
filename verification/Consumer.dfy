/** The coroutine that handles one delivery, updated in place: what its handler
    returned, what it publishes, and how it settles. */
module Consumer {
  import opened Common
  import opened Ladder
  import opened LadderSafety

  class OnMessage {
    const service: Service
    const copy: nat
    const msg: Msg
    const channel: nat
    var phase: Phase
    var cancelled: bool
    var settlement: Settlement
    var channelOpen: bool
    ghost var answered: bool
    ghost var parked: bool
    ghost var handledError: bool

    ghost function View(): Delivery
      reads this
    {
      Delivery(copy, msg, channel, phase, cancelled, settlement, answered, parked, handledError)
    }

    /** The channel the delivery came on is still the open one, or has been replaced. */
    ghost function Current(): nat
      reads this
    {
      if channelOpen then channel else channel + 1
    }

    /** What every run keeps of a delivery, with a ladder to climb. */
    ghost predicate Valid()
      reads this
    {
      service.maxRetries > 0 ==> Disciplined(service, Current(), View())
    }

    constructor (service: Service, copy: nat, msg: Msg, channel: nat)
      ensures this.service == service && channelOpen && Valid()
      ensures View() == Delivery(copy, msg, channel, Handling, false, Unsettled, false, false, false)
    {
      this.service, this.copy, this.msg, this.channel := service, copy, msg, channel;
      phase, cancelled, settlement, channelOpen := Handling, false, Unsettled, true;
      answered, parked, handledError := false, false, false;
    }

    method HandlerEnds(result: HandlerEnd)
      requires Valid() && phase == Handling
      modifies this`phase, this`answered, this`handledError
      ensures View() == AfterHandler(service, old(View()), result)
      ensures Valid()
    {
      if service.maxRetries > 0 { HandledDisciplined(service, Current(), View(), result); }
      match result {
        case Value(hasReply) =>
          if msg.wantsReply && hasReply {
            phase := Replying;
          } else {
            phase := AckingDone;
            answered := true;
          }
        case Raised(handled, hasReply) => OnError(handled, hasReply);
        case SelfCancelled => OnError(false, false);
        case CancelsInline => phase := if cancelled then AckingCancelled else Torn;
      }
    }

    /** The generator behind a streaming reply raises while its chunks are published. */
    method GeneratorRaises(handled: bool, hasReply: bool)
      requires Valid() && phase == Replying
      modifies this`phase, this`handledError
      ensures View() == Ladder.OnError(service, old(View()), handled, hasReply)
      ensures Valid()
    {
      if service.maxRetries > 0 { OnErrorDisciplined(service, Current(), View(), handled, hasReply); }
      OnError(handled, hasReply);
    }

    /** That generator raises a cancellation: the end of a cancelled stream if the
        caller had asked for it, and otherwise taken for a teardown. */
    method GeneratorCancels()
      requires Valid() && phase == Replying
      modifies this`phase
      ensures View() == old(View()).(phase := if cancelled then AckingDone else Torn)
      ensures Valid()
    {
      phase := if cancelled then AckingDone else Torn;
    }

    method CallerCancels()
      requires Valid() && Running(View())
      modifies this`cancelled
      ensures View() == old(View()).(cancelled := true)
      ensures Valid()
    {
      cancelled := true;
    }

    method ChannelCloses()
      requires Valid()
      modifies this`channelOpen
      ensures !channelOpen && View() == old(View())
      ensures Valid()
    {
      channelOpen := false;
    }

    /** Cancelled work is settled; a handled error is answered and rejected; anything
        else climbs the ladder, or answers and dead-letters at its end. */
    method OnError(handled: bool, hasReply: bool)
      modifies this`phase, this`handledError
      ensures View() == Ladder.OnError(service, old(View()), handled, hasReply)
    {
      if cancelled {
        phase := AckingCancelled;
        return;
      }
      var answers := msg.wantsReply && hasReply;
      if !handled && service.maxRetries > 0 {
        if Count(msg) < service.maxRetries {
          phase := Retrying;
        } else {
          phase := if answers then AnsweringLast else DeadLettering;
        }
      } else {
        phase := if answers then AnsweringHandled else Rejecting;
        handledError := handled;
      }
    }

    /** The message this delivery is publishing to the retry exchange or the DLQ. */
    method Publication() returns (m: Msg)
      requires Copying(View())
      ensures m == CopyOf(service, View())
      ensures m.messageId == msg.messageId && OriginalKey(m) == OriginalKey(msg)
      ensures Count(m) == if phase == Retrying then Count(msg) + 1 else Count(msg)
    {
      if phase == Retrying {
        m := Msg(msg.request, msg.messageId, OriginalKey(msg), Some(Count(msg) + 1), Some(OriginalKey(msg)),
          msg.wantsReply);
      } else {
        m := Msg(msg.request, msg.messageId, service.dlqName, Some(Count(msg)), Some(OriginalKey(msg)), false);
      }
    }

    method PublishEnds(outcome: Outcome)
      requires Valid() && Publishing(View()) && (outcome == Confirmed ==> channelOpen)
      modifies this`phase, this`answered, this`parked, this`handledError
      ensures View() == Published(service, channelOpen, old(View()), outcome)
      ensures Valid()
    {
      if service.maxRetries > 0 { PublishDisciplined(service, Current(), View(), channelOpen, outcome); }
      if phase == Replying {
        if outcome == Confirmed {
          phase := AckingDone;
          answered := true;
        } else {
          OnError(false, false);
        }
      } else if phase == AnsweringLast {
        phase := DeadLettering;
      } else if phase == AnsweringHandled {
        phase := Rejecting;
      } else if outcome == Confirmed {
        phase := AckingParked;
        parked := true;
      } else {
        RecoverUnsettled();
      }
    }

    /** A settlement that failed: nothing to do on a closed channel, otherwise the
        delivery is returned to the queue after a beat. */
    method RecoverUnsettled()
      modifies this`phase
      ensures View() == Recover(channelOpen, old(View()))
    {
      phase := if channelOpen then Pausing else Returned;
    }

    /** The beat is over: the delivery goes back to the queue. */
    method PauseEnds()
      requires Valid() && phase == Pausing
      modifies this`phase
      ensures View() == old(View()).(phase := Requeueing)
      ensures Valid()
    {
      phase := Requeueing;
    }

    method SettleEnds()
      requires Valid() && Settling(View())
      modifies this`phase, this`settlement, this`handledError
      ensures View() == Settled(service, channelOpen, old(View()))
      ensures Valid()
    {
      if service.maxRetries > 0 { SettleDisciplined(service, Current(), View(), channelOpen); }
      if !channelOpen {
        if phase == AckingDone {
          OnError(false, false);
        } else {
          phase := Returned;
        }
        return;
      }
      settlement := if phase == Requeueing then Requeued else if phase == Rejecting then Rejected else Acked;
      phase := Returned;
    }

    method TaskCancelled()
      requires Valid() && Running(View())
      modifies this`phase
      ensures View() == Teardown(old(View()))
      ensures Valid()
    {
      if cancelled && phase in {Handling, Replying, AckingDone} {
        phase := AckingCancelled;
      } else {
        phase := Torn;
      }
    }
  }
}
