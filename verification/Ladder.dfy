/** A late-ack consumer with its retry ladder, and the broker behind it: main queue,
    retry queue dead-lettering back to it, dead-letter queue and unacknowledged
    deliveries. A step is what runs between two suspension points of one delivery,
    or one move of the broker. */
module Ladder {
  import opened Common

  /** What a stored copy says. Header fields are absent on a first publication. */
  datatype Msg = Msg(
    request: nat,
    messageId: nat,
    routingKey: string,
    retryCount: Option<nat>,
    originalKey: Option<string>,
    wantsReply: bool
  )

  function Count(m: Msg): nat { if m.retryCount.Some? then m.retryCount.value else 0 }

  function OriginalKey(m: Msg): string { if m.originalKey.Some? then m.originalKey.value else m.routingKey }

  /** The copy parked on the retry exchange, under the original routing key. */
  function RetryCopy(m: Msg): Msg {
    m.(routingKey := OriginalKey(m), retryCount := Some(Count(m) + 1), originalKey := Some(OriginalKey(m)))
  }

  /** The copy sent straight to the dead-letter queue; nobody answers it. */
  function DlqCopy(m: Msg, dlqName: string): Msg {
    m.(routingKey := dlqName, retryCount := Some(Count(m)), originalKey := Some(OriginalKey(m)), wantsReply := false)
  }

  /** Where the broker keeps a copy. */
  datatype Place = Main | Retry | Dlq | Held(tag: nat)

  datatype Copy = Copy(msg: Msg, place: Place)

  /** Where the delivery's task is suspended. */
  datatype Phase =
    | Handling            // the handler, against the processing timeout
    | Replying            // publishing its reply
    | AckingDone          // acknowledging handled work
    | AckingCancelled     // acknowledging work its caller cancelled
    | Retrying            // publishing the retry copy
    | AnsweringLast       // best-effort error reply before the dead-letter copy
    | DeadLettering       // publishing the dead-letter copy
    | AckingParked        // acknowledging once the copy is confirmed
    | AnsweringHandled    // best-effort error reply before the rejection
    | Rejecting
    | Pausing             // a beat before the failed settlement is returned
    | Requeueing
    | Returned            // the consumer callback has returned
    | Torn                // the task ended with a cancellation, as if from outside

  datatype Settlement = Unsettled | Acked | Rejected | Requeued

  datatype Delivery = Delivery(
    copy: nat,
    msg: Msg,
    channel: nat,
    phase: Phase,
    cancelled: bool,       // the caller cancelled this delivery
    settlement: Settlement,
    // history
    answered: bool,        // a reply that was due has been confirmed, or none was due
    parked: bool,          // a retry or dead-letter copy has been confirmed
    handledError: bool     // the handler failed with a handled error
  )

  datatype State = State(
    copies: map<nat, Copy>,
    next: nat,
    deliveries: seq<Delivery>,  // by delivery tag
    channel: nat,               // the consumer's open channel; earlier ones are closed
    sent: set<nat>,
    excused: set<nat>           // succeeded, cancelled by the caller, or rejected as handled
  )

  /** How a publish ends. Only a confirmed one is known to be stored; an ambiguous
      one may be, and a closed channel is ambiguous too. */
  datatype Outcome = Confirmed | Refused | Ambiguous(stored: bool)

  /** How the handler ends. One that is called in the consumer's own task can raise a
      cancellation there, as can closing a stream that nobody asked for. */
  datatype HandlerEnd =
    | Value(hasReply: bool)
    | Raised(handled: bool, hasReply: bool)
    | SelfCancelled
    | CancelsInline

  datatype Event =
    | Publish(request: nat, wantsReply: bool)
    | Deliver(copy: nat)
    | TtlExpires(copy: nat)
    | TtlLoses(copy: nat)
    | HandlerEnds(tag: nat, result: HandlerEnd)
    | CallerCancels(tag: nat)
    | PublishEnds(tag: nat, outcome: Outcome)
    | ReplyStops(tag: nat)
    | GeneratorRaises(tag: nat, handled: bool, hasReply: bool)
    | GeneratorCancels(tag: nat)
    | SettleEnds(tag: nat)
    | PauseEnds(tag: nat)
    | TaskCancelled(tag: nat)
    | ChannelCloses

  /** The service: how far the ladder goes, and what a first publication of each
      request carries. */
  datatype Service = Service(maxRetries: nat, dlqName: string, keyOf: nat -> string, idOf: nat -> nat)

  function FirstCopy(service: Service, request: nat, wantsReply: bool): Msg {
    Msg(request, service.idOf(request), service.keyOf(request), None, None, wantsReply)
  }

  predicate Open(s: State, d: Delivery) { d.channel == s.channel }

  predicate Publishing(d: Delivery) {
    d.phase in {Replying, Retrying, AnsweringLast, DeadLettering, AnsweringHandled}
  }

  predicate Settling(d: Delivery) {
    d.phase in {AckingDone, AckingCancelled, AckingParked, Rejecting, Requeueing}
  }

  predicate Running(d: Delivery) { d.phase != Returned && d.phase != Torn }

  predicate Enabled(s: State, e: Event) {
    match e
    case Publish(_, _) => true
    case ChannelCloses => true
    case Deliver(id) => id in s.copies && s.copies[id].place == Main
    case TtlExpires(id) => id in s.copies && s.copies[id].place == Retry
    case TtlLoses(id) => id in s.copies && s.copies[id].place == Retry
    case HandlerEnds(t, _) => t < |s.deliveries| && s.deliveries[t].phase == Handling
    case CallerCancels(t) =>
      && t < |s.deliveries| && Running(s.deliveries[t])
      && s.deliveries[t].phase != Pausing && s.deliveries[t].phase != Requeueing
    // Nothing is confirmed on a channel that has closed.
    case PublishEnds(t, outcome) =>
      t < |s.deliveries| && Publishing(s.deliveries[t]) && (outcome == Confirmed ==> Open(s, s.deliveries[t]))
    case ReplyStops(t) => t < |s.deliveries| && s.deliveries[t].phase == Replying && s.deliveries[t].cancelled
    case GeneratorRaises(t, _, _) => t < |s.deliveries| && s.deliveries[t].phase == Replying
    case GeneratorCancels(t) => t < |s.deliveries| && s.deliveries[t].phase == Replying && !s.deliveries[t].cancelled
    case SettleEnds(t) => t < |s.deliveries| && Settling(s.deliveries[t])
    case PauseEnds(t) => t < |s.deliveries| && s.deliveries[t].phase == Pausing
    case TaskCancelled(t) => t < |s.deliveries| && Running(s.deliveries[t])
  }

  function At(s: State, t: nat, d: Delivery): State
    requires t < |s.deliveries|
  {
    s.(deliveries := s.deliveries[t := d])
  }

  function Store(s: State, m: Msg, place: Place): State {
    s.(copies := s.copies[s.next := Copy(m, place)], next := s.next + 1)
  }

  /** The settlement raised out of the handler's own error handling. */
  function Recover(open: bool, d: Delivery): Delivery {
    d.(phase := if open then Pausing else Returned)
  }

  /** Everything that can go wrong before the ack ends here. */
  function OnError(service: Service, d: Delivery, handled: bool, hasReply: bool): Delivery {
    var answers := d.msg.wantsReply && hasReply;
    if d.cancelled then d.(phase := AckingCancelled)
    else if handled || service.maxRetries == 0 then
      d.(phase := if answers then AnsweringHandled else Rejecting, handledError := handled)
    else if Count(d.msg) < service.maxRetries then d.(phase := Retrying)
    else d.(phase := if answers then AnsweringLast else DeadLettering)
  }

  function AfterHandler(service: Service, d: Delivery, result: HandlerEnd): Delivery {
    match result
    case Value(hasReply) =>
      if d.msg.wantsReply && hasReply then d.(phase := Replying) else d.(phase := AckingDone, answered := true)
    case Raised(handled, hasReply) => OnError(service, d, handled, hasReply)
    case SelfCancelled => OnError(service, d, false, false)
    // Taken for a cancellation of the consumer's own task, too.
    case CancelsInline => d.(phase := if d.cancelled then AckingCancelled else Torn)
  }

  predicate Copying(d: Delivery) { d.phase == Retrying || d.phase == DeadLettering }

  function CopyOf(service: Service, d: Delivery): Msg {
    if d.phase == Retrying then RetryCopy(d.msg) else DlqCopy(d.msg, service.dlqName)
  }

  /** The delivery after the publish it was waiting for. */
  function Published(service: Service, open: bool, d: Delivery, outcome: Outcome): Delivery {
    match d.phase
    case Replying =>
      if outcome == Confirmed then d.(phase := AckingDone, answered := true) else OnError(service, d, false, false)
    case AnsweringLast => d.(phase := DeadLettering)
    case AnsweringHandled => d.(phase := Rejecting)
    case _ => if outcome == Confirmed then d.(phase := AckingParked, parked := true) else Recover(open, d)
  }

  predicate Reached(outcome: Outcome) { outcome == Confirmed || (outcome.Ambiguous? && outcome.stored) }

  function AfterPublish(service: Service, s: State, t: nat, outcome: Outcome): State
    requires t < |s.deliveries|
  {
    var d := s.deliveries[t];
    var place := if d.phase == Retrying then Retry else Dlq;
    At(if Copying(d) && Reached(outcome) then Store(s, CopyOf(service, d), place) else s,
       t, Published(service, Open(s, d), d, outcome))
  }

  /** The delivery after the ack or reject it was waiting for, which raises when the
      channel has closed. */
  function Settled(service: Service, open: bool, d: Delivery): Delivery {
    if !open then (if d.phase == AckingDone then OnError(service, d, false, false) else d.(phase := Returned))
    else d.(phase := Returned,
            settlement := if d.phase == Requeueing then Requeued else if d.phase == Rejecting then Rejected else Acked)
  }

  /** The broker acts on an ack or a reject only while the channel is open. */
  function AfterSettle(service: Service, s: State, t: nat): State
    requires t < |s.deliveries|
  {
    var d := s.deliveries[t];
    var moved := At(s, t, Settled(service, Open(s, d), d));
    if !Open(s, d) then moved
    else if d.phase == Requeueing then moved.(copies := s.copies[d.copy := Copy(d.msg, Main)])
    else
      moved.(copies := s.copies - {d.copy},
             excused := if d.phase == AckingParked then s.excused else s.excused + {d.msg.request})
  }

  /** The retry queue's TTL sends a copy to the bus exchange under the copy's own
      key: it reaches the main queue only if that is still the original one. */
  function DeadLetterBack(service: Service, s: State, id: nat): State
    requires id in s.copies
  {
    var c := s.copies[id];
    if c.msg.routingKey == service.keyOf(c.msg.request) then s.(copies := s.copies[id := c.(place := Main)])
    else s.(copies := s.copies - {id})
  }

  function Close(s: State): State {
    s.(copies := map id | id in s.copies ::
         if s.copies[id].place.Held? then s.copies[id].(place := Main) else s.copies[id],
       channel := s.channel + 1)
  }

  function Step(service: Service, s: State, e: Event): State {
    if !Enabled(s, e) then s
    else match e
      case Publish(r, wantsReply) => Store(s, FirstCopy(service, r, wantsReply), Main).(sent := s.sent + {r})
      case Deliver(id) =>
        var m := s.copies[id].msg;
        s.(copies := s.copies[id := Copy(m, Held(|s.deliveries|))],
           deliveries := s.deliveries + [Delivery(id, m, s.channel, Handling, false, Unsettled, false, false, false)])
      case TtlExpires(id) => DeadLetterBack(service, s, id)
      case TtlLoses(id) => s.(copies := s.copies - {id})
      case HandlerEnds(t, result) => At(s, t, AfterHandler(service, s.deliveries[t], result))
      case CallerCancels(t) => At(s, t, s.deliveries[t].(cancelled := true))
      case PublishEnds(t, outcome) => AfterPublish(service, s, t, outcome)
      case ReplyStops(t) => At(s, t, s.deliveries[t].(phase := AckingDone))
      case GeneratorRaises(t, handled, hasReply) => At(s, t, OnError(service, s.deliveries[t], handled, hasReply))
      // Taken for a cancellation of the consumer's own task, and passed on.
      case GeneratorCancels(t) => At(s, t, s.deliveries[t].(phase := Torn))
      case SettleEnds(t) => AfterSettle(service, s, t)
      case PauseEnds(t) => At(s, t, s.deliveries[t].(phase := Requeueing))
      case TaskCancelled(t) => At(s, t, Teardown(s.deliveries[t]))
      case ChannelCloses => Close(s)
  }

  /** The consumer's own task is cancelled: propagated, unless the caller had
      cancelled the delivery and the handler or reply was still running. */
  function Teardown(d: Delivery): Delivery {
    d.(phase := if d.cancelled && d.phase in {Handling, Replying, AckingDone} then AckingCancelled else Torn)
  }

  function Run(service: Service, events: seq<Event>): State {
    if events == [] then State(map[], 0, [], 0, {}, {})
    else Step(service, Run(service, events[..|events| - 1]), events[|events| - 1])
  }
}
