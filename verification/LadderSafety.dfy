/** What the ladder and the broker keep together in every run. */
module LadderSafety {
  import opened Ladder

  // ------------------------------------------------------------------ books

  /** The broker's held copies and the worker's unsettled deliveries on the open
      channel are the same things. */
  ghost predicate Matched(s: State) {
    && (forall id :: id in s.copies ==> id < s.next)
    && (forall id :: id in s.copies && s.copies[id].place.Held? ==> HeldRightly(s, id))
    && (forall t :: 0 <= t < |s.deliveries| ==> Backed(s, t))
  }

  ghost predicate HeldRightly(s: State, id: nat)
    requires id in s.copies && s.copies[id].place.Held?
  {
    var t := s.copies[id].place.tag;
    && t < |s.deliveries|
    && s.deliveries[t].copy == id && s.deliveries[t].msg == s.copies[id].msg
    && s.deliveries[t].channel == s.channel && s.deliveries[t].settlement == Unsettled
  }

  ghost predicate Backed(s: State, t: nat)
    requires t < |s.deliveries|
  {
    var d := s.deliveries[t];
    && d.channel <= s.channel && d.copy < s.next
    && (d.channel == s.channel && d.settlement == Unsettled ==>
          d.copy in s.copies && s.copies[d.copy] == Copy(d.msg, Held(t)))
  }

  // --------------------------------------------------------------- messages

  /** A copy is recognisably the request it was first published as. */
  ghost predicate Genuine(service: Service, m: Msg) {
    && m.messageId == service.idOf(m.request)
    && OriginalKey(m) == service.keyOf(m.request)
    && Count(m) <= service.maxRetries
  }

  ghost predicate GenuineCopy(service: Service, c: Copy) {
    && Genuine(service, c.msg)
    && (c.place == Dlq ==> Count(c.msg) == service.maxRetries && c.msg.routingKey == service.dlqName)
    && (c.place != Dlq ==> c.msg.routingKey == service.keyOf(c.msg.request))
  }

  ghost predicate Messages(service: Service, s: State) {
    && (forall id :: id in s.copies ==> GenuineCopy(service, s.copies[id]))
    && (forall t :: 0 <= t < |s.deliveries| ==>
          var m := s.deliveries[t].msg;
          Genuine(service, m) && m.routingKey == service.keyOf(m.request))
  }

  // ------------------------------------------------------------- discipline

  /** What each suspension point and each settlement presupposes. */
  ghost predicate Disciplined(service: Service, channel: nat, d: Delivery) {
    && (d.settlement != Unsettled ==> d.phase == Returned)
    && (d.phase == Returned ==> d.settlement != Unsettled || d.channel < channel)
    && (d.phase == Retrying ==> Count(d.msg) < service.maxRetries)
    && (d.phase == AnsweringLast || d.phase == DeadLettering ==> Count(d.msg) >= service.maxRetries)
    && (d.phase == AckingDone ==> d.answered || d.cancelled)
    && (d.phase == AckingCancelled ==> d.cancelled)
    && (d.phase == AckingParked ==> d.parked)
    && (d.phase == Rejecting || d.phase == AnsweringHandled ==> d.handledError)
    && (d.settlement == Acked ==> d.answered || d.cancelled || d.parked)
    && (d.settlement == Rejected ==> d.handledError)
  }

  // ---------------------------------------------------------------- no loss

  /** A copy that nobody is about to acknowledge on the strength of another copy. */
  ghost predicate Safe(s: State, id: nat, request: nat) {
    && id in s.copies && s.copies[id].msg.request == request
    && (s.copies[id].place.Held? ==>
          s.copies[id].place.tag < |s.deliveries| && s.deliveries[s.copies[id].place.tag].phase != AckingParked)
  }

  ghost predicate Present(s: State, request: nat) {
    exists id :: Safe(s, id, request)
  }

  ghost predicate NoneLost(s: State) {
    forall r :: r in s.sent ==> r in s.excused || Present(s, r)
  }

  ghost predicate Inv(service: Service, s: State) {
    && Matched(s)
    && Messages(service, s)
    && (forall t :: 0 <= t < |s.deliveries| ==> Disciplined(service, s.channel, s.deliveries[t]))
  }

  lemma OnErrorDisciplined(service: Service, channel: nat, d: Delivery, handled: bool, hasReply: bool)
    requires service.maxRetries > 0 && d.settlement == Unsettled
    ensures var after := OnError(service, d, handled, hasReply);
            && Disciplined(service, channel, after)
            && after == d.(phase := after.phase, handledError := after.handledError)
            && after.phase != AckingParked && Running(after)
  {
  }

  lemma HandledDisciplined(service: Service, channel: nat, d: Delivery, result: HandlerEnd)
    requires service.maxRetries > 0 && Disciplined(service, channel, d) && d.phase == Handling
    ensures var after := AfterHandler(service, d, result);
      && Disciplined(service, channel, after) && after.phase != AckingParked
      && after == d.(phase := after.phase, answered := after.answered, handledError := after.handledError)
  {
    OnErrorDisciplined(service, channel, d, result.Raised? && result.handled, result.Raised? && result.hasReply);
  }

  lemma PublishDisciplined(service: Service, channel: nat, d: Delivery, open: bool, outcome: Outcome)
    requires service.maxRetries > 0 && Disciplined(service, channel, d) && Publishing(d)
    requires !open ==> d.channel < channel
    ensures Disciplined(service, channel, Published(service, open, d, outcome))
  {
    OnErrorDisciplined(service, channel, d, false, false);
  }

  lemma SettleDisciplined(service: Service, channel: nat, d: Delivery, open: bool)
    requires service.maxRetries > 0 && Disciplined(service, channel, d) && Settling(d)
    requires !open ==> d.channel < channel
    ensures Disciplined(service, channel, Settled(service, open, d))
  {
    OnErrorDisciplined(service, channel, d, false, false);
  }

  /** A step that only moves one delivery on keeps the books. */
  lemma MoveInv(service: Service, s: State, t: nat, d: Delivery)
    requires Inv(service, s) && t < |s.deliveries|
    requires d.copy == s.deliveries[t].copy && d.msg == s.deliveries[t].msg && d.channel == s.deliveries[t].channel
    requires d.settlement == s.deliveries[t].settlement && Disciplined(service, s.channel, d)
    ensures Inv(service, At(s, t, d))
  {
    var after := At(s, t, d);
    forall id | id in after.copies && after.copies[id].place.Held?
      ensures HeldRightly(after, id)
    {
      assert HeldRightly(s, id);
    }
    forall u | 0 <= u < |after.deliveries|
      ensures Backed(after, u)
    {
      assert Backed(s, u);
    }
  }

  lemma StoreInv(service: Service, s: State, m: Msg, place: Place)
    requires Inv(service, s) && !place.Held? && GenuineCopy(service, Copy(m, place))
    ensures Inv(service, Store(s, m, place))
  {
    var after := Store(s, m, place);
    forall id | id in after.copies && after.copies[id].place.Held?
      ensures HeldRightly(after, id)
    {
      assert HeldRightly(s, id);
    }
    forall u | 0 <= u < |after.deliveries|
      ensures Backed(after, u)
    {
      assert Backed(s, u);
    }
  }

  /** Removing or re-placing a copy nobody holds keeps the books. */
  lemma PlaceInv(service: Service, s: State, id: nat, copies: map<nat, Copy>)
    requires Inv(service, s) && id in s.copies && s.copies[id].place == Retry
    requires copies == s.copies - {id} || (copies == s.copies[id := s.copies[id].(place := Main)])
    ensures Inv(service, s.(copies := copies))
  {
    var after := s.(copies := copies);
    forall i | i in copies && copies[i].place.Held?
      ensures HeldRightly(after, i)
    {
      assert HeldRightly(s, i);
    }
    forall u | 0 <= u < |s.deliveries|
      ensures Backed(after, u)
    {
      assert Backed(s, u);
    }
  }

  lemma DeliverInv(service: Service, s: State, id: nat)
    requires Inv(service, s) && Enabled(s, Deliver(id))
    ensures Inv(service, Step(service, s, Deliver(id)))
  {
    var after := Step(service, s, Deliver(id));
    assert forall u :: 0 <= u < |s.deliveries| ==> after.deliveries[u] == s.deliveries[u];
    forall i | i in after.copies && after.copies[i].place.Held?
      ensures HeldRightly(after, i)
    {
      if i != id { assert HeldRightly(s, i); }
    }
    forall u | 0 <= u < |after.deliveries|
      ensures Backed(after, u)
    {
      if u < |s.deliveries| { assert Backed(s, u); }
    }
  }

  lemma CloseInv(service: Service, s: State)
    requires Inv(service, s)
    ensures Inv(service, Close(s))
  {
    forall u | 0 <= u < |s.deliveries|
      ensures Backed(Close(s), u)
    {
      assert Backed(s, u);
    }
    forall id | id in s.copies && s.copies[id].place.Held?
      ensures GenuineCopy(service, s.copies[id].(place := Main))
    {
      assert GenuineCopy(service, s.copies[id]);
    }
  }

  lemma PublishedInv(service: Service, s: State, t: nat, outcome: Outcome)
    requires service.maxRetries > 0 && Inv(service, s) && Enabled(s, PublishEnds(t, outcome))
    ensures Inv(service, AfterPublish(service, s, t, outcome))
  {
    var d := s.deliveries[t];
    match d.phase
    case Replying =>
      OnErrorDisciplined(service, s.channel, d, false, false);
      MoveInv(service, s, t,
        if outcome == Confirmed then d.(phase := AckingDone, answered := true) else OnError(service, d, false, false));
    case AnsweringLast => MoveInv(service, s, t, d.(phase := DeadLettering));
    case AnsweringHandled => MoveInv(service, s, t, d.(phase := Rejecting));
    case _ => CopiedInv(service, s, t, outcome);
  }

  lemma CopyIsGenuine(service: Service, s: State, t: nat)
    requires service.maxRetries > 0 && Inv(service, s) && t < |s.deliveries| && Copying(s.deliveries[t])
    ensures var d := s.deliveries[t];
      GenuineCopy(service, Copy(CopyOf(service, d), if d.phase == Retrying then Retry else Dlq))
  {
    assert Disciplined(service, s.channel, s.deliveries[t]);
  }

  /** Once its copy is out a delivery waits for the ack, or for being given back. */
  function AfterCopy(s: State, d: Delivery, outcome: Outcome): Delivery {
    if outcome == Confirmed then d.(phase := AckingParked, parked := true) else Recover(Open(s, d), d)
  }

  lemma AfterCopyDisciplined(service: Service, s: State, t: nat, outcome: Outcome)
    requires Inv(service, s) && t < |s.deliveries| && Copying(s.deliveries[t])
    ensures Disciplined(service, s.channel, AfterCopy(s, s.deliveries[t], outcome))
  {
    assert Backed(s, t) && Disciplined(service, s.channel, s.deliveries[t]);
  }

  lemma CopiedInv(service: Service, s: State, t: nat, outcome: Outcome)
    requires service.maxRetries > 0 && Inv(service, s) && t < |s.deliveries|
    requires Copying(s.deliveries[t])
    ensures Inv(service, AfterPublish(service, s, t, outcome))
  {
    var d := s.deliveries[t];
    var m, place := CopyOf(service, d), if d.phase == Retrying then Retry else Dlq;
    CopyIsGenuine(service, s, t);
    AfterCopyDisciplined(service, s, t, outcome);
    StoreInv(service, s, m, place);
    MoveInv(service, if Reached(outcome) then Store(s, m, place) else s, t, AfterCopy(s, d, outcome));
  }

  lemma SettledInv(service: Service, s: State, t: nat)
    requires service.maxRetries > 0 && Inv(service, s) && Enabled(s, SettleEnds(t))
    ensures Inv(service, AfterSettle(service, s, t))
  {
    var d := s.deliveries[t];
    assert Backed(s, t);
    if !Open(s, d) {
      OnErrorDisciplined(service, s.channel, d, false, false);
      MoveInv(service, s, t,
        if d.phase == AckingDone then OnError(service, d, false, false) else d.(phase := Returned));
    } else {
      SettledMatched(service, s, t);
      SettledMessages(service, s, t);
      SettledDisciplined(service, s, t);
    }
  }

  lemma SettledMessages(service: Service, s: State, t: nat)
    requires Matched(s) && Messages(service, s) && Enabled(s, SettleEnds(t)) && Open(s, s.deliveries[t])
    ensures Messages(service, AfterSettle(service, s, t))
  {
    var d, after := s.deliveries[t], AfterSettle(service, s, t);
    assert forall u :: 0 <= u < |s.deliveries| ==> after.deliveries[u].msg == s.deliveries[u].msg;
    forall id | id in after.copies
      ensures GenuineCopy(service, after.copies[id])
    {
      if id != d.copy { assert GenuineCopy(service, s.copies[id]); }
    }
  }

  lemma SettledDisciplined(service: Service, s: State, t: nat)
    requires Enabled(s, SettleEnds(t)) && Open(s, s.deliveries[t])
    requires forall u :: 0 <= u < |s.deliveries| ==> Disciplined(service, s.channel, s.deliveries[u])
    ensures var after := AfterSettle(service, s, t);
            after.channel == s.channel
            && forall u :: 0 <= u < |after.deliveries| ==> Disciplined(service, s.channel, after.deliveries[u])
  {
    var after := AfterSettle(service, s, t);
    assert Disciplined(service, s.channel, s.deliveries[t]);
    assert forall u :: 0 <= u < |s.deliveries| && u != t ==> after.deliveries[u] == s.deliveries[u];
  }

  lemma SettledMatched(service: Service, s: State, t: nat)
    requires Matched(s) && Enabled(s, SettleEnds(t)) && Open(s, s.deliveries[t])
    requires s.deliveries[t].settlement == Unsettled
    ensures Matched(AfterSettle(service, s, t))
  {
    var after := AfterSettle(service, s, t);
    assert Backed(s, t);
    forall id | id in after.copies && after.copies[id].place.Held?
      ensures HeldRightly(after, id)
    {
      assert HeldRightly(s, id);
    }
    forall u | 0 <= u < |after.deliveries|
      ensures Backed(after, u)
    {
      assert Backed(s, u);
    }
  }

  lemma PublishInv(service: Service, s: State, r: nat, wantsReply: bool)
    requires Inv(service, s)
    ensures Inv(service, Step(service, s, Publish(r, wantsReply)))
  {
    var m := FirstCopy(service, r, wantsReply);
    StoreInv(service, s, m, Main);
    var stored, after := Store(s, m, Main), Step(service, s, Publish(r, wantsReply));
    assert forall id :: id in stored.copies && stored.copies[id].place.Held? && HeldRightly(stored, id) ==>
      HeldRightly(after, id);
    assert forall u :: 0 <= u < |stored.deliveries| && Backed(stored, u) ==> Backed(after, u);
  }

  lemma PublishKeeps(service: Service, s: State, r: nat, wantsReply: bool)
    requires Matched(s) && NoneLost(s)
    ensures NoneLost(Step(service, s, Publish(r, wantsReply)))
  {
    var m := FirstCopy(service, r, wantsReply);
    StoreKeeps(s, m, Main);
    var stored, after := Store(s, m, Main), Step(service, s, Publish(r, wantsReply));
    assert forall id, q :: Safe(stored, id, q) ==> Safe(after, id, q);
    assert forall q :: Present(stored, q) ==> Present(after, q);
  }

  /** The steps that do no more than move one delivery on. */
  predicate Moves(e: Event) {
    || e.HandlerEnds? || e.CallerCancels? || e.ReplyStops? || e.GeneratorRaises? || e.GeneratorCancels?
    || e.PauseEnds? || e.TaskCancelled?
  }

  function Moved(service: Service, d: Delivery, e: Event): Delivery
    requires Moves(e)
  {
    match e
    case HandlerEnds(_, result) => AfterHandler(service, d, result)
    case CallerCancels(_) => d.(cancelled := true)
    case ReplyStops(_) => d.(phase := AckingDone)
    case GeneratorRaises(_, handled, hasReply) => OnError(service, d, handled, hasReply)
    case GeneratorCancels(_) => d.(phase := Torn)
    case PauseEnds(_) => d.(phase := Requeueing)
    case TaskCancelled(_) => Teardown(d)
  }

  lemma StepMoves(service: Service, s: State, e: Event)
    requires Enabled(s, e) && Moves(e)
    ensures e.tag < |s.deliveries| && Step(service, s, e) == At(s, e.tag, Moved(service, s.deliveries[e.tag], e))
  {
  }

  /** Moving on keeps the discipline, and relies on no copy. */
  lemma MovedDisciplined(service: Service, s: State, e: Event)
    requires service.maxRetries > 0 && Enabled(s, e) && Moves(e)
    requires Disciplined(service, s.channel, s.deliveries[e.tag])
    ensures var d, after := s.deliveries[e.tag], Moved(service, s.deliveries[e.tag], e);
      && Disciplined(service, s.channel, after)
      && after.copy == d.copy && after.msg == d.msg && after.channel == d.channel && after.settlement == d.settlement
      && (after.phase == AckingParked ==> d.phase == AckingParked)
  {
    var d := s.deliveries[e.tag];
    match e
    case HandlerEnds(_, result) => HandledDisciplined(service, s.channel, d, result);
    case GeneratorRaises(_, handled, hasReply) => OnErrorDisciplined(service, s.channel, d, handled, hasReply);
    case _ =>
  }

  lemma MovesInv(service: Service, s: State, e: Event)
    requires service.maxRetries > 0 && Inv(service, s) && Enabled(s, e) && Moves(e)
    ensures Inv(service, Step(service, s, e))
  {
    StepMoves(service, s, e);
    MovedDisciplined(service, s, e);
    MoveInv(service, s, e.tag, Moved(service, s.deliveries[e.tag], e));
  }

  lemma StepInv(service: Service, s: State, e: Event)
    requires service.maxRetries > 0 && Inv(service, s)
    ensures Inv(service, Step(service, s, e))
  {
    if Enabled(s, e) {
      match e
      case Publish(r, wantsReply) => PublishInv(service, s, r, wantsReply);
      case Deliver(id) => DeliverInv(service, s, id);
      case TtlExpires(id) => PlaceInv(service, s, id, s.copies[id := s.copies[id].(place := Main)]);
      case TtlLoses(id) => PlaceInv(service, s, id, s.copies - {id});
      case PublishEnds(t, outcome) => PublishedInv(service, s, t, outcome);
      case SettleEnds(t) => SettledInv(service, s, t);
      case ChannelCloses => CloseInv(service, s);
      case _ => MovesInv(service, s, e);
    }
  }

  // ------------------------------------------------------------ no request lost

  /** The retry hop's one unconfirmed transfer swallows a request's only copy. */
  ghost predicate LosesLast(s: State, e: Event) {
    && e.TtlLoses? && Enabled(s, e)
    && var r := s.copies[e.copy].msg.request;
       r in s.sent && r !in s.excused && forall id :: Safe(s, id, r) ==> id == e.copy
  }

  /** A step that only moves one delivery, to a phase that does not rely on another
      copy unless it already did. */
  lemma MoveKeeps(s: State, t: nat, d: Delivery)
    requires t < |s.deliveries| && (d.phase == AckingParked ==> s.deliveries[t].phase == AckingParked) && NoneLost(s)
    ensures NoneLost(At(s, t, d))
  {
    forall r | r in s.sent && r !in s.excused
      ensures Present(At(s, t, d), r)
    {
      var id :| Safe(s, id, r);
      assert Safe(At(s, t, d), id, r);
    }
  }

  lemma StoreKeeps(s: State, m: Msg, place: Place)
    requires Matched(s) && !place.Held? && NoneLost(s)
    ensures NoneLost(Store(s, m, place)) && Present(Store(s, m, place), m.request)
  {
    assert Safe(Store(s, m, place), s.next, m.request);
    forall r | r in s.sent && r !in s.excused
      ensures Present(Store(s, m, place), r)
    {
      var id :| Safe(s, id, r);
      assert Safe(Store(s, m, place), id, r);
    }
  }

  lemma PublishedKeeps(service: Service, s: State, t: nat, outcome: Outcome)
    requires service.maxRetries > 0 && Inv(service, s) && NoneLost(s) && Enabled(s, PublishEnds(t, outcome))
    ensures NoneLost(AfterPublish(service, s, t, outcome))
  {
    var d := s.deliveries[t];
    match d.phase
    case Replying =>
      OnErrorDisciplined(service, s.channel, d, false, false);
      MoveKeeps(s, t,
        if outcome == Confirmed then d.(phase := AckingDone, answered := true) else OnError(service, d, false, false));
    case AnsweringLast => MoveKeeps(s, t, d.(phase := DeadLettering));
    case AnsweringHandled => MoveKeeps(s, t, d.(phase := Rejecting));
    case _ => CopiedKeeps(service, s, t, outcome);
  }

  lemma CopiedKeeps(service: Service, s: State, t: nat, outcome: Outcome)
    requires Inv(service, s) && NoneLost(s) && t < |s.deliveries|
    requires Copying(s.deliveries[t])
    ensures NoneLost(AfterPublish(service, s, t, outcome))
  {
    var d := s.deliveries[t];
    var m, place := CopyOf(service, d), if d.phase == Retrying then Retry else Dlq;
    StoreKeeps(s, m, place);
    if outcome == Confirmed {
      ParkedKeeps(service, s, t, m, place);
    } else {
      MoveKeeps(if outcome.Ambiguous? && outcome.stored then Store(s, m, place) else s, t, Recover(Open(s, d), d));
    }
  }

  /** Once the copy is confirmed the delivery may rely on it. */
  lemma ParkedKeeps(service: Service, s: State, t: nat, m: Msg, place: Place)
    requires Inv(service, s) && NoneLost(s) && t < |s.deliveries|
    requires m.request == s.deliveries[t].msg.request && !place.Held?
    ensures NoneLost(At(Store(s, m, place), t, s.deliveries[t].(phase := AckingParked, parked := true)))
  {
    var after := At(Store(s, m, place), t, s.deliveries[t].(phase := AckingParked, parked := true));
    forall r | r in s.sent && r !in s.excused
      ensures Present(after, r)
    {
      if r == m.request {
        assert Safe(after, s.next, r);
      } else {
        var id :| Safe(s, id, r);
        if s.copies[id].place.Held? { assert HeldRightly(s, id); }
        assert Safe(after, id, r);
      }
    }
  }

  lemma SettledKeeps(service: Service, s: State, t: nat)
    requires service.maxRetries > 0 && Inv(service, s) && NoneLost(s) && Enabled(s, SettleEnds(t))
    ensures NoneLost(AfterSettle(service, s, t))
  {
    var d, after := s.deliveries[t], AfterSettle(service, s, t);
    assert Backed(s, t);
    if !Open(s, d) {
      OnErrorDisciplined(service, s.channel, d, false, false);
      MoveKeeps(s, t, if d.phase == AckingDone then OnError(service, d, false, false) else d.(phase := Returned));
    } else {
      forall r | r in after.sent && r !in after.excused
        ensures Present(after, r)
      {
        var id :| Safe(s, id, r);
        if s.copies[id].place.Held? { assert HeldRightly(s, id); }
        assert Safe(after, id, r);
      }
    }
  }

  lemma CopyStepKeeps(service: Service, s: State, e: Event)
    requires Inv(service, s) && NoneLost(s) && Enabled(s, e)
    requires e.Deliver? || e.TtlExpires? || e.ChannelCloses?
    ensures NoneLost(Step(service, s, e))
  {
    var after := Step(service, s, e);
    if e.TtlExpires? { assert GenuineCopy(service, s.copies[e.copy]); }
    forall r | r in s.sent && r !in s.excused
      ensures Present(after, r)
    {
      var id :| Safe(s, id, r);
      if s.copies[id].place.Held? { assert HeldRightly(s, id); }
      assert Safe(after, id, r);
    }
  }

  lemma TtlLosesKeeps(service: Service, s: State, id: nat)
    requires Inv(service, s) && NoneLost(s) && Enabled(s, TtlLoses(id))
    ensures NoneLost(Step(service, s, TtlLoses(id))) <==> !LosesLast(s, TtlLoses(id))
  {
    var after := Step(service, s, TtlLoses(id));
    assert forall i, r :: Safe(after, i, r) <==> Safe(s, i, r) && i != id;
    assert forall r :: Safe(s, id, r) ==> r == s.copies[id].msg.request;
  }

  /** No step loses a request, except a retry copy that vanishes on its way back to
      the main queue while it is the request's only one. */
  lemma NothingLost(service: Service, s: State, e: Event)
    requires service.maxRetries > 0 && Inv(service, s) && NoneLost(s)
    ensures NoneLost(Step(service, s, e)) <==> !LosesLast(s, e)
  {
    if Enabled(s, e) {
      match e
      case Publish(r, wantsReply) => PublishKeeps(service, s, r, wantsReply);
      case Deliver(id) => CopyStepKeeps(service, s, e);
      case TtlExpires(id) => CopyStepKeeps(service, s, e);
      case ChannelCloses => CopyStepKeeps(service, s, e);
      case TtlLoses(id) => TtlLosesKeeps(service, s, id);
      case PublishEnds(t, outcome) => PublishedKeeps(service, s, t, outcome);
      case SettleEnds(t) => SettledKeeps(service, s, t);
      case _ => MovesKeep(service, s, e);
    }
  }

  lemma MovesKeep(service: Service, s: State, e: Event)
    requires service.maxRetries > 0 && Inv(service, s) && NoneLost(s) && Enabled(s, e) && Moves(e)
    ensures NoneLost(Step(service, s, e))
  {
    StepMoves(service, s, e);
    MovedDisciplined(service, s, e);
    MoveKeeps(s, e.tag, Moved(service, s.deliveries[e.tag], e));
  }

  lemma {:induction false} RunInv(service: Service, events: seq<Event>)
    requires service.maxRetries > 0
    ensures Inv(service, Run(service, events))
  {
    if events != [] {
      RunInv(service, events[..|events| - 1]);
      StepInv(service, Run(service, events[..|events| - 1]), events[|events| - 1]);
    }
  }

  /** In every run in which dead-lettering on TTL always arrives: each published
      request is still stored somewhere, or it succeeded with its reply confirmed,
      was cancelled by its caller, or failed with a handled error. */
  lemma {:induction false} NoRequestLost(service: Service, events: seq<Event>)
    requires service.maxRetries > 0 && forall e :: e in events ==> !e.TtlLoses?
    ensures NoneLost(Run(service, events))
  {
    if events != [] {
      NoRequestLost(service, events[..|events| - 1]);
      RunInv(service, events[..|events| - 1]);
      NothingLost(service, Run(service, events[..|events| - 1]), events[|events| - 1]);
    }
  }

  /** A handler has failed once and its retry copy is about to be published. */
  function FailedOnce(service: Service): State {
    var m := FirstCopy(service, 0, true);
    var d := Delivery(0, m, 0, Retrying, false, Unsettled, false, false, false);
    State(map[0 := Copy(m, Held(0))], 1, [d], 0, {0}, {})
  }

  lemma RunFailedOnce(service: Service)
    requires service.maxRetries > 0
    ensures Run(service, [Publish(0, true), Deliver(0), HandlerEnds(0, Raised(false, true))]) == FailedOnce(service)
  {
    var e1, e2, e3 := Publish(0, true), Deliver(0), HandlerEnds(0, Raised(false, true));
    FirstEvent(service, e1);
    RunAppend(service, [e1], e2);
    RunAppend(service, [e1, e2], e3);
    assert [e1] + [e2] == [e1, e2] && [e1, e2] + [e3] == [e1, e2, e3];
  }

  /** A run that does lose one: the retry copy is confirmed, the delivery acknowledged,
      and the copy vanishes on its way back to the main queue. */
  lemma RetryHopCanLose(service: Service)
    requires service.maxRetries > 0
    ensures var events := [Publish(0, true), Deliver(0), HandlerEnds(0, Raised(false, true))]
                          + [PublishEnds(0, Confirmed)] + [SettleEnds(0)] + [TtlLoses(1)];
            var s := Run(service, events);
            0 in s.sent && 0 !in s.excused && !Present(s, 0)
  {
    RunFailedOnce(service);
    var start := [Publish(0, true), Deliver(0), HandlerEnds(0, Raised(false, true))];
    var confirmed := start + [PublishEnds(0, Confirmed)];
    var acked := confirmed + [SettleEnds(0)];
    RunAppend(service, start, PublishEnds(0, Confirmed));
    RunAppend(service, confirmed, SettleEnds(0));
    RunAppend(service, acked, TtlLoses(1));
    var m := FirstCopy(service, 0, true);
    assert Run(service, confirmed).copies == map[0 := Copy(m, Held(0)), 1 := Copy(RetryCopy(m), Retry)];
    assert Run(service, acked).copies == map[1 := Copy(RetryCopy(m), Retry)] && Run(service, acked).excused == {};
    assert Run(service, acked + [TtlLoses(1)]).copies == map[];
  }

  lemma FirstEvent(service: Service, e: Event)
    ensures Run(service, [e]) == Step(service, State(map[], 0, [], 0, {}, {}), e)
  {
    assert [e][..0] == [];
  }

  lemma RunAppend(service: Service, events: seq<Event>, e: Event)
    ensures Run(service, events + [e]) == Step(service, Run(service, events), e)
  {
    assert (events + [e])[..|events|] == events;
  }

  /** In every run each stored copy carries the identity and the original routing key
      of its request and a count within the ladder; what reaches the dead-letter
      queue has climbed all of it. */
  lemma CopiesGenuine(service: Service, events: seq<Event>, id: nat)
    requires service.maxRetries > 0 && id in Run(service, events).copies
    ensures var c := Run(service, events).copies[id];
            && c.msg.messageId == service.idOf(c.msg.request)
            && OriginalKey(c.msg) == service.keyOf(c.msg.request)
            && 0 <= Count(c.msg) <= service.maxRetries
            && (c.place == Dlq ==> Count(c.msg) == service.maxRetries)
            && (c.place == Retry ==> c.msg.routingKey == service.keyOf(c.msg.request))
  {
    RunInv(service, events);
  }

  /** The step that ends a delivery's task with a cancellation: the reply's generator
      or the handler raises one in the task itself, uncalled for; or the task is
      cancelled from outside, unless that only stops work its caller had cancelled. */
  predicate Tears(s: State, e: Event, t: nat) {
    && Enabled(s, e) && t < |s.deliveries|
    && var d := s.deliveries[t];
       || e == GeneratorCancels(t)
       || (e == HandlerEnds(t, CancelsInline) && !d.cancelled)
       || (e == TaskCancelled(t) && !(d.cancelled && d.phase in {Handling, Replying, AckingDone}))
  }

  predicate TornIn(service: Service, events: seq<Event>, t: nat) {
    events != []
    && (var before := events[..|events| - 1];
        TornIn(service, before, t) || Tears(Run(service, before), events[|events| - 1], t))
  }

  /** In every run a delivery is torn if and only if one of these steps was taken. */
  lemma {:induction false} TornIff(service: Service, events: seq<Event>, t: nat)
    ensures t < |Run(service, events).deliveries| ==>
      (Run(service, events).deliveries[t].phase == Torn <==> TornIn(service, events, t))
    ensures t >= |Run(service, events).deliveries| ==> !TornIn(service, events, t)
  {
    if events != [] {
      var before, e := events[..|events| - 1], events[|events| - 1];
      var s := Run(service, before);
      TornIff(service, before, t);
      DeliveriesStay(service, s, e);
      if t < |s.deliveries| && s.deliveries[t].phase == Torn {
        TornUnmoved(service, s, e, t);
      } else if t < |Run(service, events).deliveries| {
        TearsApart(service, s, e, t);
      }
    }
  }

  /** In every run: a delivery whose callback has ended is unsettled on the open channel
      if and only if it was torn and its channel is still that one. */
  lemma LeftUnsettledIff(service: Service, events: seq<Event>, t: nat)
    requires service.maxRetries > 0 && t < |Run(service, events).deliveries|
    ensures var s := Run(service, events);
      var d := s.deliveries[t];
      !Running(d) && d.settlement == Unsettled && Open(s, d) <==> TornIn(service, events, t) && Open(s, d)
  {
    RunInv(service, events);
    TornIff(service, events, t);
    assert Disciplined(service, Run(service, events).channel, Run(service, events).deliveries[t]);
  }

  lemma DeliveriesStay(service: Service, s: State, e: Event)
    ensures |s.deliveries| <= |Step(service, s, e).deliveries|
    ensures e.Deliver? || |s.deliveries| == |Step(service, s, e).deliveries|
    ensures forall t :: |s.deliveries| <= t < |Step(service, s, e).deliveries| ==>
      Step(service, s, e).deliveries[t].phase == Handling
  {
    if Enabled(s, e) && (Moves(e) || e.PublishEnds? || e.SettleEnds?) { OnlyOneMoves(service, s, e); }
  }

  lemma TearsApart(service: Service, s: State, e: Event, t: nat)
    requires t < |s.deliveries| ==> s.deliveries[t].phase != Torn
    requires t < |Step(service, s, e).deliveries|
    ensures Step(service, s, e).deliveries[t].phase == Torn <==> Tears(s, e, t)
  {
    DeliveriesStay(service, s, e);
    if Enabled(s, e) && (Moves(e) || e.PublishEnds? || e.SettleEnds?) {
      OnlyOneMoves(service, s, e);
      var d := s.deliveries[e.tag];
      if e.PublishEnds? {
        PublishNeverTears(service, Open(s, d), d, e.outcome);
      } else if e.SettleEnds? {
        SettleNeverTears(service, Open(s, d), d);
      } else {
        StepMoves(service, s, e);
        MoveTears(service, d, e);
      }
    }
  }

  lemma MoveTears(service: Service, d: Delivery, e: Event)
    requires Moves(e) && d.phase != Torn
    ensures Moved(service, d, e).phase == Torn <==>
      || e.GeneratorCancels?
      || (e.HandlerEnds? && e.result == CancelsInline && !d.cancelled)
      || (e.TaskCancelled? && !(d.cancelled && d.phase in {Handling, Replying, AckingDone}))
  {
  }

  lemma OnlyOneMoves(service: Service, s: State, e: Event)
    requires Enabled(s, e) && (Moves(e) || e.PublishEnds? || e.SettleEnds?)
    ensures Step(service, s, e).deliveries == s.deliveries[e.tag := Step(service, s, e).deliveries[e.tag]]
    ensures var d, open := s.deliveries[e.tag], Open(s, s.deliveries[e.tag]);
      && (e.PublishEnds? ==> Step(service, s, e).deliveries[e.tag] == Published(service, open, d, e.outcome))
      && (e.SettleEnds? ==> Step(service, s, e).deliveries[e.tag] == Settled(service, open, d))
  {
  }

  lemma PublishNeverTears(service: Service, open: bool, d: Delivery, outcome: Outcome)
    ensures d.phase != Torn ==> Published(service, open, d, outcome).phase != Torn
  {
  }

  lemma SettleNeverTears(service: Service, open: bool, d: Delivery)
    ensures Settled(service, open, d).phase != Torn
  {
  }

  /** A torn delivery never moves again, and the broker holds its copy for as long as
      the channel stays open. */
  lemma TornStays(service: Service, s: State, e: Event, t: nat)
    requires service.maxRetries > 0 && Inv(service, s) && t < |s.deliveries| && s.deliveries[t].phase == Torn
    ensures var d, after := s.deliveries[t], Step(service, s, e);
      && t < |after.deliveries| && after.deliveries[t] == d
      && (d.channel == s.channel && !e.ChannelCloses? ==>
            d.copy in after.copies && after.copies[d.copy] == Copy(d.msg, Held(t)))
  {
    StepInv(service, s, e);
    assert Disciplined(service, s.channel, s.deliveries[t]);
    TornUnmoved(service, s, e, t);
    assert Backed(Step(service, s, e), t);
  }

  lemma TornUnmoved(service: Service, s: State, e: Event, t: nat)
    requires t < |s.deliveries| && s.deliveries[t].phase == Torn
    ensures var d, after := s.deliveries[t], Step(service, s, e);
      && t < |after.deliveries| && after.deliveries[t] == d
      && (!e.ChannelCloses? ==> after.channel == s.channel)
  {
    match e
    case PublishEnds(_, outcome) =>
    case SettleEnds(_) =>
    case _ =>
  }

  /** A run in which nobody cancels anything and yet a delivery is torn on the open
      channel, neither settled nor returned: its reply's generator cancels itself. */
  lemma GeneratorLeavesUnsettled(service: Service)
    ensures var events := [Publish(0, true), Deliver(0), HandlerEnds(0, Value(true)), GeneratorCancels(0)];
      var s := Run(service, events);
      && |s.deliveries| == 1 && s.deliveries[0].phase == Torn && s.deliveries[0].settlement == Unsettled
      && s.deliveries[0].channel == s.channel
  {
    var e1, e2, e3, e4 := Publish(0, true), Deliver(0), HandlerEnds(0, Value(true)), GeneratorCancels(0);
    FirstEvent(service, e1);
    RunAppend(service, [e1], e2);
    RunAppend(service, [e1, e2], e3);
    RunAppend(service, [e1, e2, e3], e4);
    assert [e1] + [e2] == [e1, e2] && [e1, e2] + [e3] == [e1, e2, e3] && [e1, e2, e3] + [e4] == [e1, e2, e3, e4];
  }

  /** Another: its handler is called in the task and raises a cancellation there. */
  lemma HandlerLeavesUnsettled(service: Service)
    ensures var s := Run(service, [Publish(0, true), Deliver(0), HandlerEnds(0, CancelsInline)]);
      && |s.deliveries| == 1 && s.deliveries[0].phase == Torn && s.deliveries[0].settlement == Unsettled
      && s.deliveries[0].channel == s.channel
  {
    var e1, e2, e3 := Publish(0, true), Deliver(0), HandlerEnds(0, CancelsInline);
    FirstEvent(service, e1);
    RunAppend(service, [e1], e2);
    RunAppend(service, [e1, e2], e3);
    assert [e1] + [e2] == [e1, e2] && [e1, e2] + [e3] == [e1, e2, e3];
  }

  /** A settlement is final: no later step settles the delivery again or moves it. */
  lemma SettledOnce(service: Service, s: State, e: Event, t: nat)
    requires service.maxRetries > 0 && Inv(service, s) && t < |s.deliveries| && s.deliveries[t].settlement != Unsettled
    ensures t < |Step(service, s, e).deliveries| && Step(service, s, e).deliveries[t] == s.deliveries[t]
  {
    assert Disciplined(service, s.channel, s.deliveries[t]);
  }
}
