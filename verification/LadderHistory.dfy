/** What a delivery's record says against what happened to it in the run, and where
    each thing that can happen takes it. */
module LadderHistory {
  import opened Common
  import opened Ladder
  import opened LadderSafety

  /** Things that happen to a delivery. */
  datatype Mark =
    | Answered        // its reply was confirmed, or its handler ended well with none due
    | Parked          // a retry or dead-letter copy of it was confirmed
    | CalledOff       // its caller cancelled it
    | Failed          // something went wrong before the ack, not called off by then
    | FailedHandled   // and it was an error expected by the service
    | AnswerDue       // and its caller is to be told now
    | AnswerTried     // and the publish telling so has ended
    | Ended           // its handler ended
    | ReplyDue        // with a reply for a caller that wants one

  /** The event makes work on the delivery fail. */
  predicate Fails(s: State, d: Delivery, e: Event, t: nat) {
    || (e.HandlerEnds? && e.tag == t && (e.result.Raised? || e.result.SelfCancelled?))
    || (e.GeneratorRaises? && e.tag == t)
    || (e.PublishEnds? && e.tag == t && d.phase == Replying && e.outcome != Confirmed)
    || (e.SettleEnds? && e.tag == t && d.phase == AckingDone && !Open(s, d))
  }

  predicate Handled(e: Event) {
    (e.HandlerEnds? && e.result.Raised? && e.result.handled) || (e.GeneratorRaises? && e.handled)
  }

  predicate CarriesReply(e: Event) {
    (e.HandlerEnds? && e.result.Raised? && e.result.hasReply) || (e.GeneratorRaises? && e.hasReply)
  }

  /** The step that makes the mark. */
  predicate Marks(service: Service, s: State, e: Event, t: nat, mark: Mark) {
    && Enabled(s, e) && t < |s.deliveries|
    && var d := s.deliveries[t];
       match mark
       case Answered =>
         || (e.HandlerEnds? && e.tag == t && e.result.Value? && !(d.msg.wantsReply && e.result.hasReply))
         || (e == PublishEnds(t, Confirmed) && d.phase == Replying)
       case Parked => e == PublishEnds(t, Confirmed) && (d.phase == Retrying || d.phase == DeadLettering)
       case CalledOff => e == CallerCancels(t)
       case Failed => !d.cancelled && Fails(s, d, e, t)
       case FailedHandled => !d.cancelled && Fails(s, d, e, t) && Handled(e)
       case AnswerDue =>
         && !d.cancelled && Fails(s, d, e, t) && CarriesReply(e) && d.msg.wantsReply
         && (Handled(e) || Count(d.msg) >= service.maxRetries)
       case Ended => e.HandlerEnds? && e.tag == t
       case ReplyDue => e.HandlerEnds? && e.tag == t && e.result.Value? && d.msg.wantsReply && e.result.hasReply
       case AnswerTried => e.PublishEnds? && e.tag == t && (d.phase == AnsweringHandled || d.phase == AnsweringLast)
  }

  predicate MarkedIn(service: Service, events: seq<Event>, t: nat, mark: Mark) {
    events != []
    && (var before, e := events[..|events| - 1], events[|events| - 1];
        MarkedIn(service, before, t, mark) || Marks(service, Run(service, before), e, t, mark))
  }

  /** The marks a delivery bears. */
  datatype Marked = Marked(answered: bool, parked: bool, calledOff: bool, failed: bool, handled: bool,
                           due: bool, tried: bool, ended: bool, replyDue: bool)

  function MarksOf(service: Service, events: seq<Event>, t: nat): Marked {
    Marked(MarkedIn(service, events, t, Answered), MarkedIn(service, events, t, Parked),
           MarkedIn(service, events, t, CalledOff), MarkedIn(service, events, t, Failed),
           MarkedIn(service, events, t, FailedHandled), MarkedIn(service, events, t, AnswerDue),
           MarkedIn(service, events, t, AnswerTried), MarkedIn(service, events, t, Ended),
           MarkedIn(service, events, t, ReplyDue))
  }

  const UNMARKED: Marked := Marked(false, false, false, false, false, false, false, false, false)

  function MarksAdded(service: Service, s: State, e: Event, t: nat, m: Marked): Marked {
    Marked(m.answered || Marks(service, s, e, t, Answered), m.parked || Marks(service, s, e, t, Parked),
           m.calledOff || Marks(service, s, e, t, CalledOff), m.failed || Marks(service, s, e, t, Failed),
           m.handled || Marks(service, s, e, t, FailedHandled), m.due || Marks(service, s, e, t, AnswerDue),
           m.tried || Marks(service, s, e, t, AnswerTried), m.ended || Marks(service, s, e, t, Ended),
           m.replyDue || Marks(service, s, e, t, ReplyDue))
  }

  /** The phases of a delivery that failed: it is copied, rejected or given back. */
  predicate Climbing(d: Delivery) {
    d.phase in {Retrying, AnsweringLast, DeadLettering, AckingParked}
  }

  predicate Refusing(d: Delivery) {
    d.phase in {AnsweringHandled, Rejecting}
  }

  predicate GivingBack(d: Delivery) {
    d.phase in {Pausing, Requeueing}
  }

  /** The record is what happened, and where the delivery is follows from that. */
  ghost predicate Recorded(service: Service, d: Delivery, m: Marked) {
    && d.answered == m.answered && d.parked == m.parked && d.cancelled == m.calledOff && d.handledError == m.handled
    && (d.phase == Handling ==> !m.ended && !m.failed)
    && (d.phase == Replying ==> m.replyDue && !m.answered && !m.failed)
    && (m.replyDue && !m.answered && !m.failed ==> d.phase == Replying || d.phase == Torn || m.calledOff)
    && (d.phase == AckingDone ==> m.ended && !m.failed && (m.answered || m.calledOff))
    && (m.answered || m.replyDue || m.failed ==> m.ended)
    // Only what failed is copied, rejected or given back, and that always is.
    && (Climbing(d) || Refusing(d) || GivingBack(d) || d.parked || d.handledError ==> m.failed)
    && (m.failed ==> Climbing(d) || Refusing(d) || GivingBack(d) || !Running(d))
    // An expected error is refused, any other climbs.
    && (Climbing(d) || GivingBack(d) || d.parked ==> !m.handled)
    && (Refusing(d) || d.settlement == Rejected ==> m.handled)
    && (d.phase == AckingParked ==> d.parked) && (d.settlement == Acked && m.failed ==> d.parked)
    // The caller is told whenever that is due, once.
    && (m.due && !m.tried ==> d.phase in {AnsweringHandled, AnsweringLast, Torn})
    && (d.phase == AnsweringHandled || d.phase == AnsweringLast ==> m.due && !m.tried)
    && (m.tried ==> m.due) && (m.due ==> m.failed)
    // Settled is over; what is acknowledged was answered, called off or copied.
    && (d.settlement != Unsettled ==> d.phase == Returned)
    && (d.phase == AckingCancelled ==> m.calledOff && !m.failed)
    && (d.settlement == Acked ==> m.answered || m.calledOff || m.parked)
  }

  lemma ErrorRecorded(service: Service, d: Delivery, m: Marked, handled: bool, hasReply: bool)
    requires service.maxRetries > 0 && Recorded(service, d, m) && !m.failed && Running(d) && m.ended
    ensures var due := d.msg.wantsReply && hasReply && (handled || Count(d.msg) >= service.maxRetries);
      Recorded(service, OnError(service, d, handled, hasReply),
        if d.cancelled then m else m.(failed := true, handled := handled, due := due))
  {
  }

  lemma HandlerRecorded(service: Service, s: State, e: Event, m: Marked)
    requires service.maxRetries > 0 && e.HandlerEnds? && Enabled(s, e) && Recorded(service, s.deliveries[e.tag], m)
    ensures Recorded(service, AfterHandler(service, s.deliveries[e.tag], e.result), MarksAdded(service, s, e, e.tag, m))
  {
    var d := s.deliveries[e.tag];
    match e.result
    case Raised(handled, hasReply) => HandlerFailed(service, d, m, handled, hasReply);
    case SelfCancelled => HandlerFailed(service, d, m, false, false);
    case _ =>
  }

  lemma HandlerFailed(service: Service, d: Delivery, m: Marked, handled: bool, hasReply: bool)
    requires service.maxRetries > 0 && Recorded(service, d, m) && d.phase == Handling
    ensures var due := d.msg.wantsReply && hasReply && (handled || Count(d.msg) >= service.maxRetries);
      Recorded(service, OnError(service, d, handled, hasReply),
        if d.cancelled then m.(ended := true) else m.(ended := true, failed := true, handled := handled, due := due))
  {
  }

  lemma PublishRecorded(service: Service, s: State, e: Event, m: Marked)
    requires service.maxRetries > 0 && e.PublishEnds? && Enabled(s, e) && Recorded(service, s.deliveries[e.tag], m)
    ensures var d := s.deliveries[e.tag];
      Recorded(service, Published(service, Open(s, d), d, e.outcome), MarksAdded(service, s, e, e.tag, m))
  {
    var d := s.deliveries[e.tag];
    if d.phase == Replying && e.outcome != Confirmed { ErrorRecorded(service, d, m, false, false); }
  }

  lemma SettleRecorded(service: Service, s: State, e: Event, m: Marked)
    requires service.maxRetries > 0 && e.SettleEnds? && Enabled(s, e) && Recorded(service, s.deliveries[e.tag], m)
    ensures var d := s.deliveries[e.tag];
      Recorded(service, Settled(service, Open(s, d), d), MarksAdded(service, s, e, e.tag, m))
  {
    var d := s.deliveries[e.tag];
    if d.phase == AckingDone && !Open(s, d) { ErrorRecorded(service, d, m, false, false); }
  }

  lemma GeneratorRecorded(service: Service, s: State, e: Event, m: Marked)
    requires service.maxRetries > 0 && e.GeneratorRaises? && Enabled(s, e) && Recorded(service, s.deliveries[e.tag], m)
    ensures Recorded(service, OnError(service, s.deliveries[e.tag], e.handled, e.hasReply),
              MarksAdded(service, s, e, e.tag, m))
  {
    ErrorRecorded(service, s.deliveries[e.tag], m, e.handled, e.hasReply);
  }

  lemma PlainMark(service: Service, s: State, e: Event, mark: Mark)
    requires Moves(e) && !e.HandlerEnds? && !e.GeneratorRaises? && Enabled(s, e)
    ensures Marks(service, s, e, e.tag, mark) <==> mark == CalledOff && e.CallerCancels?
  {
  }

  lemma PlainMarks(service: Service, s: State, e: Event, m: Marked)
    requires Moves(e) && !e.HandlerEnds? && !e.GeneratorRaises? && Enabled(s, e)
    ensures MarksAdded(service, s, e, e.tag, m) == m.(calledOff := m.calledOff || e.CallerCancels?)
  {
    forall mark
      ensures Marks(service, s, e, e.tag, mark) <==> mark == CalledOff && e.CallerCancels?
    {
      PlainMark(service, s, e, mark);
    }
  }

  /** Calling off, stopping, tearing and giving back change little. */
  lemma PlainRecorded(service: Service, s: State, e: Event, m: Marked)
    requires Moves(e) && !e.HandlerEnds? && !e.GeneratorRaises? && Enabled(s, e)
    requires Recorded(service, s.deliveries[e.tag], m)
    ensures Recorded(service, Moved(service, s.deliveries[e.tag], e), m.(calledOff := m.calledOff || e.CallerCancels?))
  {
  }

  lemma MoveRecorded(service: Service, s: State, e: Event, m: Marked)
    requires service.maxRetries > 0 && Moves(e) && Enabled(s, e) && Recorded(service, s.deliveries[e.tag], m)
    ensures Recorded(service, Moved(service, s.deliveries[e.tag], e), MarksAdded(service, s, e, e.tag, m))
  {
    match e
    case HandlerEnds(_, _) => HandlerRecorded(service, s, e, m);
    case GeneratorRaises(_, _, _) => GeneratorRecorded(service, s, e, m);
    case _ =>
      PlainMarks(service, s, e, m);
      PlainRecorded(service, s, e, m);
  }

  /** A step marks only the delivery it concerns. */
  lemma OthersUnmarked(service: Service, s: State, e: Event, t: nat, m: Marked)
    requires !Own(e) || e.tag != t || !Enabled(s, e)
    ensures MarksAdded(service, s, e, t, m) == m
  {
  }

  lemma {:induction false} NotMarkedYet(service: Service, events: seq<Event>, t: nat)
    requires |Run(service, events).deliveries| <= t
    ensures MarksOf(service, events, t) == UNMARKED
  {
    if events != [] {
      var before, e := events[..|events| - 1], events[|events| - 1];
      DeliveriesStay(service, Run(service, before), e);
      NotMarkedYet(service, before, t);
    }
  }

  lemma MarksNext(service: Service, events: seq<Event>, t: nat)
    requires events != []
    ensures var before := events[..|events| - 1];
      MarksOf(service, events, t)
      == MarksAdded(service, Run(service, before), events[|events| - 1], t, MarksOf(service, before, t))
  {
  }

  /** In every run a delivery's record is what happened to it, and where it is follows:
      it is acknowledged as done only if its reply was confirmed or none was due, or its
      caller called it off; only a failure leads to a copy, a rejection or a return; an
      expected error is refused and nothing else is; a confirmed copy is one of the
      ladder's; and the caller is told exactly when that is due. */
  lemma {:induction false} RecordIsHistory(service: Service, events: seq<Event>, t: nat)
    requires service.maxRetries > 0 && t < |Run(service, events).deliveries|
    ensures Recorded(service, Run(service, events).deliveries[t], MarksOf(service, events, t))
  {
    var before, e := events[..|events| - 1], events[|events| - 1];
    var s := Run(service, before);
    MarksNext(service, events, t);
    DeliveriesStay(service, s, e);
    if t >= |s.deliveries| {
      NotMarkedYet(service, before, t);
      FreshRecorded(service, s, e, t);
    } else {
      RecordIsHistory(service, before, t);
      StepRecorded(service, s, e, t, MarksOf(service, before, t));
    }
  }

  lemma FreshRecorded(service: Service, s: State, e: Event, t: nat)
    requires |s.deliveries| <= t < |Step(service, s, e).deliveries|
    ensures Recorded(service, Step(service, s, e).deliveries[t], UNMARKED)
    ensures MarksAdded(service, s, e, t, UNMARKED) == UNMARKED
  {
    DeliveriesStay(service, s, e);
  }

  /** The steps a delivery takes itself. */
  predicate Own(e: Event) {
    Moves(e) || e.PublishEnds? || e.SettleEnds?
  }

  lemma OwnRecorded(service: Service, s: State, e: Event, m: Marked)
    requires service.maxRetries > 0 && Enabled(s, e) && Own(e) && Recorded(service, s.deliveries[e.tag], m)
    ensures e.tag < |Step(service, s, e).deliveries|
    ensures Recorded(service, Step(service, s, e).deliveries[e.tag], MarksAdded(service, s, e, e.tag, m))
  {
    OnlyOneMoves(service, s, e);
    if e.PublishEnds? {
      PublishRecorded(service, s, e, m);
    } else if e.SettleEnds? {
      SettleRecorded(service, s, e, m);
    } else {
      StepMoves(service, s, e);
      MoveRecorded(service, s, e, m);
    }
  }

  lemma OthersStay(service: Service, s: State, e: Event, t: nat)
    requires t < |s.deliveries| && !(Enabled(s, e) && Own(e) && e.tag == t)
    ensures t < |Step(service, s, e).deliveries| && Step(service, s, e).deliveries[t] == s.deliveries[t]
  {
    if Enabled(s, e) && Own(e) { OnlyOneMoves(service, s, e); }
  }

  lemma StepRecorded(service: Service, s: State, e: Event, t: nat, m: Marked)
    requires service.maxRetries > 0 && t < |s.deliveries| && Recorded(service, s.deliveries[t], m)
    ensures t < |Step(service, s, e).deliveries|
    ensures Recorded(service, Step(service, s, e).deliveries[t], MarksAdded(service, s, e, t, m))
  {
    if Enabled(s, e) && Own(e) && e.tag == t {
      OwnRecorded(service, s, e, m);
    } else {
      OthersStay(service, s, e, t);
      OthersUnmarked(service, s, e, t, m);
    }
  }

  // ------------------------------------------------------------ settlement

  /** In every run an acknowledged delivery had its reply confirmed or none due, was
      called off, or has a confirmed copy; a rejected one failed with an expected error
      and, if its caller wanted the reply that the error carried, has tried to give it;
      and a callback that returned has settled its delivery or lost its channel. */
  lemma SettlementDiscipline(service: Service, events: seq<Event>, t: nat)
    requires service.maxRetries > 0 && t < |Run(service, events).deliveries|
    ensures var s := Run(service, events);
            var d := s.deliveries[t];
            && (d.settlement == Acked ==>
                  || MarkedIn(service, events, t, Answered) || MarkedIn(service, events, t, CalledOff)
                  || MarkedIn(service, events, t, Parked))
            && (d.settlement == Rejected ==> MarkedIn(service, events, t, FailedHandled))
            && (d.settlement != Unsettled && MarkedIn(service, events, t, AnswerDue) ==>
                  MarkedIn(service, events, t, AnswerTried))
            && (d.phase == Returned ==> d.settlement != Unsettled || d.channel < s.channel)
  {
    RunInv(service, events);
    RecordIsHistory(service, events, t);
    assert Disciplined(service, Run(service, events).channel, Run(service, events).deliveries[t]);
  }

  /** This delivery was the end of its request. */
  predicate Closes(d: Delivery, r: nat) {
    d.msg.request == r && (d.settlement == Rejected || (d.settlement == Acked && !d.parked))
  }

  ghost predicate ClosedBy(s: State, r: nat) {
    exists t :: 0 <= t < |s.deliveries| && Closes(s.deliveries[t], r)
  }

  /** A delivery that is about to take a step of its own is not settled; only settling
      settles it. */
  lemma OnlySettlingSettles(service: Service, s: State, e: Event)
    requires service.maxRetries > 0 && Enabled(s, e) && (Moves(e) || e.PublishEnds?)
    requires s.deliveries[e.tag].settlement != Unsettled ==> s.deliveries[e.tag].phase == Returned
    ensures s.deliveries[e.tag].settlement == Unsettled
    ensures Step(service, s, e).deliveries == s.deliveries[e.tag := Step(service, s, e).deliveries[e.tag]]
    ensures Step(service, s, e).deliveries[e.tag].settlement == Unsettled && Step(service, s, e).excused == s.excused
  {
    OnlyOneMoves(service, s, e);
    if Moves(e) { StepMoves(service, s, e); }
  }

  lemma SettleCloses(service: Service, s: State, t: nat, m: Marked, r: nat)
    requires service.maxRetries > 0 && Enabled(s, SettleEnds(t)) && Recorded(service, s.deliveries[t], m)
    ensures var after := Step(service, s, SettleEnds(t));
      && after.deliveries == s.deliveries[t := after.deliveries[t]]
      && !Closes(s.deliveries[t], r)
      && (r in after.excused <==> r in s.excused || Closes(after.deliveries[t], r))
  {
    OnlyOneMoves(service, s, SettleEnds(t));
  }

  lemma ClosedNext(s: State, after: State, t: nat, r: nat)
    requires t < |s.deliveries| == |after.deliveries| && after.deliveries == s.deliveries[t := after.deliveries[t]]
    requires !Closes(s.deliveries[t], r)
    ensures ClosedBy(after, r) <==> ClosedBy(s, r) || Closes(after.deliveries[t], r)
  {
    if ClosedBy(s, r) {
      var u :| 0 <= u < |s.deliveries| && Closes(s.deliveries[u], r);
      assert Closes(after.deliveries[u], r);
    }
  }

  /** In every run a request is written off if and only if some delivery of it was
      rejected, or acknowledged without a copy: as it failed with an expected error, had
      its reply confirmed or none due, or was called off. */
  lemma {:induction false} ExcusedWhenEarned(service: Service, events: seq<Event>, r: nat)
    requires service.maxRetries > 0
    ensures r in Run(service, events).excused <==> ClosedBy(Run(service, events), r)
  {
    if events != [] {
      var before, e := events[..|events| - 1], events[|events| - 1];
      var s, after := Run(service, before), Run(service, events);
      ExcusedWhenEarned(service, before, r);
      if Enabled(s, e) && Own(e) {
        RecordIsHistory(service, before, e.tag);
        if e.SettleEnds? {
          SettleCloses(service, s, e.tag, MarksOf(service, before, e.tag), r);
        } else {
          OnlySettlingSettles(service, s, e);
        }
        ClosedNext(s, after, e.tag, r);
      } else {
        NobodySettles(service, s, e, r);
      }
    }
  }

  lemma NobodySettles(service: Service, s: State, e: Event, r: nat)
    requires !Enabled(s, e) || !Own(e)
    ensures Step(service, s, e).excused == s.excused
    ensures ClosedBy(Step(service, s, e), r) <==> ClosedBy(s, r)
  {
    var after := Step(service, s, e);
    assert forall t :: 0 <= t < |s.deliveries| ==> after.deliveries[t] == s.deliveries[t];
    if ClosedBy(s, r) {
      var u :| 0 <= u < |s.deliveries| && Closes(s.deliveries[u], r);
      assert Closes(after.deliveries[u], r);
    }
    DeliveriesStay(service, s, e);
    if ClosedBy(after, r) {
      var u :| 0 <= u < |after.deliveries| && Closes(after.deliveries[u], r);
      assert u < |s.deliveries|;
    }
  }

  /** What closes a request happened to one of its deliveries. */
  lemma ClosedFor(service: Service, events: seq<Event>, t: nat, r: nat)
    requires service.maxRetries > 0 && t < |Run(service, events).deliveries|
    requires Closes(Run(service, events).deliveries[t], r)
    ensures || MarkedIn(service, events, t, FailedHandled) || MarkedIn(service, events, t, Answered)
            || MarkedIn(service, events, t, CalledOff)
  {
    RecordIsHistory(service, events, t);
  }

  /** The worker and the broker agree on a settlement: over an open channel it is made,
      the copy is back in the main queue if the delivery was returned, and gone if not;
      over a lost one nothing is settled and no copy touched. */
  lemma SettlementIsMutual(service: Service, s: State, t: nat)
    requires service.maxRetries > 0 && Enabled(s, SettleEnds(t)) && s.deliveries[t].settlement == Unsettled
    ensures var d, after := s.deliveries[t], Step(service, s, SettleEnds(t));
      && (after.deliveries[t].settlement != Unsettled <==> Open(s, d))
      && (after.deliveries[t].settlement == Requeued <==> Open(s, d) && GivingBack(d))
      && (after.deliveries[t].settlement == Rejected <==> Open(s, d) && Refusing(d))
      && (!Open(s, d) ==> after.copies == s.copies)
      && (Open(s, d) && GivingBack(d) ==> d.copy in after.copies && after.copies[d.copy] == Copy(d.msg, Main))
      && (Open(s, d) && !GivingBack(d) ==> d.copy !in after.copies)
  {
  }

  /** What a copy takes over: everything for a retry but one more on its count, and its
      own key in front; all but the wish for a reply for the dead-letter queue, whose
      messages nobody answers. */
  lemma CopyCarries(service: Service, d: Delivery)
    requires Copying(d)
    ensures var m := CopyOf(service, d);
      && m.request == d.msg.request && m.messageId == d.msg.messageId && OriginalKey(m) == OriginalKey(d.msg)
      && (d.phase == Retrying ==>
            && m.wantsReply == d.msg.wantsReply && Count(m) == Count(d.msg) + 1 && m.routingKey == OriginalKey(d.msg))
      && (d.phase == DeadLettering ==> !m.wantsReply && Count(m) == Count(d.msg) && m.routingKey == service.dlqName)
  {
  }
}
