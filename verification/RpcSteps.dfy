/** One unary call: readiness, publish, reply, deadline, and at most one republish
    after a lost channel. A step is what runs between two suspension points. */
module RpcSteps {
  import opened Common

  /** How the broker answered one publish attempt. */
  datatype Verdict = Outstanding | Confirmed | Nacked | Unroutable | ConfirmTimeout | ChannelClosed | Abandoned

  datatype Conn = Up | Coming | Down

  datatype Future = Open | Replied(body: Bytes) | Disconnected

  datatype Outcome =
    | Reply(body: Bytes)
    | TimedOut(published: Option<bool>)
    | PublishError(verdict: Verdict)
    | LostConnection
    | NotConnected
    | NotReady
    | CancelledByCaller

  datatype Pc =
    | Ready          // waiting for the connection, under the deadline
    | Racing         // waiting for the publish or the reply slot
    | Settling       // slot failed by a disconnection, publish still settling
    | Awaiting       // confirmed, waiting out the deadline for the reply
    | Finished(outcome: Outcome)

  /** One message handed to the publishing channel. */
  datatype Attempt = Attempt(messageId: nat, correlationId: nat, replyTo: nat, at: int)

  datatype Call = Call(
    pc: Pc,
    messageId: nat,
    correlationId: nat,
    deadline: int,
    now: int,
    conn: Conn,
    callbackQueue: nat,
    slot: bool,               // the reply slot is registered
    future: Future,           // the latest attempt's reply future
    republished: bool,
    attempts: seq<Attempt>,
    verdicts: seq<Verdict>,   // one per attempt
    atEnd: seq<Verdict>       // what the verdicts were when the call ended
  )

  datatype Event =
    | Tick(to: int)
    | ReplyArrives(body: Bytes)
    | ConnectionLost
    | ConnectionBack(callbackQueue: nat)
    | ConnectionGivenUp
    | PublishSettles(k: nat, verdict: Verdict)
    | ReadyResolves
    | ReadyFails
    | Resume
    | CallerCancels

  function Last(verdicts: seq<Verdict>): Verdict {
    if verdicts == [] then Outstanding else verdicts[|verdicts| - 1]
  }

  predicate Over(c: Call) { c.pc.Finished? }

  function End(c: Call, outcome: Outcome): Call {
    c.(pc := Finished(outcome), atEnd := c.verdicts)
  }

  /** Frees the slot, on the paths that have armed one. */
  function ReleaseSlot(c: Call): Call {
    c.(slot := false)
  }

  function Expired(c: Call): bool { c.deadline <= c.now }

  /** The head of the publish loop. */
  function TryPublish(c: Call): Call {
    if Expired(c) then End(c, TimedOut(if c.republished then None else Some(false)))
    else c.(pc := Racing, slot := true, future := Open,
            attempts := c.attempts + [Attempt(c.messageId, c.correlationId, c.callbackQueue, c.now)],
            verdicts := c.verdicts + [Outstanding])
  }

  /** Readiness under the deadline: a usable connection is not waited for. */
  function AwaitPublishable(c: Call): Call {
    match c.conn
    case Up => TryPublish(c)
    case Coming => c.(pc := Ready)
    case Down => End(c, NotConnected)
  }

  function Start(messageId: nat, correlationId: nat, deadline: int, now: int, conn: Conn, callbackQueue: nat): Call {
    AwaitPublishable(Call(Ready, messageId, correlationId, deadline, now, conn, callbackQueue, false, Open, false, [],
      [], []))
  }

  /** The publish has an answer, or the deadline has passed without one. */
  function AfterRace(c: Call): Call {
    if Last(c.verdicts) == Outstanding then End(ReleaseSlot(c), TimedOut(None))
    else if Last(c.verdicts) == Confirmed then c.(pc := Awaiting)
    else if Last(c.verdicts) == ChannelClosed && !c.republished && c.conn != Up then
      AwaitPublishable(ReleaseSlot(c).(republished := true))
    else End(ReleaseSlot(c), PublishError(Last(c.verdicts)))
  }

  function OnResume(c: Call): Call {
    match c.pc
    case Ready => End(c, TimedOut(if c.republished then None else Some(false)))
    case Racing =>
      if c.future.Replied? then End(ReleaseSlot(c), Reply(c.future.body))
      else if c.future.Disconnected? && Last(c.verdicts) == Outstanding then c.(pc := Settling)
      else AfterRace(c)
    case Settling => AfterRace(c)
    case Awaiting =>
      (match c.future
       case Open => End(ReleaseSlot(c), TimedOut(Some(true)))
       case Replied(body) => End(ReleaseSlot(c), Reply(body))
       case Disconnected => End(ReleaseSlot(c), LostConnection))
    case Finished(_) => c
  }

  /** What the coroutine waits for has happened, or its timeout has expired. */
  predicate Runnable(c: Call) {
    match c.pc
    case Ready => Expired(c)
    case Racing => Expired(c) || c.future != Open || Last(c.verdicts) != Outstanding
    case Settling => Expired(c) || Last(c.verdicts) != Outstanding
    case Awaiting => Expired(c) || c.future != Open
    case Finished(_) => false
  }

  predicate Enabled(c: Call, e: Event) {
    match e
    case Tick(to) => c.now <= to
    case ReplyArrives(_) => true
    case ConnectionLost => true
    case ConnectionBack(_) => true
    case ConnectionGivenUp => true
    case PublishSettles(k, verdict) =>
      k < |c.verdicts| && c.verdicts[k] == Outstanding && verdict != Outstanding && verdict != Abandoned
    case ReadyResolves => c.pc == Ready
    case ReadyFails => c.pc == Ready
    case Resume => Runnable(c)
    case CallerCancels => !Over(c)
  }

  function Abandon(verdicts: seq<Verdict>): seq<Verdict> {
    if verdicts == [] || verdicts[|verdicts| - 1] != Outstanding then verdicts
    else verdicts[|verdicts| - 1 := Abandoned]
  }

  function Step(c: Call, e: Event): Call {
    if !Enabled(c, e) then c
    else match e
      case Tick(to) => c.(now := to)
      case ReplyArrives(body) =>
        if !c.slot then c else c.(slot := false, future := if c.future == Open then Replied(body) else c.future)
      case ConnectionLost =>
        c.(conn := Coming, slot := false, future := if c.slot && c.future == Open then Disconnected else c.future)
      case ConnectionBack(queue) => c.(conn := Up, callbackQueue := queue)
      case ConnectionGivenUp => c.(conn := Down)
      case PublishSettles(k, verdict) => c.(verdicts := c.verdicts[k := verdict])
      case ReadyResolves => TryPublish(c)
      case ReadyFails => End(c, NotReady)
      case Resume => OnResume(c)
      case CallerCancels =>
        if c.pc == Ready then End(c, CancelledByCaller)
        else End(ReleaseSlot(c).(verdicts := Abandon(c.verdicts)), CancelledByCaller)
  }

  function Run(start: Call, events: seq<Event>): Call {
    if events == [] then start
    else Step(Run(start, events[..|events| - 1]), events[|events| - 1])
  }

  // ------------------------------------------------------------------ invariant

  /** What the call's outcome says about its attempts is what the verdicts said when
      it ended. */
  predicate Truthful(outcome: Outcome, verdicts: seq<Verdict>) {
    match outcome
    case TimedOut(Some(false)) => verdicts == []
    case TimedOut(Some(true)) => verdicts != [] && verdicts[|verdicts| - 1] == Confirmed
    case TimedOut(None) =>
      && verdicts != [] && Confirmed !in verdicts
      && (verdicts[|verdicts| - 1] == Outstanding || verdicts[|verdicts| - 1] == ChannelClosed)
    case PublishError(verdict) =>
      verdicts != [] && verdict == verdicts[|verdicts| - 1] && verdict != Confirmed && verdict != Outstanding
    case LostConnection => verdicts != [] && verdicts[|verdicts| - 1] == Confirmed
    case _ => true
  }

  ghost predicate Inv(c: Call) {
    && |c.attempts| == |c.verdicts| <= 2
    && (forall k :: 0 <= k < |c.attempts| ==>
          && c.attempts[k].messageId == c.messageId && c.attempts[k].correlationId == c.correlationId
          && c.attempts[k].at < c.deadline)
    && (c.slot ==> c.pc == Racing || c.pc == Settling || c.pc == Awaiting)
    && (c.republished ==> |c.verdicts| > 0 && c.verdicts[0] == ChannelClosed)
    && (|c.verdicts| == 2 ==> c.republished)
    && (c.pc == Ready ==> |c.verdicts| == (if c.republished then 1 else 0))
    && (c.pc == Racing || c.pc == Settling ==> |c.verdicts| == (if c.republished then 2 else 1))
    && (c.pc == Awaiting ==> Last(c.verdicts) == Confirmed)
    && (Over(c) ==> Truthful(c.pc.outcome, c.atEnd) && |c.atEnd| == |c.verdicts|)
    && (Over(c) && c.pc.outcome.TimedOut? ==> Expired(c))
  }

  lemma TryPublishInv(c: Call)
    requires Inv(c) && c.pc == Ready && !c.slot
    ensures Inv(TryPublish(c))
  {
  }

  lemma AfterRaceInv(c: Call)
    requires Inv(c) && (c.pc == Racing || c.pc == Settling) && (Last(c.verdicts) == Outstanding ==> Expired(c))
    ensures Inv(AfterRace(c))
  {
    if Last(c.verdicts) == ChannelClosed && !c.republished && c.conn == Up {
    } else if Last(c.verdicts) == ChannelClosed && !c.republished {
      assert c.verdicts == [ChannelClosed];
    } else if Last(c.verdicts) == Outstanding {
      assert c.verdicts == if c.republished then [ChannelClosed, Outstanding] else [Outstanding];
    }
  }

  lemma ResumeInv(c: Call)
    requires Inv(c) && Runnable(c)
    ensures Inv(OnResume(c))
  {
    if c.pc == Ready {
      assert c.republished ==> c.verdicts == [ChannelClosed];
    } else if || c.pc == Settling
              || (&& c.pc == Racing && !c.future.Replied?
                  && !(c.future.Disconnected? && Last(c.verdicts) == Outstanding)) {
      AfterRaceInv(c);
    }
  }

  lemma SettleInv(c: Call, k: nat, verdict: Verdict)
    requires Inv(c) && Enabled(c, PublishSettles(k, verdict))
    ensures Inv(c.(verdicts := c.verdicts[k := verdict]))
  {
  }

  lemma StepInv(c: Call, e: Event)
    requires Inv(c)
    ensures Inv(Step(c, e))
  {
    if Enabled(c, e) {
      match e
      case ReadyResolves => TryPublishInv(c);
      case Resume => ResumeInv(c);
      case PublishSettles(k, verdict) => SettleInv(c, k, verdict);
      case CallerCancels => assert |Abandon(c.verdicts)| == |c.verdicts|;
      case _ =>
    }
  }

  lemma {:induction false} RunInv(start: Call, events: seq<Event>)
    requires Inv(start)
    ensures Inv(Run(start, events))
  {
    if events != [] {
      RunInv(start, events[..|events| - 1]);
      StepInv(Run(start, events[..|events| - 1]), events[|events| - 1]);
    }
  }

  /** In every run: at most two attempts, both under the call's one message id and
      one correlation id, each begun before the deadline, the second only after the
      first lost its channel; no slot once the call is over; and an outcome that says
      no more about the request than its verdicts did. */
  lemma CallDiscipline(messageId: nat, correlationId: nat, deadline: int, now: int, conn: Conn, queue: nat,
                       events: seq<Event>)
    ensures var c := Run(Start(messageId, correlationId, deadline, now, conn, queue), events);
            && |c.attempts| <= 2
            && (forall k :: 0 <= k < |c.attempts| ==>
                  && c.attempts[k].messageId == messageId && c.attempts[k].correlationId == correlationId
                  && c.attempts[k].at < deadline)
            && (|c.attempts| == 2 ==> c.verdicts != [] && c.verdicts[0] == ChannelClosed)
            && (Over(c) ==> !c.slot && Truthful(c.pc.outcome, c.atEnd))
            && (Over(c) && c.pc.outcome.TimedOut? ==> deadline <= c.now)
  {
    RunInv(Start(messageId, correlationId, deadline, now, conn, queue), events);
    SameIds(Start(messageId, correlationId, deadline, now, conn, queue), events);
  }

  predicate SameKeys(c: Call, d: Call) {
    c.messageId == d.messageId && c.correlationId == d.correlationId && c.deadline == d.deadline
  }

  lemma ResumeSameKeys(c: Call)
    ensures SameKeys(c, OnResume(c)) && SameKeys(c, TryPublish(c))
  {
  }

  lemma StepSameKeys(c: Call, e: Event)
    ensures SameKeys(c, Step(c, e))
  {
    if e.Resume? || e.ReadyResolves? {
      ResumeSameKeys(c);
    } else {
      match e
      case PublishSettles(_, _) =>
      case _ =>
    }
  }

  lemma {:induction false} SameIds(start: Call, events: seq<Event>)
    ensures SameKeys(start, Run(start, events))
  {
    if events != [] {
      SameIds(start, events[..|events| - 1]);
      StepSameKeys(Run(start, events[..|events| - 1]), events[|events| - 1]);
    }
  }

  /** A timeout's `published` is exact: False when and only when nothing was
      attempted, True when and only when the latest attempt was confirmed, and
      otherwise an attempt was made whose fate is unknown. */
  lemma PublishedIsExact(messageId: nat, correlationId: nat, deadline: int, now: int, conn: Conn, queue: nat,
                         events: seq<Event>)
    ensures var c := Run(Start(messageId, correlationId, deadline, now, conn, queue), events);
            Over(c) && c.pc.outcome.TimedOut? ==>
              && (c.pc.outcome.published == Some(false) <==> c.atEnd == [])
              && (c.pc.outcome.published == Some(true) <==> Confirmed in c.atEnd)
              && (c.pc.outcome.published == None ==>
                    c.atEnd[|c.atEnd| - 1] == Outstanding || c.atEnd[|c.atEnd| - 1] == ChannelClosed)
  {
    RunInv(Start(messageId, correlationId, deadline, now, conn, queue), events);
  }

  /** A reply that is returned did arrive for this call. */
  lemma {:induction false} RepliesArrived(messageId: nat, correlationId: nat, deadline: int, now: int, conn: Conn,
                                          queue: nat, events: seq<Event>)
    ensures var c := Run(Start(messageId, correlationId, deadline, now, conn, queue), events);
            && (c.future.Replied? ==> ReplyArrives(c.future.body) in events)
            && (Over(c) && c.pc.outcome.Reply? ==> ReplyArrives(c.pc.outcome.body) in events)
  {
    if events != [] {
      var before, e := events[..|events| - 1], events[|events| - 1];
      RepliesArrived(messageId, correlationId, deadline, now, conn, queue, before);
      assert e in events && forall b :: b in before ==> b in events;
      var c := Run(Start(messageId, correlationId, deadline, now, conn, queue), before);
      if Enabled(c, e) { RepliesKept(c, e); }
    }
  }

  /** Only an arriving reply makes a reply. */
  lemma RepliesKept(c: Call, e: Event)
    requires Enabled(c, e)
    ensures var after := Step(c, e);
            && (after.future.Replied? ==> after.future == c.future || e == ReplyArrives(after.future.body))
            && (Over(after) && after.pc.outcome.Reply? ==>
                  after.pc == c.pc || c.future == Replied(after.pc.outcome.body))
  {
  }
}
