/** How a unary call ends: exactly as what happened to it says, and in time. */
module RpcOutcome {
  import opened Common
  import opened RpcSteps

  /** What happened to the call so far. */
  datatype Story = Story(
    replied: Option<Bytes>,   // the reply that reached its armed slot
    lost: bool,               // a disconnection failed the current attempt's armed slot
    cancelled: bool,
    unready: bool,            // the wait for readiness failed
    kept: bool,               // its channel was lost while the connection was up
    down: bool                // there was no connection to wait for
  )

  /** A publish has been refused for its lost channel, and nothing else has come. */
  predicate SeesLoss(c: Call, e: Event) {
    e == Resume && (c.pc == Racing || c.pc == Settling) && Last(c.verdicts) == ChannelClosed && !c.future.Replied?
  }

  function Told(s: Story, c: Call, e: Event): Story {
    if !Enabled(c, e) then s
    else match e
      case ReplyArrives(body) => if c.slot && c.future == Open then s.(replied := Some(body)) else s
      case ConnectionLost => if c.slot && c.future == Open then s.(lost := true) else s
      case CallerCancels => s.(cancelled := true)
      case ReadyFails => s.(unready := true)
      case ReadyResolves => if Expired(c) then s else s.(lost := false)
      case Resume =>
        if SeesLoss(c, e) && (c.conn == Up || c.republished) then s.(kept := true)
        else if SeesLoss(c, e) && c.conn == Down then s.(down := true)
        else s
      case _ => s
  }

  function StoryOf(start: Call, events: seq<Event>): Story {
    if events == [] then Story(None, false, false, false, false, start.conn == Down)
    else
      var before, e := events[..|events| - 1], events[|events| - 1];
      Told(StoryOf(start, before), Run(start, before), e)
  }

  /** The outcome is what the story and the verdicts say. */
  predicate Fits(s: Story, outcome: Outcome, verdicts: seq<Verdict>) {
    if s.cancelled then outcome == CancelledByCaller
    else if s.unready then outcome == NotReady
    else if s.replied.Some? then outcome == Reply(s.replied.value)
    else if s.down then outcome == NotConnected
    else if verdicts == [] then outcome == TimedOut(Some(false))
    else match verdicts[|verdicts| - 1]
      case Outstanding => outcome == TimedOut(None)
      case Confirmed => outcome == if s.lost then LostConnection else TimedOut(Some(true))
      case ChannelClosed => outcome == if s.kept then PublishError(ChannelClosed) else TimedOut(None)
      case verdict => outcome == PublishError(verdict)
  }

  /** The call's own state tells the story, and a reply that can come is expected. */
  ghost predicate Telling(s: Story, c: Call) {
    && (s.replied.Some? <==> c.future.Replied?) && (s.replied.Some? ==> c.future == Replied(s.replied.value))
    && (c.pc == Racing || c.pc == Settling || c.pc == Awaiting ==> (s.lost <==> c.future.Disconnected?))
    && (c.pc == Racing || c.pc == Awaiting ==> (c.slot <==> c.future == Open))
    && (c.pc == Settling ==> c.future.Disconnected? && !c.slot)
    && (c.pc == Ready ==> !c.future.Replied?)
    && (!Over(c) ==> !s.cancelled && !s.unready && !s.kept && !s.down)
    && (s.unready ==> s.replied == None)
    && (Over(c) ==> !c.slot && Fits(s, c.pc.outcome, c.atEnd))
  }

  lemma TellsNext(s: Story, c: Call, e: Event)
    requires Inv(c) && Telling(s, c)
    ensures Telling(Told(s, c, e), Step(c, e))
  {
    if Enabled(c, e) && e.Resume? { ResumeTells(s, c); }
  }

  lemma ResumeTells(s: Story, c: Call)
    requires Inv(c) && Telling(s, c) && Runnable(c)
    ensures Telling(Told(s, c, Resume), OnResume(c))
  {
  }

  function Begin(messageId: nat, correlationId: nat, deadline: int, now: int, conn: Conn, queue: nat): (c: Call)
    ensures Inv(c) && Telling(Story(None, false, false, false, false, conn == Down), c) && c.conn == conn
  {
    Start(messageId, correlationId, deadline, now, conn, queue)
  }

  lemma {:induction false} RunTells(start: Call, events: seq<Event>)
    requires Inv(start) && Telling(Story(None, false, false, false, false, start.conn == Down), start)
    ensures Telling(StoryOf(start, events), Run(start, events))
  {
    if events != [] {
      var before, e := events[..|events| - 1], events[|events| - 1];
      RunTells(start, before);
      RunInv(start, before);
      TellsNext(StoryOf(start, before), Run(start, before), e);
    }
  }

  /** In every run a call that is over ended as its story says: with the reply that
      reached its slot if one did, as lost if and only if a disconnection failed the slot
      of a confirmed attempt, with the broker's verdict on the latest attempt, or as timed
      out; and without a slot. While it is not over none of the other ends has come. */
  lemma OutcomeIsStory(messageId: nat, correlationId: nat, deadline: int, now: int, conn: Conn, queue: nat,
                       events: seq<Event>)
    ensures var start := Start(messageId, correlationId, deadline, now, conn, queue);
      var c, s := Run(start, events), StoryOf(start, events);
      && (Over(c) ==> Fits(s, c.pc.outcome, c.atEnd) && !c.slot)
      && (!Over(c) ==> !s.cancelled && !s.unready && !s.kept && !s.down)
      && (s.replied.Some? && Over(c) ==> c.pc.outcome == Reply(s.replied.value) || c.pc.outcome == CancelledByCaller)
      && (Over(c) && c.pc.outcome == LostConnection ==> s.lost && s.replied == None && Last(c.atEnd) == Confirmed)
  {
    var start := Begin(messageId, correlationId, deadline, now, conn, queue);
    RunTells(start, events);
    if Over(Run(start, events)) { StoryFits(StoryOf(start, events), Run(start, events)); }
  }

  lemma StoryFits(s: Story, c: Call)
    requires Telling(s, c) && Over(c)
    ensures s.replied.Some? ==> c.pc.outcome == Reply(s.replied.value) || c.pc.outcome == CancelledByCaller
    ensures c.pc.outcome == LostConnection ==> s.lost && s.replied == None && Last(c.atEnd) == Confirmed
  {
  }

  // ------------------------------------------------------------ in time

  /** How many resumptions a call can still need. */
  function Rank(c: Call): nat {
    if Over(c) then 0
    else (match c.pc case Ready => 4 case Racing => 3 case Settling => 2 case _ => 1) + if c.republished then 0 else 4
  }

  /** Every resumption gets the call on. */
  lemma ResumeProgresses(c: Call)
    requires Inv(c) && Runnable(c)
    ensures Rank(Step(c, Resume)) < Rank(c)
    ensures Step(c, Resume).now == c.now && Step(c, Resume).deadline == c.deadline
  {
  }

  function Resumed(c: Call, k: nat): Call
    decreases k
  {
    if k == 0 then c else Resumed(Step(c, Resume), k - 1)
  }

  lemma {:induction false} ResumedEnds(c: Call, k: nat)
    requires Inv(c) && Expired(c) && Rank(c) <= k
    ensures Over(Resumed(c, k))
    decreases k
  {
    if Over(c) {
      OverStays(c, k);
    } else {
      ResumeProgresses(c);
      StepInv(c, Resume);
      ResumedEnds(Step(c, Resume), k - 1);
    }
  }

  lemma {:induction false} OverStays(c: Call, k: nat)
    requires Over(c)
    ensures Over(Resumed(c, k))
    decreases k
  {
    if k > 0 { OverStays(Step(c, Resume), k - 1); }
  }

  /** In every run, once the deadline has passed eight resumptions are enough. */
  lemma EndsInTime(messageId: nat, correlationId: nat, deadline: int, now: int, conn: Conn, queue: nat,
                   events: seq<Event>)
    ensures var c := Run(Start(messageId, correlationId, deadline, now, conn, queue), events);
      deadline <= c.now ==> Over(Resumed(c, 8))
  {
    var start := Begin(messageId, correlationId, deadline, now, conn, queue);
    RunInv(start, events);
    SameIds(start, events);
    var c := Run(start, events);
    if Expired(c) { ResumedEnds(c, 8); }
  }

  /** A call waits for readiness only while the connection is coming, and once it is
      there before the deadline it publishes: a second time, when the first attempt lost
      its channel, to the reply queue of then. */
  lemma ReadinessPublishes(c: Call)
    requires Inv(c)
    ensures SeesLoss(c, Resume) && !c.republished && c.conn == Coming ==>
      Step(c, Resume).pc == Ready && Step(c, Resume).republished
    ensures c.pc == Ready && !Expired(c) ==>
      var after := Step(c, ReadyResolves);
      && after.pc == Racing && after.slot && after.future == Open
      && |after.attempts| == |c.attempts| + 1 && after.attempts[..|c.attempts|] == c.attempts
      && after.attempts[|c.attempts|] == Attempt(c.messageId, c.correlationId, c.callbackQueue, c.now)
    ensures c.pc == Ready && c.republished ==> |c.attempts| == 1
  {
    if c.pc == Ready && !Expired(c) {
      var after := Step(c, ReadyResolves);
      assert after.attempts[..|c.attempts|] == c.attempts;
    }
  }

  /** A connection that is there is not waited for. */
  lemma UsableIsNotWaitedFor(messageId: nat, correlationId: nat, deadline: int, now: int, queue: nat)
    requires now < deadline
    ensures var c := Start(messageId, correlationId, deadline, now, Up, queue);
      c.pc == Racing && c.slot && c.attempts == [Attempt(messageId, correlationId, queue, now)]
  {
  }
}
