/** Reconnection gets there: an attempt fails only for a reason, and with the network's
    help every connection that is wanted is ready again after a bounded number of steps. */
module ReconnectionProgress {
  import opened Common
  import opened Reconnection

  // ------------------------------------------------------------ why attempts fail

  /** The attempt cannot do what this step of it needs. */
  predicate Blamed(s: State, e: Event) {
    match e
    case AttemptConnected => s.connect == Settled(false)
    case RestorerEnds(ok) =>
      !ok || (s.attempt.Restoring? && |s.attempt.left| > 1 && s.attempt.generation != s.generation)
    case AttemptChecks => s.attempt.Checking? && (s.attempt.generation != s.generation || Dead(s))
    case _ => false
  }

  lemma RetryCounts(maxRetries: nat, s: State, no: nat)
    ensures Retry(maxRetries, s, no).failures == s.failures
  {
  }

  lemma FailCounts(maxRetries: nat, s: State, no: nat)
    ensures Fail(maxRetries, s, no).failures == s.failures + if s.manual then 0 else 1
  {
    if !s.manual && s.handle == None {
      RetryCounts(maxRetries, s.(generation := s.generation + 1, isReady := false, isConnected := false,
                                 failures := s.failures + 1), no);
    }
  }

  lemma NextRestorerCounts(maxRetries: nat, s: State, no: nat, generation: nat, left: seq<nat>)
    ensures NextRestorer(maxRetries, s, no, generation, left).failures
         == s.failures + if left != [] && generation != s.generation && !s.manual then 1 else 0
  {
    FailCounts(maxRetries, s, no);
  }

  lemma ConnectedCounts(maxRetries: nat, s: State)
    requires Enabled(s, AttemptConnected)
    ensures Step(maxRetries, s, AttemptConnected).failures
         == s.failures + if Blamed(s, AttemptConnected) && !s.manual then 1 else 0
  {
    var cleared := s.(connect := NoConnect);
    FailCounts(maxRetries, cleared, s.attempt.no);
    NextRestorerCounts(maxRetries, cleared.(goal := s.restorers, restored := []), s.attempt.no, s.generation,
      s.restorers);
  }

  lemma RestorerCounts(maxRetries: nat, s: State, ok: bool)
    requires Enabled(s, RestorerEnds(ok))
    ensures Step(maxRetries, s, RestorerEnds(ok)).failures
         == s.failures + if Blamed(s, RestorerEnds(ok)) && !s.manual then 1 else 0
  {
    FailCounts(maxRetries, s, s.attempt.no);
    NextRestorerCounts(maxRetries, s.(restored := s.restored + [s.attempt.left[0]]), s.attempt.no, s.attempt.generation,
      s.attempt.left[1..]);
  }

  lemma CheckCounts(maxRetries: nat, s: State)
    requires Enabled(s, AttemptChecks)
    ensures var after := Step(maxRetries, s, AttemptChecks);
      if Blamed(s, AttemptChecks) then after.failures == s.failures + if s.manual then 0 else 1
      else after.failures == 0 && after.isReady
  {
    FailCounts(maxRetries, s, s.attempt.no);
  }

  lemma OtherCounts(maxRetries: nat, s: State, e: Event)
    requires Enabled(s, e) && !e.AttemptConnected? && !e.RestorerEnds? && !e.AttemptChecks?
    ensures var after := Step(maxRetries, s, e);
      if e.UserConnect? then after.failures == 0 && after.isReady else after.failures == s.failures
  {
    if e.DiscardEnds? { RetryCounts(maxRetries, s, s.attempt.no); }
  }

  /** An attempt is counted as failed if and only if the connect ended badly, a restorer
      failed, what it restores has been retired, or its socket is gone; and nobody is
      disconnecting. Only readiness forgets failures. */
  lemma FailsOnlyForCause(maxRetries: nat, s: State, e: Event)
    requires Enabled(s, e)
    ensures var after := Step(maxRetries, s, e);
      && (after.failures == s.failures + 1 <==> Blamed(s, e) && !s.manual)
      && (after.failures > s.failures ==> after.failures == s.failures + 1)
      && (after.failures < s.failures ==> after.failures == 0 && after.isReady)
  {
    match e
    case AttemptConnected => ConnectedCounts(maxRetries, s);
    case RestorerEnds(ok) => RestorerCounts(maxRetries, s, ok);
    case AttemptChecks => CheckCounts(maxRetries, s);
    case _ => OtherCounts(maxRetries, s, e);
  }

  // ------------------------------------------------------------ what an attempt has ahead of it

  /** The attempt under way is bound to fail: its connect or its socket is lost. */
  predicate Doomed(s: State) {
    match s.attempt
    case Connecting(_) =>
      (match s.connect
       case InFlight(g) => g != s.generation
       case Settled(ok) => !ok || Dead(s)
       case _ => false)
    case Restoring(_, g, _) => g != s.generation || Dead(s)
    case Checking(_, g) => g != s.generation || Dead(s)
    case _ => false
  }

  /** The budget allows for what is still going to fail. */
  predicate Chance(maxRetries: nat, s: State) {
    maxRetries > 0 ==> s.failures + (if Doomed(s) then 1 else 0) < maxRetries
  }

  /** Wanted, and ready or on its way with budget left. */
  ghost predicate Hopeful(maxRetries: nat, s: State) {
    && Inv(maxRetries, s) && s.wanted
    && (s.isReconnecting ==> Chance(maxRetries, s))
  }

  /** How many steps an attempt needs from its timer on. */
  function Whole(s: State): nat {
    6 + |s.restorers|
  }

  /** How many steps are left to readiness, at most. */
  function Cost(s: State): nat {
    if s.isReady then 0
    else if s.timer then Whole(s)
    else
      var again := if Doomed(s) then 1 + Whole(s) else 0;
      match s.attempt
      case NoAttempt => 0
      case Created => Whole(s) - 1
      case Connecting(_) =>
        (match s.connect
         case NoConnect => 0
         case Starting => Whole(s) - 2
         case InFlight(_) => if Doomed(s) then 2 + again else Whole(s) - 3
         case Settled(ok) => if ok then Whole(s) - 4 + again else 1 + again)
      case Restoring(_, _, left) => |left| + 1 + again
      case Checking(_, _) => 1 + again
      case Discarding(_) => 1 + Whole(s)
  }

  /** The network does its part, and the machine takes its next step. */
  predicate Granting(s: State, e: Event) {
    && Enabled(s, e)
    && (|| e.TimerFires? || e.AttemptStarts? || e.ConnectBegins? || (e.ConnectEnds? && e.outcome.Some?)
        || e.AttemptConnected? || e == RestorerEnds(true) || e.AttemptChecks? || e.DiscardEnds?)
  }

  lemma GrantCosts(maxRetries: nat, s: State, e: Event)
    requires Hopeful(maxRetries, s) && !s.isReady && Granting(s, e)
    ensures var after := Step(maxRetries, s, e);
      Hopeful(maxRetries, after) && Cost(after) < Cost(s)
  {
    StepInv(maxRetries, s, e);
  }

  /** What may happen beside: waiters come and go, restorers leave, and the loss of a
      socket that is gone already is noticed. */
  predicate Harmless(s: State, e: Event) {
    && Enabled(s, e)
    && (|| e.WhenReady? || e.WaiterLeaves? || e.Unregister?
        || (e.CloseCallback? && !e.loopShutdown
            && (s.handle != Some(e.handle) || (Doomed(s) && !s.connect.InFlight?))))
  }

  lemma {:induction false} RemoveShrinks(restorers: seq<nat>, r: nat)
    ensures |Remove(restorers, r)| <= |restorers|
  {
    if restorers != [] && restorers[0] != r { RemoveShrinks(restorers[1..], r); }
  }

  lemma HarmlessCosts(maxRetries: nat, s: State, e: Event)
    requires Hopeful(maxRetries, s) && Harmless(s, e)
    ensures var after := Step(maxRetries, s, e);
      Hopeful(maxRetries, after) && Cost(after) <= Cost(s)
  {
    StepInv(maxRetries, s, e);
    if e.Unregister? { RemoveShrinks(s.restorers, e.restorer); }
  }

  /** As long as it is not ready the machine has a step to take, with a connection that
      is new if it needs one. */
  lemma NotStuck(maxRetries: nat, s: State, unused: nat) returns (e: Event)
    requires Hopeful(maxRetries, s) && !s.isReady
    requires unused !in s.sockets && unused !in s.closeQueued && s.handle != Some(unused)
    ensures Granting(s, e)
  {
    if s.timer {
      e := TimerFires;
    } else {
      match s.attempt {
        case Created => e := AttemptStarts;
        case Connecting(_) =>
          e := match s.connect
            case Starting => ConnectBegins
            case InFlight(_) => ConnectEnds(Some(unused))
            case _ => AttemptConnected;
        case Restoring(_, _, _) => e := RestorerEnds(true);
        case Checking(_, _) => e := AttemptChecks;
        case _ => e := DiscardEnds;
      }
    }
  }

  /** Every event of the run does the machine's part or no harm, until it is ready. */
  predicate Helped(maxRetries: nat, s: State, events: seq<Event>)
    decreases events
  {
    events == []
    || s.isReady
    || (&& (Granting(s, events[0]) || Harmless(s, events[0]))
        && Helped(maxRetries, Step(maxRetries, s, events[0]), events[1..]))
  }

  /** The steps of the machine's own that the run takes before it is ready. */
  function Grants(maxRetries: nat, s: State, events: seq<Event>): nat
    decreases events
  {
    if events == [] || s.isReady then 0
    else (if Granting(s, events[0]) then 1 else 0) + Grants(maxRetries, Step(maxRetries, s, events[0]), events[1..])
  }

  /** Somewhere in the run the connection is ready, with no failure counted. */
  predicate GetsReady(maxRetries: nat, s: State, events: seq<Event>)
    decreases events
  {
    (s.isReady && s.failures == 0)
    || (events != [] && GetsReady(maxRetries, Step(maxRetries, s, events[0]), events[1..]))
  }

  lemma {:induction false} HelpedGetsReady(maxRetries: nat, s: State, events: seq<Event>)
    requires Hopeful(maxRetries, s) && Helped(maxRetries, s, events)
    ensures Grants(maxRetries, s, events) <= Cost(s)
    ensures GetsReady(maxRetries, s, events) || Grants(maxRetries, s, events) < Cost(s)
    decreases events
  {
    if !s.isReady && events != [] {
      var after := Step(maxRetries, s, events[0]);
      if Granting(s, events[0]) {
        GrantCosts(maxRetries, s, events[0]);
      } else {
        HarmlessCosts(maxRetries, s, events[0]);
      }
      HelpedGetsReady(maxRetries, after, events[1..]);
    }
  }

  /** From every reachable state in which the connection is wanted and reconnecting with
      budget left: once the network grants the connect and every restorer and no socket is
      lost any more, the connection gets ready, with no failure counted, within a number
      of its own steps given by the restorers: at most `2 * restorers + 9` and those still
      to be run. */
  lemma ReconnectionSucceeds(maxRetries: nat, before: seq<Event>, events: seq<Event>)
    requires var s := Run(maxRetries, before); s.wanted && s.isReconnecting && Chance(maxRetries, s)
    requires Helped(maxRetries, Run(maxRetries, before), events)
    requires Grants(maxRetries, Run(maxRetries, before), events) >= Cost(Run(maxRetries, before))
    ensures GetsReady(maxRetries, Run(maxRetries, before), events)
  {
    RunInv(maxRetries, before);
    HelpedGetsReady(maxRetries, Run(maxRetries, before), events);
  }

  function StillToRun(s: State): nat {
    if s.attempt.Restoring? then |s.attempt.left| else 0
  }

  lemma CostIsBounded(s: State)
    ensures Cost(s) <= 2 * |s.restorers| + 9 + StillToRun(s)
  {
  }

  // ------------------------------------------------------------ giving up on purpose

  /** `disconnect` goes on with whatever it waits for. */
  function DisconnectGoesOn(maxRetries: nat, s: State): State {
    if s.disconnecting == AwaitingTask && Live(s) then Step(maxRetries, s, AttemptCancelled)
    else Step(maxRetries, s, DisconnectResumes)
  }

  predicate Down(s: State) {
    && s.disconnecting == Idle && s.manual
    && s.handle == None && !s.isConnected && !s.isReady && s.waiters == 0
    && !s.timer && !Live(s) && !s.isReconnecting
  }

  /** A `disconnect` under way takes the connection down in at most three steps: the
      attempt is cancelled, the handle closed, and nothing is left waiting or trying. */
  lemma DisconnectCompletes(maxRetries: nat, s: State)
    requires Inv(maxRetries, s) && s.disconnecting != Idle
    ensures var one := DisconnectGoesOn(maxRetries, s);
      var two := if one.disconnecting == Idle then one else DisconnectGoesOn(maxRetries, one);
      Down(if two.disconnecting == Idle then two else DisconnectGoesOn(maxRetries, two))
  {
  }

  lemma DisconnectBegins(maxRetries: nat, s: State)
    requires Inv(maxRetries, s) && s.disconnecting == Idle
    ensures var after := Step(maxRetries, s, Disconnect);
      (after.disconnecting == Idle ==> Down(after)) && after.manual && !after.wanted && !after.timer
  {
  }

  /** Whoever asks for readiness waits unless there is nothing to wait for, and everybody
      waiting is released by readiness and by giving up. */
  lemma WaitersWait(maxRetries: nat, s: State)
    requires Inv(maxRetries, s)
    ensures var after := Step(maxRetries, s, WhenReady);
      after == if s.isReady || s.manual then s else s.(waiters := s.waiters + 1)
    ensures s.attempt.Checking? && Step(maxRetries, s, AttemptChecks).isReady ==>
      Step(maxRetries, s, AttemptChecks).waiters == 0
    ensures s.wanted && !s.manual && s.disconnecting == Idle ==>
      forall h :: h in s.closeQueued && !Step(maxRetries, s, CloseCallback(h, false)).wanted ==>
        Step(maxRetries, s, CloseCallback(h, false)).waiters == 0
  {
  }
}
