/** The connection's generation-numbered reconnection: one timer or one attempt at
    a time, restoration in order, readiness, and `disconnect` racing with all of it.
    A step is what runs between two suspension points. */
module Reconnection {
  import opened Common

  /** Where the reconnection attempt's task is suspended. `no` is the attempt's
      number, read before a successful connect resets the counter. */
  datatype Attempt =
    | NoAttempt
    | Created                                             // the task exists, its body has not run
    | Connecting(no: nat)                                 // sharing the connect task
    | Restoring(no: nat, generation: nat, left: seq<nat>) // inside left[0]
    | Checking(no: nat, generation: nat)                  // letting queued close callbacks run
    | Discarding(no: nat)                                 // closing a connection it could not restore

  /** The connect task: created, then in flight under the generation it read when it
      began, then settled. */
  datatype ConnectTask = NoConnect | Starting | InFlight(generation: nat) | Settled(ok: bool)

  datatype Disconnecting = Idle | AwaitingTask | Closing

  datatype State = State(
    generation: nat,
    handle: Option<nat>,
    sockets: set<nat>,          // connections whose socket is open
    closeQueued: set<nat>,      // closed, close callback not run yet
    isConnected: bool,
    isReconnecting: bool,
    isReady: bool,
    manual: bool,
    attempts: nat,
    timer: bool,
    attempt: Attempt,
    connect: ConnectTask,
    disconnecting: Disconnecting,
    waiters: nat,               // tasks parked on readiness
    restorers: seq<nat>,
    // history
    goal: seq<nat>,             // the restorers present when restoration began
    restored: seq<nat>,         // those finished since
    failures: nat,              // attempts failed since the connection last worked
    wanted: bool                // connected once, not closed, not given up
  )

  datatype Event =
    | UserConnect(handle: nat)
    | UserConnectFails
    | Disconnect
    | DisconnectResumes
    | TimerFires
    | AttemptStarts
    | ConnectBegins
    | ConnectEnds(outcome: Option<nat>)
    | AttemptConnected
    | RestorerEnds(ok: bool)
    | AttemptChecks
    | DiscardEnds
    | AttemptCancelled
    | SocketDies(handle: nat)
    | CloseCallback(handle: nat, loopShutdown: bool)
    | WhenReady
    | WaiterLeaves
    | Register(restorer: nat)
    | Unregister(restorer: nat)

  const INITIAL := State(0, None, {}, {}, false, false, false, false, 0, false, NoAttempt, NoConnect, Idle,
                         0, [], [], [], 0, false)

  predicate Live(s: State) { s.attempt != NoAttempt }

  predicate Connectable(s: State) { s.connect == NoConnect || s.connect.Settled? }

  /** Nothing is connected, connecting, reconnecting or disconnecting. */
  predicate Quiet(s: State) {
    !s.isConnected && s.disconnecting == Idle && !s.timer && !Live(s) && Connectable(s)
  }

  predicate Enabled(s: State, e: Event) {
    match e
    case UserConnect(h) =>
      && Quiet(s)
      && h !in s.sockets && h !in s.closeQueued
    case UserConnectFails =>
      Quiet(s)
    case Disconnect => s.disconnecting == Idle
    case DisconnectResumes => s.disconnecting == Closing || (s.disconnecting == AwaitingTask && !Live(s))
    case TimerFires => s.timer
    // A cancelled task does not get past a plain await; a restorer or a closing
    // connection may swallow the cancellation.
    case AttemptStarts => s.attempt == Created && s.disconnecting == Idle
    case ConnectBegins => s.connect == Starting
    case ConnectEnds(h) =>
      && s.connect.InFlight?
      && (h.Some? ==> h.value !in s.sockets && h.value !in s.closeQueued && h != s.handle)
    case AttemptConnected => s.attempt.Connecting? && s.connect.Settled? && s.disconnecting == Idle
    case RestorerEnds(_) => s.attempt.Restoring? && s.attempt.left != []
    case AttemptChecks => s.attempt.Checking?
    case DiscardEnds => s.attempt.Discarding?
    case AttemptCancelled => s.disconnecting == AwaitingTask && Live(s)
    case SocketDies(h) => h in s.sockets
    case CloseCallback(h, _) => h in s.closeQueued
    case WhenReady => true
    case WaiterLeaves => s.waiters > 0
    case Register(_) => true
    case Unregister(_) => true
  }

  function MarkReady(s: State): State { s.(isReady := true, waiters := 0) }

  function AbandonReady(s: State): State { s.(isReady := false, waiters := 0) }

  /** Arms the timer for one more attempt, or gives up when the budget is spent. */
  function Schedule(maxRetries: nat, s: State): (r: State)
    ensures r.handle == s.handle && r.generation == s.generation
  {
    if s.manual || s.isReconnecting then s
    else if maxRetries > 0 && s.attempts >= maxRetries then AbandonReady(s).(wanted := false)
    else s.(isReconnecting := true, attempts := s.attempts + 1, timer := true)
  }

  /** The attempt goes on to its next restorer, or to the final check. */
  function NextRestorer(maxRetries: nat, s: State, no: nat, generation: nat, left: seq<nat>): (r: State)
    ensures r.generation >= s.generation && (r.handle == s.handle || r.handle == None)
  {
    if left == [] then s.(attempt := Checking(no, generation))
    else if generation != s.generation then Fail(maxRetries, s, no)
    else s.(attempt := Restoring(no, generation, left))
  }

  /** The attempt raised. */
  function Fail(maxRetries: nat, s: State, no: nat): (r: State)
    ensures r.generation >= s.generation && (r.handle == s.handle || r.handle == None)
  {
    if s.manual then s.(isReconnecting := false, attempt := NoAttempt)
    else
      var d := s.(generation := s.generation + 1, isReady := false, isConnected := false, handle := None,
                  failures := s.failures + 1);
      if s.handle == None then Retry(maxRetries, d, no) else d.(attempt := Discarding(no))
  }

  function Retry(maxRetries: nat, s: State, no: nat): State {
    Schedule(maxRetries, s.(attempt := NoAttempt, attempts := no, isReconnecting := false))
  }

  function Install(s: State, h: nat): State {
    s.(handle := Some(h), sockets := s.sockets + {h}, isConnected := true, attempts := 0)
  }

  /** `disconnect` once no attempt is running any more. */
  function FinishDisconnect(s: State): State {
    var s := AbandonReady(s.(isReconnecting := false));
    if s.handle == None then s.(isConnected := false, disconnecting := Idle)
    else s.(handle := None, disconnecting := Closing)
  }

  function Remove(restorers: seq<nat>, r: nat): seq<nat> {
    if restorers == [] then []
    else if restorers[0] == r then restorers[1..]
    else [restorers[0]] + Remove(restorers[1..], r)
  }

  function OnHandleClosed(maxRetries: nat, s: State, h: nat, loopShutdown: bool): State {
    var s := s.(closeQueued := s.closeQueued - {h});
    if s.handle != Some(h) || s.manual then s
    else
      var down := s.(isConnected := false, isReady := false, generation := s.generation + 1);
      if loopShutdown then down.(wanted := false) else Schedule(maxRetries, down)
  }

  function Step(maxRetries: nat, s: State, e: Event): State {
    if !Enabled(s, e) then s
    else match e
      case UserConnect(h) =>
        MarkReady(Install(s, h).(manual := false, isReconnecting := false, failures := 0, wanted := true))
      case UserConnectFails => s.(manual := false, isConnected := false, wanted := false)
      case Disconnect =>
        var s := s.(manual := true, generation := s.generation + 1, timer := false, wanted := false);
        if Live(s) then s.(disconnecting := AwaitingTask) else FinishDisconnect(s)
      case DisconnectResumes =>
        if s.disconnecting == Closing then s.(isConnected := false, disconnecting := Idle) else FinishDisconnect(s)
      case TimerFires => s.(timer := false, attempt := Created)
      case AttemptStarts =>
        s.(attempt := Connecting(s.attempts), connect := if Connectable(s) then Starting else s.connect)
      case ConnectBegins => s.(connect := InFlight(s.generation))
      case ConnectEnds(h) =>
        if h == None then s.(connect := Settled(false), isConnected := false)
        else if s.connect.generation != s.generation || s.manual then s.(connect := Settled(false))
        else Install(s, h.value).(connect := Settled(true))
      case AttemptConnected =>
        var cleared := s.(connect := NoConnect);
        if !s.connect.ok then Fail(maxRetries, cleared, s.attempt.no)
        else NextRestorer(maxRetries, cleared.(goal := s.restorers, restored := []), s.attempt.no, s.generation,
          s.restorers)
      case RestorerEnds(ok) =>
        if !ok then Fail(maxRetries, s, s.attempt.no)
        else NextRestorer(maxRetries, s.(restored := s.restored + [s.attempt.left[0]]), s.attempt.no,
          s.attempt.generation, s.attempt.left[1..])
      case AttemptChecks =>
        if s.attempt.generation != s.generation || s.handle == None || s.handle.value !in s.sockets then
          Fail(maxRetries, s, s.attempt.no)
        else MarkReady(s.(isReconnecting := false, attempt := NoAttempt, failures := 0))
      case DiscardEnds => Retry(maxRetries, s, s.attempt.no)
      case AttemptCancelled =>
        s.(attempt := NoAttempt,
           isReconnecting := s.isReconnecting && (s.attempt == Created || s.attempt.Discarding?))
      case SocketDies(h) => s.(sockets := s.sockets - {h}, closeQueued := s.closeQueued + {h})
      case CloseCallback(h, loopShutdown) => OnHandleClosed(maxRetries, s, h, loopShutdown)
      case WhenReady => if s.isReady || s.manual then s else s.(waiters := s.waiters + 1)
      case WaiterLeaves => s.(waiters := s.waiters - 1)
      case Register(r) => s.(restorers := s.restorers + [r])
      case Unregister(r) => s.(restorers := Remove(s.restorers, r))
  }

  function Run(maxRetries: nat, events: seq<Event>): State {
    if events == [] then INITIAL
    else Step(maxRetries, Run(maxRetries, events[..|events| - 1]), events[|events| - 1])
  }

  // ------------------------------------------------------------------ invariant

  /** A reconnection is under way exactly while one timer or one attempt exists;
      only a `disconnect` waiting for a cancelled attempt may still see the flag. */
  ghost predicate Lineage(s: State) {
    && !(s.timer && Live(s))
    && (s.timer || Live(s) ==> s.isReconnecting)
    && (s.isReconnecting && s.disconnecting != AwaitingTask ==> s.timer || Live(s))
    && (s.disconnecting != Idle ==> s.manual && !s.timer)
    && (s.disconnecting == Closing ==> !Live(s) && s.handle == None)
    && (s.manual && s.disconnecting == Idle ==> !s.isReconnecting && s.handle == None && !s.isConnected)
    && (s.manual && s.disconnecting != AwaitingTask ==> s.waiters == 0)
    && (s.wanted ==> !s.manual && (s.isReady || s.isReconnecting))
  }

  /** Ready means a connection whose socket is open, or whose loss has yet to be
      noticed, with nobody left waiting. */
  ghost predicate Readiness(s: State) {
    && s.sockets !! s.closeQueued
    && (!Dead(s) && !s.manual ==> s.isConnected)
    && (s.isReady ==>
          && s.isConnected && !s.isReconnecting && !s.manual && s.waiters == 0
          && s.handle.Some? && (s.handle.value in s.sockets || s.handle.value in s.closeQueued))
  }

  predicate Dead(s: State) { s.handle == None || s.handle.value !in s.sockets }

  /** What an attempt knows about its own connecting and restoring. A restoration
      that a `disconnect` overtook runs under a retired generation. */
  ghost predicate Restoration(s: State) {
    && (!s.connect.Settled? && s.connect != NoConnect ==> Dead(s) && (s.attempt.Connecting? || s.manual))
    && (s.timer || s.attempt == Created ==> Dead(s))
    && match s.attempt
       case Restoring(_, g, left) => left != [] && s.goal == s.restored + left && Underway(s, g)
       case Checking(_, g) => s.goal == s.restored && Underway(s, g)
       case Connecting(_) =>
         s.connect != NoConnect && (s.connect == Settled(true) ==> s.handle.Some? && s.attempts == 0)
       case Discarding(_) => s.handle == None && s.connect == NoConnect
       case _ => true
  }

  ghost predicate Underway(s: State, g: nat) {
    && s.connect == NoConnect && s.handle.Some? && s.attempts == 0
    && g <= s.generation && (s.manual ==> g < s.generation)
  }

  /** The attempt's number counts the failures before it; the budget bounds both. */
  ghost predicate Budget(maxRetries: nat, s: State) {
    && (maxRetries > 0 ==> s.failures <= maxRetries)
    && (s.timer || s.attempt == Created ==>
          s.attempts == s.failures + 1 && (maxRetries > 0 ==> s.attempts <= maxRetries))
    && (s.attempt.Connecting? || s.attempt.Restoring? || s.attempt.Checking? ==>
          s.attempt.no == s.failures + 1 && (maxRetries > 0 ==> s.attempt.no <= maxRetries))
    && (s.attempt.Discarding? ==> s.attempt.no == s.failures)
    && (!s.manual && !s.isReconnecting && s.handle.Some? ==> s.attempts == 0 == s.failures)
  }

  ghost predicate Inv(maxRetries: nat, s: State) {
    Lineage(s) && Readiness(s) && Restoration(s) && Budget(maxRetries, s)
  }

  lemma RetryInv(maxRetries: nat, s: State, no: nat)
    requires Lineage(s) && Readiness(s) && Live(s) && s.handle == None && s.connect == NoConnect
    requires no == s.failures && (maxRetries > 0 ==> no <= maxRetries)
    ensures Inv(maxRetries, Retry(maxRetries, s, no))
  {
  }

  lemma FailInv(maxRetries: nat, s: State, no: nat)
    requires Lineage(s) && Readiness(s) && Live(s) && s.connect == NoConnect
    requires no == s.failures + 1 && (maxRetries > 0 ==> no <= maxRetries)
    ensures Inv(maxRetries, Fail(maxRetries, s, no))
  {
    if !s.manual && s.handle == None {
      RetryInv(maxRetries,
        s.(generation := s.generation + 1, isReady := false, isConnected := false, failures := s.failures + 1), no);
    }
  }

  lemma NextRestorerInv(maxRetries: nat, s: State, no: nat, generation: nat, left: seq<nat>)
    requires Lineage(s) && Readiness(s) && Live(s) && s.connect == NoConnect
    requires no == s.failures + 1 && (maxRetries > 0 ==> no <= maxRetries)
    requires s.goal == s.restored + left && Underway(s, generation)
    ensures Inv(maxRetries, NextRestorer(maxRetries, s, no, generation, left))
  {
    if left != [] && generation != s.generation { FailInv(maxRetries, s, no); }
  }

  lemma AttemptInv(maxRetries: nat, s: State, e: Event)
    requires Inv(maxRetries, s) && Enabled(s, e)
    requires e.AttemptConnected? || e.RestorerEnds? || e.AttemptChecks? || e.DiscardEnds?
    ensures Inv(maxRetries, Step(maxRetries, s, e))
  {
    var no := s.attempt.no;
    match e
    case AttemptConnected =>
      var cleared := s.(connect := NoConnect);
      if s.connect.ok {
        NextRestorerInv(maxRetries, cleared.(goal := s.restorers, restored := []), no, s.generation, s.restorers);
      } else {
        FailInv(maxRetries, cleared, no);
      }
    case RestorerEnds(ok) =>
      if ok {
        assert s.restored + s.attempt.left == (s.restored + [s.attempt.left[0]]) + s.attempt.left[1..];
        NextRestorerInv(maxRetries, s.(restored := s.restored + [s.attempt.left[0]]), no, s.attempt.generation,
          s.attempt.left[1..]);
      } else {
        FailInv(maxRetries, s, no);
      }
    case AttemptChecks => FailInv(maxRetries, s, no);
    case DiscardEnds =>
  }

  lemma CloseCallbackInv(maxRetries: nat, s: State, h: nat, loopShutdown: bool)
    requires Inv(maxRetries, s) && h in s.closeQueued
    ensures Inv(maxRetries, OnHandleClosed(maxRetries, s, h, loopShutdown))
  {
  }

  lemma DisconnectInv(maxRetries: nat, s: State, e: Event)
    requires Inv(maxRetries, s) && (e.Disconnect? || e.DisconnectResumes? || e.AttemptCancelled?)
    ensures Inv(maxRetries, Step(maxRetries, s, e))
  {
  }

  lemma ConnectInv(maxRetries: nat, s: State, e: Event)
    requires Inv(maxRetries, s) && (e.UserConnect? || e.UserConnectFails? || e.ConnectEnds?)
    ensures Inv(maxRetries, Step(maxRetries, s, e))
  {
  }

  lemma OtherInv(maxRetries: nat, s: State, e: Event)
    requires Inv(maxRetries, s)
    requires || e.TimerFires? || e.AttemptStarts? || e.ConnectBegins? || e.SocketDies?
             || e.WhenReady? || e.WaiterLeaves? || e.Register? || e.Unregister?
    ensures Inv(maxRetries, Step(maxRetries, s, e))
  {
  }

  lemma StepInv(maxRetries: nat, s: State, e: Event)
    requires Inv(maxRetries, s)
    ensures Inv(maxRetries, Step(maxRetries, s, e))
  {
    if Enabled(s, e) {
      match e
      case AttemptConnected => AttemptInv(maxRetries, s, e);
      case RestorerEnds(_) => AttemptInv(maxRetries, s, e);
      case AttemptChecks => AttemptInv(maxRetries, s, e);
      case DiscardEnds => AttemptInv(maxRetries, s, e);
      case CloseCallback(h, loopShutdown) => CloseCallbackInv(maxRetries, s, h, loopShutdown);
      case Disconnect => DisconnectInv(maxRetries, s, e);
      case DisconnectResumes => DisconnectInv(maxRetries, s, e);
      case AttemptCancelled => DisconnectInv(maxRetries, s, e);
      case UserConnect(_) => ConnectInv(maxRetries, s, e);
      case UserConnectFails => ConnectInv(maxRetries, s, e);
      case ConnectEnds(_) => ConnectInv(maxRetries, s, e);
      case _ => OtherInv(maxRetries, s, e);
    }
  }

  lemma {:induction false} RunInv(maxRetries: nat, events: seq<Event>)
    ensures Inv(maxRetries, Run(maxRetries, events))
  {
    if events != [] {
      RunInv(maxRetries, events[..|events| - 1]);
      StepInv(maxRetries, Run(maxRetries, events[..|events| - 1]), events[|events| - 1]);
    }
  }

  /** In every run, outside a `disconnect` in progress: reconnecting holds exactly
      while one timer or one attempt exists; a connection that is wanted is ready or
      on its way back; a ready one has no caller left waiting and a socket that is
      open or whose loss is about to be noticed. */
  lemma OneLineage(maxRetries: nat, events: seq<Event>)
    ensures var s := Run(maxRetries, events);
            && !(s.timer && Live(s))
            && (s.disconnecting == Idle ==> (s.isReconnecting <==> s.timer || Live(s)))
            && (s.wanted ==> s.isReady || s.isReconnecting)
            && (s.isReady ==>
                  s.waiters == 0 && s.handle.Some? && (s.handle.value in s.sockets || s.handle.value in s.closeQueued))
            && (s.manual ==> s.disconnecting == AwaitingTask || (!s.isReady && s.waiters == 0 && s.handle == None))
  {
    RunInv(maxRetries, events);
  }

  /** At most `maxRetries` attempts fail in a row, a connection that came up but
      could not be restored included; and it is given up only when that many have. */
  lemma BudgetHolds(maxRetries: nat, events: seq<Event>, e: Event)
    requires maxRetries > 0
    ensures var s, after := Run(maxRetries, events), Run(maxRetries, events + [e]);
            && s.failures <= maxRetries
            && (s.wanted && !after.wanted && !e.Disconnect? && !(e.CloseCallback? && e.loopShutdown) ==>
                  after.failures == maxRetries && !after.isReconnecting && after.waiters == 0)
  {
    RunInv(maxRetries, events);
    assert (events + [e])[..|events|] == events;
    var s := Run(maxRetries, events);
    if Enabled(s, e) && s.wanted && !e.Disconnect? && !(e.CloseCallback? && e.loopShutdown) {
      GivesUp(maxRetries, s, e);
    }
  }

  lemma GivesUp(maxRetries: nat, s: State, e: Event)
    requires maxRetries > 0 && Inv(maxRetries, s) && Enabled(s, e) && s.wanted
    requires !e.Disconnect? && !(e.CloseCallback? && e.loopShutdown)
    ensures var after := Step(maxRetries, s, e);
            !after.wanted ==> after.failures == maxRetries && !after.isReconnecting && after.waiters == 0
  {
  }

  /** A connection is installed by the user's own connect, or by a connect task that
      ends under the generation it began in, with no `disconnect` since. */
  lemma NeverInstallsRetired(maxRetries: nat, s: State, e: Event)
    ensures var after := Step(maxRetries, s, e);
            && s.generation <= after.generation
            && (after.handle != s.handle && after.handle.Some? ==>
                  || (e.UserConnect? && after.handle == Some(e.handle))
                  || (e.ConnectEnds? && e.outcome == after.handle && s.connect == InFlight(s.generation) && !s.manual))
  {
    match e
    case UserConnect(_) =>
    case ConnectEnds(_) =>
    case AttemptConnected => AttemptInstallsNothing(maxRetries, s, e);
    case RestorerEnds(_) => AttemptInstallsNothing(maxRetries, s, e);
    case AttemptChecks => AttemptInstallsNothing(maxRetries, s, e);
    case DiscardEnds => AttemptInstallsNothing(maxRetries, s, e);
    case CloseCallback(_, _) => TeardownInstallsNothing(maxRetries, s, e);
    case Disconnect => TeardownInstallsNothing(maxRetries, s, e);
    case DisconnectResumes => TeardownInstallsNothing(maxRetries, s, e);
    case _ =>
  }

  lemma AttemptInstallsNothing(maxRetries: nat, s: State, e: Event)
    requires e.AttemptConnected? || e.RestorerEnds? || e.AttemptChecks? || e.DiscardEnds?
    ensures var after := Step(maxRetries, s, e);
            s.generation <= after.generation && (after.handle == s.handle || after.handle == None)
  {
  }

  lemma TeardownInstallsNothing(maxRetries: nat, s: State, e: Event)
    requires e.CloseCallback? || e.Disconnect? || e.DisconnectResumes?
    ensures var after := Step(maxRetries, s, e);
            s.generation <= after.generation && (after.handle == s.handle || after.handle == None)
  {
  }

  /** On the reconnect path readiness is announced only over an open socket, with
      every restorer that was present when restoration began finished, in order,
      and under the generation that restoration began in. */
  lemma ReadyMeansRestored(maxRetries: nat, events: seq<Event>, e: Event)
    ensures var s, after := Run(maxRetries, events), Run(maxRetries, events + [e]);
            !s.isReady && after.isReady && !e.UserConnect? ==>
              && s.attempt.Checking? && s.attempt.generation == s.generation == after.generation
              && s.restored == s.goal
              && after.handle.Some? && after.handle.value in after.sockets && after.isConnected && !after.manual
  {
    RunInv(maxRetries, events);
    assert (events + [e])[..|events|] == events;
    var s := Run(maxRetries, events);
    if Enabled(s, e) { OnlyChecksMarkReady(maxRetries, s, e); }
  }

  lemma OnlyChecksMarkReady(maxRetries: nat, s: State, e: Event)
    requires Inv(maxRetries, s) && Enabled(s, e)
    ensures !s.isReady && Step(maxRetries, s, e).isReady && !e.UserConnect? ==>
              e.AttemptChecks? && s.attempt.generation == s.generation && !Dead(s)
              && Step(maxRetries, s, e).generation == s.generation
  {
  }
}
