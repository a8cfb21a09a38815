/** How a streaming call's request gets to the broker: readiness, the confirm window,
    the channel read as an attempt begins, and one more attempt when it is lost. */
module StreamSending {
  import opened Common
  import opened StreamSteps
  import opened StreamSystem
  import opened StreamNotice

  /** Where the sending task is. An attempt keeps the channel it began with, which a
      disconnection may already have taken away. */
  datatype Stage =
    | NotSending                                    // waiting for readiness, or never past it
    | AtWindow(no: nat, channel: Option<nat>)       // before the confirm window lets it in
    | Admitted(no: nat, channel: Option<nat>)       // let in, the send has not run
    | InFlight(no: nat, written: bool)              // the send has run
    | Rewaiting                                     // waiting for readiness once more
    | Finished

  /** How an attempt ends for the task. */
  datatype Verdict = Confirmed | Refused | TimedOut | ChannelLost | Unexpected

  /** The calls, their sending tasks and the channels, numbered as they are opened. */
  datatype Net = Net(
    sys: System,
    stages: seq<Stage>,
    channel: Option<nat>,       // the one new attempts read
    channels: nat,
    closed: set<nat>,
    wire: seq<nat>              // the requests written, by call
  )

  datatype Move =
    | Other(e: Event)           // a step of a call that is not its sending task's
    | ChannelDies(channel: nat)
    | Ready(id: nat)
    | NotReady(id: nat)
    | LetIn(id: nat)
    | SendRuns(id: nat)
    | AttemptEnds(id: nat, verdict: Verdict, usable: bool)
    | ReadyAgain(id: nat)
    | NotReadyAgain(id: nat)

  const START: Net := Net(System([], 0, true), [], Some(0), 1, {}, [])

  predicate IsOpen(n: Net, channel: Option<nat>) {
    channel.Some? && channel.value !in n.closed
  }

  /** Nothing is confirmed, and no confirm is missed, that was not written. */
  predicate CanEnd(n: Net, stage: Stage, verdict: Verdict) {
    match stage
    case Admitted(_, channel) => verdict == ChannelLost && !IsOpen(n, channel)
    case InFlight(_, written) => written || (verdict != Confirmed && verdict != TimedOut)
    case _ => false
  }

  predicate Able(n: Net, m: Move) {
    match m
    case Other(e) => !e.SendStarts? && !e.SendEnds? && Enabled(n.sys, e)
    case ChannelDies(c) => c < n.channels
    case Ready(id) => id < |n.stages| && Enabled(n.sys, SendStarts(id))
    case NotReady(id) =>
      id < |n.stages| && Enabled(n.sys, SendEnds(id, SendFailed(true))) && n.sys.streams[id].send == Unsent
    case LetIn(id) => id < |n.stages| && n.stages[id].AtWindow?
    case SendRuns(id) => id < |n.stages| && n.stages[id].Admitted?
    case AttemptEnds(id, verdict, _) => id < |n.stages| && CanEnd(n, n.stages[id], verdict)
    case ReadyAgain(id) => id < |n.stages| && n.stages[id] == Rewaiting
    case NotReadyAgain(id) => id < |n.stages| && n.stages[id] == Rewaiting
  }

  /** A first attempt that lost its channel to a disconnection is repeated. */
  predicate Repeats(stage: Stage, verdict: Verdict, usable: bool) {
    verdict == ChannelLost && !usable && (stage.Admitted? || stage.InFlight?) && stage.no == 1
  }

  /** Only a refusal is definite. */
  function Reported(verdict: Verdict): SendState {
    match verdict
    case Confirmed => Sent
    case Refused => SendFailed(false)
    case _ => SendFailed(true)
  }

  /** The step of the calls that a move is, if it is one. */
  function Shadow(n: Net, m: Move): Option<Event>
    requires Able(n, m)
  {
    match m
    case Other(e) => Some(e)
    case Ready(id) => Some(SendStarts(id))
    case NotReady(id) => Some(SendEnds(id, SendFailed(true)))
    case AttemptEnds(id, verdict, usable) =>
      if Repeats(n.stages[id], verdict, usable) then None else Some(SendEnds(id, Reported(verdict)))
    case NotReadyAgain(id) => Some(SendEnds(id, SendFailed(true)))
    case _ => None
  }

  /** Where the call's sending task is after a move of its own. */
  function StageAfter(n: Net, m: Move): Stage
    requires Able(n, m) && !m.Other? && !m.ChannelDies?
  {
    match m
    case Ready(id) => if n.sys.streams[id].cancelled then NotSending else AtWindow(1, n.channel)
    case LetIn(id) => Admitted(n.stages[id].no, n.stages[id].channel)
    case SendRuns(id) => InFlight(n.stages[id].no, IsOpen(n, n.stages[id].channel))
    case AttemptEnds(id, verdict, usable) => if Repeats(n.stages[id], verdict, usable) then Rewaiting else Finished
    case ReadyAgain(_) => AtWindow(2, n.channel)
    case _ => Finished
  }

  /** What a move does around the calls. */
  function Around(n: Net, m: Move): Net
    requires Able(n, m)
  {
    match m
    case Other(Open(_)) => n.(stages := n.stages + [NotSending])
    case Other(Disconnect) =>
      n.(channel := None, closed := if n.channel.Some? then n.closed + {n.channel.value} else n.closed)
    case Other(ChannelOpened) => n.(channel := Some(n.channels), channels := n.channels + 1)
    case Other(_) => n
    case ChannelDies(c) => n.(closed := n.closed + {c})
    case SendRuns(id) =>
      n.(stages := n.stages[id := StageAfter(n, m)],
         wire := if IsOpen(n, n.stages[id].channel) then n.wire + [id] else n.wire)
    case _ => n.(stages := n.stages[m.id := StageAfter(n, m)])
  }

  function Go(limits: Limits, n: Net, m: Move): Net {
    if !Able(n, m) then n
    else
      var e := Shadow(n, m);
      Around(n, m).(sys := if e == None then n.sys else Step(limits, n.sys, e.value))
  }

  function Course(limits: Limits, moves: seq<Move>): Net {
    if moves == [] then START
    else Go(limits, Course(limits, moves[..|moves| - 1]), moves[|moves| - 1])
  }

  // ------------------------------------------------------------ both machines

  predicate Busy(stage: Stage) {
    stage.AtWindow? || stage.Admitted? || stage.InFlight? || stage.Rewaiting?
  }

  /** Where the task is and what the call says of it. */
  ghost predicate Together(n: Net, id: nat)
    requires id < |n.stages| == |n.sys.streams|
  {
    var s, stage := n.sys.streams[id], n.stages[id];
    && (Busy(stage) <==> s.task == Running && s.send == Sending)
    && (stage == NotSending ==> s.send == Unsent)
    && (stage == Finished ==> s.task == Done)
    && (stage.InFlight? && stage.written ==> id in n.wire)
    && (s.send == Sent ==> id in n.wire)
    && (id in n.wire ==> stage != NotSending)
  }

  ghost predicate NetInv(limits: Limits, n: Net) {
    && Lawful(limits, n.sys)
    && |n.stages| == |n.sys.streams|
    && (n.sys.channelUp <==> n.channel.Some?)
    && (forall i :: i in n.wire ==> i < |n.stages|)
    && (forall i :: 0 <= i < |n.stages| ==> Together(n, i))
  }

  /** Leaving the sending task out of it, a call's send is never taken further. */
  lemma CancelTask(s: Stream, total: nat, up: bool, notifyOnly: bool)
    ensures var t := Cancel(s, total, up, notifyOnly).0;
      t.task == s.task || (t.task == Withdrawn && s.task == Running && s.send == Unsent)
  {
  }

  lemma FailTask(s: Stream, total: nat, up: bool, error: StreamError)
    ensures var t := Fail(s, total, up, error).0;
      t.task == s.task || (t.task == Withdrawn && s.task == Running && s.send == Unsent)
  {
    var (dropped, rest) := DropBuffer(s.(error := Some(error), ended := true), total);
    CancelTask(dropped, rest, up, true);
  }

  lemma ChunkTask(limits: Limits, s: Stream, total: nat, up: bool, d: Delivery)
    ensures var t := OnChunk(limits, s, total, up, d).0;
      t.task == s.task || (t.task == Withdrawn && s.task == Running && s.send == Unsent)
  {
    if d.seqNo.Some? && d.seqNo.value > Expected(s) {
      FailTask(s, total, up, SequenceGap);
    } else {
      FailTask(if d.seqNo.Some? then s.(lastSeq := d.seqNo) else s, total, up, Backpressure);
    }
  }

  lemma TaskKept(limits: Limits, sys: System, e: Event)
    requires Enabled(sys, e) && !e.Open? && !e.Disconnect? && !e.ChannelOpened? && !e.SendStarts? && !e.SendEnds?
    ensures var s, t := sys.streams[e.id], Touch(limits, sys, e).0;
      t.task == s.task || (t.task == Withdrawn && s.task == Running && s.send == Unsent)
  {
    var s, total, up := sys.streams[e.id], sys.total, sys.channelUp;
    match e
    case Arrive(_, d) => ChunkTask(limits, s, total, up, d);
    case Idle(_) => CancelTask(s.(error := Some(IdleTimeout), ended := true), total, up, true);
    case CallerStops(_) => CancelTask(s, total, up, false);
    case _ =>
  }

  /** What a call's own sending step leaves of its send. */
  lemma StartIs(s: Stream)
    ensures var t := SendStart(s);
      if s.cancelled then t.task == Done && t.send == s.send else t.task == s.task && t.send == Sending
  {
  }

  lemma EndIs(s: Stream, total: nat, up: bool, verdict: SendState)
    ensures var t := SendEnd(s, total, up, verdict).0; t.task == Done && t.send == verdict
  {
    SendEndSend(s, total, up, verdict);
  }

  lemma OtherTogether(limits: Limits, n: Net, e: Event, i: nat)
    requires NetInv(limits, n) && Able(n, Other(e)) && i < |n.stages|
    ensures i < |Go(limits, n, Other(e)).stages| == |Go(limits, n, Other(e)).sys.streams|
    ensures Together(Go(limits, n, Other(e)), i)
  {
    assert Together(n, i);
    if !e.Open? && !e.Disconnect? && !e.ChannelOpened? {
      StepTouches(limits, n.sys, e);
      if e.id == i {
        TaskKept(limits, n.sys, e);
        SendKept(limits, n.sys, e);
      }
    }
  }

  lemma OtherInv(limits: Limits, n: Net, e: Event)
    requires NetInv(limits, n) && Able(n, Other(e))
    ensures NetInv(limits, Go(limits, n, Other(e)))
  {
    var after := Go(limits, n, Other(e));
    StepLawful(limits, n.sys, e);
    if !e.Open? && !e.Disconnect? && !e.ChannelOpened? { StepTouches(limits, n.sys, e); }
    forall i | 0 <= i < |after.stages|
      ensures Together(after, i)
    {
      if i < |n.stages| { OtherTogether(limits, n, e, i); }
    }
  }

  /** A move of one sending task concerns that call alone. */
  lemma OwnMove(limits: Limits, n: Net, m: Move)
    requires NetInv(limits, n) && Able(n, m) && !m.Other? && !m.ChannelDies?
    ensures var after := Go(limits, n, m);
      && after.stages == n.stages[m.id := StageAfter(n, m)]
      && |after.sys.streams| == |n.sys.streams| && after.sys.channelUp == n.sys.channelUp
      && (forall i :: 0 <= i < |n.stages| && i != m.id ==> after.sys.streams[i] == n.sys.streams[i])
      && after.channel == n.channel
      && after.wire == (if m.SendRuns? && IsOpen(n, n.stages[m.id].channel) then n.wire + [m.id] else n.wire)
  {
    var e := Shadow(n, m);
    if e.Some? && Enabled(n.sys, e.value) { StepTouches(limits, n.sys, e.value); }
  }

  /** The step of the calls behind it is one they can take, and leaves the send where
      the stage says. */
  lemma ShadowIs(limits: Limits, n: Net, m: Move)
    requires NetInv(limits, n) && Able(n, m) && !m.Other? && !m.ChannelDies?
    ensures var e := Shadow(n, m);
      var s, t := n.sys.streams[m.id], Go(limits, n, m).sys.streams[m.id];
      match e
      case None => t == s
      case Some(SendStarts(_)) =>
        && Enabled(n.sys, e.value)
        && if s.cancelled then t.task == Done && t.send == s.send else t.task == Running && t.send == Sending
      case Some(SendEnds(_, verdict)) => Enabled(n.sys, e.value) && t.task == Done && t.send == verdict
      case _ => false
  {
    assert Together(n, m.id);
    var e, s := Shadow(n, m), n.sys.streams[m.id];
    if e.Some? {
      StepTouches(limits, n.sys, e.value);
      if e.value.SendStarts? { StartIs(s); } else { EndIs(s, n.sys.total, n.sys.channelUp, e.value.verdict); }
    }
  }

  lemma OwnTogether(limits: Limits, n: Net, m: Move)
    requires NetInv(limits, n) && Able(n, m) && !m.Other? && !m.ChannelDies?
    ensures var after := Go(limits, n, m);
      m.id < |after.stages| == |after.sys.streams| && Together(after, m.id)
  {
    OwnMove(limits, n, m);
    ShadowIs(limits, n, m);
    assert Together(n, m.id);
  }

  lemma OwnInv(limits: Limits, n: Net, m: Move)
    requires NetInv(limits, n) && Able(n, m) && !m.Other? && !m.ChannelDies?
    ensures NetInv(limits, Go(limits, n, m))
  {
    var after, e := Go(limits, n, m), Shadow(n, m);
    OwnMove(limits, n, m);
    OwnTogether(limits, n, m);
    if e.Some? { StepLawful(limits, n.sys, e.value); }
    forall i | 0 <= i < |after.stages|
      ensures Together(after, i)
    {
      if i != m.id { assert Together(n, i); }
    }
  }

  lemma DiesInv(limits: Limits, n: Net, c: nat)
    requires NetInv(limits, n)
    ensures NetInv(limits, Go(limits, n, ChannelDies(c)))
  {
    forall i | 0 <= i < |n.stages|
      ensures Together(Go(limits, n, ChannelDies(c)), i)
    {
      assert Together(n, i);
    }
  }

  lemma GoInv(limits: Limits, n: Net, m: Move)
    requires NetInv(limits, n)
    ensures NetInv(limits, Go(limits, n, m))
  {
    if Able(n, m) {
      match m
      case Other(e) => OtherInv(limits, n, e);
      case ChannelDies(c) => DiesInv(limits, n, c);
      case _ => OwnInv(limits, n, m);
    }
  }

  lemma {:induction false} CourseInv(limits: Limits, moves: seq<Move>)
    ensures NetInv(limits, Course(limits, moves))
  {
    if moves != [] {
      CourseInv(limits, moves[..|moves| - 1]);
      GoInv(limits, Course(limits, moves[..|moves| - 1]), moves[|moves| - 1]);
    }
  }

  /** Every course of the sending tasks is a run of the calls, so all that holds of
      every run holds of it. */
  lemma {:induction false} CourseIsRun(limits: Limits, moves: seq<Move>) returns (events: seq<Event>)
    ensures Run(limits, events) == Course(limits, moves).sys
  {
    if moves == [] {
      events := [];
    } else {
      var before, m := moves[..|moves| - 1], moves[|moves| - 1];
      var n := Course(limits, before);
      events := CourseIsRun(limits, before);
      if Able(n, m) && Shadow(n, m).Some? {
        RunAppend(limits, events, Shadow(n, m).value);
        events := events + [Shadow(n, m).value];
      }
    }
  }

  // ------------------------------------------------------------ what was written

  /** An attempt to send the call's request begins. */
  predicate Begins(n: Net, m: Move, id: nat) {
    Able(n, m) && ((m == Ready(id) && !n.sys.streams[id].cancelled) || m == ReadyAgain(id))
  }

  /** An attempt loses its channel before anything is written: it is gone when the
      send runs, or before the send has run at all. */
  predicate Loses(n: Net, m: Move, id: nat) {
    Able(n, m)
    && (|| (m == SendRuns(id) && !IsOpen(n, n.stages[id].channel))
        || (m.AttemptEnds? && m.id == id && n.stages[id].Admitted?))
  }

  /** The send runs over a channel that is open. */
  predicate Writes(n: Net, m: Move, id: nat) {
    m == SendRuns(id) && Able(n, m) && IsOpen(n, n.stages[id].channel)
  }

  function Begun(limits: Limits, moves: seq<Move>, id: nat): nat {
    if moves == [] then 0
    else
      var before := moves[..|moves| - 1];
      Begun(limits, before, id) + if Begins(Course(limits, before), moves[|moves| - 1], id) then 1 else 0
  }

  function Lost(limits: Limits, moves: seq<Move>, id: nat): nat {
    if moves == [] then 0
    else
      var before := moves[..|moves| - 1];
      Lost(limits, before, id) + if Loses(Course(limits, before), moves[|moves| - 1], id) then 1 else 0
  }

  function Written(n: Net, id: nat): nat {
    multiset(n.wire)[id]
  }

  /** Attempts begun whose send has not run. */
  function Waiting(n: Net, id: nat): nat {
    if id < |n.stages| && (n.stages[id].AtWindow? || n.stages[id].Admitted?) then 1 else 0
  }

  /** How many attempts there can have been by the time the task is there. */
  predicate AttemptsAt(n: Net, id: nat, begun: nat) {
    if id >= |n.stages| then begun == 0
    else match n.stages[id]
      case NotSending => begun == 0
      case AtWindow(no, _) => begun == no <= 2
      case Admitted(no, _) => begun == no <= 2
      case InFlight(no, _) => begun == no <= 2
      case Rewaiting => begun == 1
      case Finished => begun <= 2
  }

  /** What one move does to the four numbers. */
  ghost predicate Counted(n: Net, m: Move, id: nat, after: Net) {
    && Written(after, id) == Written(n, id) + (if Writes(n, m, id) then 1 else 0)
    && Written(after, id) + (if Loses(n, m, id) then 1 else 0) + Waiting(after, id)
       == Written(n, id) + Waiting(n, id) + (if Begins(n, m, id) then 1 else 0)
  }

  lemma OwnCounts(limits: Limits, n: Net, m: Move, id: nat)
    requires NetInv(limits, n) && Able(n, m) && !m.Other? && !m.ChannelDies?
    ensures Counted(n, m, id, Go(limits, n, m))
  {
    OwnMove(limits, n, m);
    assert Together(n, m.id);
  }

  lemma MoveCounts(limits: Limits, n: Net, m: Move, id: nat)
    requires NetInv(limits, n)
    ensures Counted(n, m, id, Go(limits, n, m))
  {
    if Able(n, m) && !m.Other? && !m.ChannelDies? { OwnCounts(limits, n, m, id); }
  }

  lemma MoveAttempts(limits: Limits, n: Net, m: Move, id: nat, begun: nat)
    requires NetInv(limits, n) && AttemptsAt(n, id, begun)
    ensures AttemptsAt(Go(limits, n, m), id, begun + if Begins(n, m, id) then 1 else 0)
  {
    if Able(n, m) && !m.Other? && !m.ChannelDies? {
      OwnMove(limits, n, m);
      assert Together(n, m.id);
    }
  }

  /** In every run, every attempt begun is waiting to be sent, was written, or lost its
      channel before; there are at most two. */
  lemma {:induction false} EveryAttemptAccounted(limits: Limits, moves: seq<Move>, id: nat)
    ensures var n := Course(limits, moves);
      && Written(n, id) + Lost(limits, moves, id) + Waiting(n, id) == Begun(limits, moves, id) <= 2
      && AttemptsAt(n, id, Begun(limits, moves, id))
  {
    if moves != [] {
      var before, m := moves[..|moves| - 1], moves[|moves| - 1];
      CourseInv(limits, before);
      EveryAttemptAccounted(limits, before, id);
      MoveCounts(limits, Course(limits, before), m, id);
      MoveAttempts(limits, Course(limits, before), m, id, Begun(limits, before, id));
    }
  }

  /** In every run, for a call whose notice went out: its request was never written if
      and only if every attempt begun had lost its channel before its send ran; which
      is so, with none begun, when its first wait for readiness failed. */
  lemma NoticeIsForWrittenRequest(limits: Limits, moves: seq<Move>, id: nat)
    requires id < |Course(limits, moves).sys.streams| && Course(limits, moves).sys.streams[id].notices > 0
    ensures id !in Course(limits, moves).wire <==> Lost(limits, moves, id) == Begun(limits, moves, id)
    ensures Course(limits, moves).sys.streams[id].send == Sent ==> Lost(limits, moves, id) < Begun(limits, moves, id)
  {
    CourseInv(limits, moves);
    EveryAttemptAccounted(limits, moves, id);
    assert Together(Course(limits, moves), id);
  }

  /** A request is never written behind the notice that cancels it. */
  lemma NothingWrittenAfterNotice(limits: Limits, moves: seq<Move>, m: Move, id: nat)
    requires id < |Course(limits, moves).sys.streams| && Course(limits, moves).sys.streams[id].notices > 0
    ensures !Writes(Course(limits, moves), m, id) && !Begins(Course(limits, moves), m, id)
    ensures Written(Course(limits, moves + [m]), id) == Written(Course(limits, moves), id)
  {
    var n := Course(limits, moves);
    CourseInv(limits, moves);
    assert Together(n, id);
    MoveCounts(limits, n, m, id);
    assert (moves + [m])[..|moves|] == moves;
  }

  /** A confirmed request was written, and so was one whose confirm was late; one
      whose first wait for readiness fails was not, nor will be. */
  lemma EndTells(limits: Limits, moves: seq<Move>, m: Move)
    requires Able(Course(limits, moves), m)
    ensures m.AttemptEnds? && (m.verdict == Confirmed || m.verdict == TimedOut) ==> m.id in Course(limits, moves).wire
    ensures m.NotReady? ==> Begun(limits, moves + [m], m.id) == 0 && m.id !in Course(limits, moves + [m]).wire
  {
    var n := Course(limits, moves);
    CourseInv(limits, moves);
    assert (moves + [m])[..|moves|] == moves;
    if m.AttemptEnds? || m.NotReady? { assert Together(n, m.id); }
    if m.NotReady? {
      EveryAttemptAccounted(limits, moves, m.id);
      EveryAttemptAccounted(limits, moves + [m], m.id);
      OwnMove(limits, n, m);
    }
  }

  lemma CourseNext(limits: Limits, moves: seq<Move>, m: Move)
    ensures Course(limits, moves + [m]) == Go(limits, Course(limits, moves), m)
  {
    assert (moves + [m])[..|moves|] == moves;
  }

  /** A call that a disconnection has taken off the books while its request waits in
      the confirm window. */
  const CUT_OFF: Stream :=
    Opened(false).(send := Sending, error := Some(Disconnected), ended := true, pending := false)

  const RECOVERING: seq<Move> := [Other(Open(false)), Ready(0), Other(Disconnect), Other(ChannelOpened)]

  lemma AfterSending(limits: Limits)
    ensures Course(limits, [Other(Open(false)), Ready(0)])
         == Net(System([Opened(false).(send := Sending)], 0, true), [AtWindow(1, Some(0))], Some(0), 1, {}, [])
  {
    var m1, m2 := Other(Open(false)), Ready(0);
    CourseNext(limits, [], m1);
    CourseNext(limits, [m1], m2);
    assert [] + [m1] == [m1] && [m1] + [m2] == [m1, m2];
    assert Course(limits, [m1]) == Net(System([Opened(false)], 0, true), [NotSending], Some(0), 1, {}, []);
  }

  lemma AfterRecovering(limits: Limits)
    ensures Course(limits, RECOVERING)
         == Net(System([CUT_OFF], 0, true), [AtWindow(1, Some(0))], Some(1), 2, {0}, [])
  {
    var m1, m2, m3, m4 := Other(Open(false)), Ready(0), Other(Disconnect), Other(ChannelOpened);
    AfterSending(limits);
    CourseNext(limits, [m1, m2], m3);
    CourseNext(limits, [m1, m2, m3], m4);
    assert [m1, m2] + [m3] == [m1, m2, m3] && [m1, m2, m3] + [m4] == RECOVERING;
    assert Course(limits, [m1, m2, m3])
        == Net(System([CUT_OFF], 0, false), [AtWindow(1, Some(0))], None, 1, {0}, []);
  }

  /** The attempt is let in, finds its channel closed and waits for readiness again. */
  lemma FindsItClosed(limits: Limits, n: Net)
    requires n.stages == [AtWindow(1, Some(0))] && 0 in n.closed
    ensures var m := Go(limits, Go(limits, n, LetIn(0)), SendRuns(0));
      m == n.(stages := [InFlight(1, false)])
      && Go(limits, m, AttemptEnds(0, ChannelLost, false)) == n.(stages := [Rewaiting])
  {
    assert Go(limits, n, LetIn(0)) == n.(stages := [Admitted(1, Some(0))]);
  }

  const LOST: Move := AttemptEnds(0, ChannelLost, false)

  lemma AfterLosing(limits: Limits)
    ensures Course(limits, RECOVERING + [LetIn(0)] + [SendRuns(0)] + [LOST])
         == Net(System([CUT_OFF], 0, true), [Rewaiting], Some(1), 2, {0}, [])
  {
    AfterRecovering(limits);
    CourseNext(limits, RECOVERING, LetIn(0));
    CourseNext(limits, RECOVERING + [LetIn(0)], SendRuns(0));
    CourseNext(limits, RECOVERING + [LetIn(0)] + [SendRuns(0)], LOST);
    FindsItClosed(limits, Course(limits, RECOVERING));
  }

  /** Readiness was there, the request waited in the confirm window, the connection
      went and came back for the dispatcher but not for everybody: a notice goes out
      for a request that was never written. */
  lemma NoticeForUnwrittenRequest(limits: Limits) returns (moves: seq<Move>)
    ensures Ready(0) in moves && (forall m :: m in moves ==> !m.NotReady?)
    ensures var n := Course(limits, moves);
      |n.sys.streams| == 1 && n.sys.streams[0].notices == 1 && n.wire == []
  {
    AfterLosing(limits);
    var losing := RECOVERING + [LetIn(0)] + [SendRuns(0)] + [LOST];
    GivenUpTold(limits, losing, Course(limits, losing));
    moves := losing + [NotReadyAgain(0)] + [Other(RunNotify(0))];
    assert Ready(0) in RECOVERING;
  }

  lemma GivenUpTold(limits: Limits, moves: seq<Move>, n: Net)
    requires Course(limits, moves) == n
    requires n.sys == System([CUT_OFF], 0, true) && n.stages == [Rewaiting]
    ensures var after := Course(limits, moves + [NotReadyAgain(0)] + [Other(RunNotify(0))]);
      |after.sys.streams| == 1 && after.sys.streams[0].notices == 1 && after.wire == n.wire
  {
    CourseNext(limits, moves, NotReadyAgain(0));
    CourseNext(limits, moves + [NotReadyAgain(0)], Other(RunNotify(0)));
    var told := SendEnd(CUT_OFF, 0, true, SendFailed(true)).0;
    assert Course(limits, moves + [NotReadyAgain(0)]).sys == System([told], 0, true);
  }

  predicate FirstAttempt(stage: Stage) {
    (stage.InFlight? || stage.Admitted?) && stage.no == 1
  }

  /** An attempt that is not repeated is reported as the broker left it: sent when it was
      confirmed, definitely failed when it was refused, and of unknown fate otherwise. */
  lemma EndReports(limits: Limits, n: Net, id: nat, verdict: Verdict, usable: bool)
    requires NetInv(limits, n) && Able(n, AttemptEnds(id, verdict, usable))
    ensures var after := Go(limits, n, AttemptEnds(id, verdict, usable));
      && id < |after.stages| == |after.sys.streams|
      && (after.stages[id] == Rewaiting <==> verdict == ChannelLost && !usable && FirstAttempt(n.stages[id]))
      && (after.stages[id] != Rewaiting ==>
            && (after.sys.streams[id].send == Sent <==> verdict == Confirmed)
            && (after.sys.streams[id].send == SendFailed(false) <==> verdict == Refused)
            && (after.sys.streams[id].send == SendFailed(true) <==> verdict != Confirmed && verdict != Refused))
  {
    OwnMove(limits, n, AttemptEnds(id, verdict, usable));
    ShadowIs(limits, n, AttemptEnds(id, verdict, usable));
  }
}
