/** Every streaming call of one dispatcher, in any interleaving: buffer
    accounting, the cancel notice and end-to-end safety. */
module StreamSystem {
  import opened Common
  import opened StreamFraming
  import opened StreamSteps

  /** Calls are numbered by their correlation ids, in the order they were opened. */
  datatype System = System(streams: seq<Stream>, total: nat, channelUp: bool)

  datatype Event =
    | Open(abortedBefore: bool)
    | Arrive(id: nat, delivery: Delivery)
    | PullOne(id: nat)
    | Idle(id: nat)
    | CallerStops(id: nat)
    | SendStarts(id: nat)
    | SendEnds(id: nat, verdict: SendState)
    | RunNotify(id: nat)
    | Drop(id: nat)
    | Disconnect
    | ChannelOpened

  predicate Enabled(sys: System, e: Event) {
    match e
    case Open(_) => true
    case Disconnect => true
    case ChannelOpened => true
    case Arrive(id, _) => id < |sys.streams| && sys.streams[id].pending
    case PullOne(id) => id < |sys.streams| && sys.streams[id].alive
    case Idle(id) => id < |sys.streams| && sys.streams[id].alive && !sys.streams[id].released
    case CallerStops(id) => id < |sys.streams| && sys.streams[id].alive
    case SendStarts(id) => id < |sys.streams| && sys.streams[id].task == Running && sys.streams[id].send == Unsent
    case SendEnds(id, verdict) =>
      && id < |sys.streams| && sys.streams[id].task == Running
      && (|| (sys.streams[id].send == Unsent && verdict == SendFailed(true)) // readiness failed
          || (sys.streams[id].send == Sending && (verdict == Sent || verdict.SendFailed?)))
    case RunNotify(id) => id < |sys.streams| && sys.streams[id].task == Done && sys.streams[id].notifyQueued
    case Drop(id) => id < |sys.streams| && sys.streams[id].alive && !sys.streams[id].released
  }

  /** What the event does to the one call it concerns. */
  function Touch(limits: Limits, sys: System, e: Event): (Stream, nat)
    requires Enabled(sys, e) && !e.Open? && !e.Disconnect? && !e.ChannelOpened?
  {
    var s, total, up := sys.streams[e.id], sys.total, sys.channelUp;
    match e
    case Arrive(_, d) => OnChunk(limits, s, total, up, d)
    case PullOne(_) => (Next(s, total).0, Next(s, total).1)
    case Idle(_) => OnIdle(s, total, up)
    case CallerStops(_) => Cancel(s, total, up, false)
    case SendStarts(_) => (SendStart(s), total)
    case SendEnds(_, verdict) => SendEnd(s, total, up, verdict)
    case RunNotify(_) => (NotifyLater(s, up), total)
    case Drop(_) => Forget(s, total)
  }

  function Step(limits: Limits, sys: System, e: Event): System {
    if !Enabled(sys, e) then sys
    else match e
      case Open(abortedBefore) => sys.(streams := sys.streams + [Opened(abortedBefore)])
      case Disconnect => System(Dropped(sys.streams), 0, false)
      case ChannelOpened => sys.(channelUp := true)
      case _ =>
        var (s, total) := Touch(limits, sys, e);
        sys.(streams := sys.streams[e.id := s], total := total)
  }

  lemma StepTouches(limits: Limits, sys: System, e: Event)
    requires Enabled(sys, e) && !e.Open? && !e.Disconnect? && !e.ChannelOpened?
    ensures var (s, total) := Touch(limits, sys, e);
      Step(limits, sys, e) == sys.(streams := sys.streams[e.id := s], total := total)
  {
  }

  function Dropped(streams: seq<Stream>): (r: seq<Stream>)
    ensures |r| == |streams|
    ensures forall i :: 0 <= i < |r| ==> r[i] == OnDisconnected(streams[i])
  {
    if streams == [] then [] else [OnDisconnected(streams[0])] + Dropped(streams[1..])
  }

  function Run(limits: Limits, events: seq<Event>): System {
    if events == [] then System([], 0, true)
    else Step(limits, Run(limits, events[..|events| - 1]), events[|events| - 1])
  }

  // ---------------------------------------------------------------- accounting

  function Length(chunks: seq<Bytes>): nat {
    if chunks == [] then 0 else |chunks[0]| + Length(chunks[1..])
  }

  /** What the pending calls really hold. */
  function PendingBytes(streams: seq<Stream>): nat {
    if streams == [] then 0
    else (if streams[0].pending then streams[0].buffered else 0) + PendingBytes(streams[1..])
  }

  /** The books of one call: its counter is the length of its queue, within the
      per-call bounds, and a call off the books only keeps chunks behind an error. */
  ghost predicate Books(limits: Limits, s: Stream) {
    && s.buffered == Length(s.chunks)
    && |s.chunks| <= limits.maxChunks && s.buffered <= limits.maxBytes
    && (s.cancelled ==> s.released)
    && (s.released ==> !s.pending && s.chunks == [])
    && (s.chunks != [] && !s.pending ==> s.error.Some? && s.ended)
  }

  /** What every call keeps, whatever happens to it. */
  ghost predicate Sound(limits: Limits, s: Stream) {
    && Books(limits, s)
    && (s.pending ==> s.error == None && s.alive && !s.callerStopped)
  }

  ghost predicate Inv(limits: Limits, sys: System) {
    && (forall i :: 0 <= i < |sys.streams| ==> Sound(limits, sys.streams[i]))
    && sys.total <= PendingBytes(sys.streams)
    && sys.total <= limits.maxTotal
  }

  lemma {:induction false} LengthAppend(chunks: seq<Bytes>, body: Bytes)
    ensures Length(chunks + [body]) == Length(chunks) + |body|
  {
    if chunks != [] {
      assert (chunks + [body])[1..] == chunks[1..] + [body];
      LengthAppend(chunks[1..], body);
    }
  }

  function Held(s: Stream): nat { if s.pending then s.buffered else 0 }

  lemma {:induction false} PendingUpdate(streams: seq<Stream>, i: nat, s: Stream)
    requires i < |streams|
    ensures PendingBytes(streams[i := s]) == PendingBytes(streams) - Held(streams[i]) + Held(s)
    ensures Held(streams[i]) <= PendingBytes(streams)
  {
    if i == 0 {
      assert streams[i := s][1..] == streams[1..];
    } else {
      assert streams[i := s][1..] == streams[1..][i - 1 := s];
      PendingUpdate(streams[1..], i - 1, s);
    }
  }

  lemma {:induction false} PendingAppend(streams: seq<Stream>, s: Stream)
    requires Held(s) == 0
    ensures PendingBytes(streams + [s]) == PendingBytes(streams)
  {
    if streams != [] {
      assert (streams + [s])[1..] == streams[1..] + [s];
      PendingAppend(streams[1..], s);
    }
  }

  lemma {:induction false} NonePending(streams: seq<Stream>)
    requires forall i :: 0 <= i < |streams| ==> !streams[i].pending
    ensures PendingBytes(streams) == 0
  {
    if streams != [] { NonePending(streams[1..]); }
  }

  /** A call went from `s` to `after` while the global total went from `total` to
      `left`; all other pending calls together hold `rest`. */
  ghost predicate Kept(limits: Limits, s: Stream, total: nat, after: Stream, left: nat, rest: nat) {
    && Sound(limits, after)
    && left <= limits.maxTotal
    && left <= rest + Held(after)
    && (total == rest + Held(s) ==> (left == rest + Held(after) <==> !Stale(s, total, after)))
    && (NoLeftovers(s) ==> NoLeftovers(after))
  }

  /** Nothing is queued for a call the dispatcher no longer routes to. */
  predicate NoLeftovers(s: Stream) {
    s.pending || s.chunks == []
  }

  /** A call that a disconnection already took off the books gives its bytes back
      a second time. */
  predicate Stale(s: Stream, total: nat, after: Stream) {
    !s.pending && !s.released && after.released && s.buffered > 0 && total > 0
  }

  lemma CancelKept(limits: Limits, s: Stream, total: nat, up: bool, notifyOnly: bool, rest: nat)
    requires Books(limits, s) && total <= limits.maxTotal && total <= rest + Held(s)
    ensures var (after, left) := Cancel(s, total, up, notifyOnly);
            Kept(limits, s, total, after, left, rest)
  {
  }

  lemma FailKept(limits: Limits, s: Stream, total: nat, up: bool, error: StreamError, rest: nat)
    requires Sound(limits, s) && s.pending && total <= limits.maxTotal && total <= rest + Held(s)
    ensures var (after, left) := Fail(s, total, up, error);
            Kept(limits, s, total, after, left, rest)
  {
    var (d, left) := DropBuffer(s.(error := Some(error), ended := true), total);
    CancelKept(limits, d, left, up, true, rest);
  }

  lemma BufferKept(limits: Limits, s: Stream, total: nat, body: Bytes, final: bool, rest: nat)
    requires Sound(limits, s) && s.pending && total <= limits.maxTotal && total <= rest + Held(s)
    requires body != [] && !Overflows(limits, s, total, body)
    ensures var after := s.(chunks := s.chunks + [body], buffered := s.buffered + |body|, ended := s.ended || final);
            Kept(limits, s, total, after, total + |body|, rest)
  {
    LengthAppend(s.chunks, body);
  }

  lemma AcceptKept(limits: Limits, s: Stream, total: nat, up: bool, body: Bytes, final: bool, rest: nat)
    requires Sound(limits, s) && s.pending && total <= limits.maxTotal && total <= rest + Held(s)
    ensures var (after, left) := Accept(limits, s, total, up, body, final);
            Kept(limits, s, total, after, left, rest)
  {
    if Overflows(limits, s, total, body) {
      FailKept(limits, s, total, up, Backpressure, rest);
    } else if body != [] {
      BufferKept(limits, s, total, body, final, rest);
    }
  }

  lemma OnChunkKept(limits: Limits, s: Stream, total: nat, up: bool, d: Delivery, rest: nat)
    requires Sound(limits, s) && s.pending && total <= limits.maxTotal && total <= rest + Held(s)
    ensures var (after, left) := OnChunk(limits, s, total, up, d);
            Kept(limits, s, total, after, left, rest)
  {
    if d.seqNo.Some? && d.seqNo.value > Expected(s) {
      FailKept(limits, s, total, up, SequenceGap, rest);
    } else if !(d.seqNo.Some? && d.seqNo.value < Expected(s)) {
      AcceptKept(limits, if d.seqNo.Some? then s.(lastSeq := d.seqNo) else s, total, up, d.body, d.final, rest);
    }
  }

  lemma NextKept(limits: Limits, s: Stream, total: nat, rest: nat)
    requires Sound(limits, s) && s.alive && total <= limits.maxTotal && total <= rest + Held(s)
    ensures var (after, left, pulled) := Next(s, total);
            Kept(limits, s, total, after, left, rest)
  {
  }

  lemma SendEndKept(limits: Limits, s: Stream, total: nat, up: bool, verdict: SendState, rest: nat)
    requires Sound(limits, s) && s.task == Running && total <= limits.maxTotal && total <= rest + Held(s)
    ensures var (after, left) := SendEnd(s, total, up, verdict);
            Kept(limits, s, total, after, left, rest)
  {
    if verdict.SendFailed? && !s.released {
      CancelKept(limits, s.(send := verdict, error := Some(PublishFailed(verdict.ambiguous)), ended := true), total,
        up, true, rest);
    }
  }

  lemma OnIdleKept(limits: Limits, s: Stream, total: nat, up: bool, rest: nat)
    requires Sound(limits, s) && total <= limits.maxTotal && total <= rest + Held(s)
    ensures var (after, left) := OnIdle(s, total, up);
            Kept(limits, s, total, after, left, rest)
  {
    if !s.ended {
      CancelKept(limits, s.(error := Some(IdleTimeout), ended := true), total, up, true, rest);
    }
  }

  lemma ForgetKept(limits: Limits, s: Stream, total: nat, rest: nat)
    requires Sound(limits, s) && total <= limits.maxTotal && total <= rest + Held(s)
    ensures var (after, left) := Forget(s, total);
            Kept(limits, s, total, after, left, rest)
  {
  }

  lemma QuietKept(limits: Limits, s: Stream, total: nat, up: bool, rest: nat)
    requires Sound(limits, s) && total <= limits.maxTotal && total <= rest + Held(s)
    ensures Kept(limits, s, total, SendStart(s), total, rest)
    ensures Kept(limits, s, total, NotifyLater(s, up), total, rest)
  {
  }

  /** A touched call stays sound, and the global total follows what it holds. */
  lemma TouchKept(limits: Limits, sys: System, e: Event)
    requires Inv(limits, sys) && Enabled(sys, e) && !e.Open? && !e.Disconnect? && !e.ChannelOpened?
    ensures var (s, total) := Touch(limits, sys, e);
            Held(sys.streams[e.id]) <= PendingBytes(sys.streams)
            && Kept(limits, sys.streams[e.id], sys.total, s, total, PendingBytes(sys.streams) - Held(sys.streams[e.id]))
  {
    var s, total := sys.streams[e.id], sys.total;
    PendingUpdate(sys.streams, e.id, s);
    var rest := PendingBytes(sys.streams) - Held(s);
    match e
    case Arrive(_, d) => OnChunkKept(limits, s, total, sys.channelUp, d, rest);
    case PullOne(_) => NextKept(limits, s, total, rest);
    case Idle(_) => OnIdleKept(limits, s, total, sys.channelUp, rest);
    case CallerStops(_) => CancelKept(limits, s, total, sys.channelUp, false, rest);
    case SendEnds(_, verdict) => SendEndKept(limits, s, total, sys.channelUp, verdict, rest);
    case SendStarts(_) => QuietKept(limits, s, total, sys.channelUp, rest);
    case RunNotify(_) => QuietKept(limits, s, total, sys.channelUp, rest);
    case Drop(_) => ForgetKept(limits, s, total, rest);
  }

  /** Every step keeps every call's books and both global bounds. */
  lemma StepInv(limits: Limits, sys: System, e: Event)
    requires Inv(limits, sys)
    ensures Inv(limits, Step(limits, sys, e))
  {
    if Enabled(sys, e) {
      match e
      case Open(abortedBefore) => PendingAppend(sys.streams, Opened(abortedBefore));
      case Disconnect => NonePending(Dropped(sys.streams));
      case ChannelOpened =>
      case _ => TouchInv(limits, sys, e);
    }
  }

  lemma TouchInv(limits: Limits, sys: System, e: Event)
    requires Inv(limits, sys) && Enabled(sys, e) && !e.Open? && !e.Disconnect? && !e.ChannelOpened?
    ensures Inv(limits, Step(limits, sys, e))
  {
    var (s, total) := Touch(limits, sys, e);
    TouchKept(limits, sys, e);
    PendingUpdate(sys.streams, e.id, s);
    UpdateInv(limits, sys, e.id, s, total);
  }

  lemma UpdateInv(limits: Limits, sys: System, i: nat, s: Stream, total: nat)
    requires Inv(limits, sys) && i < |sys.streams| && Sound(limits, s)
    requires total <= limits.maxTotal && total <= PendingBytes(sys.streams[i := s])
    ensures Inv(limits, sys.(streams := sys.streams[i := s], total := total))
  {
  }

  lemma {:induction false} RunInv(limits: Limits, events: seq<Event>)
    ensures Inv(limits, Run(limits, events))
  {
    if events != [] {
      RunInv(limits, events[..|events| - 1]);
      StepInv(limits, Run(limits, events[..|events| - 1]), events[|events| - 1]);
    }
  }

  /** The step that loses count: a call taken off the books by a disconnection is
      released while other calls hold bytes. */
  predicate StaleRelease(limits: Limits, sys: System, e: Event) {
    && Enabled(sys, e)
    && (e.PullOne? || e.CallerStops? || (e.SendEnds? && e.verdict.SendFailed?))
    && var s := sys.streams[e.id];
       !s.pending && !s.released && s.buffered > 0 && sys.total > 0
  }

  /** An exact total stays exact through every step but a stale release. */
  lemma ExactUnlessStale(limits: Limits, sys: System, e: Event)
    requires Inv(limits, sys) && sys.total == PendingBytes(sys.streams)
    ensures var next := Step(limits, sys, e);
            next.total == PendingBytes(next.streams) <==> !StaleRelease(limits, sys, e)
  {
    if Enabled(sys, e) {
      match e
      case Open(abortedBefore) => PendingAppend(sys.streams, Opened(abortedBefore));
      case Disconnect => NonePending(Dropped(sys.streams));
      case ChannelOpened =>
      case _ =>
        TouchKept(limits, sys, e);
        PendingUpdate(sys.streams, e.id, Touch(limits, sys, e).0);
        StaleIs(limits, sys, e);
    }
  }

  lemma StaleIs(limits: Limits, sys: System, e: Event)
    requires Inv(limits, sys) && Enabled(sys, e) && !e.Open? && !e.Disconnect? && !e.ChannelOpened?
    ensures Stale(sys.streams[e.id], sys.total, Touch(limits, sys, e).0) <==> StaleRelease(limits, sys, e)
  {
    var s := sys.streams[e.id];
    assert Sound(limits, s);
    match e
    case Arrive(_, d) =>
    case Idle(_) => assert s.buffered > 0 && !s.pending ==> s.error.Some?;
    case _ =>
  }

  /** At no point of the run is a call released that a disconnection had taken off
      the books while others hold bytes. */
  predicate NoStaleRelease(limits: Limits, events: seq<Event>) {
    events == []
    || (var before := events[..|events| - 1];
        NoStaleRelease(limits, before) && !StaleRelease(limits, Run(limits, before), events[|events| - 1]))
  }

  predicate Exact(sys: System) {
    sys.total == PendingBytes(sys.streams)
  }

  ghost predicate ExactThroughout(limits: Limits, events: seq<Event>) {
    forall k :: 0 <= k <= |events| ==> Exact(Run(limits, events[..k]))
  }

  lemma ThroughoutBefore(limits: Limits, before: seq<Event>, e: Event)
    ensures ExactThroughout(limits, before + [e]) <==>
          ExactThroughout(limits, before) && Exact(Run(limits, before + [e]))
  {
    var events := before + [e];
    assert events[..|events|] == events;
    assert forall k :: 0 <= k <= |before| ==> events[..k] == before[..k];
  }

  /** The total is exact all through a run if and only if the run has no stale
      release; and then what the pending calls hold stays within the global bound. */
  lemma {:induction false} ExactIffNoStaleRelease(limits: Limits, events: seq<Event>)
    ensures ExactThroughout(limits, events) <==> NoStaleRelease(limits, events)
    ensures NoStaleRelease(limits, events) ==>
      Exact(Run(limits, events)) && PendingBytes(Run(limits, events).streams) <= limits.maxTotal
  {
    RunInv(limits, events);
    if events == [] {
      assert events[..0] == [];
    } else {
      var before, e := events[..|events| - 1], events[|events| - 1];
      assert events == before + [e] && before[..|before|] == before;
      ExactIffNoStaleRelease(limits, before);
      ThroughoutBefore(limits, before, e);
      RunInv(limits, before);
      if Exact(Run(limits, before)) { ExactUnlessStale(limits, Run(limits, before), e); }
    }
  }

  predicate DisconnectFree(events: seq<Event>) {
    Disconnect !in events
  }

  /** Without a disconnection the total is exactly what the pending calls hold, so
      what they hold together stays within the global bound. */
  lemma {:induction false} ExactWithoutDisconnect(limits: Limits, events: seq<Event>)
    requires DisconnectFree(events)
    ensures var sys := Run(limits, events);
            && sys.total == PendingBytes(sys.streams) <= limits.maxTotal
            && forall i :: 0 <= i < |sys.streams| ==> NoLeftovers(sys.streams[i])
  {
    if events != [] {
      var before, e := events[..|events| - 1], events[|events| - 1];
      ExactWithoutDisconnect(limits, before);
      RunInv(limits, before);
      RunInv(limits, events);
      var sys := Run(limits, before);
      ExactUnlessStale(limits, sys, e);
      if Enabled(sys, e) && !e.Open? && !e.ChannelOpened? { TouchKept(limits, sys, e); }
    }
  }

  lemma RunAppend(limits: Limits, events: seq<Event>, e: Event)
    ensures Run(limits, events + [e]) == Step(limits, Run(limits, events), e)
  {
    assert (events + [e])[..|events|] == events;
  }

  /** A call that has been opened and has received one chunk. */
  function Holding(body: Bytes): Stream {
    Opened(false).(chunks := [body], buffered := |body|, lastSeq := Some(0))
  }

  function FirstChunk(id: nat, body: Bytes): Event {
    Arrive(id, Delivery(Some(0), body, false))
  }

  lemma FirstChunkHeld(limits: Limits, total: nat, up: bool, body: Bytes)
    requires body != [] && limits.maxChunks > 0 && |body| <= limits.maxBytes && total + |body| <= limits.maxTotal
    ensures OnChunk(limits, Opened(false), total, up, Delivery(Some(0), body, false)) == (Holding(body), total + |body|)
  {
    assert [] + [body] == [body];
  }

  lemma OpenAndReceive(limits: Limits, events: seq<Event>, body: Bytes)
    requires body != [] && limits.maxChunks > 0 && |body| <= limits.maxBytes
    requires Run(limits, events).total + |body| <= limits.maxTotal
    ensures var sys := Run(limits, events);
            Run(limits, events + [Open(false)] + [FirstChunk(|sys.streams|, body)])
            == System(sys.streams + [Holding(body)], sys.total + |body|, sys.channelUp)
  {
    var sys := Run(limits, events);
    RunAppend(limits, events, Open(false));
    RunAppend(limits, events + [Open(false)], FirstChunk(|sys.streams|, body));
    ReceiveFirst(limits, sys, body);
  }

  lemma ReceiveFirst(limits: Limits, sys: System, body: Bytes)
    requires body != [] && limits.maxChunks > 0 && |body| <= limits.maxBytes && sys.total + |body| <= limits.maxTotal
    ensures Step(limits, Step(limits, sys, Open(false)), FirstChunk(|sys.streams|, body))
      == System(sys.streams + [Holding(body)], sys.total + |body|, sys.channelUp)
  {
    var grown := sys.(streams := sys.streams + [Opened(false)]);
    var n := |sys.streams|;
    FirstChunkHeld(limits, sys.total, sys.channelUp, body);
    assert grown.streams[n] == Opened(false) && grown.streams[n].pending;
    assert Touch(limits, grown, FirstChunk(n, body)) == (Holding(body), sys.total + |body|);
    assert grown.streams[n := Holding(body)] == sys.streams + [Holding(body)];
  }

  lemma PendingCons(s: Stream, rest: seq<Stream>)
    ensures PendingBytes([s] + rest) == Held(s) + PendingBytes(rest)
  {
    assert ([s] + rest)[1..] == rest;
  }

  lemma PendingThree(a: Stream, b: Stream, c: Stream)
    ensures PendingBytes([a, b, c]) == Held(a) + Held(b) + Held(c)
  {
    PendingCons(c, []);
    PendingCons(b, [c]);
    PendingCons(a, [b, c]);
    assert [c] + [] == [c] && [b] + [c] == [b, c] && [a] + [b, c] == [a, b, c];
  }

  /** After a stale release the global bound no longer bounds what is buffered: two
      pending calls hold 14 bytes under a limit of 8. */
  lemma BoundBrokenAfterStaleRelease() returns (limits: Limits, events: seq<Event>)
    ensures limits.maxTotal == 8 && PendingBytes(Run(limits, events).streams) == 14
  {
    limits := Limits(8, 8, 8);
    var six: Bytes := [1, 2, 3, 4, 5, 6];
    var eight: Bytes := [1, 2, 3, 4, 5, 6, 7, 8];
    OpenAndReceive(limits, [], six);
    var first := [] + [Open(false)] + [FirstChunk(0, six)];
    RunAppend(limits, first, Disconnect);
    var lost := first + [Disconnect];
    var stale := OnDisconnected(Holding(six));
    assert Run(limits, lost) == System([stale], 0, false);
    OpenAndReceive(limits, lost, eight);
    var second := lost + [Open(false)] + [FirstChunk(1, eight)];
    assert Run(limits, second) == System([stale, Holding(eight)], 8, false);
    RunAppend(limits, second, CallerStops(0));
    var freed := second + [CallerStops(0)];
    var gone := Cancel(stale, 8, false, false).0;
    assert Run(limits, freed) == System([gone, Holding(eight)], 2, false);
    OpenAndReceive(limits, freed, six);
    events := freed + [Open(false)] + [FirstChunk(2, six)];
    var streams := [gone, Holding(eight), Holding(six)];
    assert Run(limits, events) == System(streams, 8, false);
    PendingThree(gone, Holding(eight), Holding(six));
  }
}
