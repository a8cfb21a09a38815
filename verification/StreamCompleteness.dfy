/** The other half of what a reader is promised: a call fails only for a reason, and
    one that nothing disturbs delivers everything. */
module StreamCompleteness {
  import opened Common
  import opened StreamFraming
  import opened StreamSteps
  import opened StreamSystem
  import opened StreamSafety

  /** Frame `i` was handed to the call while it was pending. */
  predicate DeliveredIn(limits: Limits, events: seq<Event>, id: nat, i: nat) {
    events != []
    && (var before, e := events[..|events| - 1], events[|events| - 1];
        || DeliveredIn(limits, before, id, i)
        || (e.Arrive? && e.id == id && Enabled(Run(limits, before), e) && e.delivery.seqNo == Some(i)))
  }

  /** One more body would be one chunk, or some bytes, too many. */
  predicate NoRoom(limits: Limits, sys: System, id: nat, body: Bytes)
    requires id < |sys.streams|
  {
    && body != []
    && (|| |sys.streams[id].chunks| >= limits.maxChunks
        || Length(sys.streams[id].chunks) + |body| > limits.maxBytes
        || sys.total + |body| > limits.maxTotal)
  }

  /** Why the call fails at this step, if it does. */
  function CauseOf(limits: Limits, before: seq<Event>, e: Event, id: nat): Option<StreamError> {
    var sys := Run(limits, before);
    if !Enabled(sys, e) || id >= |sys.streams| then None
    else match e
      case Arrive(to, Delivery(seqNo, body, _)) =>
        if to != id then None
        else if seqNo.Some? && seqNo.value > 0 && !DeliveredIn(limits, before, id, seqNo.value - 1) then
          Some(SequenceGap)
        else if (seqNo.Some? ==> !DeliveredIn(limits, before, id, seqNo.value)) && NoRoom(limits, sys, id, body) then
          Some(Backpressure)
        else None
      case Idle(of) => if of == id && !sys.streams[id].ended then Some(IdleTimeout) else None
      case SendEnds(of, SendFailed(ambiguous)) =>
        if of == id && !sys.streams[id].released then Some(PublishFailed(ambiguous)) else None
      case Disconnect => if sys.streams[id].pending then Some(Disconnected) else None
      case _ => None
  }

  function LastCause(limits: Limits, events: seq<Event>, id: nat): Option<StreamError> {
    if events == [] then None
    else
      var before, e := events[..|events| - 1], events[|events| - 1];
      var cause := CauseOf(limits, before, e, id);
      if cause.Some? then cause else LastCause(limits, before, id)
  }

  /** What the call has taken in is what it was handed, until a gap fails it. */
  ghost predicate InStep(limits: Limits, events: seq<Event>, id: nat, s: Stream) {
    && (s.error != Some(SequenceGap) ==> forall i: nat :: DeliveredIn(limits, events, id, i) <==> i < Expected(s))
    && (s.error == Some(SequenceGap) ==> s.released)
  }

  // ------------------------------------------------------------ one step of a call

  lemma CancelKeepsError(s: Stream, total: nat, up: bool, notifyOnly: bool)
    ensures var t := Cancel(s, total, up, notifyOnly).0;
      t.error == s.error && t.lastSeq == s.lastSeq && (!s.cancelled ==> t.released) && (s.released ==> t.released)
  {
  }

  lemma FailSets(s: Stream, total: nat, up: bool, error: StreamError)
    requires s.alive && !s.cancelled
    ensures var t := Fail(s, total, up, error).0; t.error == Some(error) && t.lastSeq == s.lastSeq && t.released
  {
    var (d, left) := DropBuffer(s.(error := Some(error), ended := true), total);
    CancelKeepsError(d, left, up, true);
  }

  /** A frame that is ahead of its turn, one too many, or taken. */
  lemma ChunkError(limits: Limits, s: Stream, total: nat, up: bool, d: Delivery)
    requires Sound(limits, s) && s.pending
    ensures var t := OnChunk(limits, s, total, up, d).0;
      if d.seqNo.Some? && d.seqNo.value > Expected(s) then
        t.error == Some(SequenceGap) && t.released
      else if d.seqNo.Some? && d.seqNo.value < Expected(s) then
        t.error == None && t.lastSeq == s.lastSeq
      else
        && t.error == (if Overflows(limits, s, total, d.body) then Some(Backpressure) else None)
        && t.lastSeq == (if d.seqNo.Some? then d.seqNo else s.lastSeq)
  {
    FailSets(s, total, up, SequenceGap);
    FailSets(if d.seqNo.Some? then s.(lastSeq := d.seqNo) else s, total, up, Backpressure);
  }

  lemma SendEndError(s: Stream, total: nat, up: bool, verdict: SendState)
    ensures var t := SendEnd(s, total, up, verdict).0;
      && t.error == (if verdict.SendFailed? && !s.released then Some(PublishFailed(verdict.ambiguous)) else s.error)
      && t.lastSeq == s.lastSeq && (s.released ==> t.released)
  {
    if verdict.SendFailed? && !s.released {
      var failed := s.(send := verdict, error := Some(PublishFailed(verdict.ambiguous)), ended := true);
      CancelKeepsError(failed, total, up, true);
    }
  }

  lemma OnIdleError(s: Stream, total: nat, up: bool)
    ensures var t := OnIdle(s, total, up).0;
      && t.error == (if s.ended then s.error else Some(IdleTimeout))
      && t.lastSeq == s.lastSeq && (s.released ==> t.released)
  {
    if !s.ended { CancelKeepsError(s.(error := Some(IdleTimeout), ended := true), total, up, true); }
  }

  /** The steps that neither bring a frame nor fail a call. */
  lemma QuietError(limits: Limits, sys: System, e: Event)
    requires Enabled(sys, e) && (e.PullOne? || e.CallerStops? || e.SendStarts? || e.RunNotify? || e.Drop?)
    ensures var s, t := sys.streams[e.id], Touch(limits, sys, e).0;
      t.error == s.error && t.lastSeq == s.lastSeq && (s.released ==> t.released)
  {
    if e.CallerStops? { CancelKeepsError(sys.streams[e.id], sys.total, sys.channelUp, false); }
  }

  // ------------------------------------------------------------ every run

  /** The call's error and what it has taken in, against the run so far. */
  ghost predicate Explained(limits: Limits, events: seq<Event>, id: nat, s: Stream) {
    InStep(limits, events, id, s) && s.error == LastCause(limits, events, id)
  }

  lemma ArriveExplained(limits: Limits, before: seq<Event>, e: Event)
    requires e.Arrive? && Enabled(Run(limits, before), e)
    requires Sound(limits, Run(limits, before).streams[e.id])
    requires Explained(limits, before, e.id, Run(limits, before).streams[e.id])
    ensures Explained(limits, before + [e], e.id, Touch(limits, Run(limits, before), e).0)
  {
    var sys := Run(limits, before);
    var s, d := sys.streams[e.id], e.delivery;
    assert (before + [e])[..|before|] == before;
    ChunkError(limits, s, sys.total, sys.channelUp, d);
    assert Overflows(limits, s, sys.total, d.body) <==> NoRoom(limits, sys, e.id, d.body);
    assert forall i: nat :: DeliveredIn(limits, before + [e], e.id, i) <==>
      DeliveredIn(limits, before, e.id, i) || d.seqNo == Some(i);
  }

  lemma Undelivered(limits: Limits, before: seq<Event>, e: Event, id: nat)
    requires !(e.Arrive? && e.id == id)
    ensures forall i: nat :: DeliveredIn(limits, before + [e], id, i) <==> DeliveredIn(limits, before, id, i)
    ensures LastCause(limits, before + [e], id) ==
      var cause := CauseOf(limits, before, e, id); if cause.Some? then cause else LastCause(limits, before, id)
  {
    assert (before + [e])[..|before|] == before;
  }

  lemma TouchExplained(limits: Limits, before: seq<Event>, e: Event)
    requires Enabled(Run(limits, before), e) && !e.Open? && !e.Disconnect? && !e.ChannelOpened? && !e.Arrive?
    requires Explained(limits, before, e.id, Run(limits, before).streams[e.id])
    requires Sound(limits, Run(limits, before).streams[e.id])
    ensures Explained(limits, before + [e], e.id, Touch(limits, Run(limits, before), e).0)
  {
    var sys := Run(limits, before);
    var s := sys.streams[e.id];
    Undelivered(limits, before, e, e.id);
    match e
    case Idle(_) => OnIdleError(s, sys.total, sys.channelUp);
    case SendEnds(_, verdict) => SendEndError(s, sys.total, sys.channelUp, verdict);
    case _ => QuietError(limits, sys, e);
  }

  lemma OtherExplained(limits: Limits, before: seq<Event>, e: Event, id: nat)
    requires id < |Run(limits, before).streams| && Explained(limits, before, id, Run(limits, before).streams[id])
    requires Sound(limits, Run(limits, before).streams[id])
    requires !Enabled(Run(limits, before), e) || e.Open? || e.ChannelOpened? || (!e.Disconnect? && e.id != id)
    ensures Explained(limits, before + [e], id, Run(limits, before).streams[id])
  {
    if e.Arrive? && e.id == id {
      assert (before + [e])[..|before|] == before;
      assert forall i: nat :: DeliveredIn(limits, before + [e], id, i) <==> DeliveredIn(limits, before, id, i);
    } else {
      Undelivered(limits, before, e, id);
    }
  }

  lemma DroppedExplained(limits: Limits, before: seq<Event>, id: nat)
    requires id < |Run(limits, before).streams| && Explained(limits, before, id, Run(limits, before).streams[id])
    requires Sound(limits, Run(limits, before).streams[id])
    ensures Explained(limits, before + [Disconnect], id, OnDisconnected(Run(limits, before).streams[id]))
  {
    Undelivered(limits, before, Disconnect, id);
  }

  /** Nothing was handed to a call that is not open, and nothing fails it. */
  lemma {:induction false} NothingYet(limits: Limits, events: seq<Event>, id: nat)
    requires |Run(limits, events).streams| <= id
    ensures LastCause(limits, events, id) == None && forall i: nat :: !DeliveredIn(limits, events, id, i)
  {
    if events != [] { NothingYet(limits, events[..|events| - 1], id); }
  }

  lemma OpenedExplained(limits: Limits, before: seq<Event>, abortedBefore: bool)
    ensures Explained(limits, before + [Open(abortedBefore)], |Run(limits, before).streams|, Opened(abortedBefore))
  {
    var id := |Run(limits, before).streams|;
    NothingYet(limits, before, id);
    Undelivered(limits, before, Open(abortedBefore), id);
  }

  /** In every run a call's error is the last cause it was given: a frame ahead of its
      turn, a body there was no room for, silence, a lost connection or a failed send;
      and without any it has none. */
  lemma {:induction false} ErrorIsLastCause(limits: Limits, events: seq<Event>, id: nat)
    requires id < |Run(limits, events).streams|
    ensures Explained(limits, events, id, Run(limits, events).streams[id])
  {
    var before, e := events[..|events| - 1], events[|events| - 1];
    assert events == before + [e];
    var sys := Run(limits, before);
    RunInv(limits, before);
    if id == |sys.streams| {
      OpenedExplained(limits, before, e.abortedBefore);
    } else {
      ErrorIsLastCause(limits, before, id);
      if !Enabled(sys, e) || e.Open? || e.ChannelOpened? || (!e.Disconnect? && e.id != id) {
        OtherExplained(limits, before, e, id);
      } else if e.Disconnect? {
        DroppedExplained(limits, before, id);
      } else if e.Arrive? {
        ArriveExplained(limits, before, e);
      } else {
        TouchExplained(limits, before, e);
      }
    }
  }

  // ------------------------------------------------------------ gaps

  /** Some frame was handed to the call before the one in front of it. */
  predicate GapIn(limits: Limits, events: seq<Event>, id: nat) {
    events != []
    && (var before, e := events[..|events| - 1], events[|events| - 1];
        || GapIn(limits, before, id)
        || (&& e.Arrive? && e.id == id && Enabled(Run(limits, before), e)
            && e.delivery.seqNo.Some? && e.delivery.seqNo.value > 0
            && !DeliveredIn(limits, before, id, e.delivery.seqNo.value - 1)))
  }

  /** In every run: a call has failed for a missing frame if and only if a frame was
      handed to it, while it was pending, whose predecessor never had been. */
  lemma {:induction false} GapIff(limits: Limits, events: seq<Event>, id: nat)
    requires id < |Run(limits, events).streams|
    ensures Run(limits, events).streams[id].error == Some(SequenceGap) <==> GapIn(limits, events, id)
  {
    var before, e := events[..|events| - 1], events[|events| - 1];
    assert events == before + [e];
    var sys := Run(limits, before);
    RunInv(limits, before);
    ErrorIsLastCause(limits, events, id);
    if id == |sys.streams| {
      NoGapYet(limits, before, id);
    } else {
      ErrorIsLastCause(limits, before, id);
      GapIff(limits, before, id);
      if sys.streams[id].error == Some(SequenceGap) { GapStays(limits, before, e, id); }
    }
  }

  lemma {:induction false} NoGapYet(limits: Limits, events: seq<Event>, id: nat)
    requires |Run(limits, events).streams| <= id
    ensures !GapIn(limits, events, id)
  {
    if events != [] { NoGapYet(limits, events[..|events| - 1], id); }
  }

  /** A call that failed for a missing frame is released; nothing fails it again. */
  lemma GapStays(limits: Limits, before: seq<Event>, e: Event, id: nat)
    requires id < |Run(limits, before).streams| && Inv(limits, Run(limits, before))
    requires InStep(limits, before, id, Run(limits, before).streams[id])
    requires Run(limits, before).streams[id].error == Some(SequenceGap)
    ensures CauseOf(limits, before, e, id) == None
  {
    assert Sound(limits, Run(limits, before).streams[id]);
  }

  /** Whatever becomes of it, a frame marked final ends the call it is handed to. */
  lemma FinalEnds(limits: Limits, sys: System, e: Event)
    requires e.Arrive? && Enabled(sys, e) && e.delivery.final
    requires Sound(limits, sys.streams[e.id])
    ensures Step(limits, sys, e).streams[e.id].ended
  {
    var s, d := sys.streams[e.id], e.delivery;
    StepTouches(limits, sys, e);
    FailStaysEnded(s, sys.total, sys.channelUp, SequenceGap);
    FailStaysEnded(if d.seqNo.Some? then s.(lastSeq := d.seqNo) else s, sys.total, sys.channelUp, Backpressure);
  }

  lemma FailStaysEnded(s: Stream, total: nat, up: bool, error: StreamError)
    ensures Fail(s, total, up, error).0.ended
  {
  }

  // ------------------------------------------------------------ completeness

  /** The caller closed or aborted the call. */
  predicate StoppedIn(limits: Limits, events: seq<Event>, id: nat) {
    events != []
    && (var before, e := events[..|events| - 1], events[|events| - 1];
        || StoppedIn(limits, before, id)
        || (e == CallerStops(id) && Enabled(Run(limits, before), e))
        || (e == Open(true) && |Run(limits, before).streams| == id))
  }

  /** The caller dropped the reply object. */
  predicate DroppedIn(limits: Limits, events: seq<Event>, id: nat) {
    events != []
    && (var before, e := events[..|events| - 1], events[|events| - 1];
        DroppedIn(limits, before, id) || (e == Drop(id) && Enabled(Run(limits, before), e)))
  }

  /** The reply object is as much alive and as much stopped as it was. */
  predicate SameReader(s: Stream, t: Stream) {
    t.alive == s.alive && t.callerStopped == s.callerStopped
  }

  lemma CancelKeepsReading(s: Stream, total: nat, up: bool, notifyOnly: bool)
    ensures var t := Cancel(s, total, up, notifyOnly).0; t.alive == s.alive && (notifyOnly ==> SameReader(s, t))
  {
  }

  lemma FailKeepsReading(s: Stream, total: nat, up: bool, error: StreamError)
    ensures SameReader(s, Fail(s, total, up, error).0)
  {
    var (d, left) := DropBuffer(s.(error := Some(error), ended := true), total);
    CancelKeepsReading(d, left, up, true);
  }

  lemma AcceptKeepsReading(limits: Limits, s: Stream, total: nat, up: bool, body: Bytes, final: bool)
    ensures SameReader(s, Accept(limits, s, total, up, body, final).0)
  {
    FailKeepsReading(s, total, up, Backpressure);
  }

  lemma ChunkKeepsReading(limits: Limits, s: Stream, total: nat, up: bool, d: Delivery)
    ensures SameReader(s, OnChunk(limits, s, total, up, d).0)
  {
    FailKeepsReading(s, total, up, SequenceGap);
    AcceptKeepsReading(limits, if d.seqNo.Some? then s.(lastSeq := d.seqNo) else s, total, up, d.body, d.final);
  }

  lemma AbandonKeepsReading(s: Stream, total: nat, up: bool, ambiguous: bool)
    ensures SameReader(s, Abandon(s, total, up, ambiguous).0)
  {
    CancelKeepsReading(s.(error := Some(PublishFailed(ambiguous)), ended := true), total, up, true);
  }

  lemma SendEndKeepsReading(s: Stream, total: nat, up: bool, verdict: SendState)
    ensures SameReader(s, SendEnd(s, total, up, verdict).0)
  {
    if verdict.SendFailed? { AbandonKeepsReading(s.(send := verdict), total, up, verdict.ambiguous); }
  }

  lemma TouchKeepsReading(limits: Limits, sys: System, e: Event)
    requires Enabled(sys, e) && !e.Open? && !e.Disconnect? && !e.ChannelOpened?
    ensures var s, t := sys.streams[e.id], Touch(limits, sys, e).0;
      && t.alive == (s.alive && !e.Drop?)
      && (!e.CallerStops? ==> t.callerStopped == s.callerStopped)
  {
    var s, total, up := sys.streams[e.id], sys.total, sys.channelUp;
    match e
    case Arrive(_, d) => ChunkKeepsReading(limits, s, total, up, d);
    case Idle(_) => CancelKeepsReading(s.(error := Some(IdleTimeout), ended := true), total, up, true);
    case CallerStops(_) => CancelKeepsReading(s, total, up, false);
    case SendEnds(_, verdict) => SendEndKeepsReading(s, total, up, verdict);
    case _ =>
  }

  lemma {:induction false} StillReading(limits: Limits, events: seq<Event>, id: nat)
    ensures id < |Run(limits, events).streams| ==>
      && Run(limits, events).streams[id].alive == !DroppedIn(limits, events, id)
      && (!StoppedIn(limits, events, id) ==> !Run(limits, events).streams[id].callerStopped)
    ensures id >= |Run(limits, events).streams| ==> !DroppedIn(limits, events, id) && !StoppedIn(limits, events, id)
  {
    if events != [] {
      var before, e := events[..|events| - 1], events[|events| - 1];
      var sys := Run(limits, before);
      StillReading(limits, before, id);
      if Enabled(sys, e) && !e.Open? && !e.Disconnect? && !e.ChannelOpened? { TouchKeepsReading(limits, sys, e); }
    }
  }

  /** Exactly the first `n` frames were handed to the call. */
  ghost predicate Received(limits: Limits, events: seq<Event>, id: nat, n: nat) {
    forall i: nat :: DeliveredIn(limits, events, id, i) <==> i < n
  }

  /** Nothing failed the call, and its caller neither stopped nor dropped it. */
  predicate Undisturbed(limits: Limits, events: seq<Event>, id: nat) {
    LastCause(limits, events, id) == None && !StoppedIn(limits, events, id) && !DroppedIn(limits, events, id)
  }

  /** In every run, an undisturbed call that was handed the first n frames produced for
      it, in whatever repetition, holds or has given exactly what they carry, and has
      ended if and only if they are all. */
  lemma NothingMissing(limits: Limits, produced: nat -> seq<Bytes>, events: seq<Event>, id: nat, n: nat)
    requires Genuine(produced, events) && id < |Run(limits, events).streams|
    requires Undisturbed(limits, events, id) && Received(limits, events, id, n)
    ensures var s := Run(limits, events).streams[id];
      && n <= FrameCount(produced(id))
      && s.error == None && s.given + s.chunks == Carried(produced(id), n)
      && (s.ended <==> n == FrameCount(produced(id)))
  {
    var s := Run(limits, events).streams[id];
    RunFaithful(limits, produced, events);
    ErrorIsLastCause(limits, events, id);
    StillReading(limits, events, id);
    var m := Expected(s);
    assert DeliveredIn(limits, events, id, m) <==> m < n;
    assert DeliveredIn(limits, events, id, n) <==> n < m;
  }

  function Pulls(id: nat, k: nat): seq<Event> {
    if k == 0 then [] else Pulls(id, k - 1) + [PullOne(id)]
  }

  function Pulled(limits: Limits, sys: System, id: nat, k: nat): System {
    if k == 0 then sys else Step(limits, Pulled(limits, sys, id, k - 1), PullOne(id))
  }

  lemma {:induction false} RunPulls(limits: Limits, events: seq<Event>, id: nat, k: nat)
    ensures Run(limits, events + Pulls(id, k)) == Pulled(limits, Run(limits, events), id, k)
  {
    if k == 0 {
      assert events + [] == events;
    } else {
      RunPulls(limits, events, id, k - 1);
      assert events + Pulls(id, k) == (events + Pulls(id, k - 1)) + [PullOne(id)];
      RunAppend(limits, events + Pulls(id, k - 1), PullOne(id));
    }
  }

  /** The reader has been given the first `k` chunks held by `s`, and goes on. */
  predicate GoneOn(s: Stream, t: Stream, k: nat) {
    && k <= |s.chunks|
    && t.given == s.given + s.chunks[..k] && t.chunks == s.chunks[k..]
    && t.alive && t.error == None && t.ended == s.ended
  }

  lemma PullGives(limits: Limits, sys: System, id: nat)
    requires id < |sys.streams| && sys.streams[id].alive
    requires sys.streams[id].error == None && sys.streams[id].chunks != []
    ensures var s, after := sys.streams[id], Step(limits, sys, PullOne(id));
      id < |after.streams| && GoneOn(s, after.streams[id], 1)
  {
    StepTouches(limits, sys, PullOne(id));
  }

  lemma GoneFurther(s: Stream, t: Stream, u: Stream, k: nat)
    requires k < |s.chunks| && GoneOn(s, t, k) && GoneOn(t, u, 1)
    ensures GoneOn(s, u, k + 1)
  {
    assert s.chunks[k..][..1] == [s.chunks[k]] && s.chunks[..k + 1] == s.chunks[..k] + [s.chunks[k]];
    assert s.given + s.chunks[..k + 1] == (s.given + s.chunks[..k]) + [s.chunks[k]];
  }

  lemma NotGoneYet(s: Stream)
    requires s.alive && s.error == None
    ensures GoneOn(s, s, 0)
  {
    assert s.given + s.chunks[..0] == s.given;
  }

  lemma StillHolds(s: Stream, t: Stream, k: nat)
    requires GoneOn(s, t, k) && k < |s.chunks|
    ensures t.chunks != []
  {
  }

  /** Pulling hands out what is held, one chunk at a time. */
  lemma {:induction false} PullsGive(limits: Limits, sys: System, id: nat, k: nat)
    requires id < |sys.streams| && k <= |sys.streams[id].chunks|
    requires sys.streams[id].alive && sys.streams[id].error == None
    ensures var after := Pulled(limits, sys, id, k);
      id < |after.streams| && GoneOn(sys.streams[id], after.streams[id], k)
  {
    var s := sys.streams[id];
    if k == 0 {
      NotGoneYet(s);
    } else {
      PullsGive(limits, sys, id, k - 1);
      var before := Pulled(limits, sys, id, k - 1);
      StillHolds(s, before.streams[id], k - 1);
      PullGives(limits, before, id);
      GoneFurther(s, before.streams[id], Step(limits, before, PullOne(id)).streams[id], k - 1);
    }
  }

  /** In every run: an undisturbed call that was handed all its frames gives its reader
      every non-empty chunk produced, one pull each, and then ends. */
  lemma EverythingGiven(limits: Limits, produced: nat -> seq<Bytes>, events: seq<Event>, id: nat)
    requires Genuine(produced, events) && id < |Run(limits, events).streams|
    requires Undisturbed(limits, events, id) && Received(limits, events, id, FrameCount(produced(id)))
    ensures var left := |Run(limits, events).streams[id].chunks|;
      var drained := Run(limits, events + Pulls(id, left));
      && id < |drained.streams|
      && drained.streams[id].given == NonEmpty(produced(id))
      && Next(drained.streams[id], drained.total).2 == End
  {
    var s := Run(limits, events).streams[id];
    NothingMissing(limits, produced, events, id, FrameCount(produced(id)));
    StillReading(limits, events, id);
    PullsGive(limits, Run(limits, events), id, |s.chunks|);
    RunPulls(limits, events, id, |s.chunks|);
    CarriedPrefix(produced(id), FrameCount(produced(id)));
    assert s.chunks[..|s.chunks|] == s.chunks;
  }

  /** In every run, a reader is never left waiting for a call nothing comes for: once
      the dispatcher routes nothing to it any more, a pull gives a chunk, an error or
      the end. */
  lemma {:induction false} NobodyStranded(limits: Limits, events: seq<Event>, id: nat)
    requires id < |Run(limits, events).streams|
    ensures var sys := Run(limits, events);
      var s := sys.streams[id];
      && EndInSight(s)
      && (s.alive && !s.pending ==> Next(s, sys.total).2 != Parked)
  {
    var before, e := events[..|events| - 1], events[|events| - 1];
    var sys := Run(limits, before);
    RunInv(limits, before);
    if id < |sys.streams| {
      NobodyStranded(limits, before, id);
      if Enabled(sys, e) && !e.Open? && !e.Disconnect? && !e.ChannelOpened? && e.id == id {
        TouchEnds(limits, sys, e);
      }
    }
  }

  lemma CancelEnds(s: Stream, total: nat, up: bool, notifyOnly: bool)
    requires EndInSight(s) && (notifyOnly ==> s.ended)
    ensures EndInSight(Cancel(s, total, up, notifyOnly).0)
  {
  }

  /** A reader of a call nothing comes for has an end to look at. */
  predicate EndInSight(s: Stream) {
    s.alive && !s.pending ==> s.ended
  }

  lemma FailEnds(s: Stream, total: nat, up: bool, error: StreamError)
    ensures EndInSight(Fail(s, total, up, error).0)
  {
    var (d, left) := DropBuffer(s.(error := Some(error), ended := true), total);
    CancelEnds(d, left, up, true);
  }

  lemma AcceptEnds(limits: Limits, s: Stream, total: nat, up: bool, body: Bytes, final: bool)
    requires s.pending
    ensures EndInSight(Accept(limits, s, total, up, body, final).0)
  {
    FailEnds(s, total, up, Backpressure);
  }

  lemma ChunkEnds(limits: Limits, s: Stream, total: nat, up: bool, d: Delivery)
    requires s.pending
    ensures EndInSight(OnChunk(limits, s, total, up, d).0)
  {
    FailEnds(s, total, up, SequenceGap);
    AcceptEnds(limits, if d.seqNo.Some? then s.(lastSeq := d.seqNo) else s, total, up, d.body, d.final);
  }

  lemma SendEndEnds(s: Stream, total: nat, up: bool, verdict: SendState)
    requires EndInSight(s)
    ensures EndInSight(SendEnd(s, total, up, verdict).0)
  {
    if verdict.SendFailed? {
      var failed := s.(send := verdict, error := Some(PublishFailed(verdict.ambiguous)), ended := true);
      CancelEnds(failed, total, up, true);
    }
  }

  lemma TouchEnds(limits: Limits, sys: System, e: Event)
    requires Enabled(sys, e) && !e.Open? && !e.Disconnect? && !e.ChannelOpened?
    requires Sound(limits, sys.streams[e.id]) && EndInSight(sys.streams[e.id])
    ensures EndInSight(Touch(limits, sys, e).0)
  {
    var s, total, up := sys.streams[e.id], sys.total, sys.channelUp;
    match e
    case Arrive(_, d) => ChunkEnds(limits, s, total, up, d);
    case Idle(_) => CancelEnds(s.(error := Some(IdleTimeout), ended := true), total, up, true);
    case CallerStops(_) => CancelEnds(s, total, up, false);
    case SendEnds(_, verdict) => SendEndEnds(s, total, up, verdict);
    case _ =>
  }
}
