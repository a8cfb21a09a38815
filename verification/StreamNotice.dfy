/** The cancel notice of a streaming call, over every interleaving. */
module StreamNotice {
  import opened Common
  import opened StreamSteps
  import opened StreamSystem

  /** The send came to an end that may have left the request with a producer. */
  predicate MayRun(s: Stream) {
    s.task == Done && (s.send == Sent || s.send == SendFailed(true))
  }

  /** `told`: the channel has been up all along, so no notice was swallowed. */
  ghost predicate Disciplined(s: Stream, told: bool) {
    && s.notices <= 1
    && (s.notices == 1 ==> s.cancelled && MayRun(s) && !s.notifyQueued)
    && (s.notifyQueued ==> s.cancelled && (s.task == Running || s.task == Done))
    && (s.task == Withdrawn ==> s.cancelled)
    && (s.task == Withdrawn || s.task == NoTask ==> s.send == Unsent)
    && (s.task == Running && s.cancelled ==> s.send != Unsent && s.notifyQueued)
    && (s.task == Done ==> s.send != Sending)
    && (s.cancelled ==> s.released)
    && (s.pending ==> s.alive && !s.released)
    && (told && s.cancelled && MayRun(s) && !s.notifyQueued ==> s.notices == 1)
  }

  /** The part of a call the discipline is about. */
  predicate SameCourse(s: Stream, t: Stream) {
    && s.alive == t.alive && s.cancelled == t.cancelled && s.released == t.released && s.pending == t.pending
    && s.send == t.send && s.task == t.task && s.notifyQueued == t.notifyQueued && s.notices == t.notices
  }

  lemma CancelDisciplined(s: Stream, total: nat, up: bool, told: bool, notifyOnly: bool)
    requires Disciplined(s, told) && (told ==> up)
    ensures Disciplined(Cancel(s, total, up, notifyOnly).0, told)
  {
  }

  lemma ReleaseDisciplined(s: Stream, total: nat, told: bool)
    requires Disciplined(s, told)
    ensures Disciplined(Release(s, total).0, told)
  {
  }

  lemma ChunkDisciplined(limits: Limits, s: Stream, total: nat, up: bool, told: bool, d: Delivery)
    requires Disciplined(s, told) && s.pending && (told ==> up)
    ensures Disciplined(OnChunk(limits, s, total, up, d).0, told)
  {
    if d.seqNo.Some? && d.seqNo.value > Expected(s) {
      FailDisciplined(s, total, up, told, SequenceGap);
    } else if !(d.seqNo.Some? && d.seqNo.value < Expected(s)) && Overflows(limits, s, total, d.body) {
      FailDisciplined(if d.seqNo.Some? then s.(lastSeq := d.seqNo) else s, total, up, told, Backpressure);
    } else {
      assert SameCourse(s, OnChunk(limits, s, total, up, d).0);
    }
  }

  lemma FailDisciplined(s: Stream, total: nat, up: bool, told: bool, error: StreamError)
    requires Disciplined(s, told) && s.pending && (told ==> up)
    ensures Disciplined(Fail(s, total, up, error).0, told)
  {
    var (d, left) := DropBuffer(s.(error := Some(error), ended := true), total);
    CancelDisciplined(d, left, up, told, true);
  }

  lemma SendEndDisciplined(s: Stream, total: nat, up: bool, told: bool, verdict: SendState)
    requires Disciplined(s, told) && s.task == Running && (told ==> up)
    requires || (s.send == Unsent && verdict == SendFailed(true))
             || (s.send == Sending && (verdict == Sent || verdict.SendFailed?))
    ensures Disciplined(SendEnd(s, total, up, verdict).0, told)
  {
    if verdict.SendFailed? && !s.released {
      var failed := s.(send := verdict, error := Some(PublishFailed(verdict.ambiguous)), ended := true);
      CancelDisciplined(failed, total, up, told, true);
      ReleaseDisciplined(failed, total, told);
    }
  }

  lemma NextDisciplined(s: Stream, total: nat, told: bool)
    requires Disciplined(s, told)
    ensures Disciplined(Next(s, total).0, told)
  {
    ReleaseDisciplined(s, total, told);
  }

  lemma OnIdleDisciplined(s: Stream, total: nat, up: bool, told: bool)
    requires Disciplined(s, told) && (told ==> up)
    ensures Disciplined(OnIdle(s, total, up).0, told)
  {
    if !s.ended {
      CancelDisciplined(s.(error := Some(IdleTimeout), ended := true), total, up, told, true);
    }
  }

  /** Any step of any call keeps it disciplined. */
  lemma TouchDisciplined(limits: Limits, sys: System, e: Event, told: bool)
    requires Enabled(sys, e) && !e.Open? && !e.Disconnect? && !e.ChannelOpened?
    requires Disciplined(sys.streams[e.id], told) && (told ==> sys.channelUp)
    ensures Disciplined(Touch(limits, sys, e).0, told)
  {
    var s, total, up := sys.streams[e.id], sys.total, sys.channelUp;
    match e
    case Arrive(_, d) => ChunkDisciplined(limits, s, total, up, told, d);
    case PullOne(_) => NextDisciplined(s, total, told);
    case Idle(_) => OnIdleDisciplined(s, total, up, told);
    case CallerStops(_) => CancelDisciplined(s, total, up, told, false);
    case SendEnds(_, verdict) => SendEndDisciplined(s, total, up, told, verdict);
    case SendStarts(_) =>
    case RunNotify(_) =>
    case Drop(_) =>
  }

  /** What every run keeps of all calls together. */
  ghost predicate Lawful(limits: Limits, sys: System) {
    Inv(limits, sys) && forall i :: 0 <= i < |sys.streams| ==> Disciplined(sys.streams[i], false)
  }

  lemma StepLawful(limits: Limits, sys: System, e: Event)
    requires Lawful(limits, sys)
    ensures Lawful(limits, Step(limits, sys, e))
  {
    StepInv(limits, sys, e);
    if Enabled(sys, e) && !e.Open? && !e.Disconnect? && !e.ChannelOpened? {
      TouchDisciplined(limits, sys, e, false);
    }
  }

  lemma {:induction false} RunDisciplined(limits: Limits, events: seq<Event>)
    ensures var sys := Run(limits, events);
            && (DisconnectFree(events) ==> sys.channelUp)
            && forall i :: 0 <= i < |sys.streams| ==> Disciplined(sys.streams[i], DisconnectFree(events))
  {
    if events != [] {
      var before, e := events[..|events| - 1], events[|events| - 1];
      RunDisciplined(limits, before);
      var sys := Run(limits, before);
      assert DisconnectFree(events) ==> DisconnectFree(before);
      if Enabled(sys, e) && !e.Open? && !e.Disconnect? && !e.ChannelOpened? {
        TouchDisciplined(limits, sys, e, DisconnectFree(events));
      }
    }
  }

  /** In every run a call sends at most one notice, only once its send has settled
      in a way that may have left the request with a producer; so never for a call
      withdrawn unsent, nacked or returned unroutable. With the channel up, a
      cancelled call whose request may be running always sends it. */
  lemma NoticeProtocol(limits: Limits, events: seq<Event>, id: nat)
    requires id < |Run(limits, events).streams|
    ensures var s := Run(limits, events).streams[id];
            && s.notices <= 1
            && (s.notices == 1 ==> s.cancelled && MayRun(s))
            && (s.task == Withdrawn || s.send == SendFailed(false) || s.task == Running ==> s.notices == 0)
            && (DisconnectFree(events) && s.cancelled && MayRun(s) && !s.notifyQueued ==> s.notices == 1)
  {
    RunDisciplined(limits, events);
  }

  /** A readiness wait that fails counts as ambiguous, so a notice can go out for a
      request that was never handed to the broker. */
  lemma NoticeForUnsentRequest(limits: Limits)
    ensures var events := [Open(false), SendEnds(0, SendFailed(true)), RunNotify(0)];
            && (forall e :: e in events ==> !e.SendStarts?)
            && |Run(limits, events).streams| == 1 && Run(limits, events).streams[0].notices == 1
  {
    var e1, e2, e3 := Open(false), SendEnds(0, SendFailed(true)), RunNotify(0);
    var events := [e1, e2, e3];
    assert events[..2] == [e1, e2] && [e1, e2][..1] == [e1] && [e1][..0] == [];
    assert Run(limits, [e1]).streams == [Opened(false)];
  }

  /** The call got past its first wait for readiness at some point of the run. */
  predicate SendingBegan(limits: Limits, events: seq<Event>, id: nat) {
    events != []
    && (var before, e := events[..|events| - 1], events[|events| - 1];
        var sys := Run(limits, before);
        SendingBegan(limits, before, id) || (e == SendStarts(id) && Enabled(sys, e) && !sys.streams[id].cancelled))
  }

  /** The call's wait for readiness failed at some point of the run. */
  predicate NeverReady(limits: Limits, events: seq<Event>, id: nat) {
    events != []
    && (var before, e := events[..|events| - 1], events[|events| - 1];
        var sys := Run(limits, before);
        || NeverReady(limits, before, id)
        || (e == SendEnds(id, SendFailed(true)) && Enabled(sys, e) && sys.streams[id].send == Unsent))
  }

  /** What the send state remembers of the two. */
  predicate Remembers(send: SendState, began: bool, unready: bool) {
    match send
    case Unsent => !began && !unready
    case SendFailed(true) => began != unready
    case _ => began && !unready
  }

  lemma CancelSend(s: Stream, total: nat, up: bool, notifyOnly: bool)
    ensures Cancel(s, total, up, notifyOnly).0.send == s.send
  {
  }

  lemma FailSend(s: Stream, total: nat, up: bool, error: StreamError)
    ensures Fail(s, total, up, error).0.send == s.send
  {
    var (dropped, rest) := DropBuffer(s.(error := Some(error), ended := true), total);
    CancelSend(dropped, rest, up, true);
  }

  lemma AcceptSend(limits: Limits, s: Stream, total: nat, up: bool, body: Bytes, final: bool)
    ensures Accept(limits, s, total, up, body, final).0.send == s.send
  {
    FailSend(s, total, up, Backpressure);
  }

  lemma ChunkSend(limits: Limits, s: Stream, total: nat, up: bool, d: Delivery)
    ensures OnChunk(limits, s, total, up, d).0.send == s.send
  {
    FailSend(s, total, up, SequenceGap);
    AcceptSend(limits, if d.seqNo.Some? then s.(lastSeq := d.seqNo) else s, total, up, d.body, d.final);
  }

  /** Only the sending task's own steps change the send state. */
  lemma SendKept(limits: Limits, sys: System, e: Event)
    requires Enabled(sys, e) && !e.Open? && !e.Disconnect? && !e.ChannelOpened? && !e.SendStarts? && !e.SendEnds?
    ensures Touch(limits, sys, e).0.send == sys.streams[e.id].send
  {
    var s, total, up := sys.streams[e.id], sys.total, sys.channelUp;
    match e
    case Arrive(_, d) => ChunkSend(limits, s, total, up, d);
    case Idle(_) => CancelSend(s.(error := Some(IdleTimeout), ended := true), total, up, true);
    case CallerStops(_) => CancelSend(s, total, up, false);
    case _ =>
  }

  lemma SendEndSend(s: Stream, total: nat, up: bool, verdict: SendState)
    ensures SendEnd(s, total, up, verdict).0.send == verdict
  {
    CancelSend(s.(send := verdict, error := Some(PublishFailed(true)), ended := true), total, up, true);
  }

  lemma RememberStep(limits: Limits, sys: System, e: Event, began: bool, unready: bool)
    requires Enabled(sys, e) && !e.Open? && !e.Disconnect? && !e.ChannelOpened?
    requires Remembers(sys.streams[e.id].send, began, unready)
    ensures Remembers(Touch(limits, sys, e).0.send,
              began || (e.SendStarts? && !sys.streams[e.id].cancelled),
              unready || (e.SendEnds? && e.verdict == SendFailed(true) && sys.streams[e.id].send == Unsent))
  {
    match e
    case SendStarts(_) =>
    case SendEnds(_, verdict) => SendEndSend(sys.streams[e.id], sys.total, sys.channelUp, verdict);
    case _ => SendKept(limits, sys, e);
  }

  /** Nothing has happened yet to a call that is not open. */
  lemma {:induction false} NotBeforeOpen(limits: Limits, events: seq<Event>, id: nat)
    requires |Run(limits, events).streams| <= id
    ensures !SendingBegan(limits, events, id) && !NeverReady(limits, events, id)
  {
    if events != [] {
      var before, e := events[..|events| - 1], events[|events| - 1];
      NotBeforeOpen(limits, before, id);
    }
  }

  lemma {:induction false} RunRemembers(limits: Limits, events: seq<Event>, id: nat)
    requires id < |Run(limits, events).streams|
    ensures Remembers(Run(limits, events).streams[id].send, SendingBegan(limits, events, id),
      NeverReady(limits, events, id))
  {
    var before, e := events[..|events| - 1], events[|events| - 1];
    var sys := Run(limits, before);
    if id >= |sys.streams| {
      NotBeforeOpen(limits, before, id);
    } else {
      RunRemembers(limits, before, id);
      if Enabled(sys, e) && !e.Open? && !e.Disconnect? && !e.ChannelOpened? && e.id == id {
        RememberStep(limits, sys, e, SendingBegan(limits, before, id), NeverReady(limits, before, id));
      }
    }
  }
}
