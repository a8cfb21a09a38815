/** End to end: whatever the network loses, repeats or reorders, a reader sees the
    beginning of what was produced, and a clean end means all of it. */
module StreamSafety {
  import opened Common
  import opened StreamFraming
  import opened StreamSteps
  import opened StreamSystem

  function NonEmpty(chunks: seq<Bytes>): seq<Bytes> {
    if chunks == [] then []
    else (if chunks[0] == [] then [] else [chunks[0]]) + NonEmpty(chunks[1..])
  }

  /** The non-empty chunks among the first n frames of a stream. */
  function Carried(chunks: seq<Bytes>, n: nat): seq<Bytes>
    requires n <= FrameCount(chunks)
  {
    if chunks == [] then [] else NonEmpty(chunks[..n])
  }

  lemma {:induction false} NonEmptyAppend(a: seq<Bytes>, b: seq<Bytes>)
    ensures NonEmpty(a + b) == NonEmpty(a) + NonEmpty(b)
  {
    if a == [] {
      assert a + b == b;
    } else {
      assert (a + b)[1..] == a[1..] + b;
      NonEmptyAppend(a[1..], b);
    }
  }

  lemma CarriedNext(chunks: seq<Bytes>, n: nat)
    requires n < FrameCount(chunks)
    ensures var body := FrameAt(chunks, n).body;
            Carried(chunks, n + 1) == Carried(chunks, n) + if body == [] then [] else [body]
  {
    if chunks != [] {
      assert chunks[..n + 1] == chunks[..n] + [chunks[n]];
      NonEmptyAppend(chunks[..n], [chunks[n]]);
    }
  }

  lemma CarriedPrefix(chunks: seq<Bytes>, n: nat)
    requires n <= FrameCount(chunks)
    ensures Carried(chunks, n) <= NonEmpty(chunks)
    ensures n == FrameCount(chunks) ==> Carried(chunks, n) == NonEmpty(chunks)
  {
    if chunks != [] {
      assert chunks == chunks[..n] + chunks[n..];
      NonEmptyAppend(chunks[..n], chunks[n..]);
    }
  }

  /** A delivery drawn from the frames of this stream. */
  ghost predicate Drawn(chunks: seq<Bytes>, d: Delivery) {
    exists i: nat :: i < FrameCount(chunks) && IsFrame(chunks, d, i)
  }

  predicate IsFrame(chunks: seq<Bytes>, d: Delivery, i: nat)
    requires i < FrameCount(chunks)
  {
    d == Delivery(Some(i), FrameAt(chunks, i).body, FrameAt(chunks, i).final)
  }

  /** Reads on: no error, not stopped by the caller, not dropped. */
  predicate Live(s: Stream) {
    s.alive && s.error == None && !s.callerStopped
  }

  ghost predicate Prefix(chunks: seq<Bytes>, s: Stream) {
    Expected(s) <= FrameCount(chunks) && s.given <= Carried(chunks, Expected(s))
  }

  /** A live call holds the stream exactly up to the last frame it accepted, and it
      has ended if and only if that was the last frame of all. */
  ghost predicate Faithful(chunks: seq<Bytes>, s: Stream) {
    && Prefix(chunks, s)
    && (Live(s) ==> s.given + s.chunks == Carried(chunks, Expected(s)))
    && (Live(s) ==> (s.ended <==> Expected(s) == FrameCount(chunks)))
    && (Live(s) && !s.pending ==> s.ended)
    && (s.pending ==> Live(s) && !s.released)
    && (s.cancelled ==> s.released)
    && (s.released || s.callerStopped ==> s.chunks == [])
  }

  lemma CancelFaithful(chunks: seq<Bytes>, s: Stream, total: nat, up: bool, notifyOnly: bool)
    requires Prefix(chunks, s) && (s.cancelled ==> Faithful(chunks, s))
    requires s.released ==> s.chunks == [] && !s.pending
    requires notifyOnly ==> s.error.Some?
    ensures Faithful(chunks, Cancel(s, total, up, notifyOnly).0)
  {
  }

  lemma FailFaithful(chunks: seq<Bytes>, s: Stream, total: nat, up: bool, error: StreamError)
    requires Faithful(chunks, s) && s.pending
    ensures Faithful(chunks, Fail(s, total, up, error).0)
  {
    var (d, left) := DropBuffer(s.(error := Some(error), ended := true), total);
    CancelFaithful(chunks, d, left, up, true);
  }

  lemma ChunkFaithful(chunks: seq<Bytes>, limits: Limits, s: Stream, total: nat, up: bool, d: Delivery)
    requires Faithful(chunks, s) && s.pending && Drawn(chunks, d)
    ensures Faithful(chunks, OnChunk(limits, s, total, up, d).0)
  {
    var i: nat :| i < FrameCount(chunks) && IsFrame(chunks, d, i);
    var n := Expected(s);
    if i > n {
      FailFaithful(chunks, s, total, up, SequenceGap);
    } else if i == n {
      CarriedNext(chunks, n);
      var accepted := s.(lastSeq := d.seqNo);
      assert Expected(accepted) == n + 1;
      if Overflows(limits, s, total, d.body) {
        var (dropped, left) := DropBuffer(accepted.(error := Some(Backpressure), ended := true), total);
        CancelFaithful(chunks, dropped, left, up, true);
      } else {
        assert s.given + (s.chunks + [d.body]) == (s.given + s.chunks) + [d.body];
      }
    }
  }

  lemma NextFaithful(chunks: seq<Bytes>, s: Stream, total: nat)
    requires Faithful(chunks, s) && s.alive
    ensures Faithful(chunks, Next(s, total).0)
    ensures Next(s, total).2 == End && !s.callerStopped ==> s.given == NonEmpty(chunks)
  {
    CarriedPrefix(chunks, Expected(s));
    if s.error == None && s.chunks != [] {
      assert s.given + s.chunks == (s.given + [s.chunks[0]]) + s.chunks[1..];
    }
  }

  lemma SendEndFaithful(chunks: seq<Bytes>, s: Stream, total: nat, up: bool, verdict: SendState)
    requires Faithful(chunks, s) && s.task == Running
    ensures Faithful(chunks, SendEnd(s, total, up, verdict).0)
  {
    if verdict.SendFailed? && !s.released {
      CancelFaithful(chunks, s.(send := verdict, error := Some(PublishFailed(verdict.ambiguous)), ended := true),
        total, up, true);
    }
  }

  lemma OnIdleFaithful(chunks: seq<Bytes>, s: Stream, total: nat, up: bool)
    requires Faithful(chunks, s) && !s.released
    ensures Faithful(chunks, OnIdle(s, total, up).0)
  {
    if !s.ended {
      CancelFaithful(chunks, s.(error := Some(IdleTimeout), ended := true), total, up, true);
    }
  }

  lemma QuietFaithful(chunks: seq<Bytes>, s: Stream, total: nat, up: bool)
    requires Faithful(chunks, s)
    ensures Faithful(chunks, SendStart(s)) && Faithful(chunks, NotifyLater(s, up))
    ensures Faithful(chunks, Forget(s, total).0) && Faithful(chunks, OnDisconnected(s))
  {
  }

  lemma TouchFaithful(chunks: seq<Bytes>, limits: Limits, sys: System, e: Event)
    requires Enabled(sys, e) && !e.Open? && !e.Disconnect? && !e.ChannelOpened?
    requires Faithful(chunks, sys.streams[e.id]) && (e.Arrive? ==> Drawn(chunks, e.delivery))
    ensures Faithful(chunks, Touch(limits, sys, e).0)
  {
    var s, total, up := sys.streams[e.id], sys.total, sys.channelUp;
    match e
    case Arrive(_, d) => ChunkFaithful(chunks, limits, s, total, up, d);
    case PullOne(_) => NextFaithful(chunks, s, total);
    case Idle(_) => OnIdleFaithful(chunks, s, total, up);
    case CallerStops(_) => CancelFaithful(chunks, s, total, up, false);
    case SendEnds(_, verdict) => SendEndFaithful(chunks, s, total, up, verdict);
    case SendStarts(_) => QuietFaithful(chunks, s, total, up);
    case RunNotify(_) => QuietFaithful(chunks, s, total, up);
    case Drop(_) => QuietFaithful(chunks, s, total, up);
  }

  /** Every delivery to a call is drawn from the frames of the chunks produced for it. */
  ghost predicate Genuine(produced: nat -> seq<Bytes>, events: seq<Event>) {
    forall e :: e in events && e.Arrive? ==> Drawn(produced(e.id), e.delivery)
  }

  lemma {:induction false} RunFaithful(limits: Limits, produced: nat -> seq<Bytes>, events: seq<Event>)
    requires Genuine(produced, events)
    ensures var sys := Run(limits, events);
            forall i :: 0 <= i < |sys.streams| ==> Faithful(produced(i), sys.streams[i])
  {
    if events != [] {
      var before, e := events[..|events| - 1], events[|events| - 1];
      RunFaithful(limits, produced, before);
      var sys := Run(limits, before);
      if Enabled(sys, e) {
        match e
        case Open(_) =>
        case ChannelOpened =>
        case Disconnect =>
          forall i | 0 <= i < |sys.streams|
            ensures Faithful(produced(i), OnDisconnected(sys.streams[i]))
          {
            QuietFaithful(produced(i), sys.streams[i], sys.total, true);
          }
        case _ => TouchFaithful(produced(e.id), limits, sys, e);
      }
    }
  }

  /** In every run whose deliveries are drawn from the producers' frames: what a
      caller has been given is a prefix of the non-empty chunks, and when its next
      pull ends the iteration without an error and without the caller having
      stopped it, it has been given all of them. */
  lemma StreamSafety(limits: Limits, produced: nat -> seq<Bytes>, events: seq<Event>, id: nat)
    requires Genuine(produced, events) && id < |Run(limits, events).streams|
    ensures var sys := Run(limits, events);
            var s := sys.streams[id];
            && s.given <= NonEmpty(produced(id))
            && (Enabled(sys, PullOne(id)) && Next(s, sys.total).2 == End && !s.callerStopped ==>
                  s.given == NonEmpty(produced(id)))
  {
    RunFaithful(limits, produced, events);
    var sys := Run(limits, events);
    CarriedPrefix(produced(id), Expected(sys.streams[id]));
    if Enabled(sys, PullOne(id)) { NextFaithful(produced(id), sys.streams[id], sys.total); }
  }

  /** Whatever the producer handed to the broker, lost or not, is drawn from the
      frames of its chunks. */
  lemma SentIsDrawn(chunks: seq<Bytes>, sent: seq<Frame>, i: nat)
    requires Begins(sent, chunks) && i < |sent|
    ensures Drawn(chunks, Delivery(Some(sent[i].seqNo), sent[i].body, sent[i].final))
  {
    assert IsFrame(chunks, Delivery(Some(sent[i].seqNo), sent[i].body, sent[i].final), i);
  }
}
