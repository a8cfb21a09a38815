/** One pending streaming call at the caller, step by step. A step is what runs
    between two suspension points; the bytes buffered across all calls are
    threaded through as `total`. */
module StreamSteps {
  import opened Common

  datatype Limits = Limits(maxChunks: nat, maxBytes: nat, maxTotal: nat)

  datatype StreamError =
    | SequenceGap
    | Backpressure
    | IdleTimeout
    | Disconnected
    | PublishFailed(ambiguous: bool)

  /** Where the request is on its way to the broker. */
  datatype SendState = Unsent | Sending | Sent | SendFailed(ambiguous: bool)

  /** The task that sends the request. */
  datatype TaskState = NoTask | Running | Withdrawn | Done

  datatype Stream = Stream(
    // the entry the dispatcher fills
    chunks: seq<Bytes>,
    buffered: nat,
    lastSeq: Option<nat>,
    ended: bool,
    error: Option<StreamError>,
    pending: bool,            // the dispatcher still routes replies to it
    // the reply object the caller iterates
    alive: bool,              // not yet dropped by the caller
    cancelled: bool,
    released: bool,
    send: SendState,
    task: TaskState,
    notifyQueued: bool,       // a notice waits for the task to finish
    notices: nat,             // cancel notices handed to the broker
    // history
    given: seq<Bytes>,        // chunks returned to the caller
    callerStopped: bool       // the caller closed or aborted the call
  )

  datatype Delivery = Delivery(seqNo: Option<nat>, body: Bytes, final: bool)

  datatype Pulled = Value(body: Bytes) | Raised(error: StreamError) | End | Parked

  function Opened(abortedBefore: bool): Stream {
    Stream([], 0, None, abortedBefore, None, !abortedBefore, true, false, false, Unsent,
           if abortedBefore then NoTask else Running, false, 0, [], abortedBefore)
  }

  function Minus(a: nat, b: nat): nat { if b <= a then a - b else 0 }

  function DropBuffer(s: Stream, total: nat): (Stream, nat) {
    (s.(chunks := [], buffered := 0), Minus(total, s.buffered))
  }

  function Release(s: Stream, total: nat): (Stream, nat) {
    if s.released then (s, total)
    else DropBuffer(s.(released := true, pending := false), total)
  }

  /** Whether a request may have reached a producer. */
  predicate MayHaveReached(send: SendState) {
    send == Sending || send == Sent || send == SendFailed(true)
  }

  function Notify(s: Stream, channelUp: bool): Stream {
    if MayHaveReached(s.send) && channelUp then s.(notices := s.notices + 1) else s
  }

  /** Tells the producer to stop: now, once the send has settled, or not at all
      when the request can still be withdrawn. */
  function Inform(s: Stream, channelUp: bool): (r: Stream)
    ensures r == s.(task := r.task, notifyQueued := r.notifyQueued, notices := r.notices)
  {
    if s.task != Running then Notify(s, channelUp)
    else if s.send == Unsent then s.(task := Withdrawn)
    else s.(notifyQueued := true)
  }

  function Cancel(s: Stream, total: nat, channelUp: bool, notifyOnly: bool): (Stream, nat) {
    if s.cancelled then (s, total)
    else
      var (r, rest) := Release(s.(cancelled := true), total);
      (Inform(if notifyOnly then r else r.(ended := true, callerStopped := true), channelUp), rest)
  }

  function Fail(s: Stream, total: nat, channelUp: bool, error: StreamError): (Stream, nat) {
    var (d, rest) := DropBuffer(s.(error := Some(error), ended := true), total);
    if d.alive then Cancel(d, rest, channelUp, true) else (d, rest)
  }

  function Expected(s: Stream): nat {
    if s.lastSeq == None then 0 else s.lastSeq.value + 1
  }

  predicate Overflows(limits: Limits, s: Stream, total: nat, body: Bytes) {
    && body != []
    && (|| |s.chunks| + 1 > limits.maxChunks
        || s.buffered + |body| > limits.maxBytes
        || total + |body| > limits.maxTotal)
  }

  /** Buffers a body that is new, unless a bound says the reader is not keeping up. */
  function Accept(limits: Limits, s: Stream, total: nat, channelUp: bool, body: Bytes, final: bool): (Stream, nat) {
    if body == [] then (s.(ended := s.ended || final), total)
    else if Overflows(limits, s, total, body) then Fail(s, total, channelUp, Backpressure)
    else
      (s.(chunks := s.chunks + [body], buffered := s.buffered + |body|, ended := s.ended || final),
       total + |body|)
  }

  /** A reply body arriving for a pending call. */
  function OnChunk(limits: Limits, s: Stream, total: nat, channelUp: bool, d: Delivery): (Stream, nat) {
    if d.seqNo.Some? && d.seqNo.value < Expected(s) then
      (s.(ended := s.ended || d.final), total)
    else if d.seqNo.Some? && d.seqNo.value > Expected(s) then
      Fail(s, total, channelUp, SequenceGap)
    else
      Accept(limits, if d.seqNo.Some? then s.(lastSeq := d.seqNo) else s, total, channelUp, d.body, d.final)
  }

  /** One look at the buffer by the consumer. */
  function Next(s: Stream, total: nat): (Stream, nat, Pulled) {
    if s.error.Some? then
      var (r, rest) := Release(s, total);
      (r, rest, Raised(s.error.value))
    else if s.chunks != [] then
      var body := s.chunks[0];
      (s.(chunks := s.chunks[1..], buffered := Minus(s.buffered, |body|), given := s.given + [body]),
       Minus(total, |body|), Value(body))
    else if s.ended then
      var (r, rest) := Release(s, total);
      (r, rest, End)
    else (s, total, Parked)
  }

  function OnIdle(s: Stream, total: nat, channelUp: bool): (Stream, nat) {
    if s.ended then (s, total)
    else Cancel(s.(error := Some(IdleTimeout), ended := true), total, channelUp, true)
  }

  /** The sending task gets past readiness. */
  function SendStart(s: Stream): Stream {
    if s.cancelled then s.(task := Done) else s.(send := Sending)
  }

  /** The request could not be sent: nothing is coming, or a producer must be told. */
  function Abandon(s: Stream, total: nat, channelUp: bool, ambiguous: bool): (Stream, nat) {
    var failed := s.(error := Some(PublishFailed(ambiguous)), ended := true);
    if ambiguous then Cancel(failed, total, channelUp, true) else Release(failed, total)
  }

  /** The sending task ends, with the broker's verdict or a failed readiness wait. */
  function SendEnd(s: Stream, total: nat, channelUp: bool, verdict: SendState): (Stream, nat) {
    var s := s.(send := verdict);
    if verdict.SendFailed? && !s.released then
      var (r, rest) := Abandon(s, total, channelUp, verdict.ambiguous);
      (r.(task := Done), rest)
    else (s.(task := Done), total)
  }

  /** The finished task's callback. */
  function NotifyLater(s: Stream, channelUp: bool): Stream {
    Notify(s.(notifyQueued := false), channelUp)
  }

  function OnDisconnected(s: Stream): Stream {
    if s.pending then s.(error := Some(Disconnected), ended := true, pending := false) else s
  }

  function Forget(s: Stream, total: nat): (Stream, nat) {
    var s := s.(alive := false);
    if s.pending then DropBuffer(s.(pending := false), total) else (s, total)
  }
}
