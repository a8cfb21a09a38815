/** The producing end of a streaming reply. */
module StreamFraming {
  import opened Common

  datatype Frame = Frame(seqNo: nat, body: Bytes, final: bool)

  /** What one pull on the handler's generator yields. */
  datatype Pull = Chunk(body: Bytes) | Stop | SelfCancelled | Raise

  /** How a publish ended for the producer. A failed one may have stored its frame. */
  datatype Fate = Confirmed | Failed

  datatype Outcome = Completed | Cancelled | Propagated

  /** The i-th frame of the reply stream a reader should see for these chunks. */
  function FrameAt(chunks: seq<Bytes>, i: nat): Frame
    requires i < FrameCount(chunks)
  {
    Frame(i, if chunks == [] then [] else chunks[i], i == FrameCount(chunks) - 1)
  }

  function FrameCount(chunks: seq<Bytes>): nat {
    if chunks == [] then 1 else |chunks|
  }

  /** `sent` is how that stream begins. */
  ghost predicate Begins(sent: seq<Frame>, chunks: seq<Bytes>) {
    |sent| <= FrameCount(chunks) && forall i :: 0 <= i < |sent| ==> sent[i] == FrameAt(chunks, i)
  }

  /** `chunks` is what the generator yields before it does anything else. */
  ghost predicate Yields(pulls: seq<Pull>, chunks: seq<Bytes>) {
    && |chunks| <= |pulls|
    && (forall i :: 0 <= i < |chunks| ==> pulls[i] == Chunk(chunks[i]))
    && (|chunks| < |pulls| ==> !pulls[|chunks|].Chunk?)
  }

  /** Every generator yields exactly one sequence of chunks. */
  function Produced(pulls: seq<Pull>): (chunks: seq<Bytes>)
    ensures Yields(pulls, chunks)
    ensures forall other :: Yields(pulls, other) ==> other == chunks
  {
    if pulls == [] || !pulls[0].Chunk? then [] else [pulls[0].body] + Produced(pulls[1..])
  }

  /** How the generator ends: a script that runs out has stopped. */
  function Ending(pulls: seq<Pull>, produced: nat): Pull {
    if produced < |pulls| then pulls[produced] else Stop
  }

  ghost predicate Uncancelled(cancelled: nat -> bool, n: nat) {
    forall k: nat :: k < n ==> !cancelled(k)
  }

  ghost predicate AllConfirmed(fate: nat -> Fate, n: nat) {
    forall k: nat :: k < n ==> fate(k) == Confirmed
  }

  /** How many frames are out when `pulled` chunks have been pulled. */
  function PublishedBefore(pulled: nat): nat {
    if pulled == 0 then 0 else pulled - 1
  }

  /** The k-th check is the first to see a cancellation, with everything published by
      then confirmed. A generator that raised is not checked for. */
  ghost predicate StopsAt(pulls: seq<Pull>, chunks: seq<Bytes>, cancelled: nat -> bool, fate: nat -> Fate, k: nat) {
    && k <= |chunks| && cancelled(k) && Uncancelled(cancelled, k)
    && AllConfirmed(fate, PublishedBefore(k))
    && (k == |chunks| ==> Ending(pulls, k) != Raise)
  }

  /** Publishes the chunks with one of look-ahead. `cancelled(k)` is what the k-th
      cancellation check sees and `fate(k)` how the k-th publish ends. */
  method PublishStreamReply(pulls: seq<Pull>, ghost chunks: seq<Bytes>, cancelled: nat -> bool, fate: nat -> Fate)
    returns (sent: seq<Frame>, outcome: Outcome)
    requires Yields(pulls, chunks)
    // Whatever happens, what was handed to the broker is the stream's beginning.
    ensures Begins(sent, chunks)
    // The stream is complete exactly when nothing interfered.
    ensures outcome == Completed <==>
            Ending(pulls, |chunks|) == Stop && Uncancelled(cancelled, |chunks| + 1)
            && AllConfirmed(fate, FrameCount(chunks))
    ensures outcome == Completed ==> |sent| == FrameCount(chunks)
    // It stops short exactly when a check sees a cancellation before anything fails,
    // and leaves a proper, non-final beginning.
    ensures outcome == Cancelled <==> exists k :: StopsAt(pulls, chunks, cancelled, fate, k)
    ensures forall k :: StopsAt(pulls, chunks, cancelled, fate, k) ==> |sent| == PublishedBefore(k) < FrameCount(chunks)
    // Anything else ends with the first publish that failed, or with the generator.
    ensures outcome == Propagated ==>
              if AllConfirmed(fate, |sent|) then
                !Ending(pulls, |chunks|).Stop? && |sent| == PublishedBefore(|chunks|)
              else
                sent != [] && AllConfirmed(fate, |sent| - 1) && fate(|sent| - 1) == Failed
  {
    var seqNo, buffered, pulled := 0, None, 0;
    sent := [];
    while pulled < |pulls| && pulls[pulled] != Stop
      invariant pulled <= |chunks|
      invariant seqNo == PublishedBefore(pulled)
      invariant buffered == if pulled == 0 then None else Some(chunks[pulled - 1])
      invariant |sent| == seqNo && Begins(sent, chunks)
      invariant Uncancelled(cancelled, pulled) && AllConfirmed(fate, seqNo)
      decreases |pulls| - pulled
    {
      match pulls[pulled] {
        case SelfCancelled =>
          assert cancelled(pulled) ==> StopsAt(pulls, chunks, cancelled, fate, pulled);
          outcome := if cancelled(pulled) then Cancelled else Propagated;
          return;
        case Raise =>
          outcome := Propagated;
          return;
        case Chunk(body) =>
          if cancelled(pulled) {
            assert StopsAt(pulls, chunks, cancelled, fate, pulled);
            outcome := Cancelled;
            return;
          }
          if buffered.Some? {
            sent := sent + [Frame(seqNo, buffered.value, false)];
            if fate(seqNo) == Failed {
              outcome := Propagated;
              return;
            }
            seqNo := seqNo + 1;
          }
          buffered := Some(body);
          pulled := pulled + 1;
      }
    }
    if cancelled(pulled) {
      assert StopsAt(pulls, chunks, cancelled, fate, pulled);
      outcome := Cancelled;
      return;
    }
    sent := sent + [if buffered.Some? then Frame(seqNo, buffered.value, true) else Frame(0, [], true)];
    outcome := if fate(seqNo) == Failed then Propagated else Completed;
  }
}
