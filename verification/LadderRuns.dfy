/** The ladder terminates: without settlement failures or channel loss each hop uses
    up one retry, so the handler runs at most `maxRetries + 1` times. */
module LadderRuns {
  import opened Ladder
  import opened LadderSafety

  /** How often the request has been handed to the handler. */
  function Runs(deliveries: seq<Delivery>, request: nat): nat {
    if deliveries == [] then 0
    else Runs(deliveries[..|deliveries| - 1], request)
         + if deliveries[|deliveries| - 1].msg.request == request then 1 else 0
  }

  lemma {:induction false} RunsUpdate(deliveries: seq<Delivery>, t: nat, d: Delivery, request: nat)
    requires t < |deliveries| && d.msg == deliveries[t].msg
    ensures Runs(deliveries[t := d], request) == Runs(deliveries, request)
  {
    var n := |deliveries| - 1;
    if t == n {
      assert deliveries[t := d][..n] == deliveries[..n];
    } else {
      assert deliveries[t := d][..n] == deliveries[..n][t := d];
      RunsUpdate(deliveries[..n], t, d, request);
    }
  }

  lemma {:induction false} NoRuns(deliveries: seq<Delivery>, request: nat)
    requires forall t :: 0 <= t < |deliveries| ==> deliveries[t].msg.request != request
    ensures Runs(deliveries, request) == 0
  {
    if deliveries != [] { NoRuns(deliveries[..|deliveries| - 1], request); }
  }

  lemma RunsAppend(deliveries: seq<Delivery>, d: Delivery, request: nat)
    ensures Runs(deliveries + [d], request) == Runs(deliveries, request) + if d.msg.request == request then 1 else 0
  {
    assert (deliveries + [d])[..|deliveries|] == deliveries;
  }

  /** A delivery whose handling may still produce another copy. */
  predicate Active(d: Delivery) { Running(d) && d.phase != AckingParked }

  predicate Queued(c: Copy) { c.place == Main || c.place == Retry }

  /** A step of a run without settlement failure or channel loss, each request
      published once. */
  predicate Smooth(s: State, e: Event) {
    match e
    case Publish(r, _) => r !in s.sent
    case ChannelCloses => false
    case PublishEnds(t, outcome) => outcome == Confirmed || !(t < |s.deliveries| && Copying(s.deliveries[t]))
    case _ => true
  }

  predicate AllSmooth(service: Service, events: seq<Event>) {
    events == []
    || (AllSmooth(service, events[..|events| - 1])
        && Smooth(Run(service, events[..|events| - 1]), events[|events| - 1]))
  }

  /** Each request has one way forward: a queued copy whose count is the number of
      runs so far, or one active delivery that is the latest of them. */
  ghost predicate Chain(service: Service, s: State) {
    && (forall id :: id in s.copies ==> CopyOk(s, id))
    && (forall t :: 0 <= t < |s.deliveries| ==> DeliveryOk(s, t))
    && OneWay(s)
    && (forall r :: Runs(s.deliveries, r) <= service.maxRetries + 1)
  }

  ghost predicate OneWay(s: State) {
    && (forall a, b :: a in s.copies && b in s.copies && a != b && Queued(s.copies[a]) && Queued(s.copies[b]) ==>
          s.copies[a].msg.request != s.copies[b].msg.request)
    && (forall id, t :: id in s.copies && Queued(s.copies[id]) && 0 <= t < |s.deliveries| && Active(s.deliveries[t]) ==>
          s.copies[id].msg.request != s.deliveries[t].msg.request)
    && (forall t, u :: 0 <= t < u < |s.deliveries| && Active(s.deliveries[t]) && Active(s.deliveries[u]) ==>
          s.deliveries[t].msg.request != s.deliveries[u].msg.request)
  }

  ghost predicate CopyOk(s: State, id: nat)
    requires id in s.copies
  {
    var c := s.copies[id];
    c.msg.request in s.sent && (Queued(c) ==> Count(c.msg) == Runs(s.deliveries, c.msg.request))
  }

  ghost predicate DeliveryOk(s: State, t: nat)
    requires t < |s.deliveries|
  {
    var d := s.deliveries[t];
    && d.msg.request in s.sent && d.channel == s.channel
    && d.phase != Pausing && d.phase != Requeueing
    && (Active(d) ==> Count(d.msg) + 1 == Runs(s.deliveries, d.msg.request))
  }

  /** Nothing about the runs so far changes between the two states. */
  ghost predicate SameRuns(s: State, t: State) {
    forall r :: Runs(t.deliveries, r) == Runs(s.deliveries, r)
  }

  lemma MoveRuns(s: State, t: nat, d: Delivery)
    requires t < |s.deliveries| && d.msg == s.deliveries[t].msg
    ensures SameRuns(s, At(s, t, d))
  {
    forall r
      ensures Runs(At(s, t, d).deliveries, r) == Runs(s.deliveries, r)
    {
      RunsUpdate(s.deliveries, t, d, r);
    }
  }

  /** Moving one delivery on, to a phase no more active than before. */
  lemma MoveChain(service: Service, s: State, t: nat, d: Delivery)
    requires Chain(service, s) && t < |s.deliveries|
    requires d.msg == s.deliveries[t].msg && d.channel == s.deliveries[t].channel
    requires Active(d) ==> Active(s.deliveries[t])
    requires d.phase != Pausing && d.phase != Requeueing
    ensures Chain(service, At(s, t, d))
  {
    MoveRuns(s, t, d);
    var after := At(s, t, d);
    assert forall u :: 0 <= u < |s.deliveries| ==>
      after.deliveries[u].msg == s.deliveries[u].msg && (Active(after.deliveries[u]) ==> Active(s.deliveries[u]));
    assert OneWay(after);
    forall u | 0 <= u < |after.deliveries|
      ensures DeliveryOk(after, u)
    {
      assert DeliveryOk(s, u);
    }
    forall id | id in s.copies
      ensures CopyOk(after, id)
    {
      assert CopyOk(s, id);
    }
  }

  /** Dropping copies, or moving one from the retry queue to the main queue. */
  lemma CopiesChain(service: Service, s: State, copies: map<nat, Copy>, excused: set<nat>)
    requires Chain(service, s)
    requires forall id :: id in copies ==>
          id in s.copies && copies[id].msg == s.copies[id].msg && (Queued(copies[id]) ==> Queued(s.copies[id]))
    ensures Chain(service, s.(copies := copies, excused := excused))
  {
    var after := s.(copies := copies, excused := excused);
    forall u | 0 <= u < |s.deliveries|
      ensures DeliveryOk(after, u)
    {
      assert DeliveryOk(s, u);
    }
    forall id | id in copies
      ensures CopyOk(after, id)
    {
      assert CopyOk(s, id);
    }
  }

  lemma PublishChain(service: Service, s: State, r: nat, wantsReply: bool)
    requires Inv(service, s) && Chain(service, s) && r !in s.sent
    ensures Chain(service, Step(service, s, Publish(r, wantsReply)))
  {
    var after := Step(service, s, Publish(r, wantsReply));
    forall u | 0 <= u < |s.deliveries|
      ensures s.deliveries[u].msg.request != r && DeliveryOk(after, u)
    {
      assert DeliveryOk(s, u);
    }
    NoRuns(s.deliveries, r);
    forall id | id in after.copies
      ensures CopyOk(after, id)
    {
      if id != s.next { assert CopyOk(s, id); }
    }
    assert forall id :: id in s.copies ==> CopyOk(s, id);
  }

  /** The delivery takes the place of the copy it was made from. */
  lemma DeliverOneWay(service: Service, s: State, id: nat)
    requires OneWay(s) && Enabled(s, Deliver(id))
    ensures OneWay(Step(service, s, Deliver(id)))
  {
    var after := Step(service, s, Deliver(id));
    assert forall u :: 0 <= u < |s.deliveries| ==> after.deliveries[u] == s.deliveries[u];
    assert after.deliveries[|s.deliveries|].msg == s.copies[id].msg;
    assert forall i :: i in after.copies && i != id ==> after.copies[i] == s.copies[i];
  }

  lemma DeliverChain(service: Service, s: State, id: nat)
    requires Inv(service, s) && Chain(service, s) && Enabled(s, Deliver(id))
    ensures Chain(service, Step(service, s, Deliver(id)))
  {
    var after := Step(service, s, Deliver(id));
    var m := s.copies[id].msg;
    forall r
      ensures Runs(after.deliveries, r) == Runs(s.deliveries, r) + if m.request == r then 1 else 0
    {
      RunsAppend(s.deliveries, after.deliveries[|s.deliveries|], r);
    }
    assert GenuineCopy(service, s.copies[id]) && CopyOk(s, id);
    assert forall u :: 0 <= u < |s.deliveries| ==> after.deliveries[u] == s.deliveries[u];
    DeliverOneWay(service, s, id);
    forall u | 0 <= u < |after.deliveries|
      ensures DeliveryOk(after, u)
    {
      if u < |s.deliveries| { assert DeliveryOk(s, u); }
    }
    forall i | i in after.copies
      ensures CopyOk(after, i)
    {
      assert CopyOk(s, i);
    }
  }

  /** A copy is stored for a request that has no other way forward. */
  lemma StoreChain(service: Service, s: State, m: Msg, place: Place)
    requires Inv(service, s) && Chain(service, s) && !place.Held? && m.request in s.sent
    requires place == Main || place == Retry ==>
      && Count(m) == Runs(s.deliveries, m.request)
      && (forall id :: id in s.copies && Queued(s.copies[id]) ==> s.copies[id].msg.request != m.request)
      && (forall t :: 0 <= t < |s.deliveries| && Active(s.deliveries[t]) ==> s.deliveries[t].msg.request != m.request)
    ensures Chain(service, Store(s, m, place))
  {
    var after := Store(s, m, place);
    forall u | 0 <= u < |s.deliveries|
      ensures DeliveryOk(after, u)
    {
      assert DeliveryOk(s, u);
    }
    forall id | id in after.copies
      ensures CopyOk(after, id)
    {
      if id != s.next { assert CopyOk(s, id); }
    }
  }

  /** A delivery that stops being active leaves its request without a way forward. */
  lemma LeavesNoWay(service: Service, s: State, t: nat, d: Delivery)
    requires Chain(service, s) && t < |s.deliveries| && Active(s.deliveries[t]) && !Active(d)
    requires d.msg == s.deliveries[t].msg
    ensures forall id :: id in s.copies && Queued(s.copies[id]) ==> s.copies[id].msg.request != d.msg.request
    ensures forall u :: 0 <= u < |s.deliveries| && Active(At(s, t, d).deliveries[u]) ==>
      At(s, t, d).deliveries[u].msg.request != d.msg.request
    ensures Count(d.msg) + 1 == Runs(s.deliveries, d.msg.request) && d.msg.request in s.sent
  {
    assert DeliveryOk(s, t);
    forall u | 0 <= u < |s.deliveries| && Active(At(s, t, d).deliveries[u])
      ensures At(s, t, d).deliveries[u].msg.request != d.msg.request
    {
      assert u != t && Active(s.deliveries[u]);
    }
  }

  /** The confirmed retry or dead-letter copy takes over from its delivery. */
  lemma CopiedChain(service: Service, s: State, t: nat)
    requires Inv(service, s) && Chain(service, s) && t < |s.deliveries|
    requires Copying(s.deliveries[t])
    ensures Chain(service, AfterPublish(service, s, t, Confirmed))
  {
    var d := s.deliveries[t];
    assert Disciplined(service, s.channel, d) by { assert DeliveryOk(s, t); }
    var moved := d.(phase := AckingParked, parked := true);
    var m, place := CopyOf(service, d), if d.phase == Retrying then Retry else Dlq;
    MoveChain(service, s, t, moved);
    MoveInv(service, s, t, moved);
    MoveRuns(s, t, moved);
    LeavesNoWay(service, s, t, moved);
    StoreChain(service, At(s, t, moved), m, place);
    CopiedIs(service, s, t);
  }

  lemma CopiedIs(service: Service, s: State, t: nat)
    requires t < |s.deliveries| && Copying(s.deliveries[t])
    ensures var d := s.deliveries[t];
      AfterPublish(service, s, t, Confirmed)
        == Store(At(s, t, d.(phase := AckingParked, parked := true)), CopyOf(service, d),
          if d.phase == Retrying then Retry else Dlq)
  {
  }

  lemma NeverPausing(service: Service, s: State, t: nat)
    requires Chain(service, s) && t < |s.deliveries|
    ensures s.deliveries[t].phase != Pausing && s.deliveries[t].phase != Requeueing
  {
    assert DeliveryOk(s, t);
  }

  lemma StepChain(service: Service, s: State, e: Event)
    requires service.maxRetries > 0 && Inv(service, s) && Chain(service, s) && Smooth(s, e)
    ensures Chain(service, Step(service, s, e))
  {
    if Enabled(s, e) {
      match e
      case Publish(r, wantsReply) => PublishChain(service, s, r, wantsReply);
      case Deliver(id) => DeliverChain(service, s, id);
      case TtlExpires(id) => CopiesChain(service, s, Step(service, s, e).copies, s.excused);
      case TtlLoses(id) => CopiesChain(service, s, s.copies - {id}, s.excused);
      case PublishEnds(t, outcome) => PublishedChain(service, s, t, outcome);
      case SettleEnds(t) => SettledChain(service, s, t);
      case _ => MovesChain(service, s, e);
    }
  }

  lemma MovesChain(service: Service, s: State, e: Event)
    requires service.maxRetries > 0 && Inv(service, s) && Chain(service, s) && Smooth(s, e) && Enabled(s, e) && Moves(e)
    ensures Chain(service, Step(service, s, e))
  {
    StepMoves(service, s, e);
    MovedDisciplined(service, s, e);
    NeverPausing(service, s, e.tag);
    MovedRuns(service, s.deliveries[e.tag], e);
    MoveChain(service, s, e.tag, Moved(service, s.deliveries[e.tag], e));
  }

  lemma MovedRuns(service: Service, d: Delivery, e: Event)
    requires Moves(e) && !e.PauseEnds? && d.phase != Pausing && d.phase != Requeueing
    requires e.ReplyStops? || e.GeneratorRaises? ==> d.phase == Replying
    requires e.HandlerEnds? ==> d.phase == Handling
    ensures var after := Moved(service, d, e);
      && (Active(after) ==> Active(d)) && after.phase != Pausing && after.phase != Requeueing
  {
  }

  lemma PublishedChain(service: Service, s: State, t: nat, outcome: Outcome)
    requires service.maxRetries > 0 && Inv(service, s) && Chain(service, s)
    requires Smooth(s, PublishEnds(t, outcome)) && Enabled(s, PublishEnds(t, outcome))
    ensures Chain(service, AfterPublish(service, s, t, outcome))
  {
    var d := s.deliveries[t];
    if Copying(d) {
      CopiedChain(service, s, t);
    } else {
      RepliedChain(service, s, t, outcome);
    }
  }

  lemma RepliedChain(service: Service, s: State, t: nat, outcome: Outcome)
    requires service.maxRetries > 0 && Inv(service, s) && Chain(service, s)
    requires Enabled(s, PublishEnds(t, outcome)) && !Copying(s.deliveries[t])
    ensures Chain(service, AfterPublish(service, s, t, outcome))
  {
    var d := s.deliveries[t];
    var after := Published(service, Open(s, d), d, outcome);
    OnErrorDisciplined(service, s.channel, d, false, false);
    MoveChain(service, s, t, after);
  }

  lemma SettledChain(service: Service, s: State, t: nat)
    requires service.maxRetries > 0 && Inv(service, s) && Chain(service, s) && Enabled(s, SettleEnds(t))
    ensures Chain(service, AfterSettle(service, s, t))
  {
    var d, after := s.deliveries[t], AfterSettle(service, s, t);
    assert DeliveryOk(s, t);
    MoveChain(service, s, t, after.deliveries[t]);
    CopiesChain(service, At(s, t, after.deliveries[t]), after.copies, after.excused);
  }

  lemma {:induction false} RunChain(service: Service, events: seq<Event>)
    requires service.maxRetries > 0 && AllSmooth(service, events)
    ensures Chain(service, Run(service, events))
  {
    if events != [] {
      RunChain(service, events[..|events| - 1]);
      RunInv(service, events[..|events| - 1]);
      StepChain(service, Run(service, events[..|events| - 1]), events[|events| - 1]);
    }
  }

  /** In every run without settlement failure or channel loss a request's handler
      runs at most `maxRetries + 1` times, and while another run can come, the
      retries left in its copy are exactly those not used up. */
  lemma HandlerRunsBounded(service: Service, events: seq<Event>, request: nat)
    requires service.maxRetries > 0 && AllSmooth(service, events)
    ensures var s := Run(service, events);
            && Runs(s.deliveries, request) <= service.maxRetries + 1
            && (forall id :: id in s.copies && Queued(s.copies[id]) && s.copies[id].msg.request == request ==>
                  service.maxRetries - Count(s.copies[id].msg) == service.maxRetries - Runs(s.deliveries, request) >= 0)
  {
    RunChain(service, events);
    RunInv(service, events);
    var s := Run(service, events);
    forall id | id in s.copies
      ensures GenuineCopy(service, s.copies[id])
    {
    }
  }
}
