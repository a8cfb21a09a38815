/** The bound on unconfirmed publishes of one channel: a counter, a list of parked
    publishers, and every interleaving of arrivals, confirms, cancellations and a
    channel close. */
module ConfirmWindow {

  /** Where a publisher is. A cancelled one still has to be resumed to leave. */
  datatype Phase =
    | Parked            // waiting on its future
    | Woken             // its future is resolved, the task not resumed yet
    | ParkedCancelled   // cancelled while waiting; its future is done
    | WokenCancelled    // cancelled after it was woken
    | Admitted          // between admission and settlement
    | Over

  /** Publishers are numbered in the order they arrive. */
  datatype Window = Window(inFlight: int, waiters: seq<nat>, phases: seq<Phase>)

  datatype Event =
    | Arrive
    | Resume(p: nat)
    | CancelTask(p: nat)
    | Settle(p: nat)
    | Close

  predicate Enabled(w: Window, e: Event) {
    match e
    case Arrive => true
    case Close => true
    case Resume(p) =>
      p < |w.phases| && (w.phases[p] == Woken || w.phases[p] == ParkedCancelled || w.phases[p] == WokenCancelled)
    case CancelTask(p) => p < |w.phases| && (w.phases[p] == Parked || w.phases[p] == Woken)
    case Settle(p) => p < |w.phases| && w.phases[p] == Admitted
  }

  function Without(waiters: seq<nat>, p: nat): seq<nat> {
    if waiters == [] then []
    else if waiters[0] == p then waiters[1..]
    else [waiters[0]] + Without(waiters[1..], p)
  }

  /** The look at the bound that a publisher takes on arrival and after each wake-up. */
  function Admit(bound: nat, w: Window, p: nat): Window
    requires p < |w.phases|
  {
    if w.inFlight >= bound then w.(waiters := w.waiters + [p], phases := w.phases[p := Parked])
    else w.(inFlight := w.inFlight + 1, phases := w.phases[p := Admitted])
  }

  /** Drops waiters from the front until one whose future is still open is woken. */
  function WakeOne(w: Window): Window
    decreases |w.waiters|
  {
    if w.waiters == [] then w
    else
      var p := w.waiters[0];
      var rest := w.(waiters := w.waiters[1..]);
      if p < |w.phases| && w.phases[p] == Parked then rest.(phases := w.phases[p := Woken]) else WakeOne(rest)
  }

  function WakeAll(w: Window): Window
    decreases |w.waiters|
  {
    if w.waiters == [] then w
    else
      var p := w.waiters[0];
      var rest := w.(waiters := w.waiters[1..]);
      WakeAll(if p < |w.phases| && w.phases[p] == Parked then rest.(phases := w.phases[p := Woken]) else rest)
  }

  function Step(bound: nat, w: Window, e: Event): Window {
    if !Enabled(w, e) then w
    else match e
      case Arrive => Admit(bound, w.(phases := w.phases + [Over]), |w.phases|)
      case Resume(p) =>
        var left := w.(waiters := Without(w.waiters, p));
        if w.phases[p] == Woken then Admit(bound, left, p) else left.(phases := w.phases[p := Over])
      case CancelTask(p) =>
        w.(phases := w.phases[p := if w.phases[p] == Parked then ParkedCancelled else WokenCancelled])
      case Settle(p) => WakeOne(w.(inFlight := w.inFlight - 1, phases := w.phases[p := Over]))
      case Close => WakeAll(w)
  }

  function Run(bound: nat, events: seq<Event>): Window {
    if events == [] then Window(0, [], [])
    else Step(bound, Run(bound, events[..|events| - 1]), events[|events| - 1])
  }

  // ------------------------------------------------------------------ invariant

  function Count(phases: seq<Phase>, phase: Phase): nat {
    if phases == [] then 0 else (if phases[0] == phase then 1 else 0) + Count(phases[1..], phase)
  }

  lemma {:induction false} CountUpdate(phases: seq<Phase>, p: nat, to: Phase, phase: Phase)
    requires p < |phases|
    ensures Count(phases[p := to], phase)
         == Count(phases, phase) - (if phases[p] == phase then 1 else 0) + (if to == phase then 1 else 0)
  {
    if p == 0 {
      assert phases[p := to][1..] == phases[1..];
    } else {
      assert phases[p := to][1..] == phases[1..][p - 1 := to];
      CountUpdate(phases[1..], p - 1, to, phase);
    }
  }

  lemma {:induction false} CountAppend(phases: seq<Phase>, to: Phase, phase: Phase)
    ensures Count(phases + [to], phase) == Count(phases, phase) + if to == phase then 1 else 0
  {
    if phases == [] {
      assert phases + [to] == [to] && [to][1..] == [];
    } else {
      assert (phases + [to])[1..] == phases[1..] + [to];
      CountAppend(phases[1..], to, phase);
    }
  }

  /** Every publisher waiting on an open future is in the list, nobody is in it
      twice, and whoever is in it has at most been cancelled. */
  ghost predicate Listed(w: Window) {
    && (forall p :: 0 <= p < |w.phases| && w.phases[p] == Parked ==> p in w.waiters)
    && (forall i :: 0 <= i < |w.waiters| ==>
          w.waiters[i] < |w.phases| && (w.phases[w.waiters[i]] == Parked || w.phases[w.waiters[i]] == ParkedCancelled))
    && (forall i, j :: 0 <= i < j < |w.waiters| ==> w.waiters[i] != w.waiters[j])
  }

  ghost predicate Inv(bound: nat, w: Window) {
    && w.inFlight == Count(w.phases, Admitted) <= bound
    && Listed(w)
  }

  /** A publisher is parked although the publishes in flight and the publishers
      already woken leave room: nobody is due to wake it. */
  ghost predicate Starved(bound: nat, w: Window) {
    Parked in w.phases && w.inFlight + Count(w.phases, Woken) < bound
  }

  lemma {:induction false} WithoutKeeps(waiters: seq<nat>, p: nat)
    requires forall i, j :: 0 <= i < j < |waiters| ==> waiters[i] != waiters[j]
    ensures var left := Without(waiters, p);
            && (forall q :: q in left <==> q in waiters && q != p)
            && (forall i, j :: 0 <= i < j < |left| ==> left[i] != left[j])
  {
    if waiters != [] {
      assert waiters == [waiters[0]] + waiters[1..];
      assert waiters[0] !in waiters[1..];
      if waiters[0] != p {
        WithoutKeeps(waiters[1..], p);
        assert Without(waiters, p)[1..] == Without(waiters[1..], p);
      }
    }
  }

  lemma AdmitKeeps(bound: nat, w: Window, p: nat)
    requires p < |w.phases| && Inv(bound, w) && p !in w.waiters && w.phases[p] != Admitted
    ensures Inv(bound, Admit(bound, w, p))
    ensures Starved(bound, Admit(bound, w, p)) ==> Starved(bound, w)
  {
    var to := if w.inFlight >= bound then Parked else Admitted;
    CountUpdate(w.phases, p, to, Admitted);
    CountUpdate(w.phases, p, to, Woken);
    var after := Admit(bound, w, p);
    assert forall q :: 0 <= q < |after.phases| ==> after.phases[q] == if q == p then to else w.phases[q];
    assert after.waiters == if to == Parked then w.waiters + [p] else w.waiters;
  }

  lemma {:induction false} WakeOneKeeps(w: Window)
    requires Listed(w)
    ensures var after := WakeOne(w);
            && Listed(after) && after.inFlight == w.inFlight
            && Count(after.phases, Admitted) == Count(w.phases, Admitted)
            && (Parked in after.phases ==> Count(after.phases, Woken) == Count(w.phases, Woken) + 1)
    decreases |w.waiters|
  {
    if w.waiters != [] {
      var p := w.waiters[0];
      var rest := w.(waiters := w.waiters[1..]);
      assert w.waiters == [p] + rest.waiters;
      if w.phases[p] == Parked {
        CountUpdate(w.phases, p, Woken, Woken);
        CountUpdate(w.phases, p, Woken, Admitted);
        WokenListed(w);
      } else {
        WakeOneKeeps(rest);
      }
    }
  }

  /** The first waiter, woken, is off the list; the others stay on it. */
  lemma WokenListed(w: Window)
    requires Listed(w) && w.waiters != []
    ensures Listed(w.(waiters := w.waiters[1..], phases := w.phases[w.waiters[0] := Woken]))
  {
    assert w.waiters == [w.waiters[0]] + w.waiters[1..];
  }

  lemma {:induction false} WakeAllKeeps(w: Window)
    requires Listed(w)
    ensures var after := WakeAll(w);
            && Listed(after) && after.inFlight == w.inFlight
            && Count(after.phases, Admitted) == Count(w.phases, Admitted)
            && Parked !in after.phases
    decreases |w.waiters|
  {
    if w.waiters != [] {
      var p := w.waiters[0];
      var rest := w.(waiters := w.waiters[1..]);
      assert w.waiters == [p] + rest.waiters;
      CountUpdate(w.phases, p, Woken, Admitted);
      WakeAllKeeps(if w.phases[p] == Parked then rest.(phases := w.phases[p := Woken]) else rest);
    }
  }

  /** The one step that loses a wake-up: a publisher is cancelled between being
      woken and being resumed, while others wait and the window is exactly spoken for. */
  predicate LosesWakeUp(bound: nat, w: Window, e: Event) {
    && e.CancelTask? && Enabled(w, e) && w.phases[e.p] == Woken
    && Parked in w.phases && w.inFlight + Count(w.phases, Woken) == bound
  }

  /** Every step keeps the bound and the list; an unstarved window becomes starved
      exactly by a lost wake-up. */
  lemma StepKeeps(bound: nat, w: Window, e: Event)
    requires Inv(bound, w)
    ensures Inv(bound, Step(bound, w, e))
    ensures !Starved(bound, w) ==> (Starved(bound, Step(bound, w, e)) <==> LosesWakeUp(bound, w, e))
  {
    if Enabled(w, e) {
      match e
      case Arrive => ArriveKeeps(bound, w);
      case Resume(p) => ResumeKeeps(bound, w, p);
      case CancelTask(p) => CancelKeeps(bound, w, p);
      case Settle(p) => SettleKeeps(bound, w, p);
      case Close => WakeAllKeeps(w);
    }
  }

  /** Waking adds no parked publisher. */
  lemma {:induction false} ParkedRemain(w: Window)
    ensures Parked in WakeOne(w).phases ==> Parked in w.phases
    decreases |w.waiters|
  {
    if w.waiters != [] && !(w.waiters[0] < |w.phases| && w.phases[w.waiters[0]] == Parked) {
      ParkedRemain(w.(waiters := w.waiters[1..]));
    }
  }

  lemma ArriveKeeps(bound: nat, w: Window)
    requires Inv(bound, w)
    ensures Inv(bound, Step(bound, w, Arrive))
    ensures Starved(bound, Step(bound, w, Arrive)) ==> Starved(bound, w)
  {
    var grown := w.(phases := w.phases + [Over]);
    CountAppend(w.phases, Over, Admitted);
    CountAppend(w.phases, Over, Woken);
    assert forall q :: 0 <= q < |w.phases| ==> grown.phases[q] == w.phases[q];
    AdmitKeeps(bound, grown, |w.phases|);
  }

  lemma SettleKeeps(bound: nat, w: Window, p: nat)
    requires Inv(bound, w) && Enabled(w, Settle(p))
    ensures Inv(bound, Step(bound, w, Settle(p)))
    ensures Starved(bound, Step(bound, w, Settle(p))) ==> Starved(bound, w)
  {
    var settled := w.(inFlight := w.inFlight - 1, phases := w.phases[p := Over]);
    CountUpdate(w.phases, p, Over, Admitted);
    CountUpdate(w.phases, p, Over, Woken);
    assert forall q :: 0 <= q < |w.phases| ==> settled.phases[q] == if q == p then Over else w.phases[q];
    WakeOneKeeps(settled);
    ParkedRemain(settled);
  }

  /** A publisher that is resumed takes itself off the list first. */
  lemma LeaveKeeps(bound: nat, w: Window, p: nat)
    requires Inv(bound, w) && Enabled(w, Resume(p))
    ensures var left := w.(waiters := Without(w.waiters, p));
      Inv(bound, left) && p !in left.waiters && (Starved(bound, left) <==> Starved(bound, w))
  {
    WithoutKeeps(w.waiters, p);
    var left := w.(waiters := Without(w.waiters, p));
    forall i | 0 <= i < |left.waiters|
      ensures left.waiters[i] in w.waiters && left.waiters[i] != p
    {
      assert left.waiters[i] in left.waiters;
    }
    assert Listed(left);
  }

  /** A cancelled publisher that is resumed leaves for good. */
  lemma GoneKeeps(bound: nat, w: Window, p: nat)
    requires Inv(bound, w) && p < |w.phases| && p !in w.waiters
    requires w.phases[p] == ParkedCancelled || w.phases[p] == WokenCancelled
    ensures var after := w.(phases := w.phases[p := Over]);
      Inv(bound, after) && (Starved(bound, after) ==> Starved(bound, w))
  {
    CountUpdate(w.phases, p, Over, Admitted);
    CountUpdate(w.phases, p, Over, Woken);
    var after := w.phases[p := Over];
    assert forall q :: 0 <= q < |after| ==> after[q] == if q == p then Over else w.phases[q];
  }

  lemma ResumeKeeps(bound: nat, w: Window, p: nat)
    requires Inv(bound, w) && Enabled(w, Resume(p))
    ensures Inv(bound, Step(bound, w, Resume(p)))
    ensures Starved(bound, Step(bound, w, Resume(p))) ==> Starved(bound, w)
  {
    var left := w.(waiters := Without(w.waiters, p));
    LeaveKeeps(bound, w, p);
    if w.phases[p] == Woken {
      AdmitKeeps(bound, left, p);
    } else {
      GoneKeeps(bound, left, p);
    }
  }

  lemma CancelKeeps(bound: nat, w: Window, p: nat)
    requires Inv(bound, w) && Enabled(w, CancelTask(p))
    ensures Inv(bound, Step(bound, w, CancelTask(p)))
    ensures !Starved(bound, w) ==>
              (Starved(bound, Step(bound, w, CancelTask(p))) <==> LosesWakeUp(bound, w, CancelTask(p)))
  {
    var to := if w.phases[p] == Parked then ParkedCancelled else WokenCancelled;
    CountUpdate(w.phases, p, to, Admitted);
    CountUpdate(w.phases, p, to, Woken);
    var after := w.phases[p := to];
    assert forall q :: 0 <= q < |after| ==> after[q] == if q == p then to else w.phases[q];
  }

  /** In every interleaving the publishes between admission and settlement are what
      the counter says, and never more than the bound; and as long as no woken
      publisher is cancelled, whenever one is parked the window is spoken for. */
  lemma {:induction false} WindowHolds(bound: nat, events: seq<Event>)
    ensures var w := Run(bound, events);
            && 0 <= w.inFlight == Count(w.phases, Admitted) <= bound
            && Inv(bound, w)
            && (NoWokenCancelled(bound, events) && Parked in w.phases ==> w.inFlight + Count(w.phases, Woken) >= bound)
  {
    if events != [] {
      WindowHolds(bound, events[..|events| - 1]);
      StepKeeps(bound, Run(bound, events[..|events| - 1]), events[|events| - 1]);
    }
  }

  /** No event of the run cancels a publisher that has been woken and not resumed. */
  predicate NoWokenCancelled(bound: nat, events: seq<Event>) {
    events == []
    || (var before, e := events[..|events| - 1], events[|events| - 1];
        NoWokenCancelled(bound, before)
        && !(e.CancelTask? && e.p < |Run(bound, before).phases| && Run(bound, before).phases[e.p] == Woken))
  }

  const CROWD: seq<Event> := [Arrive, Arrive, Arrive]

  lemma ThreeArrive()
    ensures Run(1, CROWD) == Window(1, [1, 2], [Admitted, Parked, Parked])
  {
    RunAppend(1, [], Arrive);
    RunAppend(1, [Arrive], Arrive);
    RunAppend(1, [Arrive, Arrive], Arrive);
    assert [] + [Arrive] == [Arrive] && [Arrive] + [Arrive] == [Arrive, Arrive] && [Arrive, Arrive] + [Arrive] == CROWD;
    assert Run(1, [Arrive]) == Window(1, [], [Admitted]);
    assert Run(1, [Arrive, Arrive]) == Window(1, [1], [Admitted, Parked]);
  }

  /** With a bound of one: the first publisher settles and wakes the second, which is
      cancelled before it resumes; the third stays parked with nothing in flight. */
  lemma LostWakeUp() returns (events: seq<Event>)
    ensures Run(1, events) == Window(0, [2], [Over, WokenCancelled, Parked])
    ensures Starved(1, Run(1, events))
  {
    var settled := CROWD + [Settle(0)];
    ThreeArrive();
    RunAppend(1, CROWD, Settle(0));
    assert Run(1, settled) == Window(0, [2], [Over, Woken, Parked]);
    RunAppend(1, settled, CancelTask(1));
    events := settled + [CancelTask(1)];
    var w := Run(1, events);
    assert w == Window(0, [2], [Over, WokenCancelled, Parked]);
    assert w.phases[2] == Parked;
    CountIs(w.phases[0], w.phases[1], w.phases[2]);
  }

  lemma RunAppend(bound: nat, events: seq<Event>, e: Event)
    ensures Run(bound, events + [e]) == Step(bound, Run(bound, events), e)
  {
    assert (events + [e])[..|events|] == events;
  }

  lemma CountIs(a: Phase, b: Phase, c: Phase)
    requires a != Woken && b != Woken && c != Woken
    ensures Count([a, b, c], Woken) == 0
  {
    assert [a, b, c][1..] == [b, c] && [b, c][1..] == [c] && [c][1..] == [];
    assert Count([c], Woken) == 0;
    assert Count([b, c], Woken) == Count([b, c][1..], Woken);
  }

  // ------------------------------------------------------------ who is woken, who leaves

  /** The place in the list of the first waiter whose future is still open. */
  function FirstOpen(w: Window): (i: nat)
    ensures i <= |w.waiters|
    ensures forall j :: 0 <= j < i ==> !(w.waiters[j] < |w.phases| && w.phases[w.waiters[j]] == Parked)
    ensures i < |w.waiters| ==> w.waiters[i] < |w.phases| && w.phases[w.waiters[i]] == Parked
    decreases |w.waiters|
  {
    if w.waiters == [] || (w.waiters[0] < |w.phases| && w.phases[w.waiters[0]] == Parked) then 0
    else 1 + FirstOpen(w.(waiters := w.waiters[1..]))
  }

  lemma {:induction false} WakesFirst(w: Window)
    ensures WakeOne(w) == WokenAt(w, FirstOpen(w))
    decreases |w.waiters|
  {
    if w.waiters != [] && !(w.waiters[0] < |w.phases| && w.phases[w.waiters[0]] == Parked) {
      var rest := w.(waiters := w.waiters[1..]);
      WakesFirst(rest);
      var i := FirstOpen(rest);
      if i < |rest.waiters| { assert rest.waiters[i + 1..] == w.waiters[i + 2..]; }
    }
  }

  /** What is left once the waiter at place `i`, if there is one, has been woken. */
  function WokenAt(w: Window, i: nat): Window
    requires i < |w.waiters| ==> w.waiters[i] < |w.phases|
  {
    if i >= |w.waiters| then w.(waiters := [])
    else w.(waiters := w.waiters[i + 1..], phases := w.phases[w.waiters[i] := Woken])
  }

  /** The publisher's publish is over and its place free. */
  function PlaceFreed(w: Window, p: nat): Window
    requires p < |w.phases|
  {
    w.(inFlight := w.inFlight - 1, phases := w.phases[p := Over])
  }

  /** A settlement frees one place and wakes exactly the publisher that has waited the
      longest with its future open, if there is one; nobody else is touched. */
  lemma SettleWakesFirst(bound: nat, w: Window, p: nat)
    requires Listed(w) && Enabled(w, Settle(p))
    ensures Step(bound, w, Settle(p)) == WokenAt(PlaceFreed(w, p), FirstOpen(w))
    ensures Parked in w.phases ==> FirstOpen(w) < |w.waiters|
  {
    NotWaiting(w, p);
    WakesFirst(PlaceFreed(w, p));
    SameFirst(w, PlaceFreed(w, p));
    if Parked in w.phases { SomebodyWaits(w); }
  }

  lemma NotWaiting(w: Window, p: nat)
    requires Listed(w) && p < |w.phases| && w.phases[p] == Admitted
    ensures p !in w.waiters
    ensures SameWaiting(w, PlaceFreed(w, p))
  {
  }

  lemma SomebodyWaits(w: Window)
    requires Listed(w) && Parked in w.phases
    ensures FirstOpen(w) < |w.waiters|
  {
    var q :| 0 <= q < |w.phases| && w.phases[q] == Parked;
    var i :| 0 <= i < |w.waiters| && w.waiters[i] == q;
  }

  /** The same waiters, as open as before. */
  ghost predicate SameWaiting(w: Window, v: Window) {
    && v.waiters == w.waiters && |v.phases| == |w.phases|
    && forall i :: 0 <= i < |w.waiters| && w.waiters[i] < |w.phases| ==>
      v.phases[w.waiters[i]] == w.phases[w.waiters[i]]
  }

  lemma {:induction false} SameFirst(w: Window, v: Window)
    requires SameWaiting(w, v)
    ensures FirstOpen(v) == FirstOpen(w)
    decreases |w.waiters|
  {
    if w.waiters != [] { SameFirst(w.(waiters := w.waiters[1..]), v.(waiters := v.waiters[1..])); }
  }

  lemma {:induction false} WakesAll(w: Window)
    ensures var after := WakeAll(w);
      && after.waiters == [] && after.inFlight == w.inFlight && |after.phases| == |w.phases|
      && forall q :: 0 <= q < |w.phases| ==>
        after.phases[q] == if q in w.waiters && w.phases[q] == Parked then Woken else w.phases[q]
    decreases |w.waiters|
  {
    if w.waiters != [] {
      var p := w.waiters[0];
      var rest := w.(waiters := w.waiters[1..]);
      assert w.waiters == [p] + rest.waiters;
      WakesAll(if p < |w.phases| && w.phases[p] == Parked then rest.(phases := w.phases[p := Woken]) else rest);
    }
  }

  /** A channel close wakes everybody who is parked and touches nobody else. */
  lemma CloseWakesAll(bound: nat, w: Window)
    requires Inv(bound, w)
    ensures var after := Step(bound, w, Close);
      && after.waiters == [] && after.inFlight == w.inFlight && |after.phases| == |w.phases|
      && forall q :: 0 <= q < |w.phases| ==> after.phases[q] == if w.phases[q] == Parked then Woken else w.phases[q]
  {
    WakesAll(w);
  }

  /** Whoever looks at the bound, on arriving or woken, gets in exactly when there is room
      and otherwise waits behind the others. */
  lemma LooksAtBound(bound: nat, w: Window, p: nat)
    requires Inv(bound, w) && (p == |w.phases| || (p < |w.phases| && w.phases[p] == Woken))
    ensures var after := Step(bound, w, if p == |w.phases| then Arrive else Resume(p));
      && p < |after.phases|
      && (w.inFlight < bound ==> after.phases[p] == Admitted && after.inFlight == w.inFlight + 1)
      && (w.inFlight >= bound ==>
            && after.phases[p] == Parked && after.inFlight == w.inFlight
            && after.waiters != [] && after.waiters[|after.waiters| - 1] == p)
  {
  }

  predicate CalledOffIn(bound: nat, events: seq<Event>, p: nat) {
    events != []
    && (var before, e := events[..|events| - 1], events[|events| - 1];
        CalledOffIn(bound, before, p) || (e == CancelTask(p) && Enabled(Run(bound, before), e)))
  }

  /** The publish settled, or its publisher was cancelled while it waited and has left. */
  predicate GoneIn(bound: nat, events: seq<Event>, p: nat) {
    events != []
    && (var before, e := events[..|events| - 1], events[|events| - 1];
        || GoneIn(bound, before, p)
        || (e == Settle(p) && Enabled(Run(bound, before), e))
        || (e == Resume(p) && Enabled(Run(bound, before), e) && CalledOffIn(bound, before, p)))
  }

  predicate OffTheHook(phase: Phase) {
    phase == ParkedCancelled || phase == WokenCancelled
  }

  /** In every interleaving a publisher is through if and only if its publish settled or
      it left after being cancelled: nobody who has been woken goes away unserved. */
  lemma {:induction false} OverIff(bound: nat, events: seq<Event>, p: nat)
    ensures var w := Run(bound, events);
      if p < |w.phases| then
        && (w.phases[p] == Over <==> GoneIn(bound, events, p))
        && (OffTheHook(w.phases[p]) <==> CalledOffIn(bound, events, p) && !GoneIn(bound, events, p))
      else !GoneIn(bound, events, p) && !CalledOffIn(bound, events, p)
  {
    if events != [] {
      var before, e := events[..|events| - 1], events[|events| - 1];
      var w := Run(bound, before);
      OverIff(bound, before, p);
      WindowHolds(bound, before);
      PhaseNext(bound, w, e, p);
    }
  }

  /** How one step changes one publisher. */
  lemma PhaseNext(bound: nat, w: Window, e: Event, p: nat)
    requires Inv(bound, w)
    ensures var after := Step(bound, w, e);
      if p >= |after.phases| then p >= |w.phases|
      else if p >= |w.phases| then e.Arrive? && after.phases[p] in {Parked, Admitted}
      else if !Enabled(w, e) then after.phases[p] == w.phases[p]
      else if e == Settle(p) then after.phases[p] == Over
      else if e == CancelTask(p) then OffTheHook(after.phases[p])
      else if e == Resume(p) then
        if OffTheHook(w.phases[p]) then after.phases[p] == Over else after.phases[p] in {Parked, Admitted}
      else after.phases[p] == w.phases[p] || (w.phases[p] == Parked && after.phases[p] == Woken)
  {
    if Enabled(w, e) {
      match e
      case Settle(q) => SettleWakesFirst(bound, w, q);
      case Close => CloseWakesAll(bound, w);
      case _ =>
    }
  }

  /** The per-channel bookkeeping itself, updated in place by its publishers. */
  class ChannelPublishState {
    const bound: nat
    var inFlight: int
    var waiters: seq<nat>
    var phases: seq<Phase>

    /** What every interleaving keeps. */
    ghost predicate Valid()
      reads this
    {
      Inv(bound, View())
    }

    constructor (bound: nat)
      ensures Valid()
      ensures this.bound == bound && View() == Window(0, [], [])
    {
      this.bound := bound;
      inFlight, waiters, phases := 0, [], [];
    }

    ghost function View(): Window
      reads this
    {
      Window(inFlight, waiters, phases)
    }

    /** One pass of the loop that bounds unconfirmed work. */
    method TryEnter(p: nat)
      requires p < |phases|
      modifies this
      ensures View() == Admit(bound, old(View()), p)
    {
      if inFlight >= bound {
        waiters := waiters + [p];
        phases := phases[p := Parked];
      } else {
        inFlight := inFlight + 1;
        phases := phases[p := Admitted];
      }
    }

    method Publish() returns (p: nat)
      requires Valid()
      modifies this
      ensures View() == Step(bound, old(View()), Event.Arrive)
      ensures Valid()
    {
      StepKeeps(bound, View(), Event.Arrive);
      p := |phases|;
      phases := phases + [Over];
      TryEnter(p);
    }

    /** A parked publisher's task runs again: it leaves the list and, unless it was
        cancelled, looks at the bound again. */
    method Wake(p: nat)
      requires Valid() && Enabled(View(), Resume(p))
      modifies this
      ensures View() == Step(bound, old(View()), Resume(p))
      ensures Valid()
    {
      StepKeeps(bound, View(), Resume(p));
      waiters := Without(waiters, p);
      if phases[p] == Woken {
        TryEnter(p);
      } else {
        phases := phases[p := Over];
      }
    }

    /** A publisher waiting on the bound is cancelled; it leaves when it is resumed. */
    method Cancel(p: nat)
      requires Valid() && Enabled(View(), CancelTask(p))
      modifies this`phases
      ensures View() == Step(bound, old(View()), CancelTask(p))
      ensures Valid()
    {
      StepKeeps(bound, View(), CancelTask(p));
      phases := phases[p := if phases[p] == Parked then ParkedCancelled else WokenCancelled];
    }

    /** A publish settles, however it ended: the next open waiter is woken. */
    method SettleOne(p: nat)
      requires Valid() && Enabled(View(), Settle(p))
      modifies this
      ensures View() == Step(bound, old(View()), Settle(p))
      ensures Valid()
    {
      StepKeeps(bound, View(), Settle(p));
      inFlight := inFlight - 1;
      phases := phases[p := Over];
      ghost var goal := WakeOne(View());
      while waiters != []
        invariant goal == WakeOne(View())
        decreases |waiters|
      {
        var next := waiters[0];
        waiters := waiters[1..];
        if next < |phases| && phases[next] == Parked {
          phases := phases[next := Woken];
          return;
        }
      }
    }

    /** The channel closes: everyone parked on the bound is released. */
    method FailAll()
      requires Valid()
      modifies this
      ensures View() == Step(bound, old(View()), Close)
      ensures Valid()
    {
      StepKeeps(bound, View(), Close);
      ghost var goal := WakeAll(View());
      while waiters != []
        invariant goal == WakeAll(View())
        decreases |waiters|
      {
        var next := waiters[0];
        waiters := waiters[1..];
        if next < |phases| && phases[next] == Parked {
          phases := phases[next := Woken];
        }
      }
    }
  }
}
