/** The connection object, updated in place. Each method is one stretch between
    suspension points and does what the step of the same name says. */
module Connection {
  import opened Common
  import opened Reconnection

  class BusConnection {
    const maxRetries: nat
    var generation: nat
    var handle: Option<nat>
    var isConnected: bool
    var isReconnecting: bool
    var isReady: bool
    var manualDisconnect: bool
    var reconnectAttempts: nat
    var reconnectTimer: bool
    var reconnectTask: Attempt
    var connectTask: ConnectTask
    var disconnecting: Disconnecting
    var readyWaiters: nat
    var restorers: seq<nat>
    // the network's side, and history
    var sockets: set<nat>
    var closeQueued: set<nat>
    ghost var goal: seq<nat>
    ghost var restored: seq<nat>
    ghost var failures: nat
    ghost var wanted: bool

    /** What every run keeps of a connection. */
    ghost predicate Valid()
      reads this
    {
      Inv(maxRetries, View())
    }

    constructor (maxRetries: nat)
      ensures Valid()
      ensures this.maxRetries == maxRetries && View() == INITIAL
    {
      this.maxRetries := maxRetries;
      generation, handle, isConnected, isReconnecting, isReady := 0, None, false, false, false;
      manualDisconnect, reconnectAttempts, reconnectTimer := false, 0, false;
      reconnectTask, connectTask, disconnecting := NoAttempt, NoConnect, Idle;
      readyWaiters, restorers, sockets, closeQueued := 0, [], {}, {};
      goal, restored, failures, wanted := [], [], 0, false;
    }

    ghost function View(): State
      reads this
    {
      State(generation, handle, sockets, closeQueued, isConnected, isReconnecting, isReady, manualDisconnect,
            reconnectAttempts, reconnectTimer, reconnectTask, connectTask, disconnecting, readyWaiters, restorers,
            goal, restored, failures, wanted)
    }

    method MarkReady()
      modifies this`isReady, this`readyWaiters
      ensures View() == Reconnection.MarkReady(old(View()))
    {
      isReady := true;
      readyWaiters := 0;
    }

    method AbandonReady()
      modifies this`isReady, this`readyWaiters
      ensures View() == Reconnection.AbandonReady(old(View()))
    {
      isReady := false;
      readyWaiters := 0;
    }

    method WhenReady() returns (parked: bool)
      requires Valid()
      modifies this`readyWaiters
      ensures View() == Step(maxRetries, old(View()), Event.WhenReady)
      ensures Valid()
      ensures parked <==> !isReady && !manualDisconnect
    {
      StepInv(maxRetries, View(), Event.WhenReady);
      parked := !isReady && !manualDisconnect;
      if parked { readyWaiters := readyWaiters + 1; }
    }

    /** A waiter gives up waiting. */
    method WaiterLeaves()
      requires Valid() && readyWaiters > 0
      modifies this`readyWaiters
      ensures View() == Step(maxRetries, old(View()), Event.WaiterLeaves)
      ensures Valid()
    {
      StepInv(maxRetries, View(), Event.WaiterLeaves);
      readyWaiters := readyWaiters - 1;
    }

    /** The network's side: an open socket dies, and its close callback is due. */
    method SocketDies(h: nat)
      requires Valid() && h in sockets
      modifies this`sockets, this`closeQueued
      ensures View() == Step(maxRetries, old(View()), Event.SocketDies(h))
      ensures Valid()
    {
      StepInv(maxRetries, View(), Event.SocketDies(h));
      sockets, closeQueued := sockets - {h}, closeQueued + {h};
    }

    /** The first connect, taken as one step. */
    method Connect(outcome: Option<nat>)
      requires Valid()
      requires outcome.Some? ==> Enabled(View(), UserConnect(outcome.value))
      requires outcome == None ==> Enabled(View(), UserConnectFails)
      modifies this
      ensures View()
           == Step(maxRetries, old(View()), if outcome.Some? then UserConnect(outcome.value) else UserConnectFails)
      ensures Valid()
    {
      StepInv(maxRetries, View(), if outcome.Some? then UserConnect(outcome.value) else UserConnectFails);
      manualDisconnect := false;
      if outcome == None {
        isConnected := false;
        wanted := false;
        return;
      }
      Install(outcome.value);
      Working();
      wanted := true;
      MarkReady();
    }

    method Working()
      modifies this`isReconnecting, this`failures
      ensures View() == old(View()).(isReconnecting := false, failures := 0)
    {
      isReconnecting := false;
      failures := 0;
    }

    /** Nothing that began under the generation so far counts any more. */
    method Retire()
      modifies this`generation, this`isReady, this`isConnected
      ensures View() == old(View()).(generation := old(generation) + 1, isReady := false, isConnected := false)
    {
      generation := generation + 1;
      isReady := false;
      isConnected := false;
    }

    method Install(h: nat)
      modifies this`handle, this`sockets, this`isConnected, this`reconnectAttempts
      ensures View() == Reconnection.Install(old(View()), h)
    {
      handle := Some(h);
      sockets := sockets + {h};
      isConnected := true;
      reconnectAttempts := 0;
    }

    method ConnectBegins()
      requires Valid() && connectTask == Starting
      modifies this`connectTask
      ensures View() == Step(maxRetries, old(View()), Event.ConnectBegins)
      ensures Valid()
    {
      StepInv(maxRetries, View(), Event.ConnectBegins);
      connectTask := InFlight(generation);
    }

    /** The connect task has its answer. One that began under a retired generation,
        or before a `disconnect`, is closed again instead of being installed. */
    method ConnectEnds(outcome: Option<nat>)
      requires Valid() && Enabled(View(), Event.ConnectEnds(outcome))
      modifies this
      ensures View() == Step(maxRetries, old(View()), Event.ConnectEnds(outcome))
      ensures Valid()
    {
      StepInv(maxRetries, View(), Event.ConnectEnds(outcome));
      if outcome == None {
        isConnected := false;
        connectTask := Settled(false);
      } else if connectTask.generation != generation || manualDisconnect {
        connectTask := Settled(false);
      } else {
        Install(outcome.value);
        connectTask := Settled(true);
      }
    }

    method OnHandleClosed(h: nat, loopShutdown: bool)
      requires Valid() && h in closeQueued
      modifies this
      ensures View() == Step(maxRetries, old(View()), CloseCallback(h, loopShutdown))
      ensures Valid()
    {
      StepInv(maxRetries, View(), CloseCallback(h, loopShutdown));
      closeQueued := closeQueued - {h};
      if handle != Some(h) { return; }
      if manualDisconnect { return; }
      Retire();
      if loopShutdown {
        wanted := false;
        return;
      }
      ScheduleReconnect();
    }

    method ScheduleReconnect()
      modifies this
      ensures View() == Schedule(maxRetries, old(View()))
    {
      if manualDisconnect || isReconnecting { return; }
      if maxRetries > 0 && reconnectAttempts >= maxRetries {
        AbandonReady();
        wanted := false;
        return;
      }
      isReconnecting := true;
      reconnectAttempts := reconnectAttempts + 1;
      reconnectTimer := true;
    }

    method Fire()
      requires Valid() && reconnectTimer
      modifies this`reconnectTimer, this`reconnectTask
      ensures View() == Step(maxRetries, old(View()), TimerFires)
      ensures Valid()
    {
      StepInv(maxRetries, View(), TimerFires);
      reconnectTimer := false;
      reconnectTask := Created;
    }

    /** The attempt begins: it shares a connect task still running, or creates one. */
    method AttemptStarts()
      requires Valid() && Enabled(View(), Event.AttemptStarts)
      modifies this`reconnectTask, this`connectTask
      ensures View() == Step(maxRetries, old(View()), Event.AttemptStarts)
      ensures Valid()
    {
      StepInv(maxRetries, View(), Event.AttemptStarts);
      reconnectTask := Connecting(reconnectAttempts);
      if connectTask == NoConnect || connectTask.Settled? {
        connectTask := Starting;
      }
    }

    method AttemptConnected()
      requires Valid() && Enabled(View(), Event.AttemptConnected)
      modifies this
      ensures View() == Step(maxRetries, old(View()), Event.AttemptConnected)
      ensures Valid()
    {
      StepInv(maxRetries, View(), Event.AttemptConnected);
      var no, ok := reconnectTask.no, connectTask.ok;
      connectTask := NoConnect;
      if !ok {
        AttemptFails(no);
        return;
      }
      BeginRestoring();
      GoOn(no, generation, restorers);
    }

    /** The restorers present now are the ones to run. */
    ghost method BeginRestoring()
      modifies this`goal, this`restored
      ensures View() == old(View()).(goal := restorers, restored := [])
    {
      goal, restored := restorers, [];
    }

    /** The loop over the restorers, up to its next suspension. */
    method GoOn(no: nat, under: nat, left: seq<nat>)
      modifies this
      ensures View() == NextRestorer(maxRetries, old(View()), no, under, left)
    {
      if left == [] {
        reconnectTask := Checking(no, under);
        return;
      }
      if under != generation {
        AttemptFails(no);
        return;
      }
      reconnectTask := Restoring(no, under, left);
    }

    method RestorerEnds(ok: bool)
      requires Valid() && Enabled(View(), Event.RestorerEnds(ok))
      modifies this
      ensures View() == Step(maxRetries, old(View()), Event.RestorerEnds(ok))
      ensures Valid()
    {
      StepInv(maxRetries, View(), Event.RestorerEnds(ok));
      var Restoring(no, under, left) := reconnectTask;
      if !ok {
        AttemptFails(no);
        return;
      }
      restored := restored + [left[0]];
      GoOn(no, under, left[1..]);
    }

    method AttemptChecks()
      requires Valid() && reconnectTask.Checking?
      modifies this
      ensures View() == Step(maxRetries, old(View()), Event.AttemptChecks)
      ensures Valid()
    {
      StepInv(maxRetries, View(), Event.AttemptChecks);
      var Checking(no, under) := reconnectTask;
      if under != generation || handle == None || handle.value !in sockets {
        AttemptFails(no);
        return;
      }
      Working();
      reconnectTask := NoAttempt;
      MarkReady();
    }

    /** The attempt raised: a connection it could not restore is discarded first. */
    method AttemptFails(no: nat)
      modifies this
      ensures View() == Fail(maxRetries, old(View()), no)
    {
      if manualDisconnect {
        isReconnecting := false;
        reconnectTask := NoAttempt;
        return;
      }
      CountFailure();
      if handle == None {
        TryAgain(no);
      } else {
        Discard(no);
      }
    }

    method CountFailure()
      modifies this`generation, this`isReady, this`isConnected, this`failures
      ensures View() == old(View()).(generation := old(generation) + 1, isReady := false, isConnected := false,
                                     failures := old(failures) + 1)
    {
      Retire();
      failures := failures + 1;
    }

    /** The connection it could not restore is taken out and being closed. */
    method Discard(no: nat)
      modifies this`handle, this`reconnectTask
      ensures View() == old(View()).(handle := None, attempt := Discarding(no))
    {
      handle := None;
      reconnectTask := Discarding(no);
    }

    method TryAgain(no: nat)
      modifies this
      ensures View() == Retry(maxRetries, old(View()), no)
    {
      reconnectTask := NoAttempt;
      reconnectAttempts := no;
      isReconnecting := false;
      ScheduleReconnect();
    }

    method DiscardEnds()
      requires Valid() && reconnectTask.Discarding?
      modifies this
      ensures View() == Step(maxRetries, old(View()), Event.DiscardEnds)
      ensures Valid()
    {
      StepInv(maxRetries, View(), Event.DiscardEnds);
      TryAgain(reconnectTask.no);
    }

    /** Cancellation reaches the attempt. Its handler clears the flag, except when
        the body never ran or was already past its own error handling. */
    method AttemptCancelled()
      requires Valid() && Enabled(View(), Event.AttemptCancelled)
      modifies this`reconnectTask, this`isReconnecting
      ensures View() == Step(maxRetries, old(View()), Event.AttemptCancelled)
      ensures Valid()
    {
      StepInv(maxRetries, View(), Event.AttemptCancelled);
      if !(reconnectTask == Created || reconnectTask.Discarding?) {
        isReconnecting := false;
      }
      reconnectTask := NoAttempt;
    }

    method Disconnect()
      requires Valid() && disconnecting == Idle
      modifies this
      ensures View() == Step(maxRetries, old(View()), Event.Disconnect)
      ensures Valid()
    {
      StepInv(maxRetries, View(), Event.Disconnect);
      Refuse();
      if reconnectTask != NoAttempt {
        disconnecting := AwaitingTask;
      } else {
        CloseDown();
      }
    }

    /** From here on nothing reconnects: no timer is left, and no connect task that
        is still running will be believed. */
    method Refuse()
      modifies this`manualDisconnect, this`generation, this`reconnectTimer, this`wanted
      ensures View() == old(View()).(manual := true, generation := old(generation) + 1, timer := false, wanted := false)
    {
      manualDisconnect := true;
      generation := generation + 1;
      reconnectTimer := false;
      wanted := false;
    }

    method CloseDown()
      modifies this
      ensures View() == FinishDisconnect(old(View()))
    {
      isReconnecting := false;
      AbandonReady();
      if handle == None {
        Closed();
      } else {
        TakeHandle();
      }
    }

    method Closed()
      modifies this`isConnected, this`disconnecting
      ensures View() == old(View()).(isConnected := false, disconnecting := Idle)
    {
      isConnected := false;
      disconnecting := Idle;
    }

    method TakeHandle()
      modifies this`handle, this`disconnecting
      ensures View() == old(View()).(handle := None, disconnecting := Closing)
    {
      handle := None;
      disconnecting := Closing;
    }

    method DisconnectResumes()
      requires Valid() && Enabled(View(), Event.DisconnectResumes)
      modifies this
      ensures View() == Step(maxRetries, old(View()), Event.DisconnectResumes)
      ensures Valid()
    {
      StepInv(maxRetries, View(), Event.DisconnectResumes);
      if disconnecting == Closing {
        Closed();
      } else {
        CloseDown();
      }
    }

    method RegisterRestorer(r: nat)
      requires Valid()
      modifies this`restorers
      ensures View() == Step(maxRetries, old(View()), Register(r))
      ensures Valid()
    {
      StepInv(maxRetries, View(), Register(r));
      restorers := restorers + [r];
    }

    method Detach(r: nat)
      requires Valid()
      modifies this`restorers
      ensures View() == Step(maxRetries, old(View()), Unregister(r))
      ensures Valid()
    {
      StepInv(maxRetries, View(), Unregister(r));
      restorers := Remove(restorers, r);
    }
  }
}
