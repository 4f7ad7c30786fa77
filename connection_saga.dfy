/** The connection half of the orchestration (src/Saga.js): the connection
    manager that drives one device through connect, discovery, the command
    loop and cleanup, and the test task it forks. Hardware calls and races
    become explicit events: the outcome of each call, and which of the two
    raced channels delivered next. */
module ConnectionSaga {
  import opened Basics
  import opened Reducer
  import SensorTagTests

  /** Where the manager is in a connection cycle, with the device it holds. */
  datatype Phase =
    | Idle
    | Connecting(device: Device)
    | Discovering(device: Device)
    | Connected(device: Device)
    | Cancelling(device: Device)

  /** The connection state the manager has announced for each phase. */
  function PhaseState(p: Phase): ConnectionState {
    match p
    case Idle => Disconnected
    case Connecting(_) => ConnectionState.Connecting
    case Discovering(_) => ConnectionState.Discovering
    case Connected(_) => ConnectionState.Connected
    case Cancelling(_) => Disconnecting
  }

  /** How a hardware call ended. */
  datatype Outcome = Success | Failure(error: BleError)

  /** What the manager can receive next. */
  datatype Event =
    | ConnectCommand(device: Device)
    | ConnectFinished(outcome: Outcome)
    | DiscoveryFinished(outcome: Outcome)
      /** the command channel won the race with this DISCONNECT or EXECUTE_TEST action */
    | DeviceCommand(command: Action)
      /** the disconnect channel won the race */
    | DeviceDisconnected(error: Option<BleError>)
    | CancelFinished(outcome: Outcome)

  datatype DeviceCall = ConnectDevice(device: Device) | DiscoverAll(device: Device) | CancelConnection(device: Device)

  /** What the manager does to test tasks; tasks are numbered in fork order. */
  datatype TestEffect = ForkTest(task: nat, device: Device, testId: string) | CancelTest(task: nat)

  /** The manager's own variables: the phase and the test-task slot. */
  datatype Manager = Manager(phase: Phase, testTask: Option<nat>, nextTask: nat)

  const InitialManager := Manager(Idle, None, 0)

  /** What one event makes the manager do. */
  datatype Reaction = Reaction(next: Manager, actions: seq<Action>, calls: seq<DeviceCall>, tests: seq<TestEffect>)

  function Ignore(m: Manager): Reaction {
    Reaction(m, [], [], [])
  }

  /** The `finally` block: TEST_FINISHED then DISCONNECTED, back to waiting
      for CONNECT. The running test task is left alone. */
  function Cleanup(m: Manager, before: seq<Action>): Reaction {
    Reaction(m.(phase := Idle), before + [TestFinished, UpdateConnectionState(Disconnected)], [], [])
  }

  /** One step of `handleConnection`. An event the manager is not waiting
      for in its current phase is not taken. */
  function Step(m: Manager, ev: Event): Reaction {
    match m.phase
    case Idle => StepIdle(m, ev)
    case Connecting(d) => StepConnecting(m, d, ev)
    case Discovering(d) => StepDiscovering(m, d, ev)
    case Connected(d) => StepConnected(m, d, ev)
    case Cancelling(_) => StepCancelling(m, ev)
  }

  /** Waiting for CONNECT. */
  function StepIdle(m: Manager, ev: Event): Reaction {
    if ev.ConnectCommand? then
      Reaction(m.(phase := Phase.Connecting(ev.device)), [UpdateConnectionState(ConnectionState.Connecting)],
               [ConnectDevice(ev.device)], [])
    else Ignore(m)
  }

  /** Waiting for `device.connect` to return. */
  function StepConnecting(m: Manager, d: Device, ev: Event): Reaction {
    if !ev.ConnectFinished? then Ignore(m)
    else if ev.outcome.Success? then
      Reaction(m.(phase := Phase.Discovering(d)), [UpdateConnectionState(ConnectionState.Discovering)], [DiscoverAll(d)], [])
    else Cleanup(m, [LogError(ev.outcome.error)])
  }

  /** Waiting for service and characteristic discovery to return. */
  function StepDiscovering(m: Manager, d: Device, ev: Event): Reaction {
    if !ev.DiscoveryFinished? then Ignore(m)
    else if ev.outcome.Success? then
      Reaction(m.(phase := Phase.Connected(d)), [UpdateConnectionState(ConnectionState.Connected)], [], [])
    else Cleanup(m, [LogError(ev.outcome.error)])
  }

  /** Connected: whichever of a command and a device disconnection comes first. */
  function StepConnected(m: Manager, d: Device, ev: Event): Reaction {
    if ev.DeviceCommand? && ev.command.Disconnect? then
      Reaction(m.(phase := Cancelling(d)),
               [Log("Disconnected by user..."), UpdateConnectionState(Disconnecting)], [CancelConnection(d)], [])
    else if ev.DeviceCommand? && ev.command.ExecuteTest? then
      Reaction(m.(testTask := Some(m.nextTask), nextTask := m.nextTask + 1), [], [],
               (if m.testTask.Some? then [CancelTest(m.testTask.value)] else []) + [ForkTest(m.nextTask, d, ev.command.id)])
    else if ev.DeviceDisconnected? then
      Cleanup(m, [Log("Disconnected by device...")] + (if ev.error.Some? then [LogError(ev.error.value)] else []))
    else Ignore(m)
  }

  /** Waiting for `device.cancelConnection` to return. */
  function StepCancelling(m: Manager, ev: Event): Reaction {
    if !ev.CancelFinished? then Ignore(m)
    else if ev.outcome.Success? then Cleanup(m, [])
    else Cleanup(m, [LogError(ev.outcome.error)])
  }

  /** The test tasks forked and not cancelled since. */
  function LiveTests(tests: seq<TestEffect>): set<nat> {
    if tests == [] then {}
    else
      var before := LiveTests(tests[..|tests| - 1]);
      var last := tests[|tests| - 1];
      if last.ForkTest? then before + {last.task} else before - {last.task}
  }

  lemma {:induction false} LiveTestsAppend(xs: seq<TestEffect>, ys: seq<TestEffect>)
    ensures |ys| == 1 ==> LiveTests(xs + ys) == if ys[0].ForkTest? then LiveTests(xs) + {ys[0].task} else LiveTests(xs) - {ys[0].task}
    ensures ys == [] ==> LiveTests(xs + ys) == LiveTests(xs)
  {
    if |ys| == 1 {
      assert (xs + ys)[..|xs|] == xs;
    } else if ys == [] {
      assert xs + ys == xs;
    }
  }

  /** The slot names the one live test task, if any. */
  function Slot(m: Manager): set<nat> {
    if m.testTask.Some? then {m.testTask.value} else {}
  }

  /** The invariant of the manager's own variables: the slot holds an
      already-numbered task. */
  predicate Numbered(m: Manager) {
    m.testTask.Some? ==> m.testTask.value < m.nextTask
  }

  // ---- what each step guarantees ----

  /** Every step announces the connection state of the phase it lands in. */
  lemma StepAnnouncesPhase(m: Manager, ev: Event)
    ensures LastConnectionState(Step(m, ev).actions, PhaseState(m.phase)) == PhaseState(Step(m, ev).next.phase)
  {
    var r := Step(m, ev);
    if r.next.phase.Idle? && !m.phase.Idle? {
      var before := StepExit(m, ev);
      assert r.actions[|r.actions| - 1] == UpdateConnectionState(Disconnected);
    } else {
      match m.phase
      case Idle =>
        assert r.actions == if ev.ConnectCommand? then [UpdateConnectionState(PhaseState(r.next.phase))] else [];
      case Connecting(d) =>
        assert r.actions == if ev.ConnectFinished? then [UpdateConnectionState(PhaseState(r.next.phase))] else [];
      case Discovering(d) =>
        assert r.actions == if ev.DiscoveryFinished? then [UpdateConnectionState(PhaseState(r.next.phase))] else [];
      case Connected(d) =>
        assert r.actions == [] || r.actions == [Log("Disconnected by user..."), UpdateConnectionState(PhaseState(r.next.phase))];
      case Cancelling(_) =>
        assert r.actions == [];
    }
  }

  /** Only EXECUTE_TEST while connected touches the test tasks. */
  lemma StepLeavesTestsAlone(m: Manager, ev: Event)
    requires !(m.phase.Connected? && ev.DeviceCommand? && ev.command.ExecuteTest?)
    ensures Step(m, ev).tests == []
    ensures Step(m, ev).next.testTask == m.testTask && Step(m, ev).next.nextTask == m.nextTask
  {}

  /** Every step keeps the live test tasks equal to the slot: an
      EXECUTE_TEST while connected cancels the live test (if any) before
      forking the new one, so the live set is again just the slot. */
  lemma StepKeepsOneTest(m: Manager, ev: Event, tests: seq<TestEffect>)
    requires Numbered(m) && LiveTests(tests) == Slot(m)
    ensures Numbered(Step(m, ev).next)
    ensures LiveTests(tests + Step(m, ev).tests) == Slot(Step(m, ev).next)
  {
    if m.phase.Connected? && ev.DeviceCommand? && ev.command.ExecuteTest? {
      var r := Step(m, ev);
      var fork := ForkTest(m.nextTask, m.phase.device, ev.command.id);
      assert r.next == m.(testTask := Some(m.nextTask), nextTask := m.nextTask + 1);
      if m.testTask.Some? {
        var cancel := CancelTest(m.testTask.value);
        assert r.tests == [cancel] + [fork];
        LiveTestsAppend(tests, [cancel]);
        LiveTestsAppend(tests + [cancel], [fork]);
        assert tests + r.tests == (tests + [cancel]) + [fork];
      } else {
        assert r.tests == [fork];
        LiveTestsAppend(tests, [fork]);
      }
    } else {
      StepLeavesTestsAlone(m, ev);
      LiveTestsAppend(tests, []);
    }
  }

  /** Every exit from a connection cycle, whatever ended it, emits
      TEST_FINISHED followed by DISCONNECTED and returns to waiting for
      CONNECT; the test task is not cancelled by it. */
  lemma ExitAlwaysCleansUp(m: Manager, ev: Event)
    requires !m.phase.Idle? && Step(m, ev).next.phase.Idle?
    ensures var r := Step(m, ev);
      && |r.actions| >= 2
      && r.actions[|r.actions| - 2..] == [TestFinished, UpdateConnectionState(Disconnected)]
      && r.tests == [] && r.next.testTask == m.testTask
  {
    var before := StepExit(m, ev);
    var a := Step(m, ev).actions;
    assert a == before + [TestFinished, UpdateConnectionState(Disconnected)];
    assert a[|a| - 2..] == [TestFinished, UpdateConnectionState(Disconnected)];
  }

  /** A step that leaves a connection cycle is the cleanup, after log lines
      only. */
  lemma StepExit(m: Manager, ev: Event) returns (before: seq<Action>)
    requires !m.phase.Idle? && Step(m, ev).next.phase.Idle?
    ensures Step(m, ev) == Cleanup(m, before)
    ensures forall k :: 0 <= k < |before| ==> before[k].Log?
  {
    match m.phase
    case Connecting(d) =>
      assert StepConnecting(m, d, ev).next.phase.Idle?;
      before := [LogError(ev.outcome.error)];
    case Discovering(d) =>
      assert StepDiscovering(m, d, ev).next.phase.Idle?;
      before := [LogError(ev.outcome.error)];
    case Connected(d) =>
      assert StepConnected(m, d, ev).next.phase.Idle?;
      before := [Log("Disconnected by device...")] + (if ev.error.Some? then [LogError(ev.error.value)] else []);
    case Cancelling(_) =>
      assert StepCancelling(m, ev).next.phase.Idle?;
      before := if ev.outcome.Success? then [] else [LogError(ev.outcome.error)];
  }

  /** A failed connect logs its error and cleans up: no discovery is
      attempted and DISCOVERING is never announced. */
  lemma FailedConnectNeverDiscovers(m: Manager, e: BleError)
    requires m.phase.Connecting?
    ensures var r := Step(m, ConnectFinished(Failure(e)));
      && r.actions == [LogError(e), TestFinished, UpdateConnectionState(Disconnected)]
      && r.calls == [] && r.next.phase == Idle
  {}

  /** DISCOVERING is announced only after a successful connect, and CONNECTED
      only after a successful discovery. */
  lemma AnnouncementsFollowSuccess(m: Manager, ev: Event)
    ensures UpdateConnectionState(ConnectionState.Discovering) in Step(m, ev).actions ==>
              m.phase.Connecting? && ev == ConnectFinished(Success)
    ensures UpdateConnectionState(ConnectionState.Connected) in Step(m, ev).actions ==>
              m.phase.Discovering? && ev == DiscoveryFinished(Success)
  {
    var a := Step(m, ev).actions;
    if Step(m, ev).next.phase.Idle? && !m.phase.Idle? {
      var before := StepExit(m, ev);
      assert a == before + [TestFinished, UpdateConnectionState(Disconnected)];
    } else {
      match m.phase
      case Idle =>
        assert a == if ev.ConnectCommand? then [UpdateConnectionState(ConnectionState.Connecting)] else [];
      case Connecting(d) =>
        assert a == if ev.ConnectFinished? then [UpdateConnectionState(ConnectionState.Discovering)] else [];
      case Discovering(d) =>
        assert a == if ev.DiscoveryFinished? then [UpdateConnectionState(ConnectionState.Connected)] else [];
      case Connected(d) =>
        assert a == [] || a == [Log("Disconnected by user..."), UpdateConnectionState(Disconnecting)];
      case Cancelling(_) =>
        assert a == [];
    }
  }

  /** A user DISCONNECT logs, announces DISCONNECTING and cancels the
      connection; cleanup follows once the cancel call returns. */
  lemma UserDisconnect(m: Manager, d: Device)
    requires m.phase == Phase.Connected(d)
    ensures var r := Step(m, DeviceCommand(Disconnect));
      && r.actions == [Log("Disconnected by user..."), UpdateConnectionState(Disconnecting)]
      && r.calls == [CancelConnection(d)] && r.next.phase == Cancelling(d)
    ensures Step(Step(m, DeviceCommand(Disconnect)).next, CancelFinished(Success)).actions
         == [TestFinished, UpdateConnectionState(Disconnected)]
  {}

  /** A disconnect reported by the device logs it (and its error, if any) and
      cleans up at once. */
  lemma DeviceDisconnect(m: Manager, d: Device, err: Option<BleError>)
    requires m.phase == Phase.Connected(d)
    ensures Step(m, DeviceDisconnected(err)).actions
         == [Log("Disconnected by device...")] + (if err.Some? then [LogError(err.value)] else [])
            + [TestFinished, UpdateConnectionState(Disconnected)]
  {}

  // ---- whole runs ----

  /** The manager's reaction to a sequence of events, all effects in order. */
  function RunEvents(m: Manager, evs: seq<Event>): Reaction {
    if evs == [] then Reaction(m, [], [], [])
    else
      var r := RunEvents(m, evs[..|evs| - 1]);
      var s := Step(r.next, evs[|evs| - 1]);
      Reaction(s.next, r.actions + s.actions, r.calls + s.calls, r.tests + s.tests)
  }

  /** Over any run the last announced connection state is that of the
      phase the manager is in. */
  lemma {:induction false} RunAnnouncesPhase(m: Manager, evs: seq<Event>)
    ensures LastConnectionState(RunEvents(m, evs).actions, PhaseState(m.phase)) == PhaseState(RunEvents(m, evs).next.phase)
  {
    if evs != [] {
      var n := |evs| - 1;
      var r := RunEvents(m, evs[..n]);
      var s := Step(r.next, evs[n]);
      assert RunEvents(m, evs).actions == r.actions + s.actions && RunEvents(m, evs).next == s.next;
      RunAnnouncesPhase(m, evs[..n]);
      StepAnnouncesPhase(r.next, evs[n]);
      LastConnectionStateAppend(r.actions, s.actions, PhaseState(m.phase));
    }
  }

  /** Over any run from an empty slot, the only live test task is the one
      in the slot. */
  lemma {:induction false} RunKeepsOneTest(m: Manager, evs: seq<Event>)
    requires Numbered(m) && m.testTask.None?
    ensures Numbered(RunEvents(m, evs).next) && LiveTests(RunEvents(m, evs).tests) == Slot(RunEvents(m, evs).next)
  {
    if evs != [] {
      var n := |evs| - 1;
      var r := RunEvents(m, evs[..n]);
      var s := Step(r.next, evs[n]);
      RunKeepsOneTest(m, evs[..n]);
      StepKeepsOneTest(r.next, evs[n], r.tests);
      assert RunEvents(m, evs).tests == r.tests + s.tests && RunEvents(m, evs).next == s.next;
    }
  }

  /** The store, fed the manager's actions from its initial state, always
      shows the connection state of the manager's phase; in particular it
      shows DISCONNECTED whenever the manager waits for CONNECT. */
  lemma StoreFollowsManager(evs: seq<Event>)
    ensures Run(InitialState, RunEvents(InitialManager, evs).actions).connectionState
         == PhaseState(RunEvents(InitialManager, evs).next.phase)
  {
    RunAnnouncesPhase(InitialManager, evs);
    RunConnectionState(InitialState, RunEvents(InitialManager, evs).actions);
  }

  /** Never more than one test task is live. */
  lemma AtMostOneTest(evs: seq<Event>)
    ensures |LiveTests(RunEvents(InitialManager, evs).tests)| <= 1
  {
    RunKeepsOneTest(InitialManager, evs);
  }

  // ---- the imperative manager ----

  /** `handleConnection` with its variables and the record of everything it
      has put, called and forked. */
  class ConnectionManager {
    var phase: Phase
    var testTask: Option<nat>
    var nextTask: nat
    var actions: seq<Action>
    var calls: seq<DeviceCall>
    var tests: seq<TestEffect>

    function State(): Manager
      reads this
    {
      Manager(phase, testTask, nextTask)
    }

    ghost predicate Valid()
      reads this
    {
      && LastConnectionState(actions, Disconnected) == PhaseState(phase)
      && Numbered(State())
      && LiveTests(tests) == Slot(State())
    }

    constructor ()
      ensures Valid() && State() == InitialManager
      ensures actions == [] && calls == [] && tests == []
    {
      phase, testTask, nextTask := Idle, None, 0;
      actions, calls, tests := [], [], [];
    }

    method Put(a: Action)
      modifies this`actions
      ensures actions == old(actions) + [a]
    {
      actions := actions + [a];
    }

    /** The `finally` block. */
    method Finish()
      modifies this`actions, this`phase
      ensures actions == old(actions) + [TestFinished, UpdateConnectionState(Disconnected)]
      ensures phase == Idle
    {
      Put(TestFinished);
      Put(UpdateConnectionState(Disconnected));
      phase := Idle;
    }

    /** Takes one event; the manager moves exactly as Step says. */
    method Handle(ev: Event)
      requires Valid()
      modifies this
      ensures Valid()
      ensures var r := Step(old(State()), ev);
        && State() == r.next
        && actions == old(actions) + r.actions
        && calls == old(calls) + r.calls
        && tests == old(tests) + r.tests
    {
      ghost var r := Step(State(), ev);
      StepAnnouncesPhase(State(), ev);
      StepKeepsOneTest(State(), ev, tests);
      LastConnectionStateAppend(actions, r.actions, Disconnected);
      match phase {
        case Idle => AwaitConnect(ev, r);
        case Connecting(_) => AwaitConnection(ev, r);
        case Discovering(_) => AwaitDiscovery(ev, r);
        case Connected(_) => AwaitCommand(ev, r);
        case Cancelling(_) => AwaitCancel(ev, r);
      }
    }

    /** Waiting for CONNECT. */
    method AwaitConnect(ev: Event, ghost r: Reaction)
      requires phase.Idle? && r == StepIdle(State(), ev)
      modifies this
      ensures State() == r.next && actions == old(actions) + r.actions
      ensures calls == old(calls) + r.calls && tests == old(tests) + r.tests
    {
      if ev.ConnectCommand? {
        Put(UpdateConnectionState(ConnectionState.Connecting));
        calls := calls + [ConnectDevice(ev.device)];
        phase := Phase.Connecting(ev.device);
      }
    }

    /** Waiting for `device.connect` to return. */
    method AwaitConnection(ev: Event, ghost r: Reaction)
      requires phase.Connecting? && r == StepConnecting(State(), phase.device, ev)
      modifies this
      ensures State() == r.next && actions == old(actions) + r.actions
      ensures calls == old(calls) + r.calls && tests == old(tests) + r.tests
    {
      if ev.ConnectFinished? {
        if ev.outcome.Success? {
          Put(UpdateConnectionState(ConnectionState.Discovering));
          calls := calls + [DiscoverAll(phase.device)];
          phase := Phase.Discovering(phase.device);
        } else {
          Put(LogError(ev.outcome.error));
          Finish();
        }
      }
    }

    /** Waiting for service and characteristic discovery to return. */
    method AwaitDiscovery(ev: Event, ghost r: Reaction)
      requires phase.Discovering? && r == StepDiscovering(State(), phase.device, ev)
      modifies this
      ensures State() == r.next && actions == old(actions) + r.actions
      ensures calls == old(calls) + r.calls && tests == old(tests) + r.tests
    {
      if ev.DiscoveryFinished? {
        if ev.outcome.Success? {
          Put(UpdateConnectionState(ConnectionState.Connected));
          phase := Phase.Connected(phase.device);
        } else {
          Put(LogError(ev.outcome.error));
          Finish();
        }
      }
    }

    /** Connected: the race between a command and a device disconnection. */
    method AwaitCommand(ev: Event, ghost r: Reaction)
      requires phase.Connected? && r == StepConnected(State(), phase.device, ev)
      modifies this
      ensures State() == r.next && actions == old(actions) + r.actions
      ensures calls == old(calls) + r.calls && tests == old(tests) + r.tests
    {
      var device := phase.device;
      if ev.DeviceCommand? && ev.command.Disconnect? {
        Put(Log("Disconnected by user..."));
        Put(UpdateConnectionState(Disconnecting));
        calls := calls + [CancelConnection(device)];
        phase := Cancelling(device);
      } else if ev.DeviceCommand? && ev.command.ExecuteTest? {
        if testTask.Some? {
          tests := tests + [CancelTest(testTask.value)];
        }
        tests := tests + [ForkTest(nextTask, device, ev.command.id)];
        testTask := Some(nextTask);
        nextTask := nextTask + 1;
      } else if ev.DeviceDisconnected? {
        Put(Log("Disconnected by device..."));
        if ev.error.Some? {
          Put(LogError(ev.error.value));
        }
        Finish();
      }
    }

    /** Waiting for `device.cancelConnection` to return. */
    method AwaitCancel(ev: Event, ghost r: Reaction)
      requires phase.Cancelling? && r == StepCancelling(State(), ev)
      modifies this
      ensures State() == r.next && actions == old(actions) + r.actions
      ensures calls == old(calls) + r.calls && tests == old(tests) + r.tests
    {
      if ev.CancelFinished? {
        if ev.outcome.Failure? {
          Put(LogError(ev.outcome.error));
        }
        Finish();
      }
    }
  }

  /** The steps of a connect/disconnect cycle in which every hardware call
      succeeds. */
  lemma SuccessfulCycle(d: Device)
    ensures Step(InitialManager, ConnectCommand(d))
         == Reaction(Manager(Phase.Connecting(d), None, 0), [UpdateConnectionState(ConnectionState.Connecting)], [ConnectDevice(d)], [])
    ensures Step(Manager(Phase.Connecting(d), None, 0), ConnectFinished(Success))
         == Reaction(Manager(Phase.Discovering(d), None, 0), [UpdateConnectionState(ConnectionState.Discovering)], [DiscoverAll(d)], [])
    ensures Step(Manager(Phase.Discovering(d), None, 0), DiscoveryFinished(Success))
         == Reaction(Manager(Phase.Connected(d), None, 0), [UpdateConnectionState(ConnectionState.Connected)], [], [])
    ensures Step(Manager(Phase.Connected(d), None, 0), DeviceCommand(Disconnect))
         == Reaction(Manager(Cancelling(d), None, 0), [Log("Disconnected by user..."), UpdateConnectionState(Disconnecting)],
                     [CancelConnection(d)], [])
    ensures Step(Manager(Cancelling(d), None, 0), CancelFinished(Success))
         == Reaction(InitialManager, [TestFinished, UpdateConnectionState(Disconnected)], [], [])
  {}

  /** A complete connect/disconnect cycle with every hardware call succeeding. */
  method FullCycle(d: Device) returns (actions: seq<Action>, calls: seq<DeviceCall>)
    ensures actions == [UpdateConnectionState(ConnectionState.Connecting),
                        UpdateConnectionState(ConnectionState.Discovering),
                        UpdateConnectionState(ConnectionState.Connected),
                        Log("Disconnected by user..."),
                        UpdateConnectionState(Disconnecting),
                        TestFinished,
                        UpdateConnectionState(Disconnected)]
    ensures calls == [ConnectDevice(d), DiscoverAll(d), CancelConnection(d)]
  {
    SuccessfulCycle(d);
    var manager := new ConnectionManager();
    manager.Handle(ConnectCommand(d));
    manager.Handle(ConnectFinished(Success));
    manager.Handle(DiscoveryFinished(Success));
    manager.Handle(DeviceCommand(Disconnect));
    manager.Handle(CancelFinished(Success));
    actions, calls := manager.actions, manager.calls;
  }

  /** The steps of two test requests in a row on a fresh connection. */
  lemma BackToBackTests(d: Device, first: string, second: string)
    ensures Step(Manager(Phase.Connected(d), None, 0), DeviceCommand(ExecuteTest(first)))
         == Reaction(Manager(Phase.Connected(d), Some(0), 1), [], [], [ForkTest(0, d, first)])
    ensures Step(Manager(Phase.Connected(d), Some(0), 1), DeviceCommand(ExecuteTest(second)))
         == Reaction(Manager(Phase.Connected(d), Some(1), 2), [], [], [CancelTest(0), ForkTest(1, d, second)])
  {}

  /** Two test requests in a row: the first task is cancelled before the
      second is forked. */
  method OverlappingTests(d: Device, first: string, second: string) returns (tests: seq<TestEffect>)
    ensures tests == [ForkTest(0, d, first), CancelTest(0), ForkTest(1, d, second)]
  {
    SuccessfulCycle(d);
    BackToBackTests(d, first, second);
    var manager := new ConnectionManager();
    manager.Handle(ConnectCommand(d));
    manager.Handle(ConnectFinished(Success));
    manager.Handle(DiscoveryFinished(Success));
    manager.Handle(DeviceCommand(ExecuteTest(first)));
    manager.Handle(DeviceCommand(ExecuteTest(second)));
    tests := manager.tests;
  }

  // ---- executeTest ----

  /** The summary line the test task logs when its script returns. */
  function TestSummary(passed: bool, elapsedMs: nat): (line: Action)
    ensures line.Log?
    ensures passed ==> "Test finished successfully! (" <= line.message
    ensures !passed ==> "Test failed! (" <= line.message
  {
    if passed then Log("Test finished successfully! (" + Decimal(elapsedMs) + " ms)")
    else Log("Test failed! (" + Decimal(elapsedMs) + " ms)")
  }

  /** Exactly one of the two summaries fits a run: they differ whatever the
      durations. */
  lemma SummariesDiffer(m: nat, n: nat)
    ensures TestSummary(true, m) != TestSummary(false, n)
  {
    assert TestSummary(true, m).message[6] != TestSummary(false, n).message[6];
  }

  /** Where the cancellation of a running test lands: the script had put
      `logsPut` of its logs and made `callsMade` of its device calls. The
      next EXECUTE_TEST cancels the running test task, and `executeTest`
      has no `finally`, so nothing after that point happens. */
  datatype Interruption = Interruption(logsPut: nat, callsMade: nat)

  /** The first `n` elements of `xs`, or all of them when there are fewer. */
  function Upto<T>(xs: seq<T>, n: nat): (p: seq<T>)
    ensures p <= xs && |p| == (if n < |xs| then n else |xs|)
  {
    if n < |xs| then xs[..n] else xs
  }

  /** `executeTest`: announce the test, run its script, log one summary, and
      report TEST_FINISHED. The duration is given, and so is the point where
      a cancellation cuts the task, if one does. An id missing from the
      registry stops the task right after the announcement. */
  method RunTest(device: SensorTagTests.Peripheral, testId: string, elapsedMs: nat, interruption: Option<Interruption>)
    returns (out: seq<Action>, calls: seq<SensorTagTests.GattCall>)
    ensures |out| >= 1 && out[0] == Log("Executing test: " + testId)
    ensures testId !in SensorTagTests.Registry() ==> out == [Log("Executing test: " + testId)] && calls == []
    ensures testId in SensorTagTests.Registry() && interruption.None? ==>
              var run := SensorTagTests.ScriptRun(SensorTagTests.Registry()[testId].execute, device);
              && out == [Log("Executing test: " + testId)] + run.logs + [TestSummary(run.passed, elapsedMs), TestFinished]
              && calls == run.calls
    ensures testId in SensorTagTests.Registry() && interruption.Some? ==>
              var run := SensorTagTests.ScriptRun(SensorTagTests.Registry()[testId].execute, device);
              && out == [Log("Executing test: " + testId)] + Upto(run.logs, interruption.value.logsPut)
              && calls == Upto(run.calls, interruption.value.callsMade)
    // a cancelled test stops short of its summary and of TEST_FINISHED
    ensures testId in SensorTagTests.Registry() && interruption.Some? ==>
              var run := SensorTagTests.ScriptRun(SensorTagTests.Registry()[testId].execute, device);
              var finished := [Log("Executing test: " + testId)] + run.logs + [TestSummary(run.passed, elapsedMs), TestFinished];
              out <= finished && |out| <= |finished| - 2 && calls <= run.calls
  {
    out := [Log("Executing test: " + testId)];
    var registry := SensorTagTests.Registry();
    if testId !in registry {
      calls := [];
      return;
    }
    var logs, passed;
    logs, calls, passed := SensorTagTests.Execute(registry[testId].execute, device);
    if interruption.Some? {
      out := out + Upto(logs, interruption.value.logsPut);
      calls := Upto(calls, interruption.value.callsMade);
      return;
    }
    out := out + logs + [TestSummary(passed, elapsedMs), TestFinished];
  }
}
