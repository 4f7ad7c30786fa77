/** The scanning half of the orchestration (src/Saga.js): the adapter-state
    watcher, the scan controller that decides whether a scan task should run,
    and the scan task itself. Concurrency is replaced by explicit inputs: the
    actions the controller takes from its channel, the answers of the
    permission calls, and the events the hardware scan delivers. */
module ScanSaga {
  import opened Basics
  import opened Reducer

  // ---- handleBleState ----

  /** Every adapter-state notification becomes one BLE_STATE_UPDATED action,
      in delivery order, none dropped or merged. */
  method WatchBleState(states: seq<BleState>) returns (out: seq<Action>)
    ensures |out| == |states|
    ensures forall i :: 0 <= i < |states| ==> out[i] == BleStateUpdated(states[i])
  {
    out := [];
    for i := 0 to |states|
      invariant |out| == i
      invariant forall k :: 0 <= k < i ==> out[k] == BleStateUpdated(states[k])
    {
      out := out + [BleStateUpdated(states[i])];
    }
  }

  // ---- handleScanning ----

  /** The decision rule: scan while the adapter is on and no connection is
      being set up or held. */
  predicate ScanningEnabled(ble: BleState, conn: ConnectionState): (enabled: bool)
    ensures enabled ==> ble == PoweredOn
    ensures conn == ConnectionState.Connecting || conn == ConnectionState.Discovering || conn == ConnectionState.Connected ==> !enabled
  {
    ble == PoweredOn && (conn == Disconnecting || conn == Disconnected)
  }

  /** The two action types the controller's channel buffers. */
  predicate Watched(a: Action) {
    a.BleStateUpdated? || a.UpdateConnectionState?
  }

  /** The controller's local copies of the adapter and connection state. */
  datatype Mirrors = Mirrors(bleState: BleState, connectionState: ConnectionState)

  const InitialMirrors := Mirrors(Unknown, Disconnected)

  function Observe(m: Mirrors, a: Action): Mirrors {
    match a
    case BleStateUpdated(b) => m.(bleState := b)
    case UpdateConnectionState(c) => m.(connectionState := c)
    case _ => m
  }

  /** The mirrors after the controller has seen `xs`. */
  function MirrorsAfter(xs: seq<Action>): Mirrors {
    if xs == [] then InitialMirrors else Observe(MirrorsAfter(xs[..|xs| - 1]), xs[|xs| - 1])
  }

  /** The adapter state announced last in `xs`, or `init` if none is. */
  function LastBleState(xs: seq<Action>, init: BleState): BleState {
    if xs == [] then init
    else if xs[|xs| - 1].BleStateUpdated? then xs[|xs| - 1].bleState
    else LastBleState(xs[..|xs| - 1], init)
  }

  /** Each action moves only the mirror of its own type: the mirrors are
      always the last announced adapter state and the last announced
      connection state (Unknown and DISCONNECTED before any). */
  lemma {:induction false} MirrorsAreLastAnnounced(xs: seq<Action>)
    ensures MirrorsAfter(xs) == Mirrors(LastBleState(xs, Unknown), LastConnectionState(xs, Disconnected))
  {
    if xs != [] {
      MirrorsAreLastAnnounced(xs[..|xs| - 1]);
    }
  }

  lemma {:induction false} LastBleStateWasAnnounced(xs: seq<Action>, init: BleState)
    requires LastBleState(xs, init) != init
    ensures exists i :: 0 <= i < |xs| && xs[i] == BleStateUpdated(LastBleState(xs, init))
  {
    var n := |xs| - 1;
    if !xs[n].BleStateUpdated? {
      LastBleStateWasAnnounced(xs[..n], init);
      var i :| 0 <= i < n && xs[..n][i] == BleStateUpdated(LastBleState(xs[..n], init));
      assert xs[i] == xs[..n][i];
    }
  }

  /** Nothing is scanned before the adapter has been reported PoweredOn. */
  lemma NoScanBeforePoweredOn(xs: seq<Action>)
    requires ScanningEnabled(MirrorsAfter(xs).bleState, MirrorsAfter(xs).connectionState)
    ensures exists i :: 0 <= i < |xs| && xs[i] == BleStateUpdated(PoweredOn)
  {
    MirrorsAreLastAnnounced(xs);
    LastBleStateWasAnnounced(xs, Unknown);
  }

  /** What the controller does to scan tasks. */
  datatype TaskEffect = Fork(task: nat) | Cancel(task: nat)

  /** The tasks forked and not cancelled since. A task that has returned on
      its own (a denied permission, a scan loop that ended) still counts:
      the controller keeps it in its slot and cancels it at the next
      watched action, like a running one. */
  function Live(effects: seq<TaskEffect>): set<nat> {
    if effects == [] then {}
    else
      var before := Live(effects[..|effects| - 1]);
      match effects[|effects| - 1]
      case Fork(t) => before + {t}
      case Cancel(t) => before - {t}
  }

  lemma LiveAppend(effects: seq<TaskEffect>, e: TaskEffect)
    ensures Live(effects + [e]) == if e.Fork? then Live(effects) + {e.task} else Live(effects) - {e.task}
  {
    assert (effects + [e])[..|effects|] == effects;
  }

  /** `handleScanning`: the mirrors, the scan-task slot, and the record of the
      fork/cancel effects issued so far. Tasks are numbered in fork order. */
  class ScanController {
    var bleState: BleState
    var connectionState: ConnectionState
    var scanTask: Option<nat>
    var nextTask: nat
    var effects: seq<TaskEffect>
    ghost var seen: seq<Action>

    /** The mirrors follow what the channel delivered, the slot holds a task
        exactly when the rule says so, and it names the only live task. */
    ghost predicate Valid()
      reads this
    {
      && Mirrors(bleState, connectionState) == MirrorsAfter(seen)
      && (scanTask.Some? <==> ScanningEnabled(bleState, connectionState))
      && Live(effects) == (if scanTask.Some? then {scanTask.value} else {})
    }

    constructor ()
      ensures Valid() && seen == [] && effects == []
      ensures bleState == Unknown && connectionState == Disconnected && scanTask.None?
    {
      bleState, connectionState := Unknown, Disconnected;
      scanTask, nextTask := None, 0;
      effects, seen := [], [];
    }

    /** One turn of the controller's loop for a dispatched action. Actions
        of other types never reach the channel. On a watched action the
        matching mirror is updated and the rule re-evaluated: when it holds
        any live task is cancelled and a new one forked, even if the rule
        held before; when it fails a live task is cancelled. */
    method Dispatch(a: Action)
      requires Valid()
      modifies this
      ensures Valid()
      ensures !Watched(a) ==> unchanged(this)
      ensures Watched(a) ==> seen == old(seen) + [a]
      ensures Watched(a) ==> Mirrors(bleState, connectionState) == Observe(old(Mirrors(bleState, connectionState)), a)
      ensures Watched(a) ==> effects == old(effects)
                                      + (if old(scanTask).Some? then [Cancel(old(scanTask).value)] else [])
                                      + (if scanTask.Some? then [Fork(old(nextTask))] else [])
      ensures Watched(a) && scanTask.Some? ==> scanTask.value == old(nextTask) && nextTask == old(nextTask) + 1
      ensures Watched(a) && scanTask.None? ==> nextTask == old(nextTask)
    {
      if !Watched(a) {
        return;
      }
      Take(a);
      Reschedule();
    }

    /** Copies a watched action into the matching mirror. */
    method Take(a: Action)
      requires Watched(a) && Mirrors(bleState, connectionState) == MirrorsAfter(seen)
      modifies this`bleState, this`connectionState, this`seen
      ensures seen == old(seen) + [a]
      ensures Mirrors(bleState, connectionState) == Observe(old(Mirrors(bleState, connectionState)), a)
      ensures Mirrors(bleState, connectionState) == MirrorsAfter(seen)
    {
      match a {
        case BleStateUpdated(b) => bleState := b;
        case UpdateConnectionState(c) => connectionState := c;
      }
      seen := seen + [a];
      assert seen[..|seen| - 1] == old(seen);
    }

    /** Re-evaluates the rule: a live task is cancelled either way, and
        a new one is forked when the rule holds. */
    method Reschedule()
      requires Live(effects) == (if scanTask.Some? then {scanTask.value} else {})
      modifies this`scanTask, this`nextTask, this`effects
      ensures scanTask.Some? <==> ScanningEnabled(bleState, connectionState)
      ensures Live(effects) == (if scanTask.Some? then {scanTask.value} else {})
      ensures effects == old(effects)
                         + (if old(scanTask).Some? then [Cancel(old(scanTask).value)] else [])
                         + (if scanTask.Some? then [Fork(old(nextTask))] else [])
      ensures scanTask.Some? ==> scanTask.value == old(nextTask) && nextTask == old(nextTask) + 1
      ensures scanTask.None? ==> nextTask == old(nextTask)
    {
      var cancelled := if scanTask.Some? then [Cancel(scanTask.value)] else [];
      var live := effects + cancelled;
      if scanTask.Some? {
        LiveAppend(effects, Cancel(scanTask.value));
      } else {
        assert live == effects;
      }
      if ScanningEnabled(bleState, connectionState) {
        LiveAppend(live, Fork(nextTask));
        effects, scanTask, nextTask := live + [Fork(nextTask)], Some(nextTask), nextTask + 1;
      } else {
        effects, scanTask := live, None;
      }
    }
  }

  /** Feeds a sequence of dispatched actions to a fresh controller: after any
      sequence a scan task is live (forked and not yet cancelled) exactly
      when the rule holds for the last announced adapter and connection
      states, and never more than one is. */
  method RunScanController(inputs: seq<Action>) returns (effects: seq<TaskEffect>, scanning: bool)
    ensures scanning <==> ScanningEnabled(LastBleState(inputs, Unknown), LastConnectionState(inputs, Disconnected))
    ensures |Live(effects)| <= 1
    ensures Live(effects) != {} <==> scanning
  {
    var controller := new ScanController();
    for i := 0 to |inputs|
      invariant controller.Valid()
      invariant Mirrors(controller.bleState, controller.connectionState) == MirrorsAfter(inputs[..i])
    {
      assert inputs[..i + 1][..i] == inputs[..i];
      controller.Dispatch(inputs[i]);
    }
    assert inputs[..|inputs|] == inputs;
    MirrorsAreLastAnnounced(inputs);
    effects := controller.effects;
    scanning := controller.scanTask.Some?;
  }

  // ---- scan ----

  /** What the permission request answers. */
  datatype PermissionAnswer = Granted | Denied | NeverAskAgain

  /* The permission check answers whether the permission is already granted,
     the request answers a PermissionAnswer. Either answer is `None` when
     the controller cancels the task while that call is still pending: the
     task then ends at once, since nothing in `scan` before its `try`
     catches the cancellation. */

  /** One delivery from the hardware scan: an error, a device, or both. */
  datatype ScanEvent = ScanEvent(error: Option<BleError>, device: Option<Device>)

  datatype AdapterCall = CheckPermission | RequestPermission | StartDeviceScan | StopDeviceScan

  /** Only Android from API level 23 asks for the location permission. */
  predicate NeedsPermission(os: string, version: int) {
    os == "android" && version >= 23
  }

  /** The actions one scan event turns into: its error message, then the
      discovered device. */
  function EventActions(e: ScanEvent): seq<Action> {
    (match e.error case Some(err) => [Log(err.message)] case None => [])
    + (match e.device case Some(d) => [SensorTagFound(d)] case None => [])
  }

  function EventsActions(events: seq<ScanEvent>): seq<Action> {
    if events == [] then [] else EventsActions(events[..|events| - 1]) + EventActions(events[|events| - 1])
  }

  /** The outcome of a scan task run: what it put, which adapter calls it
      made, and whether it got as far as starting the hardware scan. */
  datatype ScanRun = ScanRun(out: seq<Action>, calls: seq<AdapterCall>, started: bool)

  /** The permission step: its logs, its calls, and whether scanning may go on. */
  function PermissionStep(os: string, version: int, check: Option<bool>, request: Option<PermissionAnswer>): ScanRun {
    if !NeedsPermission(os, version) then ScanRun([], [], true)
    else match check
      case None => ScanRun([Log("Scanning: Checking permissions...")], [CheckPermission], false)
      case Some(true) => ScanRun([Log("Scanning: Checking permissions...")], [CheckPermission], true)
      case Some(false) =>
        var asked := [Log("Scanning: Checking permissions..."), Log("Scanning: Permissions disabled, showing...")];
        match request
        case None => ScanRun(asked, [CheckPermission, RequestPermission], false)
        case Some(Granted) => ScanRun(asked, [CheckPermission, RequestPermission], true)
        case Some(_) =>
          ScanRun(asked + [Log("Scanning: Permissions not granted, aborting...")], [CheckPermission, RequestPermission], false)
  }

  /** The whole scan task as a value; `events` are the deliveries taken
      before the loop ended and `cancelled` says whether it ended by
      cancellation (which closes the channel and so stops the scan). */
  function ScanSpec(os: string, version: int, check: Option<bool>, request: Option<PermissionAnswer>,
                    events: seq<ScanEvent>, cancelled: bool): ScanRun
  {
    var p := PermissionStep(os, version, check, request);
    if !p.started then p
    else ScanRun(p.out + [Log("Scanning started...")] + EventsActions(events) + [Log("Scanning stopped...")],
                 p.calls + [StartDeviceScan] + (if cancelled then [StopDeviceScan] else []),
                 true)
  }

  /** The permission dance at the head of `scan`. */
  method AskPermission(os: string, version: int, check: Option<bool>, request: Option<PermissionAnswer>)
    returns (out: seq<Action>, calls: seq<AdapterCall>, proceed: bool)
    ensures ScanRun(out, calls, proceed) == PermissionStep(os, version, check, request)
  {
    out, calls, proceed := [], [], true;
    if os == "android" && version >= 23 {
      out := out + [Log("Scanning: Checking permissions...")];
      calls := calls + [CheckPermission];
      if check.None? {
        proceed := false;
      } else if !check.value {
        out := out + [Log("Scanning: Permissions disabled, showing...")];
        calls := calls + [RequestPermission];
        if request.None? {
          proceed := false;
        } else if request.value != Granted {
          out := out + [Log("Scanning: Permissions not granted, aborting...")];
          proceed := false;
        }
      }
    }
  }

  /** The scan loop: each delivery's error message, then its device. */
  method TakeEvents(events: seq<ScanEvent>) returns (out: seq<Action>)
    ensures out == EventsActions(events)
  {
    out := [];
    for i := 0 to |events|
      invariant out == EventsActions(events[..i])
    {
      assert events[..i + 1][..i] == events[..i];
      var e := events[i];
      if e.error.Some? {
        out := out + [Log(e.error.value.message)];
      }
      if e.device.Some? {
        out := out + [SensorTagFound(e.device.value)];
      }
    }
    assert events[..|events|] == events;
  }

  /** `scan`: the permission dance, then the event loop, then the cleanup
      that always logs that scanning stopped. */
  method Scan(os: string, version: int, check: Option<bool>, request: Option<PermissionAnswer>,
              events: seq<ScanEvent>, cancelled: bool)
    returns (out: seq<Action>, calls: seq<AdapterCall>)
    ensures out == ScanSpec(os, version, check, request, events, cancelled).out
    ensures calls == ScanSpec(os, version, check, request, events, cancelled).calls
  {
    var proceed;
    out, calls, proceed := AskPermission(os, version, check, request);
    if !proceed {
      return;
    }
    out := out + [Log("Scanning started...")];
    calls := calls + [StartDeviceScan];
    var found := TakeEvents(events);
    out := out + found + [Log("Scanning stopped...")];
    if cancelled {
      calls := calls + [StopDeviceScan];
    }
  }

  // ---- what the scan task guarantees ----

  /** A denied permission ends the task with the abort log: the hardware scan
      is never started and no "Scanning stopped..." is logged. */
  lemma DeniedPermissionAborts(os: string, version: int, answer: PermissionAnswer, events: seq<ScanEvent>, cancelled: bool)
    requires NeedsPermission(os, version) && answer != Granted
    ensures var r := ScanSpec(os, version, Some(false), Some(answer), events, cancelled);
      && !r.started && StartDeviceScan !in r.calls
      && r.out[|r.out| - 1] == Log("Scanning: Permissions not granted, aborting...")
      && Log("Scanning stopped...") !in r.out
  {}

  /** A task cancelled while a permission call is pending ends there: it
      never logs "Scanning started..." nor "Scanning stopped...", never
      starts the hardware scan, and its last log is the one before the
      pending call. */
  lemma CancelledDuringPermission(os: string, version: int, check: Option<bool>, request: Option<PermissionAnswer>,
                                  events: seq<ScanEvent>, cancelled: bool)
    requires NeedsPermission(os, version)
    requires check.None? || (check == Some(false) && request.None?)
    ensures var r := ScanSpec(os, version, check, request, events, cancelled);
      && !r.started && StartDeviceScan !in r.calls && StopDeviceScan !in r.calls
      && Log("Scanning started...") !in r.out && Log("Scanning stopped...") !in r.out
      && r.calls[|r.calls| - 1] == (if check.None? then CheckPermission else RequestPermission)
      && r.out[|r.out| - 1] == (if check.None? then Log("Scanning: Checking permissions...")
                                else Log("Scanning: Permissions disabled, showing..."))
  {}

  /** Once started, the task always ends by logging "Scanning stopped...",
      and it stops the hardware scan exactly once when cancelled, never
      before starting it. */
  lemma StartedScanCleansUp(os: string, version: int, check: Option<bool>, request: Option<PermissionAnswer>,
                            events: seq<ScanEvent>, cancelled: bool)
    requires ScanSpec(os, version, check, request, events, cancelled).started
    ensures var r := ScanSpec(os, version, check, request, events, cancelled);
      && r.out[|r.out| - 1] == Log("Scanning stopped...")
      && r.calls[|r.calls| - 1] == (if cancelled then StopDeviceScan else StartDeviceScan)
      && (forall k :: 0 <= k < |r.calls| && r.calls[k] == StopDeviceScan ==> k == |r.calls| - 1 && cancelled)
  {
    var p := PermissionStep(os, version, check, request);
    assert StopDeviceScan !in p.calls;
  }

  /** The devices in the discovery actions, in order. */
  function FoundDevices(xs: seq<Action>): seq<Device> {
    if xs == [] then []
    else FoundDevices(xs[..|xs| - 1]) + (if xs[|xs| - 1].SensorTagFound? then [xs[|xs| - 1].device] else [])
  }

  function EventDevices(events: seq<ScanEvent>): seq<Device> {
    if events == [] then []
    else EventDevices(events[..|events| - 1]) + (match events[|events| - 1].device case Some(d) => [d] case None => [])
  }

  lemma {:induction false} FoundDevicesAppend(xs: seq<Action>, ys: seq<Action>)
    ensures FoundDevices(xs + ys) == FoundDevices(xs) + FoundDevices(ys)
  {
    if ys != [] {
      var zs := xs + ys;
      assert zs[..|zs| - 1] == xs + ys[..|ys| - 1];
      FoundDevicesAppend(xs, ys[..|ys| - 1]);
    } else {
      assert xs + ys == xs;
    }
  }

  /** Every discovered device is reported, once and in delivery order; errors
      in the scan stream never suppress a discovery. */
  lemma {:induction false} DevicesReportedInOrder(events: seq<ScanEvent>)
    ensures FoundDevices(EventsActions(events)) == EventDevices(events)
  {
    if events != [] {
      var n := |events| - 1;
      DevicesReportedInOrder(events[..n]);
      FoundDevicesAppend(EventsActions(events[..n]), EventActions(events[n]));
      var e := events[n];
      var errs: seq<Action> := match e.error case Some(err) => [Log(err.message)] case None => [];
      var devs: seq<Action> := match e.device case Some(d) => [SensorTagFound(d)] case None => [];
      FoundDevicesAppend(errs, devs);
      assert FoundDevices(errs) == [] by {
        if errs != [] { assert errs[..0] == []; }
      }
      if devs != [] { assert devs[..0] == []; }
    }
  }
}
