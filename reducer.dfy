/** The application state container: the actions, the state record and the
    pure reducer that folds one action into the state (src/Reducer.js). */
module Reducer {
  import opened Basics

  datatype ConnectionState = Disconnected | Connecting | Discovering | Connected | Disconnecting

  /** The string value of each ConnectionState constant. */
  function ConnectionStateName(c: ConnectionState): string {
    match c
    case Disconnected => "DISCONNECTED"
    case Connecting => "CONNECTING"
    case Discovering => "DISCOVERING"
    case Connected => "CONNECTED"
    case Disconnecting => "DISCONNECTING"
  }

  /** The adapter power states reported by the BLE library. */
  datatype BleState = Unknown | Resetting | Unsupported | Unauthorized | PoweredOff | PoweredOn

  function BleStateName(b: BleState): string {
    match b
    case Unknown => "Unknown"
    case Resetting => "Resetting"
    case Unsupported => "Unsupported"
    case Unauthorized => "Unauthorized"
    case PoweredOff => "PoweredOff"
    case PoweredOn => "PoweredOn"
  }

  /** A discovered peripheral, as far as the state container looks at it. */
  datatype Device = Device(id: string, name: Option<string>)

  /** The diagnostic fields of a BLE library error; a code is absent when the
      platform did not report one. */
  datatype BleError = BleError(
    message: string,
    attErrorCode: Option<nat>,
    iosErrorCode: Option<nat>,
    androidErrorCode: Option<nat>)

  datatype Action =
    | Log(message: string)
    | ClearLogs
    | Connect(device: Device)
    | Disconnect
    | UpdateConnectionState(state: ConnectionState)
    | BleStateUpdated(bleState: BleState)
    | SensorTagFound(device: Device)
    | ForgetSensorTag
    | ExecuteTest(id: string)
    | TestFinished
      /** Any other action the store dispatches (the store's own init action). */
    | Unrecognised(kind: string)

  datatype ReduxState = ReduxState(
    logs: seq<string>,
    activeError: Option<BleError>,
    activeSensorTag: Option<Device>,
    connectionState: ConnectionState,
    currentTest: Option<string>,
    bleState: BleState)

  const InitialState := ReduxState([], None, None, Disconnected, None, Unknown)

  /** How `code || "null"` renders an error code: a missing code and the code 0
      (both falsy) print as "null", any other code as its decimal digits. */
  function CodeText(code: Option<nat>): (t: string)
    ensures t == "null" <==> (code.None? || code == Some(0))
    ensures code.Some? && code.value > 0 ==> AllDigits(t) && ParseDecimal(t) == code.value
  {
    match code
    case None => "null"
    case Some(n) =>
      if n == 0 then "null"
      else
        assert IsDigit(Decimal(n)[0]) && !IsDigit("null"[0]);
        DecimalRoundTrip(n);
        Decimal(n)
  }

  /** The LOG action that reports a BLE error with all its diagnostic codes. */
  function LogError(e: BleError): (a: Action)
    ensures a.Log?
    ensures a.message == "ERROR: " + e.message + ", ATT: " + CodeText(e.attErrorCode)
                         + ", iOS: " + CodeText(e.iosErrorCode)
                         + ", android: " + CodeText(e.androidErrorCode)
  {
    Log("ERROR: " + e.message
        + ", ATT: " + CodeText(e.attErrorCode)
        + ", iOS: " + CodeText(e.iosErrorCode)
        + ", android: " + CodeText(e.androidErrorCode))
  }

  /** The reducer. Besides the per-action lemmas below, its contract records
      what holds for every action: the error slot is never touched, logs are
      only ever cleared or extended by one entry at the front, an active tag
      is only dropped by FORGET_SENSOR_TAG, and the running-test slot changes
      only on TEST_FINISHED or on EXECUTE_TEST while connected. */
  function Reduce(s: ReduxState, a: Action): (r: ReduxState)
    ensures r.activeError == s.activeError
    ensures a.ClearLogs? ==> r.logs == []
    ensures !a.ClearLogs? ==> r.logs == s.logs || (|r.logs| == |s.logs| + 1 && r.logs[1..] == s.logs)
    ensures s.activeSensorTag.Some? && !a.ForgetSensorTag? ==> r.activeSensorTag == s.activeSensorTag
    ensures r.currentTest != s.currentTest ==>
              (a.TestFinished? && r.currentTest.None?)
              || (a.ExecuteTest? && s.connectionState == Connected && r.currentTest == Some(a.id))
    ensures r.connectionState != s.connectionState ==> a.UpdateConnectionState?
    ensures a.ExecuteTest? && s.connectionState != Connected ==> r == s
    ensures a.Connect? || a.Disconnect? || a.Unrecognised? ==> r == s
  {
    match a
    case Log(message) => s.(logs := [message] + s.logs)
    case ClearLogs => s.(logs := [])
    case UpdateConnectionState(c) =>
      s.(connectionState := c, logs := ["Connection state changed: " + ConnectionStateName(c)] + s.logs)
    case BleStateUpdated(b) =>
      s.(bleState := b, logs := ["BLE state changed: " + BleStateName(b)] + s.logs)
    case SensorTagFound(d) =>
      if s.activeSensorTag.Some? then s
      else s.(activeSensorTag := Some(d), logs := ["SensorTag found: " + d.id] + s.logs)
    case ForgetSensorTag => s.(activeSensorTag := None)
    case ExecuteTest(id) =>
      if s.connectionState != Connected then s else s.(currentTest := Some(id))
    case TestFinished => s.(currentTest := None)
    case Connect(_) => s
    case Disconnect => s
    case Unrecognised(_) => s
  }

  /** The store calls the reducer with no state first; the default parameter
      then supplies the initial state. */
  function ReduceOrInit(s: Option<ReduxState>, a: Action): (r: ReduxState)
    ensures s.None? ==> r == Reduce(InitialState, a)
    ensures s.None? && a.Unrecognised? ==> r == InitialState
    ensures s.Some? ==> r == Reduce(s.value, a)
  {
    Reduce(match s case Some(st) => st case None => InitialState, a)
  }

  // ---- one lemma per reducer case ----

  lemma ReduceLog(s: ReduxState, m: string)
    ensures Reduce(s, Log(m)) == s.(logs := [m] + s.logs)
  {}

  lemma ReduceClearLogs(s: ReduxState)
    ensures Reduce(s, ClearLogs) == s.(logs := [])
  {}

  lemma ReduceConnectionState(s: ReduxState, c: ConnectionState)
    ensures Reduce(s, UpdateConnectionState(c))
         == s.(connectionState := c, logs := ["Connection state changed: " + ConnectionStateName(c)] + s.logs)
  {}

  lemma ReduceBleState(s: ReduxState, b: BleState)
    ensures Reduce(s, BleStateUpdated(b))
         == s.(bleState := b, logs := ["BLE state changed: " + BleStateName(b)] + s.logs)
  {}

  /** First discovered tag wins. */
  lemma ReduceSensorTagFound(s: ReduxState, d: Device)
    ensures s.activeSensorTag.Some? ==> Reduce(s, SensorTagFound(d)) == s
    ensures s.activeSensorTag.None? ==>
              Reduce(s, SensorTagFound(d)) == s.(activeSensorTag := Some(d), logs := ["SensorTag found: " + d.id] + s.logs)
  {}

  lemma ReduceForget(s: ReduxState)
    ensures Reduce(s, ForgetSensorTag) == s.(activeSensorTag := None)
  {}

  lemma ReduceExecuteTest(s: ReduxState, id: string)
    ensures Reduce(s, ExecuteTest(id)) == if s.connectionState == Connected then s.(currentTest := Some(id)) else s
  {}

  lemma ReduceTestFinished(s: ReduxState)
    ensures Reduce(s, TestFinished) == s.(currentTest := None)
  {}

  lemma InitialStateFields()
    ensures InitialState.bleState == Unknown && InitialState.connectionState == Disconnected
    ensures InitialState.activeSensorTag.None? && InitialState.currentTest.None? && InitialState.logs == []
  {}

  // ---- dispatching a sequence of actions ----

  /** The state after the store has dispatched `xs` in order, starting from `s`. */
  function Run(s: ReduxState, xs: seq<Action>): ReduxState {
    if xs == [] then s else Reduce(Run(s, xs[..|xs| - 1]), xs[|xs| - 1])
  }

  lemma {:induction false} RunAppend(s: ReduxState, xs: seq<Action>, ys: seq<Action>)
    ensures Run(s, xs + ys) == Run(Run(s, xs), ys)
  {
    if ys != [] {
      var zs := xs + ys;
      assert zs[..|zs| - 1] == xs + ys[..|ys| - 1];
      RunAppend(s, xs, ys[..|ys| - 1]);
    } else {
      assert xs + ys == xs;
    }
  }

  /** Once a tag is active, no sequence of actions without FORGET_SENSOR_TAG
      replaces or clears it. */
  lemma {:induction false} TagKeptUntilForget(s: ReduxState, xs: seq<Action>)
    requires s.activeSensorTag.Some?
    requires forall i :: 0 <= i < |xs| ==> !xs[i].ForgetSensorTag?
    ensures Run(s, xs).activeSensorTag == s.activeSensorTag
  {
    if xs != [] {
      TagKeptUntilForget(s, xs[..|xs| - 1]);
    }
  }

  /** Without CLEAR_LOGS the earlier log list survives unchanged as the tail
      of the current one: new entries only ever go in front. */
  lemma {:induction false} LogsNewestFirst(s: ReduxState, xs: seq<Action>)
    requires forall i :: 0 <= i < |xs| ==> !xs[i].ClearLogs?
    ensures var l := Run(s, xs).logs; |l| >= |s.logs| && l[|l| - |s.logs|..] == s.logs
  {
    if xs != [] {
      var prefix, last := xs[..|xs| - 1], xs[|xs| - 1];
      assert !last.ClearLogs? && forall i :: 0 <= i < |prefix| ==> prefix[i] == xs[i];
      LogsNewestFirst(s, prefix);
      assert Run(s, xs) == Reduce(Run(s, prefix), last);
      TailSurvivesPush(Run(s, prefix).logs, Run(s, xs).logs, s.logs);
    }
  }

  /** Pushing one entry at the front keeps every tail of the list. */
  lemma TailSurvivesPush(before: seq<string>, after: seq<string>, tail: seq<string>)
    requires after == before || (|after| == |before| + 1 && after[1..] == before)
    requires |before| >= |tail| && before[|before| - |tail|..] == tail
    ensures |after| >= |tail| && after[|after| - |tail|..] == tail
  {
    if after != before {
      assert after[|after| - |tail|..] == after[1..][|before| - |tail|..];
    }
  }

  /** A running test id can only have come from an EXECUTE_TEST for that id
      dispatched while the connection state was CONNECTED. */
  lemma {:induction false} TestStartedWhileConnected(s: ReduxState, xs: seq<Action>, id: string)
    requires Run(s, xs).currentTest == Some(id) && s.currentTest != Some(id)
    ensures exists i :: 0 <= i < |xs| && xs[i] == ExecuteTest(id) && Run(s, xs[..i]).connectionState == Connected
  {
    var n := |xs| - 1;
    var prefix, last := xs[..n], xs[n];
    assert Run(s, xs) == Reduce(Run(s, prefix), last);
    if Run(s, prefix).currentTest == Some(id) {
      TestStartedWhileConnected(s, prefix, id);
      var i :| 0 <= i < |prefix| && prefix[i] == ExecuteTest(id) && Run(s, prefix[..i]).connectionState == Connected;
      assert xs[..i] == prefix[..i];
    }
  }

  /** The connection state that a sequence of actions leaves behind: that of
      its last UPDATE_CONNECTION_STATE, or `init` if it has none. */
  function LastConnectionState(xs: seq<Action>, init: ConnectionState): ConnectionState {
    if xs == [] then init
    else if xs[|xs| - 1].UpdateConnectionState? then xs[|xs| - 1].state
    else LastConnectionState(xs[..|xs| - 1], init)
  }

  lemma {:induction false} LastConnectionStateAppend(xs: seq<Action>, ys: seq<Action>, init: ConnectionState)
    ensures LastConnectionState(xs + ys, init) == LastConnectionState(ys, LastConnectionState(xs, init))
  {
    if ys != [] {
      var zs := xs + ys;
      assert zs[..|zs| - 1] == xs + ys[..|ys| - 1];
      LastConnectionStateAppend(xs, ys[..|ys| - 1], init);
    } else {
      assert xs + ys == xs;
    }
  }

  /** The store's connection state is exactly the last one announced. */
  lemma {:induction false} RunConnectionState(s: ReduxState, xs: seq<Action>)
    ensures Run(s, xs).connectionState == LastConnectionState(xs, s.connectionState)
  {
    if xs != [] {
      RunConnectionState(s, xs[..|xs| - 1]);
    }
  }
}
