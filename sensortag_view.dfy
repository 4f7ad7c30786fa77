/** The screen's logic (src/SensorTag.js): the props it takes from the
    store, the status label, which buttons are enabled, and what pressing
    an enabled button dispatches. Rendering and the test-picker modal are
    not modelled. */
module SensorTagView {
  import opened Basics
  import opened Reducer

  /** The part of the store the screen is connected to. */
  datatype Props = Props(
    logs: seq<string>,
    sensorTag: Option<Device>,
    connectionState: ConnectionState,
    currentTest: Option<string>)

  /** The state-to-props projection: each prop is the store field of the
      same meaning, unchanged. */
  function MapStateToProps(s: ReduxState): (p: Props)
    ensures p.logs == s.logs && p.sensorTag == s.activeSensorTag
    ensures p.connectionState == s.connectionState && p.currentTest == s.currentTest
  {
    Props(s.logs, s.activeSensorTag, s.connectionState, s.currentTest)
  }

  /** The header's status text. */
  function SensorTagStatus(p: Props): (status: string)
    ensures status == "Connecting..." <==> p.connectionState == ConnectionState.Connecting
    ensures status == "Discovering..." <==> p.connectionState == ConnectionState.Discovering
    ensures status == "Connected" <==> p.connectionState == ConnectionState.Connected
    ensures (p.connectionState == Disconnected || p.connectionState == Disconnecting) && p.sensorTag.Some? ==>
              status == "Found " + p.sensorTag.value.id
    ensures status == "Searching..." <==>
              (p.connectionState == Disconnected || p.connectionState == Disconnecting) && p.sensorTag.None?
  {
    match p.connectionState
    case Connecting => "Connecting..."
    case Discovering => "Discovering..."
    case Connected => "Connected"
    case _ =>
      if p.sensorTag.Some? then
        var status := "Found " + p.sensorTag.value.id;
        assert status[0] == 'F';
        status
      else "Searching..."
  }

  /** Connect: a tag is known and nothing is connected. The label then
      names the tag, and Disconnect is off. */
  predicate ReadyToConnect(p: Props): (ready: bool)
    ensures ready ==> p.sensorTag.Some? && SensorTagStatus(p) == "Found " + p.sensorTag.value.id
    ensures ready ==> !ReadyToDisconnect(p)
  {
    p.sensorTag.Some? && p.connectionState == Disconnected
  }

  /** Disconnect: the store says CONNECTED, which is exactly when the label
      reads "Connected". */
  predicate ReadyToDisconnect(p: Props): (ready: bool)
    ensures ready <==> SensorTagStatus(p) == "Connected"
  {
    p.connectionState == Connected
  }

  /** Starting a test: connected and no test running. */
  predicate ReadyToExecuteTests(p: Props): (ready: bool)
    ensures ready <==> SensorTagStatus(p) == "Connected" && p.currentTest.None?
  {
    p.connectionState == Connected && p.currentTest.None?
  }

  /** Forget: a tag is known. While one is, the label never reads
      "Searching...". */
  predicate ForgetEnabled(p: Props): (enabled: bool)
    ensures enabled ==> SensorTagStatus(p) != "Searching..."
    ensures ReadyToConnect(p) ==> enabled
  {
    p.sensorTag.Some?
  }

  /** The header buttons that dispatch straight to the store. */
  datatype Button = ConnectButton | DisconnectButton | ForgetButton

  predicate Enabled(b: Button, p: Props) {
    match b
    case ConnectButton => ReadyToConnect(p)
    case DisconnectButton => ReadyToDisconnect(p)
    case ForgetButton => ForgetEnabled(p)
  }

  /** What pressing a button dispatches: nothing while it is disabled. */
  function Press(b: Button, p: Props): (a: Option<Action>)
    ensures a.Some? <==> Enabled(b, p)
    ensures a.Some? ==> (a.value.Connect? <==> b == ConnectButton)
    ensures a.Some? && b == ConnectButton ==> a.value == Connect(p.sensorTag.value)
    ensures a.Some? && b == DisconnectButton ==> a.value == Disconnect
    ensures a.Some? && b == ForgetButton ==> a.value == ForgetSensorTag
  {
    if !Enabled(b, p) then None
    else match b
      case ConnectButton => Some(Connect(p.sensorTag.value))
      case DisconnectButton => Some(Disconnect)
      case ForgetButton => Some(ForgetSensorTag)
  }

  // ---- how the buttons relate ----

  /** Connect and Disconnect are never enabled together, and DISCONNECTING
      does not count as disconnected. */
  lemma ConnectDisconnectExclusive(p: Props)
    ensures !(ReadyToConnect(p) && ReadyToDisconnect(p))
    ensures p.connectionState == Disconnecting ==> !ReadyToConnect(p)
  {}

  /** Whenever a test may be started, Disconnect is available too. */
  lemma ExecuteImpliesDisconnect(p: Props)
    ensures ReadyToExecuteTests(p) ==> ReadyToDisconnect(p)
  {}

  /** Connect is enabled exactly when the status shows a found tag while
      disconnected. */
  lemma ConnectMatchesStatus(p: Props)
    requires p.connectionState != Disconnecting
    ensures ReadyToConnect(p) <==> |SensorTagStatus(p)| >= 6 && SensorTagStatus(p)[..6] == "Found "
  {
    var status := SensorTagStatus(p);
    if !ReadyToConnect(p) && |status| >= 6 {
      assert status == "Connecting..." || status == "Discovering..." || status == "Connected" || status == "Searching...";
      assert status[0] != 'F';
    }
  }

  // ---- the buttons follow the store ----

  /** The first tag found while disconnected enables Connect and Forget. */
  lemma FoundTagEnablesConnect(s: ReduxState, d: Device)
    requires s.activeSensorTag.None? && s.connectionState == Disconnected
    ensures var p := MapStateToProps(Reduce(s, SensorTagFound(d)));
      ReadyToConnect(p) && ForgetEnabled(p) && p.sensorTag == Some(d)
  {}

  /** Forgetting the tag disables Connect and Forget; once disconnected
      the status goes back to searching. The connection state is untouched. */
  lemma ForgetDisablesConnect(s: ReduxState)
    ensures var p := MapStateToProps(Reduce(s, ForgetSensorTag));
      && !ReadyToConnect(p) && !ForgetEnabled(p) && p.connectionState == s.connectionState
      && (p.connectionState == Disconnected || p.connectionState == Disconnecting ==> SensorTagStatus(p) == "Searching...")
  {}

  /** Starting a test while connected disables further test starts until
      TEST_FINISHED arrives, which enables them again if still connected. */
  lemma TestRunBlocksExecute(s: ReduxState, id: string)
    requires ReadyToExecuteTests(MapStateToProps(s))
    ensures var running := Reduce(s, ExecuteTest(id));
      && !ReadyToExecuteTests(MapStateToProps(running))
      && ReadyToDisconnect(MapStateToProps(running))
      && ReadyToExecuteTests(MapStateToProps(Reduce(running, TestFinished)))
  {}

  /** Announcing a connection state decides Disconnect on its own. */
  lemma AnnouncedStateDecidesDisconnect(s: ReduxState, c: ConnectionState)
    ensures ReadyToDisconnect(MapStateToProps(Reduce(s, UpdateConnectionState(c)))) <==> c == Connected
  {}
}
