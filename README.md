# SensorTag BLE playground: a verified model of its orchestration core

This project models the core of a React Native app that talks to a TI
SensorTag over Bluetooth Low Energy. The app works like this:

- A Redux store holds the log feed, the connection state and the active tag.
- Long-running sagas watch the adapter state and start or stop scanning.
- They connect to the discovered tag and run scripted GATT tests against it.
- A screen shows a status label and enables or disables its buttons from the store.

The Dafny modules follow the source files:

| module | file | what it holds |
|---|---|---|
| `Basics` | `basics.dfy` | `Option`, `Result`, and the decimal text JavaScript gives a non-negative integer |
| `Reducer` | `reducer.dfy` | actions, the store's state, `logError`, the reducer, and runs of actions |
| `ScanSaga` | `scan_saga.dfy` | `handleBleState`, the `handleScanning` controller (a class), and the `scan` task |
| `ConnectionSaga` | `connection_saga.dfy` | `handleConnection`, as a step function plus a class that implements it, and `executeTest` |
| `SensorTagTests` | `sensortag_tests.dfy` | `readAllCharacteristics` (nested loops checked against a specification walk), `readTemperature`, and the registry |
| `App` | `app.dfy` | `arrayBufferToHex` (a loop checked against an encoder with a decoder), and the `_log` list (a class) |
| `SensorTagView` | `sensortag_view.dfy` | the props projection, the status label, the button predicates, and what a press dispatches |

Concurrency is turned into data:

- A saga's `take`, `race` and hardware call become an input: the next event, or the outcome of the call.
- A forked or cancelled task becomes an entry in an effect log.
- The two task slots are tracked against the set of live tasks. A task is live from its fork until it is cancelled. A task that has returned on its own still counts as live, because its slot still names it: a scan denied permission, a scan whose loop ended, or a test that finished. Live therefore does not mean running.

## Model

| member | source | states |
|---|---|---|
| Basics.Decimal | App.js:60 | The text of a number is one or more digits, with no leading zero when the number is positive; it is one character exactly when the number is below 10 |
| Basics.DecimalRoundTrip | App.js:60 | Parsing the decimal text of n gives n back |
| Basics.DecimalInjective | src/Saga.js:255 | Distinct numbers render as distinct texts |
| Reducer.CodeText | src/Reducer.js:101-105 | `code \|\| "null"` prints "null" exactly for a missing code or the code 0; any other code prints as digits that parse back to the code |
| Reducer.LogError | src/Reducer.js:96-107 | A LOG action reading "ERROR: msg, ATT: a, iOS: i, android: d", where each code is rendered as CodeText says |
| Reducer.Reduce | src/Reducer.js:172-215 | For every action: the error slot never changes. CLEAR_LOGS empties the logs; any other action keeps them or adds one entry at the front. An active tag is dropped only by FORGET_SENSOR_TAG. The running test changes only when TEST_FINISHED clears it, or when EXECUTE_TEST while CONNECTED sets it to that test's id. The connection state changes only on UPDATE_CONNECTION_STATE. CONNECT, DISCONNECT, unknown actions, and EXECUTE_TEST while not connected return the state unchanged |
| Reducer.ReduceOrInit | src/Reducer.js:172-175 | With no state, the action is reduced from the initial state, so the store's init action yields exactly the initial state; with a state, the action is reduced from it |
| Reducer.ReduceLog | src/Reducer.js:177-178 | LOG prepends its message and changes no other field |
| Reducer.ReduceClearLogs | src/Reducer.js:179-180 | CLEAR_LOGS empties the logs and changes no other field |
| Reducer.ReduceConnectionState | src/Reducer.js:181-186 | UPDATE_CONNECTION_STATE sets the state and prepends "Connection state changed: " + its name |
| Reducer.ReduceBleState | src/Reducer.js:187-192 | BLE_STATE_UPDATED sets the adapter state and prepends "BLE state changed: " + its name |
| Reducer.ReduceSensorTagFound | src/Reducer.js:193-199 | The first tag wins: with a tag already active the state is returned unchanged; otherwise the tag is set and "SensorTag found: " + id is prepended |
| Reducer.ReduceForget | src/Reducer.js:200-204 | FORGET_SENSOR_TAG clears the tag and adds no log entry |
| Reducer.ReduceExecuteTest | src/Reducer.js:205-209 | EXECUTE_TEST is the identity unless CONNECTED, and then only sets the running test |
| Reducer.ReduceTestFinished | src/Reducer.js:210-211 | TEST_FINISHED clears the running test and nothing else |
| Reducer.InitialStateFields | src/Reducer.js:80-87 | The initial state is Unknown / DISCONNECTED / no tag / no test / no logs |
| Reducer.RunAppend | src/Reducer.js:172-215 | Dispatching xs then ys is the same as dispatching xs + ys |
| Reducer.TagKeptUntilForget | src/Reducer.js:193-204 | Once a tag is active, no run of actions without FORGET_SENSOR_TAG changes it |
| Reducer.LogsNewestFirst | src/Reducer.js:177-199 | Without CLEAR_LOGS the earlier logs survive intact as the tail: new entries only go in front |
| Reducer.TestStartedWhileConnected | src/Reducer.js:205-211 | A running test id came from an EXECUTE_TEST for that id that was dispatched while CONNECTED |
| Reducer.LastConnectionStateAppend | src/Reducer.js:181-186 | The last announced connection state of xs + ys is the last one in ys, read from the one xs leaves |
| Reducer.RunConnectionState | src/Reducer.js:181-186 | The store's connection state is exactly the last one announced |
| ScanSaga.WatchBleState | src/Saga.js:46-66 | Each adapter notification becomes one BLE_STATE_UPDATED action, in order, none dropped or merged |
| ScanSaga.ScanningEnabled | src/Saga.js:98-101 | The rule: scan when the adapter is PoweredOn and the connection state is DISCONNECTED or DISCONNECTING; so never unless PoweredOn, and never while connecting, discovering or connected |
| ScanSaga.MirrorsAreLastAnnounced | src/Saga.js:84-96 | Each watched action updates only its own mirror, so the mirrors are the last adapter state and the last connection state announced, starting from Unknown / DISCONNECTED |
| ScanSaga.LastBleStateWasAnnounced | src/Saga.js:89-92 | A mirrored adapter state other than the initial one was announced by some action |
| ScanSaga.NoScanBeforePoweredOn | src/Saga.js:74-101 | The scan rule can only hold after a BLE_STATE_UPDATED(PoweredOn) has been seen |
| ScanSaga.LiveAppend | src/Saga.js:103-113 | A fork adds its task to the live set; a cancel removes it |
| ScanSaga.ScanController.constructor | src/Saga.js:74-82 | The controller starts with no task, mirrors Unknown / DISCONNECTED, and has seen nothing |
| ScanSaga.ScanController.Take | src/Saga.js:85-96 | A watched action moves only its own mirror, and the mirrors stay those of everything seen |
| ScanSaga.ScanController.Reschedule | src/Saga.js:98-113 | A live task is cancelled either way. A new one, numbered next, is forked exactly when the rule holds, so the slot again names the one live task. The counter advances only on a fork |
| ScanSaga.ScanController.Dispatch | src/Saga.js:84-113 | Unwatched actions change nothing. A watched action updates its mirror. Then, if the rule holds, any live task is cancelled and a new one forked; if not, a live task is cancelled. Forks are numbered consecutively. The slot always names the one live task |
| ScanSaga.RunScanController | src/Saga.js:73-115 | After any input sequence a scan task is live (forked and not yet cancelled) exactly when PoweredOn holds with DISCONNECTED or DISCONNECTING last announced, and never more than one is live |
| ScanSaga.AskPermission | src/Saga.js:120-138 | The permission step logs and calls as PermissionStep says: nothing off Android 23+, a check, then a request when not yet granted, and an abort unless granted; a cancellation while either call is pending ends the task there |
| ScanSaga.TakeEvents | src/Saga.js:160-171 | The scan loop puts each delivery's error message and then its device, in delivery order |
| ScanSaga.Scan | src/Saga.js:119-178 | The task's output and adapter calls equal ScanSpec: permission steps, "Scanning started...", one log or SENSOR_TAG_FOUND per event field in order, "Scanning stopped...", and a stop call only on cancellation; a task cancelled during the permission calls stops after its permission logs |
| ScanSaga.DeniedPermissionAborts | src/Saga.js:120-136 | A denied permission ends the task with the abort log: no scan is started and "Scanning stopped..." is never logged |
| ScanSaga.CancelledDuringPermission | src/Saga.js:120-131 | A task cancelled while the permission check or request is pending logs neither "Scanning started..." nor "Scanning stopped...", never starts or stops the hardware scan, and ends on that pending call and the log before it |
| ScanSaga.StartedScanCleansUp | src/Saga.js:140-178 | Once started, the task always ends with "Scanning stopped...". It stops the hardware scan only when cancelled, as its very last call, and never twice |
| ScanSaga.FoundDevicesAppend | src/Saga.js:168-170 | The devices reported by xs + ys are those of xs, then those of ys |
| ScanSaga.DevicesReportedInOrder | src/Saga.js:161-171 | Every delivered device is reported as SENSOR_TAG_FOUND, in delivery order |
| ConnectionSaga.StepAnnouncesPhase | src/Saga.js:202-242 | After any step, the last connection state announced is the one of the phase the manager lands in |
| ConnectionSaga.StepLeavesTestsAlone | src/Saga.js:222-227 | Only EXECUTE_TEST while connected touches the test tasks or the slot |
| ConnectionSaga.StepKeepsOneTest | src/Saga.js:222-227 | EXECUTE_TEST cancels the live test before forking the next one, so the live tests are exactly the slot's |
| ConnectionSaga.LiveTestsAppend | src/Saga.js:223-226 | A fork adds its test task to the live set; a cancel removes it |
| ConnectionSaga.StepExit | src/Saga.js:228-242 | A step that leaves a cycle is the `finally` cleanup preceded by log lines only |
| ConnectionSaga.ExitAlwaysCleansUp | src/Saga.js:236-242 | Every way out of a cycle ends with TEST_FINISHED then DISCONNECTED and goes back to waiting for CONNECT; the test task is left alone |
| ConnectionSaga.FailedConnectNeverDiscovers | src/Saga.js:203-206 | A failed connect logs its error and cleans up; no discovery is made |
| ConnectionSaga.AnnouncementsFollowSuccess | src/Saga.js:203-207 | DISCOVERING is announced only after a successful connect, and CONNECTED only after a successful discovery |
| ConnectionSaga.UserDisconnect | src/Saga.js:216-221 | DISCONNECT logs "Disconnected by user...", announces DISCONNECTING and cancels the connection; cleanup follows when the cancel returns |
| ConnectionSaga.DeviceDisconnect | src/Saga.js:228-234 | A device disconnect logs "Disconnected by device...", then its error if there is one, then cleans up |
| ConnectionSaga.RunAnnouncesPhase | src/Saga.js:181-244 | Over any event sequence, the last announced connection state is that of the manager's phase |
| ConnectionSaga.RunKeepsOneTest | src/Saga.js:222-227 | Over any event sequence from an empty slot, the only live test task is the slot's, and the slot holds an already-numbered task |
| ConnectionSaga.StoreFollowsManager | src/Saga.js:181-244 | The store, fed the manager's actions, always shows the connection state of the manager's phase |
| ConnectionSaga.AtMostOneTest | src/Saga.js:222-227 | Never more than one test task is live |
| ConnectionSaga.ConnectionManager.constructor | src/Saga.js:182 | The manager starts idle, with an empty slot and an empty record |
| ConnectionSaga.ConnectionManager.Handle | src/Saga.js:184-242 | The imperative manager moves exactly as Step says, and keeps its invariant: the last announced state is its phase's and the slot names the one live test |
| ConnectionSaga.ConnectionManager.AwaitConnect | src/Saga.js:186-204 | Waiting for CONNECT moves and records exactly as StepIdle says |
| ConnectionSaga.ConnectionManager.AwaitConnection | src/Saga.js:204-205 | Waiting for the connect call moves and records exactly as StepConnecting says; a failed call takes the cleanup of lines 236-242 |
| ConnectionSaga.ConnectionManager.AwaitDiscovery | src/Saga.js:206-207 | Waiting for discovery moves and records exactly as StepDiscovering says; a failed call takes the cleanup of lines 236-242 |
| ConnectionSaga.ConnectionManager.AwaitCommand | src/Saga.js:209-235 | Connected, the manager moves and records exactly as StepConnected says |
| ConnectionSaga.ConnectionManager.AwaitCancel | src/Saga.js:219-242 | Waiting for the cancel call moves and records exactly as StepCancelling says |
| ConnectionSaga.SuccessfulCycle | src/Saga.js:203-241 | Each step of a cycle in which every call succeeds lands in the next phase and emits that phase's announcement and call |
| ConnectionSaga.BackToBackTests | src/Saga.js:222-227 | The first EXECUTE_TEST forks task 0; the second cancels task 0 and forks task 1 |
| ConnectionSaga.FullCycle | src/Saga.js:203-241 | A full successful cycle announces CONNECTING, DISCOVERING and CONNECTED. It then logs the user disconnect, announces DISCONNECTING, emits TEST_FINISHED and DISCONNECTED, and calls connect, discover and cancel in that order |
| ConnectionSaga.OverlappingTests | src/Saga.js:222-227 | Two EXECUTE_TEST commands fork test 0, cancel it, then fork test 1 |
| ConnectionSaga.TestSummary | src/Saga.js:253-259 | The summary starts "Test finished successfully! (" on success and "Test failed! (" on failure |
| ConnectionSaga.SummariesDiffer | src/Saga.js:253-259 | The success summary and the failure summary never coincide |
| ConnectionSaga.RunTest | src/Saga.js:246-261 | The test logs "Executing test: " + id, then the script's own logs, one summary with the elapsed time, and TEST_FINISHED; the script's hardware calls are those of the registered script. A test cancelled mid-script puts only a prefix of that output, stopping short of the summary and TEST_FINISHED, and makes only a prefix of those calls |
| SensorTagTests.ServiceAnnouncedFirst | src/Tests.js:29-34 | Each service is announced and has its characteristics listed before anything else about it |
| SensorTagTests.CharacteristicsStopped | src/Tests.js:54-57 | After a failing characteristic, later ones add no logs and no calls |
| SensorTagTests.ServicesStopped | src/Tests.js:54-57 | After a failing service, later ones add no logs and no calls |
| SensorTagTests.ReadCharacteristic | src/Tests.js:36-50 | One inner-loop turn's logs, calls and error equal the characteristic's walk |
| SensorTagTests.ReadCharacteristics | src/Tests.js:35-52 | The inner loop's logs, calls and error equal the walk over the characteristics |
| SensorTagTests.ReadServices | src/Tests.js:29-53 | The outer loop's logs, calls and error equal the walk over the services |
| SensorTagTests.ReadService | src/Tests.js:29-52 | One outer-loop turn equals the service's walk |
| SensorTagTests.ReadAllCharacteristics | src/Tests.js:26-60 | The script's logs, calls and verdict equal ReadAllSpec |
| SensorTagTests.SkippedCharacteristicIsSilent | src/Tests.js:36-37 | The skipped UUID gives no log and no call |
| SensorTagTests.CharacteristicsHealthy | src/Tests.js:35-52 | The inner loop ends without error iff every characteristic's calls succeed |
| SensorTagTests.ServicesHealthy | src/Tests.js:29-53 | The outer loop ends without error iff every service's calls succeed |
| SensorTagTests.PassedIffHealthy | src/Tests.js:26-60 | The script returns true iff no hardware call raised |
| SensorTagTests.FailureEndsWithLogError | src/Tests.js:54-57 | On failure the last log entry is a logError report |
| SensorTagTests.OwnCallsJustified | src/Tests.js:40-50 | A characteristic is read only if readable and not skipped; a value is written back only if it is writable-with-response and only the value just read |
| SensorTagTests.CharacteristicCallsJustified | src/Tests.js:35-52 | Every call of the inner loop is justified by some characteristic of the list |
| SensorTagTests.ServiceCallsJustified | src/Tests.js:29-53 | Every read or write of the outer loop is justified by a listed characteristic |
| SensorTagTests.ValueCallsJustified | src/Tests.js:26-60 | For every peripheral, every read or write the script makes is justified by a listed characteristic; a failed service discovery leads to no read or write at all |
| SensorTagTests.ReadTemperature | src/Tests.js:62-65 | Logs "Read temperature", makes no call, and reports failure |
| SensorTagTests.Registry | src/Tests.js:13-24 | The registry holds exactly READ_ALL_CHARACTERISTICS and READ_TEMPERATURE, each under its own id |
| SensorTagTests.Execute | src/Tests.js:13-24 | Running a registry entry runs its script, as ScriptRun says |
| App.HexDigit | App.js:24 | Every digit `toString(16)` emits is 0-9 or a-f |
| App.HexValue | App.js:24 | Any character reads as a value below 16, and a hex digit reads as the value it stands for |
| App.HexDigitValue | App.js:24 | Reading back the digit of a value below 16 gives that value |
| App.ToHexString | App.js:24 | `toString(16)` gives lowercase hex digits with no leading zero, one digit exactly when the value is below 16 |
| App.HexPair | App.js:24-25 | A byte's pair is two lowercase hex digits |
| App.PaddedHex | App.js:24-25 | `toString(16)`, padded with "0" when it has one digit, is always the byte's pair: high nibble first, with a leading "0" below 16 and never more than two digits |
| App.HexEncode | App.js:22-27 | The text has two characters per byte |
| App.HexEncodeLowercase | App.js:22-27 | The text uses only the lowercase hex digits |
| App.ArrayBufferToHex | App.js:19-28 | A missing buffer yields null; any buffer, the empty one included, yields its hex text |
| App.HexDecode | App.js:22-27 | Decoding gives one byte per two characters |
| App.HexDecodeSnoc | App.js:22-27 | Decoding reads the text a pair at a time, front to back |
| App.HexRoundTrip | App.js:22-27 | Decoding the hex text recovers the bytes |
| App.HexInjective | App.js:19-28 | Distinct buffers give distinct texts |
| App.HexEncodeSnoc | App.js:23-26 | Appending a byte appends its pair |
| App.HexEncodeAppend | App.js:22-27 | The text of xs + ys is the text of xs followed by that of ys, so a prefix encodes to a prefix |
| App.HexEncodeAt | App.js:23-26 | Byte i occupies characters 2i and 2i+1 |
| App.DecimalLength | App.js:60 | A number below 10^k has at most k digits |
| App.Stamp | App.js:60 | A log line is "[", the time modulo 10000 as one to four digits with no leading zero, "] ", then the message unchanged |
| App.LogList.constructor | App.js:31-36 | The list starts empty |
| App.LogList.Log | App.js:59-64 | The stamped entry goes in front; the earlier entries stay behind it, unchanged |
| App.LogAll | App.js:59-64 | After logging a series, the list holds the entries newest first |
| SensorTagView.MapStateToProps | src/SensorTag.js:284-289 | Each prop is the store field of the same meaning, unchanged |
| SensorTagView.SensorTagStatus | src/SensorTag.js:67-83 | The label is "Connecting...", "Discovering..." or "Connected" exactly in those states. Otherwise it is "Found " + id when a tag is present, and "Searching..." exactly when disconnected or disconnecting without a tag |
| SensorTagView.ReadyToConnect | src/SensorTag.js:85-90 | Connect is enabled when a tag is known and the state is DISCONNECTED; then the label reads "Found " + id and Disconnect is disabled |
| SensorTagView.ReadyToDisconnect | src/SensorTag.js:92-94 | Disconnect is enabled when the state is CONNECTED, which is exactly when the label reads "Connected" |
| SensorTagView.ReadyToExecuteTests | src/SensorTag.js:96-101 | A test can be started when CONNECTED with no test running, which is exactly when the label reads "Connected" and no test is current |
| SensorTagView.ForgetEnabled | src/SensorTag.js:142 | Forget is enabled when a tag is known; the label then never reads "Searching...", and Forget is enabled whenever Connect is |
| SensorTagView.Press | src/SensorTag.js:110-147 | A disabled button dispatches nothing. An enabled Connect dispatches CONNECT with the tag, Disconnect dispatches DISCONNECT, Forget dispatches FORGET_SENSOR_TAG, and only Connect dispatches CONNECT |
| SensorTagView.ConnectDisconnectExclusive | src/SensorTag.js:85-94 | Connect and Disconnect are never enabled together, and DISCONNECTING does not enable Connect |
| SensorTagView.ExecuteImpliesDisconnect | src/SensorTag.js:92-101 | When a test may be started, Disconnect is enabled too |
| SensorTagView.ConnectMatchesStatus | src/SensorTag.js:67-90 | Outside DISCONNECTING, Connect is enabled exactly when the label shows "Found ..." |
| SensorTagView.FoundTagEnablesConnect | src/SensorTag.js:85-90 | The first tag found while disconnected enables Connect and Forget |
| SensorTagView.ForgetDisablesConnect | src/SensorTag.js:142 | Forgetting disables Connect and Forget and leaves the connection state alone; when disconnected the label goes back to "Searching..." |
| SensorTagView.TestRunBlocksExecute | src/SensorTag.js:96-101 | Starting a test disables further starts and keeps Disconnect; TEST_FINISHED enables starts again |
| SensorTagView.AnnouncedStateDecidesDisconnect | src/SensorTag.js:92-94 | Disconnect is enabled after an announcement exactly when the announced state is CONNECTED |

## Left out

- The redux-saga scheduler is not modelled: `fork`, `cancel`, `race`, `cancelled`, and the buffering of `eventChannel` and `actionChannel`. Each saga instead takes its next event from a given sequence, and a task is an entry in an effect log.
- The react-native-ble-plx calls are not modelled: scan, connect, discover, cancel, read and write. Their outcomes are inputs (success or a `BleError`, the value read). Base64 values stay opaque strings.
- `PermissionsAndroid` and `Platform.OS`/`Platform.Version` are inputs: the check's answer, the request's answer (either absent when the task is cancelled while that call is pending), a platform name and a version.
- The wall clock (`Date.now()`) is a parameter: the elapsed milliseconds in `executeTest`, and the timestamp in `_log`.
- Rendering, styles and the test-picker modal are not modelled: `showModal`, the Clear button, and the Execute-test button opening the modal. `App.js` `componentDidMount`, `_logError` and `delay` are not modelled either. `src/Store.js`, `src/App.js` and `bleSaga`'s start-up are wiring only.
- Channel buffering in `handleConnection`: the source's `actionChannel` buffers DISCONNECT and EXECUTE_TEST, and its disconnect channel buffers one device disconnection, until the manager takes them. The model instead drops an event offered in a phase that is not waiting for it. Offering it again later shows the buffered behaviour, but the buffer itself is not modelled.
- ConnectionSaga.RunTest: with an id missing from the registry, `SensorTagTests[test.id].execute` throws inside the forked task. The model ends the test after the announcement and does not model how the error propagates to the parent task.
- ScanSaga.Scan: the scan loop ending on a closed channel is an input (`cancelled`). Errors thrown by `put` inside the loop are not modelled.
- ConnectionSaga.RunTest: where a cancellation cuts the test is an input, counted separately in the script's logs and in its device calls; the model does not relate those two counts to the order in which the script interleaves its logs and calls.
- `activeError` is never set by any action in the source; the model carries it untouched.

Behaviour the model takes from the code as written:

- `handleScanning` cancels and re-forks the scan task on every watched action while the rule holds, not only when the rule flips (src/Saga.js:103-107).
- `handleConnection` waits with a plain `take("CONNECT")`, so a CONNECT dispatched during a cycle is not queued; it is lost (src/Saga.js:186).
- Connection cleanup emits TEST_FINISHED but never cancels a running test task, and the test slot is never reset (src/Saga.js:238-242).
- A scan task that ends on its own is neither reset nor retried until the next BLE_STATE_UPDATED or UPDATE_CONNECTION_STATE re-evaluates the rule. It can end on its own through a denied permission (src/Saga.js:132-135), or through its loop ending in the empty `catch` (src/Saga.js:161-172). Until then the slot still names it, and nothing scans even though the rule holds (src/Saga.js:103-107).
- A test task that has finished stays in the test slot until the next EXECUTE_TEST cancels it (src/Saga.js:222-227). So it still counts as live for the test-slot properties.
- The scan task stops the hardware scan only when it is cancelled, because the stop lives in the channel's unsubscribe, which only the cancelled branch reaches (src/Saga.js:155-157, 175-177).
