/** The test scripts that can be run against a connected SensorTag, and their
    registry (src/Tests.js). The peripheral is given as data: its services,
    their characteristics, and what each hardware call answers. */
module SensorTagTests {
  import opened Basics
  import opened Reducer

  /** The one characteristic the read-all script never touches. */
  const SkippedUuid: string := "00002a02-0000-1000-8000-00805f9b34fb"

  /** A characteristic with its flags, what `read()` answers (the base64 value
      or an error) and the error `writeWithResponse()` raises, if any. */
  datatype Characteristic = Characteristic(
    uuid: string,
    isReadable: bool,
    isWritableWithResponse: bool,
    read: Result<string, BleError>,
    write: Option<BleError>)

  /** A service and what listing its characteristics answers. */
  datatype Service = Service(uuid: string, characteristics: Result<seq<Characteristic>, BleError>)

  /** A connected peripheral and what listing its services answers. */
  datatype Peripheral = Peripheral(services: Result<seq<Service>, BleError>)

  /** The hardware calls a script makes, in order. */
  datatype GattCall =
    | ListServices
    | ListCharacteristics(serviceUuid: string)
    | ReadValue(uuid: string)
    | WriteValue(uuid: string, value: string)

  /** What part of a script has done: the LOG actions it put, the hardware
      calls it made, and the error that stopped it, if one did. */
  datatype Walk = Walk(logs: seq<Action>, calls: seq<GattCall>, failure: Option<BleError>)

  const Clean := Walk([], [], None)

  /** Running `w1` and then, unless `w1` stopped on an error, `w2`. */
  function Then(w1: Walk, w2: Walk): Walk {
    if w1.failure.Some? then w1 else Walk(w1.logs + w2.logs, w1.calls + w2.calls, w2.failure)
  }

  /** The body of the inner loop for one characteristic. */
  function CharacteristicWalk(c: Characteristic): Walk {
    if c.uuid == SkippedUuid then Clean
    else
      var found := [Log("Found characteristic: " + c.uuid)];
      if !c.isReadable then Walk(found, [], None)
      else
        match c.read
        case Err(e) => Walk(found + [Log("Reading value...")], [ReadValue(c.uuid)], Some(e))
        case Ok(v) =>
          var got := found + [Log("Reading value..."), Log("Got base64 value: " + v)];
          if !c.isWritableWithResponse then Walk(got, [ReadValue(c.uuid)], None)
          else
            match c.write
            case Some(e) => Walk(got, [ReadValue(c.uuid), WriteValue(c.uuid, v)], Some(e))
            case None => Walk(got + [Log("Successfully written value back")], [ReadValue(c.uuid), WriteValue(c.uuid, v)], None)
  }

  /** The inner loop: characteristics in list order, stopping at the first error. */
  function CharacteristicsWalk(cs: seq<Characteristic>): Walk {
    if cs == [] then Clean else Then(CharacteristicsWalk(cs[..|cs| - 1]), CharacteristicWalk(cs[|cs| - 1]))
  }

  function ServiceHeader(s: Service): Walk {
    Walk([Log("Found service: " + s.uuid)], [ListCharacteristics(s.uuid)], None)
  }

  /** One turn of the outer loop. */
  function ServiceWalk(s: Service): Walk {
    Then(ServiceHeader(s),
         match s.characteristics
         case Err(e) => Walk([], [], Some(e))
         case Ok(cs) => CharacteristicsWalk(cs))
  }

  /** The service is announced, and its characteristics listed, before
      anything about its characteristics is logged or called. */
  lemma ServiceAnnouncedFirst(s: Service)
    ensures var w := ServiceWalk(s);
      && |w.logs| >= 1 && w.logs[0] == Log("Found service: " + s.uuid)
      && |w.calls| >= 1 && w.calls[0] == ListCharacteristics(s.uuid)
  {}

  /** The outer loop: services in list order, stopping at the first error. */
  function ServicesWalk(ss: seq<Service>): Walk {
    if ss == [] then Clean else Then(ServicesWalk(ss[..|ss| - 1]), ServiceWalk(ss[|ss| - 1]))
  }

  const Start := Walk([], [ListServices], None)

  function PeripheralWalk(d: Peripheral): Walk {
    Then(Start,
         match d.services
         case Err(e) => Walk([], [], Some(e))
         case Ok(ss) => ServicesWalk(ss))
  }

  /** What a test script reports: its logs, its hardware calls, its verdict. */
  datatype TestRun = TestRun(logs: seq<Action>, calls: seq<GattCall>, passed: bool)

  /** The read-all script as a value: on the first error it logs that error
      and reports failure, otherwise it reports success. */
  function ReadAllSpec(d: Peripheral): TestRun {
    var w := PeripheralWalk(d);
    match w.failure
    case Some(e) => TestRun(w.logs + [LogError(e)], w.calls, false)
    case None => TestRun(w.logs, w.calls, true)
  }

  /** Once a characteristic has raised, the ones after it add nothing. */
  lemma {:induction false} CharacteristicsStopped(xs: seq<Characteristic>, ys: seq<Characteristic>)
    requires CharacteristicsWalk(xs).failure.Some?
    ensures CharacteristicsWalk(xs + ys) == CharacteristicsWalk(xs)
  {
    if ys == [] {
      assert xs + ys == xs;
    } else {
      var zs := xs + ys;
      assert zs[..|zs| - 1] == xs + ys[..|ys| - 1];
      CharacteristicsStopped(xs, ys[..|ys| - 1]);
    }
  }

  /** Once a service has raised, the services after it add nothing. */
  lemma {:induction false} ServicesStopped(xs: seq<Service>, ys: seq<Service>)
    requires ServicesWalk(xs).failure.Some?
    ensures ServicesWalk(xs + ys) == ServicesWalk(xs)
  {
    if ys == [] {
      assert xs + ys == xs;
    } else {
      var zs := xs + ys;
      assert zs[..|zs| - 1] == xs + ys[..|ys| - 1];
      ServicesStopped(xs, ys[..|ys| - 1]);
    }
  }

  /** The body of the inner loop of `readAllCharacteristics` for one
      characteristic; it stops at the first call that raises. */
  method ReadCharacteristic(c: Characteristic) returns (logs: seq<Action>, calls: seq<GattCall>, failure: Option<BleError>)
    ensures Walk(logs, calls, failure) == CharacteristicWalk(c)
  {
    logs, calls, failure := [], [], None;
    if c.uuid == SkippedUuid {
      return;
    }
    logs := logs + [Log("Found characteristic: " + c.uuid)];
    if !c.isReadable {
      return;
    }
    logs := logs + [Log("Reading value...")];
    calls := calls + [ReadValue(c.uuid)];
    if c.read.Err? {
      failure := Some(c.read.error);
      return;
    }
    var value := c.read.value;
    logs := logs + [Log("Got base64 value: " + value)];
    if c.isWritableWithResponse {
      calls := calls + [WriteValue(c.uuid, value)];
      if c.write.Some? {
        failure := c.write;
        return;
      }
      logs := logs + [Log("Successfully written value back")];
    }
  }

  /** The inner loop of `readAllCharacteristics` over one service's
      characteristics, in list order, ending at the first error. */
  method ReadCharacteristics(cs: seq<Characteristic>) returns (logs: seq<Action>, calls: seq<GattCall>, failure: Option<BleError>)
    ensures Walk(logs, calls, failure) == CharacteristicsWalk(cs)
  {
    logs, calls, failure := [], [], None;
    for j := 0 to |cs|
      invariant Walk(logs, calls, None) == CharacteristicsWalk(cs[..j])
    {
      assert cs[..j + 1][..j] == cs[..j];
      var ownLogs, ownCalls, own := ReadCharacteristic(cs[j]);
      logs, calls := logs + ownLogs, calls + ownCalls;
      if own.Some? {
        failure := own;
        assert cs[..j + 1] + cs[j + 1..] == cs;
        CharacteristicsStopped(cs[..j + 1], cs[j + 1..]);
        return;
      }
    }
    assert cs[..|cs|] == cs;
  }

  /** One turn of the outer loop of `readAllCharacteristics`. */
  method ReadService(service: Service) returns (logs: seq<Action>, calls: seq<GattCall>, failure: Option<BleError>)
    ensures Walk(logs, calls, failure) == ServiceWalk(service)
  {
    logs := [Log("Found service: " + service.uuid)];
    calls := [ListCharacteristics(service.uuid)];
    if service.characteristics.Err? {
      failure := Some(service.characteristics.error);
      assert logs + [] == logs && calls + [] == calls;
    } else {
      var serviceLogs, serviceCalls;
      serviceLogs, serviceCalls, failure := ReadCharacteristics(service.characteristics.value);
      logs, calls := logs + serviceLogs, calls + serviceCalls;
    }
  }

  /** The outer loop of `readAllCharacteristics`: services in list order,
      ending at the first error. */
  method ReadServices(services: seq<Service>) returns (logs: seq<Action>, calls: seq<GattCall>, failure: Option<BleError>)
    ensures Walk(logs, calls, failure) == ServicesWalk(services)
  {
    logs, calls, failure := [], [], None;
    for i := 0 to |services|
      invariant Walk(logs, calls, None) == ServicesWalk(services[..i])
    {
      assert services[..i + 1][..i] == services[..i];
      var ownLogs, ownCalls, own := ReadService(services[i]);
      logs, calls := logs + ownLogs, calls + ownCalls;
      if own.Some? {
        failure := own;
        assert services[..i + 1] + services[i + 1..] == services;
        ServicesStopped(services[..i + 1], services[i + 1..]);
        return;
      }
    }
    assert services[..|services|] == services;
  }

  /** `readAllCharacteristics`: list the services and walk them; the first
      error is logged and ends the script with `false`. */
  method ReadAllCharacteristics(d: Peripheral) returns (logs: seq<Action>, calls: seq<GattCall>, passed: bool)
    ensures TestRun(logs, calls, passed) == ReadAllSpec(d)
  {
    var failure: Option<BleError>;
    if d.services.Err? {
      logs, calls, failure := [], [ListServices], Some(d.services.error);
    } else {
      var walkLogs, walkCalls;
      walkLogs, walkCalls, failure := ReadServices(d.services.value);
      logs, calls := walkLogs, [ListServices] + walkCalls;
    }
    assert Walk(logs, calls, failure) == PeripheralWalk(d);
    if failure.Some? {
      logs := logs + [LogError(failure.value)];
      passed := false;
    } else {
      passed := true;
    }
  }

  // ---- what the read-all script guarantees ----

  /** The characteristic with the skipped uuid contributes no log and no call. */
  lemma SkippedCharacteristicIsSilent(c: Characteristic)
    requires c.uuid == SkippedUuid
    ensures CharacteristicWalk(c) == Clean
  {}

  /** A characteristic whose calls all succeed (or are never made). */
  predicate CharacteristicHealthy(c: Characteristic) {
    c.uuid == SkippedUuid || !c.isReadable || (c.read.Ok? && (!c.isWritableWithResponse || c.write.None?))
  }

  predicate ServiceHealthy(s: Service) {
    s.characteristics.Ok? &&
    forall j :: 0 <= j < |s.characteristics.value| ==> CharacteristicHealthy(s.characteristics.value[j])
  }

  /** A peripheral on which none of the calls the script makes raises. */
  predicate Healthy(d: Peripheral) {
    d.services.Ok? && forall i :: 0 <= i < |d.services.value| ==> ServiceHealthy(d.services.value[i])
  }

  lemma {:induction false} CharacteristicsHealthy(cs: seq<Characteristic>)
    ensures CharacteristicsWalk(cs).failure.None? <==> forall j :: 0 <= j < |cs| ==> CharacteristicHealthy(cs[j])
  {
    if cs != [] {
      var n := |cs| - 1;
      CharacteristicsHealthy(cs[..n]);
      assert forall j :: 0 <= j < n ==> cs[..n][j] == cs[j];
    }
  }

  lemma {:induction false} ServicesHealthy(ss: seq<Service>)
    ensures ServicesWalk(ss).failure.None? <==> forall i :: 0 <= i < |ss| ==> ServiceHealthy(ss[i])
  {
    if ss != [] {
      var n := |ss| - 1;
      ServicesHealthy(ss[..n]);
      assert forall i :: 0 <= i < n ==> ss[..n][i] == ss[i];
      if ss[n].characteristics.Ok? {
        CharacteristicsHealthy(ss[n].characteristics.value);
      }
    }
  }

  /** The script reports success exactly when no hardware call it makes
      raises an error. */
  lemma PassedIffHealthy(d: Peripheral)
    ensures ReadAllSpec(d).passed <==> Healthy(d)
  {
    if d.services.Ok? {
      ServicesHealthy(d.services.value);
    }
  }

  /** On failure the last log entry is the error report. */
  lemma FailureEndsWithLogError(d: Peripheral)
    ensures !ReadAllSpec(d).passed ==>
              exists e :: ReadAllSpec(d).logs[|ReadAllSpec(d).logs| - 1] == LogError(e)
  {
    var w := PeripheralWalk(d);
    if w.failure.Some? {
      var logs := ReadAllSpec(d).logs;
      assert logs[|logs| - 1] == LogError(w.failure.value);
    }
  }

  /** The reads and writes that characteristic `c` justifies: a read only of a
      readable characteristic, a write only of one that is also writable with
      response, carrying the value the read returned; never the skipped uuid. */
  predicate CallOf(c: Characteristic, call: GattCall) {
    c.uuid != SkippedUuid && c.isReadable &&
    match call
    case ReadValue(u) => u == c.uuid
    case WriteValue(u, v) => u == c.uuid && c.isWritableWithResponse && c.read == Ok(v)
    case _ => false
  }

  lemma OwnCallsJustified(c: Characteristic)
    ensures forall k :: 0 <= k < |CharacteristicWalk(c).calls| ==> CallOf(c, CharacteristicWalk(c).calls[k])
  {}

  lemma {:induction false} CharacteristicCallsJustified(cs: seq<Characteristic>)
    ensures forall k :: 0 <= k < |CharacteristicsWalk(cs).calls| ==>
              exists j :: 0 <= j < |cs| && CallOf(cs[j], CharacteristicsWalk(cs).calls[k])
  {
    if cs != [] {
      var n := |cs| - 1;
      var prefix := cs[..n];
      CharacteristicCallsJustified(prefix);
      var w := CharacteristicsWalk(cs);
      var pw := CharacteristicsWalk(prefix);
      forall k | 0 <= k < |w.calls|
        ensures exists j :: 0 <= j < |cs| && CallOf(cs[j], w.calls[k])
      {
        if k < |pw.calls| {
          var j :| 0 <= j < |prefix| && CallOf(prefix[j], pw.calls[k]);
          assert cs[j] == prefix[j] && w.calls[k] == pw.calls[k];
        } else {
          OwnCallsJustified(cs[n]);
          assert w.calls[k] == CharacteristicWalk(cs[n]).calls[k - |pw.calls|];
        }
      }
    } else {
      assert CharacteristicsWalk(cs).calls == [];
    }
  }

  /** Every characteristic the peripheral lists, service by service. */
  function ListedCharacteristics(ss: seq<Service>): seq<Characteristic> {
    if ss == [] then []
    else ListedCharacteristics(ss[..|ss| - 1])
         + match ss[|ss| - 1].characteristics case Ok(cs) => cs case Err(_) => []
  }

  /** A read or write call: what the readable/writable rules are about. */
  predicate IsValueCall(call: GattCall) {
    call.ReadValue? || call.WriteValue?
  }

  lemma {:induction false} ServiceCallsJustified(ss: seq<Service>)
    ensures forall k :: 0 <= k < |ServicesWalk(ss).calls| && IsValueCall(ServicesWalk(ss).calls[k]) ==>
              exists c :: c in ListedCharacteristics(ss) && CallOf(c, ServicesWalk(ss).calls[k])
  {
    if ss != [] {
      var n := |ss| - 1;
      var prefix := ss[..n];
      ServiceCallsJustified(prefix);
      var s := ss[n];
      var w := ServicesWalk(ss);
      var pw := ServicesWalk(prefix);
      var listed := ListedCharacteristics(ss);
      var own := match s.characteristics case Ok(cs) => cs case Err(_) => [];
      assert listed == ListedCharacteristics(prefix) + own;
      if s.characteristics.Ok? {
        CharacteristicCallsJustified(own);
      }
      forall k | 0 <= k < |w.calls| && IsValueCall(w.calls[k])
        ensures exists c :: c in listed && CallOf(c, w.calls[k])
      {
        if k < |pw.calls| {
          var c :| c in ListedCharacteristics(prefix) && CallOf(c, pw.calls[k]);
          assert c in listed;
        } else {
          var sw := ServiceWalk(s);
          assert w.calls == pw.calls + sw.calls;
          var k' := k - |pw.calls|;
          assert sw.calls[k'] == w.calls[k];
          assert k' >= 1;
          var cw := CharacteristicsWalk(own);
          assert sw.calls == [ListCharacteristics(s.uuid)] + cw.calls;
          assert cw.calls[k' - 1] == w.calls[k];
          var j :| 0 <= j < |own| && CallOf(own[j], cw.calls[k' - 1]);
          assert own[j] in listed;
        }
      }
    }
  }

  /** Reads and writes of the whole script follow the rules of CallOf: no
      read of an unreadable characteristic, no write-back unless it is also
      writable with response, the written value is the value read, and the
      skipped uuid is never read or written. */
  lemma ValueCallsJustified(d: Peripheral)
    ensures forall k :: 0 <= k < |ReadAllSpec(d).calls| && IsValueCall(ReadAllSpec(d).calls[k]) ==>
              d.services.Ok? && exists c :: c in ListedCharacteristics(d.services.value) && CallOf(c, ReadAllSpec(d).calls[k])
  {
    if d.services.Err? {
      assert ReadAllSpec(d).calls == [ListServices];
      return;
    }
    var ss := d.services.value;
    ServiceCallsJustified(ss);
    var calls := ReadAllSpec(d).calls;
    assert calls == [ListServices] + ServicesWalk(ss).calls;
    forall k | 0 <= k < |calls| && IsValueCall(calls[k])
      ensures exists c :: c in ListedCharacteristics(ss) && CallOf(c, calls[k])
    {
      assert ServicesWalk(ss).calls[k - 1] == calls[k];
    }
  }

  // ---- the other script and the registry ----

  /** `readTemperature`: a placeholder that logs and reports failure. */
  method ReadTemperature(d: Peripheral) returns (logs: seq<Action>, calls: seq<GattCall>, passed: bool)
    ensures logs == [Log("Read temperature")] && calls == [] && !passed
  {
    logs := [Log("Read temperature")];
    calls := [];
    passed := false;
  }

  datatype Script = ReadAllCharacteristicsScript | ReadTemperatureScript

  datatype TestMetadata = TestMetadata(id: string, title: string, execute: Script)

  /** `SensorTagTests`: every entry is filed under its own id. */
  function Registry(): (r: map<string, TestMetadata>)
    ensures forall k :: k in r ==> r[k].id == k
    ensures r.Keys == {"READ_ALL_CHARACTERISTICS", "READ_TEMPERATURE"}
  {
    map[
      "READ_ALL_CHARACTERISTICS" := TestMetadata("READ_ALL_CHARACTERISTICS", "Read all characteristics", ReadAllCharacteristicsScript),
      "READ_TEMPERATURE" := TestMetadata("READ_TEMPERATURE", "Read temperature", ReadTemperatureScript)
    ]
  }

  /** What running a registered script against a peripheral reports. */
  function ScriptRun(script: Script, d: Peripheral): TestRun {
    match script
    case ReadAllCharacteristicsScript => ReadAllSpec(d)
    case ReadTemperatureScript => TestRun([Log("Read temperature")], [], false)
  }

  /** Runs the script of a registry entry against a peripheral. */
  method Execute(script: Script, d: Peripheral) returns (logs: seq<Action>, calls: seq<GattCall>, passed: bool)
    ensures TestRun(logs, calls, passed) == ScriptRun(script, d)
  {
    match script
    case ReadAllCharacteristicsScript =>
      logs, calls, passed := ReadAllCharacteristics(d);
    case ReadTemperatureScript =>
      logs, calls, passed := ReadTemperature(d);
  }
}
