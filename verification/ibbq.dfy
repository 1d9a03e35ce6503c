/**
 * The iBBQ BLE protocol driver (`ibbq.cpp`): the payload decoders and the
 * event-driven connection lifecycle
 * START_SCAN -> DISCOVERED -> CONNECTED -> AUTHENTICATED -> REQUEST_STATE,
 * with the disconnect callback as the way back to START_SCAN.
 *
 * The BLE transport is not modelled: every outcome it decides (the scan
 * results, the peer's GATT table, the RSSI reading) is an input, and every
 * request the driver makes of it is appended to a command log.
 */
module Ibbq {
  import opened Base
  import opened IbbqTypes

  /** Full-scale battery voltage used when the device reports a maximum of 0. */
  const MAX_VOLTAGE: nat := 6550
  /** Delay of the one-shot battery timer, in microseconds. */
  const BATTERY_INTERVAL_US: nat := 30_000_000
  /** Duration of one active scan, in seconds. */
  const SCAN_SECONDS: nat := 5
  /** Advertised name that identifies a thermometer. */
  const DEVICE_NAME: string := "iBBQ"

  /** 16-bit forms of the 128-bit UUIDs 0000xxxx-0000-1000-8000-00805f9b34fb. */
  const SERVICE_UUID: Uint16 := 0xFFF0
  const SETTINGS_RESULT_UUID: Uint16 := 0xFFF1
  const ACCOUNT_VERIFY_UUID: Uint16 := 0xFFF2
  const HISTORY_DATA_UUID: Uint16 := 0xFFF3
  const REALTIME_DATA_UUID: Uint16 := 0xFFF4
  const SETTINGS_UUID: Uint16 := 0xFFF5

  /**
   * The Client Characteristic Configuration Descriptor and the value that
   * enables notifications (Bluetooth Core Specification, Vol 3, Part G,
   * section 3.3.3.3).
   */
  const CCCD_UUID: Uint16 := 0x2902
  const NOTIFICATION_ON: seq<Byte> := [0x01, 0x00]

  /** Command payloads. */
  const CREDENTIALS: seq<Byte> :=
    [0x21, 0x07, 0x06, 0x05, 0x04, 0x03, 0x02, 0x01, 0xB8, 0x22, 0x00, 0x00, 0x00, 0x00, 0x00]
  const ENABLE_REALTIME_DATA: seq<Byte> := [0x0B, 0x01, 0x00, 0x00, 0x00, 0x00]
  const UNIT_CELSIUS: seq<Byte> := [0x02, 0x00, 0x00, 0x00, 0x00, 0x00]
  const BATTERY_LEVEL: seq<Byte> := [0x08, 0x24, 0x00, 0x00, 0x00, 0x00]

  // ---------------------------------------------------------------------------
  // Payload decoders
  // ---------------------------------------------------------------------------

  /**
   * `littleEndianInt`: the high byte shifted left by 8 and kept in 16 bits,
   * OR-ed with the low byte.
   */
  function LittleEndian16(lo: Byte, hi: Byte): (r: Uint16)
    ensures r == lo + 256 * hi
  {
    assert Pow2(8) == 256;
    BitOrDisjoint(hi, lo, 8);
    BitOr((hi * 256) % 0x1_0000, lo)
  }

  /** One temperature (whole degrees) per complete little-endian pair. */
  function DecodePairs(payload: seq<Byte>): (temps: seq<int>)
    ensures |temps| == |payload| / 2
    ensures forall k :: 0 <= k < |temps| ==>
      temps[k] == (payload[2 * k] as int + 256 * payload[2 * k + 1] as int) / 10
  {
    if |payload| < 2 then []
    else [LittleEndian16(payload[0], payload[1]) / 10] + DecodePairs(payload[2..])
  }

  /**
   * The realtime notification decoded into at most `MAX_PROBE_COUNT`
   * temperatures, probe `k` taken from bytes `2k` and `2k + 1`.
   */
  function DecodeRealtime(payload: seq<Byte>): (temps: seq<int>)
    ensures |temps| == Min(|payload| / 2, MAX_PROBE_COUNT) <= MAX_PROBE_COUNT
    ensures forall k :: 0 <= k < |temps| ==>
      0 <= temps[k] < 6554 &&
      temps[k] == (payload[2 * k] as int + 256 * payload[2 * k + 1] as int) / 10
  {
    DecodePairs(payload[..Min(|payload|, 2 * MAX_PROBE_COUNT)])
  }

  /** What `realtimeDataCallback` leaves behind when its accesses stay in bounds. */
  datatype RealtimeEffect = RealtimeEffect(temps: seq<int>, probeCount: nat)

  /**
   * `realtimeDataCallback` as written: the probe count becomes half the
   * payload length, and the loop, stepping through the payload two bytes at a
   * time, stores each decoded pair at the BYTE offset of the pair rather than
   * at its probe number. `None` stands for a run that reads the byte after the
   * payload or writes past `temps[7]` (undefined behaviour).
   */
  function RealtimeAsWritten(temps: seq<int>, payload: seq<Byte>): Option<RealtimeEffect>
    requires |temps| == MAX_PROBE_COUNT
  {
    match RealtimeLoopAsWritten(temps, payload, 0)
    case None => None
    case Some(t) => Some(RealtimeEffect(t, |payload| / 2))
  }

  function RealtimeLoopAsWritten(temps: seq<int>, payload: seq<Byte>, i: nat): Option<seq<int>>
    requires |temps| == MAX_PROBE_COUNT
    decreases |payload| - i
  {
    if i >= |payload| then Some(temps)
    else if i + 1 >= |payload| || i >= MAX_PROBE_COUNT then None
    else RealtimeLoopAsWritten(temps[i := LittleEndian16(payload[i], payload[i + 1]) / 10], payload, i + 2)
  }

  /** The loop as written stays in bounds exactly for even payloads of at most 8 bytes. */
  lemma {:induction false} RealtimeLoopAsWrittenDefined(temps: seq<int>, payload: seq<Byte>, i: nat)
    requires |temps| == MAX_PROBE_COUNT && i % 2 == 0
    ensures RealtimeLoopAsWritten(temps, payload, i).Some? <==>
      (i >= |payload| || (|payload| % 2 == 0 && |payload| <= MAX_PROBE_COUNT))
    decreases |payload| - i
  {
    if i < |payload| && i + 1 < |payload| && i < MAX_PROBE_COUNT {
      RealtimeLoopAsWrittenDefined(
        temps[i := LittleEndian16(payload[i], payload[i + 1]) / 10], payload, i + 2);
    }
  }

  lemma RealtimeAsWrittenDefined(temps: seq<int>, payload: seq<Byte>)
    requires |temps| == MAX_PROBE_COUNT
    ensures RealtimeAsWritten(temps, payload).Some? <==>
      (|payload| % 2 == 0 && |payload| <= MAX_PROBE_COUNT)
  {
    RealtimeLoopAsWrittenDefined(temps, payload, 0);
  }

  /**
   * Two probes reading 1 and 10 degrees: as written, the second value lands in
   * slot 2 and slot 1 keeps its old value, while the decoder puts it in slot 1.
   */
  lemma RealtimeAsWrittenMisplacesProbes()
    ensures var zeros := seq(MAX_PROBE_COUNT, _ => 0);
      RealtimeAsWritten(zeros, [0x0A, 0x00, 0x64, 0x00]) ==
        Some(RealtimeEffect([1, 0, 10, 0, 0, 0, 0, 0], 2)) &&
      DecodeRealtime([0x0A, 0x00, 0x64, 0x00]) == [1, 10]
  {
    var zeros := seq(MAX_PROBE_COUNT, _ => 0);
    var p: seq<Byte> := [0x0A, 0x00, 0x64, 0x00];
    assert LittleEndian16(0x0A, 0x00) == 10;
    assert LittleEndian16(0x64, 0x00) == 100;
    assert RealtimeLoopAsWritten(zeros[0 := 1][2 := 10], p, 4) == Some(zeros[0 := 1][2 := 10]);
    assert zeros[0 := 1][2 := 10] == [1, 0, 10, 0, 0, 0, 0, 0];
  }

  /**
   * A 9-probe notification (18 bytes): as written the loop writes past the
   * 8-slot array and `probe_count` would become 9; the decoder keeps 8 probes.
   */
  lemma RealtimeAsWrittenOverruns(temps: seq<int>)
    requires |temps| == MAX_PROBE_COUNT
    ensures var p: seq<Byte> := seq(18, _ => 0);
      RealtimeAsWritten(temps, p).None? && |p| / 2 == 9 &&
      |DecodeRealtime(p)| == MAX_PROBE_COUNT
  {
    RealtimeAsWrittenDefined(temps, seq(18, _ => 0));
  }

  /** The divisor of the battery computation: the reported maximum, or 6550 for 0. */
  function EffectiveMaxVoltage(maxVoltage: Uint16): (m: nat)
    ensures m > 0
    ensures maxVoltage == 0 ==> m == MAX_VOLTAGE
    ensures maxVoltage != 0 ==> m == maxVoltage
  {
    if maxVoltage == 0 then MAX_VOLTAGE else maxVoltage
  }

  /** `(100 * voltage) / maxVoltage` in C integer arithmetic (all operands non-negative). */
  function BatteryPercent(voltage: Uint16, maxVoltage: Uint16): (r: nat)
    ensures var m := EffectiveMaxVoltage(maxVoltage);
      r * m <= 100 * voltage < (r + 1) * m
  {
    var m := EffectiveMaxVoltage(maxVoltage);
    var r := (100 * voltage) / m;
    assert r * m + (100 * voltage) % m == 100 * voltage;
    r
  }

  /** A voltage that does not exceed the maximum yields at most 100 percent. */
  lemma BatteryAtMostFull(voltage: Uint16, maxVoltage: Uint16)
    requires voltage <= EffectiveMaxVoltage(maxVoltage)
    ensures BatteryPercent(voltage, maxVoltage) <= 100
  {
    var m := EffectiveMaxVoltage(maxVoltage);
    var r := BatteryPercent(voltage, maxVoltage);
    assert 100 * voltage <= 100 * m;
    assert (r as int - 100) * m == r * m as int - 100 * m;
    NonPositiveFactor(r as int - 100, m);
  }

  /** A product with a positive factor is non-positive only if the other factor is. */
  lemma NonPositiveFactor(a: int, m: int)
    requires m > 0 && a * m <= 0
    ensures a <= 0
  {
  }

  // ---------------------------------------------------------------------------
  // Transport, events and the lifecycle
  // ---------------------------------------------------------------------------

  type Address = seq<Byte>

  /** One entry of the scan results. */
  datatype Advert = Advert(name: string, address: Address)

  /** Properties of a remote characteristic. */
  datatype CharProps = CharProps(canWrite: bool, canNotify: bool)

  /**
   * The peer's GATT table as the transport reports it at the time of a
   * handler: the iBBQ service (absent when `None`) with its characteristics.
   */
  datatype RemoteGatt = RemoteGatt(service: Option<map<Uint16, CharProps>>)

  predicate CanWrite(g: RemoteGatt, uuid: Uint16)
  {
    g.service.Some? && uuid in g.service.value && g.service.value[uuid].canWrite
  }

  predicate CanNotify(g: RemoteGatt, uuid: Uint16)
  {
    g.service.Some? && uuid in g.service.value && g.service.value[uuid].canNotify
  }

  /** Requests the driver makes of the BLE transport, in the order it makes them. */
  datatype Command =
    | Scan(seconds: nat)
    | Connect(address: Address)
    | Disconnect
    | WriteCharacteristic(uuid: Uint16, data: seq<Byte>, withResponse: bool)
    | WriteDescriptor(characteristic: Uint16, descriptor: Uint16, data: seq<Byte>, withResponse: bool)

  /** The `IBBQ_EVENTS` of `ibbq_events.h`; DISCOVERED carries the advertised device. */
  datatype Event = StartScan | Discovered(device: Advert) | Connected | Authenticated | RequestState

  /**
   * Everything the transport decides for one dispatched event: whether the
   * connect call succeeds, the GATT lookups of a single-step handler, those
   * of the four configuration steps, and the RSSI reading.
   */
  datatype Oracle = Oracle(
    connectOk: bool,
    gatt: RemoteGatt,
    configureAnswers: seq<RemoteGatt>,
    rssiReading: int)

  /** The command a successful `writeSetting(data)` sends. */
  function SettingWrite(data: seq<Byte>): Command
  {
    WriteCharacteristic(SETTINGS_UUID, data, false)
  }

  /**
   * The command a successful `subscribeToCharacteristic(uuid)` sends: the
   * write that switches notifications on, which also stands for registering
   * the notification callback.
   */
  function Subscription(uuid: Uint16): Command
  {
    WriteDescriptor(uuid, CCCD_UUID, NOTIFICATION_ON, true)
  }

  /** The four configuration steps of the AUTHENTICATED handler, in order. */
  const CONFIGURE_STEPS: seq<Command> := [
    SettingWrite(UNIT_CELSIUS),
    Subscription(REALTIME_DATA_UUID),
    SettingWrite(ENABLE_REALTIME_DATA),
    Subscription(SETTINGS_RESULT_UUID)]

  /**
   * Whether configuration step `k` succeeds. Every step looks the service and
   * its characteristic up again, so `answers[k]` is the transport's answer
   * for step `k`.
   */
  predicate StepSucceeds(answers: seq<RemoteGatt>, k: nat)
    requires |answers| == 4 && k < 4
  {
    if k == 0 || k == 2 then CanWrite(answers[k], SETTINGS_UUID)
    else if k == 1 then CanNotify(answers[k], REALTIME_DATA_UUID)
    else CanNotify(answers[k], SETTINGS_RESULT_UUID)
  }

  /** How many configuration steps succeed before the first failure (4: all). */
  function StepsSucceeding(answers: seq<RemoteGatt>): (n: nat)
    requires |answers| == 4
    ensures n <= 4
    ensures forall k :: 0 <= k < n ==> StepSucceeds(answers, k)
    ensures n < 4 ==> !StepSucceeds(answers, n)
  {
    if !StepSucceeds(answers, 0) then 0
    else if !StepSucceeds(answers, 1) then 1
    else if !StepSucceeds(answers, 2) then 2
    else if !StepSucceeds(answers, 3) then 3
    else 4
  }

  /** `ble_scan_finished`'s search: the index of the first device named exactly "iBBQ". */
  method FindIbbq(results: seq<Advert>) returns (found: Option<nat>)
    ensures found.Some? ==>
      found.value < |results| && results[found.value].name == DEVICE_NAME &&
      forall j :: 0 <= j < found.value ==> results[j].name != DEVICE_NAME
    ensures found.None? ==> forall j :: 0 <= j < |results| ==> results[j].name != DEVICE_NAME
  {
    var i := 0;
    while i < |results|
      invariant 0 <= i <= |results|
      invariant forall j :: 0 <= j < i ==> results[j].name != DEVICE_NAME
    {
      if results[i].name == DEVICE_NAME {
        return Some(i);
      }
      i := i + 1;
    }
    return None;
  }

  /**
   * The driver: its telemetry state `ctx`, the `ble_loop` event queue, the
   * one-shot battery timer and the log of transport commands. `aborted`
   * records an `ESP_ERROR_CHECK` failure, which restarts the firmware.
   */
  class Driver {
    const ctx: IbbqState
    var queue: seq<Event>
    var batteryTimerArmed: bool
    var commands: seq<Command>
    var aborted: bool

    ghost predicate Valid()
      reads this, ctx
    {
      ctx.Valid()
    }

    /** `init_ibbq`: zeroed state, timer created but not running, START_SCAN posted. */
    constructor ()
      ensures Valid() && fresh(ctx) && fresh(ctx.probes) && fresh(ctx.temps)
      ensures ctx.Snapshot() == Telemetry(false, 0, seq(MAX_PROBE_COUNT, _ => 0), 0, 0)
      ensures queue == [StartScan] && !batteryTimerArmed && commands == [] && !aborted
    {
      ctx := new IbbqState();
      queue := [StartScan];
      batteryTimerArmed := false;
      commands := [];
      aborted := false;
    }

    /** `writeSetting`: write to the settings characteristic if it exists and is writable. */
    method WriteSetting(g: RemoteGatt, data: seq<Byte>) returns (ok: bool)
      modifies this`commands
      ensures ok == CanWrite(g, SETTINGS_UUID)
      ensures commands == old(commands) + (if ok then [SettingWrite(data)] else [])
    {
      ok := CanWrite(g, SETTINGS_UUID);
      if ok {
        commands := commands + [SettingWrite(data)];
      }
    }

    /** `subscribeToCharacteristic`: enable notifications if the characteristic can notify. */
    method Subscribe(g: RemoteGatt, uuid: Uint16) returns (ok: bool)
      modifies this`commands
      ensures ok == CanNotify(g, uuid)
      ensures commands == old(commands) + (if ok then [Subscription(uuid)] else [])
    {
      ok := CanNotify(g, uuid);
      if ok {
        commands := commands + [Subscription(uuid)];
      }
    }

    /** `start_discovery_handler`: forget the connection and start a 5-second scan. */
    method HandleStartScan()
      requires Valid() && queue != [] && queue[0] == StartScan
      modifies this`queue, this`commands, ctx`connected, ctx`probeCount
      ensures Valid()
      ensures queue == old(queue)[1..]
      ensures !ctx.connected && ctx.probeCount == 0
      ensures commands == old(commands) + [Scan(SCAN_SECONDS)]
    {
      queue := queue[1..];
      ctx.connected := false;
      ctx.probeCount := 0;
      commands := commands + [Scan(SCAN_SECONDS)];
    }

    /**
     * `ble_scan_finished`: post DISCOVERED for the first device named "iBBQ",
     * or START_SCAN when there is none. Exactly one event is posted.
     */
    method ScanFinished(results: seq<Advert>)
      modifies this`queue
      ensures |queue| == |old(queue)| + 1 && queue[..|old(queue)|] == old(queue)
      ensures var e := queue[|queue| - 1];
        (e == StartScan <==> forall j :: 0 <= j < |results| ==> results[j].name != DEVICE_NAME) &&
        (e.Discovered? ==>
          exists i :: 0 <= i < |results| && e.device == results[i] &&
            results[i].name == DEVICE_NAME &&
            forall j :: 0 <= j < i ==> results[j].name != DEVICE_NAME)
      ensures queue[|queue| - 1] == StartScan || queue[|queue| - 1].Discovered?
    {
      var found := FindIbbq(results);
      match found
      case Some(i) =>
        queue := queue + [Discovered(results[i])];
      case None =>
        queue := queue + [StartScan];
    }

    /** `device_discovered`: connect, then post CONNECTED whether or not it worked. */
    method HandleDiscovered(connectOk: bool)
      requires queue != [] && queue[0].Discovered?
      modifies this`queue, this`commands
      ensures queue == old(queue)[1..] + [Connected]
      ensures commands == old(commands) + [Connect(old(queue)[0].device.address)]
    {
      // A failed connect is only logged.
      commands := commands + [Connect(queue[0].device.address)];
      queue := queue[1..] + [Connected];
    }

    /**
     * `device_connected`: write the credential to the account-verify
     * characteristic and post AUTHENTICATED; disconnect instead when the
     * service or the characteristic is missing or not writable.
     */
    method HandleConnected(g: RemoteGatt)
      requires queue != [] && queue[0] == Connected
      modifies this`queue, this`commands
      ensures var ok := CanWrite(g, ACCOUNT_VERIFY_UUID);
        queue == old(queue)[1..] + (if ok then [Authenticated] else []) &&
        commands == old(commands) +
          [if ok then WriteCharacteristic(ACCOUNT_VERIFY_UUID, CREDENTIALS, false) else Disconnect]
    {
      queue := queue[1..];
      if !CanWrite(g, ACCOUNT_VERIFY_UUID) {
        commands := commands + [Disconnect];
        return;
      }
      commands := commands + [WriteCharacteristic(ACCOUNT_VERIFY_UUID, CREDENTIALS, false)];
      queue := queue + [Authenticated];
    }

    /**
     * `device_authenticated`: set Celsius, subscribe to realtime data, enable
     * realtime data, subscribe to settings results. The first failing step
     * disconnects and skips the rest; only when all four succeed does the
     * driver mark itself connected and post REQUEST_STATE.
     */
    method HandleAuthenticated(answers: seq<RemoteGatt>)
      requires Valid() && queue != [] && queue[0] == Authenticated && |answers| == 4
      modifies this`queue, this`commands, ctx`connected
      ensures Valid()
      ensures var n := StepsSucceeding(answers);
        commands == old(commands) + CONFIGURE_STEPS[..n] + (if n < 4 then [Disconnect] else []) &&
        queue == old(queue)[1..] + (if n == 4 then [RequestState] else []) &&
        ctx.connected == (n == 4 || old(ctx.connected))
    {
      queue := queue[1..];
      var ok := WriteSetting(answers[0], UNIT_CELSIUS);
      if !ok {
        commands := commands + [Disconnect];
        return;
      }
      ok := Subscribe(answers[1], REALTIME_DATA_UUID);
      if !ok {
        commands := commands + [Disconnect];
        return;
      }
      ok := WriteSetting(answers[2], ENABLE_REALTIME_DATA);
      if !ok {
        commands := commands + [Disconnect];
        return;
      }
      ok := Subscribe(answers[3], SETTINGS_RESULT_UUID);
      if !ok {
        commands := commands + [Disconnect];
        return;
      }
      ctx.connected := true;
      queue := queue + [RequestState];
    }

    /**
     * `request_device_state`: store the RSSI (an `int` squeezed into a
     * `uint8_t`), request the battery level and arm the one-shot battery
     * timer. A failed request disconnects without arming the timer. Arming a
     * timer that is already running fails and `ESP_ERROR_CHECK` aborts.
     */
    method HandleRequestState(g: RemoteGatt, rssiReading: int)
      requires Valid() && queue != [] && queue[0] == RequestState
      modifies this`queue, this`commands, this`batteryTimerArmed, this`aborted, ctx`rssi
      ensures Valid()
      ensures queue == old(queue)[1..]
      ensures ctx.rssi == ToByte(rssiReading)
      ensures var ok := CanWrite(g, SETTINGS_UUID);
        commands == old(commands) + [if ok then SettingWrite(BATTERY_LEVEL) else Disconnect] &&
        batteryTimerArmed == (ok || old(batteryTimerArmed)) &&
        aborted == (old(aborted) || (ok && old(batteryTimerArmed)))
    {
      queue := queue[1..];
      ctx.rssi := ToByte(rssiReading);
      var ok := WriteSetting(g, BATTERY_LEVEL);
      if !ok {
        commands := commands + [Disconnect];
        return;
      }
      if batteryTimerArmed {
        aborted := true;
      } else {
        batteryTimerArmed := true;
      }
    }

    /** `battery_timer_callback`: the one-shot timer expires and posts REQUEST_STATE. */
    method BatteryTimerFired()
      requires batteryTimerArmed
      modifies this`queue, this`batteryTimerArmed
      ensures !batteryTimerArmed
      ensures queue == old(queue) + [RequestState]
    {
      batteryTimerArmed := false;
      queue := queue + [RequestState];
    }

    /** `MyBLECLientCallbacks::onDisconnect`: stop the battery timer and post START_SCAN. */
    method OnDisconnect()
      modifies this`queue, this`batteryTimerArmed
      ensures !batteryTimerArmed
      ensures queue == old(queue) + [StartScan]
    {
      batteryTimerArmed := false;
      queue := queue + [StartScan];
    }

    /**
     * The realtime-data notification, decoded with the corrected decoder:
     * probe `k` goes to `temps[k]` and at most `MAX_PROBE_COUNT` probes are kept.
     */
    method OnRealtimeData(payload: seq<Byte>)
      requires Valid()
      modifies ctx`probeCount, ctx.temps
      ensures Valid()
      ensures var t := DecodeRealtime(payload);
        ctx.probeCount == |t| &&
        ctx.temps[..] == t + old(ctx.temps[..])[|t|..]
    {
      var n := Min(|payload| / 2, MAX_PROBE_COUNT);
      ghost var t := DecodeRealtime(payload);
      ctx.probeCount := n;
      var k := 0;
      while k < n
        invariant 0 <= k <= n
        invariant ctx.Valid() && ctx.probeCount == n
        invariant forall j :: 0 <= j < k ==> ctx.temps[j] == t[j]
        invariant forall j :: k <= j < MAX_PROBE_COUNT ==> ctx.temps[j] == old(ctx.temps[j])
      {
        ctx.temps[k] := LittleEndian16(payload[2 * k], payload[2 * k + 1]) / 10;
        k := k + 1;
      }
      assert ctx.temps[..] == t + old(ctx.temps[..])[|t|..];
    }

    /**
     * `settingsResultCallback`: a payload shorter than 5 bytes is ignored;
     * otherwise the battery level is the voltage at bytes 1..2 relative to
     * the maximum at bytes 3..4.
     */
    method OnSettingsResult(payload: seq<Byte>)
      modifies ctx`batteryPercent
      ensures |payload| < 5 ==> ctx.batteryPercent == old(ctx.batteryPercent)
      ensures |payload| >= 5 ==>
        var v := payload[1] as int + 256 * payload[2] as int;
        var m := EffectiveMaxVoltage(payload[3] as int + 256 * payload[4] as int);
        ctx.batteryPercent * m <= 100 * v < (ctx.batteryPercent + 1) * m
    {
      if |payload| < 5 {
        return;
      }
      var voltage := LittleEndian16(payload[1], payload[2]);
      var maxVoltage := LittleEndian16(payload[3], payload[4]);
      ctx.batteryPercent := BatteryPercent(voltage, maxVoltage);
    }

    /**
     * The `ble_loop` task: take the oldest event and run its handler, which
     * has the effect stated for that event below. A handler posts at most one
     * event, so dispatching never grows the queue.
     */
    method Dispatch(o: Oracle)
      requires Valid() && queue != [] && |o.configureAnswers| == 4
      modifies this`queue, this`commands, this`batteryTimerArmed, this`aborted,
        ctx`connected, ctx`probeCount, ctx`rssi
      ensures Valid()
      ensures |old(queue)| - 1 <= |queue| <= |old(queue)|
      ensures queue[..|old(queue)| - 1] == old(queue)[1..]
      ensures old(queue)[0] == StartScan ==>
        queue == old(queue)[1..] && !ctx.connected && ctx.probeCount == 0 &&
        commands == old(commands) + [Scan(SCAN_SECONDS)]
      ensures old(queue)[0].Discovered? ==>
        queue == old(queue)[1..] + [Connected] &&
        commands == old(commands) + [Connect(old(queue)[0].device.address)]
      ensures old(queue)[0] == Connected ==>
        var ok := CanWrite(o.gatt, ACCOUNT_VERIFY_UUID);
        queue == old(queue)[1..] + (if ok then [Authenticated] else []) &&
        commands == old(commands) +
          [if ok then WriteCharacteristic(ACCOUNT_VERIFY_UUID, CREDENTIALS, false) else Disconnect]
      ensures old(queue)[0] == Authenticated ==>
        var n := StepsSucceeding(o.configureAnswers);
        commands == old(commands) + CONFIGURE_STEPS[..n] + (if n < 4 then [Disconnect] else []) &&
        queue == old(queue)[1..] + (if n == 4 then [RequestState] else []) &&
        ctx.connected == (n == 4 || old(ctx.connected))
      ensures old(queue)[0] == RequestState ==>
        var ok := CanWrite(o.gatt, SETTINGS_UUID);
        queue == old(queue)[1..] && ctx.rssi == ToByte(o.rssiReading) &&
        commands == old(commands) + [if ok then SettingWrite(BATTERY_LEVEL) else Disconnect] &&
        batteryTimerArmed == (ok || old(batteryTimerArmed)) &&
        aborted == (old(aborted) || (ok && old(batteryTimerArmed)))
      ensures old(queue)[0] != RequestState ==>
        batteryTimerArmed == old(batteryTimerArmed) && aborted == old(aborted) && ctx.rssi == old(ctx.rssi)
      ensures old(queue)[0] != StartScan ==> ctx.probeCount == old(ctx.probeCount)
      ensures old(queue)[0] != StartScan && old(queue)[0] != Authenticated ==> ctx.connected == old(ctx.connected)
    {
      match queue[0]
      case StartScan => HandleStartScan();
      case Discovered(_) => HandleDiscovered(o.connectOk);
      case Connected => HandleConnected(o.gatt);
      case Authenticated => HandleAuthenticated(o.configureAnswers);
      case RequestState => HandleRequestState(o.gatt, o.rssiReading);
    }
  }
}
