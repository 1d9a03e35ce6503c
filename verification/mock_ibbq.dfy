/**
 * The mock driver (`mock_ibbq.cpp`), the one the firmware actually builds: a
 * periodic timer that overwrites the telemetry with fixed values.
 */
module MockIbbq {
  import opened Base
  import opened IbbqTypes

  /** Period of the mock timer, in microseconds. */
  const MOCK_REFRESH_INTERVAL_US: nat := 1_000_000
  const MOCK_BATTERY_PERCENT: int := 52
  const MOCK_RSSI: Byte := 12
  /** Probe `i` reads `MOCK_TEMP_STEP * i` degrees. */
  const MOCK_TEMP_STEP: int := 13

  /**
   * `mock_timer_callback`: every field of the telemetry gets a fixed value,
   * whatever it held before (so a second tick changes nothing), and the probe
   * configurations are left alone.
   */
  method MockTick(st: IbbqState)
    requires st.Valid()
    modifies st, st.temps
    ensures st.Valid()
    ensures st.connected && st.probeCount == MAX_PROBE_COUNT
    ensures st.batteryPercent == MOCK_BATTERY_PERCENT && st.rssi == MOCK_RSSI
    ensures forall i :: 0 <= i < MAX_PROBE_COUNT ==> st.temps[i] == MOCK_TEMP_STEP * i
    ensures st.probes[..] == old(st.probes[..])
    ensures st.Snapshot() == Telemetry(true, MOCK_RSSI, seq(MAX_PROBE_COUNT, i => MOCK_TEMP_STEP * i), MAX_PROBE_COUNT, MOCK_BATTERY_PERCENT)
  {
    st.connected := true;
    st.probeCount := MAX_PROBE_COUNT;
    st.batteryPercent := MOCK_BATTERY_PERCENT;
    st.rssi := MOCK_RSSI;
    var i := 0;
    while i < MAX_PROBE_COUNT
      invariant 0 <= i <= MAX_PROBE_COUNT
      invariant st.Valid() && st.connected && st.probeCount == MAX_PROBE_COUNT
      invariant st.batteryPercent == MOCK_BATTERY_PERCENT && st.rssi == MOCK_RSSI
      invariant forall j :: 0 <= j < i ==> st.temps[j] == MOCK_TEMP_STEP * j
    {
      st.temps[i] := i * MOCK_TEMP_STEP;
      i := i + 1;
    }
  }
}
