/**
 * The shared data layouts of `ibbq.h`: the probe capacity, the alarm flag bits,
 * one probe's configuration and the telemetry state that the BLE driver (or its
 * mock) writes and the HTTP handlers read.
 */
module IbbqTypes {
  import opened Base
  import opened CText

  /** Number of probe slots, fixed at compile time. */
  const MAX_PROBE_COUNT: nat := 8

  /** Alarm sources, OR-ed together in `ProbeData.alarm`. */
  const ALARM_LOCAL: bv8 := 0x01
  const ALARM_CLOUD: bv8 := 0x02
  const ALARM_IBBQ: bv8 := 0x04

  /** Buffer sizes of the string fields of `probe_data_t`, terminator included. */
  const COLOR_SIZE: nat := 8
  const NAME_SIZE: nat := 128

  /** `probe_data_t`: one channel's user configuration. */
  datatype ProbeData = ProbeData(min: real, max: real, color: string, alarm: bv8, name: string)

  /** The zero-initialised probe of a `static ... = {}` declaration. */
  const ZERO_PROBE: ProbeData := ProbeData(0.0, 0.0, "", 0, "")

  /** The strings of a probe fit their C buffers (with room for the NUL). */
  predicate ProbeFits(p: ProbeData)
  {
    |p.color| < COLOR_SIZE && NUL !in p.color &&
    |p.name| < NAME_SIZE && NUL !in p.name
  }

  /** The alarm byte with the chosen sources set. */
  function AlarmFlags(local: bool, cloud: bool, ibbq: bool): bv8
  {
    (if local then ALARM_LOCAL else 0) |
    (if cloud then ALARM_CLOUD else 0) |
    (if ibbq then ALARM_IBBQ else 0)
  }

  /** Each alarm source owns its own bit: every combination can be read back bit by bit. */
  lemma AlarmFlagsDecompose(local: bool, cloud: bool, ibbq: bool)
    ensures var m := AlarmFlags(local, cloud, ibbq);
      (m & ALARM_LOCAL != 0) == local &&
      (m & ALARM_CLOUD != 0) == cloud &&
      (m & ALARM_IBBQ != 0) == ibbq &&
      m & !(ALARM_LOCAL | ALARM_CLOUD | ALARM_IBBQ) == 0
  {
  }

  /** Different combinations of alarm sources give different alarm bytes. */
  lemma AlarmFlagsUnique(l1: bool, c1: bool, i1: bool, l2: bool, c2: bool, i2: bool)
    requires AlarmFlags(l1, c1, i1) == AlarmFlags(l2, c2, i2)
    ensures l1 == l2 && c1 == c2 && i1 == i2
  {
    AlarmFlagsDecompose(l1, c1, i1);
    AlarmFlagsDecompose(l2, c2, i2);
  }

  /** The read-only view of the telemetry that the HTTP side consumes. */
  datatype Telemetry = Telemetry(
    connected: bool,
    rssi: Byte,
    temps: seq<int>,
    probeCount: nat,
    batteryPercent: int)

  /**
   * `ibbq_state_t`. The two arrays are the fixed-size `probes` and `temps`
   * buffers; temperatures and the battery level are whole numbers because the
   * firmware computes them by integer division before storing them as floats.
   */
  class IbbqState {
    var connected: bool
    var rssi: Byte
    const probes: array<ProbeData>
    const temps: array<int>
    var probeCount: nat
    var batteryPercent: int

    /** Both buffers hold exactly `MAX_PROBE_COUNT` slots and `probeCount` indexes them. */
    ghost predicate Valid()
      reads this
    {
      probes.Length == MAX_PROBE_COUNT &&
      temps.Length == MAX_PROBE_COUNT &&
      probeCount <= MAX_PROBE_COUNT
    }

    /** The probe configurations fit their C buffers. */
    ghost predicate ProbesFit()
      reads this, probes
    {
      forall i :: 0 <= i < probes.Length ==> ProbeFits(probes[i])
    }

    /** The zero-initialised `static ibbq_state_t ctx = {}`. */
    constructor ()
      ensures Valid() && fresh(probes) && fresh(temps)
      ensures probes[..] == seq(MAX_PROBE_COUNT, _ => ZERO_PROBE)
      ensures Snapshot() == Telemetry(false, 0, seq(MAX_PROBE_COUNT, _ => 0), 0, 0)
    {
      connected := false;
      rssi := 0;
      probes := new ProbeData[MAX_PROBE_COUNT](_ => ZERO_PROBE);
      temps := new int[MAX_PROBE_COUNT](_ => 0);
      probeCount := 0;
      batteryPercent := 0;
    }

    /** The telemetry as the HTTP handlers read it. */
    function Snapshot(): Telemetry
      reads this, temps
    {
      Telemetry(connected, rssi, temps[..], probeCount, batteryPercent)
    }
  }
}
