/**
 * The versioned settings store (`settings.cpp`). NVS is a map from key to
 * stored record; `saveSettings` stamps version 1, `loadSettings` falls back to
 * the compiled-in defaults when nothing can be read or the version is not 1,
 * and the kinds without a record layout are ignored.
 */
module Settings {
  import opened Base
  import opened CText
  import opened IbbqTypes
  import opened SettingsTypes

  const STORAGE_NAMESPACE: string := "ibbq"
  const CHANNELS_KEY: string := "channels"
  const SYSTEM_KEY: string := "system"
  /** The only record version this firmware writes and accepts. */
  const SETTINGS_VERSION: Byte := 1

  const DEFAULT_COLOR: string := "#22B14C"
  const DEFAULT_NAME_PREFIX: string := "Kanal "
  const DEFAULT_HOSTNAME: string := "iBBQ-Gateway"
  const DEFAULT_UNIT: string := "C"
  const DEFAULT_AP_NAME: string := "ibbq-ap"
  const DEFAULT_LANG: string := "de"

  /** Default configuration of probe slot `i`. */
  function DefaultProbe(i: nat): ProbeData
  {
    ProbeData(0.0, 0.0, DEFAULT_COLOR, 0, DEFAULT_NAME_PREFIX + Decimal(i + 1))
  }

  /** The eight default probe configurations. */
  function DefaultChannels(): (c: seq<ProbeData>)
    ensures |c| == MAX_PROBE_COUNT
  {
    seq(MAX_PROBE_COUNT, (i: int) requires 0 <= i => DefaultProbe(i))
  }

  /**
   * Slot `i` is called "Kanal <i+1>", has zero thresholds, no alarm and the
   * default colour, and its strings fit their buffers.
   */
  lemma DefaultProbeShape(i: nat)
    requires i < MAX_PROBE_COUNT
    ensures var p := DefaultProbe(i);
      p.min == 0.0 && p.max == 0.0 && p.alarm == 0 && p.color == "#22B14C" &&
      p.name == "Kanal " + [DigitChar(i + 1)] &&
      ProbeFits(p)
  {
  }

  /** The default names of different slots differ. */
  lemma DefaultNamesDistinct(i: nat, j: nat)
    requires i < MAX_PROBE_COUNT && j < MAX_PROBE_COUNT && i != j
    ensures DefaultProbe(i).name != DefaultProbe(j).name
  {
    DefaultProbeShape(i);
    DefaultProbeShape(j);
    assert DefaultProbe(i).name[6] == DigitChar(i + 1);
    assert DefaultProbe(j).name[6] == DigitChar(j + 1);
  }

  /** `defaultChannelConfig`: fill the eight slots one by one. */
  method DefaultChannelConfig() returns (pb: seq<ProbeData>)
    ensures |pb| == MAX_PROBE_COUNT
    ensures forall i :: 0 <= i < MAX_PROBE_COUNT ==>
      pb[i].min == 0.0 && pb[i].max == 0.0 && pb[i].alarm == 0 &&
      pb[i].color == DEFAULT_COLOR && pb[i].name == DEFAULT_NAME_PREFIX + Decimal(i + 1)
    ensures pb == DefaultChannels()
  {
    pb := [];
    var i := 0;
    while i < MAX_PROBE_COUNT
      invariant 0 <= i <= MAX_PROBE_COUNT
      invariant |pb| == i
      invariant forall j :: 0 <= j < i ==> pb[j] == DefaultProbe(j)
    {
      pb := pb + [ProbeData(0.0, 0.0, DEFAULT_COLOR, 0, DEFAULT_NAME_PREFIX + Decimal(i + 1))];
      i := i + 1;
    }
  }

  /**
   * `defaultSystemSettings`. The source leaves the version byte of this
   * record unset; the model gives it 0, which is never the accepted version.
   */
  function DefaultSystemSettings(): (s: SystemSettings)
    ensures SystemFits(s) && s.version != SETTINGS_VERSION
    ensures s.hostname == "iBBQ-Gateway" && s.unit == "C" && s.apName == "ibbq-ap" && s.lang == "de"
  {
    SystemSettings(0, DEFAULT_HOSTNAME, DEFAULT_UNIT, DEFAULT_LANG, DEFAULT_AP_NAME)
  }

  /** What NVS holds under a key. */
  datatype Blob = ChannelsBlob(channels: ChannelSettings) | SystemBlob(system: SystemSettings)

  type Nvs = map<string, Blob>

  /** Each key holds the record layout that `saveSettings` writes there. */
  ghost predicate NvsValid(nvs: Nvs)
  {
    (CHANNELS_KEY in nvs ==> nvs[CHANNELS_KEY].ChannelsBlob? && ChannelsWellFormed(nvs[CHANNELS_KEY].channels)) &&
    (SYSTEM_KEY in nvs ==> nvs[SYSTEM_KEY].SystemBlob?)
  }

  /** The caller's buffer behind the `void *settings` argument. */
  datatype Buffer =
    | ChannelBuffer(configs: seq<ProbeData>)
    | SystemBuffer(system: SystemSettings)
    | WifiBuffer(wifi: WifiClientConfig)

  /** The buffer has the layout the kind calls for (no layout exists for `Global`). */
  predicate BufferFor(kind: SettingsId, buf: Buffer)
  {
    match kind
    case Channel => buf.ChannelBuffer? && |buf.configs| == MAX_PROBE_COUNT
    case System => buf.SystemBuffer?
    case Wifi => buf.WifiBuffer?
    case Global => true
  }

  /** The store after `saveSettings(kind, buf)`. */
  function SaveStore(nvs: Nvs, kind: SettingsId, buf: Buffer): (r: Nvs)
    requires BufferFor(kind, buf)
  {
    match kind
    case Channel => nvs[CHANNELS_KEY := ChannelsBlob(ChannelSettings(SETTINGS_VERSION, buf.configs))]
    case System => nvs[SYSTEM_KEY := SystemBlob(buf.system.(version := SETTINGS_VERSION))]
    case _ => nvs
  }

  /** The caller's buffer after `saveSettings(kind, buf)`: a system record is stamped. */
  function SaveBuffer(kind: SettingsId, buf: Buffer): (r: Buffer)
    requires BufferFor(kind, buf)
  {
    if kind == System then SystemBuffer(buf.system.(version := SETTINGS_VERSION)) else buf
  }

  /**
   * `readFromFile`: the stored record, or nothing (length 0) when the key is
   * absent or NVS reports an error (`readOk` false).
   */
  function ReadFromFile(nvs: Nvs, key: string, readOk: bool): (r: Option<Blob>)
    ensures r.None? <==> !readOk || key !in nvs
    ensures r.Some? ==> r.value == nvs[key]
  {
    if readOk && key in nvs then Some(nvs[key]) else None
  }

  /** The caller's buffer after `loadSettings(kind, buf)`. */
  function LoadBuffer(nvs: Nvs, kind: SettingsId, buf: Buffer, readOk: bool): (r: Buffer)
    requires NvsValid(nvs) && BufferFor(kind, buf)
    ensures BufferFor(kind, r)
  {
    match kind
    case Channel =>
      (match ReadFromFile(nvs, CHANNELS_KEY, readOk)
       case None => ChannelBuffer(DefaultChannels())
       case Some(b) =>
         if b.channels.version == SETTINGS_VERSION then ChannelBuffer(b.channels.probeConfigs)
         else ChannelBuffer(DefaultChannels()))
    case System =>
      (match ReadFromFile(nvs, SYSTEM_KEY, readOk)
       case None => SystemBuffer(DefaultSystemSettings())
       case Some(b) =>
         if b.system.version == SETTINGS_VERSION then SystemBuffer(b.system)
         else SystemBuffer(DefaultSystemSettings()))
    case _ => buf
  }

  /** Saving keeps every key in the layout `loadSettings` expects. */
  lemma SavePreservesLayout(nvs: Nvs, kind: SettingsId, buf: Buffer)
    requires NvsValid(nvs) && BufferFor(kind, buf)
    ensures NvsValid(SaveStore(nvs, kind, buf))
  {
  }

  /** Loading a channel or system record right after saving it returns what was saved. */
  lemma LoadAfterSave(nvs: Nvs, kind: SettingsId, buf: Buffer, into: Buffer)
    requires NvsValid(nvs) && BufferFor(kind, buf) && BufferFor(kind, into)
    requires kind == Channel || kind == System
    ensures LoadBuffer(SaveStore(nvs, kind, buf), kind, into, true) == SaveBuffer(kind, buf)
    ensures kind == Channel ==> LoadBuffer(SaveStore(nvs, kind, buf), kind, into, true) == buf
  {
  }

  /** Saving one kind leaves the other kind's record as it was. */
  lemma SaveTouchesOnlyItsKey(nvs: Nvs, kind: SettingsId, buf: Buffer, key: string)
    requires BufferFor(kind, buf)
    requires key in nvs
    requires !(kind == Channel && key == CHANNELS_KEY) && !(kind == System && key == SYSTEM_KEY)
    ensures key in SaveStore(nvs, kind, buf) && SaveStore(nvs, kind, buf)[key] == nvs[key]
  {
  }

  /** Nothing readable (absent key or read error): loading yields the defaults. */
  lemma LoadFallsBackWhenUnreadable(nvs: Nvs, kind: SettingsId, buf: Buffer, readOk: bool)
    requires NvsValid(nvs) && BufferFor(kind, buf)
    requires kind == Channel ==> !readOk || CHANNELS_KEY !in nvs
    requires kind == System ==> !readOk || SYSTEM_KEY !in nvs
    ensures kind == Channel ==> LoadBuffer(nvs, kind, buf, readOk) == ChannelBuffer(DefaultChannels())
    ensures kind == System ==> LoadBuffer(nvs, kind, buf, readOk) == SystemBuffer(DefaultSystemSettings())
  {
  }

  /** A stored record of any version other than 1 is replaced by the defaults. */
  lemma LoadRejectsOtherVersions(nvs: Nvs, kind: SettingsId, buf: Buffer)
    requires NvsValid(nvs) && BufferFor(kind, buf)
    requires kind == Channel ==> CHANNELS_KEY in nvs && nvs[CHANNELS_KEY].channels.version != SETTINGS_VERSION
    requires kind == System ==> SYSTEM_KEY in nvs && nvs[SYSTEM_KEY].system.version != SETTINGS_VERSION
    ensures kind == Channel ==> LoadBuffer(nvs, kind, buf, true) == ChannelBuffer(DefaultChannels())
    ensures kind == System ==> LoadBuffer(nvs, kind, buf, true) == SystemBuffer(DefaultSystemSettings())
  {
  }

  /** `Global` and `Wifi` have no record: save and load change nothing. */
  lemma UnknownKindsIgnored(nvs: Nvs, kind: SettingsId, buf: Buffer, readOk: bool)
    requires NvsValid(nvs) && BufferFor(kind, buf)
    requires kind == Global || kind == Wifi
    ensures SaveStore(nvs, kind, buf) == nvs && SaveBuffer(kind, buf) == buf
    ensures LoadBuffer(nvs, kind, buf, readOk) == buf
  {
  }

  /** The NVS namespace of the firmware. */
  class Store {
    var nvs: Nvs

    ghost predicate Valid()
      reads this
    {
      NvsValid(nvs)
    }

    /** A namespace with nothing stored yet. */
    constructor ()
      ensures Valid() && nvs == map[]
    {
      nvs := map[];
    }

    /** `saveSettings`: write the record for `kind` and stamp a system record's version. */
    method Save(kind: SettingsId, buf: Buffer) returns (stamped: Buffer)
      requires Valid() && BufferFor(kind, buf)
      modifies this
      ensures Valid()
      ensures nvs == SaveStore(old(nvs), kind, buf)
      ensures stamped == SaveBuffer(kind, buf)
    {
      stamped := buf;
      match kind
      case Channel =>
        nvs := nvs[CHANNELS_KEY := ChannelsBlob(ChannelSettings(SETTINGS_VERSION, buf.configs))];
      case System =>
        stamped := SystemBuffer(buf.system.(version := SETTINGS_VERSION));
        nvs := nvs[SYSTEM_KEY := SystemBlob(stamped.system)];
      case _ =>
    }

    /** `loadSettings`: the caller's buffer after loading `kind`. */
    method Load(kind: SettingsId, buf: Buffer, readOk: bool) returns (loaded: Buffer)
      requires Valid() && BufferFor(kind, buf)
      ensures loaded == LoadBuffer(nvs, kind, buf, readOk)
    {
      loaded := buf;
      match kind
      case Channel =>
        var record := ReadFromFile(nvs, CHANNELS_KEY, readOk);
        if record.None? {
          var defaults := DefaultChannelConfig();
          loaded := ChannelBuffer(defaults);
          return;
        }
        if record.value.channels.version == SETTINGS_VERSION {
          loaded := ChannelBuffer(record.value.channels.probeConfigs);
        } else {
          var defaults := DefaultChannelConfig();
          loaded := ChannelBuffer(defaults);
        }
      case System =>
        var record := ReadFromFile(nvs, SYSTEM_KEY, readOk);
        if record.None? {
          loaded := SystemBuffer(DefaultSystemSettings());
          return;
        }
        if record.value.system.version == SETTINGS_VERSION {
          loaded := SystemBuffer(record.value.system);
        } else {
          loaded := SystemBuffer(DefaultSystemSettings());
        }
      case _ =>
    }
  }
}
