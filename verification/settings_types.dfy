/**
 * The persisted record layouts of `settings.h`. Every record begins with a
 * version byte; string fields are bounded by their C buffer sizes.
 */
module SettingsTypes {
  import opened Base
  import opened CText
  import opened IbbqTypes

  /** `SETTINS_ID`: the four settings kinds. */
  datatype SettingsId = Channel | System | Global | Wifi

  /** Buffer sizes of `system_settings_t`, terminator included. */
  const HOSTNAME_SIZE: nat := 128
  const UNIT_SIZE: nat := 2
  const LANG_SIZE: nat := 3
  const AP_NAME_SIZE: nat := 32

  /** Buffer sizes of `wifi_client_config_t`, terminator included. */
  const SSID_SIZE: nat := 32
  const PSK_SIZE: nat := 64

  /** `system_settings_t`. */
  datatype SystemSettings = SystemSettings(
    version: Byte,
    hostname: string,
    unit: string,
    lang: string,
    apName: string)

  /** `wifi_client_config_t`. */
  datatype WifiClientConfig = WifiClientConfig(version: Byte, ssid: string, psk: string)

  /** `channel_settings_t`: a version byte and one configuration per probe slot. */
  datatype ChannelSettings = ChannelSettings(version: Byte, probeConfigs: seq<ProbeData>)

  /** A C string of at most `size - 1` characters. */
  predicate FitsIn(s: string, size: nat)
  {
    |s| < size && NUL !in s
  }

  predicate SystemFits(s: SystemSettings)
  {
    FitsIn(s.hostname, HOSTNAME_SIZE) && FitsIn(s.unit, UNIT_SIZE) &&
    FitsIn(s.lang, LANG_SIZE) && FitsIn(s.apName, AP_NAME_SIZE)
  }

  predicate WifiFits(w: WifiClientConfig)
  {
    FitsIn(w.ssid, SSID_SIZE) && FitsIn(w.psk, PSK_SIZE)
  }

  /** A channel record holds exactly `MAX_PROBE_COUNT` probe configurations. */
  predicate ChannelsWellFormed(c: ChannelSettings)
  {
    |c.probeConfigs| == MAX_PROBE_COUNT
  }
}
