# ibbq-gateway, modelled in Dafny

This project models the core of the ibbq-gateway firmware for the ESP32. The firmware connects to an
"iBBQ" Bluetooth Low Energy meat thermometer, decodes its telemetry and serves that telemetry and the
probe configuration over a small HTTP API on the home WiFi network. The model covers five parts:

- **The BLE protocol driver** (`ibbq.cpp`, module `Ibbq`).
  - The payload decoders.
  - The event-driven connection lifecycle START_SCAN → DISCOVERED → CONNECTED → AUTHENTICATED →
    REQUEST_STATE, with the disconnect callback leading back to START_SCAN.
  - The class `Driver` holds the shared `ibbq_state_t`, the FIFO queue of posted events, the one-shot
    battery timer (an "armed" flag) and a log of the requests made to the BLE transport.
  - Every outcome the transport decides is an input to the handler: the scan results, the peer's GATT
    table, the connect result and the RSSI reading.
- **The mock driver** (`mock_ibbq.cpp`, module `MockIbbq`). `ibbq.h` defines `MOCK_IBBQ`, so this is
  the driver the firmware actually builds.
- **The WiFi station reconnect policy** (`wifi.cpp`, module `Wifi`). This covers the retry counter,
  bounded by 50, and the lifecycle of the webserver handle. It is written as a class `Station` and as
  pure step functions for reasoning about whole event traces.
- **The versioned settings store** (`settings.cpp`, module `Settings`). NVS is a map from key to
  record.
- **The data-handling parts of the HTTP server** (`webserver.cpp`, module `Webserver`).
  - The serial number and the mDNS host name built from the MAC address.
  - The clamp on the access-point scan list.
  - The channel listing.
  - The two handlers that update probe configurations in place. Each takes a JSON request that is
    already parsed into optional fields.

Shared modules:
- `Base`: Option, bytes, and a bitwise OR on naturals.
- `CText`: C strings, `strncpy`, `snprintf` and the `%d`/`%02x`/`%02X` conversions.
- `IbbqTypes` and `SettingsTypes`: the layouts of `ibbq.h` and `settings.h`, and their capacities.

Some facts about the code that shape the model:
- There is no access-point fallback, no connect timeout and no DNS responder.
- The station reconnects at most 50 times in a row, then stops retrying.
- The realtime decoder stores each value at the byte offset of its pair, not at its probe number.
  See Findings.

## Model

| member | source | states |
|---|---|---|
| Ibbq.LittleEndian16 | main/ibbq.cpp:59-64 | the 16-bit value is `p[0] + 256*p[1]` (hence below 65536) |
| Ibbq.DecodePairs | main/ibbq.cpp:75-82 | one value per complete byte pair, value k being the little-endian pair at bytes 2k, 2k+1 divided by 10 with the fraction dropped |
| Ibbq.DecodeRealtime | main/ibbq.cpp:72-82 | min(length/2, 8) temperatures, probe k from bytes 2k and 2k+1, each in 0..6553 (corrected decoder, see Findings) |
| Ibbq.RealtimeLoopAsWrittenDefined | main/ibbq.cpp:75-82 | the as-written loop, started at an even offset, stays in bounds exactly when the payload is even and at most 8 bytes long |
| Ibbq.RealtimeAsWrittenDefined | main/ibbq.cpp:72-82 | the as-written callback stays within the payload and the 8-slot array if and only if the length is even and at most 8 |
| Ibbq.RealtimeAsWrittenMisplacesProbes | main/ibbq.cpp:80 | as written, payload `0A 00 64 00` puts 10 degrees in slot 2 and leaves slot 1 alone; the decoder yields [1, 10] |
| Ibbq.RealtimeAsWrittenOverruns | main/ibbq.cpp:72 | as written, an 18-byte payload writes past `temps[7]` and would set `probe_count` to 9; the decoder keeps 8 probes |
| Ibbq.EffectiveMaxVoltage | main/ibbq.cpp:99-102 | a reported maximum of 0 is replaced by 6550; any other is used as is; the divisor is never 0 |
| Ibbq.BatteryPercent | main/ibbq.cpp:103 | the battery level is the integer quotient of 100·voltage by the effective maximum (r·m ≤ 100·v < (r+1)·m) |
| Ibbq.BatteryAtMostFull | main/ibbq.cpp:96-103 | a voltage not above the effective maximum yields at most 100 percent |
| Ibbq.StepsSucceeding | main/ibbq.cpp:304-330 | the number of configuration steps that succeed before the first failing one: all earlier steps succeed and the one at that index fails |
| Ibbq.FindIbbq | main/ibbq.cpp:213-224 | returns the first device whose name is exactly "iBBQ", or none when no device has that name |
| Ibbq.Driver.constructor | main/ibbq.cpp:361-392 | initial state zeroed, timer not running, empty transport log, START_SCAN the only posted event |
| Ibbq.Driver.WriteSetting | main/ibbq.cpp:128-153 | the write to the settings characteristic (without response) happens and succeeds exactly when the service and a writable characteristic exist |
| Ibbq.Driver.Subscribe | main/ibbq.cpp:161-191 | succeeds exactly when the characteristic exists and can notify, and then writes 01 00 with response to its CCCD (0x2902), which the model assumes present (see Left out) |
| Ibbq.Driver.HandleStartScan | main/ibbq.cpp:350-359 | consumes START_SCAN, clears `connected` and `probe_count`, starts a 5-second scan |
| Ibbq.Driver.ScanFinished | main/ibbq.cpp:210-227 | posts exactly one event: START_SCAN if and only if no device is named "iBBQ", otherwise DISCOVERED with the first such device |
| Ibbq.Driver.HandleDiscovered | main/ibbq.cpp:229-243 | connects to the advertised address and posts CONNECTED whether or not the connect worked |
| Ibbq.Driver.HandleConnected | main/ibbq.cpp:245-297 | with a writable account-verify characteristic: writes the 15-byte credential and posts AUTHENTICATED; otherwise disconnects and posts nothing |
| Ibbq.Driver.HandleAuthenticated | main/ibbq.cpp:299-333 | the four steps run in order up to the first failure, which disconnects; only if all four succeed does `connected` become true and REQUEST_STATE get posted |
| Ibbq.Driver.HandleRequestState | main/ibbq.cpp:335-348 | RSSI always stored (reduced to a byte); battery request sent and timer armed, or disconnect without arming; arming a running timer aborts |
| Ibbq.Driver.BatteryTimerFired | main/ibbq.cpp:49-52 | the expired one-shot timer is disarmed and REQUEST_STATE is posted |
| Ibbq.Driver.OnDisconnect | main/ibbq.cpp:200-205 | the battery timer is stopped and START_SCAN is posted |
| Ibbq.Driver.OnRealtimeData | main/ibbq.cpp:66-83 | `probe_count` and the first `probe_count` temperatures are the decoded notification; later slots keep their values (corrected decoder) |
| Ibbq.Driver.OnSettingsResult | main/ibbq.cpp:85-105 | a payload under 5 bytes changes nothing; otherwise the level is the integer quotient of 100·(voltage at bytes 1–2) by the effective maximum at bytes 3–4 |
| Ibbq.Driver.Dispatch | main/ibbq.cpp:361-392 | one dispatch removes the oldest event and never grows the queue; for each of the five events it states that handler's effect on the queue, the command log, `connected`, `probe_count`, the RSSI and the battery timer, and that the fields other handlers own keep their values |
| MockIbbq.MockTick | main/mock_ibbq.cpp:24-36 | connected, 8 probes, battery 52, RSSI 12, `temps[i] = 13·i`; the telemetry after a tick does not depend on the state before (so a second tick changes nothing); probe configurations untouched |
| IbbqTypes.IbbqState.constructor | main/ibbq.h:28-38 | both buffers have exactly `MAX_PROBE_COUNT` = 8 slots, `probe_count` ≤ 8, everything zeroed |
| IbbqTypes.AlarmFlagsDecompose | main/ibbq.h:15-17 | each alarm source owns one bit, readable back from any combination, and no other bit is set |
| IbbqTypes.AlarmFlagsUnique | main/ibbq.h:15-17 | different combinations of alarm sources give different alarm bytes |
| CText.BoundedCopyIsPrefix | main/webserver.cpp:284-285 | `strncpy` plus a NUL at `cap-1` leaves exactly the first min(len, cap-1) characters of the source |
| CText.Hex2Injective | main/webserver.cpp:55 | `%02X` (and `%02x`) of distinct bytes are distinct |
| CText.Decimal | main/settings.cpp:70 | `%d` of a natural number is a non-empty string of decimal digits, with a leading 0 only for 0 |
| CText.DecimalValue | main/settings.cpp:70 | the digits `%d` prints spell the number back |
| Settings.DefaultChannelConfig | main/settings.cpp:60-73 | eight slots, slot i with min = max = 0, alarm 0, colour "#22B14C" and name "Kanal " + (i+1) |
| Settings.DefaultProbeShape | main/settings.cpp:60-73 | the default of slot i is "Kanal <i+1>" with zero thresholds, no alarm and the default colour, and fits its buffers |
| Settings.DefaultNamesDistinct | main/settings.cpp:70 | the default names of different slots differ |
| Settings.DefaultSystemSettings | main/settings.cpp:75-84 | hostname "iBBQ-Gateway", unit "C", ap_name "ibbq-ap", lang "de", all within their buffers, version never the accepted one |
| Settings.SavePreservesLayout | main/settings.cpp:86-112 | saving keeps each key holding the record layout loading expects |
| Settings.LoadAfterSave | main/settings.cpp:86-176 | loading a channel or system record right after saving it returns the saved contents (for system: with the version stamped to 1) |
| Settings.SaveTouchesOnlyItsKey | main/settings.cpp:86-112 | saving one kind leaves every other key's record as it was |
| Settings.LoadFallsBackWhenUnreadable | main/settings.cpp:120-156 | when nothing is stored or the read fails, loading yields the defaults |
| Settings.LoadRejectsOtherVersions | main/settings.cpp:139-167 | a stored version other than 1 is replaced by the defaults, for channel and system records |
| Settings.UnknownKindsIgnored | main/settings.cpp:106-174 | GLOBAL and WIFI: save leaves the store and buffer unchanged, load leaves the buffer unchanged |
| Settings.Store.Save | main/settings.cpp:86-112 | channels stored under "channels" with version 1; the caller's system record stamped with version 1 and stored under "system"; other kinds ignored |
| Settings.Store.Load | main/settings.cpp:114-176 | the caller's buffer after loading is the stored record of version 1, or else the defaults; other kinds leave it alone |
| Wifi.StepCases | main/wifi.cpp:21-66 | STA_START: one connect attempt, nothing else; GOT_IP: counter 0, new handle stored, old one not stopped; DISCONNECTED: stop a present handle, clear it, connect and count only below 50; other events: no change |
| Wifi.RetryBounded | main/wifi.cpp:51-57 | over any sequence of events the retry counter never exceeds 50 |
| Wifi.DisconnectStreak | main/wifi.cpp:42-60 | k disconnects in a row raise the counter to min(r+k, 50), make min(k, 50-r) connect attempts and leave no handle |
| Wifi.GivesUpAfterMaximumRetries | main/wifi.cpp:13-58 | after 50 disconnects in a row the counter is 50 and a further disconnect makes no connect attempt |
| Wifi.Station.constructor | main/wifi.cpp:68-90 | station mode only, with the compile-time SSID and PSK, driver started, counter 0, no webserver |
| Wifi.Station.HandleEvent | main/wifi.cpp:21-66 | the counter and handle move as the step function says and the calls made are the step's calls; the station configuration is unchanged |
| Webserver.SerialDigits | main/webserver.cpp:55 | the MAC in reverse byte order as upper-case hex is 12 characters |
| Webserver.SerialAsWrittenDropsLastDigit | main/webserver.cpp:54-55 | as written, the 12-byte buffer keeps 11 of the 12 digits |
| Webserver.SerialAsWrittenCollides | main/webserver.cpp:54-55 | as written, MACs 00:00:00:00:00:00 and 01:00:00:00:00:00 give the same serial |
| Webserver.SerialIdentifiesMac | main/webserver.cpp:52-55 | the serial with a 13-byte buffer has 12 digits and tells every MAC apart |
| Webserver.MdnsHostnameNotTruncated | main/webserver.cpp:100-106 | a stored host name within its 128-byte buffer is never cut: the result is host, "_", mac[3] lower-case, mac[4] and mac[5] upper-case hex |
| Webserver.MdnsHostnameDistinguishesBoards | main/webserver.cpp:100-106 | boards with the same stored name differ in host name when their last three MAC bytes differ |
| Webserver.WifiScanData.constructor | main/webserver.cpp:43 | the scan data starts empty |
| Webserver.WifiScanData.ScanTask | main/webserver.cpp:471-499 | the stored count is min(found, 15) and the stored records are the first that many |
| Webserver.WifiScanData.NetworkList | main/webserver.cpp:528-568 | at most 15 records are listed: the stored ones when the scan lock is obtained, none otherwise |
| Webserver.TruncateToInt | main/webserver.cpp:698 | the integer part of a number, truncated toward zero |
| Webserver.ValueInt | main/webserver.cpp:695-705 | `valueint` lies in the `int` range and is the truncation of any number inside that range |
| Webserver.UpdateProbeEffect | main/webserver.cpp:688-712 | present members of the right type set their field: strings cut to the buffer size minus one, min/max as `valueint` (setchannels) or as the number itself (`POST /data`); absent ones keep it; the alarm is untouched; the strings still fit |
| Webserver.UpdateProbeIdempotent | main/webserver.cpp:688-712 | applying the same channel object twice equals applying it once |
| Webserver.SetChannelsTruncatesThresholds | main/webserver.cpp:695-705 | `setchannels` stores the integer part of min/max (62.5 → 62, −3.75 → −3); `POST /data` keeps 62.5 and −3.75 |
| Webserver.SetChannelsAsWrittenMisroutes | main/webserver.cpp:673-686 | as written, a missing or non-numeric number yields status 400 and still selects probe 0; number 9 selects slot 8, past the array |
| Webserver.SetChannelsAsWrittenAgreesOnValidNumbers | main/webserver.cpp:675-679 | for numbers 1..8 the as-written and the corrected selection agree |
| Webserver.DataSetAsWrittenShiftsListedNumbers | main/webserver.cpp:267-305 | as written, an object posted back with the number listed for slot i updates slot i+1, and for the last slot, when it sets a field, writes past the array |
| Webserver.ListedNumberRoundTrip | main/webserver.cpp:189-192 | under the corrected rule the number listed for slot i addresses slot i |
| Webserver.SetChannelsAsWritten | main/webserver.cpp:636-729 | as written: 404 without state; 400 unsent for over 1024 bytes; failure on a receive error; 400 for an unparsable body; otherwise the picked slot is updated (min/max as integers) and all eight saved, answering 400 when the number was missing, non-numeric or not positive (so probe 0 is overwritten) and 200 otherwise; a number above 8 stops the model at the access past the array |
| Webserver.SetChannels | main/webserver.cpp:636-729 | (corrected) 404 without state; 400 unsent for over 1024 bytes; failure on a receive error; 400 for unparsable bodies or numbers outside 1..8; otherwise the addressed probe is updated (min/max as integers), the rest unchanged, all eight saved, 200 |
| Webserver.ApplyBatch | main/webserver.cpp:265-308 | (corrected) a batch always yields eight probe configurations |
| Webserver.ApplyBatchLeavesOthers | main/webserver.cpp:265-308 | (corrected) a slot no channel object addresses is unchanged by the batch |
| Webserver.ApplyBatchStopsAtRejection | main/webserver.cpp:267-280 | (corrected) the first rejected channel object ends the batch; the objects before it stay applied, the ones after it are not applied |
| Webserver.ApplyBatchKeepsFit | main/webserver.cpp:281-305 | (corrected) a batch keeps every probe's strings within their buffers |
| Webserver.DataSet | main/webserver.cpp:222-314 | (corrected) 404 without state; 400 over 2048 bytes or unparsable; no `channels`: 200 and nothing changes; otherwise the probes become the batch result in place, saved with 200 only if no object was rejected, 400 and unsaved otherwise |
| Webserver.ApplyBatchAsWritten | main/webserver.cpp:265-308 | as written, a batch always yields eight probe configurations |
| Webserver.ApplyBatchAsWrittenFirstSlot | main/webserver.cpp:267-305 | as written, a channel object whose `valueint` is k in 0..7 updates slot k and the batch goes on with the next object |
| Webserver.ApplyBatchAsWrittenCompletes | main/webserver.cpp:265-309 | as written, a batch whose every number has `valueint` in 0..7 is processed to the end, and so is saved |
| Webserver.ApplyBatchAsWrittenLeavesOthers | main/webserver.cpp:265-308 | as written, a slot whose index no object carries is unchanged by the batch |
| Webserver.DataSetAsWrittenVersusCorrected | main/webserver.cpp:267-272 | number n in 0..7: as written slot n is updated and number 0 accepted; the corrected rule rejects 0 and updates slot n−1 |
| Webserver.DataSetAsWritten | main/webserver.cpp:222-314 | as written: 404 without state; 400 over 2048 bytes or unparsable; no `channels`: 200 and nothing changes; otherwise the probes become the as-written batch result in place; 200 and saved when it ran to the end, 400 unsaved at an object without a numeric number, and the model stops at an object that writes outside the array |
| Webserver.ChannelList | main/webserver.cpp:177-203 | one entry per connected probe (`probe_count` ≤ 8 keeps reads in range), numbered from 1 with that probe's name, temperature, thresholds and colour; each listed number addresses its own slot |

## Left out

- Transport internals. The BLE stack, the WiFi driver, NVS, the HTTP server, cJSON and mDNS are
  foreign libraries. Their results are inputs to the model, and the requests made to them are logged
  commands or actions, except the two calls named in the `Ibbq.Driver.Subscribe` line below.
- Ibbq.Driver.Subscribe: the model assumes that every characteristic that can notify carries its
  Client Characteristic Configuration descriptor (0x2902), as section 3.3.3.3 of Volume 3, Part G
  of the Bluetooth Core Specification requires. `subscribeToCharacteristic` uses the descriptor
  lookup without a NULL check (ibbq.cpp:188), and the crash on a missing descriptor is not
  modelled. The `registerForNotify` call (ibbq.cpp:184) is not logged on its own: the logged CCCD
  write stands for both. `OnRealtimeData` and `OnSettingsResult` do not require an earlier
  subscription.
- Event loops and tasks. The BLE event loop's capacity of 5 and its blocking posts are not modelled:
  the queue is an unbounded sequence. The esp_timer task, the WiFi-scan task and its semaphore are
  not modelled: the lock outcome is an input of `NetworkList`. Concurrency and torn reads of the
  shared state are not modelled.
- The `readValue` calls that `readSettings` and `subscribeToCharacteristic` make before writing. The
  value read is stored in a local variable and never used, so these reads are not recorded in the
  command log.
- Float rounding. Temperatures and the battery level are computed by integer division, so they are
  exact integers. Probe thresholds are reals, and their conversion to `float` is not modelled.
- `mdns_handle_system_event` and the IPv6 query made on AP_STA_GOT_IP6. These are foreign calls;
  the event is handled as "no change".
- `init_webserver` failure, which restarts the device, and `stop_webserver` internals. A started
  server is an opaque handle.
- `ESP_ERROR_CHECK` aborts on NVS writes and on event posts. The model assumes these calls succeed.
  The one abort modelled is arming the battery timer while it is already running.
- Settings.DefaultSystemSettings: the firmware leaves the version byte of the default system record
  uninitialised. The model gives it 0, which is never the accepted version.
- Settings.Store.Load: a stored blob of the wrong length is not modelled. Each key holds the layout
  `saveSettings` writes there (the `NvsValid` invariant).
- Webserver.DataSet, Webserver.DataSetAsWritten, Webserver.SetChannels and
  Webserver.SetChannelsAsWritten: `buf` is never NUL-terminated after `httpd_req_recv`, whatever the
  body length, so `cJSON_Parse` and the `%s` log read whatever bytes follow the body; a receive
  timeout goes on to parse an uninitialised buffer. The parse result is an input, so these cases are
  covered only as "some parse outcome".
- Webserver.SetChannelsAsWritten: a number above 8 makes the handler access `probes[number - 1]`
  past the array, which is undefined in C; the model stops there with the outcome `OutOfBounds`.
- Webserver.DataSetAsWritten: an object whose `valueint` lies outside 0..7 and that sets a field
  writes outside `probes`, which is undefined in C; the model stops there with the outcome
  `OutOfBounds` and says nothing about the state after it.
- The rest of the JSON handling: `serialize_system`'s other members and the `file_handler` streaming
  are not modelled.
- `settings_get_handler`, `set_system_handler`, `setnetwork_handler`, `networkscan_handler` and
  route registration. They are outside the modelled core: they only move data between cJSON and
  the settings store, or restart the device.
- `components/pwa_notifications/pwa_notification.cpp` (key generation, cryptography) and
  `main/main.cpp` (boot plumbing) are not part of this model.

## Findings

| source | as written | input that shows it | evidently intended | confidence | as-written member | corrected member |
|---|---|---|---|---|---|---|
| main/ibbq.cpp:80 | each decoded value is stored at `temps[i]`, where `i` is the byte offset of the pair | payload `0A 00 64 00`: slot 2 gets 10 and slot 1 keeps its old value | store probe k at `temps[k]` | high, not executed | Ibbq.RealtimeAsWrittenMisplacesProbes | Ibbq.DecodeRealtime |
| main/ibbq.cpp:72-82 | the loop runs to the payload length, with no clamp to 8 probes and no check for an odd length | an 18-byte payload writes past `temps[7]` and sets `probe_count` to 9; a 3-byte payload reads one byte past the payload | keep at most 8 complete pairs | high, not executed | Ibbq.RealtimeAsWrittenDefined | Ibbq.Driver.OnRealtimeData |
| main/webserver.cpp:54-55 | 12 hex digits are printed into a 12-byte buffer, so the last digit is cut | MACs 00:00:00:00:00:00 and 01:00:00:00:00:00 get the same serial | a 13-byte buffer holding all 12 digits | high, not executed | Webserver.SerialAsWrittenCollides | Webserver.SerialIdentifiesMac |
| main/webserver.cpp:680-686 | after a missing or non-positive `number`, status 400 is set but the handler does not return | a body without `number` overwrites probe 0, saves it, and answers 400 | reject the request without changing anything | high, not executed | Webserver.SetChannelsAsWritten | Webserver.SetChannels |
| main/webserver.cpp:676-678 | `number` has no upper bound check | `number` 9 selects `probes[8]`, past the array | reject numbers above 8 | high, not executed | Webserver.SetChannelsAsWrittenMisroutes | Webserver.SetChannels |
| main/webserver.cpp:271 | `number` is used directly as the index, with no bound, while `GET /data` (webserver.cpp:192) lists slot i as number i+1 and `setchannels` (webserver.cpp:677) maps number n to slot n−1 | the listed channel 8 posted back writes `probes[8]`, past the array; channel 1 updates slot 1; number 0 is accepted | index `number - 1`, bounded by 8, as `setchannels` does | medium (the web client that posts to `/data` is not part of this model), not executed | Webserver.DataSetAsWrittenShiftsListedNumbers | Webserver.DataSet |
