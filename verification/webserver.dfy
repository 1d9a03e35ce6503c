/**
 * The data-handling parts of the HTTP server (`webserver.cpp`): the serial
 * number and mDNS host name built from the MAC address, the clamp on the
 * access-point scan list, the channel listing, and the two handlers that
 * update probe configurations from an already-parsed JSON request.
 */
module Webserver {
  import opened Base
  import opened CText
  import opened IbbqTypes
  import opened SettingsTypes
  import opened Settings

  /** A MAC address as `esp_read_mac` fills it. */
  type Mac = m: seq<Byte> | |m| == 6 witness [0, 0, 0, 0, 0, 0]

  // ----- serial number -----

  /** Size of the `serial` buffer of `serialize_system`. */
  const SERIAL_BUFFER_AS_WRITTEN: nat := 12
  /** The size that holds twelve hexadecimal digits and the terminator. */
  const SERIAL_BUFFER: nat := 13

  /** The six MAC bytes, last byte first, each as two upper-case hexadecimal digits. */
  function SerialDigits(mac: Mac): (s: string)
    ensures |s| == 12
  {
    Hex2(mac[5], true) + Hex2(mac[4], true) + Hex2(mac[3], true) +
    Hex2(mac[2], true) + Hex2(mac[1], true) + Hex2(mac[0], true)
  }

  /** The serial `serialize_system` reports: the digits cut to fit a 12-byte buffer. */
  function SerialAsWritten(mac: Mac): string
  {
    Snprintf(SerialDigits(mac), SERIAL_BUFFER_AS_WRITTEN)
  }

  /** The serial with room for every digit. */
  function Serial(mac: Mac): string
  {
    Snprintf(SerialDigits(mac), SERIAL_BUFFER)
  }

  /** As written, the last digit (the low nibble of `mac[0]`) is always lost. */
  lemma SerialAsWrittenDropsLastDigit(mac: Mac)
    ensures SerialAsWritten(mac) == SerialDigits(mac)[..11]
    ensures |SerialAsWritten(mac)| == 11
  {
  }

  /** Two boards whose MACs differ only in that nibble get the same serial as written. */
  lemma SerialAsWrittenCollides()
    ensures SerialAsWritten([0, 0, 0, 0, 0, 0]) == SerialAsWritten([1, 0, 0, 0, 0, 0])
    ensures Serial([0, 0, 0, 0, 0, 0]) != Serial([1, 0, 0, 0, 0, 0])
  {
    assert Serial([1, 0, 0, 0, 0, 0])[11] == '1';
  }

  /** The full serial is twelve digits and tells every MAC address apart. */
  lemma SerialIdentifiesMac(m1: Mac, m2: Mac)
    requires Serial(m1) == Serial(m2)
    ensures m1 == m2
    ensures |Serial(m1)| == 12
  {
    var s1, s2 := SerialDigits(m1), SerialDigits(m2);
    assert s1 == Serial(m1) && s2 == Serial(m2);
    SerialDigitsSlices(m1);
    SerialDigitsSlices(m2);
    assert Hex2(m1[5], true) == Hex2(m2[5], true) && Hex2(m1[4], true) == Hex2(m2[4], true) &&
      Hex2(m1[3], true) == Hex2(m2[3], true) && Hex2(m1[2], true) == Hex2(m2[2], true) &&
      Hex2(m1[1], true) == Hex2(m2[1], true) && Hex2(m1[0], true) == Hex2(m2[0], true);
    Hex2Injective(m1[5], m2[5], true);
    Hex2Injective(m1[4], m2[4], true);
    Hex2Injective(m1[3], m2[3], true);
    Hex2Injective(m1[2], m2[2], true);
    Hex2Injective(m1[1], m2[1], true);
    Hex2Injective(m1[0], m2[0], true);
    assert m1 == [m1[0], m1[1], m1[2], m1[3], m1[4], m1[5]];
    assert m2 == [m2[0], m2[1], m2[2], m2[3], m2[4], m2[5]];
  }

  /** Where each MAC byte sits in the serial digits. */
  lemma SerialDigitsSlices(mac: Mac)
    ensures var s := SerialDigits(mac);
      s[0..2] == Hex2(mac[5], true) && s[2..4] == Hex2(mac[4], true) &&
      s[4..6] == Hex2(mac[3], true) && s[6..8] == Hex2(mac[2], true) &&
      s[8..10] == Hex2(mac[1], true) && s[10..12] == Hex2(mac[0], true)
  {
  }

  // ----- mDNS host name -----

  /** `hostname` buffer of `initialise_mdns`: the stored name, `_`, six digits and NUL. */
  const MDNS_HOSTNAME_BUFFER: nat := (HOSTNAME_SIZE - 1) + 1 + 3 * 2 + 1

  /** The host name announced over mDNS: the stored name, `_`, then `mac[3]` lower case and `mac[4]`, `mac[5]` upper case. */
  function MdnsHostname(host: string, mac: Mac): string
  {
    Snprintf(host + "_" + Hex2(mac[3], false) + Hex2(mac[4], true) + Hex2(mac[5], true), MDNS_HOSTNAME_BUFFER)
  }

  /** A stored host name that fits its buffer is never cut. */
  lemma MdnsHostnameNotTruncated(host: string, mac: Mac)
    requires FitsIn(host, HOSTNAME_SIZE)
    ensures MdnsHostname(host, mac) == host + "_" + Hex2(mac[3], false) + Hex2(mac[4], true) + Hex2(mac[5], true)
    ensures |MdnsHostname(host, mac)| == |host| + 7 < MDNS_HOSTNAME_BUFFER
  {
  }

  /** Boards with the same stored name are told apart by the last three MAC bytes. */
  lemma MdnsHostnameDistinguishesBoards(host: string, m1: Mac, m2: Mac)
    requires FitsIn(host, HOSTNAME_SIZE)
    requires MdnsHostname(host, m1) == MdnsHostname(host, m2)
    ensures m1[3] == m2[3] && m1[4] == m2[4] && m1[5] == m2[5]
  {
    MdnsHostnameNotTruncated(host, m1);
    MdnsHostnameNotTruncated(host, m2);
    var h1, h2 := MdnsHostname(host, m1), MdnsHostname(host, m2);
    var n := |host| + 1;
    assert h1[n..n + 2] == Hex2(m1[3], false) && h2[n..n + 2] == Hex2(m2[3], false);
    assert h1[n + 2..n + 4] == Hex2(m1[4], true) && h2[n + 2..n + 4] == Hex2(m2[4], true);
    assert h1[n + 4..n + 6] == Hex2(m1[5], true) && h2[n + 4..n + 6] == Hex2(m2[5], true);
    Hex2Injective(m1[3], m2[3], false);
    Hex2Injective(m1[4], m2[4], true);
    Hex2Injective(m1[5], m2[5], true);
  }

  // ----- access-point scan -----

  const MAX_SCAN_APS: nat := 15

  /** One `wifi_ap_record_t`, reduced to what the listing reports. */
  datatype ApRecord = ApRecord(ssid: string, rssi: int, authMode: nat)

  /** `wifi_scan_data_t`: the number of stored records and the records. */
  class WifiScanData {
    var count: Uint16
    var records: seq<ApRecord>

    ghost predicate Valid()
      reads this
    {
      count <= MAX_SCAN_APS && count <= |records|
    }

    /** The zero-initialised static scan data. */
    constructor ()
      ensures Valid() && count == 0 && records == []
    {
      count := 0;
      records := [];
    }

    /**
     * `scan_task`: `found` is the number of access points the driver reports
     * and `available` the records it can hand out; at most `MAX_SCAN_APS` are kept.
     */
    method ScanTask(found: Uint16, available: seq<ApRecord>)
      requires found <= |available|
      modifies this
      ensures Valid()
      ensures count == Min(found, MAX_SCAN_APS)
      ensures records == available[..count]
    {
      count := 0;
      count := found;
      count := Min(count, MAX_SCAN_APS);
      records := [];
      if count > 0 {
        records := available[..count];
      }
    }

    /**
     * `networklist_handler`: the records listed in the response. When the scan
     * lock is not obtained (`taken` false), nothing is listed.
     */
    method NetworkList(taken: bool) returns (listed: seq<ApRecord>)
      requires Valid()
      ensures |listed| <= MAX_SCAN_APS
      ensures taken ==> listed == records[..count]
      ensures !taken ==> listed == []
    {
      var apCount: nat := 0;
      if taken {
        apCount := count;
      }
      apCount := Min(apCount, MAX_SCAN_APS);
      listed := [];
      var i := 0;
      while i < apCount
        invariant 0 <= i <= apCount
        invariant listed == records[..i]
      {
        listed := listed + [records[i]];
        i := i + 1;
      }
    }
  }

  // ----- parsed requests -----

  /** A JSON item as the handlers test it: a number, a string, or anything else. */
  datatype JsonValue = JNumber(value: real) | JString(text: string) | JOther

  /** C's conversion of a double to `int`: the fraction is dropped, toward zero. */
  function TruncateToInt(v: real): (r: int)
    ensures v >= 0.0 ==> r as real <= v < r as real + 1.0
    ensures v < 0.0 ==> r as real - 1.0 < v <= r as real
  {
    if v >= 0.0 then v.Floor else -((-v).Floor)
  }

  /** `valueint` of a cJSON number: truncated, and saturated at the `int` range. */
  function ValueInt(v: real): (r: int)
    ensures INT_MIN <= r <= INT_MAX
    ensures INT_MIN as real < v < INT_MAX as real ==> r == TruncateToInt(v)
  {
    if v >= INT_MAX as real then INT_MAX
    else if v <= INT_MIN as real then INT_MIN
    else TruncateToInt(v)
  }

  /** The members of one channel object; `None` when the member is absent. */
  datatype ChannelRequest = ChannelRequest(
    number: Option<JsonValue>,
    name: Option<JsonValue>,
    min: Option<JsonValue>,
    max: Option<JsonValue>,
    color: Option<JsonValue>)

  /** The parsed body of `POST /data`: its optional `channels` array. */
  datatype DataSetRequest = DataSetRequest(channels: Option<seq<ChannelRequest>>)

  /** What `httpd_req_recv` returned. */
  datatype RecvOutcome = Received | RecvTimeout | RecvError

  /** How a handler ends. */
  datatype Reply =
    | Sent(status: nat)    // a response with this status was sent
    | Unsent(status: nat)  // the status was set but nothing was sent
    | Failure              // ESP_FAIL: the server drops the connection
    | OutOfBounds          // an access outside `probes`: undefined in C, so the model stops there

  const OK: nat := 200
  const BAD_REQUEST: nat := 400
  const NOT_FOUND: nat := 404
  const SET_CHANNELS_BUFFER: nat := 1024
  const DATA_SET_BUFFER: nat := 2048

  /** A string member present with string type replaces the field by a bounded copy. */
  function UpdateString(current: string, item: Option<JsonValue>, cap: nat): string
    requires cap > 0
  {
    if item.Some? && item.value.JString? then BoundedCopy(item.value.text, cap) else current
  }

  /** A number member present with number type replaces the field, as `valueint` or as `valuedouble`. */
  function UpdateNumber(current: real, item: Option<JsonValue>, asInt: bool): real
  {
    if item.Some? && item.value.JNumber? then
      (if asInt then ValueInt(item.value.value) as real else item.value.value)
    else current
  }

  /** One probe after applying a channel object; the alarm byte is never touched. */
  function UpdateProbe(p: ProbeData, c: ChannelRequest, asInt: bool): ProbeData
  {
    ProbeData(
      UpdateNumber(p.min, c.min, asInt),
      UpdateNumber(p.max, c.max, asInt),
      UpdateString(p.color, c.color, COLOR_SIZE),
      p.alarm,
      UpdateString(p.name, c.name, NAME_SIZE))
  }

  /**
   * Present members of the right type set the field (strings cut to their
   * buffer, numbers as `valueint` or as `valuedouble`), every other field
   * keeps its value, and the strings still fit.
   */
  lemma UpdateProbeEffect(p: ProbeData, c: ChannelRequest, asInt: bool)
    requires ProbeFits(p)
    ensures var q := UpdateProbe(p, c, asInt);
      ProbeFits(q) && q.alarm == p.alarm &&
      (c.name.Some? && c.name.value.JString? ==>
        q.name == CStr(c.name.value.text)[..Min(|CStr(c.name.value.text)|, NAME_SIZE - 1)]) &&
      (!(c.name.Some? && c.name.value.JString?) ==> q.name == p.name) &&
      (c.color.Some? && c.color.value.JString? ==>
        q.color == CStr(c.color.value.text)[..Min(|CStr(c.color.value.text)|, COLOR_SIZE - 1)]) &&
      (!(c.color.Some? && c.color.value.JString?) ==> q.color == p.color) &&
      (c.min.Some? && c.min.value.JNumber? ==>
        q.min == (if asInt then ValueInt(c.min.value.value) as real else c.min.value.value)) &&
      (!(c.min.Some? && c.min.value.JNumber?) ==> q.min == p.min) &&
      (c.max.Some? && c.max.value.JNumber? ==>
        q.max == (if asInt then ValueInt(c.max.value.value) as real else c.max.value.value)) &&
      (!(c.max.Some? && c.max.value.JNumber?) ==> q.max == p.max)
  {
    if c.name.Some? && c.name.value.JString? {
      BoundedCopyIsPrefix(c.name.value.text, NAME_SIZE);
    }
    if c.color.Some? && c.color.value.JString? {
      BoundedCopyIsPrefix(c.color.value.text, COLOR_SIZE);
    }
  }

  /** Applying the same channel object twice changes nothing more than applying it once. */
  lemma UpdateProbeIdempotent(p: ProbeData, c: ChannelRequest, asInt: bool)
    ensures UpdateProbe(UpdateProbe(p, c, asInt), c, asInt) == UpdateProbe(p, c, asInt)
  {
  }

  /** `setchannels_handler` keeps only the integer part of min/max; `data_set_handler` keeps the value. */
  lemma SetChannelsTruncatesThresholds(p: ProbeData)
    ensures var c := ChannelRequest(None, None, Some(JNumber(62.5)), Some(JNumber(-3.75)), None);
      UpdateProbe(p, c, true).min == 62.0 && UpdateProbe(p, c, true).max == -3.0 &&
      UpdateProbe(p, c, false).min == 62.5 && UpdateProbe(p, c, false).max == -3.75
  {
  }

  // ----- which probe a request addresses -----

  /** The probe slot `setchannels_handler` picks as written, and whether it set status 400. */
  datatype SlotPick = SlotPick(index: int, badRequest: bool)

  function SetChannelsSlotAsWritten(number: Option<JsonValue>): (r: SlotPick)
    ensures r.index >= 0 && (r.badRequest ==> r.index == 0)
    ensures !r.badRequest <==> number.Some? && number.value.JNumber? && ValueInt(number.value.value) > 0
  {
    if number.Some? && number.value.JNumber? && ValueInt(number.value.value) > 0 then
      SlotPick(ValueInt(number.value.value) - 1, false)
    else SlotPick(0, true)
  }

  /** A channel number `n` from 1 to `MAX_PROBE_COUNT` addresses slot `n - 1`; anything else is rejected. */
  function ChannelSlot(number: Option<JsonValue>): (r: Option<nat>)
    ensures r.Some? <==>
      number.Some? && number.value.JNumber? && 1 <= ValueInt(number.value.value) <= MAX_PROBE_COUNT
    ensures r.Some? ==> r.value < MAX_PROBE_COUNT && r.value == ValueInt(number.value.value) - 1
  {
    if number.Some? && number.value.JNumber? && 1 <= ValueInt(number.value.value) <= MAX_PROBE_COUNT then
      Some(ValueInt(number.value.value) - 1)
    else None
  }

  /**
   * As written, a request without a usable number gets status 400 and still
   * overwrites probe 0, and number 9 writes past the last slot.
   */
  lemma SetChannelsAsWrittenMisroutes()
    ensures SetChannelsSlotAsWritten(None) == SlotPick(0, true)
    ensures SetChannelsSlotAsWritten(Some(JString("1"))) == SlotPick(0, true)
    ensures SetChannelsSlotAsWritten(Some(JNumber(9.0))).index == MAX_PROBE_COUNT
    ensures ChannelSlot(None).None? && ChannelSlot(Some(JString("1"))).None?
    ensures ChannelSlot(Some(JNumber(9.0))).None?
  {
  }

  /** Where a channel reaches both pickers, they agree. */
  lemma SetChannelsAsWrittenAgreesOnValidNumbers(number: Option<JsonValue>)
    requires ChannelSlot(number).Some?
    ensures SetChannelsSlotAsWritten(number) == SlotPick(ChannelSlot(number).value, false)
  {
  }

  /** The index `data_set_handler` writes as written: `valueint` itself, unchecked. */
  function DataSetSlotAsWritten(number: Option<JsonValue>): Option<int>
  {
    if number.Some? && number.value.JNumber? then Some(ValueInt(number.value.value)) else None
  }

  /**
   * `GET /data` lists slot `i` as number `i + 1`. Posting an object with that
   * number back updates slot `i + 1` as written, and for the last slot writes
   * past the end of `probes`.
   */
  lemma DataSetAsWrittenShiftsListedNumbers(probes: seq<ProbeData>, c: ChannelRequest, i: nat)
    requires |probes| == MAX_PROBE_COUNT && i < MAX_PROBE_COUNT
    requires c.number == Some(JNumber((i + 1) as real))
    ensures i + 1 < MAX_PROBE_COUNT ==>
      ApplyBatchAsWritten(probes, [c]) == BatchAsWritten(probes[i + 1 := UpdateProbe(probes[i + 1], c, false)], Completed)
    ensures i + 1 == MAX_PROBE_COUNT && WritesProbe(c) ==>
      ApplyBatchAsWritten(probes, [c]) == BatchAsWritten(probes, IndexOutside)
  {
    assert ((i + 1) as real).Floor == i + 1;
    assert [c][1..] == [];
  }

  /** Under the corrected rule, the number `GET /data` lists for slot `i` addresses slot `i`. */
  lemma ListedNumberRoundTrip(i: nat)
    requires i < MAX_PROBE_COUNT
    ensures ChannelSlot(Some(JNumber((i + 1) as real))) == Some(i)
  {
    assert ((i + 1) as real).Floor == i + 1;
  }

  // ----- POST /setchannels -----

  /**
   * `setchannels_handler`, with the channel number checked: one channel object
   * updates one probe (thresholds truncated to integers) and the eight
   * configurations are saved.
   */
  method SetChannels(st: IbbqState?, store: Store, contentLen: nat, recv: RecvOutcome, body: Option<ChannelRequest>)
    returns (reply: Reply)
    requires st != null ==> st.Valid()
    requires store.Valid()
    modifies store, if st == null then {} else {st.probes}
    ensures store.Valid()
    ensures st == null ==> reply == Sent(NOT_FOUND) && unchanged(store)
    ensures st != null && contentLen > SET_CHANNELS_BUFFER ==>
      reply == Unsent(BAD_REQUEST) && unchanged(store) && unchanged(st.probes)
    ensures st != null && contentLen <= SET_CHANNELS_BUFFER && recv == RecvError ==>
      reply == Failure && unchanged(store) && unchanged(st.probes)
    ensures st != null && contentLen <= SET_CHANNELS_BUFFER && recv != RecvError &&
            (body.None? || ChannelSlot(body.value.number).None?) ==>
      reply == Sent(BAD_REQUEST) && unchanged(store) && unchanged(st.probes)
    ensures st != null && contentLen <= SET_CHANNELS_BUFFER && recv != RecvError &&
            body.Some? && ChannelSlot(body.value.number).Some? ==>
      var k := ChannelSlot(body.value.number).value;
      reply == Sent(OK) &&
      st.probes[..] == old(st.probes[..])[k := UpdateProbe(old(st.probes[k]), body.value, true)] &&
      store.nvs == SaveStore(old(store.nvs), Channel, ChannelBuffer(st.probes[..]))
    ensures st != null && old(st.ProbesFit()) ==> st.ProbesFit()
  {
    if st == null {
      return Sent(NOT_FOUND);
    }
    if contentLen > SET_CHANNELS_BUFFER {
      return Unsent(BAD_REQUEST);
    }
    if recv == RecvError {
      return Failure;
    }
    if body.None? {
      return Sent(BAD_REQUEST);
    }
    var request := body.value;
    var slot := ChannelSlot(request.number);
    if slot.None? {
      return Sent(BAD_REQUEST);
    }
    var k := slot.value;
    if st.ProbesFit() {
      UpdateProbeEffect(st.probes[k], request, true);
    }
    st.probes[k] := UpdateProbe(st.probes[k], request, true);
    var _ := store.Save(Channel, ChannelBuffer(st.probes[..]));
    reply := Sent(OK);
  }

  /**
   * `setchannels_handler` as written. A missing, non-numeric or non-positive
   * number sends status 400 and then goes on to update probe 0 and save all
   * eight configurations. A number above 8 addresses a slot past the array;
   * that access is undefined in C, so the model stops there.
   */
  method SetChannelsAsWritten(st: IbbqState?, store: Store, contentLen: nat, recv: RecvOutcome, body: Option<ChannelRequest>)
    returns (reply: Reply)
    requires st != null ==> st.Valid()
    requires store.Valid()
    modifies store, if st == null then {} else {st.probes}
    ensures store.Valid()
    ensures st == null ==> reply == Sent(NOT_FOUND) && unchanged(store)
    ensures st != null && contentLen > SET_CHANNELS_BUFFER ==>
      reply == Unsent(BAD_REQUEST) && unchanged(store) && unchanged(st.probes)
    ensures st != null && contentLen <= SET_CHANNELS_BUFFER && recv == RecvError ==>
      reply == Failure && unchanged(store) && unchanged(st.probes)
    ensures st != null && contentLen <= SET_CHANNELS_BUFFER && recv != RecvError && body.None? ==>
      reply == Sent(BAD_REQUEST) && unchanged(store) && unchanged(st.probes)
    ensures st != null && contentLen <= SET_CHANNELS_BUFFER && recv != RecvError && body.Some? ==>
      var pick := SetChannelsSlotAsWritten(body.value.number);
      (pick.index < MAX_PROBE_COUNT ==>
        reply == Sent(if pick.badRequest then BAD_REQUEST else OK) &&
        st.probes[..] == old(st.probes[..])[pick.index := UpdateProbe(old(st.probes[pick.index]), body.value, true)] &&
        store.nvs == SaveStore(old(store.nvs), Channel, ChannelBuffer(st.probes[..]))) &&
      (pick.index >= MAX_PROBE_COUNT ==> reply == OutOfBounds && unchanged(store) && unchanged(st.probes))
    ensures st != null && old(st.ProbesFit()) ==> st.ProbesFit()
  {
    if st == null {
      return Sent(NOT_FOUND);
    }
    if contentLen > SET_CHANNELS_BUFFER {
      return Unsent(BAD_REQUEST);
    }
    if recv == RecvError {
      return Failure;
    }
    if body.None? {
      return Sent(BAD_REQUEST);
    }
    var request := body.value;
    var pick := SetChannelsSlotAsWritten(request.number);
    if pick.index >= MAX_PROBE_COUNT {
      return OutOfBounds;
    }
    var k := pick.index;
    if st.ProbesFit() {
      UpdateProbeEffect(st.probes[k], request, true);
    }
    st.probes[k] := UpdateProbe(st.probes[k], request, true);
    var _ := store.Save(Channel, ChannelBuffer(st.probes[..]));
    // With a bad number the 400 response is already sent; the closing chunk changes nothing.
    reply := Sent(if pick.badRequest then BAD_REQUEST else OK);
  }

  // ----- POST /data -----

  /** The probes after a batch of channel objects, and whether one was rejected. */
  datatype BatchResult = BatchResult(probes: seq<ProbeData>, rejected: bool)

  /**
   * The channel objects applied in order; the first one whose number does not
   * address a slot stops the batch, keeping the updates made before it.
   */
  function ApplyBatch(probes: seq<ProbeData>, chans: seq<ChannelRequest>): (r: BatchResult)
    requires |probes| == MAX_PROBE_COUNT
    ensures |r.probes| == MAX_PROBE_COUNT
    decreases |chans|
  {
    if chans == [] then BatchResult(probes, false)
    else match ChannelSlot(chans[0].number)
      case None => BatchResult(probes, true)
      case Some(k) => ApplyBatch(probes[k := UpdateProbe(probes[k], chans[0], false)], chans[1..])
  }

  /** A slot that no channel object addresses comes out of the batch unchanged. */
  lemma {:induction false} ApplyBatchLeavesOthers(probes: seq<ProbeData>, chans: seq<ChannelRequest>, j: nat)
    requires |probes| == MAX_PROBE_COUNT && j < MAX_PROBE_COUNT
    requires forall c :: c in chans ==> ChannelSlot(c.number) != Some(j)
    ensures ApplyBatch(probes, chans).probes[j] == probes[j]
    decreases |chans|
  {
    if chans != [] && ChannelSlot(chans[0].number).Some? {
      var k := ChannelSlot(chans[0].number).value;
      assert chans[0] in chans;
      assert forall c :: c in chans[1..] ==> c in chans;
      ApplyBatchLeavesOthers(probes[k := UpdateProbe(probes[k], chans[0], false)], chans[1..], j);
    }
  }

  /**
   * A rejected channel object ends the batch: the objects before it stay
   * applied, and nothing after it is.
   */
  lemma {:induction false} ApplyBatchStopsAtRejection(
    probes: seq<ProbeData>, good: seq<ChannelRequest>, bad: ChannelRequest, rest: seq<ChannelRequest>)
    requires |probes| == MAX_PROBE_COUNT
    requires forall c :: c in good ==> ChannelSlot(c.number).Some?
    requires ChannelSlot(bad.number).None?
    ensures !ApplyBatch(probes, good).rejected
    ensures ApplyBatch(probes, good + [bad] + rest) == BatchResult(ApplyBatch(probes, good).probes, true)
    decreases |good|
  {
    if good == [] {
      assert good + [bad] + rest == [bad] + rest;
    } else {
      var k := ChannelSlot(good[0].number).value;
      var p' := probes[k := UpdateProbe(probes[k], good[0], false)];
      assert (good + [bad] + rest)[0] == good[0];
      assert (good + [bad] + rest)[1..] == good[1..] + [bad] + rest;
      assert forall c :: c in good[1..] ==> c in good;
      ApplyBatchStopsAtRejection(p', good[1..], bad, rest);
    }
  }

  /** A batch keeps every probe's strings within their buffers. */
  lemma {:induction false} ApplyBatchKeepsFit(probes: seq<ProbeData>, chans: seq<ChannelRequest>)
    requires |probes| == MAX_PROBE_COUNT
    requires forall i :: 0 <= i < |probes| ==> ProbeFits(probes[i])
    ensures forall i :: 0 <= i < MAX_PROBE_COUNT ==> ProbeFits(ApplyBatch(probes, chans).probes[i])
    decreases |chans|
  {
    if chans != [] && ChannelSlot(chans[0].number).Some? {
      var k := ChannelSlot(chans[0].number).value;
      UpdateProbeEffect(probes[k], chans[0], false);
      ApplyBatchKeepsFit(probes[k := UpdateProbe(probes[k], chans[0], false)], chans[1..]);
    }
  }

  /**
   * `data_set_handler`, with the channel number mapped to its slot: each
   * channel object of the request updates its probe in place, in order
   * (thresholds kept as given); the configurations are saved only when every
   * object was accepted.
   */
  method DataSet(st: IbbqState?, store: Store, contentLen: nat, recv: RecvOutcome, body: Option<DataSetRequest>)
    returns (reply: Reply)
    requires st != null ==> st.Valid()
    requires store.Valid()
    modifies store, if st == null then {} else {st.probes}
    ensures store.Valid()
    ensures st == null ==> reply == Sent(NOT_FOUND) && unchanged(store)
    ensures st != null && contentLen > DATA_SET_BUFFER ==>
      reply == Sent(BAD_REQUEST) && unchanged(store) && unchanged(st.probes)
    ensures st != null && contentLen <= DATA_SET_BUFFER && recv == RecvError ==>
      reply == Failure && unchanged(store) && unchanged(st.probes)
    ensures st != null && contentLen <= DATA_SET_BUFFER && recv != RecvError && body.None? ==>
      reply == Sent(BAD_REQUEST) && unchanged(store) && unchanged(st.probes)
    ensures st != null && contentLen <= DATA_SET_BUFFER && recv != RecvError &&
            body.Some? && body.value.channels.None? ==>
      reply == Sent(OK) && unchanged(store) && unchanged(st.probes)
    ensures st != null && contentLen <= DATA_SET_BUFFER && recv != RecvError &&
            body.Some? && body.value.channels.Some? ==>
      var r := ApplyBatch(old(st.probes[..]), body.value.channels.value);
      st.probes[..] == r.probes &&
      (r.rejected ==> reply == Sent(BAD_REQUEST) && unchanged(store)) &&
      (!r.rejected ==> reply == Sent(OK) && store.nvs == SaveStore(old(store.nvs), Channel, ChannelBuffer(r.probes)))
    ensures st != null && old(st.ProbesFit()) ==> st.ProbesFit()
  {
    if st == null {
      return Sent(NOT_FOUND);
    }
    if contentLen > DATA_SET_BUFFER {
      return Sent(BAD_REQUEST);
    }
    if recv == RecvError {
      return Failure;
    }
    if body.None? {
      return Sent(BAD_REQUEST);
    }
    if body.value.channels.None? {
      return Sent(OK);
    }
    var chans := body.value.channels.value;
    ghost var fit := st.ProbesFit();
    var i := 0;
    while i < |chans|
      invariant 0 <= i <= |chans|
      invariant st.Valid()
      invariant ApplyBatch(st.probes[..], chans[i..]) == ApplyBatch(old(st.probes[..]), chans)
      invariant fit == old(st.ProbesFit())
      invariant fit ==> st.ProbesFit()
      invariant unchanged(store)
    {
      var c := chans[i];
      assert chans[i..][0] == c && chans[i..][1..] == chans[i + 1..];
      var slot := ChannelSlot(c.number);
      if slot.None? {
        return Sent(BAD_REQUEST);
      }
      var k := slot.value;
      if fit {
        UpdateProbeEffect(st.probes[k], c, false);
      }
      st.probes[k] := UpdateProbe(st.probes[k], c, false);
      i := i + 1;
    }
    assert chans[i..] == [];
    var _ := store.Save(Channel, ChannelBuffer(st.probes[..]));
    reply := Sent(OK);
  }

  // ----- POST /data as written -----

  /** Whether a channel object sets a probe field, i.e. whether `probes[valueint]` is written at all. */
  predicate WritesProbe(c: ChannelRequest)
  {
    (c.name.Some? && c.name.value.JString?) || (c.min.Some? && c.min.value.JNumber?) ||
    (c.max.Some? && c.max.value.JNumber?) || (c.color.Some? && c.color.value.JString?)
  }

  /** How `data_set_handler`'s loop over the channel objects ends, as written. */
  datatype BatchEnd =
    | Completed      // every object processed
    | MissingNumber  // an object without a numeric `number`: status 400, nothing saved
    | IndexOutside   // an object that writes `probes[valueint]` with `valueint` outside 0..7

  datatype BatchAsWritten = BatchAsWritten(probes: seq<ProbeData>, end: BatchEnd)

  /**
   * The channel objects applied in order with `valueint` itself as the slot;
   * an object outside 0..7 that sets no field touches nothing and is passed over.
   */
  function ApplyBatchAsWritten(probes: seq<ProbeData>, chans: seq<ChannelRequest>): (r: BatchAsWritten)
    requires |probes| == MAX_PROBE_COUNT
    ensures |r.probes| == MAX_PROBE_COUNT
    decreases |chans|
  {
    if chans == [] then BatchAsWritten(probes, Completed)
    else match DataSetSlotAsWritten(chans[0].number)
      case None => BatchAsWritten(probes, MissingNumber)
      case Some(k) =>
        if 0 <= k < MAX_PROBE_COUNT then
          ApplyBatchAsWritten(probes[k := UpdateProbe(probes[k], chans[0], false)], chans[1..])
        else if WritesProbe(chans[0]) then BatchAsWritten(probes, IndexOutside)
        else ApplyBatchAsWritten(probes, chans[1..])
  }

  /** As written, the first object of a batch writes slot `valueint` when it lies in 0..7. */
  lemma ApplyBatchAsWrittenFirstSlot(probes: seq<ProbeData>, c: ChannelRequest, rest: seq<ChannelRequest>, k: int)
    requires |probes| == MAX_PROBE_COUNT
    requires DataSetSlotAsWritten(c.number) == Some(k) && 0 <= k < MAX_PROBE_COUNT
    ensures ApplyBatchAsWritten(probes, [c] + rest) ==
      ApplyBatchAsWritten(probes[k := UpdateProbe(probes[k], c, false)], rest)
  {
    assert ([c] + rest)[0] == c && ([c] + rest)[1..] == rest;
  }

  /** As written, a batch whose every number has `valueint` in 0..7 is processed to the end. */
  lemma {:induction false} ApplyBatchAsWrittenCompletes(probes: seq<ProbeData>, chans: seq<ChannelRequest>)
    requires |probes| == MAX_PROBE_COUNT
    requires forall c :: c in chans ==>
      DataSetSlotAsWritten(c.number).Some? && 0 <= DataSetSlotAsWritten(c.number).value < MAX_PROBE_COUNT
    ensures ApplyBatchAsWritten(probes, chans).end == Completed
    decreases |chans|
  {
    if chans != [] {
      var k := DataSetSlotAsWritten(chans[0].number).value;
      assert chans[0] in chans;
      assert forall c :: c in chans[1..] ==> c in chans;
      ApplyBatchAsWrittenCompletes(probes[k := UpdateProbe(probes[k], chans[0], false)], chans[1..]);
    }
  }

  /** As written, a slot whose index no channel object carries comes out of the batch unchanged. */
  lemma {:induction false} ApplyBatchAsWrittenLeavesOthers(probes: seq<ProbeData>, chans: seq<ChannelRequest>, j: nat)
    requires |probes| == MAX_PROBE_COUNT && j < MAX_PROBE_COUNT
    requires forall c :: c in chans ==> DataSetSlotAsWritten(c.number) != Some(j)
    ensures ApplyBatchAsWritten(probes, chans).probes[j] == probes[j]
    decreases |chans|
  {
    if chans != [] && DataSetSlotAsWritten(chans[0].number).Some? {
      var k := DataSetSlotAsWritten(chans[0].number).value;
      assert chans[0] in chans;
      assert forall c :: c in chans[1..] ==> c in chans;
      if 0 <= k < MAX_PROBE_COUNT {
        ApplyBatchAsWrittenLeavesOthers(probes[k := UpdateProbe(probes[k], chans[0], false)], chans[1..], j);
      } else if !WritesProbe(chans[0]) {
        ApplyBatchAsWrittenLeavesOthers(probes, chans[1..], j);
      }
    }
  }

  /**
   * A one-object batch with number `n` in 0..7: as written it updates slot `n`
   * and completes, so number 0 is accepted; the corrected rule rejects 0 and
   * sends every other `n` to slot `n - 1`.
   */
  lemma DataSetAsWrittenVersusCorrected(probes: seq<ProbeData>, c: ChannelRequest, n: nat)
    requires |probes| == MAX_PROBE_COUNT && n < MAX_PROBE_COUNT
    requires c.number == Some(JNumber(n as real))
    ensures ApplyBatchAsWritten(probes, [c]) ==
      BatchAsWritten(probes[n := UpdateProbe(probes[n], c, false)], Completed)
    ensures n == 0 ==> ApplyBatch(probes, [c]) == BatchResult(probes, true)
    ensures n > 0 ==>
      ApplyBatch(probes, [c]) == BatchResult(probes[n - 1 := UpdateProbe(probes[n - 1], c, false)], false)
  {
    assert (n as real).Floor == n;
    assert [c][1..] == [];
  }

  /**
   * `data_set_handler` as written: each channel object updates `probes[valueint]`
   * in place, in order; a missing or non-numeric number answers 400 unsaved;
   * a batch processed to the end is saved and answered 200.
   */
  method DataSetAsWritten(st: IbbqState?, store: Store, contentLen: nat, recv: RecvOutcome, body: Option<DataSetRequest>)
    returns (reply: Reply)
    requires st != null ==> st.Valid()
    requires store.Valid()
    modifies store, if st == null then {} else {st.probes}
    ensures store.Valid()
    ensures st == null ==> reply == Sent(NOT_FOUND) && unchanged(store)
    ensures st != null && contentLen > DATA_SET_BUFFER ==>
      reply == Sent(BAD_REQUEST) && unchanged(store) && unchanged(st.probes)
    ensures st != null && contentLen <= DATA_SET_BUFFER && recv == RecvError ==>
      reply == Failure && unchanged(store) && unchanged(st.probes)
    ensures st != null && contentLen <= DATA_SET_BUFFER && recv != RecvError && body.None? ==>
      reply == Sent(BAD_REQUEST) && unchanged(store) && unchanged(st.probes)
    ensures st != null && contentLen <= DATA_SET_BUFFER && recv != RecvError &&
            body.Some? && body.value.channels.None? ==>
      reply == Sent(OK) && unchanged(store) && unchanged(st.probes)
    ensures st != null && contentLen <= DATA_SET_BUFFER && recv != RecvError &&
            body.Some? && body.value.channels.Some? ==>
      var r := ApplyBatchAsWritten(old(st.probes[..]), body.value.channels.value);
      st.probes[..] == r.probes &&
      (r.end == Completed ==> reply == Sent(OK) && store.nvs == SaveStore(old(store.nvs), Channel, ChannelBuffer(r.probes))) &&
      (r.end == MissingNumber ==> reply == Sent(BAD_REQUEST) && unchanged(store)) &&
      (r.end == IndexOutside ==> reply == OutOfBounds && unchanged(store))
  {
    if st == null {
      return Sent(NOT_FOUND);
    }
    if contentLen > DATA_SET_BUFFER {
      return Sent(BAD_REQUEST);
    }
    if recv == RecvError {
      return Failure;
    }
    if body.None? {
      return Sent(BAD_REQUEST);
    }
    if body.value.channels.None? {
      return Sent(OK);
    }
    var chans := body.value.channels.value;
    var i := 0;
    while i < |chans|
      invariant 0 <= i <= |chans|
      invariant st.Valid()
      invariant ApplyBatchAsWritten(st.probes[..], chans[i..]) == ApplyBatchAsWritten(old(st.probes[..]), chans)
      invariant unchanged(store)
    {
      var c := chans[i];
      assert chans[i..][0] == c && chans[i..][1..] == chans[i + 1..];
      var slot := DataSetSlotAsWritten(c.number);
      if slot.None? {
        return Sent(BAD_REQUEST);
      }
      var k := slot.value;
      if 0 <= k < MAX_PROBE_COUNT {
        st.probes[k] := UpdateProbe(st.probes[k], c, false);
      } else if WritesProbe(c) {
        return OutOfBounds;
      }
      i := i + 1;
    }
    assert chans[i..] == [];
    var _ := store.Save(Channel, ChannelBuffer(st.probes[..]));
    reply := Sent(OK);
  }

  // ----- GET /data -----

  /** One entry of the `channel` array of `GET /data`. */
  datatype ChannelView = ChannelView(number: nat, name: string, temp: int, min: real, max: real, color: string)

  /**
   * `data_handler`: one entry per connected probe, numbered from 1; the
   * `probe_count <= MAX_PROBE_COUNT` bound is what keeps the reads in range.
   */
  method ChannelList(st: IbbqState?) returns (views: seq<ChannelView>)
    requires st != null ==> st.Valid()
    ensures st == null ==> views == []
    ensures st != null ==> |views| == st.probeCount
    ensures st != null ==> forall i :: 0 <= i < |views| ==>
      views[i] == ChannelView(i + 1, st.probes[i].name, st.temps[i], st.probes[i].min, st.probes[i].max, st.probes[i].color)
    ensures forall i :: 0 <= i < |views| ==> ChannelSlot(Some(JNumber(views[i].number as real))) == Some(i)
  {
    views := [];
    if st == null {
      return;
    }
    var i := 0;
    while i < st.probeCount
      invariant 0 <= i <= st.probeCount
      invariant |views| == i
      invariant forall j :: 0 <= j < i ==>
        views[j] == ChannelView(j + 1, st.probes[j].name, st.temps[j], st.probes[j].min, st.probes[j].max, st.probes[j].color)
    {
      var p := st.probes[i];
      views := views + [ChannelView(i + 1, p.name, st.temps[i], p.min, p.max, p.color)];
      i := i + 1;
    }
    forall j | 0 <= j < |views|
      ensures ChannelSlot(Some(JNumber(views[j].number as real))) == Some(j)
    {
      ListedNumberRoundTrip(j);
    }
  }
}
