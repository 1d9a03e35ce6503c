/**
 * The WiFi station reconnect policy (`wifi.cpp`): a retry counter bounded by
 * `CONFIG_ESP_MAXIMUM_RETRY` and the lifecycle of the webserver handle, driven
 * by the system events of the WiFi driver. Driver calls are recorded as
 * actions; the handle `init_webserver` returns is an input.
 */
module Wifi {
  import opened Base

  const MAXIMUM_RETRY: nat := 50

  datatype SystemEvent = StaStart | StaConnected | StaGotIp | ApStaGotIp6 | StaDisconnected | OtherEvent

  /** An `httpd_handle_t` that is not NULL. */
  type ServerHandle = nat

  /** What the handler asks of the WiFi driver and the webserver. */
  datatype WifiAction = ConnectAttempt | StartServer(handle: ServerHandle) | StopServer(handle: ServerHandle)

  /** `s_retry_num` and `nCtx->webserver`. */
  datatype WifiState = WifiState(retry: nat, webserver: Option<ServerHandle>)

  /** One event together with the handle `init_webserver` would return for it. */
  datatype WifiInput = WifiInput(event: SystemEvent, started: ServerHandle)

  /** The state after `esp_wifi_event_handler` handles `e`. */
  function Step(s: WifiState, e: SystemEvent, started: ServerHandle): WifiState
  {
    match e
    case StaGotIp => WifiState(0, Some(started))
    case StaDisconnected => WifiState(if s.retry < MAXIMUM_RETRY then s.retry + 1 else s.retry, None)
    case _ => s
  }

  /** The driver and webserver calls the handler makes for `e`, in order. */
  function StepActions(s: WifiState, e: SystemEvent, started: ServerHandle): seq<WifiAction>
  {
    match e
    case StaStart => [ConnectAttempt]
    case StaGotIp => [StartServer(started)]
    case StaDisconnected =>
      (if s.webserver.Some? then [StopServer(s.webserver.value)] else []) +
      (if s.retry < MAXIMUM_RETRY then [ConnectAttempt] else [])
    case _ => []
  }

  /** The state after a sequence of events. */
  function Run(s: WifiState, inputs: seq<WifiInput>): WifiState
    decreases |inputs|
  {
    if inputs == [] then s
    else Run(Step(s, inputs[0].event, inputs[0].started), inputs[1..])
  }

  /** Every call made while handling a sequence of events. */
  function RunActions(s: WifiState, inputs: seq<WifiInput>): seq<WifiAction>
    decreases |inputs|
  {
    if inputs == [] then []
    else StepActions(s, inputs[0].event, inputs[0].started) +
         RunActions(Step(s, inputs[0].event, inputs[0].started), inputs[1..])
  }

  /** The number of connect attempts among `acts`. */
  function Connects(acts: seq<WifiAction>): (n: nat)
    ensures n <= |acts|
    ensures n == 0 <==> ConnectAttempt !in acts
  {
    if acts == [] then 0
    else (if acts[0] == ConnectAttempt then 1 else 0) + Connects(acts[1..])
  }

  lemma {:induction false} ConnectsAppend(a: seq<WifiAction>, b: seq<WifiAction>)
    ensures Connects(a + b) == Connects(a) + Connects(b)
    decreases |a|
  {
    if a == [] {
      assert a + b == b;
    } else {
      assert (a + b)[1..] == a[1..] + b;
      ConnectsAppend(a[1..], b);
    }
  }

  /** What each event does on its own. */
  lemma StepCases(s: WifiState, e: SystemEvent, started: ServerHandle)
    ensures e == StaStart ==>
      Step(s, e, started) == s && StepActions(s, e, started) == [ConnectAttempt]
    ensures e == StaGotIp ==>
      Step(s, e, started).retry == 0 && Step(s, e, started).webserver == Some(started) &&
      forall h :: StopServer(h) !in StepActions(s, e, started)
    ensures e == StaDisconnected ==>
      Step(s, e, started).webserver.None? &&
      (s.webserver.Some? ==> StepActions(s, e, started)[0] == StopServer(s.webserver.value)) &&
      (s.webserver.None? ==> forall h :: StopServer(h) !in StepActions(s, e, started)) &&
      (s.retry < MAXIMUM_RETRY <==> ConnectAttempt in StepActions(s, e, started)) &&
      (s.retry < MAXIMUM_RETRY ==> Step(s, e, started).retry == s.retry + 1) &&
      (s.retry >= MAXIMUM_RETRY ==> Step(s, e, started).retry == s.retry)
    ensures e in {StaConnected, ApStaGotIp6, OtherEvent} ==>
      Step(s, e, started) == s && StepActions(s, e, started) == []
  {
    if e == StaDisconnected && s.webserver.None? {
      assert forall a :: a in StepActions(s, e, started) ==> a == ConnectAttempt;
    }
  }

  /** The retry counter never exceeds the maximum, whatever the events. */
  lemma {:induction false} RetryBounded(s: WifiState, inputs: seq<WifiInput>)
    requires s.retry <= MAXIMUM_RETRY
    ensures Run(s, inputs).retry <= MAXIMUM_RETRY
    decreases |inputs|
  {
    if inputs != [] {
      RetryBounded(Step(s, inputs[0].event, inputs[0].started), inputs[1..]);
    }
  }

  /** A run of events made only of disconnects. */
  predicate AllDisconnects(inputs: seq<WifiInput>)
  {
    forall i :: 0 <= i < |inputs| ==> inputs[i].event == StaDisconnected
  }

  /**
   * `k` disconnects in a row raise the counter to at most the maximum and
   * make exactly one connect attempt each until the maximum is reached.
   */
  lemma {:induction false} DisconnectStreak(s: WifiState, inputs: seq<WifiInput>)
    requires s.retry <= MAXIMUM_RETRY && AllDisconnects(inputs)
    ensures Run(s, inputs).retry == Min(s.retry + |inputs|, MAXIMUM_RETRY)
    ensures Connects(RunActions(s, inputs)) == Min(|inputs|, MAXIMUM_RETRY - s.retry)
    ensures inputs != [] ==> Run(s, inputs).webserver.None?
    decreases |inputs|
  {
    if inputs != [] {
      var s' := Step(s, inputs[0].event, inputs[0].started);
      var first := StepActions(s, inputs[0].event, inputs[0].started);
      assert Connects(first) == (if s.retry < MAXIMUM_RETRY then 1 else 0) by {
        if s.webserver.Some? {
          assert first == [StopServer(s.webserver.value)] + (if s.retry < MAXIMUM_RETRY then [ConnectAttempt] else []);
          ConnectsAppend([StopServer(s.webserver.value)], if s.retry < MAXIMUM_RETRY then [ConnectAttempt] else []);
        }
      }
      assert AllDisconnects(inputs[1..]) by {
        forall i | 0 <= i < |inputs[1..]| ensures inputs[1..][i].event == StaDisconnected {
          assert inputs[1..][i] == inputs[i + 1];
        }
      }
      DisconnectStreak(s', inputs[1..]);
      ConnectsAppend(first, RunActions(s', inputs[1..]));
      if inputs[1..] == [] {
        assert Run(s', inputs[1..]) == s';
      }
    }
  }

  /**
   * After `MAXIMUM_RETRY` disconnects in a row, from any reachable state, a
   * further disconnect makes no connect attempt.
   */
  lemma GivesUpAfterMaximumRetries(s: WifiState, inputs: seq<WifiInput>, started: ServerHandle)
    requires s.retry <= MAXIMUM_RETRY && AllDisconnects(inputs) && |inputs| >= MAXIMUM_RETRY
    ensures Run(s, inputs).retry == MAXIMUM_RETRY
    ensures ConnectAttempt !in StepActions(Run(s, inputs), StaDisconnected, started)
  {
    DisconnectStreak(s, inputs);
  }

  /** The modes `esp_wifi_set_mode` accepts. */
  datatype WifiMode = ModeNull | ModeStation | ModeAccessPoint | ModeStationAndAccessPoint

  /** The station state of the firmware: the static counter and the network context's handle. */
  class Station {
    var retry: nat
    var webserver: Option<ServerHandle>
    var actions: seq<WifiAction>
    var mode: WifiMode
    var ssid: string
    var psk: string
    var driverStarted: bool

    ghost predicate Valid()
      reads this
    {
      retry <= MAXIMUM_RETRY
    }

    function State(): WifiState
      reads this
    {
      WifiState(retry, webserver)
    }

    /**
     * `wifi_init_sta`: station mode with the compile-time credentials, then
     * start the driver; no access point is configured.
     */
    constructor (wifiSsid: string, wifiPsk: string)
      ensures Valid() && retry == 0 && webserver.None? && actions == []
      ensures mode == ModeStation && ssid == wifiSsid && psk == wifiPsk && driverStarted
    {
      retry := 0;
      webserver := None;
      actions := [];
      mode := ModeStation;
      ssid := wifiSsid;
      psk := wifiPsk;
      driverStarted := true;
    }

    /** `esp_wifi_event_handler` for one event; `started` is what `init_webserver` returns. */
    method HandleEvent(e: SystemEvent, started: ServerHandle)
      requires Valid()
      modifies this
      ensures Valid()
      ensures State() == Step(old(State()), e, started)
      ensures actions == old(actions) + StepActions(old(State()), e, started)
      ensures mode == old(mode) && ssid == old(ssid) && psk == old(psk) && driverStarted == old(driverStarted)
    {
      match e
      case StaStart =>
        actions := actions + [ConnectAttempt];
      case StaGotIp =>
        retry := 0;
        webserver := Some(started);
        actions := actions + [StartServer(started)];
      case StaDisconnected =>
        if webserver.Some? {
          actions := actions + [StopServer(webserver.value)];
          webserver := None;
        }
        if retry < MAXIMUM_RETRY {
          actions := actions + [ConnectAttempt];
          retry := retry + 1;
        }
      case _ =>
    }
  }
}
