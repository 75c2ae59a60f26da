/**
  The browser's real-time manager (RealTimeManager in
  app/static/js/realtime.js): the connection controller, proved against
  the state machine of ConnectionSpec, and the handlers that route server
  data events to the dashboard and the charts.
*/
module RealTime {
  import opened Common
  import opened ConnectionSpec
  import Dashboard
  import Charts

  /** Points kept on the network-activity chart. */
  const NetworkCap: nat := 10

  /** A user-facing alert outside the page: the alert sound or a browser notification. */
  datatype Alert = Sound | BrowserNotification(title: string)

  /** A usage bar of the performance panel: its width and its colour. */
  datatype Gauge = Gauge(width: real, color: string)

  /** The alert sound plays unless the 'audioNotifications' setting is exactly 'false'. */
  function AudioEnabled(setting: Option<string>): (b: bool)
    ensures !b <==> setting == Some("false")
  {
    setting != Some("false")
  }

  /**
    Whether a browser notification is shown: the API must exist, and the
    permission must be 'granted' already or become 'granted' when a
    'default' permission is asked for (`answer` is the user's reply).
  */
  function NotificationShown(supported: bool, permission: string, answer: string): (b: bool)
    ensures b <==> supported && (permission == "granted" || (permission == "default" && answer == "granted"))
  {
    if !supported then false
    else
      var p := if permission == "default" then answer else permission;
      p == "granted"
  }

  /** The alerts a detection raises: the sound only above 0.8 confidence, then the notification. */
  function ThreatAlerts(threatType: string, confidence: real, audioSetting: Option<string>,
                        supported: bool, permission: string, answer: string): seq<Alert>
  {
    (if confidence > 0.8 && AudioEnabled(audioSetting) then [Sound] else [])
    + (if NotificationShown(supported, permission, answer) then [BrowserNotification(threatType + " Detected")] else [])
  }

  /** The sound is raised exactly when confidence is above 0.8 and audio is not switched off. */
  lemma AudioGatedByConfidence(threatType: string, confidence: real, audioSetting: Option<string>,
                               supported: bool, permission: string, answer: string)
    ensures Sound in ThreatAlerts(threatType, confidence, audioSetting, supported, permission, answer)
            <==> confidence > 0.8 && audioSetting != Some("false")
    ensures BrowserNotification(threatType + " Detected") in ThreatAlerts(threatType, confidence, audioSetting, supported, permission, answer)
            <==> NotificationShown(supported, permission, answer)
  {
  }

  /** Width of a usage bar: `Math.min(value || 0, 100)`. */
  function GaugeWidth(value: Option<real>): (w: real)
    ensures w <= 100.0
    ensures value.None? ==> w == 0.0
    ensures value.Some? && value.value <= 100.0 ==> w == value.value
    ensures value.Some? && value.value > 100.0 ==> w == 100.0
  {
    Dashboard.ProgressWidth(Dashboard.OrZero(value))
  }

  /** Colour of a usage bar: danger above `high`, warning above `mid`, success otherwise (also when absent). */
  function GaugeColor(value: Option<real>, high: real, mid: real): (c: string)
    ensures c == "danger" <==> value.Some? && value.value > high
    ensures c == "warning" <==> value.Some? && !(value.value > high) && value.value > mid
    ensures c == "success" <==> value.None? || (value.value <= high && value.value <= mid)
  {
    if value.Some? && value.value > high then "danger"
    else if value.Some? && value.value > mid then "warning"
    else "success"
  }

  /** The CPU bar turns warning above 60 and danger above 80; the memory bar above 70 and 85. */
  function PerformanceGauges(cpu: Option<real>, memory: Option<real>): (g: map<string, Gauge>)
    ensures g.Keys == {"cpu", "memory"}
    ensures g["cpu"] == Gauge(GaugeWidth(cpu), GaugeColor(cpu, 80.0, 60.0))
    ensures g["memory"] == Gauge(GaugeWidth(memory), GaugeColor(memory, 85.0, 70.0))
  {
    map["cpu" := Gauge(GaugeWidth(cpu), GaugeColor(cpu, 80.0, 60.0)),
        "memory" := Gauge(GaugeWidth(memory), GaugeColor(memory, 85.0, 70.0))]
  }

  /** The network-activity window: one update keeps the three arrays parallel, newest last, at most 10. */
  lemma NetworkWindow(labels: seq<string>, packets: seq<real>, threats: seq<real>, point: string, pps: real, tps: real)
    requires |labels| == |packets| == |threats| <= NetworkCap
    ensures var l := Charts.PushShift(labels, point, |labels|, NetworkCap);
      var p := Charts.PushShift(packets, pps, |labels|, NetworkCap);
      var t := Charts.PushShift(threats, tps, |labels|, NetworkCap);
      && |l| == |p| == |t| == Min(|labels| + 1, NetworkCap)
      && l[|l| - 1] == point && p[|p| - 1] == pps && t[|t| - 1] == tps
  {
    Charts.PushShiftWindow(labels, point, NetworkCap);
    Charts.PushShiftWindow(packets, pps, NetworkCap);
    Charts.PushShiftWindow(threats, tps, NetworkCap);
  }

  class RealTimeManager {
    var isConnected: bool
    var reconnectAttempts: nat
    var lastHeartbeat: Option<int>
    var sockets: nat
    var timers: seq<nat>
    var fired: set<nat>
    var outbox: seq<Emission>
    var toasts: seq<StatusToast>
    var storedClientId: Option<string>
    var heartbeatInterval: bool
    var closeRequested: bool
    var alerts: seq<Alert>
    var gauges: map<string, Gauge>

    /** The connection part of the object, as the state machine sees it. */
    function State(): Conn
      reads this
    {
      Conn(isConnected, reconnectAttempts, lastHeartbeat, sockets, timers, fired, outbox, toasts,
           storedClientId, heartbeatInterval, closeRequested)
    }

    ghost predicate Valid()
      reads this
    {
      Inv(State())
    }

    /** `stored` is the persisted client id; `ioThrows` says whether the socket factory throws. */
    constructor (stored: Option<string>, ioThrows: bool)
      ensures State() == Init(stored, ioThrows) && Valid()
      ensures alerts == [] && gauges == map[]
    {
      isConnected := false;
      reconnectAttempts := 0;
      lastHeartbeat := None;
      sockets := 0;
      timers := [];
      fired := {};
      outbox := [];
      toasts := [];
      storedClientId := stored;
      heartbeatInterval := false;
      closeRequested := false;
      alerts := [];
      gauges := map[];
      new;
      Connect(ioThrows);
      heartbeatInterval := true;
      InitInv(stored, ioThrows);
    }

    method HandleReconnect()
      modifies this`reconnectAttempts, this`timers
      ensures State() == ConnectionSpec.HandleReconnect(old(State()))
    {
      if reconnectAttempts < MaxReconnectAttempts {
        reconnectAttempts := reconnectAttempts + 1;
        timers := timers + [Delay(reconnectAttempts)];
      }
    }

    method Connect(ioThrows: bool)
      modifies this`reconnectAttempts, this`timers, this`sockets
      ensures State() == ConnectionSpec.Connect(old(State()), ioThrows)
    {
      if ioThrows {
        HandleReconnect();
      } else {
        sockets := sockets + 1;
      }
    }

    method OnConnect()
      modifies this`isConnected, this`reconnectAttempts, this`toasts
      ensures State() == ConnectionSpec.OnConnect(old(State()))
    {
      isConnected := true;
      reconnectAttempts := 0;
      toasts := toasts + [StatusToast("Connected to server", "success")];
    }

    method OnDisconnect(reason: string)
      modifies this`isConnected, this`reconnectAttempts, this`timers, this`toasts
      ensures State() == ConnectionSpec.OnDisconnect(old(State()), reason)
    {
      isConnected := false;
      if reason == ServerDisconnectReason {
        toasts := toasts + [StatusToast("Server disconnected", "error")];
      } else {
        toasts := toasts + [StatusToast("Connection lost, attempting to reconnect...", "warning")];
        HandleReconnect();
      }
    }

    method OnConnectError()
      modifies this`isConnected, this`reconnectAttempts, this`timers
      ensures State() == ConnectionSpec.OnConnectError(old(State()))
    {
      isConnected := false;
      HandleReconnect();
    }

    method OnReconnect()
      modifies this`isConnected, this`reconnectAttempts, this`toasts
      ensures State() == ConnectionSpec.OnReconnect(old(State()))
    {
      isConnected := true;
      reconnectAttempts := 0;
      toasts := toasts + [StatusToast("Reconnected successfully", "success")];
    }

    method OnReconnectFailed()
      modifies this`toasts
      ensures State() == ConnectionSpec.OnReconnectFailed(old(State()))
    {
      toasts := toasts + [StatusToast("Failed to reconnect to server", "error")];
    }

    method OnHeartbeat(now: int)
      modifies this`lastHeartbeat
      ensures State() == ConnectionSpec.OnHeartbeat(old(State()), now)
    {
      lastHeartbeat := Some(now);
    }

    /** `getClientId`: the stored id, or a fresh 'client_' id that is stored for next time. */
    method GetClientId(randomPart: string) returns (id: string)
      modifies this`storedClientId
      ensures id == ClientId(old(storedClientId), randomPart)
      ensures storedClientId == Some(id)
    {
      if storedClientId.Some? && storedClientId.value != "" {
        id := storedClientId.value;
      } else {
        id := "client_" + randomPart;
        storedClientId := Some(id);
      }
    }

    method HeartbeatTick(now: int, randomPart: string)
      modifies this`storedClientId, this`outbox
      ensures State() == ConnectionSpec.HeartbeatTick(old(State()), now, randomPart)
    {
      if heartbeatInterval && isConnected && sockets > 0 {
        var id := GetClientId(randomPart);
        outbox := outbox + [Emission("heartbeat", Beat(now, id))];
      }
    }

    method LivenessTick(now: int)
      modifies this`reconnectAttempts, this`timers
      ensures State() == ConnectionSpec.LivenessTick(old(State()), now)
    {
      if lastHeartbeat.Some? && lastHeartbeat.value != 0 && now - lastHeartbeat.value > HeartbeatTimeout {
        HandleReconnect();
      }
    }

    method FireRetry(i: nat, ioThrows: bool)
      requires Pending(State(), i)
      modifies this`fired, this`reconnectAttempts, this`timers, this`sockets
      ensures State() == ConnectionSpec.FireRetry(old(State()), i, ioThrows)
    {
      fired := fired + {i};
      if !isConnected {
        Connect(ioThrows);
      }
    }

    /** Emits when connected with a socket and reports whether it did; otherwise nothing is queued. */
    method SendMessage(event: string, payload: Payload) returns (sent: bool)
      modifies this`outbox
      ensures sent == CanSend(old(State()))
      ensures State() == ConnectionSpec.SendMessage(old(State()), event, payload)
    {
      sent := isConnected && sockets > 0;
      if sent {
        outbox := outbox + [Emission(event, payload)];
      }
    }

    method RequestThreatAnalysis(body: string)
      modifies this`outbox
      ensures State() == ConnectionSpec.SendMessage(old(State()), "analyze_threat", Data(body))
    {
      var _ := SendMessage("analyze_threat", Data(body));
    }

    method RequestSystemStats()
      modifies this`outbox
      ensures State() == ConnectionSpec.SendMessage(old(State()), "request_stats", Data("{}"))
    {
      var _ := SendMessage("request_stats", Data("{}"));
    }

    method UpdateSettings(settings: string)
      modifies this`outbox
      ensures State() == ConnectionSpec.SendMessage(old(State()), "update_settings", Data(settings))
    {
      var _ := SendMessage("update_settings", Data(settings));
    }

    method Destroy()
      modifies this`heartbeatInterval, this`closeRequested
      ensures State() == ConnectionSpec.Destroy(old(State()))
    {
      heartbeatInterval := false;
      if sockets > 0 {
        closeRequested := true;
      }
    }

    /**
      Routes one transport event, timer firing or outbound call to its
      handler; the object then is in the state machine's next state and
      keeps its invariant.
    */
    method Handle(e: Event)
      requires Valid()
      modifies this`isConnected, this`reconnectAttempts, this`lastHeartbeat, this`sockets, this`timers,
               this`fired, this`outbox, this`toasts, this`storedClientId, this`heartbeatInterval, this`closeRequested
      ensures Valid()
      ensures State() == Step(old(State()), e)
    {
      StepKeepsInv(State(), e);
      match e
      case SocketConnect => OnConnect();
      case SocketDisconnect(reason) => OnDisconnect(reason);
      case SocketConnectError => OnConnectError();
      case SocketReconnect(_) => OnReconnect();
      case SocketReconnectAttempt(_) =>
      case SocketReconnectError =>
      case SocketReconnectFailed => OnReconnectFailed();
      case ServerHeartbeat(now) => OnHeartbeat(now);
      case HeartbeatTimerFires(now, r) => HeartbeatTick(now, r);
      case LivenessTimerFires(now) => LivenessTick(now);
      case RetryTimerFires(i, b) =>
        if Pending(State(), i) {
          FireRetry(i, b);
        }
      case Outbound(event, p) => var _ := SendMessage(event, p);
      case Teardown => Destroy();
      case DataEvent(_) =>
    }

    /** A stream of events leaves the object in the state machine's final state. */
    method HandleAll(evs: seq<Event>)
      requires Valid()
      modifies this`isConnected, this`reconnectAttempts, this`lastHeartbeat, this`sockets, this`timers,
               this`fired, this`outbox, this`toasts, this`storedClientId, this`heartbeatInterval, this`closeRequested
      ensures Valid()
      ensures State() == Run(old(State()), evs)
      ensures reconnectAttempts <= MaxReconnectAttempts
    {
      var i := 0;
      while i < |evs|
        invariant 0 <= i <= |evs|
        invariant Valid()
        invariant Run(old(State()), evs) == Run(State(), evs[i..])
      {
        assert evs[i..] == [evs[i]] + evs[i + 1..];
        Handle(evs[i]);
        i := i + 1;
      }
    }

    method PlayNotificationSound(audioSetting: Option<string>)
      modifies this`alerts
      ensures alerts == old(alerts) + (if AudioEnabled(audioSetting) then [Sound] else [])
    {
      if audioSetting != Some("false") {
        alerts := alerts + [Sound];
      }
    }

    method ShowBrowserNotification(title: string, supported: bool, permission: string, answer: string)
      modifies this`alerts
      ensures alerts == old(alerts) + (if NotificationShown(supported, permission, answer) then [BrowserNotification(title)] else [])
    {
      if supported {
        var p := permission;
        if p == "default" {
          p := answer;
        }
        if p == "granted" {
          alerts := alerts + [BrowserNotification(title)];
        }
      }
    }

    /**
      `threat_detected`: the dashboard records the detection, the timeline
      gains a point of value 1, then the sound and the browser
      notification are raised as allowed.  Absent managers are skipped.
    */
    method HandleThreatDetected(dm: Dashboard.DashboardManager?, cm: Charts.ChartsManager?,
                                threatType: string, confidence: real, confidenceText: string,
                                nowIso: string, timeLabel: string, audioSetting: Option<string>,
                                supported: bool, permission: string, answer: string)
      requires dm != null ==> dm.Valid()
      requires cm != null ==> cm.Valid()
      modifies this`alerts
      modifies (if dm != null then {dm} else {})`notifications, (if dm != null then {dm} else {})`badgeCount,
               (if dm != null then {dm} else {})`badgeVisible, (if dm != null then {dm} else {})`toasts
      modifies (if cm != null && "threatTimeline" in cm.charts then {cm.charts["threatTimeline"]} else {})`labels,
               (if cm != null && "threatTimeline" in cm.charts then {cm.charts["threatTimeline"]} else {})`datasets
      ensures dm != null ==> dm.Valid() && dm.notifications == Dashboard.Prepend(old(dm.notifications),
        Dashboard.Notification("threat", "New " + threatType + " Detected", "Confidence: " + confidenceText + "%",
                               nowIso, Dashboard.ThreatSeverity(confidence), false))
      ensures dm != null && confidence > 0.8 ==>
        dm.toasts == old(dm.toasts) + [Dashboard.Toast("warning", "High-Risk Threat Detected",
                                                       threatType + " with " + confidenceText + "% confidence", 5000)]
      ensures dm != null && confidence <= 0.8 ==> dm.toasts == old(dm.toasts)
      ensures cm != null ==> cm.Valid()
      ensures cm != null && "threatTimeline" in cm.charts ==>
        var c := cm.charts["threatTimeline"];
        var n := |old(c.labels)|;
        && c.labels == Charts.PushShift(old(c.labels), timeLabel, n, Charts.TimelineCap)
        && c.datasets == old(c.datasets)[0 := Charts.PushShift(old(c.datasets[0]), 1.0, n, Charts.TimelineCap)]
      ensures alerts == old(alerts) + ThreatAlerts(threatType, confidence, audioSetting, supported, permission, answer)
    {
      if dm != null {
        dm.HandleThreatUpdate(threatType, confidence, confidenceText, nowIso);
      }
      if cm != null {
        cm.AddThreatDataPoint(timeLabel, 1.0);
      }
      RaiseThreatAlerts(threatType, confidence, audioSetting, supported, permission, answer);
    }

    /** The sound for a detection above 0.8 confidence, then the browser notification. */
    method RaiseThreatAlerts(threatType: string, confidence: real, audioSetting: Option<string>,
                             supported: bool, permission: string, answer: string)
      modifies this`alerts
      ensures alerts == old(alerts) + ThreatAlerts(threatType, confidence, audioSetting, supported, permission, answer)
    {
      if confidence > 0.8 {
        PlayNotificationSound(audioSetting);
      }
      ShowBrowserNotification(threatType + " Detected", supported, permission, answer);
    }

    /** `system_stats`: the dashboard's bars, and the usage gauges when the charts are up. */
    method HandleSystemStats(dm: Dashboard.DashboardManager?, chartsPresent: bool,
                             bandwidth: Option<real>, connections: Option<real>, suspicious: Option<real>,
                             cpu: Option<real>, memory: Option<real>)
      modifies this`gauges
      modifies (if dm != null then {dm} else {})`progress
      ensures dm != null ==> dm.progress == old(dm.progress)["bandwidth" := Dashboard.ProgressWidth(Dashboard.OrZero(bandwidth))]
                                                            ["connections" := Dashboard.ProgressWidth(Dashboard.OrZero(connections))]
                                                            ["suspicious" := Dashboard.ProgressWidth(Dashboard.OrZero(suspicious))]
      ensures gauges == if chartsPresent then old(gauges) + PerformanceGauges(cpu, memory) else old(gauges)
    {
      if dm != null {
        dm.UpdateStats(bandwidth, connections, suspicious);
      }
      if chartsPresent {
        gauges := gauges + PerformanceGauges(cpu, memory);
      }
    }

    /** `network_activity`: one point on each of the chart's three arrays, keeping the last 10. */
    method HandleNetworkActivity(cm: Charts.ChartsManager?, timeLabel: string, pps: real, tps: real)
      requires cm != null ==> cm.Valid()
      modifies (if cm != null && "networkActivity" in cm.charts then {cm.charts["networkActivity"]} else {})`labels,
               (if cm != null && "networkActivity" in cm.charts then {cm.charts["networkActivity"]} else {})`datasets
      ensures cm != null ==> cm.Valid()
      ensures cm != null && "networkActivity" in cm.charts ==>
        var c := cm.charts["networkActivity"];
        var n := |old(c.labels)|;
        && c.labels == Charts.PushShift(old(c.labels), timeLabel, n, NetworkCap)
        && c.datasets == old(c.datasets)[0 := Charts.PushShift(old(c.datasets[0]), pps, n, NetworkCap)]
                                        [1 := Charts.PushShift(old(c.datasets[1]), tps, n, NetworkCap)]
    {
      if cm != null && "networkActivity" in cm.charts {
        var c := cm.charts["networkActivity"];
        c.labels := c.labels + [timeLabel];
        c.datasets := c.datasets[0 := c.datasets[0] + [pps]];
        c.datasets := c.datasets[1 := c.datasets[1] + [tps]];
        if |c.labels| > NetworkCap {
          c.labels := c.labels[1..];
          c.datasets := c.datasets[0 := c.datasets[0][1..]];
          c.datasets := c.datasets[1 := c.datasets[1][1..]];
        }
      }
    }

    /** `model_update`: an info toast naming the model and its accuracy, shown for 5 seconds. */
    method HandleModelUpdate(dm: Dashboard.DashboardManager?, modelName: string, accuracyText: string)
      modifies (if dm != null then {dm} else {})`toasts
      ensures dm != null ==>
        dm.toasts == old(dm.toasts) + [Dashboard.Toast("info", "Model Updated", modelName + " accuracy: " + accuracyText + "%", 5000)]
    {
      if dm != null {
        dm.ShowToast(Some("info"), "Model Updated", modelName + " accuracy: " + accuracyText + "%", Some(5000));
      }
    }

    /**
      `system_alert`: a toast and a 'system' notification; a missing or
      empty severity reads as 'warning', a missing or empty title as
      'System Alert', and a missing or zero duration as 5000.
    */
    method HandleSystemAlert(dm: Dashboard.DashboardManager?, severity: Option<string>, title: Option<string>,
                             message: string, duration: Option<int>, nowIso: string)
      requires dm != null ==> dm.Valid()
      modifies (if dm != null then {dm} else {})`notifications, (if dm != null then {dm} else {})`badgeCount,
               (if dm != null then {dm} else {})`badgeVisible, (if dm != null then {dm} else {})`toasts
      ensures dm != null ==> dm.Valid()
      ensures dm != null ==>
        dm.toasts == old(dm.toasts) + [Dashboard.Toast(Dashboard.OrText(severity, "warning"), Dashboard.OrText(title, "System Alert"), message,
                         if duration.Some? && duration.value != 0 then duration.value else 5000)]
      ensures dm != null ==> dm.notifications == Dashboard.Prepend(old(dm.notifications),
        Dashboard.Notification("system", Dashboard.OrText(title, "System Alert"), message, nowIso,
                               Dashboard.OrText(severity, "warning"), false))
    {
      if dm != null {
        var d := if duration.Some? && duration.value != 0 then duration.value else 5000;
        dm.ShowToast(Some(Dashboard.OrText(severity, "warning")), Dashboard.OrText(title, "System Alert"), message, Some(d));
        dm.AddNotification(Dashboard.Notification("system", Dashboard.OrText(title, "System Alert"), message, nowIso,
                                                  Dashboard.OrText(severity, "warning"), false));
      }
    }
  }
}
