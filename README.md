# AI-Powered Intrusion Detection System: verified model of the core logic

This project models, in Dafny, the sequential rules at the heart of the
intrusion detection system, and proves properties of them.

- **Browser real-time client** (`RealTimeManager`, realtime.js). The model covers:
  - the reconnect controller: attempt cap 5 and exponential backoff 1000·2^(n−1) ms;
  - the liveness check on server heartbeats;
  - the persisted client id;
  - sends that are refused while disconnected;
  - the handlers that route server events to the dashboard and the charts.

  `connection_spec.dfy` states the controller as a pure state machine: one
  `Step` per transport callback, timer firing or outbound call, and `Run`
  over a sequence of events. Timers are explicit. Every `setTimeout` retry
  is appended to a list of delays, and it fires later as an event of its
  own. `realtime.dfy` holds the class with the source's fields. Each of
  its connection methods (transport callbacks, timers, sends, `destroy`) is
  proved to move the object to the state machine's next state. The alert,
  gauge, chart and dashboard handlers are specified by the new state of
  the objects they change, and their frames name only the fields they write.
- **Dashboard** (`DashboardManager`, dashboard.js):
  - the most-recent-first notification list capped at 50, with `read` flags and the unread badge;
  - the notification panel;
  - threat severity, relative-time buckets, the icon table;
  - progress-bar clamping, toasts, and the theme and sidebar toggles.
- **Charts** (`ChartsManager`, charts.js):
  - the threat timeline's rolling window of 24 points;
  - replacement of the attack-type dataset;
  - the fixed network sample;
  - `destroy`.
- **Packet analysis** (`RealTimeThreatAnalyzer`, threat_analyzer.py):
  - the feature-extraction decision table: protocol, TCP flag priority, port-to-service map, land flag;
  - the class-to-label map and the recording rule (class > 0 and maximum probability above the threshold);
  - the bounded `deque`s;
  - `get_recent_threats` with Python's negative-slice semantics;
  - `get_threat_summary` as an insertion-ordered count table;
  - the `start_monitoring` guard.
- **Label derivation** (`DataProcessor`, data_processor.py):
  - dropping 'difficulty';
  - category coding of the three categorical columns;
  - `is_attack` and `attack_category` (mapping on the lower-cased name, default 0);
  - the stored feature columns;
  - `extract_features`' column selection and the engineered byte and count columns.
- **Model files** (`MLModelManager`, ml_models.py):
  - the file name each model is saved under;
  - the key each file in a directory listing is loaded back under, using `str.endswith`, `in` and `str.replace` written out on strings;
  - the save/load round trip;
  - which loaded models an ensemble prediction consults.

`common.dfy` holds `Option`, `Result`, `Min` and `Max`.

Two behaviours of the code are modelled as written:
- 'model_performance.pkl' ends in '.pkl' and contains 'model', so
  `load_models` registers it as a model under the key
  'model_performance.pkl' (`PerformanceFileRegistered`).
- `destroy()` clears the heartbeat interval and disconnects the socket, but
  never clears the 10-second liveness interval. A stale heartbeat therefore
  still starts reconnect attempts after it, and the client-side disconnect
  it requests is retried (`DestroyLeavesRetriesRunning`).

## Model

| member | source | states |
|---|---|---|
| ConnectionSpec.Delay | app/static/js/realtime.js:150-151 | the retry delay of attempt n is at least the base delay of 1000 ms |
| ConnectionSpec.BackoffTable | app/static/js/realtime.js:150-151 | the five delays the controller can schedule are 1000, 2000, 4000, 8000 and 16000 ms |
| ConnectionSpec.DelayDoubles | app/static/js/realtime.js:151 | each retry waits twice as long as the previous one |
| ConnectionSpec.Pow2Add | app/static/js/realtime.js:151 | the backoff factor is multiplicative: 2^(a+b) = 2^a * 2^b |
| ConnectionSpec.DelayScales | app/static/js/realtime.js:151 | the retry k attempts later waits 2^k times as long |
| ConnectionSpec.ClientId | app/static/js/realtime.js:135-142 | the client id is never empty, and a stored non-empty id is returned unchanged |
| ConnectionSpec.ClientIdPersists | app/static/js/realtime.js:135-142 | once created, the client id is reused whatever random part later calls draw |
| ConnectionSpec.HandleReconnect | app/static/js/realtime.js:144-160 | `handleReconnect` never takes the count past 5 and never withdraws a timer; it adds at most one timer, and changes nothing but the count and the timers |
| ConnectionSpec.Connect | app/static/js/realtime.js:19-34 | a successful `io()` adds exactly one socket and schedules nothing; a throwing one adds no socket and at most one retry |
| ConnectionSpec.Init | app/static/js/realtime.js:3-17 | a new client is disconnected with the heartbeat interval running, no heartbeat seen and nothing sent; it has one socket, or, when `io()` throws, one counted attempt |
| ConnectionSpec.OnDisconnect | app/static/js/realtime.js:45-58 | a disconnect always marks the client disconnected without closing a socket; a server-initiated one leaves the count and the timers alone |
| ConnectionSpec.HeartbeatTick | app/static/js/realtime.js:117-124 | the 30 s interval emits at most one message and never touches the connection flag, the count or the timers |
| ConnectionSpec.IsStale | app/static/js/realtime.js:127-128 | a check before any heartbeat, or within 60 s of the last one, is never stale |
| ConnectionSpec.LivenessTick | app/static/js/realtime.js:127-132 | the liveness check fires only on a stale heartbeat, and never changes the connection flag or creates a socket |
| ConnectionSpec.FireRetry | app/static/js/realtime.js:155-159 | a retry is marked fired; when connected it creates no socket and schedules nothing; it creates at most one socket |
| ConnectionSpec.SendMessage | app/static/js/realtime.js:415-421 | a send changes nothing but the outbox, and appends at most one message |
| ConnectionSpec.Destroy | app/static/js/realtime.js:435-443 | `destroy` stops the heartbeat sends but leaves the retry count, the timers, the last heartbeat, the connection flag and the sockets as they were |
| ConnectionSpec.Step | app/static/js/realtime.js:36-160 | no event ever closes a socket: the socket count never decreases |
| ConnectionSpec.InitInv | app/static/js/realtime.js:3-17 | the constructor's state satisfies the invariant; a throwing socket factory leaves one attempt and one 1000 ms retry |
| ConnectionSpec.StepKeepsInv | app/static/js/realtime.js:37-160 | every callback, timer firing and send preserves the invariant: attempts ≤ 5, only timers that were set can have fired, and nothing is emitted before a socket exists (how timers relate to counted attempts is what `RunSchedule` states) |
| ConnectionSpec.HandleReconnectKeepsInv | app/static/js/realtime.js:144-160 | `handleReconnect` preserves the invariant |
| ConnectionSpec.StatusEventsKeepInv | app/static/js/realtime.js:37-43 | the connect, reconnect and reconnect_failed handlers preserve the invariant |
| ConnectionSpec.DisconnectKeepsInv | app/static/js/realtime.js:45-58 | the disconnect handler preserves the invariant |
| ConnectionSpec.SendsKeepInv | app/static/js/realtime.js:117-124 | the heartbeat send and `sendMessage` preserve the invariant |
| ConnectionSpec.FireRetryKeepsInv | app/static/js/realtime.js:155-159 | a fired retry preserves the invariant |
| ConnectionSpec.RunKeepsInv | app/static/js/realtime.js:145-148 | after any sequence of events the invariant holds and `reconnectAttempts` ≤ 5 |
| ConnectionSpec.HandleReconnectSchedules | app/static/js/realtime.js:144-160 | below the cap, one call adds exactly one attempt and one timer of the backoff delay; at the cap it changes nothing |
| ConnectionSpec.BackoffsConcat | app/static/js/realtime.js:150-155 | the retries scheduled from a to b and then from b to c are those scheduled from a to c |
| ConnectionSpec.BackoffsFromZero | app/static/js/realtime.js:150-155 | starting from 0 attempts, the first k retries wait 1000, 2000, 4000, 8000 and 16000 ms, in order |
| ConnectionSpec.HandleReconnectStep | app/static/js/realtime.js:144-160 | `handleReconnect` schedules at most one retry: the next attempt with its delay |
| ConnectionSpec.StepRetryStep | app/static/js/realtime.js:37-160 | every event other than connect or reconnect schedules at most one retry |
| ConnectionSpec.DisconnectRetryStep | app/static/js/realtime.js:45-58 | a disconnect schedules at most one retry |
| ConnectionSpec.FireRetryStep | app/static/js/realtime.js:155-159 | a fired retry schedules at most one more retry (when the socket factory throws) |
| ConnectionSpec.StepSchedule | app/static/js/realtime.js:37-160 | a non-reset event never lowers the count and adds exactly the backoff timers of the attempts it counts; connect or reconnect resets the count to 0 |
| ConnectionSpec.RunSchedule | app/static/js/realtime.js:37-160 | between two resets the timers set are exactly Delay(a+1), …, Delay(b), in order, with b ≤ 5 |
| ConnectionSpec.ScheduleCompose | app/static/js/realtime.js:150-155 | two consecutive stretches of scheduling compose into one |
| ConnectionSpec.AfterResetAtMostFiveRetries | app/static/js/realtime.js:144-160 | after a reset, at most five retries follow, with delays that are a prefix of 1000, 2000, 4000, 8000, 16000 ms |
| ConnectionSpec.ExhaustedStaysSilent | app/static/js/realtime.js:145-148 | once the count is 5, nothing more is scheduled until a connect or reconnect event; there is no other terminal state |
| ConnectionSpec.ResetEvents | app/static/js/realtime.js:37-43 | connect and reconnect mark the client connected and reset the count to 0, scheduling nothing |
| ConnectionSpec.ServerDisconnectNotRetried | app/static/js/realtime.js:50-52 | an 'io server disconnect' marks the client disconnected and schedules no retry |
| ConnectionSpec.OtherFailuresRetried | app/static/js/realtime.js:53-65 | any other disconnect reason, and a connect error, count one attempt and schedule its backoff retry |
| ConnectionSpec.RetryConnectsOnlyWhenDisconnected | app/static/js/realtime.js:155-159 | a fired retry changes nothing but its own firing when the client is connected; otherwise it creates a socket |
| ConnectionSpec.NoHeartbeatNoReconnect | app/static/js/realtime.js:127-132 | the liveness check never fires before the first server heartbeat |
| ConnectionSpec.StalenessThreshold | app/static/js/realtime.js:128 | the staleness test is strict: 61 s fires, 60 s and 59 s do not |
| ConnectionSpec.StaleTickWhileConnectedWastesAttempt | app/static/js/realtime.js:127-132 | a stale tick while still connected uses up an attempt and sets a retry, and that retry creates no socket when it fires |
| ConnectionSpec.StaleTicks | app/static/js/realtime.js:127-132 | k liveness ticks at the same instant |
| ConnectionSpec.StaleTicksExhaustAttempts | app/static/js/realtime.js:127-132 | repeated stale ticks while connected climb to min(attempts + k, 5) without creating a socket |
| ConnectionSpec.SendOnlyWhenConnected | app/static/js/realtime.js:415-421 | `sendMessage` emits exactly one message when connected with a socket, and otherwise changes nothing (nothing is queued) |
| ConnectionSpec.HeartbeatOnlyWhenConnected | app/static/js/realtime.js:117-124 | the 30 s heartbeat emits one 'heartbeat' carrying the timestamp and the client id only when connected with a socket |
| ConnectionSpec.HeartbeatsShareClientId | app/static/js/realtime.js:117-124 | two heartbeats carry the same client id |
| ConnectionSpec.DestroyLeavesRetriesRunning | app/static/js/realtime.js:435-443 | after `destroy` no heartbeat is sent, but the liveness check still counts attempts, and the client-side disconnect is retried |
| RealTime.AudioEnabled | app/static/js/realtime.js:367-368 | audio is off exactly when the 'audioNotifications' setting is the text 'false' |
| RealTime.NotificationShown | app/static/js/realtime.js:381-412 | a browser notification appears exactly when notifications are supported and permission is (or, from 'default', becomes) 'granted' |
| RealTime.AudioGatedByConfidence | app/static/js/realtime.js:214-225 | a detection raises the sound exactly when confidence > 0.8 and audio is on, and the notification exactly when it is permitted |
| RealTime.GaugeWidth | app/static/js/realtime.js:312 | a usage bar's width is the value when at most 100, exactly 100 above that, and 0 when absent |
| RealTime.GaugeColor | app/static/js/realtime.js:315-321 | danger above the high mark, warning above the middle mark, success otherwise (and when absent) |
| RealTime.PerformanceGauges | app/static/js/realtime.js:308-338 | CPU turns warning above 60 and danger above 80; memory turns warning above 70 and danger above 85 |
| RealTime.NetworkWindow | app/static/js/realtime.js:249-262 | after a network update, the labels and both datasets have equal length, at most 10, with the new point last |
| RealTime.RealTimeManager.constructor | app/static/js/realtime.js:3-17 | the new object is in the state machine's initial state |
| RealTime.RealTimeManager.HandleReconnect | app/static/js/realtime.js:144-160 | the object moves to the state machine's `HandleReconnect` state |
| RealTime.RealTimeManager.Connect | app/static/js/realtime.js:19-34 | a socket is created, or a throwing factory counts as a failed attempt |
| RealTime.RealTimeManager.OnConnect | app/static/js/realtime.js:37-43 | the connect handler's state transition |
| RealTime.RealTimeManager.OnDisconnect | app/static/js/realtime.js:45-58 | the disconnect handler's state transition |
| RealTime.RealTimeManager.OnConnectError | app/static/js/realtime.js:60-65 | the connect_error handler's state transition |
| RealTime.RealTimeManager.OnReconnect | app/static/js/realtime.js:67-73 | the reconnect handler's state transition |
| RealTime.RealTimeManager.OnReconnectFailed | app/static/js/realtime.js:83-86 | reconnect_failed only shows a toast |
| RealTime.RealTimeManager.OnHeartbeat | app/static/js/realtime.js:109-112 | a server heartbeat records its time |
| RealTime.RealTimeManager.GetClientId | app/static/js/realtime.js:135-142 | returns the stored id, or creates and stores a fresh one |
| RealTime.RealTimeManager.HeartbeatTick | app/static/js/realtime.js:117-124 | the 30 s interval's state transition |
| RealTime.RealTimeManager.LivenessTick | app/static/js/realtime.js:127-132 | the 10 s liveness check's state transition |
| RealTime.RealTimeManager.FireRetry | app/static/js/realtime.js:155-159 | a pending retry timer fires |
| RealTime.RealTimeManager.SendMessage | app/static/js/realtime.js:415-421 | reports whether the message went out, which happens exactly when connected with a socket |
| RealTime.RealTimeManager.RequestThreatAnalysis | app/static/js/realtime.js:423-425 | sends 'analyze_threat' under the same rule |
| RealTime.RealTimeManager.RequestSystemStats | app/static/js/realtime.js:427-429 | sends 'request_stats' under the same rule |
| RealTime.RealTimeManager.UpdateSettings | app/static/js/realtime.js:431-433 | sends 'update_settings' under the same rule |
| RealTime.RealTimeManager.Destroy | app/static/js/realtime.js:435-443 | stops the heartbeat sends and requests a disconnect |
| RealTime.RealTimeManager.Handle | app/static/js/realtime.js:36-112 | routing one event keeps the invariant and reaches the state machine's next state |
| RealTime.RealTimeManager.HandleAll | app/static/js/realtime.js:36-160 | any event stream leaves the object in `Run`'s final state, with at most 5 attempts |
| RealTime.RealTimeManager.PlayNotificationSound | app/static/js/realtime.js:365-379 | the sound plays unless audio is switched off |
| RealTime.RealTimeManager.ShowBrowserNotification | app/static/js/realtime.js:381-412 | the notification appears exactly under the permission rule |
| RealTime.RealTimeManager.HandleThreatDetected | app/static/js/realtime.js:197-226 | one 'threat' notification; above 0.8 confidence also the 'High-Risk Threat Detected' toast for 5 s, otherwise no toast; the timeline (when present) gains the label and the value 1, shifted past 24; then the gated sound and notification; no other dashboard or chart field changes |
| RealTime.RealTimeManager.RaiseThreatAlerts | app/static/js/realtime.js:214-225 | the sound only above 0.8 confidence, then the browser notification |
| RealTime.RealTimeManager.HandleSystemStats | app/static/js/realtime.js:228-240 | sets the three progress bars to `value \|\| 0` capped at 100, and appends the usage gauges only while the charts are present; no other dashboard field changes |
| RealTime.RealTimeManager.HandleNetworkActivity | app/static/js/realtime.js:242-266 | pushes one point on the three arrays and shifts all three past 10 |
| RealTime.RealTimeManager.HandleModelUpdate | app/static/js/realtime.js:268-283 | one 'info' toast naming the model and its accuracy, shown for 5 s; only the toast list changes |
| RealTime.RealTimeManager.HandleSystemAlert | app/static/js/realtime.js:285-306 | one toast and one 'system' notification, with 'warning' and 'System Alert' as the defaults; only the notifications, the badge and the toasts change |
| Dashboard.ThreatSeverity | app/static/js/dashboard.js:398-402 | 'high' iff confidence > 0.8, 'medium' iff 0.6 < confidence ≤ 0.8, 'low' otherwise |
| Dashboard.Bucket | app/static/js/dashboard.js:409-412 | the four age bands, with whole minutes (1–59) or hours (1–23) rounded down |
| Dashboard.NatToString | app/static/js/dashboard.js:410-411 | the decimal rendering is non-empty and made of digits |
| Dashboard.NatToStringRoundTrip | app/static/js/dashboard.js:410-411 | reading the rendering back gives the number |
| Dashboard.FormatTime | app/static/js/dashboard.js:404-413 | below one day the text is 'Just now' or ends in ' ago' |
| Dashboard.FormatTimeBands | app/static/js/dashboard.js:404-413 | 'Just now' below 1 min, floor(diff/60000)+'m ago' below 1 h, floor(diff/3600000)+'h ago' below 1 day, the date after that |
| Dashboard.FormatTimeMinutesReadBack | app/static/js/dashboard.js:410 | the minutes label ends in 'm ago' and its number reads back as a whole count of minutes between 1 and 59 |
| Dashboard.NotificationIcon | app/static/js/dashboard.js:516-526 | the mapped icon for the six known types, and 'fa-bell' exactly for any other type |
| Dashboard.ProgressWidth | app/static/js/dashboard.js:569-574 | a progress bar's width is min(value, 100) |
| Dashboard.OrText | app/static/js/realtime.js:291-292 | `s \|\| fallback`: an absent or empty string gives the fallback |
| Dashboard.ToastOf | app/static/js/dashboard.js:656 | a missing toast type defaults to 'info' and a missing duration to 3000 ms |
| Dashboard.UnreadCount | app/static/js/dashboard.js:457 | the unread count never exceeds the number of notifications |
| Dashboard.Prepend | app/static/js/dashboard.js:442-448 | the list after one insertion is non-empty and at most 50 long, starts with the new entry, and continues with a prefix of the old list |
| Dashboard.PrependKeepsNewestFirst | app/static/js/dashboard.js:442-448 | the new entry goes first and the older ones follow in order, cut to 50 |
| Dashboard.Reverse | app/static/js/dashboard.js:443 | reversal of a batch, element by element |
| Dashboard.InsertAllNewestFirst | app/static/js/dashboard.js:442-448 | after any sequence of insertions the list is the 50 newest entries, newest first |
| Dashboard.FiftyOneInsertions | app/static/js/dashboard.js:446-448 | 51 insertions leave exactly the newest 50, newest first |
| Dashboard.MarkAllRead | app/static/js/dashboard.js:475 | every entry is kept and marked read |
| Dashboard.MarkAllReadClearsUnread | app/static/js/dashboard.js:475-476 | after every entry is marked read, the unread count is 0 |
| Dashboard.UnreadZeroIffAllRead | app/static/js/dashboard.js:457-459 | the unread count is 0 exactly when every entry is read |
| Dashboard.PrependUnread | app/static/js/dashboard.js:442-459 | a new unread entry below the cap raises the unread count by one; on a full list of 50 it also drops the last entry, so the count rises by one less when that entry was unread |
| Dashboard.UnreadCountSnoc | app/static/js/dashboard.js:457-459 | one more entry at the end adds one to the unread count exactly when it is unread |
| Dashboard.DashboardManager.constructor | app/static/js/dashboard.js:3-12 | the theme is the stored one or 'light'; the sidebar is collapsed only when the stored flag is 'true' |
| Dashboard.DashboardManager.UpdateNotificationBadge | app/static/js/dashboard.js:454-466 | the badge count is the number of unread entries, visible exactly when positive |
| Dashboard.DashboardManager.AddNotification | app/static/js/dashboard.js:442-452 | the list becomes the capped prepend, and the badge stays in step |
| Dashboard.DashboardManager.ToggleNotificationPanel | app/static/js/dashboard.js:468-479 | opening marks every entry read and clears the badge; closing leaves the flags alone |
| Dashboard.DashboardManager.CloseNotificationPanel | app/static/js/dashboard.js:481-486 | the panel is closed |
| Dashboard.DashboardManager.ShowToast | app/static/js/dashboard.js:656-721 | appends one toast with the defaulted type and duration |
| Dashboard.DashboardManager.HandleThreatUpdate | app/static/js/dashboard.js:415-440 | exactly one 'threat' notification with the severity of the confidence; a toast only above 0.8 |
| Dashboard.DashboardManager.UpdateStats | app/static/js/dashboard.js:528-538 | the three progress bars take `value \|\| 0` capped at 100 |
| Dashboard.DashboardManager.ToggleTheme | app/static/js/dashboard.js:135-137 | 'light' becomes 'dark' and anything else 'light'; the new theme is stored |
| Dashboard.DashboardManager.ToggleSidebar | app/static/js/dashboard.js:166-171 | the collapsed flag flips and is stored as 'true' or 'false' |
| Dashboard.ThemeToggleAlternates | app/static/js/dashboard.js:136 | two toggles restore a 'light' or 'dark' theme |
| Charts.PushShift | app/static/js/charts.js:427-434 | one push-and-shift changes the length by at most one, and a non-empty result ends with the new point |
| Charts.PushShiftWindow | app/static/js/charts.js:427-434 | push then shift past the cap: the new point last, length min(n+1, cap), exactly the first element dropped when full |
| Charts.PushShiftParallel | app/static/js/charts.js:427-434 | arrays of equal length stay of equal length |
| Charts.NetworkData | app/static/js/charts.js:336-342 | six labels from '00:00' to '20:00', packet and threat arrays of the same length, threats below packets |
| Charts.Chart.constructor | app/static/js/charts.js:50-57 | a chart holds the given labels and datasets |
| Charts.Chart.Destroy | app/static/js/charts.js:449-451 | the chart is destroyed |
| Charts.ChartsManager.constructor | app/static/js/charts.js:3-4 | no charts at first |
| Charts.ChartsManager.InitThreatTimelineChart | app/static/js/charts.js:50-57 | the timeline starts from the given series |
| Charts.ChartsManager.InitAttackTypesChart | app/static/js/charts.js:137-160 | the four attack families with the shares 45, 30, 15 and 10 |
| Charts.ChartsManager.InitNetworkActivityChart | app/static/js/charts.js:198-230 | the network chart starts from the fixed sample |
| Charts.ChartsManager.AddThreatDataPoint | app/static/js/charts.js:423-437 | appends the point to labels and values, drops the first of both past 24, and changes nothing without the chart |
| Charts.ChartsManager.UpdateAttackTypeDistribution | app/static/js/charts.js:439-445 | replaces the dataset wholesale, and changes nothing without the chart |
| Charts.ChartsManager.Destroy | app/static/js/charts.js:447-454 | every chart is destroyed and the map is empty |
| Charts.TimelineStaysBounded | app/static/js/charts.js:427-434 | labels and values stay parallel, newest last, at most 24 |
| ThreatAnalyzer.DefaultValue | app/utils/threat_analyzer.py:39-81 | the four connection counts start at 1 and every other feature at 0 |
| ThreatAnalyzer.ProtocolCode | app/utils/threat_analyzer.py:91-118 | 1 for TCP over IP, 2 for UDP over IP (TCP wins), 0 otherwise |
| ThreatAnalyzer.TcpFlagCode | app/utils/threat_analyzer.py:97-102 | SYN (0x02) → 1 before ACK (0x10) → 2 before FIN (0x01) → 3, else 0 |
| ThreatAnalyzer.TcpService | app/utils/threat_analyzer.py:105-115 | ports 80, 443, 22, 21 and 25 map to 1–5, anything else to 0 |
| ThreatAnalyzer.UdpService | app/utils/threat_analyzer.py:122-126 | port 53 maps to 6, ports 67 and 68 to 7, anything else to 0 |
| ThreatAnalyzer.FlagCode | app/utils/threat_analyzer.py:92-102 | only a TCP-over-IP packet gets a flag code |
| ThreatAnalyzer.ServiceCode | app/utils/threat_analyzer.py:104-126 | codes 1–5 only for TCP and 6–7 only for UDP over IP |
| ThreatAnalyzer.Land | app/utils/threat_analyzer.py:129-130 | land is 1 iff the IP source equals the destination |
| ThreatAnalyzer.ExtractPacketFeatures | app/utils/threat_analyzer.py:37-135 | a non-IP packet yields the defaults unchanged; an IP packet sets the six packet columns over them |
| ThreatAnalyzer.SetPacketColumns | app/utils/threat_analyzer.py:84-130 | exactly the six packet columns change: bytes = length, then the protocol, flag, service and land codes |
| ThreatAnalyzer.PacketColumnsAreFeatures | app/utils/threat_analyzer.py:39-81 | the six packet columns are among the 41 defaults |
| ThreatAnalyzer.ExtractedColumns | app/utils/threat_analyzer.py:37-135 | extraction always yields exactly the 41 default columns |
| ThreatAnalyzer.ExtractedKeepsDefaults | app/utils/threat_analyzer.py:39-81 | every column outside the six keeps its default |
| ThreatAnalyzer.ExtractedCodes | app/utils/threat_analyzer.py:84-130 | the extracted protocol, flag, service and land are the decision table's codes |
| ThreatAnalyzer.FeatureExamples | app/utils/threat_analyzer.py:84-130 | a SYN+ACK to 443, a DNS packet to itself, and a non-IP packet give their table rows |
| ThreatAnalyzer.ThreatType | app/utils/threat_analyzer.py:207-216 | classes 0–4 map to 'Normal', 'DoS/DDoS', 'Probe/Scan', 'R2L', 'U2R', and exactly the others to 'Unknown' |
| ThreatAnalyzer.ArgMax | app/utils/threat_analyzer.py:183-184 | the first index of the largest probability |
| ThreatAnalyzer.Detection | app/utils/threat_analyzer.py:181-186 | a class is recorded iff a non-empty prediction's maximum exceeds the threshold and its class is not 0 |
| ThreatAnalyzer.RecordedThreatsAreAttacks | app/utils/threat_analyzer.py:183-190 | a recorded threat is never 'Normal', and its confidence is the maximum and above the threshold |
| ThreatAnalyzer.TieWithNormalNotRecorded | app/utils/threat_analyzer.py:184-186 | a tie with class 0 goes to class 0 and is not recorded |
| ThreatAnalyzer.ShippedThresholdIsStrict | config/config.py:20 | at the shipped threshold 0.7 a probability of 0.75 is recorded and one of exactly 0.7 is not |
| ThreatAnalyzer.SourceIp | app/utils/threat_analyzer.py:218-225 | the IP source, or 'Unknown' |
| ThreatAnalyzer.DestinationIp | app/utils/threat_analyzer.py:227-234 | the IP destination, or 'Unknown' |
| ThreatAnalyzer.BoundedAppend | app/utils/threat_analyzer.py:20-22 | `deque(maxlen).append`: length min(n+1, cap), with the new entry last |
| ThreatAnalyzer.BoundedAppendIsLastN | app/utils/threat_analyzer.py:20-22 | one append keeps the newest `cap` entries |
| ThreatAnalyzer.LastNConcat | app/utils/threat_analyzer.py:20-22 | discarding the oldest early does not change the newest `cap` later |
| ThreatAnalyzer.AppendAllKeepsNewest | app/utils/threat_analyzer.py:20-22 | any run of appends leaves exactly the newest `cap` entries, oldest first |
| ThreatAnalyzer.RecentStart | app/utils/threat_analyzer.py:271 | where `[-limit:]` starts, within the history |
| ThreatAnalyzer.RecentThreats | app/utils/threat_analyzer.py:269-281 | the views of `history[-limit:]`, in chronological order |
| ThreatAnalyzer.RecentThreatsLimits | app/utils/threat_analyzer.py:271 | a positive limit gives the last min(limit, n), the newest last; 0 gives the whole history; a negative limit drops the first \|limit\| |
| ThreatAnalyzer.BumpTotal | app/utils/threat_analyzer.py:298 | one count step adds one to the total |
| ThreatAnalyzer.BumpCount | app/utils/threat_analyzer.py:298 | one count step adds one to that type's count only |
| ThreatAnalyzer.BumpTypes | app/utils/threat_analyzer.py:298 | one count step adds the type to the keys and keeps them distinct |
| ThreatAnalyzer.Bump | app/utils/threat_analyzer.py:298 | one count step is never empty and adds at most one entry |
| ThreatAnalyzer.Tally | app/utils/threat_analyzer.py:290-300 | the summary has at most one entry per threat and is empty exactly for an empty history |
| ThreatAnalyzer.TallyTotal | app/utils/threat_analyzer.py:290-300 | the summary's counts add up to the history's length, and it is empty only for an empty history |
| ThreatAnalyzer.TallyCounts | app/utils/threat_analyzer.py:295-298 | each type's count is its number of occurrences |
| ThreatAnalyzer.TallyTypes | app/utils/threat_analyzer.py:295-298 | the summary lists exactly the types that occur, each once |
| ThreatAnalyzer.RealTimeThreatAnalyzer.constructor | app/utils/threat_analyzer.py:14-35 | empty buffers, monitoring off, all statistics 0 |
| ThreatAnalyzer.RealTimeThreatAnalyzer.AnalyzePacket | app/utils/threat_analyzer.py:158-205 | without a detection nothing changes; with one, one entry is queued and appended to the bounded history, and `threats_detected` rises by 1 |
| ThreatAnalyzer.RealTimeThreatAnalyzer.PacketHandler | app/utils/threat_analyzer.py:137-156 | the packet's record is buffered (bounded at 10000) and `total_packets` rises by 1; with a detection, that record's threat is queued and appended to the bounded history and `threats_detected` rises by 1; without one, queue, history and count are unchanged |
| ThreatAnalyzer.RealTimeThreatAnalyzer.BufferPacket | app/utils/threat_analyzer.py:149-150 | the record is appended to the bounded buffer and the packet counted |
| ThreatAnalyzer.RealTimeThreatAnalyzer.StartMonitoring | app/utils/threat_analyzer.py:236-261 | refuses and changes nothing when already active; otherwise starts the capture |
| ThreatAnalyzer.RealTimeThreatAnalyzer.CaptureFailed | app/utils/threat_analyzer.py:253-255 | a failure in the capture thread clears the active flag |
| ThreatAnalyzer.RealTimeThreatAnalyzer.StopMonitoring | app/utils/threat_analyzer.py:263-267 | the active flag is cleared |
| ThreatAnalyzer.RealTimeThreatAnalyzer.GetRecentThreats | app/utils/threat_analyzer.py:269-281 | the recent-threat views of the alert history |
| ThreatAnalyzer.RealTimeThreatAnalyzer.GetSystemStats | app/utils/threat_analyzer.py:283-288 | records the sampled load and memory, and returns a copy of the statistics |
| ThreatAnalyzer.RealTimeThreatAnalyzer.GetThreatSummary | app/utils/threat_analyzer.py:290-300 | the per-type counts of the history, empty exactly for an empty history |
| DataProcessor.Without | app/utils/data_processor.py:70-71 | the names outside the dropped set, in their order |
| DataProcessor.WithoutDistinct | app/utils/data_processor.py:70-71 | filtering keeps column names distinct |
| DataProcessor.WithoutOne | app/utils/data_processor.py:38-39 | dropping one present column cuts out exactly its position |
| DataProcessor.SetColumn | app/utils/data_processor.py:45 | `df[name] = col`: an existing column keeps its place and a new one goes last |
| DataProcessor.DropColumn | app/utils/data_processor.py:39 | `df.drop(name, axis=1)` removes exactly that column |
| DataProcessor.Recode | app/utils/data_processor.py:44-45 | recoding keeps the columns and their order; each cell of the recoded column becomes the category code of its value, and every other column is unchanged |
| DataProcessor.RecodeAllCodes | app/utils/data_processor.py:42-45 | a column named once in the recoding list ends up holding the codes of its original values |
| DataProcessor.CleanedCodes | app/utils/data_processor.py:38-45 | after cleaning, each present categorical column (protocol_type, service, flag) holds, row by row, the codes of its original values |
| DataProcessor.Lower | app/utils/data_processor.py:66 | `str.lower()` character by character |
| DataProcessor.AttackCategory | app/utils/data_processor.py:52-67 | the category is 1–4 by the four families of the lower-cased name, and 0 for 'normal' and every unknown name |
| DataProcessor.FamiliesDisjoint | app/utils/data_processor.py:52-63 | no attack name lies in two families |
| DataProcessor.IsAttack | app/utils/data_processor.py:49 | `is_attack` is 0 exactly for the text 'normal' (case-sensitive) |
| DataProcessor.CapitalisedNormal | app/utils/data_processor.py:49-67 | 'Normal' is an attack of category 0; 'NEPTUNE' is category 1 and 'Satan' category 2 |
| DataProcessor.FeatureColumnsOf | app/utils/data_processor.py:70-71 | the columns minus 'attack_type', 'is_attack' and 'attack_category' |
| DataProcessor.DropDifficulty | app/utils/data_processor.py:38-39 | 'difficulty' is dropped if present, and no other column goes |
| DataProcessor.Cleaned | app/utils/data_processor.py:38-45 | dropping and recoding keep every column except 'difficulty' |
| DataProcessor.IsAttackColumn | app/utils/data_processor.py:49 | row by row, `is_attack` of the name |
| DataProcessor.CategoryColumn | app/utils/data_processor.py:65-67 | row by row, the category of the name |
| DataProcessor.Labelled | app/utils/data_processor.py:48-67 | adds exactly 'is_attack' and 'attack_category' |
| DataProcessor.Preprocess | app/utils/data_processor.py:35-73 | the only error is AttributeError; a success keeps every row |
| DataProcessor.CleanedKeepsAttackType | app/utils/data_processor.py:38-45 | dropping and recoding leave 'attack_type' as it was |
| DataProcessor.RecodeAllKeeps | app/utils/data_processor.py:42-45 | recoding leaves every other column as it was |
| DataProcessor.PreprocessCases | app/utils/data_processor.py:35-73 | no 'attack_type': the cleaned frame; a non-text name: AttributeError; otherwise the labelled frame |
| DataProcessor.PreprocessColumns | app/utils/data_processor.py:35-73 | fails exactly on a non-text attack name; otherwise only 'difficulty' is removed |
| DataProcessor.PreprocessLabels | app/utils/data_processor.py:48-67 | each row's `is_attack` and `attack_category` come from that row's attack name |
| DataProcessor.Select | app/utils/data_processor.py:81 | `df[cols]`: the listed columns in order, with KeyError exactly when one is missing |
| DataProcessor.SumColumn | app/utils/data_processor.py:89 | one sum per row |
| DataProcessor.RatioColumn | app/utils/data_processor.py:88 | one quotient per row |
| DataProcessor.AddByteFeatures | app/utils/data_processor.py:87-89 | without both byte columns the frame is unchanged; on success every column other than bytes_ratio and total_bytes keeps its values |
| DataProcessor.AddCountFeatures | app/utils/data_processor.py:91-92 | without both count columns the frame is unchanged; on success every column other than srv_count_ratio keeps its values |
| DataProcessor.ByteFeatures | app/utils/data_processor.py:87-89 | succeeds exactly on numeric bytes, and then each row's total_bytes = src + dst and bytes_ratio = src / (dst + 1), while every other column keeps its values |
| DataProcessor.CountFeatures | app/utils/data_processor.py:91-92 | succeeds exactly on numeric counts, and then each row's srv_count_ratio = srv_count / (count + 1) while every other column keeps its values |
| DataProcessor.Extract | app/utils/data_processor.py:81-94 | on success every selected column exists in the input and is kept, and every selected column other than the three engineered ones holds the input's values |
| DataProcessor.TotalBytesOnlyWhenBoth | app/utils/data_processor.py:87-89 | 'total_bytes' is made exactly when both byte columns are selected |
| DataProcessor.DataProcessor.constructor | app/utils/data_processor.py:9-12 | no feature columns yet |
| DataProcessor.DataProcessor.PreprocessData | app/utils/data_processor.py:35-73 | the result is Preprocess's; the feature columns are stored only when 'attack_type' exists and labelling succeeded |
| DataProcessor.DataProcessor.ExtractFeatures | app/utils/data_processor.py:75-94 | the feature columns are fixed from this frame only when none are stored |
| MLModels.RemoveAll | app/models/ml_models.py:225 | `str.replace(t, '')` never lengthens, and leaves a string without `t` unchanged |
| MLModels.ContainsSuffix | app/models/ml_models.py:224 | a string ending in `t` contains `t` |
| MLModels.ContainsInfix | app/models/ml_models.py:224 | a string with `u` inside its tail contains `u` |
| MLModels.RemoveAppended | app/models/ml_models.py:225-228 | removing a suffix that the name does not contain gives the name back |
| MLModels.SaveFileName | app/models/ml_models.py:210-214 | a model's file name starts with the model's name and ends in '_model.pkl' or '_model.h5' |
| MLModels.SaveFileKind | app/models/ml_models.py:210-214 | 'lstm' and 'cnn' go to `.h5` (never `.pkl`); every other model to a `.pkl` name containing 'model' |
| MLModels.ModelFilesAdd | app/models/ml_models.py:210-214 | one more model adds its one file |
| MLModels.RegisteredKey | app/models/ml_models.py:224-229 | a file is skipped exactly when it passes neither the pickle test nor the `.h5` test |
| MLModels.Register | app/models/ml_models.py:224-229 | one loop step inserts the file under its key, or skips it |
| MLModels.LoadAll | app/models/ml_models.py:223-229 | loading a listing never drops a model that was already loaded |
| MLModels.ListingKeysSnoc | app/models/ml_models.py:223-229 | one more file adds at most its own key |
| MLModels.FailingLoadsMember | app/models/ml_models.py:223-229 | a file raises out of the loop exactly when it is unreadable and passes the pickle or `.h5` test, since skipped files are never opened |
| MLModels.FirstFailure | app/models/ml_models.py:223-229 | the position of the first failing file: every file before it loads, and the file at it fails, unless it is the listing's end |
| MLModels.FirstFailureAt | app/models/ml_models.py:223-229 | that position is the unique one with every earlier file loading and a failing file, or the end, at it |
| MLModels.AllReadableLoadsAll | app/models/ml_models.py:223-229 | with no listed file unreadable the loop runs over the whole listing, the case `SaveLoadRoundTrip` describes |
| MLModels.LoadAllKeys | app/models/ml_models.py:223-229 | the keys after a load are the old ones plus the key of every registering file |
| MLModels.LoadAllLastWins | app/models/ml_models.py:223-229 | a key holds the last file in the listing that registers under it |
| MLModels.PklNameRegistered | app/models/ml_models.py:224-226 | `<name>_model.pkl` is loaded under `name` |
| MLModels.H5NameRegistered | app/models/ml_models.py:227-229 | `<name>_model.h5` is loaded under `name` |
| MLModels.PerformanceFileRegistered | app/models/ml_models.py:217 | 'model_performance.pkl' passes the pickle test and is registered as a model under its own name |
| MLModels.SkipPrefix | app/models/ml_models.py:224-225 | an occurrence cannot start in a prefix lacking its first character |
| MLModels.SavedNameRegistered | app/models/ml_models.py:210-229 | each saved file loads back under its model's name |
| MLModels.ListingKeysCoverNames | app/models/ml_models.py:208-229 | loading a saved directory yields every model name and the performance file's key |
| MLModels.ListingKeysWithinNames | app/models/ml_models.py:208-229 | and no other key |
| MLModels.SaveLoadRoundTrip | app/models/ml_models.py:208-229 | save then load, with every file readable (`AllReadableLoadsAll`), restores exactly the model keys, plus 'model_performance.pkl' |
| MLModels.Members | app/models/ml_models.py:174-185 | the consulted models are exactly the ensemble keys that are loaded |
| MLModels.EnsemblePredict | app/models/ml_models.py:170-192 | None exactly when none of 'random_forest', 'svm', 'lstm' is loaded; otherwise the average of those consulted |
| MLModels.CnnNeverConsulted | app/models/ml_models.py:174-185 | a loaded 'cnn' does not change the ensemble |
| MLModels.MLModelManager.constructor | app/models/ml_models.py:14-17 | no models and no metrics at first |
| MLModels.MLModelManager.SaveModels | app/models/ml_models.py:208-217 | writes exactly one file per model plus 'model_performance.pkl' |
| MLModels.MLModelManager.LoadModels | app/models/ml_models.py:219-234 | the loop stops at the first registering file that cannot be loaded: the models become the fold over the listing up to that file, the metrics are read exactly when the loop completes and their file is listed, and the result says whether it completed |
| MLModels.MLModelManager.LoadFile | app/models/ml_models.py:223-229 | one loop step: registers the file as `Register` does, or raises, leaving the models unchanged, exactly when the file registers and is unreadable |
| MLModels.MLModelManager.LoadPerformance | app/models/ml_models.py:232-234 | the metrics are read exactly when 'model_performance.pkl' is in the directory |
| MLModels.MLModelManager.Predict | app/models/ml_models.py:170-192 | no average exactly when no consulted model is loaded |

## Left out

- DOM, CSS and animation code is not modelled: the view has no invariants. This covers element lookups, toast markup and timing, `updateConnectionStatus`, `updateNotificationPanel`, `animateStatNumber`, `initializeAnimations`, hover effects, keyboard shortcuts and resize handling. Handlers act as if their DOM elements exist; `toggleSidebar` and `toggleNotificationPanel` do nothing in the source when theirs is missing.
- Chart.js configuration, themes, mini and performance charts, and `chart.update()` are left out. The random `generateTimelineData` becomes an input series of `InitThreatTimelineChart`.
- Flask routes, `fetch`-based monitoring and refresh, `incrementThreatCount`, `refreshThreats` and `updateModelPerformance` are HTTP and view plumbing around the modelled functions, so they are left out.
- The browser Notification API and `Audio` playback are left out. Only their gating is modelled: whether notifications are supported, the permission and the user's answer are inputs.
- Connection toasts are recorded in the connection state (`StatusToast`), not pushed into the dashboard's toast list.
- `io()` options and the socket object are left out. A new socket is counted, and the old one is neither closed nor aliased.
- Wall-clock time (`Date.now()`), `Math.random()`, `localStorage` and locale date strings become parameters.
- Floating-point formatting (`toFixed`, percentages) is not modelled. Confidence and accuracy texts are inputs; confidences are reals used only in comparisons.
- `Dashboard.NotificationIcon`: inherited `Object.prototype` names (for example 'toString') are not modelled as keys of the icon table.
- ML training, scaling, SHAP explanations and the numeric average of `ensemble_predict` are foreign numerics. `Ensemble.average` names the models averaged rather than holding the average's value.
- `MLModels.MLModelManager.LoadModels`: whether `joblib.load` or `load_model` can read a file is not decided by the model; it is the input set `unreadable`. The exception's type, and the caller catching it and carrying on with the partial registration, are not modelled.
- `MLModels.Model` is opaque: which object `joblib` or Keras loads from a file is not modelled, and neither is the content of the metrics file. `os.listdir` becomes an input listing.
- `sniff`, threading, `psutil` and `join` are left out. A capture failure is the separate method `CaptureFailed`, and CPU and memory readings are inputs. A capture that ends normally after its one-second timeout changes no state: `monitoring_active` stays true, so `start_monitoring` keeps refusing until `stop_monitoring` is called.
- `ThreatAnalyzer.RealTimeThreatAnalyzer.AnalyzePacket`: column alignment and scaling before prediction are not modelled. Neither is the `model_predictions` field. The ensemble's output (or its absence, or an error) is an input.
- `threat_queue` is modelled as the list of queued threats; consumers of the queue are not part of this model.
- `DataProcessor.Cell`: pandas category codes are kept symbolic (`Code(v)`), since which integer a code gets is library-defined. Ratios are kept symbolic (`Ratio(n, d)`), since IEEE division is not modelled.
- `DataProcessor.Lower`: only ASCII letters are case-folded.
- `DataProcessor.Extract`: `fillna(median)` is not modelled; cells are never missing.
- PreprocessData: when there is no 'difficulty' column, `preprocess_data` works on the caller's own frame. On success it rewrites that frame in place and returns the same object: the recoded categorical columns, 'is_attack' and 'attack_category'. On the AttributeError path, the recoding is already written when the error is raised. The model is value-based: it returns a new frame or an error, and does not capture that aliasing or the partial update.
- `load_nsl_kdd_data`, `scale_features` and the preprocessor's save and load are CSV and joblib I/O, so they are left out.
