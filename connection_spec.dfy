/**
  The connection controller of the browser's real-time client
  (RealTimeManager in app/static/js/realtime.js) as a pure state machine.

  Transport callbacks, timer firings and outbound sends are events; `Step`
  gives the state after one event and `Run` after a sequence of them.
  Timers are explicit: every retry `setTimeout` is appended to `timers`
  (by its delay) and fires later as its own event.  The class in
  realtime.dfy is proved against these functions; the lemmas below state
  what the controller guarantees.
*/
module ConnectionSpec {
  import opened Common

  const MaxReconnectAttempts: nat := 5
  const ReconnectDelay: nat := 1000
  /** A server heartbeat older than this (strictly) makes the liveness check reconnect. */
  const HeartbeatTimeout: int := 60000
  /** The one disconnect reason that is never retried. */
  const ServerDisconnectReason: string := "io server disconnect"

  function Pow2(n: nat): (r: nat)
    ensures r >= 1
  {
    if n == 0 then 1 else 2 * Pow2(n - 1)
  }

  /** Backoff policy: the delay of the retry scheduled as attempt number `attempt` (1-based). */
  function Delay(attempt: nat): (d: nat)
    requires attempt >= 1
    ensures d >= ReconnectDelay
  {
    ReconnectDelay * Pow2(attempt - 1)
  }

  /** The five delays the controller can schedule before it gives up. */
  lemma BackoffTable()
    ensures [Delay(1), Delay(2), Delay(3), Delay(4), Delay(5)] == [1000, 2000, 4000, 8000, 16000]
  {
    assert Pow2(1) == 2;
    assert Pow2(2) == 4;
    assert Pow2(3) == 8;
    assert Pow2(4) == 16;
  }

  lemma DelayDoubles(attempt: nat)
    requires attempt >= 1
    ensures Delay(attempt + 1) == 2 * Delay(attempt)
  {
  }

  lemma {:induction false} Pow2Add(a: nat, b: nat)
    ensures Pow2(a + b) == Pow2(a) * Pow2(b)
    decreases b
  {
    if b > 0 {
      Pow2Add(a, b - 1);
      assert Pow2(a + b) == 2 * Pow2(a + b - 1);
    }
  }

  /** The retry `k` attempts later waits `2^k` times as long. */
  lemma DelayScales(attempt: nat, k: nat)
    requires attempt >= 1
    ensures Delay(attempt + k) == Pow2(k) * Delay(attempt)
  {
    var p, q := Pow2(attempt - 1), Pow2(k);
    calc {
      Delay(attempt + k);
      ReconnectDelay * Pow2(attempt - 1 + k);
      { Pow2Add(attempt - 1, k); }
      ReconnectDelay * (p * q);
      { assert ReconnectDelay * (p * q) == q * (ReconnectDelay * p); }
      q * (ReconnectDelay * p);
    }
  }

  datatype Payload = Beat(timestamp: int, clientId: string) | Data(body: string)

  /** One `socket.emit(event, payload)`. */
  datatype Emission = Emission(event: string, payload: Payload)

  /** One connection-status toast requested from the dashboard. */
  datatype StatusToast = StatusToast(message: string, kind: string)

  /**
    The controller's state.  `sockets` counts the socket objects `connect()`
    created (the socket field is non-null exactly when it is positive);
    `timers` lists every retry timer ever set, by delay, and `fired` the
    indices of those that have fired; `storedClientId` is the persisted
    'clientId' entry; `heartbeatTimer` is the 30-second send interval.
  */
  datatype Conn = Conn(
    connected: bool,
    attempts: nat,
    lastHeartbeat: Option<int>,
    sockets: nat,
    timers: seq<nat>,
    fired: set<nat>,
    outbox: seq<Emission>,
    toasts: seq<StatusToast>,
    storedClientId: Option<string>,
    heartbeatTimer: bool,
    closeRequested: bool)

  /** What every reachable state satisfies. */
  predicate Inv(s: Conn)
  {
    && s.attempts <= MaxReconnectAttempts
    && (forall i :: i in s.fired ==> i < |s.timers|)
    && (s.outbox != [] ==> s.sockets > 0)
  }

  predicate HasSocket(s: Conn) { s.sockets > 0 }

  /** Give up silently at the cap; otherwise count the attempt and set its retry timer. */
  function HandleReconnect(s: Conn): (r: Conn)
    ensures s.attempts <= MaxReconnectAttempts ==> r.attempts <= MaxReconnectAttempts
    ensures s.timers <= r.timers && |r.timers| <= |s.timers| + 1
    ensures r.(attempts := s.attempts, timers := s.timers) == s
  {
    if s.attempts >= MaxReconnectAttempts then s
    else s.(attempts := s.attempts + 1, timers := s.timers + [Delay(s.attempts + 1)])
  }

  /** `connect()`: create a socket, or treat a throwing socket factory as a failed attempt. */
  function Connect(s: Conn, ioThrows: bool): (r: Conn)
    ensures !ioThrows ==> r.sockets == s.sockets + 1 && r.timers == s.timers && r.attempts == s.attempts
    ensures ioThrows ==> r.sockets == s.sockets && |r.timers| <= |s.timers| + 1
  {
    if ioThrows then HandleReconnect(s) else s.(sockets := s.sockets + 1)
  }

  /** The constructor: `connect()`, then the two heartbeat intervals. */
  function Init(stored: Option<string>, ioThrows: bool): (r: Conn)
    ensures !r.connected && r.heartbeatTimer && r.lastHeartbeat.None? && r.outbox == []
    ensures r.sockets == (if ioThrows then 0 else 1)
    ensures r.attempts == (if ioThrows then 1 else 0)
    ensures r.storedClientId == stored
  {
    Connect(Conn(false, 0, None, 0, [], {}, [], [], stored, false, false), ioThrows).(heartbeatTimer := true)
  }

  function OnConnect(s: Conn): Conn
  {
    s.(connected := true, attempts := 0, toasts := s.toasts + [StatusToast("Connected to server", "success")])
  }

  function OnDisconnect(s: Conn, reason: string): (r: Conn)
    ensures !r.connected && r.sockets == s.sockets && r.outbox == s.outbox
    ensures reason == ServerDisconnectReason ==> r.attempts == s.attempts && r.timers == s.timers
  {
    var t := s.(connected := false);
    if reason == ServerDisconnectReason then
      t.(toasts := t.toasts + [StatusToast("Server disconnected", "error")])
    else
      HandleReconnect(t.(toasts := t.toasts + [StatusToast("Connection lost, attempting to reconnect...", "warning")]))
  }

  function OnConnectError(s: Conn): Conn
  {
    HandleReconnect(s.(connected := false))
  }

  function OnReconnect(s: Conn): Conn
  {
    s.(connected := true, attempts := 0, toasts := s.toasts + [StatusToast("Reconnected successfully", "success")])
  }

  function OnReconnectFailed(s: Conn): Conn
  {
    s.(toasts := s.toasts + [StatusToast("Failed to reconnect to server", "error")])
  }

  function OnHeartbeat(s: Conn, now: int): Conn
  {
    s.(lastHeartbeat := Some(now))
  }

  /** The persisted client id, or a new one built from the random part when none (or an empty one) is stored. */
  function ClientId(stored: Option<string>, randomPart: string): (id: string)
    ensures id != ""
    ensures stored.Some? && stored.value != "" ==> id == stored.value
  {
    if stored.Some? && stored.value != "" then stored.value else "client_" + randomPart
  }

  predicate CanSend(s: Conn) { s.connected && HasSocket(s) }

  /** The 30-second interval: emit a heartbeat tagged with the (lazily created) client id. */
  function HeartbeatTick(s: Conn, now: int, randomPart: string): (r: Conn)
    ensures s.outbox <= r.outbox && |r.outbox| <= |s.outbox| + 1
    ensures r.connected == s.connected && r.attempts == s.attempts && r.timers == s.timers
  {
    if s.heartbeatTimer && CanSend(s) then
      var id := ClientId(s.storedClientId, randomPart);
      s.(storedClientId := Some(id), outbox := s.outbox + [Emission("heartbeat", Beat(now, id))])
    else s
  }

  /** JavaScript truthiness of `lastHeartbeat` (absent or 0 is false) and the strict 60-second test. */
  predicate IsStale(lastHeartbeat: Option<int>, now: int)
    ensures lastHeartbeat.None? ==> !IsStale(lastHeartbeat, now)
    ensures lastHeartbeat.Some? && now <= lastHeartbeat.value + HeartbeatTimeout ==> !IsStale(lastHeartbeat, now)
  {
    lastHeartbeat.Some? && lastHeartbeat.value != 0 && now - lastHeartbeat.value > HeartbeatTimeout
  }

  /** The 10-second liveness check. */
  function LivenessTick(s: Conn, now: int): (r: Conn)
    ensures !IsStale(s.lastHeartbeat, now) ==> r == s
    ensures r.connected == s.connected && r.sockets == s.sockets
  {
    if IsStale(s.lastHeartbeat, now) then HandleReconnect(s) else s
  }

  predicate Pending(s: Conn, i: nat) { i < |s.timers| && i !in s.fired }

  /** A retry timer fires: reconnect only if still disconnected. */
  function FireRetry(s: Conn, i: nat, ioThrows: bool): (r: Conn)
    requires Pending(s, i)
    ensures r.fired == s.fired + {i}
    ensures s.connected ==> r.sockets == s.sockets && r.timers == s.timers && r.attempts == s.attempts
    ensures r.sockets <= s.sockets + 1
  {
    var t := s.(fired := s.fired + {i});
    if !t.connected then Connect(t, ioThrows) else t
  }

  /** `sendMessage`: emit when connected with a socket; otherwise drop (nothing is queued). */
  function SendMessage(s: Conn, event: string, payload: Payload): (r: Conn)
    ensures r.(outbox := s.outbox) == s
    ensures s.outbox <= r.outbox && |r.outbox| <= |s.outbox| + 1
  {
    if CanSend(s) then s.(outbox := s.outbox + [Emission(event, payload)]) else s
  }

  /** `destroy()`: clear the heartbeat-send interval and ask the socket to disconnect. */
  function Destroy(s: Conn): (r: Conn)
    ensures !r.heartbeatTimer
    ensures r.attempts == s.attempts && r.timers == s.timers && r.lastHeartbeat == s.lastHeartbeat
    ensures r.connected == s.connected && r.sockets == s.sockets
  {
    s.(heartbeatTimer := false, closeRequested := s.closeRequested || HasSocket(s))
  }

  datatype Event =
    | SocketConnect
    | SocketDisconnect(reason: string)
    | SocketConnectError
    | SocketReconnect(attemptNumber: nat)
    | SocketReconnectAttempt(attemptNumber: nat)
    | SocketReconnectError
    | SocketReconnectFailed
    | ServerHeartbeat(now: int)
    | HeartbeatTimerFires(now: int, randomPart: string)
    | LivenessTimerFires(now: int)
    | RetryTimerFires(timer: nat, ioThrows: bool)
    | Outbound(event: string, payload: Payload)
    | Teardown
      /** A data event (threat, stats, ...) or an unknown name: no effect on the connection. */
    | DataEvent(name: string)

  /** Only these two events set the attempt count back to 0. */
  predicate IsReset(e: Event) { e.SocketConnect? || e.SocketReconnect? }

  function Step(s: Conn, e: Event): (r: Conn)
    ensures s.sockets <= r.sockets
  {
    match e
    case SocketConnect => OnConnect(s)
    case SocketDisconnect(reason) => OnDisconnect(s, reason)
    case SocketConnectError => OnConnectError(s)
    case SocketReconnect(_) => OnReconnect(s)
    case SocketReconnectAttempt(_) => s
    case SocketReconnectError => s
    case SocketReconnectFailed => OnReconnectFailed(s)
    case ServerHeartbeat(now) => OnHeartbeat(s, now)
    case HeartbeatTimerFires(now, r) => HeartbeatTick(s, now, r)
    case LivenessTimerFires(now) => LivenessTick(s, now)
    case RetryTimerFires(i, b) => if Pending(s, i) then FireRetry(s, i, b) else s
    case Outbound(event, p) => SendMessage(s, event, p)
    case Teardown => Destroy(s)
    case DataEvent(_) => s
  }

  function Run(s: Conn, evs: seq<Event>): Conn
    decreases |evs|
  {
    if evs == [] then s else Run(Step(s, evs[0]), evs[1..])
  }

  /** The retry delays scheduled while the attempt count climbs from `a` to `b`. */
  function Backoffs(a: nat, b: nat): seq<nat>
    decreases b
  {
    if b <= a then [] else Backoffs(a, b - 1) + [Delay(b)]
  }

  // ---------------------------------------------------------------------------
  // Invariant

  lemma InitInv(stored: Option<string>, ioThrows: bool)
    ensures Inv(Init(stored, ioThrows))
    ensures Init(stored, ioThrows).attempts == (if ioThrows then 1 else 0)
    ensures Init(stored, ioThrows).timers == (if ioThrows then [ReconnectDelay] else [])
  {
  }

  lemma StepKeepsInv(s: Conn, e: Event)
    requires Inv(s)
    ensures Inv(Step(s, e))
  {
    match e
    case SocketConnect => StatusEventsKeepInv(s);
    case SocketDisconnect(reason) => DisconnectKeepsInv(s, reason);
    case SocketConnectError => HandleReconnectKeepsInv(s.(connected := false));
    case SocketReconnect(_) => StatusEventsKeepInv(s);
    case SocketReconnectAttempt(_) =>
    case SocketReconnectError =>
    case SocketReconnectFailed => StatusEventsKeepInv(s);
    case ServerHeartbeat(now) =>
    case HeartbeatTimerFires(now, r) => SendsKeepInv(s, now, r);
    case LivenessTimerFires(now) => HandleReconnectKeepsInv(s);
    case RetryTimerFires(i, b) =>
      if Pending(s, i) {
        FireRetryKeepsInv(s, i, b);
      }
    case Outbound(event, p) => SendsKeepInv(s, 0, "");
    case Teardown =>
    case DataEvent(_) =>
  }

  lemma HandleReconnectKeepsInv(s: Conn)
    requires Inv(s)
    ensures Inv(HandleReconnect(s))
  {
  }

  lemma StatusEventsKeepInv(s: Conn)
    requires Inv(s)
    ensures Inv(OnConnect(s)) && Inv(OnReconnect(s)) && Inv(OnReconnectFailed(s))
  {
  }

  lemma DisconnectKeepsInv(s: Conn, reason: string)
    requires Inv(s)
    ensures Inv(OnDisconnect(s, reason))
  {
    var t := s.(connected := false);
    if reason != ServerDisconnectReason {
      HandleReconnectKeepsInv(t.(toasts := t.toasts + [StatusToast("Connection lost, attempting to reconnect...", "warning")]));
    }
  }

  lemma SendsKeepInv(s: Conn, now: int, r: string)
    requires Inv(s)
    ensures Inv(HeartbeatTick(s, now, r))
    ensures forall event, p :: Inv(SendMessage(s, event, p))
  {
  }

  lemma FireRetryKeepsInv(s: Conn, i: nat, b: bool)
    requires Inv(s) && Pending(s, i)
    ensures Inv(FireRetry(s, i, b))
  {
    var t := s.(fired := s.fired + {i});
    assert Inv(t);
    if !t.connected && b {
      HandleReconnectKeepsInv(t);
    }
  }

  /** The attempt count never exceeds 5, whatever happens. */
  lemma {:induction false} RunKeepsInv(s: Conn, evs: seq<Event>)
    requires Inv(s)
    ensures Inv(Run(s, evs))
    ensures Run(s, evs).attempts <= MaxReconnectAttempts
    decreases |evs|
  {
    if evs != [] {
      StepKeepsInv(s, evs[0]);
      RunKeepsInv(Step(s, evs[0]), evs[1..]);
    }
  }

  // ---------------------------------------------------------------------------
  // Backoff schedule

  /** Below the cap, one call counts one attempt and sets one timer of the backoff delay; at the cap it does nothing. */
  lemma HandleReconnectSchedules(s: Conn)
    ensures s.attempts < MaxReconnectAttempts ==>
      HandleReconnect(s) == s.(attempts := s.attempts + 1, timers := s.timers + [1000 * Pow2(s.attempts)])
    ensures s.attempts >= MaxReconnectAttempts ==> HandleReconnect(s) == s
  {
  }

  lemma {:induction false} BackoffsConcat(a: nat, b: nat, c: nat)
    requires a <= b <= c
    ensures Backoffs(a, b) + Backoffs(b, c) == Backoffs(a, c)
    decreases c
  {
    if c > b {
      BackoffsConcat(a, b, c - 1);
      assert Backoffs(b, c) == Backoffs(b, c - 1) + [Delay(c)];
      assert Backoffs(a, c) == Backoffs(a, c - 1) + [Delay(c)];
    }
  }

  lemma {:induction false} BackoffsFromZero(k: nat)
    requires k <= MaxReconnectAttempts
    ensures Backoffs(0, k) == [1000, 2000, 4000, 8000, 16000][..k]
  {
    BackoffTable();
    if k > 0 {
      BackoffsFromZero(k - 1);
      var table := [1000, 2000, 4000, 8000, 16000];
      assert table[..k] == table[..k - 1] + [table[k - 1]];
    }
  }

  /** From `s` to `t` either no retry was scheduled, or exactly one: the next attempt with its delay. */
  predicate RetryStep(s: Conn, t: Conn)
  {
    || (t.attempts == s.attempts && t.timers == s.timers)
    || (t.attempts == s.attempts + 1 && t.timers == s.timers + [Delay(t.attempts)])
  }

  /** `HandleReconnect` on a state with the same count and timers as `s` schedules at most one retry after `s`. */
  lemma HandleReconnectStep(s: Conn, u: Conn)
    requires u.attempts == s.attempts && u.timers == s.timers
    ensures RetryStep(s, HandleReconnect(u))
  {
  }

  /** Every event other than a reset schedules at most one retry. */
  lemma StepRetryStep(s: Conn, e: Event)
    requires !IsReset(e)
    ensures RetryStep(s, Step(s, e))
  {
    match e
    case SocketDisconnect(reason) => DisconnectRetryStep(s, reason);
    case SocketConnectError => HandleReconnectStep(s, s.(connected := false));
    case SocketReconnectFailed =>
    case ServerHeartbeat(now) =>
    case HeartbeatTimerFires(now, r) =>
    case LivenessTimerFires(now) => HandleReconnectStep(s, s);
    case RetryTimerFires(i, b) =>
      if Pending(s, i) {
        FireRetryStep(s, i, b);
      }
    case Outbound(event, p) =>
    case Teardown =>
    case _ =>
  }

  lemma DisconnectRetryStep(s: Conn, reason: string)
    ensures RetryStep(s, OnDisconnect(s, reason))
  {
    var t := s.(connected := false);
    if reason != ServerDisconnectReason {
      HandleReconnectStep(s, t.(toasts := t.toasts + [StatusToast("Connection lost, attempting to reconnect...", "warning")]));
    }
  }

  lemma FireRetryStep(s: Conn, i: nat, b: bool)
    requires Pending(s, i)
    ensures RetryStep(s, FireRetry(s, i, b))
  {
    var t := s.(fired := s.fired + {i});
    if !t.connected && b {
      HandleReconnectStep(s, t);
    }
  }

  /** One event other than a reset never lowers the count and sets exactly the backoff timers for the attempts it adds. */
  lemma StepSchedule(s: Conn, e: Event)
    ensures var t := Step(s, e);
      !IsReset(e) ==> s.attempts <= t.attempts && t.timers == s.timers + Backoffs(s.attempts, t.attempts)
    ensures IsReset(e) ==> Step(s, e).attempts == 0 && Step(s, e).timers == s.timers && Step(s, e).connected
  {
    var t := Step(s, e);
    if !IsReset(e) {
      StepRetryStep(s, e);
      if t.attempts == s.attempts + 1 {
        assert Backoffs(s.attempts, t.attempts) == Backoffs(s.attempts, s.attempts) + [Delay(t.attempts)];
      } else {
        assert Backoffs(s.attempts, s.attempts) == [];
      }
    }
  }

  /**
    Between two resets the controller sets exactly the retry timers
    Delay(a+1), ..., Delay(b) in that order, where a is the count at the
    start and b <= 5 the count at the end.
  */
  lemma {:induction false} RunSchedule(s: Conn, evs: seq<Event>)
    requires Inv(s)
    requires forall i :: 0 <= i < |evs| ==> !IsReset(evs[i])
    ensures var t := Run(s, evs);
      && s.attempts <= t.attempts <= MaxReconnectAttempts
      && t.timers == s.timers + Backoffs(s.attempts, t.attempts)
    decreases |evs|
  {
    if evs == [] {
      assert Backoffs(s.attempts, s.attempts) == [];
    } else {
      var e, rest := evs[0], evs[1..];
      var s1 := Step(s, e);
      assert Run(s, evs) == Run(s1, rest);
      NoResetTail(evs);
      StepSchedule(s, e);
      StepKeepsInv(s, e);
      RunSchedule(s1, rest);
      ScheduleCompose(s, s1, Run(s1, rest));
    }
  }

  lemma ScheduleCompose(s: Conn, s1: Conn, t: Conn)
    requires s.attempts <= s1.attempts <= t.attempts
    requires s1.timers == s.timers + Backoffs(s.attempts, s1.attempts)
    requires t.timers == s1.timers + Backoffs(s1.attempts, t.attempts)
    ensures t.timers == s.timers + Backoffs(s.attempts, t.attempts)
  {
    BackoffsConcat(s.attempts, s1.attempts, t.attempts);
  }

  lemma NoResetTail(evs: seq<Event>)
    requires evs != []
    requires forall i :: 0 <= i < |evs| ==> !IsReset(evs[i])
    ensures !IsReset(evs[0])
    ensures forall i :: 0 <= i < |evs[1..]| ==> !IsReset(evs[1..][i])
  {
    forall i | 0 <= i < |evs[1..]| ensures !IsReset(evs[1..][i]) {
      assert evs[1..][i] == evs[i + 1];
    }
  }

  /** After a reset, at most five retries follow, with delays 1000, 2000, 4000, 8000, 16000 ms. */
  lemma AfterResetAtMostFiveRetries(s: Conn, evs: seq<Event>)
    requires Inv(s) && s.attempts == 0
    requires forall i :: 0 <= i < |evs| ==> !IsReset(evs[i])
    ensures var t := Run(s, evs);
      exists k :: 0 <= k <= MaxReconnectAttempts && t.timers == s.timers + [1000, 2000, 4000, 8000, 16000][..k]
  {
    RunSchedule(s, evs);
    var t := Run(s, evs);
    BackoffsFromZero(t.attempts);
  }

  /** Once the count is at 5 nothing is scheduled again until a connect or reconnect event. */
  lemma ExhaustedStaysSilent(s: Conn, evs: seq<Event>)
    requires Inv(s) && s.attempts == MaxReconnectAttempts
    requires forall i :: 0 <= i < |evs| ==> !IsReset(evs[i])
    ensures Run(s, evs).timers == s.timers
    ensures Run(s, evs).attempts == MaxReconnectAttempts
  {
    RunSchedule(s, evs);
    assert Backoffs(MaxReconnectAttempts, MaxReconnectAttempts) == [];
  }

  // ---------------------------------------------------------------------------
  // Transport events

  /** A connect or reconnect event marks the client connected and resets the count. */
  lemma ResetEvents(s: Conn, n: nat)
    ensures Step(s, SocketConnect).connected && Step(s, SocketConnect).attempts == 0
    ensures Step(s, SocketReconnect(n)).connected && Step(s, SocketReconnect(n)).attempts == 0
    ensures Step(s, SocketConnect).timers == s.timers && Step(s, SocketReconnect(n)).timers == s.timers
  {
  }

  /** A server-initiated disconnect is never retried. */
  lemma ServerDisconnectNotRetried(s: Conn)
    ensures var t := Step(s, SocketDisconnect(ServerDisconnectReason));
      !t.connected && t.attempts == s.attempts && t.timers == s.timers && t.sockets == s.sockets
  {
  }

  /** Any other disconnect reason, and a connect error, go through the backoff policy. */
  lemma OtherFailuresRetried(s: Conn, reason: string)
    requires reason != ServerDisconnectReason
    requires s.attempts < MaxReconnectAttempts
    ensures var t := Step(s, SocketDisconnect(reason));
      !t.connected && t.attempts == s.attempts + 1 && t.timers == s.timers + [Delay(s.attempts + 1)]
    ensures var t := Step(s, SocketConnectError);
      !t.connected && t.attempts == s.attempts + 1 && t.timers == s.timers + [Delay(s.attempts + 1)]
  {
  }

  /** A fired retry connects only if the client is still disconnected. */
  lemma RetryConnectsOnlyWhenDisconnected(s: Conn, i: nat, ioThrows: bool)
    requires Pending(s, i)
    ensures var t := Step(s, RetryTimerFires(i, ioThrows));
      && i in t.fired
      && (s.connected ==> t == s.(fired := s.fired + {i}))
      && (!s.connected && !ioThrows ==> t.sockets == s.sockets + 1)
  {
  }

  // ---------------------------------------------------------------------------
  // Liveness

  /** The check never fires before the first server heartbeat. */
  lemma NoHeartbeatNoReconnect(s: Conn, now: int)
    requires s.lastHeartbeat.None?
    ensures Step(s, LivenessTimerFires(now)) == s
  {
  }

  /** The staleness test is strict: 61 s fires, 60 s and 59 s do not. */
  lemma StalenessThreshold(last: int)
    requires last != 0
    ensures IsStale(Some(last), last + 61000)
    ensures !IsStale(Some(last), last + 60000)
    ensures !IsStale(Some(last), last + 59000)
  {
  }

  /**
    A stale heartbeat while the socket still reports connected uses up an
    attempt and sets a retry timer, but that retry does nothing when it
    fires: no socket is created and the client stays connected.
  */
  lemma StaleTickWhileConnectedWastesAttempt(s: Conn, now: int, ioThrows: bool)
    requires Inv(s) && s.connected && s.attempts < MaxReconnectAttempts
    requires IsStale(s.lastHeartbeat, now)
    ensures var t := Step(s, LivenessTimerFires(now));
      && t.connected && t.attempts == s.attempts + 1 && t.timers == s.timers + [Delay(s.attempts + 1)]
      && Pending(t, |s.timers|)
      && var u := Step(t, RetryTimerFires(|s.timers|, ioThrows));
         u.connected && u.sockets == s.sockets && u.attempts == s.attempts + 1 && u.outbox == s.outbox
  {
    var t := Step(s, LivenessTimerFires(now));
    assert |s.timers| !in s.fired;
  }

  function StaleTicks(k: nat, now: int): (evs: seq<Event>)
    ensures |evs| == k && forall i :: 0 <= i < k ==> evs[i] == LivenessTimerFires(now)
  {
    if k == 0 then [] else [LivenessTimerFires(now)] + StaleTicks(k - 1, now)
  }

  /**
    While the server stays silent and the socket still reports connected,
    repeated liveness checks climb to the cap without creating a socket.
  */
  lemma {:induction false} StaleTicksExhaustAttempts(s: Conn, now: int, k: nat)
    requires Inv(s) && s.connected && IsStale(s.lastHeartbeat, now)
    ensures var t := Run(s, StaleTicks(k, now));
      && t.attempts == Min(s.attempts + k, MaxReconnectAttempts)
      && t.connected && t.sockets == s.sockets && t.lastHeartbeat == s.lastHeartbeat
    decreases k
  {
    if k > 0 {
      var evs := StaleTicks(k, now);
      assert evs[1..] == StaleTicks(k - 1, now);
      var s1 := Step(s, evs[0]);
      StepKeepsInv(s, evs[0]);
      StaleTicksExhaustAttempts(s1, now, k - 1);
    }
  }

  // ---------------------------------------------------------------------------
  // Outbound traffic and identity

  /** Sends go out only while connected with a socket; otherwise nothing changes, so nothing is queued. */
  lemma SendOnlyWhenConnected(s: Conn, event: string, p: Payload)
    ensures CanSend(s) ==> Step(s, Outbound(event, p)).outbox == s.outbox + [Emission(event, p)]
    ensures !CanSend(s) ==> Step(s, Outbound(event, p)) == s
  {
  }

  /** The periodic heartbeat follows the same rule and is tagged with the client id. */
  lemma HeartbeatOnlyWhenConnected(s: Conn, now: int, r: string)
    ensures !(s.heartbeatTimer && CanSend(s)) ==> Step(s, HeartbeatTimerFires(now, r)) == s
    ensures s.heartbeatTimer && CanSend(s) ==>
      var t := Step(s, HeartbeatTimerFires(now, r));
      t.storedClientId.Some? &&
      t.outbox == s.outbox + [Emission("heartbeat", Beat(now, t.storedClientId.value))]
  {
  }

  /** The client id is created once and then reused, whatever the random part of later calls. */
  lemma ClientIdPersists(stored: Option<string>, r1: string, r2: string)
    ensures ClientId(Some(ClientId(stored, r1)), r2) == ClientId(stored, r1)
  {
  }

  /** Two heartbeats carry the same client id. */
  lemma HeartbeatsShareClientId(s: Conn, n1: int, r1: string, n2: int, r2: string)
    requires s.heartbeatTimer && CanSend(s)
    ensures var t := HeartbeatTick(s, n1, r1);
      var u := HeartbeatTick(t, n2, r2);
      |u.outbox| == |s.outbox| + 2 && u.outbox[|s.outbox|].payload == u.outbox[|s.outbox| + 1].payload.(timestamp := n1)
  {
    var t := HeartbeatTick(s, n1, r1);
    ClientIdPersists(s.storedClientId, r1, r2);
  }

  /**
    `destroy()` stops the heartbeat sends only: the liveness interval is
    never cleared, and the disconnect it requests reaches the handler with a
    client-side reason, which is retried.
  */
  lemma DestroyLeavesRetriesRunning(s: Conn, now: int, r: string)
    requires s.attempts < MaxReconnectAttempts
    ensures HeartbeatTick(Destroy(s), now, r) == Destroy(s)
    ensures IsStale(s.lastHeartbeat, now) ==> LivenessTick(Destroy(s), now).attempts == s.attempts + 1
    ensures OnDisconnect(Destroy(s), "io client disconnect").timers == s.timers + [Delay(s.attempts + 1)]
  {
  }
}
